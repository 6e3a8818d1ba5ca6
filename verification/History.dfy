// The journal and the controller together, over any history of steps, kills, power cuts and restarts
// (priv/efz_external.py:120-210, 392-450, 573-588).
module History {
  import opened Bytes
  import opened Storage
  import opened Records
  import opened Scripts
  import opened Sums
  import opened Supervisor
  import opened Lifecycle
  import opened Wrappers

  /** What the worker is told: kind 10, it may execute; kind 11, its result is on disk. The frame of an
      acknowledgement names only the run; the result recorded with it is the one it answers. */
  datatype Msg = Permit(key: Key, digest: bytes) | Ack(key: Key, result: map<string, Value>)

  /** How far the controller is with what it is doing to the disk. */
  datatype Phase =
    | Idle
    | Staging(place: Place, key: Key, job: Job, digest: bytes, start: Disk, n: nat)
    | Authorizing(key: Key, job: Job, digest: bytes, nonce: nat, f: Folder, n: nat)
    | Permitting(key: Key, digest: bytes)
    | Finishing(key: Key, result: map<string, Value>, nonce: nat, f: Folder, n: nat, ack: bool)
    | Acking(key: Key, result: map<string, Value>)

  datatype Proc =
    | Down
    | Recovering(c: Config, left: set<Key>, phase: Phase)
    | Up(c: Config, sup: Sup, count: nat, mark: nat, phase: Phase)

  /** jobs and sent only record what happened; mark is where this controller's messages begin. */
  datatype World = World(disk: Disk, proc: Proc, jobs: map<Key, Job>, sent: seq<Msg>)

  datatype Act =
    | Kill
    | PowerCut
    | Boot(config: Config)
    | Visit(key: Key, nonce: nat)
    | StartUp
    | Loop(block: Block, place: Place, nonce: nat)
    | FileOp(nonce: nat)
    | Say

  function Costs(jobs: map<Key, Job>): map<Key, nat> {
    map k | k in jobs :: Cost(jobs[k])
  }

  ghost function Total(jobs: map<Key, Job>, keys: set<Key>): nat
    requires keys <= jobs.Keys
  {
    Sum(Costs(jobs), keys)
  }

  /** The bytes a scan of the disk counts. */
  ghost function Scan(d: Disk): nat {
    Sum(Weights(d.runs), d.runs.Keys)
  }

  function OpsOf(lib: Library, p: Phase): seq<Op> {
    match p
    case Staging(place, key, job, _, _, _) => PrepareOps(lib, place, key, job)
    case Authorizing(key, _, _, nonce, _, _) => AuthorizeOps(lib, key, nonce)
    case Finishing(key, result, nonce, _, _, _) => FinishOps(lib, key, nonce, result)
    case _ => []
  }

  predicate Operating(p: Phase) { p.Staging? || p.Authorizing? || p.Finishing? }

  /** The phase once its next operation is done; d is the disk after it. */
  function NextPhase(lib: Library, p: Phase, d: Disk, nonce: nat): Phase
    requires Operating(p)
  {
    var last := p.n + 1 == |OpsOf(lib, p)|;
    match p
    case Staging(place, key, job, digest, start, n) =>
      if last && key in d.runs then Authorizing(key, job, digest, nonce, d.runs[key], 0)
      else Staging(place, key, job, digest, start, n + 1)
    case Authorizing(key, job, digest, nonce, f, n) =>
      if last then Permitting(key, digest) else Authorizing(key, job, digest, nonce, f, n + 1)
    case Finishing(key, result, nonce, f, n, ack) =>
      if !last then Finishing(key, result, nonce, f, n + 1, ack) else if ack then Acking(key, result) else Idle
  }

  function WithPhase(p: Proc, phase: Phase): Proc
    requires !p.Down?
  {
    match p
    case Recovering(c, left, _) => Recovering(c, left, phase)
    case Up(c, sup, count, mark, _) => Up(c, sup, count, mark, phase)
  }

  /** `finish`: nothing to do where the same result already stands, an error where another one does. */
  ghost predicate StartsFinish(lib: Library, d: Disk, key: Key, result: map<string, Value>, nonce: nat, ack: bool,
                               phase: Phase) {
    && key in d.runs
    && if Verdict in d.runs[key].live
       then ValidatedResult(lib, d.runs[key]) == Ok(result - {"sha256"})
            && phase == if ack then Acking(key, result) else Idle
       else phase == Finishing(key, result, nonce, d.runs[key], 0, ack)
  }

  ghost predicate BootStep(w: World, c: Config, w': World) {
    && w.proc.Down? && Bounded(c)
    && w' == w.(proc := Recovering(c, w.disk.runs.Keys, Idle))
  }

  /** One round of the recovery scan: the run must read back, and gets a verdict if it has none. */
  ghost predicate VisitStep(lib: Library, w: World, key: Key, nonce: nat, w': World) {
    && w.proc.Recovering? && w.proc.phase.Idle?
    && key in w.proc.left && key in w.disk.runs
    && LoadRun(lib, w.disk.runs[key]).Ok?
    && w'.disk == w.disk && w'.jobs == w.jobs && w'.sent == w.sent
    && w'.proc.Recovering? && w'.proc.c == w.proc.c && w'.proc.left == w.proc.left - {key}
    && if Verdict in w.disk.runs[key].live
       then ValidatedResult(lib, w.disk.runs[key]).Ok? && w'.proc.phase.Idle?
       else Named(LoadRun(lib, w.disk.runs[key]).value.0)
            && w'.proc.phase == Finishing(key, Interrupted(LoadRun(lib, w.disk.runs[key]).value.0,
                                                        Authorized in w.disk.runs[key].live),
                                       nonce, w.disk.runs[key], 0, false)
  }

  ghost predicate StartUpStep(w: World, w': World) {
    && w.proc.Recovering? && w.proc.phase.Idle? && w.proc.left == {}
    && w' == w.(proc := Up(w.proc.c, Initial(w.proc.c), Scan(w.disk), |w.sent|, Idle))
  }

  /** One block of the event loop, up to the first thing it does to the disk. */
  ghost predicate LoopStep(lib: Library, w: World, b: Block, place: Place, nonce: nat, w': World) {
    && w.proc.Up? && w'.proc.Up?
    && Moves(lib, w.proc.c, w.proc.sup, b, w'.proc.sup)
    && Takes(lib, w, After(lib, w.proc.c, w.proc.sup, b).1, b.Row?, place, nonce, w')
  }

  /** The controller turns to what the block asks of the journal. */
  ghost predicate Takes(lib: Library, w: World, q: Request, ack: bool, place: Place, nonce: nat, w': World)
    requires w.proc.Up? && w'.proc.Up?
  {
    var p, p' := w.proc, w'.proc;
    && w'.disk == w.disk && w'.jobs == w.jobs && w'.sent == w.sent
    && p.phase.Idle? && p'.c == p.c && p'.mark == p.mark
    && match q
       case Nothing => p'.phase.Idle? && p'.count == p.count
       case Issue(key, job, digest) =>
         && p'.count == p.count + Cost(job) && p'.count <= p.c.journalBytes
         && place.Stage?
         && p'.phase == Staging(place, key, job, digest, w.disk, 0)
       case Settle(key, result) =>
         p'.count == p.count && StartsFinish(lib, w.disk, key, result, nonce, ack, p'.phase)
  }

  ghost predicate FileStep(lib: Library, w: World, nonce: nat, w': World) {
    && !w.proc.Down? && Operating(w.proc.phase)
    && var p := w.proc.phase;
    && var ops := OpsOf(lib, p);
    && p.n < |ops| && Enabled(w.disk, ops[p.n])
    && w'.disk == Apply(w.disk, ops[p.n])
    && w'.jobs == (if ops[p.n].Publish? && p.Staging? then w.jobs[p.key := p.job] else w.jobs)
    && w'.sent == w.sent
    && w'.proc == WithPhase(w.proc, NextPhase(lib, p, w'.disk, nonce))
  }

  ghost predicate SayStep(w: World, w': World) {
    && !w.proc.Down? && (w.proc.phase.Permitting? || w.proc.phase.Acking?)
    && var p := w.proc.phase;
    && w' == w.(proc := WithPhase(w.proc, Idle),
                sent := w.sent + [if p.Permitting? then Permit(p.key, p.digest) else Ack(p.key, p.result)])
  }

  ghost predicate Step(lib: Library, w: World, a: Act, w': World) {
    match a
    case Kill => w' == w.(proc := Down)
    case PowerCut => PowerLoss(w.disk, w'.disk) && w'.proc.Down? && w'.jobs == w.jobs && w'.sent == w.sent
    case Boot(c) => BootStep(w, c, w')
    case Visit(key, nonce) => VisitStep(lib, w, key, nonce, w')
    case StartUp => StartUpStep(w, w')
    case Loop(b, place, nonce) => LoopStep(lib, w, b, place, nonce, w')
    case FileOp(nonce) => FileStep(lib, w, nonce, w')
    case Say => SayStep(w, w')
  }

  const BLANK := World(Disk(map[], {}, map[]), Down, map[], [])

  ghost predicate Run(lib: Library, ws: seq<World>, acts: seq<Act>) {
    && |ws| == |acts| + 1
    && ws[0] == BLANK
    && forall i :: 0 <= i < |acts| ==> Step(lib, ws[i], acts[i], ws[i + 1])
  }

  // ----- what holds at every point of every history -----

  /** Every visible run is complete, and was not authorized before its name was durable. */
  ghost predicate DiskSound(lib: Library, d: Disk, jobs: map<Key, Job>) {
    && d.linked <= d.runs.Keys <= jobs.Keys
    && (forall k :: k in d.runs ==> GoodRun(lib, d.runs[k], jobs[k]))
    && (forall k :: k in d.runs && k !in d.linked ==> Authorized !in d.runs[k].live)
  }

  predicate Permitted(sent: seq<Msg>, key: Key) {
    exists i :: 0 <= i < |sent| && sent[i].Permit? && sent[i].key == key
  }

  /** The run stands durably under its name and durably authorized, and the digest is of its bytes. */
  predicate Backed(lib: Library, d: Disk, jobs: map<Key, Job>, key: Key, digest: bytes) {
    && key in d.runs && key in d.linked && key in jobs
    && Authorized in d.runs[key].saved
    && digest == lib.sha(jobs[key].raw)
  }

  predicate MessageSound(lib: Library, w: World, m: Msg) {
    match m
    case Permit(key, digest) => Backed(lib, w.disk, w.jobs, key, digest)
    case Ack(key, result) => SettledAs(lib, w.disk, key, result)
  }

  predicate SentSound(lib: Library, w: World) {
    forall i :: 0 <= i < |w.sent| ==> MessageSound(lib, w, w.sent[i])
  }

  predicate SentOnce(sent: seq<Msg>) {
    forall i, j :: 0 <= i < j < |sent| && sent[i].Permit? && sent[j].Permit? ==> sent[i].key != sent[j].key
  }

  function KeyOf(p: Phase): set<Key> {
    match p
    case Idle => {}
    case Staging(_, key, _, _, _, _) => {key}
    case Authorizing(key, _, _, _, _, _) => {key}
    case Permitting(key, _) => {key}
    case Finishing(key, _, _, _, _, _) => {key}
    case Acking(key, _) => {key}
  }

  /** Runs that may be without a verdict because somebody is still at work on them. */
  function InHand(p: Proc): set<Key> {
    match p
    case Down => {}
    case Recovering(_, left, phase) => left + KeyOf(phase)
    case Up(_, sup, _, _, phase) =>
      if phase.Idle? then (if sup.gen.pending.Some? then {sup.gen.pending.value.key} else {}) else KeyOf(phase)
  }

  ghost predicate NoneForgotten(w: World) {
    !w.proc.Down? ==> forall k :: k in w.disk.runs && Verdict !in w.disk.runs[k].live ==> k in InHand(w.proc)
  }

  /** The part of a procedure already done is what the disk shows of it. */
  ghost predicate PhaseSound(lib: Library, w: World, p: Phase) {
    var d := w.disk;
    match p
    case Idle => true
    case Staging(place, key, job, digest, start, n) =>
      var ops := StageOps(lib, place, job);
      && place.Stage? && n <= |ops| + 1
      && digest == lib.sha(job.raw)
      && (n <= |ops| ==> Legal(start, ops[..n]) && d == Exec(start, ops[..n]))
      && (n > |ops| ==> key in w.jobs && w.jobs[key] == job && key in d.runs && d.runs[key] == RunFolder(lib, job))
    case Authorizing(key, job, digest, nonce, f, n) =>
      && n < 4 && key in d.runs && key in d.linked && key in w.jobs && w.jobs[key] == job
      && GoodRun(lib, f, job) && Authorized !in f.live && Verdict !in f.live
      && d.runs[key] == AtomicFolder(f, nonce, Authorized, lib.packed(PERMISSION), n)
      && digest == lib.sha(job.raw)
    case Permitting(key, digest) =>
      Backed(lib, d, w.jobs, key, digest) && Verdict !in d.runs[key].live && !Permitted(w.sent, key)
    case Finishing(key, result, nonce, f, n, ack) =>
      && n < 4 && key in d.runs && key in w.jobs
      && GoodRun(lib, f, w.jobs[key]) && Verdict !in f.live
      && d.runs[key] == AtomicFolder(f, nonce, Verdict, lib.packed(SealedResult(lib, result)), n)
      && (ack ==> key in d.linked)
    case Acking(key, result) => SettledAs(lib, d, key, result)
  }

  predicate Issuing(p: Phase) { p.Staging? || p.Authorizing? || p.Permitting? }

  /** Counted already, but not yet visible. */
  function Ahead(lib: Library, p: Phase): nat {
    if p.Staging? && p.n <= |StageOps(lib, p.place, p.job)| then Cost(p.job) else 0
  }

  /** This controller's permissions so far: its own campaign, ever larger ids, none for the run now being issued. */
  predicate PermitsAscend(w: World)
    requires w.proc.Up?
  {
    var p := w.proc;
    && p.mark <= |w.sent|
    && (forall i :: p.mark <= i < |w.sent| && w.sent[i].Permit? ==>
          w.sent[i].key.campaign == p.c.campaign && w.sent[i].key.id + (if Issuing(p.phase) then 1 else 0) <= p.sup.run)
    && (forall i, j :: p.mark <= i < j < |w.sent| && w.sent[i].Permit? && w.sent[j].Permit? ==>
          w.sent[i].key.id < w.sent[j].key.id)
  }

  ghost predicate UpSound(lib: Library, w: World)
    requires w.proc.Up? && w.disk.runs.Keys <= w.jobs.Keys
  {
    var p := w.proc;
    && Inv(p.c, p.sup)
    && PermitsAscend(w)
    && p.count >= Total(w.jobs, w.disk.runs.Keys) + Ahead(lib, p.phase)
    && match p.phase
       case Idle =>
         p.sup.gen.pending.Some? ==> Outstanding(w.disk, p.sup.gen.pending.value.key)
       case Finishing(_, _, _, _, _, _) => p.sup.gen.pending.None?
       case Acking(_, _) => p.sup.gen.pending.None?
       case _ =>
         && p.sup.gen.pending.Some?
         && p.phase.key == p.sup.gen.pending.value.key
         && p.phase.key == Key(p.c.campaign, p.sup.run)
  }

  /** Durably there and still without a verdict. */
  predicate Outstanding(d: Disk, key: Key) {
    key in d.runs && key in d.linked && Verdict !in d.runs[key].live
  }

  lemma InterruptedIs(m: Value, authorized: bool)
    requires Named(m)
    ensures Interrupting(Interrupted(m, authorized), authorized)
  {
    InterruptedTells(m, authorized);
  }

  ghost predicate RecoverySound(p: Proc)
    requires p.Recovering?
  {
    p.phase.Idle?
    || (p.phase.Finishing? && !p.phase.ack && Interrupting(p.phase.result, Authorized in p.phase.f.live))
  }

  ghost predicate WorldSound(lib: Library, w: World) {
    && DiskSound(lib, w.disk, w.jobs)
    && SentSound(lib, w)
    && SentOnce(w.sent)
    && NoneForgotten(w)
    && (!w.proc.Down? ==> PhaseSound(lib, w, w.proc.phase))
    && (w.proc.Up? ==> UpSound(lib, w))
    && (w.proc.Recovering? ==> RecoverySound(w.proc))
  }

  // ----- steps that leave the disk alone, or lose part of it -----

  lemma PowerCutKeeps(lib: Library, w: World, w': World)
    requires WorldSound(lib, w) && Step(lib, w, PowerCut, w')
    ensures WorldSound(lib, w')
  {
    LossKeepsDisk(lib, w.disk, w'.disk, w.jobs);
    forall i | 0 <= i < |w'.sent| ensures MessageSound(lib, w', w'.sent[i]) {
      assert MessageSound(lib, w, w.sent[i]);
      LossKeepsMessage(lib, w, w', w.sent[i]);
    }
  }

  lemma LossKeepsDisk(lib: Library, d: Disk, d': Disk, jobs: map<Key, Job>)
    requires DiskSound(lib, d, jobs) && PowerLoss(d, d')
    ensures DiskSound(lib, d', jobs)
  {
    hide GoodRun, FolderAfterLoss;
    forall k | k in d'.runs ensures GoodRun(lib, d'.runs[k], jobs[k]) {
      LossKeepsGood(lib, d.runs[k], d'.runs[k], jobs[k]);
    }
  }

  lemma LossKeepsMessage(lib: Library, w: World, w': World, m: Msg)
    requires DiskSound(lib, w.disk, w.jobs) && PowerLoss(w.disk, w'.disk) && w'.jobs == w.jobs
    requires MessageSound(lib, w, m)
    ensures MessageSound(lib, w', m)
  {
    hide GoodRun;
    LossKeepsGood(lib, w.disk.runs[m.key], w'.disk.runs[m.key], w.jobs[m.key]);
  }

  lemma BootKeeps(lib: Library, w: World, c: Config, w': World)
    requires WorldSound(lib, w) && Step(lib, w, Boot(c), w')
    ensures WorldSound(lib, w')
  {
    hide DiskSound;
    SameDiskSent(lib, w, w');
  }

  lemma SameDiskSent(lib: Library, w: World, w': World)
    requires SentSound(lib, w) && w'.disk == w.disk && w'.jobs == w.jobs && w'.sent == w.sent
    ensures SentSound(lib, w')
  {
    forall i | 0 <= i < |w'.sent| ensures MessageSound(lib, w', w'.sent[i]) {
      assert MessageSound(lib, w, w.sent[i]);
    }
  }

  lemma VisitKeeps(lib: Library, w: World, key: Key, nonce: nat, w': World)
    requires WorldSound(lib, w) && Step(lib, w, Visit(key, nonce), w')
    ensures WorldSound(lib, w')
  {
    hide LoadRun, ValidatedResult, GoodRun, Interrupted, SealedResult, Interrupting;
    if Verdict !in w.disk.runs[key].live {
      InterruptedIs(LoadRun(lib, w.disk.runs[key]).value.0, Authorized in w.disk.runs[key].live);
    }
    SameDiskSent(lib, w, w');
    hide SentSound, SentOnce;
    assert NoneForgotten(w');
  }

  lemma StartUpKeeps(lib: Library, w: World, w': World)
    requires WorldSound(lib, w) && Step(lib, w, StartUp, w')
    ensures WorldSound(lib, w')
  {
    ScanIsTotal(lib, w.disk, w.jobs);
    assert w.disk.runs.Keys <= w.jobs.Keys;
    assert Scan(w.disk) == Total(w.jobs, w.disk.runs.Keys);
    hide Scan, Total, GoodRun;
    SameDiskSent(lib, w, w');
    assert w'.proc.Up? && w'.proc.count == Scan(w.disk);
    assert Inv(w'.proc.c, w'.proc.sup) by { InitialInv(w'.proc.c); }
  }

  /** A scan counts what was charged for the runs it finds. */
  lemma ScanIsTotal(lib: Library, d: Disk, jobs: map<Key, Job>)
    requires DiskSound(lib, d, jobs)
    ensures Scan(d) == Total(jobs, d.runs.Keys)
  {
    hide Holds, Solid, Weight;
    forall k | k in d.runs ensures Weights(d.runs)[k] == Costs(jobs)[k] {
      assert GoodRun(lib, d.runs[k], jobs[k]);
      WeightIsCost(lib, d.runs[k], jobs[k]);
    }
    SumSame(Weights(d.runs), Costs(jobs), d.runs.Keys);
  }

  lemma KillKeeps(lib: Library, w: World, w': World)
    requires WorldSound(lib, w) && Step(lib, w, Kill, w')
    ensures WorldSound(lib, w')
  {
    hide DiskSound;
    SameDiskSent(lib, w, w');
  }

  // ----- messages -----

  lemma SayKeeps(lib: Library, w: World, w': World)
    requires WorldSound(lib, w) && Step(lib, w, Say, w')
    ensures WorldSound(lib, w')
  {
    hide DiskSound, UpSound, Inv, Total, SentOnce;
    SayKeepsUp(lib, w, w');
    SayForgetsNone(lib, w, w');
    hide PermitsAscend, NoneForgotten;
    var p := w.proc.phase;
    var m := if p.Permitting? then Permit(p.key, p.digest) else Ack(p.key, p.result);
    forall i | 0 <= i < |w'.sent| ensures MessageSound(lib, w', w'.sent[i]) {
      assert i < |w.sent| ==> MessageSound(lib, w, w.sent[i]);
    }
    SayKeepsOnce(w.sent, m);
  }

  lemma SayKeepsUp(lib: Library, w: World, w': World)
    requires w.proc.Up? && SayStep(w, w')
    requires DiskSound(lib, w.disk, w.jobs) && PhaseSound(lib, w, w.proc.phase) && UpSound(lib, w)
    ensures UpSound(lib, w')
  {
    hide DiskSound, Inv, Total;
    SayKeepsAscent(w, w');
    hide PermitsAscend;
  }

  lemma SayForgetsNone(lib: Library, w: World, w': World)
    requires w.proc.Up? && SayStep(w, w') && NoneForgotten(w)
    requires DiskSound(lib, w.disk, w.jobs) && PhaseSound(lib, w, w.proc.phase) && UpSound(lib, w)
    ensures NoneForgotten(w')
  {
    if w.proc.phase.Acking? {
      SavedIsLive(lib, w.disk, w.jobs, w.proc.phase.key, Verdict);
    }
    hide DiskSound, Inv, Total, PermitsAscend;
  }

  lemma SavedIsLive(lib: Library, d: Disk, jobs: map<Key, Job>, key: Key, name: FileName)
    requires DiskSound(lib, d, jobs) && key in d.runs && !name.Tmp? && name in d.runs[key].saved
    ensures name in d.runs[key].live
  {
    assert GoodRun(lib, d.runs[key], jobs[key]);
  }

  lemma SayKeepsAscent(w: World, w': World)
    requires w.proc.Up? && PermitsAscend(w) && SayStep(w, w')
    requires w.proc.phase.Permitting? ==> w.proc.phase.key == Key(w.proc.c.campaign, w.proc.sup.run)
    ensures PermitsAscend(w')
  {
  }

  lemma SayKeepsOnce(sent: seq<Msg>, m: Msg)
    requires SentOnce(sent) && (m.Permit? ==> !Permitted(sent, m.key))
    ensures SentOnce(sent + [m])
  {
  }

  // ----- the event loop -----

  lemma TakesKeepsAscent(lib: Library, w: World, q: Request, ack: bool, place: Place, nonce: nat, w': World)
    requires w.proc.Up? && w'.proc.Up? && PermitsAscend(w)
    requires Takes(lib, w, q, ack, place, nonce, w') && RequestFits(w.proc.c, w.proc.sup, w'.proc.sup, q)
    ensures PermitsAscend(w')
  {
    hide ValidatedResult;
  }

  lemma TakesKeepsUp(lib: Library, w: World, q: Request, ack: bool, place: Place, nonce: nat, w': World)
    requires w.proc.Up? && w'.proc.Up? && w.disk.runs.Keys <= w.jobs.Keys && UpSound(lib, w)
    requires Takes(lib, w, q, ack, place, nonce, w') && RequestFits(w.proc.c, w.proc.sup, w'.proc.sup, q)
    requires Inv(w.proc.c, w'.proc.sup)
    ensures UpSound(lib, w')
  {
    TakesKeepsAscent(lib, w, q, ack, place, nonce, w');
    hide Inv, Total, ValidatedResult, PermitsAscend;
  }

  lemma TakesKeepsPhase(lib: Library, w: World, q: Request, ack: bool, place: Place, nonce: nat, w': World)
    requires w.proc.Up? && w'.proc.Up? && DiskSound(lib, w.disk, w.jobs) && UpSound(lib, w)
    requires Takes(lib, w, q, ack, place, nonce, w') && RequestFits(w.proc.c, w.proc.sup, w'.proc.sup, q)
    requires q.Issue? ==> q.digest == lib.sha(q.job.raw)
    ensures PhaseSound(lib, w', w'.proc.phase)
  {
    hide Inv, Total, ValidatedResult, PermitsAscend, GoodRun, SealedResult;
  }

  lemma TakesForgetsNone(lib: Library, w: World, q: Request, ack: bool, place: Place, nonce: nat, w': World)
    requires w.proc.Up? && w'.proc.Up? && w.disk.runs.Keys <= w.jobs.Keys && UpSound(lib, w) && NoneForgotten(w)
    requires Takes(lib, w, q, ack, place, nonce, w') && RequestFits(w.proc.c, w.proc.sup, w'.proc.sup, q)
    ensures NoneForgotten(w')
  {
    hide Inv, Total, ValidatedResult, PermitsAscend;
  }

  lemma LoopKeeps(lib: Library, w: World, b: Block, place: Place, nonce: nat, w': World)
    requires WorldSound(lib, w) && Step(lib, w, Loop(b, place, nonce), w')
    ensures WorldSound(lib, w')
  {
    var c, s := w.proc.c, w.proc.sup;
    var q := After(lib, c, s, b).1;
    AfterKeeps(lib, c, s, b);
    Requests(lib, c, s, b);
    if q.Issue? {
      DigestIsOfInput(lib, c, s, b);
    }
    hide After, Inv, Can, Shaped;
    TakesKeepsUp(lib, w, q, b.Row?, place, nonce, w');
    TakesKeepsPhase(lib, w, q, b.Row?, place, nonce, w');
    TakesForgetsNone(lib, w, q, b.Row?, place, nonce, w');
    SameDiskSent(lib, w, w');
    hide UpSound, PhaseSound, DiskSound, StartsFinish, NoneForgotten, SentSound, SentOnce;
  }

  // ----- file operations -----

  lemma StageOpInvisible(d: Disk, op: Op)
    requires OnStage(op) && Enabled(d, op)
    ensures Apply(d, op).runs == d.runs && Apply(d, op).linked == d.linked
  {
  }

  /** What has been staged is what the next stage operation starts from. */
  lemma StagingAdvances(lib: Library, start: Disk, d: Disk, place: Place, job: Job, n: nat)
    requires place.Stage?
    requires var ops := StageOps(lib, place, job);
             n < |ops| && Legal(start, ops[..n]) && d == Exec(start, ops[..n]) && Enabled(d, ops[n])
    ensures var ops := StageOps(lib, place, job);
            var d' := Apply(d, ops[n]);
            Legal(start, ops[..n + 1]) && d' == Exec(start, ops[..n + 1])
            && d'.runs == d.runs && d'.linked == d.linked
  {
    var ops := StageOps(lib, place, job);
    StageOpsOnStage(lib, place, job);
    hide StageOps, Enabled, Apply, OnStage;
    assert ops[..n + 1][..n] == ops[..n];
    StageOpInvisible(d, ops[n]);
  }

  /** When everything is staged, the folder under the staging name is the whole run. */
  lemma StagedFully(lib: Library, start: Disk, d: Disk, place: Place, job: Job)
    requires place.Stage?
    requires Legal(start, StageOps(lib, place, job)) && d == Exec(start, StageOps(lib, place, job))
    ensures place in d.stages && d.stages[place] == RunFolder(lib, job)
  {
    StagedUnderFreeName(lib, start, place, job);
    StagingCompletes(lib, start, place, job);
  }

  lemma TotalGrows(jobs: map<Key, Job>, keys: set<Key>, key: Key, job: Job)
    requires keys <= jobs.Keys && key !in keys
    ensures Total(jobs[key := job], keys + {key}) == Total(jobs, keys) + Cost(job)
  {
    SumAdd(Costs(jobs), Costs(jobs[key := job]), keys, key);
  }

  /** Only staging moved: nothing anybody relies on has. */
  lemma SameRunsKeep(lib: Library, w: World, w': World)
    requires DiskSound(lib, w.disk, w.jobs) && SentSound(lib, w)
    requires w'.disk.runs == w.disk.runs && w.disk.linked <= w'.disk.linked <= w'.disk.runs.Keys
    requires w'.jobs == w.jobs && w'.sent == w.sent
    ensures DiskSound(lib, w'.disk, w'.jobs) && SentSound(lib, w')
  {
    forall i | 0 <= i < |w'.sent| ensures MessageSound(lib, w', w'.sent[i]) {
      assert MessageSound(lib, w, w.sent[i]);
    }
  }

  /** A new run appears under a name nobody has been told of. */
  lemma NewRunKeeps(lib: Library, w: World, w': World, key: Key, job: Job)
    requires DiskSound(lib, w.disk, w.jobs) && SentSound(lib, w)
    requires key !in w.disk.runs && w'.disk.linked == w.disk.linked
    requires w'.disk.runs == w.disk.runs[key := RunFolder(lib, job)] && w'.jobs == w.jobs[key := job]
    requires w'.sent == w.sent
    ensures DiskSound(lib, w'.disk, w'.jobs) && SentSound(lib, w')
  {
    RunFolderGood(lib, job);
    hide GoodRun, RunFolder;
    forall i | 0 <= i < |w'.sent| ensures MessageSound(lib, w', w'.sent[i]) {
      assert MessageSound(lib, w, w.sent[i]);
    }
  }

  /** One run's folder moves on, keeping what it was good for. */
  lemma FolderStepKeeps(lib: Library, w: World, w': World, key: Key, g: Folder)
    requires DiskSound(lib, w.disk, w.jobs) && SentSound(lib, w)
    requires key in w.disk.runs && w'.disk == w.disk.(runs := w.disk.runs[key := g])
    requires w'.jobs == w.jobs && w'.sent == w.sent
    requires GoodRun(lib, g, w.jobs[key]) && Keeps(w.disk.runs[key], g)
    requires key !in w.disk.linked ==> Authorized !in g.live
    ensures DiskSound(lib, w'.disk, w'.jobs) && SentSound(lib, w')
  {
    hide GoodRun;
    forall i | 0 <= i < |w'.sent| ensures MessageSound(lib, w', w'.sent[i]) {
      assert MessageSound(lib, w, w.sent[i]);
    }
  }

  /** The controller goes on with the run it is issuing. */
  lemma IssuingMovesOn(lib: Library, w: World, w': World, p': Phase)
    requires w.proc.Up? && w.disk.runs.Keys <= w.jobs.Keys && UpSound(lib, w)
    requires Issuing(w.proc.phase) && Issuing(p') && p'.key == w.proc.phase.key
    requires w'.proc == WithPhase(w.proc, p') && w'.sent == w.sent && w'.disk.runs.Keys <= w'.jobs.Keys
    requires Total(w'.jobs, w'.disk.runs.Keys) + Ahead(lib, p')
             <= Total(w.jobs, w.disk.runs.Keys) + Ahead(lib, w.proc.phase)
    ensures UpSound(lib, w')
  {
    hide Inv, Total, Ahead;
  }

  /** Staging, publishing and making the name durable: what each operation comes to. */
  lemma StagingEffect(lib: Library, w: World, nonce: nat, w': World)
    requires FileStep(lib, w, nonce, w') && w.proc.phase.Staging?
    requires PhaseSound(lib, w, w.proc.phase)
    requires w.proc.phase.n < |StageOps(lib, w.proc.phase.place, w.proc.phase.job)|
    ensures w'.disk.runs == w.disk.runs && w'.disk.linked == w.disk.linked && w'.jobs == w.jobs && w'.sent == w.sent
    ensures var p := w.proc.phase;
            var p' := Staging(p.place, p.key, p.job, p.digest, p.start, p.n + 1);
            w'.proc == WithPhase(w.proc, p') && PhaseSound(lib, w', p')
  {
    var p := w.proc.phase;
    var ops := StageOps(lib, p.place, p.job);
    assert PrepareOps(lib, p.place, p.key, p.job)[p.n] == ops[p.n];
    StageOpsOnStage(lib, p.place, p.job);
    assert OnStage(ops[p.n]);
    hide StageOps, Enabled, Apply, RunFolder;
    StagingAdvances(lib, p.start, w.disk, p.place, p.job, p.n);
  }

  lemma PublishEffect(lib: Library, w: World, nonce: nat, w': World)
    requires FileStep(lib, w, nonce, w') && w.proc.phase.Staging?
    requires PhaseSound(lib, w, w.proc.phase)
    requires w.proc.phase.n == |StageOps(lib, w.proc.phase.place, w.proc.phase.job)|
    ensures var p := w.proc.phase;
            && p.key !in w.disk.runs && w'.disk.runs == w.disk.runs[p.key := RunFolder(lib, p.job)]
            && w'.disk.linked == w.disk.linked && w'.jobs == w.jobs[p.key := p.job] && w'.sent == w.sent
            && var p' := Staging(p.place, p.key, p.job, p.digest, p.start, p.n + 1);
            w'.proc == WithPhase(w.proc, p') && PhaseSound(lib, w', p')
  {
    var p := w.proc.phase;
    var ops := StageOps(lib, p.place, p.job);
    assert PrepareOps(lib, p.place, p.key, p.job)[p.n] == Publish(p.place, p.key);
    assert ops[..p.n] == ops;
    hide StageOps, RunFolder;
    StagedFully(lib, p.start, w.disk, p.place, p.job);
  }

  lemma LinkEffect(lib: Library, w: World, nonce: nat, w': World)
    requires FileStep(lib, w, nonce, w') && w.proc.phase.Staging?
    requires PhaseSound(lib, w, w.proc.phase)
    requires w.proc.phase.n == |StageOps(lib, w.proc.phase.place, w.proc.phase.job)| + 1
    ensures w'.disk.runs == w.disk.runs && w'.jobs == w.jobs && w'.sent == w.sent
    ensures w'.disk.linked == w.disk.linked + CampaignKeys(w.disk, w.proc.phase.key.campaign)
    ensures var p := w.proc.phase;
            var p' := Authorizing(p.key, p.job, p.digest, nonce, RunFolder(lib, p.job), 0);
            w'.proc == WithPhase(w.proc, p') && PhaseSound(lib, w', p')
  {
    var p := w.proc.phase;
    assert PrepareOps(lib, p.place, p.key, p.job)[p.n] == SyncCampaign(p.key.campaign);
    assert p.n + 1 == |PrepareOps(lib, p.place, p.key, p.job)|;
    hide StageOps, RunFolder;
    RunFolderGood(lib, p.job);
  }

  /** One operation of `atomic` on the run under work. */
  lemma AtomicEffect(lib: Library, w: World, nonce: nat, w': World, name: FileName, data: bytes)
    requires FileStep(lib, w, nonce, w') && (w.proc.phase.Authorizing? || w.proc.phase.Finishing?)
    requires PhaseSound(lib, w, w.proc.phase)
    requires if w.proc.phase.Authorizing? then name == Authorized && data == lib.packed(PERMISSION)
             else name == Verdict && data == lib.packed(SealedResult(lib, w.proc.phase.result))
    ensures w'.jobs == w.jobs && w'.sent == w.sent
    ensures var p := w.proc.phase;
            && w'.disk == w.disk.(runs := w.disk.runs[p.key := AtomicFolder(p.f, p.nonce, name, data, p.n + 1)])
            && w'.proc == WithPhase(w.proc, NextPhase(lib, p, w'.disk, nonce))
  {
    var p := w.proc.phase;
    assert OpsOf(lib, p) == AtomicOps(p.key, p.nonce, name, data);
    hide Enabled, Apply, AtomicFolder, SealedResult, GoodRun;
    AtomicStep(w.disk, p.f, p.key, p.nonce, name, data, p.n);
  }

  /** What a step of the run being issued leaves to be shown. */
  ghost predicate Onward(lib: Library, w: World, w': World) {
    && DiskSound(lib, w'.disk, w'.jobs) && SentSound(lib, w') && w'.sent == w.sent
    && w.proc.Up? && w'.proc.Up? && Issuing(w.proc.phase)
    && Issuing(w'.proc.phase) && w'.proc.phase.key == w.proc.phase.key
    && w'.proc == WithPhase(w.proc, w'.proc.phase)
    && PhaseSound(lib, w', w'.proc.phase)
    && w.disk.runs.Keys <= w.jobs.Keys
    && Total(w'.jobs, w'.disk.runs.Keys) + Ahead(lib, w'.proc.phase)
       <= Total(w.jobs, w.disk.runs.Keys) + Ahead(lib, w.proc.phase)
    && (forall k :: k in w'.disk.runs && Verdict !in w'.disk.runs[k].live ==>
          k == w.proc.phase.key || (k in w.disk.runs && Verdict !in w.disk.runs[k].live))
  }

  lemma OnwardKeeps(lib: Library, w: World, w': World)
    requires WorldSound(lib, w) && Onward(lib, w, w')
    ensures WorldSound(lib, w')
  {
    hide PhaseSound, SentSound, SentOnce, Total, UpSound, Ahead, GoodRun;
    IssuingMovesOn(lib, w, w', w'.proc.phase);
  }

  lemma StagingOnward(lib: Library, w: World, nonce: nat, w': World)
    requires DiskSound(lib, w.disk, w.jobs) && SentSound(lib, w)
    requires w.proc.Up? && w.proc.phase.Staging? && PhaseSound(lib, w, w.proc.phase)
    requires FileStep(lib, w, nonce, w')
    ensures Onward(lib, w, w')
  {
    hide FileStep, PhaseSound, SentSound, Total, StageOps, RunFolder, GoodRun;
    var p := w.proc.phase;
    var size := |StageOps(lib, p.place, p.job)|;
    var keys := w.disk.runs.Keys;
    assert p.n <= size + 1 by { StagingBound(lib, w); }
    if p.n < size {
      StagingEffect(lib, w, nonce, w');
      SameRunsKeep(lib, w, w');
    } else if p.n == size {
      PublishEffect(lib, w, nonce, w');
      NewRunKeeps(lib, w, w', p.key, p.job);
      TotalGrows(w.jobs, keys, p.key, p.job);
      assert w'.disk.runs.Keys == keys + {p.key};
    } else {
      LinkEffect(lib, w, nonce, w');
      SameRunsKeep(lib, w, w');
    }
  }

  lemma StagingBound(lib: Library, w: World)
    requires w.proc.Up? && w.proc.phase.Staging? && PhaseSound(lib, w, w.proc.phase)
    ensures w.proc.phase.n <= |StageOps(lib, w.proc.phase.place, w.proc.phase.job)| + 1
  {
  }

  lemma KeysKnown(lib: Library, d: Disk, jobs: map<Key, Job>)
    requires DiskSound(lib, d, jobs)
    ensures d.runs.Keys <= jobs.Keys
  {
  }

  lemma NothingAhead(lib: Library, p: Phase, p': Phase)
    requires !p.Staging? && !p'.Staging?
    ensures Ahead(lib, p) == 0 && Ahead(lib, p') == 0
  {
  }

  lemma AuthorizingAdvances(lib: Library, w: World, nonce: nat, w': World)
    requires DiskSound(lib, w.disk, w.jobs) && SentSound(lib, w)
    requires w.proc.Up? && w.proc.phase.Authorizing? && PhaseSound(lib, w, w.proc.phase)
    requires FileStep(lib, w, nonce, w')
    ensures DiskSound(lib, w'.disk, w'.jobs) && SentSound(lib, w')
    ensures PhaseSound(lib, w', w'.proc.phase) && Issuing(w'.proc.phase) && w'.proc.phase.key == w.proc.phase.key
    ensures w'.sent == w.sent && w'.jobs == w.jobs && w'.disk.runs.Keys == w.disk.runs.Keys
    ensures w'.proc == WithPhase(w.proc, w'.proc.phase) && !w'.proc.phase.Staging?
    ensures forall k :: k in w.disk.runs && k != w.proc.phase.key ==> w'.disk.runs[k] == w.disk.runs[k]
  {
    hide FileStep, SentSound, AtomicFolder, GoodRun;
    var p := w.proc.phase;
    var data := lib.packed(PERMISSION);
    AtomicEffect(lib, w, nonce, w', Authorized, data);
    AtomicFacts(lib, p.f, p.job, p.nonce, Authorized, data, p.n);
    FolderStepKeeps(lib, w, w', p.key, AtomicFolder(p.f, p.nonce, Authorized, data, p.n + 1));
    NotYetPermitted(lib, w, p.key);
    assert |OpsOf(lib, p)| == 4;
  }

  lemma AuthorizingOnward(lib: Library, w: World, nonce: nat, w': World)
    requires DiskSound(lib, w.disk, w.jobs) && SentSound(lib, w)
    requires w.proc.Up? && w.proc.phase.Authorizing? && PhaseSound(lib, w, w.proc.phase)
    requires FileStep(lib, w, nonce, w')
    ensures Onward(lib, w, w')
  {
    hide FileStep, PhaseSound, SentSound, Total, GoodRun, Ahead;
    AuthorizingAdvances(lib, w, nonce, w');
    NothingAhead(lib, w.proc.phase, w'.proc.phase);
  }

  lemma NotYetPermitted(lib: Library, w: World, key: Key)
    requires SentSound(lib, w) && key in w.disk.runs && Authorized !in w.disk.runs[key].saved
    ensures !Permitted(w.sent, key)
  {
    forall i | 0 <= i < |w.sent| && w.sent[i].Permit? ensures w.sent[i].key != key {
      assert MessageSound(lib, w, w.sent[i]);
    }
  }

  lemma FinishingAdvances(lib: Library, w: World, nonce: nat, w': World)
    requires DiskSound(lib, w.disk, w.jobs) && SentSound(lib, w)
    requires !w.proc.Down? && w.proc.phase.Finishing? && PhaseSound(lib, w, w.proc.phase)
    requires FileStep(lib, w, nonce, w')
    ensures DiskSound(lib, w'.disk, w'.jobs) && SentSound(lib, w')
    ensures PhaseSound(lib, w', w'.proc.phase)
    ensures w'.sent == w.sent && w'.jobs == w.jobs && w'.disk.runs.Keys == w.disk.runs.Keys
    ensures w'.proc == WithPhase(w.proc, w'.proc.phase)
    ensures forall k :: k in w.disk.runs && k != w.proc.phase.key ==> w'.disk.runs[k] == w.disk.runs[k]
    ensures var p, p' := w.proc.phase, w'.proc.phase;
            (p'.Finishing? && p'.key == p.key && p'.ack == p.ack)
            || (p'.Acking? && p'.key == p.key && p'.result == p.result && p.ack)
            || (p'.Idle? && !p.ack && p.key in w'.disk.runs && Verdict in w'.disk.runs[p.key].live)
  {
    hide FileStep, SentSound, AtomicFolder, GoodRun, SealedResult;
    var p := w.proc.phase;
    var data := lib.packed(SealedResult(lib, p.result));
    AtomicEffect(lib, w, nonce, w', Verdict, data);
    AtomicFacts(lib, p.f, w.jobs[p.key], p.nonce, Verdict, data, p.n);
    FolderStepKeeps(lib, w, w', p.key, AtomicFolder(p.f, p.nonce, Verdict, data, p.n + 1));
    assert |OpsOf(lib, p)| == 4;
  }

  /** The controller, or recovery, goes on with a verdict. */
  lemma FinishingMovesOn(lib: Library, w: World, w': World, p': Phase)
    requires w.proc.Up? && w.disk.runs.Keys <= w.jobs.Keys && UpSound(lib, w)
    requires w.proc.phase.Finishing? && (p'.Finishing? || p'.Acking? || p'.Idle?)
    requires w'.proc == WithPhase(w.proc, p') && w'.sent == w.sent && w'.jobs == w.jobs
    requires w'.disk.runs.Keys == w.disk.runs.Keys
    ensures UpSound(lib, w')
  {
    hide Inv, Total;
  }

  lemma FinishingForgetsNone(lib: Library, w: World, nonce: nat, w': World)
    requires DiskSound(lib, w.disk, w.jobs) && SentSound(lib, w) && NoneForgotten(w)
    requires !w.proc.Down? && w.proc.phase.Finishing? && PhaseSound(lib, w, w.proc.phase)
    requires FileStep(lib, w, nonce, w')
    requires w.proc.Up? ==> w.proc.sup.gen.pending.None?
    ensures NoneForgotten(w')
  {
    hide FileStep, PhaseSound, SentSound, GoodRun, DiskSound;
    FinishingAdvances(lib, w, nonce, w');
  }

  lemma FinishingKeeps(lib: Library, w: World, nonce: nat, w': World)
    requires WorldSound(lib, w) && FileStep(lib, w, nonce, w') && !w.proc.Down? && w.proc.phase.Finishing?
    ensures WorldSound(lib, w')
  {
    hide FileStep, PhaseSound, SentSound, SentOnce, DiskSound, Total, NoneForgotten, PermitsAscend, Inv, Ahead;
    FinishingAdvances(lib, w, nonce, w');
    KeysKnown(lib, w.disk, w.jobs);
    FinishingForgetsNone(lib, w, nonce, w');
    hide UpSound;
    if w.proc.Up? {
      FinishingMovesOn(lib, w, w', w'.proc.phase);
    } else {
      FinishingRecovers(lib, w, nonce, w');
    }
  }

  lemma FinishingRecovers(lib: Library, w: World, nonce: nat, w': World)
    requires w.proc.Recovering? && RecoverySound(w.proc) && w.proc.phase.Finishing?
    requires FileStep(lib, w, nonce, w')
    ensures w'.proc.Recovering? && RecoverySound(w'.proc)
  {
    hide Interrupting, Enabled, Apply, FinishOps;
  }

  lemma PhaseOwner(lib: Library, w: World)
    requires WorldSound(lib, w) && !w.proc.Down?
    ensures DiskSound(lib, w.disk, w.jobs) && SentSound(lib, w) && PhaseSound(lib, w, w.proc.phase)
    ensures Issuing(w.proc.phase) ==> w.proc.Up?
  {
    hide DiskSound, SentSound, PhaseSound, UpSound, NoneForgotten, SentOnce;
  }

  /** Every step keeps the world sound. */
  lemma StepKeeps(lib: Library, w: World, a: Act, w': World)
    requires WorldSound(lib, w) && Step(lib, w, a, w')
    ensures WorldSound(lib, w')
  {
    hide WorldSound, PowerLoss, BootStep, VisitStep, StartUpStep, LoopStep, SayStep;
    match a
    case Kill => KillKeeps(lib, w, w');
    case PowerCut => PowerCutKeeps(lib, w, w');
    case Boot(c) => BootKeeps(lib, w, c, w');
    case Visit(key, nonce) => VisitKeeps(lib, w, key, nonce, w');
    case StartUp => StartUpKeeps(lib, w, w');
    case Loop(b, place, nonce) => LoopKeeps(lib, w, b, place, nonce, w');
    case Say => SayKeeps(lib, w, w');
    case FileOp(nonce) =>
      PhaseOwner(lib, w);
      if w.proc.phase.Staging? {
        StagingOnward(lib, w, nonce, w');
        OnwardKeeps(lib, w, w');
      } else if w.proc.phase.Authorizing? {
        AuthorizingOnward(lib, w, nonce, w');
        OnwardKeeps(lib, w, w');
      } else {
        FinishingKeeps(lib, w, nonce, w');
      }
  }

  // ----- theorems over whole histories -----

  lemma BlankSound(lib: Library)
    ensures WorldSound(lib, BLANK)
  {
  }

  lemma {:induction false} HistorySound(lib: Library, ws: seq<World>, acts: seq<Act>, i: nat)
    requires Run(lib, ws, acts) && i < |ws|
    ensures WorldSound(lib, ws[i])
  {
    hide WorldSound, Step;
    if i == 0 {
      BlankSound(lib);
    } else {
      HistorySound(lib, ws, acts, i - 1);
      StepKeeps(lib, ws[i - 1], acts[i - 1], ws[i]);
    }
  }

  /** Write-ahead: whenever a permission has been sent, then and ever after, through kills, power cuts
      and restarts, its run stands durably published and authorized, with the very bytes the permitted
      digest is of; `load_run` reads them back exactly when they are within its limits. */
  lemma WriteAhead(lib: Library, ws: seq<World>, acts: seq<Act>, i: nat, m: nat)
    requires Run(lib, ws, acts) && i < |ws| && m < |ws[i].sent| && ws[i].sent[m].Permit?
    ensures var (w, key) := (ws[i], ws[i].sent[m].key);
            && Backed(lib, w.disk, w.jobs, key, w.sent[m].digest)
            && Holds(lib, w.disk.runs[key], w.jobs[key])
            && (Faithful(lib) ==> (LoadRun(lib, w.disk.runs[key]) == Ok((w.jobs[key].meta, w.jobs[key].raw))
                                   <==> Legible(lib, w.jobs[key])))
  {
    HistorySound(lib, ws, acts, i);
    hide NoneForgotten, PhaseSound, UpSound, RecoverySound, SentOnce, Holds, Step, Solid;
    var w := ws[i];
    assert MessageSound(lib, w, w.sent[m]);
    var key := w.sent[m].key;
    assert GoodRun(lib, w.disk.runs[key], w.jobs[key]);
    if Faithful(lib) {
      ReadsBack(lib, w.disk.runs[key], w.jobs[key]);
    }
  }

  /** No run is permitted twice, whatever campaign names the controllers pick; and each controller's
      own permissions carry ever larger ids. */
  lemma PermittedOnce(lib: Library, ws: seq<World>, acts: seq<Act>, i: nat)
    requires Run(lib, ws, acts) && i < |ws|
    ensures SentOnce(ws[i].sent)
    ensures ws[i].proc.Up? ==> PermitsAscend(ws[i])
  {
    HistorySound(lib, ws, acts, i);
    hide NoneForgotten, PhaseSound, RecoverySound, SentSound, DiskSound, Step, SentOnce;
  }

  /** The very result that was acknowledged is the durable verdict, then and ever after. */
  lemma AckMeansDurable(lib: Library, ws: seq<World>, acts: seq<Act>, i: nat, m: nat)
    requires Run(lib, ws, acts) && i < |ws| && m < |ws[i].sent| && ws[i].sent[m].Ack?
    ensures var (d, key, result) := (ws[i].disk, ws[i].sent[m].key, ws[i].sent[m].result);
            && SettledAs(lib, d, key, result)
            && Verdict in d.runs[key].live
            && d.runs[key].live[Verdict].data == lib.packed(SealedResult(lib, result))
  {
    HistorySound(lib, ws, acts, i);
    hide NoneForgotten, PhaseSound, UpSound, RecoverySound, SentOnce, Step, SealedResult, Holds;
    assert MessageSound(lib, ws[i], ws[i].sent[m]);
    var key := ws[i].sent[m].key;
    assert GoodRun(lib, ws[i].disk.runs[key], ws[i].jobs[key]);
  }

  /** Every visible run is complete: the artifacts are those it was prepared with, all of them saved. */
  lemma VisibleIsComplete(lib: Library, ws: seq<World>, acts: seq<Act>, i: nat, key: Key)
    requires Run(lib, ws, acts) && i < |ws| && key in ws[i].disk.runs
    ensures key in ws[i].jobs && GoodRun(lib, ws[i].disk.runs[key], ws[i].jobs[key])
  {
    HistorySound(lib, ws, acts, i);
    hide NoneForgotten, PhaseSound, UpSound, RecoverySound, SentOnce, SentSound, Step, GoodRun;
  }

  lemma VanishStep(lib: Library, w: World, a: Act, w': World, key: Key)
    requires WorldSound(lib, w) && Step(lib, w, a, w')
    requires key in w.disk.runs && key !in w'.disk.runs
    ensures a.PowerCut? && key !in w.disk.linked && Authorized !in w.disk.runs[key].live && !Permitted(w.sent, key)
  {
    hide NoneForgotten, UpSound, RecoverySound, SentOnce, GoodRun, BootStep, VisitStep, StartUpStep, LoopStep;
    hide SayStep;
    if a.PowerCut? {
      forall i | 0 <= i < |w.sent| && w.sent[i].Permit? ensures w.sent[i].key != key {
        assert MessageSound(lib, w, w.sent[i]);
      }
    } else {
      DiskMoves(lib, w, a, w');
    }
  }

  /** Short of a power cut, what a step does to the runs is one of three things. */
  lemma DiskMoves(lib: Library, w: World, a: Act, w': World)
    requires WorldSound(lib, w) && Step(lib, w, a, w') && !a.PowerCut?
    ensures || w'.disk.runs == w.disk.runs
            || (w.proc.Up? && w.proc.phase.Staging? && w.proc.phase.key !in w.disk.runs
                && w'.disk.runs == w.disk.runs[w.proc.phase.key := RunFolder(lib, w.proc.phase.job)])
            || (!w.proc.Down? && (w.proc.phase.Authorizing? || w.proc.phase.Finishing?)
                && var p := w.proc.phase;
                var (name, data) := AtomicTarget(lib, p);
                p.n < 4 && name !in p.f.live && Verdict !in p.f.live && p.key in w.disk.runs
                && w.disk.runs[p.key] == AtomicFolder(p.f, p.nonce, name, data, p.n)
                && w'.disk.runs == w.disk.runs[p.key := AtomicFolder(p.f, p.nonce, name, data, p.n + 1)])
    ensures w.disk.linked <= w'.disk.linked
  {
    if a.FileOp? {
      PhaseOwner(lib, w);
      hide WorldSound, Step, StageOps, RunFolder, AtomicFolder, GoodRun, DiskSound, SentSound, SealedResult, FileStep;
      assert FileStep(lib, w, a.nonce, w') by { FileActs(lib, w, a, w'); }
      FileMoves(lib, w, a.nonce, w');
    } else {
      hide WorldSound, Moves, StartsFinish, FileStep, PowerLoss, LoadRun, ValidatedResult, Total, Initial;
    }
  }

  lemma FileActs(lib: Library, w: World, a: Act, w': World)
    requires Step(lib, w, a, w') && a.FileOp?
    ensures FileStep(lib, w, a.nonce, w')
  {
    hide FileStep;
  }

  function AtomicTarget(lib: Library, p: Phase): (FileName, bytes)
    requires p.Authorizing? || p.Finishing?
  {
    match p
    case Authorizing(_, _, _, _, _, _) => (Authorized, lib.packed(PERMISSION))
    case Finishing(_, result, _, _, _, _) => (Verdict, lib.packed(SealedResult(lib, result)))
  }

  lemma FileMoves(lib: Library, w: World, nonce: nat, w': World)
    requires !w.proc.Down? && PhaseSound(lib, w, w.proc.phase) && FileStep(lib, w, nonce, w')
    ensures w.disk.linked <= w'.disk.linked
    ensures || w'.disk.runs == w.disk.runs
            || (w.proc.phase.Staging? && w.proc.phase.key !in w.disk.runs
                && w'.disk.runs == w.disk.runs[w.proc.phase.key := RunFolder(lib, w.proc.phase.job)])
            || ((w.proc.phase.Authorizing? || w.proc.phase.Finishing?)
                && var p := w.proc.phase;
                var (name, data) := AtomicTarget(lib, p);
                p.n < 4 && name !in p.f.live && Verdict !in p.f.live && p.key in w.disk.runs
                && w.disk.runs[p.key] == AtomicFolder(p.f, p.nonce, name, data, p.n)
                && w'.disk.runs == w.disk.runs[p.key := AtomicFolder(p.f, p.nonce, name, data, p.n + 1)])
  {
    hide FileStep, StageOps, RunFolder, AtomicFolder, GoodRun, SealedResult;
    var p := w.proc.phase;
    if p.Staging? {
      var size := |StageOps(lib, p.place, p.job)|;
      if p.n < size {
        StagingEffect(lib, w, nonce, w');
      } else if p.n == size {
        PublishEffect(lib, w, nonce, w');
      } else {
        LinkEffect(lib, w, nonce, w');
      }
    } else {
      assert p.Authorizing? || p.Finishing? by { Operates(lib, w, nonce, w'); }
      var (name, data) := AtomicTarget(lib, p);
      AtomicEffect(lib, w, nonce, w', name, data);
    }
  }

  lemma Operates(lib: Library, w: World, nonce: nat, w': World)
    requires FileStep(lib, w, nonce, w')
    ensures Operating(w.proc.phase)
  {
  }

  /** The verdict of a run, once visible, is not rewritten by any step, nor taken back by a power cut once it is
      durable. */
  lemma VerdictStays(lib: Library, w: World, a: Act, w': World, key: Key)
    requires WorldSound(lib, w) && Step(lib, w, a, w')
    requires key in w.disk.runs && Verdict in w.disk.runs[key].live
    requires a.PowerCut? ==> Concluded(w.disk, key)
    ensures key in w'.disk.runs && Verdict in w'.disk.runs[key].live
    ensures w'.disk.runs[key].live[Verdict] == w.disk.runs[key].live[Verdict]
    ensures Concluded(w.disk, key) ==> Concluded(w'.disk, key)
  {
    hide NoneForgotten, PhaseSound, UpSound, RecoverySound, SentSound, SentOnce, Step, RunFolder, GoodRun;
    hide AtomicFolder;
    if a.PowerCut? {
      CutActs(lib, w, a, w');
      LossKeepsGood(lib, w.disk.runs[key], w'.disk.runs[key], w.jobs[key]);
    } else {
      DiskMoves(lib, w, a, w');
      if w'.disk.runs[key] != w.disk.runs[key] {
        var p := w.proc.phase;
        var (name, data) := AtomicTarget(lib, p);
        AtomicKeepsVerdict(p.f, p.nonce, name, data, p.n);
      }
    }
  }

  lemma CutActs(lib: Library, w: World, a: Act, w': World)
    requires Step(lib, w, a, w') && a.PowerCut?
    ensures PowerLoss(w.disk, w'.disk) && w'.sent == w.sent && w'.jobs == w.jobs && w'.proc.Down?
  {
    hide PowerLoss;
  }

  lemma AtomicKeepsVerdict(f: Folder, nonce: nat, name: FileName, data: bytes, n: nat)
    requires n < 4 && name in {Authorized, Verdict} && name !in f.live && Verdict !in f.live
    requires Verdict in AtomicFolder(f, nonce, name, data, n).live
    ensures var h, g := AtomicFolder(f, nonce, name, data, n), AtomicFolder(f, nonce, name, data, n + 1);
            && Verdict in g.live && g.live[Verdict] == h.live[Verdict]
            && (Verdict in h.saved ==> Verdict in g.saved)
  {
  }

  /** ... so over any history a visible verdict is final: through whatever happens if it was durable, and short of
      a power cut if it was not. */
  lemma {:induction false} VerdictIsFinal(lib: Library, ws: seq<World>, acts: seq<Act>, i: nat, j: nat, key: Key)
    requires Run(lib, ws, acts) && i <= j < |ws|
    requires || Concluded(ws[i].disk, key)
             || (key in ws[i].disk.runs && Verdict in ws[i].disk.runs[key].live
                 && forall k :: i <= k < j ==> !acts[k].PowerCut?)
    ensures Concluded(ws[i].disk, key) ==> Concluded(ws[j].disk, key)
    ensures key in ws[i].disk.runs && Verdict in ws[i].disk.runs[key].live
    ensures key in ws[j].disk.runs && Verdict in ws[j].disk.runs[key].live
    ensures ws[j].disk.runs[key].live[Verdict] == ws[i].disk.runs[key].live[Verdict]
    decreases j
  {
    hide WorldSound, Step;
    if i == j {
      if Concluded(ws[i].disk, key) {
        HistorySound(lib, ws, acts, i);
        ConcludedIsLive(lib, ws[i], key);
      }
    } else {
      VerdictIsFinal(lib, ws, acts, i, j - 1, key);
      HistorySound(lib, ws, acts, j - 1);
      VerdictStays(lib, ws[j - 1], acts[j - 1], ws[j], key);
    }
  }

  lemma ConcludedIsLive(lib: Library, w: World, key: Key)
    requires WorldSound(lib, w) && Concluded(w.disk, key)
    ensures Verdict in w.disk.runs[key].live
  {
    hide NoneForgotten, PhaseSound, UpSound, RecoverySound, SentSound, SentOnce;
    SavedIsLive(lib, w.disk, w.jobs, key, Verdict);
  }

  lemma StartUpStepSettles(lib: Library, w: World, w': World)
    requires WorldSound(lib, w) && Step(lib, w, StartUp, w')
    ensures forall k :: k in w'.disk.runs ==> Verdict in w'.disk.runs[k].live
  {
    hide DiskSound, SentSound, SentOnce, Total, Initial;
  }

  lemma OneWithout(lib: Library, w: World, k: Key, l: Key)
    requires WorldSound(lib, w) && w.proc.Up?
    requires k in w.disk.runs && Verdict !in w.disk.runs[k].live
    requires l in w.disk.runs && Verdict !in w.disk.runs[l].live
    ensures k == l
  {
    hide DiskSound, SentSound, SentOnce, PhaseSound, UpSound;
  }

  lemma RecoveryPhase(lib: Library, w: World)
    requires WorldSound(lib, w) && w.proc.Recovering? && w.proc.phase.Finishing?
    ensures Interrupting(w.proc.phase.result, Authorized in w.proc.phase.f.live)
    ensures w.proc.phase.key in w.disk.runs
            && (Authorized in w.disk.runs[w.proc.phase.key].live <==> Authorized in w.proc.phase.f.live)
  {
    hide DiskSound, SentSound, SentOnce, UpSound, NoneForgotten, Interrupting, AtomicFolder, SealedResult, GoodRun;
    var p := w.proc.phase;
    assert Verdict !in p.f.saved by { VerdictUnsaved(lib, p.f, w.jobs[p.key]); }
    AtomicShows(p.f, p.nonce, Verdict, lib.packed(SealedResult(lib, p.result)), p.n);
  }

  /** Nothing left to recover. */
  predicate Settled(d: Disk) {
    forall k :: k in d.runs ==> Verdict in d.runs[k].live
  }

  predicate Starting(w: World) {
    Settled(w.disk) && (w.proc.Down? || (w.proc.Recovering? && w.proc.phase.Idle?))
  }

  /** A second recovery changes nothing, however often it is killed and begun again. */
  lemma {:induction false} SecondRecoveryIsIdle(lib: Library, ws: seq<World>, acts: seq<Act>, i: nat)
    requires |ws| == |acts| + 1 && i < |ws| && Starting(ws[0])
    requires forall j :: 0 <= j < |acts| ==> Step(lib, ws[j], acts[j], ws[j + 1])
    requires forall j :: 0 <= j < |acts| ==> !acts[j].PowerCut? && !acts[j].StartUp?
    ensures ws[i].disk == ws[0].disk && Starting(ws[i])
  {
    hide Step, Settled;
    if i > 0 {
      SecondRecoveryIsIdle(lib, ws, acts, i - 1);
      IdleStep(lib, ws[i - 1], acts[i - 1], ws[i]);
    }
  }

  lemma IdleStep(lib: Library, w: World, a: Act, w': World)
    requires Starting(w) && Step(lib, w, a, w') && !a.PowerCut? && !a.StartUp?
    ensures w'.disk == w.disk && Starting(w')
  {
    hide Moves, Takes, Apply, Enabled, LoadRun, ValidatedResult, Interrupted, PowerLoss, Total, Initial;
  }

  /** A visible run that does not read back, and the controller not yet past it. */
  predicate Stuck(lib: Library, w: World, key: Key) {
    && key in w.disk.runs && LoadRun(lib, w.disk.runs[key]).Err?
    && match w.proc
       case Down => true
       case Recovering(_, left, phase) =>
         key in left && (phase.Idle? || (phase.Finishing? && phase.key != key && !phase.ack))
       case Up(_, _, _, _, _) => false
  }

  /** One run outside the reader's limits ends the journal for good: once the controller is down, no later one,
      however often one is begun, ever gets through recovery. That holds through power cuts where the name of
      the run is durable, as it is for every run that was permitted. */
  lemma UnreadableRunBlocksEveryRestart(lib: Library, ws: seq<World>, acts: seq<Act>, i: nat, j: nat, key: Key)
    requires Run(lib, ws, acts) && i <= j < |ws| && Faithful(lib) && ws[i].proc.Down?
    requires key in ws[i].disk.runs && key in ws[i].jobs && !Legible(lib, ws[i].jobs[key])
    requires key in ws[i].disk.linked || forall k :: i <= k < j ==> !acts[k].PowerCut?
    ensures key in ws[j].disk.runs && LoadRun(lib, ws[j].disk.runs[key]).Err? && !ws[j].proc.Up?
  {
    hide Run, LoadRun, Legible, Stuck;
    StaysStuck(lib, ws, acts, i, j, key);
    StuckIsDown(lib, ws[j], key);
  }

  lemma {:induction false} StaysStuck(lib: Library, ws: seq<World>, acts: seq<Act>, i: nat, j: nat, key: Key)
    requires Run(lib, ws, acts) && i <= j < |ws| && Faithful(lib) && ws[i].proc.Down?
    requires key in ws[i].disk.runs && key in ws[i].jobs && !Legible(lib, ws[i].jobs[key])
    requires key in ws[i].disk.linked || forall k :: i <= k < j ==> !acts[k].PowerCut?
    ensures Stuck(lib, ws[j], key) && key in ws[j].jobs && ws[j].jobs[key] == ws[i].jobs[key]
    ensures key in ws[i].disk.linked ==> key in ws[j].disk.linked
    decreases j
  {
    hide Step, LoadRun, Legible, WorldSound, Stuck;
    if i == j {
      HistorySound(lib, ws, acts, i);
      UnreadableIsStuck(lib, ws[i], key);
    } else {
      StaysStuck(lib, ws, acts, i, j - 1, key);
      HistorySound(lib, ws, acts, j - 1);
      HistorySound(lib, ws, acts, j);
      StuckMoves(lib, ws[j - 1], acts[j - 1], ws[j], key);
    }
  }

  lemma UnreadableIsStuck(lib: Library, w: World, key: Key)
    requires Faithful(lib) && WorldSound(lib, w) && w.proc.Down?
    requires key in w.disk.runs && key in w.jobs && !Legible(lib, w.jobs[key])
    ensures Stuck(lib, w, key)
  {
    hide LoadRun, Legible, SentSound, SentOnce, Holds, Solid;
    assert GoodRun(lib, w.disk.runs[key], w.jobs[key]);
    ReadsBack(lib, w.disk.runs[key], w.jobs[key]);
  }

  lemma StuckMoves(lib: Library, w: World, a: Act, w': World, key: Key)
    requires WorldSound(lib, w) && Step(lib, w, a, w') && WorldSound(lib, w')
    requires Faithful(lib) && Stuck(lib, w, key) && key in w.jobs && !Legible(lib, w.jobs[key])
    requires a.PowerCut? ==> key in w.disk.linked
    ensures Stuck(lib, w', key) && key in w'.jobs && w'.jobs[key] == w.jobs[key]
    ensures key in w.disk.linked ==> key in w'.disk.linked
  {
    hide Step, LoadRun, Legible, WorldSound, Stuck;
    StuckIsDown(lib, w, key);
    JobStays(lib, w, a, w', key);
    if a.PowerCut? {
      CutActs(lib, w, a, w');
      UnreadableIsStuck(lib, w', key);
    } else {
      StuckStep(lib, w, a, w', key);
      DiskMoves(lib, w, a, w');
    }
  }

  lemma JobStays(lib: Library, w: World, a: Act, w': World, key: Key)
    requires Step(lib, w, a, w') && key in w.disk.runs && key in w.jobs
    ensures key in w'.jobs && w'.jobs[key] == w.jobs[key]
  {
    hide Moves, StartsFinish, PowerLoss, LoadRun, ValidatedResult, Scan, Initial, FileStep;
    if a.FileOp? {
      assert FileStep(lib, w, a.nonce, w') by { FileActs(lib, w, a, w'); }
      FileKeepsJob(lib, w, a.nonce, w', key);
    }
  }

  lemma FileKeepsJob(lib: Library, w: World, nonce: nat, w': World, key: Key)
    requires FileStep(lib, w, nonce, w') && key in w.disk.runs && key in w.jobs
    ensures key in w'.jobs && w'.jobs[key] == w.jobs[key]
  {
    hide Apply, StageOps, AuthorizeOps, FinishOps, NextPhase;
    var p := w.proc.phase;
    if p.Staging? && OpsOf(lib, p)[p.n].Publish? {
      PublishedLast(lib, p.place, p.key, p.job, p.n);
    }
  }

  lemma PublishedLast(lib: Library, place: Place, key: Key, job: Job, n: nat)
    requires n < |PrepareOps(lib, place, key, job)| && PrepareOps(lib, place, key, job)[n].Publish?
    ensures PrepareOps(lib, place, key, job)[n] == Publish(place, key)
  {
    hide StageOps;
    var ops := StageOps(lib, place, job);
    if n < |ops| {
      NeverPublishes(lib, place, job, n);
    }
  }

  lemma NeverPublishes(lib: Library, place: Place, job: Job, n: nat)
    requires n < |StageOps(lib, place, job)|
    ensures !StageOps(lib, place, job)[n].Publish?
  {
    hide Files;
    WritesOnly(place, Files(lib, job));
  }

  lemma {:induction false} WritesOnly(place: Place, files: seq<(FileName, bytes)>)
    ensures forall i :: 0 <= i < |WriteAll(place, files)| ==> !WriteAll(place, files)[i].Publish?
  {
    if files != [] {
      WritesOnly(place, files[..|files| - 1]);
    }
  }

  lemma StuckIsDown(lib: Library, w: World, key: Key)
    requires Stuck(lib, w, key)
    ensures key in w.disk.runs && LoadRun(lib, w.disk.runs[key]).Err? && !w.proc.Up?
  {
    hide LoadRun;
  }

  lemma StuckStep(lib: Library, w: World, a: Act, w': World, key: Key)
    requires Stuck(lib, w, key) && Step(lib, w, a, w') && !a.PowerCut?
    ensures Stuck(lib, w', key)
  {
    hide Moves, Takes, LoadRun, ValidatedResult, Interrupted, PowerLoss, Total, Initial, Apply, Enabled;
    hide FinishOps, LoopStep, StartUpStep;
    if a.FileOp? {
      StuckFile(lib, w, a.nonce, w', key);
    } else if a.Loop? {
      LoopsUp(lib, w, a, w');
      assert false;
    } else if a.StartUp? {
      StartsEmpty(w, w');
      assert false;
    }
  }

  lemma LoopsUp(lib: Library, w: World, a: Act, w': World)
    requires a.Loop? && LoopStep(lib, w, a.block, a.place, a.nonce, w')
    ensures w.proc.Up?
  {
    hide Moves, Takes;
  }

  lemma StartsEmpty(w: World, w': World)
    requires StartUpStep(w, w')
    ensures w.proc.Recovering? && w.proc.left == {}
  {
    hide Total, Initial;
  }

  lemma StuckFile(lib: Library, w: World, nonce: nat, w': World, key: Key)
    requires Stuck(lib, w, key) && FileStep(lib, w, nonce, w')
    ensures Stuck(lib, w', key)
  {
    hide LoadRun, SealedResult;
  }

  // ----- bytes -----

  lemma RecountStep(lib: Library, w: World, a: Act, w': World)
    requires WorldSound(lib, w) && w.proc.Up? && Step(lib, w, a, w') && (a.Kill? || a.PowerCut?)
    ensures Scan(w'.disk) <= w.proc.count
  {
    hide SentSound, SentOnce, PhaseSound, NoneForgotten, GoodRun, Inv, PermitsAscend, FolderAfterLoss, Scan;
    if a.PowerCut? {
      LossKeepsDisk(lib, w.disk, w'.disk, w.jobs);
    }
    ScanIsTotal(lib, w'.disk, w'.jobs);
    SumMonotone(Costs(w.jobs), w'.disk.runs.Keys, w.disk.runs.Keys);
  }

  // ----- said of whole histories -----

  /** Only runs that were never authorized, nor permitted, can vanish, and only in a power cut before their
      name was durable. */
  lemma OnlyUnauthorizedVanish(lib: Library, ws: seq<World>, acts: seq<Act>, i: nat, key: Key)
    requires Run(lib, ws, acts) && i < |acts|
    requires key in ws[i].disk.runs && key !in ws[i + 1].disk.runs
    ensures acts[i].PowerCut? && key !in ws[i].disk.linked
            && Authorized !in ws[i].disk.runs[key].live && !Permitted(ws[i].sent, key)
  {
    hide WorldSound, Step;
    HistorySound(lib, ws, acts, i);
    VanishStep(lib, ws[i], acts[i], ws[i + 1], key);
  }

  /** A power cut can take a run away exactly as long as the run's name is not durable; whether the run has
      a verdict, even a durable one that recovery wrote, makes no difference. */
  lemma VanishesExactly(lib: Library, ws: seq<World>, acts: seq<Act>, i: nat, key: Key)
    requires Run(lib, ws, acts) && i < |ws| && key in ws[i].disk.runs
    ensures (exists a, w' :: Step(lib, ws[i], a, w') && key !in w'.disk.runs) <==> key !in ws[i].disk.linked
  {
    hide WorldSound, Step;
    HistorySound(lib, ws, acts, i);
    if a, w' :| Step(lib, ws[i], a, w') && key !in w'.disk.runs {
      VanishStep(lib, ws[i], a, w', key);
    }
    if key !in ws[i].disk.linked {
      var w' := Taken(lib, ws[i], key);
    }
  }

  /** A visible verdict can be taken back exactly as long as it is not durable under a durable name, whoever wrote
      it, and whether or not a recovery has passed it since. */
  lemma VerdictGoesExactly(lib: Library, ws: seq<World>, acts: seq<Act>, i: nat, key: Key)
    requires Run(lib, ws, acts) && i < |ws|
    requires key in ws[i].disk.runs && Verdict in ws[i].disk.runs[key].live
    ensures (exists a, w' :: Step(lib, ws[i], a, w')
                             && (key in w'.disk.runs ==> Verdict !in w'.disk.runs[key].live))
            <==> !Concluded(ws[i].disk, key)
  {
    hide WorldSound, Step;
    HistorySound(lib, ws, acts, i);
    if Concluded(ws[i].disk, key) {
      forall a, w' | Step(lib, ws[i], a, w') ensures key in w'.disk.runs && Verdict in w'.disk.runs[key].live {
        VerdictStays(lib, ws[i], a, w', key);
      }
    } else {
      var w' := WorstCut(lib, ws[i]);
      assert key in w'.disk.runs ==> Verdict !in w'.disk.runs[key].live;
    }
  }

  /** The power cut that takes it. */
  lemma Taken(lib: Library, w: World, key: Key) returns (w': World)
    requires WorldSound(lib, w) && key in w.disk.runs && key !in w.disk.linked
    ensures Step(lib, w, PowerCut, w') && key !in w'.disk.runs
  {
    hide WorldSound, Step;
    w' := WorstCut(lib, w);
  }

  /** What is left when everything goes that can go. */
  function Durable(d: Disk): Disk {
    var runs := map k | k in d.runs && k in d.linked :: Folder(d.runs[k].saved, d.runs[k].saved);
    Disk(runs, runs.Keys, map[])
  }

  lemma WorstCut(lib: Library, w: World) returns (w': World)
    requires WorldSound(lib, w)
    ensures Step(lib, w, PowerCut, w') && w' == World(Durable(w.disk), Down, w.jobs, w.sent)
  {
    hide SentSound, SentOnce, NoneForgotten, PhaseSound, UpSound, RecoverySound, Holds;
    var d := w.disk;
    w' := World(Durable(d), Down, w.jobs, w.sent);
    forall k | k in w'.disk.runs ensures FolderAfterLoss(d.runs[k], w'.disk.runs[k]) {
      assert GoodRun(lib, d.runs[k], w.jobs[k]);
    }
  }

  /** When recovery is done, no visible run is without a verdict. */
  lemma RecoveryLeavesNone(lib: Library, ws: seq<World>, acts: seq<Act>, i: nat)
    requires Run(lib, ws, acts) && i < |acts| && acts[i].StartUp?
    ensures Settled(ws[i + 1].disk)
  {
    hide WorldSound, Step;
    HistorySound(lib, ws, acts, i);
    StartUpStepSettles(lib, ws[i], ws[i + 1]);
  }

  /** While a controller is up, at most one visible run is without a verdict. */
  lemma OnlyOneWithout(lib: Library, ws: seq<World>, acts: seq<Act>, i: nat, k: Key, l: Key)
    requires Run(lib, ws, acts) && i < |ws| && ws[i].proc.Up?
    requires k in ws[i].disk.runs && Verdict !in ws[i].disk.runs[k].live
    requires l in ws[i].disk.runs && Verdict !in ws[i].disk.runs[l].live
    ensures k == l
  {
    hide WorldSound, Step;
    HistorySound(lib, ws, acts, i);
    OneWithout(lib, ws[i], k, l);
  }

  /** A verdict that appears during recovery says "interrupted": unknown exactly where permission was
      recorded, prepared where it was not, and nothing else. */
  lemma RecoveryNeverAccuses(lib: Library, ws: seq<World>, acts: seq<Act>, i: nat, key: Key)
    requires Run(lib, ws, acts) && i < |acts| && ws[i].proc.Recovering?
    requires key in ws[i].disk.runs && Verdict !in ws[i].disk.runs[key].live
    requires key in ws[i + 1].disk.runs && Verdict in ws[i + 1].disk.runs[key].live
    ensures exists result :: Interrupting(result, Authorized in ws[i].disk.runs[key].live)
              && ws[i + 1].disk.runs[key].live[Verdict].data == lib.packed(SealedResult(lib, result))
  {
    hide WorldSound, Step;
    HistorySound(lib, ws, acts, i);
    VerdictAppears(lib, ws[i], acts[i], ws[i + 1], key);
  }

  lemma VerdictAppears(lib: Library, w: World, a: Act, w': World, key: Key)
    requires WorldSound(lib, w) && Step(lib, w, a, w') && w.proc.Recovering?
    requires key in w.disk.runs && Verdict !in w.disk.runs[key].live
    requires key in w'.disk.runs && Verdict in w'.disk.runs[key].live
    ensures exists result :: Interrupting(result, Authorized in w.disk.runs[key].live)
              && w'.disk.runs[key].live[Verdict].data == lib.packed(SealedResult(lib, result))
  {
    hide NoneForgotten, UpSound, SentSound, SentOnce, Step, GoodRun, AtomicFolder, SealedResult, Interrupting;
    hide RunFolder;
    assert !a.PowerCut? by { CutShowsNothing(lib, w, a, w', key); }
    DiskMoves(lib, w, a, w');
    RecoveryPhaseIs(lib, w);
    var p := w.proc.phase;
    RecoveryPhase(lib, w);
    assert Verdict !in p.f.saved by { VerdictUnsaved(lib, p.f, w.jobs[p.key]); }
    AtomicShows(p.f, p.nonce, Verdict, lib.packed(SealedResult(lib, p.result)), p.n + 1);
  }

  lemma CutShowsNothing(lib: Library, w: World, a: Act, w': World, key: Key)
    requires WorldSound(lib, w) && Step(lib, w, a, w')
    requires key in w.disk.runs && Verdict !in w.disk.runs[key].live && key in w'.disk.runs
             && Verdict in w'.disk.runs[key].live
    ensures !a.PowerCut?
  {
    hide NoneForgotten, UpSound, SentSound, SentOnce, Step, PhaseSound, RecoverySound;
    if a.PowerCut? {
      CutActs(lib, w, a, w');
      LossKeepsGood(lib, w.disk.runs[key], w'.disk.runs[key], w.jobs[key]);
    }
  }

  lemma RecoveryPhaseIs(lib: Library, w: World)
    requires WorldSound(lib, w) && w.proc.Recovering?
    ensures w.proc.phase.Idle? || w.proc.phase.Finishing?
  {
    hide NoneForgotten, UpSound, SentSound, SentOnce, PhaseSound, DiskSound, Interrupting;
  }

  /** The running count covers all visible runs: what the scan of a restart will count on the disk that is
      left never exceeds what the controller that went down had counted. */
  lemma RecountNeverExceeds(lib: Library, ws: seq<World>, acts: seq<Act>, i: nat)
    requires Run(lib, ws, acts) && i < |acts| && ws[i].proc.Up? && (acts[i].Kill? || acts[i].PowerCut?)
    ensures Sum(Weights(ws[i + 1].disk.runs), ws[i + 1].disk.runs.Keys) <= ws[i].proc.count
  {
    hide WorldSound, Step;
    HistorySound(lib, ws, acts, i);
    RecountStep(lib, ws[i], acts[i], ws[i + 1]);
  }
}
