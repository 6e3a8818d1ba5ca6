// Histories that show where the promises about visible runs end: a permitted run that keeps every later
// controller down, a recovered run that a power cut takes away, and a worker's own result that a recovery has
// read and a power cut takes back (priv/efz_external.py:94-135, 156-210).
module Outages {
  import opened Bytes
  import opened Wire
  import opened Storage
  import opened Records
  import opened Scripts
  import opened Supervisor
  import opened Lifecycle
  import opened Messages
  import opened Witness
  import opened History
  import opened Wrappers

  /** Some history gets from the one world to the other. */
  ghost predicate Follows(lib: Library, w: World, w': World) {
    exists ws, acts :: History.Run(lib, ws, acts) && w in ws && ws[|acts|] == w'
  }

  /** Some history gets there. */
  ghost predicate Arrives(lib: Library, w: World) {
    Follows(lib, BLANK, w)
  }

  lemma GoesOn(lib: Library, w0: World, w: World, a: Act, w': World)
    requires Follows(lib, w0, w) && Step(lib, w, a, w')
    ensures Follows(lib, w0, w')
  {
    hide Step;
    var ws, acts :| History.Run(lib, ws, acts) && w0 in ws && ws[|acts|] == w;
    var ws', acts' := ws + [w'], acts + [a];
    forall i | 0 <= i < |acts'| ensures Step(lib, ws'[i], acts'[i], ws'[i + 1]) {
      assert i < |acts| ==> Step(lib, ws[i], acts[i], ws[i + 1]);
    }
    assert History.Run(lib, ws', acts') && w0 in ws' && ws'[|acts'|] == w';
  }

  lemma Goes(lib: Library, w: World, a: Act, w': World)
    requires Arrives(lib, w) && Step(lib, w, a, w')
    ensures Arrives(lib, w')
  {
    hide Follows, Step;
    GoesOn(lib, BLANK, w, a, w');
  }

  lemma FollowsSound(lib: Library, w: World, w': World)
    requires Follows(lib, w, w')
    ensures WorldSound(lib, w') && Follows(lib, w', w')
  {
    hide WorldSound, Step;
    var ws, acts :| History.Run(lib, ws, acts) && w in ws && ws[|acts|] == w';
    HistorySound(lib, ws, acts, |acts|);
  }

  lemma ArrivesSound(lib: Library, w: World)
    requires Arrives(lib, w)
    ensures WorldSound(lib, w) && Follows(lib, w, w)
  {
    hide Follows, WorldSound;
    FollowsSound(lib, BLANK, w);
  }

  // ----- a controller on an empty disk -----

  /** The controller has been through these blocks and has not touched the disk yet. */
  function UpAt(c: Config, s: Sup): World {
    World(BLANK.disk, Up(c, s, 0, 0, Idle), map[], [])
  }

  lemma ComesUp(lib: Library, c: Config)
    requires Bounded(c)
    ensures Arrives(lib, UpAt(c, Initial(c)))
  {
    hide Arrives, Initial;
    assert Arrives(lib, BLANK) by { AtFirst(lib); }
    var w1 := World(BLANK.disk, Recovering(c, {}, Idle), map[], []);
    assert BLANK.disk.runs.Keys == {};
    Goes(lib, BLANK, Boot(c), w1);
    assert Scan(w1.disk) == 0;
    Goes(lib, w1, StartUp, UpAt(c, Initial(c)));
  }

  lemma AtFirst(lib: Library)
    ensures Arrives(lib, BLANK)
  {
    var acts: seq<Act> := [];
    var ws := [BLANK];
    assert History.Run(lib, ws, acts) && BLANK in ws && ws[|acts|] == BLANK;
  }

  lemma {:induction false} Lifts(lib: Library, c: Config, states: seq<Sup>, blocks: seq<Block>, i: nat)
    requires Bounded(c) && Campaign(lib, c, states, blocks) && AsksNothing(lib, c, states, blocks) && i <= |blocks|
    ensures Arrives(lib, UpAt(c, states[i]))
  {
    hide Arrives, Initial, Can, After, Shaped, Asks;
    if i == 0 {
      ComesUp(lib, c);
    } else {
      Lifts(lib, c, states, blocks, i - 1);
      assert Moves(lib, c, states[i - 1], blocks[i - 1], states[i]);
      assert Asks(lib, c, states[i - 1], blocks[i - 1]).Nothing?;
      LoopsOn(lib, UpAt(c, states[i - 1]), blocks[i - 1], states[i]);
    }
  }

  lemma LoopsOn(lib: Library, w: World, b: Block, t: Sup)
    requires Arrives(lib, w) && w.proc.Up? && w.proc.phase.Idle?
    requires Moves(lib, w.proc.c, w.proc.sup, b, t) && Asks(lib, w.proc.c, w.proc.sup, b).Nothing?
    ensures Arrives(lib, w.(proc := w.proc.(sup := t)))
  {
    hide Arrives, Can, After, Shaped, StartsFinish;
    Goes(lib, w, Loop(b, Stage("", 0), 0), w.(proc := w.proc.(sup := t)));
  }

  lemma Lifted(lib: Library, c: Config, s: Sup)
    requires Bounded(c) && Reached(lib, c, s, true)
    ensures Arrives(lib, UpAt(c, s))
  {
    hide Moves, AsksNothing, Arrives, UpAt;
    var states, blocks :| Campaign(lib, c, states, blocks) && states[|blocks|] == s
                          && AsksNothing(lib, c, states, blocks);
    Lifts(lib, c, states, blocks, |blocks|);
  }

  // ----- its first run -----

  const PLACE := Stage("", 0)

  function FirstKey(c: Config): Key { Key(c.campaign, 1) }

  /** The first run of a campaign whose worker begins with the empty input. */
  function FirstJob(lib: Library, c: Config, config: bytes, pid: nat): Job
    requires c.timeoutMs < U32_SPAN && |lib.sha([])| == 32
  {
    EmptyRunPasses(lib, c);
    var g := FreshGen(c, None, config, 0.0).(workerPid := Some(pid));
    Job([], MetaOf(c, 1, g, ParsePrepare(EmptyRun(lib, c)), 1), [])
  }

  lemma FirstRequest(lib: Library, c: Config, s: Sup, row: bytes, config: bytes, pid: nat)
    requires Steady(c, s, 0) && 0 < c.supervisedRuns && |row| >= 13
    requires s.gen.workerPid == Some(pid) && s.gen.workerConfig == config
    requires c.timeoutMs < U32_SPAN && |lib.sha([])| == 32
    requires Fields(row) == Frame(3, 1, 0, EmptyRun(lib, c))
    ensures var r := OnFrame(lib, c, s, row, 0.0);
            r.Accepted? && r.request == Issue(FirstKey(c), FirstJob(lib, c, config, pid), lib.sha([]))
  {
    hide EmptyRun, CheckPrepare, MetaOf, Hex, Fields, ParsePrepare;
    EmptyRunPasses(lib, c);
    EmptyRunIs(lib, c);
    SameMeta(c, s.gen, FreshGen(c, None, config, 0.0).(workerPid := Some(pid)), ParsePrepare(EmptyRun(lib, c)));
  }

  lemma EmptyRunIs(lib: Library, c: Config)
    requires c.timeoutMs < U32_SPAN && |lib.sha([])| == 32
    ensures |EmptyRun(lib, c)| == 46
    ensures var p := ParsePrepare(EmptyRun(lib, c));
            p.size == 0 && p.recipeSize == 0 && p.rest == [] && p.digest == lib.sha([])
  {
    hide PrepareBody, ParsePrepare;
    assert Proposes(lib, c, EmptyRun(lib, c), 1, [], [], 0);
    PrepareParts(lib, c, EmptyRun(lib, c), 1, [], [], 0);
  }

  lemma SameMeta(c: Config, g: Gen, g': Gen, p: Prepare)
    requires g.workerPid == g'.workerPid && g.workerConfig == g'.workerConfig
    ensures MetaOf(c, 1, g, p, 1) == MetaOf(c, 1, g', p, 1)
  {
  }

  /** The controller has carried out n operations of the publication. */
  function StagingAt(lib: Library, c: Config, t: Sup, job: Job, n: nat): World
    requires n <= |PrepareOps(lib, PLACE, FirstKey(c), job)|
  {
    World(Exec(BLANK.disk, PrepareOps(lib, PLACE, FirstKey(c), job)[..n]),
          Up(c, t, Cost(job), 0, Staging(PLACE, FirstKey(c), job, lib.sha([]), BLANK.disk, n)),
          if n > |StageOps(lib, PLACE, job)| then map[FirstKey(c) := job] else map[],
          [])
  }

  /** A worker with its first run in hand. */
  predicate Executing(t: Sup) {
    && Calm(t) && t.generation == 1 && t.gen.state == EXECUTING && t.gen.pending.Some?
    && t.run == 1 && t.settled == 0 && t.mutations == 0 && t.gen.done.None?
    && |t.history| == 2 && t.gen.readyAt == Some(1)
  }

  /** A campaign's first PREPARE is taken, and its publication begins. */
  lemma Issues(lib: Library, c: Config, id: bytes, config: bytes, pid: nat) returns (t: Sup)
    requires Usable(lib, c, id, config, pid, 1) && Bounded(c) && RUN_OVERHEAD <= c.journalBytes
    ensures Arrives(lib, StagingAt(lib, c, t, FirstJob(lib, c, config, pid), 0)) && Executing(t)
  {
    hide Arrives, OnFrame, Reached, EmptyRun, Fields, Header, Inv, Steady, PrepareOps, StageOps, MetaOf;
    var s0 := GetsReady(lib, c, id, config, pid);
    ReachedSound(lib, c, s0, true);
    Lifted(lib, c, s0);
    Still(c, s0, 0);
    assert |s0.history| == 2;
    EmptyRunIs(lib, c);
    var f := Frame(3, 1, 0, EmptyRun(lib, c));
    FieldsOfRow(f);
    PrepareLeads(lib, c, s0, 0, RowOf(f));
    FirstRequest(lib, c, s0, RowOf(f), config, pid);
    t := OnFrame(lib, c, s0, RowOf(f), 0.0).next;
    ShapedByInv(c, s0);
    TakesFirst(lib, c, s0, f, t, FirstJob(lib, c, config, pid));
  }

  lemma ShapedByInv(c: Config, s: Sup)
    requires Inv(c, s)
    ensures Shaped(s)
  {
  }

  lemma TakesFirst(lib: Library, c: Config, s: Sup, f: Frame, t: Sup, job: Job)
    requires Arrives(lib, UpAt(c, s)) && Shaped(s) && Calm(s) && s.gen.state == READY
    requires Sound(f) && |f.payload| + 17 <= MAX_CHUNK
    requires var r := OnFrame(lib, c, s, RowOf(f), 0.0);
             r.Accepted? && r.next == t && r.request == Issue(FirstKey(c), job, lib.sha([]))
    requires Cost(job) <= c.journalBytes
    ensures Arrives(lib, StagingAt(lib, c, t, job, 0))
  {
    hide Arrives, OnFrame, After, Can, Shaped, Calm, StartsFinish, PrepareOps, StageOps, RowOf;
    var data, s1 := Framed(lib, c, s, f);
    LoopsOn(lib, UpAt(c, s), Data(data, 0.0), s1);
    var w := StagingAt(lib, c, t, job, 0);
    assert PrepareOps(lib, PLACE, FirstKey(c), job)[..0] == [];
    assert Takes(lib, UpAt(c, s1), Issue(FirstKey(c), job, lib.sha([])), true, PLACE, 0, w);
    Goes(lib, UpAt(c, s1), Loop(Row(0.0), PLACE, 0), w);
  }

  // ----- operation by operation -----

  lemma FirstPrepareIsLegal(lib: Library, key: Key, job: Job)
    ensures Legal(BLANK.disk, PrepareOps(lib, PLACE, key, job))
  {
    hide StageOps, Exec, Legal;
    var ops := StageOps(lib, PLACE, job);
    StagingCompletes(lib, BLANK.disk, PLACE, job);
    Two(Exec(BLANK.disk, ops), Publish(PLACE, key), SyncCampaign(key.campaign));
    ExecConcat(BLANK.disk, ops, [Publish(PLACE, key), SyncCampaign(key.campaign)]);
  }

  lemma {:induction false} StagesTo(lib: Library, c: Config, t: Sup, job: Job, n: nat)
    requires n <= |StageOps(lib, PLACE, job)| + 1
    requires Arrives(lib, StagingAt(lib, c, t, job, 0))
    ensures Arrives(lib, StagingAt(lib, c, t, job, n))
  {
    hide Arrives, StagingAt;
    if n > 0 {
      StagesTo(lib, c, t, job, n - 1);
      StagesOne(lib, c, t, job, n - 1);
    }
  }

  lemma StagesOne(lib: Library, c: Config, t: Sup, job: Job, n: nat)
    requires n <= |StageOps(lib, PLACE, job)| && Arrives(lib, StagingAt(lib, c, t, job, n))
    ensures Arrives(lib, StagingAt(lib, c, t, job, n + 1))
  {
    hide Arrives, Exec, Apply, Enabled, StageOps, Legal;
    var key := FirstKey(c);
    var stage, ops := StageOps(lib, PLACE, job), PrepareOps(lib, PLACE, key, job);
    FirstPrepareIsLegal(lib, key, job);
    LegalAt(BLANK.disk, ops, n);
    if n < |stage| {
      NeverPublishes(lib, PLACE, job, n);
      assert ops[n] == stage[n];
    }
    Goes(lib, StagingAt(lib, c, t, job, n), FileOp(0), StagingAt(lib, c, t, job, n + 1));
  }

  lemma AtomicGoes(d: Disk, f: Folder, key: Key, nonce: nat, name: FileName, data: bytes, n: nat)
    requires n < 4 && key in d.runs && d.runs[key] == AtomicFolder(f, nonce, name, data, n)
    requires Tmp(nonce) !in f.live
    ensures Enabled(d, AtomicOps(key, nonce, name, data)[n])
    ensures Apply(d, AtomicOps(key, nonce, name, data)[n])
            == d.(runs := d.runs[key := AtomicFolder(f, nonce, name, data, n + 1)])
  {
    AtomicEnabled(d, f, key, nonce, name, data, n);
    AtomicStep(d, f, key, nonce, name, data, n);
  }

  lemma AtomicEnabled(d: Disk, f: Folder, key: Key, nonce: nat, name: FileName, data: bytes, n: nat)
    requires n < 4 && key in d.runs && d.runs[key] == AtomicFolder(f, nonce, name, data, n)
    requires Tmp(nonce) !in f.live
    ensures Enabled(d, AtomicOps(key, nonce, name, data)[n])
  {
  }

  // ----- verdicts -----

  /** A verdict is being written, and this much of it has been. */
  predicate AtVerdict(lib: Library, w: World) {
    && !w.proc.Down? && w.proc.phase.Finishing?
    && var p := w.proc.phase;
    && p.n < 4 && p.key in w.disk.runs && Tmp(p.nonce) !in p.f.live
    && w.disk.runs[p.key] == AtomicFolder(p.f, p.nonce, Verdict, lib.packed(SealedResult(lib, p.result)), p.n)
  }

  /** The same, m operations on. */
  function VerdictOn(lib: Library, w: World, m: nat): World
    requires AtVerdict(lib, w) && w.proc.phase.n + m <= 4
  {
    var p := w.proc.phase;
    var f := AtomicFolder(p.f, p.nonce, Verdict, lib.packed(SealedResult(lib, p.result)), p.n + m);
    w.(disk := w.disk.(runs := w.disk.runs[p.key := f]),
       proc := WithPhase(w.proc, if p.n + m < 4 then p.(n := p.n + m)
                                 else if p.ack then Acking(p.key, p.result) else Idle))
  }

  lemma {:induction false} VerdictGoesOn(lib: Library, w0: World, w: World, m: nat)
    requires Follows(lib, w0, w) && AtVerdict(lib, w) && w.proc.phase.n + m <= 4
    ensures Follows(lib, w0, VerdictOn(lib, w, m))
    decreases m
  {
    hide Follows, AtomicFolder, SealedResult, Step;
    if m == 0 {
      assert VerdictOn(lib, w, 0) == w;
    } else {
      VerdictGoesOn(lib, w0, w, m - 1);
      var w1, w2 := VerdictOn(lib, w, m - 1), VerdictOn(lib, w, m);
      VerdictStep(lib, w1);
      assert VerdictOn(lib, w1, 1) == w2;
      GoesOn(lib, w0, w1, FileOp(0), w2);
    }
  }

  lemma VerdictStep(lib: Library, w: World)
    requires AtVerdict(lib, w)
    ensures Step(lib, w, FileOp(0), VerdictOn(lib, w, 1))
  {
    hide AtomicFolder, SealedResult, Apply, Enabled;
    var p := w.proc.phase;
    var data := lib.packed(SealedResult(lib, p.result));
    AtomicGoes(w.disk, p.f, p.key, p.nonce, Verdict, data, p.n);
    assert FinishOps(lib, p.key, p.nonce, p.result) == AtomicOps(p.key, p.nonce, Verdict, data);
    assert |AtomicOps(p.key, p.nonce, Verdict, data)| == 4;
  }

  // ----- ... permitted -----

  ghost function Published(lib: Library, c: Config, job: Job): Disk {
    Exec(BLANK.disk, PrepareOps(lib, PLACE, FirstKey(c), job))
  }

  lemma PublishedShows(lib: Library, c: Config, job: Job)
    ensures var d := Published(lib, c, job);
            && FirstKey(c) in d.runs && d.runs[FirstKey(c)] == RunFolder(lib, job) && FirstKey(c) in d.linked
    ensures forall n: nat :: Tmp(n) !in RunFolder(lib, job).live
  {
    hide PrepareOps, Exec, Legal, RunFolder;
    FirstPrepareIsLegal(lib, FirstKey(c), job);
    PrepareDone(lib, BLANK.disk, PLACE, FirstKey(c), job);
    RunFolderHolds(lib, job);
  }

  /** The disk once n operations of an `atomic` on the first run are done. */
  ghost function WithAtomic(lib: Library, c: Config, d: Disk, job: Job, nonce: nat, name: FileName, data: bytes,
                            n: nat): Disk
    requires n <= 4
  {
    d.(runs := d.runs[FirstKey(c) := AtomicFolder(RunFolder(lib, job), nonce, name, data, n)])
  }

  ghost function AuthorizingAt(lib: Library, c: Config, t: Sup, job: Job, n: nat): World
    requires n <= 4
  {
    var key := FirstKey(c);
    World(WithAtomic(lib, c, Published(lib, c, job), job, 0, Authorized, lib.packed(PERMISSION), n),
          Up(c, t, Cost(job), 0,
             if n == 4 then Permitting(key, lib.sha([]))
             else Authorizing(key, job, lib.sha([]), 0, RunFolder(lib, job), n)),
          map[key := job], [])
  }

  lemma Authorizes(lib: Library, c: Config, t: Sup, job: Job)
    requires Arrives(lib, StagingAt(lib, c, t, job, 0))
    ensures Arrives(lib, AuthorizingAt(lib, c, t, job, 0))
  {
    hide Arrives, Exec, Apply, Enabled, StageOps, Legal, RunFolder, AtomicFolder;
    var key := FirstKey(c);
    var stage, ops := StageOps(lib, PLACE, job), PrepareOps(lib, PLACE, key, job);
    var n := |stage| + 1;
    StagesTo(lib, c, t, job, n);
    FirstPrepareIsLegal(lib, key, job);
    LegalAt(BLANK.disk, ops, n);
    assert ops[..n + 1] == ops;
    PublishedShows(lib, c, job);
    AtomicStarts(RunFolder(lib, job), 0, Authorized, lib.packed(PERMISSION));
    Goes(lib, StagingAt(lib, c, t, job, n), FileOp(0), AuthorizingAt(lib, c, t, job, 0));
  }

  lemma AtomicStarts(f: Folder, nonce: nat, name: FileName, data: bytes)
    ensures AtomicFolder(f, nonce, name, data, 0) == f
  {
  }

  lemma {:induction false} AuthorizesTo(lib: Library, c: Config, t: Sup, job: Job, n: nat)
    requires n <= 4 && Arrives(lib, AuthorizingAt(lib, c, t, job, 0))
    ensures Arrives(lib, AuthorizingAt(lib, c, t, job, n))
  {
    hide Arrives, AuthorizingAt;
    if n > 0 {
      AuthorizesTo(lib, c, t, job, n - 1);
      AuthorizesOne(lib, c, t, job, n - 1);
    }
  }

  lemma AuthorizesOne(lib: Library, c: Config, t: Sup, job: Job, n: nat)
    requires n < 4 && Arrives(lib, AuthorizingAt(lib, c, t, job, n))
    ensures Arrives(lib, AuthorizingAt(lib, c, t, job, n + 1))
  {
    hide Arrives, Apply, Enabled, RunFolder, AtomicFolder, Published;
    var key, f, data := FirstKey(c), RunFolder(lib, job), lib.packed(PERMISSION);
    PublishedShows(lib, c, job);
    var w := AuthorizingAt(lib, c, t, job, n);
    AtomicGoes(w.disk, f, key, 0, Authorized, data, n);
    assert |AuthorizeOps(lib, key, 0)| == 4;
    Goes(lib, w, FileOp(0), AuthorizingAt(lib, c, t, job, n + 1));
  }

  ghost function PermittedAt(lib: Library, c: Config, t: Sup, job: Job): World {
    AuthorizingAt(lib, c, t, job, 4).(proc := Up(c, t, Cost(job), 0, Idle),
                                      sent := [Permit(FirstKey(c), lib.sha([]))])
  }

  lemma GetsPermitted(lib: Library, c: Config, id: bytes, config: bytes, pid: nat) returns (t: Sup)
    requires Usable(lib, c, id, config, pid, 1) && Bounded(c) && RUN_OVERHEAD <= c.journalBytes
    ensures Arrives(lib, PermittedAt(lib, c, t, FirstJob(lib, c, config, pid))) && Executing(t)
  {
    hide Arrives, FirstJob, Published, AtomicFolder, RunFolder, Executing;
    var job := FirstJob(lib, c, config, pid);
    t := Issues(lib, c, id, config, pid);
    Authorizes(lib, c, t, job);
    AuthorizesTo(lib, c, t, job, 4);
    Goes(lib, AuthorizingAt(lib, c, t, job, 4), Say, PermittedAt(lib, c, t, job));
  }

  /** A run is published, authorized and permitted, and then the controller is killed. */
  lemma PermittedFirst(lib: Library, c: Config, id: bytes, config: bytes, pid: nat) returns (w: World)
    requires Usable(lib, c, id, config, pid, 1) && Bounded(c) && RUN_OVERHEAD <= c.journalBytes
    ensures Arrives(lib, w) && w.proc.Down? && w.sent == [Permit(FirstKey(c), lib.sha([]))]
    ensures FirstKey(c) in w.disk.runs && FirstKey(c) in w.disk.linked
    ensures w.jobs == map[FirstKey(c) := FirstJob(lib, c, config, pid)]
  {
    hide Arrives, FirstJob, Published, AtomicFolder, RunFolder, Executing;
    var job := FirstJob(lib, c, config, pid);
    var t := GetsPermitted(lib, c, id, config, pid);
    PublishedShows(lib, c, job);
    var w1 := PermittedAt(lib, c, t, job);
    w := w1.(proc := Down);
    Goes(lib, w1, Kill, w);
  }

  /** With a target name longer than the reader's limit: a history in which a run is permitted, does not read
      back, and no controller ever comes up again, through whatever kills, power cuts and restarts. */
  lemma PermittedAndUnreadable(lib: Library, c: Config, id: bytes, config: bytes, pid: nat) returns (w: World)
    requires Faithful(lib) && Spells(lib) && |c.target| > META_LIMIT
    requires Usable(lib, c, id, config, pid, 1) && Bounded(c) && RUN_OVERHEAD <= c.journalBytes
    ensures Arrives(lib, w) && Permitted(w.sent, FirstKey(c))
    ensures FirstKey(c) in w.disk.runs && LoadRun(lib, w.disk.runs[FirstKey(c)]).Err?
    ensures forall ws: seq<World>, acts: seq<Act>, i: nat, j: nat ::
              History.Run(lib, ws, acts) && i <= j < |ws| && ws[i] == w ==> !ws[j].proc.Up?
  {
    hide Arrives, FirstJob, Legible, History.Run, LoadRun, Faithful, WorldSound, Stuck;
    w := PermittedFirst(lib, c, id, config, pid);
    assert w.sent[0].Permit? && w.sent[0].key == FirstKey(c);
    FirstIllegible(lib, c, config, pid);
    ArrivesSound(lib, w);
    UnreadableIsStuck(lib, w, FirstKey(c));
    StuckIsDown(lib, w, FirstKey(c));
    forall ws: seq<World>, acts: seq<Act>, i: nat, j: nat | History.Run(lib, ws, acts) && i <= j < |ws| && ws[i] == w
      ensures !ws[j].proc.Up?
    {
      UnreadableRunBlocksEveryRestart(lib, ws, acts, i, j, FirstKey(c));
    }
  }

  lemma FirstIllegible(lib: Library, c: Config, config: bytes, pid: nat)
    requires Spells(lib) && |c.target| > META_LIMIT && c.timeoutMs < U32_SPAN && |lib.sha([])| == 32
    ensures !Legible(lib, FirstJob(lib, c, config, pid))
  {
    hide EmptyRun, ParsePrepare, MetaOf, Openers, ManifestOf, Describes;
    EmptyRunPasses(lib, c);
    var g := FreshGen(c, None, config, 0.0).(workerPid := Some(pid));
    MetaNames(c, 1, g, ParsePrepare(EmptyRun(lib, c)), 1);
  }

  // ----- ... or found by recovery before its name was durable -----

  ghost function Unlinked(lib: Library, c: Config, job: Job): Disk {
    Exec(BLANK.disk, PrepareOps(lib, PLACE, FirstKey(c), job)[..|StageOps(lib, PLACE, job)| + 1])
  }

  lemma UnlinkedShows(lib: Library, c: Config, job: Job)
    ensures var d := Unlinked(lib, c, job);
            d.runs == map[FirstKey(c) := RunFolder(lib, job)] && d.linked == {}
  {
    hide StageOps, Exec, Legal, RunFolder;
    var stage := StageOps(lib, PLACE, job);
    var ops := PrepareOps(lib, PLACE, FirstKey(c), job);
    assert ops[..|stage| + 1] == stage + [Publish(PLACE, FirstKey(c))];
    ExecConcat(BLANK.disk, stage, [Publish(PLACE, FirstKey(c))]);
    StagingCompletes(lib, BLANK.disk, PLACE, job);
    One(Exec(BLANK.disk, stage), Publish(PLACE, FirstKey(c)));
  }

  ghost function RecoveringAt(lib: Library, c: Config, job: Job, n: nat): World
    requires n <= 4 && Named(job.meta)
  {
    var key, result := FirstKey(c), Interrupted(job.meta, false);
    World(WithAtomic(lib, c, Unlinked(lib, c, job), job, 1, Verdict, lib.packed(SealedResult(lib, result)), n),
          Recovering(c, {}, if n == 4 then Idle else Finishing(key, result, 1, RunFolder(lib, job), n, false)),
          map[key := job], [])
  }

  /** The controller is killed behind the rename, and the next one finds the run. */
  lemma FoundByRecovery(lib: Library, c: Config, t: Sup, job: Job)
    requires Arrives(lib, StagingAt(lib, c, t, job, 0)) && Bounded(c)
    requires Faithful(lib) && Legible(lib, job) && Named(job.meta)
    ensures Arrives(lib, RecoveringAt(lib, c, job, 0))
  {
    hide Arrives, Exec, StageOps, RunFolder, AtomicFolder, Legible, Holds, LoadRun, Interrupted, SealedResult;
    hide Faithful;
    hide Initial, Total, Scan;
    var key, n := FirstKey(c), |StageOps(lib, PLACE, job)| + 1;
    StagesTo(lib, c, t, job, n);
    UnlinkedShows(lib, c, job);
    var w1 := StagingAt(lib, c, t, job, n);
    var w2 := w1.(proc := Down);
    Goes(lib, w1, Kill, w2);
    var w3 := w2.(proc := Recovering(c, {key}, Idle));
    assert w2.disk.runs.Keys == {key};
    Goes(lib, w2, Boot(c), w3);
    RunFolderHolds(lib, job);
    RunFolderGood(lib, job);
    ReadsBack(lib, RunFolder(lib, job), job);
    AtomicStarts(RunFolder(lib, job), 1, Verdict, lib.packed(SealedResult(lib, Interrupted(job.meta, false))));
    Goes(lib, w3, Visit(key, 1), RecoveringAt(lib, c, job, 0));
  }

  lemma RecoversTo(lib: Library, c: Config, job: Job)
    requires Named(job.meta) && Arrives(lib, RecoveringAt(lib, c, job, 0))
    ensures Arrives(lib, RecoveringAt(lib, c, job, 4))
  {
    hide Follows, RunFolder, AtomicFolder, Unlinked, Interrupted, SealedResult;
    PublishedShows(lib, c, job);
    var w := RecoveringAt(lib, c, job, 0);
    AtomicStarts(RunFolder(lib, job), 1, Verdict, lib.packed(SealedResult(lib, Interrupted(job.meta, false))));
    VerdictGoesOn(lib, BLANK, w, 4);
    assert VerdictOn(lib, w, 4) == RecoveringAt(lib, c, job, 4);
  }

  /** A history in which recovery has given a run its verdict, durably so within the run's folder, and the next
      power cut takes run and verdict away together: recovery does not make the run's name durable. */
  lemma RecoveredAndGone(lib: Library, c: Config, id: bytes, config: bytes, pid: nat) returns (w: World, w': World)
    requires Usable(lib, c, id, config, pid, 1) && Bounded(c) && RUN_OVERHEAD <= c.journalBytes
    requires Faithful(lib) && Legible(lib, FirstJob(lib, c, config, pid))
    ensures Arrives(lib, w) && w.proc.Recovering? && w.proc.left == {} && w.proc.phase.Idle?
    ensures FirstKey(c) in w.disk.runs && Verdict in w.disk.runs[FirstKey(c)].saved
    ensures Step(lib, w, PowerCut, w') && FirstKey(c) !in w'.disk.runs
  {
    hide Arrives, FirstJob, Legible, Unlinked, AtomicFolder, RunFolder, WorldSound, Step, Faithful, SealedResult;
    var job := FirstJob(lib, c, config, pid);
    FirstNamed(lib, c, config, pid);
    var t := Issues(lib, c, id, config, pid);
    FoundByRecovery(lib, c, t, job);
    RecoversTo(lib, c, job);
    w := RecoveringAt(lib, c, job, 4);
    UnlinkedShows(lib, c, job);
    RunFolderGood(lib, job);
    VerdictUnsaved(lib, RunFolder(lib, job), job);
    AtomicShows(RunFolder(lib, job), 1, Verdict, lib.packed(SealedResult(lib, Interrupted(job.meta, false))), 4);
    ArrivesSound(lib, w);
    w' := Taken(lib, w, FirstKey(c));
  }

  lemma FirstNamed(lib: Library, c: Config, config: bytes, pid: nat)
    requires c.timeoutMs < U32_SPAN && |lib.sha([])| == 32
    ensures Named(FirstJob(lib, c, config, pid).meta)
  {
    hide EmptyRun, ParsePrepare, MetaOf;
    EmptyRunPasses(lib, c);
    var g := FreshGen(c, None, config, 0.0).(workerPid := Some(pid));
    MetaNames(c, 1, g, ParsePrepare(EmptyRun(lib, c)), 1);
  }

  // ----- ... or answered, and the verdict not yet durable -----

  const CLEAN_ANSWER: bytes := [0, 0, 0, 0]

  /** What the first run's answer is recorded as. */
  function FirstResult(): map<string, Value> { ResultOf(1, CLEAN_ANSWER, 1) }

  /** The first run, published and durably authorized. */
  ghost function AuthorizedFolder(lib: Library, job: Job): Folder {
    AtomicFolder(RunFolder(lib, job), 0, Authorized, lib.packed(PERMISSION), 4)
  }

  lemma AnswerLeads(lib: Library, c: Config, s: Sup, row: bytes)
    requires Executing(s) && Inv(c, s) && |row| >= 13 && Fields(row) == Frame(4, 1, 1, CLEAN_ANSWER)
    ensures var r := OnFrame(lib, c, s, row, 0.0);
            && r.Accepted? && r.next.gen.pending.None?
            && r.request == Settle(FirstKey(c), FirstResult())
  {
    hide Fields, ResultOf, Latest, WithinBudget, StopsSound, WordSound, LogSound;
  }

  /** The worker answers its first run, and the controller begins to write the verdict. */
  lemma Answers(lib: Library, c: Config, t: Sup, job: Job) returns (w: World)
    requires Arrives(lib, PermittedAt(lib, c, t, job)) && Executing(t)
    ensures Arrives(lib, w) && w.proc.Up? && w.proc.c == c
    ensures w.disk == PermittedAt(lib, c, t, job).disk && w.jobs == map[FirstKey(c) := job]
    ensures w.sent == [Permit(FirstKey(c), lib.sha([]))]
    ensures w.proc.phase == Finishing(FirstKey(c), FirstResult(), 1, AuthorizedFolder(lib, job), 0, true)
  {
    hide Arrives, OnFrame, Inv, Fields, ResultOf, RunFolder, AtomicFolder, Published, WorldSound, Header;
    var w0 := PermittedAt(lib, c, t, job);
    ArrivesSound(lib, w0);
    UpInv(lib, w0);
    ShapedByInv(c, t);
    var f := Frame(4, 1, 1, CLEAN_ANSWER);
    FieldsOfRow(f);
    AnswerLeads(lib, c, t, RowOf(f));
    w := AnswerTaken(lib, c, t, job, f);
  }

  lemma UpInv(lib: Library, w: World)
    requires WorldSound(lib, w) && w.proc.Up?
    ensures Inv(w.proc.c, w.proc.sup)
  {
    hide SentSound, SentOnce, NoneForgotten, PhaseSound, GoodRun, Inv;
  }

  lemma AnswerTaken(lib: Library, c: Config, t: Sup, job: Job, f: Frame) returns (w: World)
    requires Arrives(lib, PermittedAt(lib, c, t, job)) && Shaped(t) && Calm(t) && t.gen.pending.Some?
    requires Sound(f) && |f.payload| + 17 <= MAX_CHUNK
    requires var r := OnFrame(lib, c, t, RowOf(f), 0.0);
             r.Accepted? && r.request == Settle(FirstKey(c), FirstResult())
    ensures Arrives(lib, w) && w.proc.Up? && w.proc.c == c
    ensures w.disk == PermittedAt(lib, c, t, job).disk && w.jobs == map[FirstKey(c) := job]
    ensures w.sent == [Permit(FirstKey(c), lib.sha([]))]
    ensures w.proc.phase == Finishing(FirstKey(c), FirstResult(), 1, AuthorizedFolder(lib, job), 0, true)
  {
    hide Arrives, OnFrame, After, Can, Shaped, Calm, RowOf, RunFolder, AtomicFolder, Published, ResultOf;
    var w0 := PermittedAt(lib, c, t, job);
    var data, t1 := Framed(lib, c, t, f);
    LoopsOn(lib, w0, Data(data, 0.0), t1);
    var w1 := w0.(proc := w0.proc.(sup := t1));
    var t2 := OnFrame(lib, c, t, RowOf(f), 0.0).next;
    w := w1.(proc := Up(c, t2, Cost(job), 0,
                        Finishing(FirstKey(c), FirstResult(), 1, AuthorizedFolder(lib, job), 0, true)));
    NoVerdictYet(lib, job);
    assert StartsFinish(lib, w1.disk, FirstKey(c), FirstResult(), 1, true, w.proc.phase);
    assert Takes(lib, w1, Settle(FirstKey(c), FirstResult()), true, PLACE, 1, w);
    Goes(lib, w1, Loop(Row(0.0), PLACE, 1), w);
  }

  lemma NoVerdictYet(lib: Library, job: Job)
    ensures var f := AuthorizedFolder(lib, job);
            && Verdict !in f.live && Verdict !in f.saved && Authorized in f.live && f.saved == f.live
            && GoodRun(lib, f, job) && forall n: nat :: Tmp(n) !in f.live
  {
    hide RunFolder, GoodRun;
    RunFolderGood(lib, job);
    RunFolderHolds(lib, job);
    var f := RunFolder(lib, job);
    AtomicKeepsGood(lib, f, job, 0, Authorized, lib.packed(PERMISSION), 4);
  }

  /** The one run of this disk, answered and the answer renamed into place, but its folder not yet synced. */
  ghost predicate HalfAnswered(lib: Library, c: Config, job: Job, d: Disk) {
    && d.runs == map[FirstKey(c) := AtomicFolder(AuthorizedFolder(lib, job), 1, Verdict,
                                                lib.packed(SealedResult(lib, FirstResult())), 3)]
    && FirstKey(c) in d.linked
  }

  lemma HalfAnsweredShows(lib: Library, c: Config, job: Job, d: Disk)
    requires HalfAnswered(lib, c, job, d)
    ensures var f := d.runs[FirstKey(c)];
            && GoodRun(lib, f, job) && f.saved == AuthorizedFolder(lib, job).live
            && Verdict in f.live && f.live[Verdict].data == lib.packed(SealedResult(lib, FirstResult()))
  {
    hide AtomicFolder, RunFolder, GoodRun, SealedResult, ResultOf;
    NoVerdictYet(lib, job);
    var f, data := AuthorizedFolder(lib, job), lib.packed(SealedResult(lib, FirstResult()));
    AtomicKeepsGood(lib, f, job, 1, Verdict, data, 3);
    AtomicShows(f, 1, Verdict, data, 3);
    assert AtomicFolder(f, 1, Verdict, data, 3).saved == f.saved by { SavedLast(f, 1, Verdict, data, 3); }
  }

  lemma SavedLast(f: Folder, nonce: nat, name: FileName, data: bytes, n: nat)
    requires n <= 3
    ensures AtomicFolder(f, nonce, name, data, n).saved == f.saved
  {
  }

  /** The controller is killed there, and the next one gets through recovery and comes up. */
  lemma RecoversAnswered(lib: Library, c: Config, job: Job, w: World) returns (w': World)
    requires Arrives(lib, w) && HalfAnswered(lib, c, job, w.disk) && Bounded(c)
    requires Faithful(lib) && Legible(lib, job) && LegibleResult(lib, FirstResult())
    ensures Arrives(lib, w') && w'.proc.Up? && w'.disk == w.disk && w'.jobs == w.jobs && w'.sent == w.sent
    ensures ValidatedResult(lib, w'.disk.runs[FirstKey(c)]) == Ok(FirstResult() - {"sha256"})
  {
    hide Arrives, Legible, LegibleResult, LoadRun, ValidatedResult, FirstResult, HalfAnswered, Faithful, Initial;
    hide GoodRun, Scan;
    var key := FirstKey(c);
    HalfAnsweredShows(lib, c, job, w.disk);
    OneRun(lib, c, job, w.disk);
    assert Holds(lib, w.disk.runs[key], job) by { GoodHolds(lib, w.disk.runs[key], job); }
    ReadsBack(lib, w.disk.runs[key], job);
    ResultReadsBack(lib, w.disk.runs[key], FirstResult());
    var w1 := w.(proc := Down);
    Goes(lib, w, Kill, w1);
    var w2 := w1.(proc := Recovering(c, {key}, Idle));
    Goes(lib, w1, Boot(c), w2);
    var w3 := w2.(proc := Recovering(c, {}, Idle));
    assert {key} - {key} == {};
    Goes(lib, w2, Visit(key, 0), w3);
    w' := w3.(proc := Up(c, Initial(c), Scan(w3.disk), |w3.sent|, Idle));
    Goes(lib, w3, StartUp, w');
  }

  lemma OneRun(lib: Library, c: Config, job: Job, d: Disk)
    requires HalfAnswered(lib, c, job, d)
    ensures d.runs.Keys == {FirstKey(c)}
  {
    hide AtomicFolder;
  }

  lemma GoodHolds(lib: Library, f: Folder, job: Job)
    requires GoodRun(lib, f, job)
    ensures Holds(lib, f, job)
  {
    hide Holds;
  }

  /** The power cut that takes the answer. */
  lemma LosesAnswer(lib: Library, c: Config, job: Job, w: World) returns (w': World)
    requires Arrives(lib, w) && HalfAnswered(lib, c, job, w.disk)
    ensures Follows(lib, w, w') && w'.proc.Down?
    ensures w'.disk.runs == map[FirstKey(c) := AuthorizedFolder(lib, job)] && FirstKey(c) in w'.disk.linked
  {
    hide Arrives, Follows, HalfAnswered, WorldSound, GoodRun, AtomicFolder, SealedResult, RunFolder;
    HalfAnsweredShows(lib, c, job, w.disk);
    OneRun(lib, c, job, w.disk);
    Linked(lib, c, job, w.disk);
    NoVerdictYet(lib, job);
    ArrivesSound(lib, w);
    w' := WorstCut(lib, w);
    GoesOn(lib, w, w, PowerCut, w');
    assert w'.disk.runs.Keys == {FirstKey(c)};
  }

  /** The recovery that writes another verdict. */
  lemma Forgets(lib: Library, c: Config, job: Job, w: World) returns (w': World)
    requires Arrives(lib, w) && HalfAnswered(lib, c, job, w.disk) && Bounded(c)
    requires Faithful(lib) && Legible(lib, job) && Named(job.meta)
    ensures Follows(lib, w, w') && SettledAs(lib, w'.disk, FirstKey(c), Interrupted(job.meta, true))
  {
    hide Follows, Legible, LoadRun, HalfAnswered, Faithful, WorldSound, GoodRun, Interrupted, SealedResult;
    hide AuthorizedFolder, AtomicFolder;
    var key, f := FirstKey(c), AuthorizedFolder(lib, job);
    var w1 := LosesAnswer(lib, c, job, w);
    assert w1.disk.runs.Keys == {key};
    var w2 := w1.(proc := Recovering(c, {key}, Idle));
    GoesOn(lib, w, w1, Boot(c), w2);
    NoVerdictYet(lib, job);
    GoodHolds(lib, f, job);
    ReadsBack(lib, f, job);
    var result := Interrupted(job.meta, true);
    var w3 := w2.(proc := Recovering(c, {}, Finishing(key, result, 2, f, 0, false)));
    assert {key} - {key} == {};
    GoesOn(lib, w, w2, Visit(key, 2), w3);
    w' := Interrupts(lib, c, job, w, w3, f);
  }

  lemma Interrupts(lib: Library, c: Config, job: Job, w0: World, w: World, f: Folder) returns (w': World)
    requires Follows(lib, w0, w) && w.proc.Recovering? && Named(job.meta) && f == AuthorizedFolder(lib, job)
    requires w.proc.phase == Finishing(FirstKey(c), Interrupted(job.meta, true), 2, f, 0, false)
    requires FirstKey(c) in w.disk.runs && FirstKey(c) in w.disk.linked && w.disk.runs[FirstKey(c)] == f
    ensures Follows(lib, w0, w') && SettledAs(lib, w'.disk, FirstKey(c), Interrupted(job.meta, true))
  {
    hide Follows, AtomicFolder, Interrupted, SealedResult, AuthorizedFolder;
    var data := lib.packed(SealedResult(lib, Interrupted(job.meta, true)));
    NoVerdictYet(lib, job);
    AtomicStarts(f, 2, Verdict, data);
    VerdictGoesOn(lib, w0, w, 4);
    w' := VerdictOn(lib, w, 4);
    AtomicShows(f, 2, Verdict, data, 4);
  }

  lemma Linked(lib: Library, c: Config, job: Job, d: Disk)
    requires HalfAnswered(lib, c, job, d)
    ensures FirstKey(c) in d.linked
  {
    hide AtomicFolder;
  }

  /** A history in which the worker's own result is the verdict a controller has recovered with and come up on,
      and which a power cut takes back, so that the run is then recorded, durably, as interrupted: recovery does
      not make a verdict durable that it finds. */
  lemma AnsweredAndForgotten(lib: Library, c: Config, id: bytes, config: bytes, pid: nat) returns (w: World, w': World)
    requires Usable(lib, c, id, config, pid, 1) && Bounded(c) && RUN_OVERHEAD <= c.journalBytes
    requires Faithful(lib) && Legible(lib, FirstJob(lib, c, config, pid)) && LegibleResult(lib, FirstResult())
    ensures Arrives(lib, w) && w.proc.Up? && Permitted(w.sent, FirstKey(c)) && FirstKey(c) in w.disk.runs
    ensures ValidatedResult(lib, w.disk.runs[FirstKey(c)]) == Ok(FirstResult() - {"sha256"})
    ensures FirstResult()["classification"] == Text("execution_result")
    ensures Named(FirstJob(lib, c, config, pid).meta) && Follows(lib, w, w')
    ensures SettledAs(lib, w'.disk, FirstKey(c), Interrupted(FirstJob(lib, c, config, pid).meta, true))
  {
    hide Arrives, Follows, FirstJob, Legible, LegibleResult, HalfAnswered, Faithful, ValidatedResult, Interrupted;
    hide SettledAs, SealedResult;
    var job := FirstJob(lib, c, config, pid);
    FirstNamed(lib, c, config, pid);
    var t := GetsPermitted(lib, c, id, config, pid);
    var w1 := Answers(lib, c, t, job);
    var w2 := HalfWay(lib, c, t, job, w1);
    w := RecoversAnswered(lib, c, job, w2);
    assert w.sent[0].Permit? && w.sent[0].key == FirstKey(c);
    OneRun(lib, c, job, w.disk);
    w' := Forgets(lib, c, job, w);
  }

  lemma HalfWay(lib: Library, c: Config, t: Sup, job: Job, w: World) returns (w': World)
    requires Arrives(lib, w) && w.proc.Up? && w.disk == PermittedAt(lib, c, t, job).disk
    requires w.proc.phase == Finishing(FirstKey(c), FirstResult(), 1, AuthorizedFolder(lib, job), 0, true)
    ensures Arrives(lib, w') && HalfAnswered(lib, c, job, w'.disk) && w'.sent == w.sent && w'.jobs == w.jobs
  {
    hide Follows, AtomicFolder, SealedResult, ResultOf, RunFolder, GoodRun, Published;
    NoVerdictYet(lib, job);
    PublishedShows(lib, c, job);
    PublishedOnly(lib, c, job);
    AtomicStarts(AuthorizedFolder(lib, job), 1, Verdict, lib.packed(SealedResult(lib, FirstResult())));
    w' := VerdictOn(lib, w, 3);
    VerdictGoesOn(lib, BLANK, w, 3);
  }

  lemma PublishedOnly(lib: Library, c: Config, job: Job)
    ensures Published(lib, c, job).runs.Keys == {FirstKey(c)}
  {
    hide PrepareOps, Exec, Legal, RunFolder;
    FirstPrepareIsLegal(lib, FirstKey(c), job);
    PrepareDone(lib, BLANK.disk, PLACE, FirstKey(c), job);
  }
}
