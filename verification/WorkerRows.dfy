// What one row of the worker is: which rows are taken, what each of them writes, and what is answered, all read
// off the bytes of the row (priv/efz_external.py:366-462).
module WorkerRows {
  import opened Bytes
  import opened Wire
  import opened Storage
  import opened Records
  import opened Supervisor
  import opened Lifecycle
  import opened Messages
  import opened Wrappers

  // ----- which rows are taken -----

  /** The worker is the launched process, and nothing has stopped it but a dirty run. */
  predicate Hears(g: Gen) {
    g.workerPid.Some? && g.peerPid == g.workerPid && g.stop in {None, Some(DirtyRecycle)}
  }

  /** What the worker may send now. */
  ghost predicate Fit(lib: Library, c: Config, s: Sup, f: Frame) {
    && f.generation == s.generation
    && match f.kind
       case 1 => s.gen.state == STARTING && f.run == 0 && exists id, pid :: Introduces(c, s.gen, f.payload, id, pid)
       case 2 => s.gen.state == SETUP && f.run == 0 && f.payload == []
       case 3 => s.gen.state == READY && f.run == 0 && |f.payload| >= 46 && Proposed(lib, c, f.payload)
       case 4 => s.gen.state == EXECUTING && f.run == s.run && |f.payload| == 4 && Answer(f.payload)
       case 5 => s.gen.state in {READY, SETUP, RECYCLING} && f.run == 0 && |f.payload| == 1 && f.payload[0] <= 2
       case _ => false
  }

  ghost predicate Proposed(lib: Library, c: Config, body: bytes) {
    exists phase, raw, recipe, status :: Proposes(lib, c, body, phase, raw, recipe, status)
  }

  /** Outcome, the target's own outcome, dirty, timeout. */
  predicate Answer(body: bytes)
    requires |body| == 4
  {
    body[0] <= 4 && body[1] <= 4 && body[2] <= 1 && body[3] <= 3
  }

  lemma FrameExactly(lib: Library, c: Config, s: Sup, row: bytes, now: real)
    requires |row| >= 13
    requires s.gen.state == EXECUTING ==> s.gen.pending.Some?
    ensures OnFrame(lib, c, s, row, now).Accepted? <==> Fit(lib, c, s, Fields(row))
  {
    hide Fields, CheckHello, CheckPrepare, ParsePrepare, Introduces, Proposes, MetaOf, ResultOf, Latest, Hex;
    var f := Fields(row);
    HelloExactly(c, s.gen, f.payload);
    if |f.payload| >= 46 {
      PrepareExactly(lib, c, f.payload);
    }
  }

  // ----- what a taken row is answered -----

  /** The phase a PREPARE names: calibration, mutation, verification or reproduction. */
  predicate Phased(f: Frame, phase: nat) {
    f.payload != [] && f.payload[0] == phase
  }

  /** Kind 10 permits, 12 refuses, 11 acknowledges; a run's number is carried where there is one. */
  predicate Replied(lib: Library, c: Config, s: Sup, f: Frame, reply: Frame) {
    && reply.generation == s.generation
    && match f.kind
       case 3 =>
         if s.run >= c.supervisedRuns || (Phased(f, 2) && s.mutations >= c.maxIterations)
         then reply.kind == 12 && reply.run == 0 && reply.payload == []
         else reply.kind == 10 && reply.run == s.run + 1 && |f.payload| >= 37 && reply.payload == f.payload[5..37]
       case 4 => reply.kind == 11 && reply.run == f.run && reply.payload == []
       case _ => reply.kind == 11 && reply.run == 0 && reply.payload == []
  }

  // ----- what a taken row writes -----

  function LetterOf(f: Frame, reply: Frame): Letter {
    match f.kind
    case 1 => Hello
    case 2 => Readied
    case 3 => if reply.kind == 10 then Admitted else Refused
    case 4 => if |f.payload| == 4 && f.payload[2] == 1 then Dirty else Clean
    case _ => Done
  }

  /** The worker's next deadline, from the clock of this row. */
  function DueBy(c: Config, f: Frame, reply: Frame, now: real): Option<real> {
    match LetterOf(f, reply)
    case Readied => Some(now + c.startup)
    case Admitted => Some(now + c.timeoutMs as real / 1000.0 + 1.0 + c.memoryGrace + c.ipcGrace)
    case Clean => Some(now + c.startup)
    case Dirty => Some(now + c.startup)
    case Done => Some(now + 1.0)
    case _ => None
  }

  function StateBy(letter: Letter): State {
    match letter
    case Hello => SETUP
    case Readied => READY
    case Admitted => EXECUTING
    case Refused => READY
    case Clean => READY
    case Dirty => RECYCLING
    case Done => STOPPING
  }

  function Or<T>(x: Option<T>, before: T): T {
    match x
    case None => before
    case Some(v) => v
  }

  /** Of the generation: state, deadline, stop reason, finish code, and the half second a dirty worker has. */
  predicate GenWritten(c: Config, s: Sup, f: Frame, reply: Frame, now: real, t: Sup) {
    var letter, g, h := LetterOf(f, reply), s.gen, t.gen;
    && h.word == g.word + [letter] && h.state == StateBy(letter)
    && h.deadline == Or(DueBy(c, f, reply, now), g.deadline)
    && h.stop == (if letter == Refused then Some(BudgetCompleted) else if letter == Dirty then Some(DirtyRecycle)
                  else g.stop)
    && h.done == (if letter == Done && |f.payload| == 1 then Some(f.payload[0]) else g.done)
    && h.killAfter == (if letter == Dirty then now + 0.5 else g.killAfter)
    && h.readyAt == (if letter == Readied then Some(|s.history|) else g.readyAt)
  }

  /** What no row writes. */
  predicate GenKept(g: Gen, h: Gen) {
    && h.killAt == g.killAt && h.stopBytes == g.stopBytes && h.workerPid == g.workerPid && h.peerPid == g.peerPid
    && h.connected == g.connected && h.eof == g.eof && h.buffer == g.buffer && h.since == g.since
    && h.queue == g.queue && h.evidence == g.evidence && h.workerConfig == g.workerConfig
  }

  /** Of the campaign: counters by the phase the PREPARE names, quarantine, log. */
  predicate SupWritten(c: Config, s: Sup, f: Frame, reply: Frame, t: Sup) {
    var letter := LetterOf(f, reply);
    && t.generation == s.generation && t.live == s.live && t.findings == s.findings
    && t.run == s.run + (if letter == Admitted then 1 else 0)
    && t.mutations == s.mutations + (if letter == Admitted && Phased(f, 2) then 1 else 0)
    && t.verifications == s.verifications + (if letter == Admitted && Phased(f, 3) then 1 else 0)
    && t.quarantine == s.quarantine + (if letter == Dirty && s.gen.pending.Some? then {s.gen.pending.value.inputSha}
                                       else {})
    && t.history == s.history + (match letter
                                 case Readied => [Event(Ready, s.generation)]
                                 case Clean => [Event(ResultEvent, s.generation)]
                                 case Dirty => [Event(ResultEvent, s.generation)]
                                 case _ => [])
  }

  /** The run in flight: the one just permitted, none once it is answered. */
  predicate PendingWritten(c: Config, s: Sup, f: Frame, reply: Frame, t: Sup) {
    match LetterOf(f, reply)
    case Admitted => t.gen.pending == Some(Pending(Key(c.campaign, reply.run), Hex(reply.payload)))
    case Clean => t.gen.pending == None
    case Dirty => t.gen.pending == None
    case _ => t.gen.pending == s.gen.pending
  }

  predicate RowWrites(lib: Library, c: Config, s: Sup, f: Frame, reply: Frame, now: real, t: Sup) {
    && Replied(lib, c, s, f, reply) && GenWritten(c, s, f, reply, now, t) && GenKept(s.gen, t.gen)
    && SupWritten(c, s, f, reply, t) && PendingWritten(c, s, f, reply, t)
  }

  const OUTCOMES := ["ok", "crash", "exit", "timeout", "infrastructure"]
  const TIMEOUT_CLASSES := [Null, Text("timeout_busy"), Text("timeout_waiting"), Text("timeout_unknown")]

  /** The record of an answered run, from the four bytes of the answer. */
  predicate AnswerRecorded(generation: nat, run: nat, body: bytes, result: map<string, Value>) {
    && |body| == 4 && Answer(body)
    && result.Keys == {"classification", "outcome", "target_outcome", "timeout_class", "run_id", "generation",
                       "runner_reusable"}
    && result["classification"] == Text(if body[2] == 1 then "dirty_recycle" else "execution_result")
    && result["outcome"] == Text(OUTCOMES[body[0]]) && result["target_outcome"] == Text(OUTCOMES[body[1]])
    && result["timeout_class"] == TIMEOUT_CLASSES[body[3]]
    && result["run_id"] == Number(run) && result["generation"] == Number(generation)
    && result["runner_reusable"] == Flag(body[2] == 0)
  }

  /** What a taken row asks of the journal. */
  predicate Requested(c: Config, s: Sup, f: Frame, reply: Frame, q: Request) {
    match LetterOf(f, reply)
    case Admitted => q.Issue? && q.key == Key(c.campaign, s.run + 1) && q.digest == reply.payload
    case Clean =>
      && s.gen.pending.Some? && q.Settle? && q.key == s.gen.pending.value.key
      && AnswerRecorded(s.generation, f.run, f.payload, q.result)
    case Dirty =>
      && s.gen.pending.Some? && q.Settle? && q.key == s.gen.pending.value.key
      && AnswerRecorded(s.generation, f.run, f.payload, q.result)
    case _ => q.Nothing?
  }

  lemma RecordsAnswer(generation: nat, run: nat, body: bytes)
    requires |body| == 4 && Answer(body)
    ensures AnswerRecorded(generation, run, body, ResultOf(generation, body, run))
  {
    OutcomeIs(body[0]);
    OutcomeIs(body[1]);
    TimeoutIs(body[3]);
    hide OutcomeName, TimeoutClass;
  }

  lemma OutcomeIs(n: nat)
    requires n <= 4
    ensures OutcomeName(n) == OUTCOMES[n]
  {
  }

  lemma TimeoutIs(n: nat)
    requires n <= 3
    ensures TimeoutClass(n) == TIMEOUT_CLASSES[n]
  {
  }

  lemma FrameRequests(lib: Library, c: Config, s: Sup, row: bytes, now: real)
    requires |row| >= 13
    requires s.gen.state == EXECUTING ==> s.gen.pending.Some?
    requires OnFrame(lib, c, s, row, now).Accepted?
    ensures var r := OnFrame(lib, c, s, row, now); Requested(c, s, Fields(row), r.reply, r.request)
  {
    hide Fields, CheckHello, CheckPrepare, MetaOf, ResultOf, Latest, Hex, AnswerRecorded;
    var f := Fields(row);
    if f.kind == 4 && |f.payload| == 4 && Answer(f.payload) {
      RecordsAnswer(s.generation, f.run, f.payload);
    }
  }

  lemma HelloWrites(lib: Library, c: Config, s: Sup, f: Frame, now: real)
    requires f.kind == 1 && f.generation == s.generation && OnHello(c, s, f.payload).Accepted?
    ensures var r := OnHello(c, s, f.payload); RowWrites(lib, c, s, f, r.reply, now, r.next)
  {
    hide CheckHello;
  }

  lemma ReadyWrites(lib: Library, c: Config, s: Sup, f: Frame, now: real)
    requires f.kind == 2 && f.generation == s.generation
    ensures var r := OnReady(c, s, now); r.Accepted? && RowWrites(lib, c, s, f, r.reply, now, r.next)
  {
    hide Latest;
  }

  lemma PrepareWrites(lib: Library, c: Config, s: Sup, f: Frame, now: real)
    requires f.kind == 3 && f.generation == s.generation && |f.payload| >= 46
    requires s.gen.state == READY && OnPrepare(lib, c, s, f.payload, now).Accepted?
    ensures var r := OnPrepare(lib, c, s, f.payload, now); RowWrites(lib, c, s, f, r.reply, now, r.next)
  {
    hide CheckPrepare, Admit, RowWrites, Hex;
    var p := ParsePrepare(f.payload);
    if s.run >= c.supervisedRuns || (p.phase == 2 && s.mutations >= c.maxIterations) {
      RefusalWrites(lib, c, s, f, p, now);
    } else {
      AdmitWrites(lib, c, s, f, p, now);
    }
  }

  lemma RefusalWrites(lib: Library, c: Config, s: Sup, f: Frame, p: Prepare, now: real)
    requires f.kind == 3 && f.generation == s.generation && |f.payload| >= 46 && p == ParsePrepare(f.payload)
    requires s.run >= c.supervisedRuns || (p.phase == 2 && s.mutations >= c.maxIterations)
    requires CheckPrepare(lib, c, p) == None
    ensures var r := OnPrepare(lib, c, s, f.payload, now); RowWrites(lib, c, s, f, r.reply, now, r.next)
  {
    hide CheckPrepare, Admit, Hex;
  }

  lemma AdmitWrites(lib: Library, c: Config, s: Sup, f: Frame, p: Prepare, now: real)
    requires f.kind == 3 && f.generation == s.generation && |f.payload| >= 46 && p == ParsePrepare(f.payload)
    requires s.run < c.supervisedRuns && (p.phase == 2 ==> s.mutations < c.maxIterations)
    requires CheckPrepare(lib, c, p) == None
    ensures var r := Admit(lib, c, s, p, now);
            r.Accepted? && RowWrites(lib, c, s, f, r.reply, now, r.next)
  {
    hide CheckPrepare, Admit, GenWritten, GenKept, SupWritten, PendingWritten, Replied, ParsePrepare;
    AdmitGen(lib, c, s, f, p, now);
    AdmitSup(lib, c, s, f, p, now);
  }

  lemma AdmitGen(lib: Library, c: Config, s: Sup, f: Frame, p: Prepare, now: real)
    requires f.kind == 3 && f.generation == s.generation && |f.payload| >= 46 && p == ParsePrepare(f.payload)
    requires s.run < c.supervisedRuns && (p.phase == 2 ==> s.mutations < c.maxIterations)
    requires CheckPrepare(lib, c, p) == None
    ensures var r := Admit(lib, c, s, p, now);
            r.Accepted? && GenWritten(c, s, f, r.reply, now, r.next) && GenKept(s.gen, r.next.gen)
  {
    assert p.timeout == c.timeoutMs;
    hide CheckPrepare, MetaOf, Hex, ParsePrepare, RecipeSound;
  }

  lemma AdmitSup(lib: Library, c: Config, s: Sup, f: Frame, p: Prepare, now: real)
    requires f.kind == 3 && f.generation == s.generation && |f.payload| >= 46 && p == ParsePrepare(f.payload)
    requires s.run < c.supervisedRuns && (p.phase == 2 ==> s.mutations < c.maxIterations)
    requires CheckPrepare(lib, c, p) == None
    ensures var r := Admit(lib, c, s, p, now);
            && r.Accepted? && Replied(lib, c, s, f, r.reply) && SupWritten(c, s, f, r.reply, r.next)
            && PendingWritten(c, s, f, r.reply, r.next)
  {
    hide CheckPrepare, MetaOf, Hex;
  }

  lemma ResultWrites(lib: Library, c: Config, s: Sup, f: Frame, now: real)
    requires f.kind == 4 && f.generation == s.generation && |f.payload| == 4 && s.gen.pending.Some?
    requires OnResult(c, s, f.payload, f.run, now).Accepted?
    ensures var r := OnResult(c, s, f.payload, f.run, now); RowWrites(lib, c, s, f, r.reply, now, r.next)
  {
    hide ResultOf, Latest;
  }

  lemma DoneWrites(lib: Library, c: Config, s: Sup, f: Frame, now: real)
    requires f.kind == 5 && f.generation == s.generation && |f.payload| == 1
    ensures var r := OnDone(s, f.payload, now); r.Accepted? && RowWrites(lib, c, s, f, r.reply, now, r.next)
  {
  }

  lemma FrameWrites(lib: Library, c: Config, s: Sup, row: bytes, now: real)
    requires |row| >= 13
    requires s.gen.state == EXECUTING ==> s.gen.pending.Some?
    requires OnFrame(lib, c, s, row, now).Accepted?
    ensures var r := OnFrame(lib, c, s, row, now); RowWrites(lib, c, s, Fields(row), r.reply, now, r.next)
  {
    hide Fields, OnHello, OnReady, OnPrepare, OnResult, OnDone, RowWrites;
    var f := Fields(row);
    match f.kind
    case 1 => HelloWrites(lib, c, s, f, now);
    case 2 => ReadyWrites(lib, c, s, f, now);
    case 3 => PrepareWrites(lib, c, s, f, now);
    case 4 => ResultWrites(lib, c, s, f, now);
    case 5 => DoneWrites(lib, c, s, f, now);
    case _ =>
  }

  // ----- the row a block handles -----

  function Said(s: Sup): Frame {
    if s.gen.queue != [] && |s.gen.queue[0]| >= 13 then Fields(s.gen.queue[0]) else Frame(0, 0, 0, [])
  }

  function Unqueued(s: Sup): Sup {
    if s.gen.queue == [] then s else s.(gen := s.gen.(queue := s.gen.queue[1..]))
  }

  /** A row that is not taken is skipped once the generation is being stopped, and else a protocol failure. */
  predicate Skipped(g: Gen) {
    g.workerPid.Some? && g.peerPid == g.workerPid && g.stop !in {None, Some(DirtyRecycle)}
  }

  /** A row is answered exactly if it is heard and fits; then it writes what it writes. */
  lemma RowExactly(lib: Library, c: Config, s: Sup, now: real)
    requires Inv(c, s) && Can(c, s, Row(now))
    ensures var (f, reply) := (Said(s), Says(lib, c, s, Row(now)));
            && (reply.Some? <==> Hears(s.gen) && Fit(lib, c, s, f))
            && (reply.Some? ==> RowWrites(lib, c, Unqueued(s), f, reply.value, now, After(lib, c, s, Row(now)).0))
            && (reply.Some? ==> Requested(c, Unqueued(s), f, reply.value, Asks(lib, c, s, Row(now))))
            && (reply.None? ==> Asks(lib, c, s, Row(now)).Nothing?)
    ensures var t := After(lib, c, s, Row(now)).0;
            Says(lib, c, s, Row(now)).None? && Skipped(s.gen) ==> t == Unqueued(s)
    ensures Says(lib, c, s, Row(now)).None? && !Skipped(s.gen) ==>
              After(lib, c, s, Row(now)).0 == Misbehaved(Unqueued(s))
  {
    hide Conserved, WithinBudget, StopsSound, WordSound, LogSound, OnFrame, Fields, Fit, RowWrites, Requested;
    hide Misbehaved, Decide;
    assert FrameLen(|s.gen.queue[0]|);
    var s1 := Unqueued(s);
    var row := s.gen.queue[0];
    FrameExactly(lib, c, s1, row, now);
    assert Fit(lib, c, s1, Fields(row)) <==> Fit(lib, c, s, Fields(row)) by { FitLater(lib, c, s, Fields(row)); }
    if OnFrame(lib, c, s1, row, now).Accepted? {
      FrameWrites(lib, c, s1, row, now);
      FrameRequests(lib, c, s1, row, now);
    }
  }

  lemma FitLater(lib: Library, c: Config, s: Sup, f: Frame)
    ensures Fit(lib, c, Unqueued(s), f) <==> Fit(lib, c, s, f)
  {
    hide HelloBody, Hex, Proposed;
    var s1 := Unqueued(s);
    assert forall id, pid :: Introduces(c, s1.gen, f.payload, id, pid) <==> Introduces(c, s.gen, f.payload, id, pid);
  }
}
