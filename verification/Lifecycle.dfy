// What every block of the event loop keeps, over any order of blocks and any number of worker
// generations (priv/efz_external.py:366-462, 472-619).
module Lifecycle {
  import opened Bytes
  import opened Wire
  import opened Storage
  import opened Records
  import opened Supervisor
  import opened Wrappers

  // ----- steps -----

  /** One block of the loop body, with what the outside world contributes to it. */
  datatype Block =
    | Tick(now: real)
    | Parent
    | Connect(pid: int)
    | Pid(pid: int)
    | End(evidence: Evidence)
    | Eof
    | Data(data: bytes, now: real)
    | Row(now: real)
    | Leave
    | Next(workerConfig: bytes, now: real)

  /** After a generation: go on to another, or end the campaign with this status. */
  datatype Decision = Again | Stop(status: FinalStatus)

  datatype FinalStatus = Plain(status: Status) | RestartBudgetExhausted

  predicate ReadyInWindow(s: Sup) {
    Event(Ready, s.generation) in s.events
  }

  /** The body of `run_campaign`'s loop once the generation has returned; attempt is generation - 1. */
  function Decide(c: Config, s: Sup): Decision
    requires s.generation >= 1
  {
    var status := StatusOf(s.gen);
    if status in {Because(BudgetCompleted), Because(CampaignDeadline), Because(SupervisorParentDeath)}
    then Stop(Plain(status))
    else if c.replay && s.generation >= c.reproduceRuns then Stop(Plain(status))
    else if !c.replay && status == Completed then Stop(Plain(status))
    else if !ReadyInWindow(s) then Stop(Plain(status))
    else if s.gen.done in {Some(1), Some(2)} && status != Because(DirtyRecycle) then Stop(Plain(status))
    else if s.generation - 1 == c.restartBudget then Stop(RestartBudgetExhausted)
    else Again
  }

  predicate Can(c: Config, s: Sup, b: Block) {
    if b.Next? then !s.live && (s.generation == 0 || Decide(c, s) == Again) else
    && s.live
    && (b.Row? <==> s.gen.queue != [])
    && match b
       case Connect(_) => !s.gen.connected && !s.gen.eof
       case Eof => s.gen.connected && !s.gen.eof
       case Data(data, _) => s.gen.connected && !s.gen.eof && data != []
       case Leave => Over(s.gen) && s.gen.evidence.value.cleanupConfirmed
       case _ => true
  }

  /** Rows and pending are as the blocks leave them: what `After` needs to be defined. */
  predicate Shaped(s: Sup) {
    && Bodies(s.gen.queue)
    && (s.live ==> (s.gen.state == EXECUTING <==> s.gen.pending.Some?))
    && (!s.live ==> s.gen.pending.None?)
  }

  function After(lib: Library, c: Config, s: Sup, b: Block): (Sup, Request, Option<Frame>)
    requires Shaped(s) && Can(c, s, b)
  {
    match b
    case Tick(now) => (Timers(c, s, now), Nothing, None)
    case Parent => (ParentGone(s), Nothing, None)
    case Connect(pid) => (Connected(s, pid), Nothing, None)
    case Pid(pid) => (LauncherSaysPid(s, pid), Nothing, None)
    case End(e) => (LauncherSaysEnd(s, e), Nothing, None)
    case Eof => (StreamEnds(s), Nothing, None)
    case Data(data, now) => (Received(s, data, now), Nothing, None)
    case Row(now) => OnRow(lib, c, s, now)
    case Leave => (Ended(s).0, Ended(s).1, None)
    case Next(config, now) => (NextGeneration(c, s, config, now), Nothing, None)
  }

  // ----- blocks that only watch -----

  /** Nothing but clocks, buffers, the stop reason and the event log moves, and a stop reason stays. */
  predicate Quiet(s: Sup, t: Sup) {
    && t.(events := s.events, history := s.history, gen := s.gen) == s
    && t.gen.state == s.gen.state && t.gen.pending == s.gen.pending && t.gen.word == s.gen.word
    && t.gen.done == s.gen.done && t.gen.readyAt == s.gen.readyAt
    && (t.gen.stop == s.gen.stop
        || t.gen.stop in {Some(CampaignDeadline), Some(WorkerProtocolFailure), Some(SupervisorParentDeath)}
        || (s.gen.stop == None && s.gen.state == EXECUTING && t.gen.stop == Some(WorkerHardTimeout))
        || (s.gen.stop == None && s.gen.state != EXECUTING && t.gen.stop == Some(StartupOrIdleTimeout)))
    && (t.gen.stop.None? ==> t.gen.stopBytes == s.gen.stopBytes)
    && (t.events == s.events && t.history == s.history) != LoggedOne(s, t)
  }

  /** One event other than "ready" was appended. */
  predicate LoggedOne(s: Sup, t: Sup) {
    && |t.history| == |s.history| + 1
    && var e := t.history[|s.history|];
    && e.kind != Ready && e.generation == s.generation
    && t.history == s.history + [e]
    && t.events == Latest(s.events + [e])
  }

  lemma TimersQuiet(c: Config, s: Sup, now: real)
    ensures Quiet(s, Timers(c, s, now)) && Timers(c, s, now).gen.queue == s.gen.queue
  {
  }

  lemma MisbehavedQuiet(s: Sup, g: Gen)
    requires g == s.gen.(buffer := g.buffer, queue := g.queue)
    ensures Quiet(s, Misbehaved(s.(gen := g)))
  {
    hide Latest;
    assert ProtocolErrorEvent != Ready;
  }

  lemma ReceivedQuiet(s: Sup, data: bytes, now: real)
    ensures Quiet(s, Received(s, data, now))
    ensures Bodies(Received(s, data, now).gen.queue)
  {
    hide Split, Dropped, Misbehaved;
    var (r, buffer) := Fed(s.gen.buffer, data);
    if r.Err? {
      MisbehavedQuiet(s, s.gen.(buffer := buffer));
      MisbehavedEmpties(s.(gen := s.gen.(buffer := buffer)));
    }
  }

  lemma MisbehavedEmpties(s: Sup)
    ensures Misbehaved(s).gen.queue == []
  {
  }

  lemma OthersQuiet(s: Sup, b: Block)
    requires b.Parent? || b.Connect? || b.Pid? || b.End? || b.Eof?
    ensures var t := match b
                     case Parent => ParentGone(s)
                     case Connect(pid) => Connected(s, pid)
                     case Pid(pid) => LauncherSaysPid(s, pid)
                     case End(e) => LauncherSaysEnd(s, e)
                     case _ => StreamEnds(s);
            Quiet(s, t) && t.gen.queue == s.gen.queue
  {
    hide Latest;
    assert Launched != Ready;
  }

  // ----- the invariant -----

  function Busy(s: Sup): nat { if s.gen.pending.Some? then 1 else 0 }

  function Alive(s: Sup): nat { if s.live then 1 else 0 }

  /** Every run ever admitted was answered, became a finding, or is the one in flight. */
  predicate Conserved(c: Config, s: Sup) {
    && s.run == s.settled + |s.findings| + Busy(s)
    && |s.findings| + Alive(s) <= s.generation
    && (s.gen.pending.Some? ==> s.gen.pending.value.key == Key(c.campaign, s.run))
  }

  predicate WithinBudget(c: Config, s: Sup) {
    s.generation <= c.restartBudget + 1 && s.run <= c.supervisedRuns && s.mutations <= c.maxIterations
      && s.mutations + s.verifications <= s.run
  }

  /** The three reasons that must never be blamed on a run are set only while none is in flight. */
  predicate StopsSound(s: Sup) {
    var g := s.gen;
    && (g.stop in {Some(StartupOrIdleTimeout), Some(BudgetCompleted), Some(DirtyRecycle)} ==> g.pending.None?)
    && (g.stop == Some(DirtyRecycle) ==> g.state in {RECYCLING, STOPPING})
    && (g.stop.None? ==> g.stopBytes == 0 && g.state != RECYCLING)
  }

  function Rounds(k: nat): seq<Letter> {
    if k == 0 then [] else Rounds(k - 1) + [Admitted, Clean]
  }

  function Opened(k: nat): seq<Letter> { [Hello, Readied] + Rounds(k) }

  /** What a generation has accepted when it is in this state. */
  predicate WordFits(g: Gen, k: nat) {
    match g.state
    case STARTING => g.word == []
    case SETUP => g.word == [Hello]
    case READY => g.word == Opened(k) || (g.word == Opened(k) + [Refused] && !Listening(g))
    case EXECUTING => g.word == Opened(k) + [Admitted]
    case RECYCLING => g.word == Opened(k) + [Admitted, Dirty]
    case STOPPING => g.word in {[Hello, Done], Opened(k) + [Done], Opened(k) + [Admitted, Dirty, Done]}
  }

  ghost predicate WordSound(s: Sup) {
    exists k: nat :: WordFits(s.gen, k)
  }

  predicate ReadyBefore(s: Sup, i: nat) {
    i < |s.history| && s.history[i] == Event(Ready, s.generation)
  }

  /** The log is the tail of all events, and "ready" was logged at most once in this generation. */
  ghost predicate LogSound(s: Sup) {
    && s.events == Latest(s.history)
    && (forall i :: 0 <= i < |s.history| ==> s.history[i].generation <= s.generation)
    && (s.gen.readyAt.Some? ==> ReadyBefore(s, s.gen.readyAt.value))
    && (forall i: nat :: ReadyBefore(s, i) ==> s.gen.readyAt == Some(i))
    && (s.gen.state in {STARTING, SETUP} ==> s.gen.readyAt.None?)
    && (s.gen.readyAt.Some? <==> Readied in s.gen.word)
  }

  ghost predicate Inv(c: Config, s: Sup) {
    Shaped(s) && Conserved(c, s) && WithinBudget(c, s) && StopsSound(s) && WordSound(s) && LogSound(s)
  }

  lemma LatestPush<T>(s: seq<T>, x: T)
    ensures Latest(Latest(s) + [x]) == Latest(s + [x])
  {
  }

  lemma QuietLog(s: Sup, t: Sup)
    requires LogSound(s) && Quiet(s, t)
    ensures LogSound(t)
  {
    hide Latest;
    if LoggedOne(s, t) {
      LatestPush(s.history, t.history[|s.history|]);
      forall i: nat | ReadyBefore(t, i) ensures t.gen.readyAt == Some(i) {
        assert ReadyBefore(s, i);
      }
      if t.gen.readyAt.Some? {
        assert ReadyBefore(s, t.gen.readyAt.value);
      }
    } else {
      forall i: nat | ReadyBefore(t, i) ensures t.gen.readyAt == Some(i) {
        assert ReadyBefore(s, i);
      }
    }
  }

  lemma QuietKeeps(c: Config, s: Sup, t: Sup)
    requires s.live && Inv(c, s) && Quiet(s, t) && Bodies(t.gen.queue)
    ensures Inv(c, t)
  {
    QuietLog(s, t);
    hide LogSound, Opened;
    var k: nat :| WordFits(s.gen, k);
    assert WordFits(t.gen, k);
  }

  // ----- frames -----

  lemma LoggedKeeps(s: Sup, kind: EventKind)
    requires LogSound(s) && kind != Ready
    ensures LogSound(Logged(s, kind))
  {
    hide Latest;
    var t := Logged(s, kind);
    LatestPush(s.history, Event(kind, s.generation));
    forall i: nat | ReadyBefore(t, i) ensures t.gen.readyAt == Some(i) {
      assert ReadyBefore(s, i);
    }
    if t.gen.readyAt.Some? {
      assert ReadyBefore(s, t.gen.readyAt.value);
    }
  }

  lemma ReadyLogs(s: Sup, t: Sup)
    requires LogSound(s) && s.gen.state == SETUP && s.gen.word == [Hello]
    requires t == Logged(s.(gen := t.gen), Ready)
    requires t.gen.word == s.gen.word + [Readied] && t.gen.readyAt == Some(|s.history|) && t.gen.state == READY
    ensures LogSound(t)
  {
    hide Latest;
    LatestPush(s.history, Event(Ready, s.generation));
    forall i: nat | ReadyBefore(t, i) ensures t.gen.readyAt == Some(i) {
      assert i < |s.history| ==> ReadyBefore(s, i);
    }
  }

  /** A new letter that is not "ready" leaves the log as it is. */
  lemma LetterKeepsLog(s: Sup, t: Sup, letter: Letter)
    requires LogSound(s) && letter != Readied
    requires t.history == s.history && t.events == s.events && t.generation == s.generation
    requires t.gen.readyAt == s.gen.readyAt && t.gen.word == s.gen.word + [letter]
    requires t.gen.state in {STARTING, SETUP} ==> s.gen.state in {STARTING, SETUP}
    ensures LogSound(t)
  {
    hide Latest;
    forall i: nat | ReadyBefore(t, i) ensures t.gen.readyAt == Some(i) {
      assert ReadyBefore(s, i);
    }
    if t.gen.readyAt.Some? {
      assert ReadyBefore(s, t.gen.readyAt.value);
    }
  }

  /** What a frame of each kind does to the controller, apart from clocks. */
  predicate FrameStep(c: Config, s: Sup, t: Sup, q: Request, letter: Letter) {
    && t.generation == s.generation && t.live == s.live && t.findings == s.findings
    && t.gen.word == s.gen.word + [letter]
    && t.gen.queue == s.gen.queue && t.gen.stopBytes == s.gen.stopBytes
    && match letter
       case Hello =>
         s.gen.state == STARTING && t.gen.state == SETUP && Unchanged(s, t) && q.Nothing?
       case Readied =>
         && s.gen.state == SETUP && t.gen.state == READY && Counters(s, t) && q.Nothing?
         && t.gen.pending == s.gen.pending && t.gen.stop == s.gen.stop
         && t == Logged(s.(gen := t.gen), Ready) && t.gen.readyAt == Some(|s.history|)
       case Admitted =>
         && s.gen.state == READY && t.gen.state == EXECUTING && SameLog(s, t) && t.gen.stop == s.gen.stop
         && s.run < c.supervisedRuns && t.run == s.run + 1 && t.settled == s.settled
         && s.mutations <= t.mutations && s.verifications <= t.verifications
         && t.mutations + t.verifications <= s.mutations + s.verifications + 1
         && (t.mutations == s.mutations || (t.mutations == s.mutations + 1 && s.mutations < c.maxIterations))
         && q.Issue? && q.key == Key(c.campaign, t.run)
         && t.gen.pending.Some? && t.gen.pending.value.key == q.key
       case Refused =>
         && s.gen.state == READY && t.gen.state == READY && Counters(s, t) && SameLog(s, t) && q.Nothing?
         && t.gen.pending == s.gen.pending && t.gen.stop == Some(BudgetCompleted)
       case Clean =>
         && Answered(s, t, q) && t.gen.state == READY && t.gen.stop == s.gen.stop
       case Dirty =>
         && Answered(s, t, q) && t.gen.state == RECYCLING && t.gen.stop == Some(DirtyRecycle)
       case Done =>
         && s.gen.state in {READY, SETUP, RECYCLING} && t.gen.state == STOPPING && Unchanged(s, t) && q.Nothing?
  }

  predicate Counters(s: Sup, t: Sup) {
    t.run == s.run && t.mutations == s.mutations && t.verifications == s.verifications && t.settled == s.settled
  }

  predicate SameLog(s: Sup, t: Sup) {
    t.events == s.events && t.history == s.history && t.gen.readyAt == s.gen.readyAt
  }

  predicate Unchanged(s: Sup, t: Sup) {
    Counters(s, t) && SameLog(s, t) && t.gen.pending == s.gen.pending && t.gen.stop == s.gen.stop
  }

  predicate Answered(s: Sup, t: Sup, q: Request) {
    && s.gen.state == EXECUTING && s.gen.pending.Some? && t.gen.pending.None?
    && t.run == s.run && t.mutations == s.mutations && t.verifications == s.verifications
    && t.settled == s.settled + 1
    && q.Settle? && q.key == s.gen.pending.value.key
    && t.gen.readyAt == s.gen.readyAt
    && t.history == s.history + [Event(ResultEvent, s.generation)]
    && t.events == Latest(s.events + [Event(ResultEvent, s.generation)])
  }

  lemma AdmitSteps(lib: Library, c: Config, s: Sup, p: Prepare, now: real)
    requires CheckPrepare(lib, c, p) == None && s.gen.state == READY
    requires s.run < c.supervisedRuns && (p.phase == 2 ==> s.mutations < c.maxIterations)
    ensures var r := Admit(lib, c, s, p, now);
            r.Accepted? && FrameStep(c, s, r.next, r.request, Admitted)
  {
    hide CheckPrepare, MetaOf, Hex;
  }

  lemma PrepareSteps(lib: Library, c: Config, s: Sup, body: bytes, now: real)
    requires |body| >= 46 && s.gen.state == READY
    ensures var r := OnPrepare(lib, c, s, body, now);
            r.Accepted? ==> exists letter :: letter in {Admitted, Refused} && FrameStep(c, s, r.next, r.request, letter)
  {
    hide CheckPrepare, Admit, ParsePrepare;
    var p := ParsePrepare(body);
    if CheckPrepare(lib, c, p).None? {
      if s.run >= c.supervisedRuns || (p.phase == 2 && s.mutations >= c.maxIterations) {
        assert FrameStep(c, s, OnPrepare(lib, c, s, body, now).next, Nothing, Refused);
      } else {
        AdmitSteps(lib, c, s, p, now);
      }
    }
  }

  lemma ResultSteps(c: Config, s: Sup, body: bytes, run: nat, now: real)
    requires |body| == 4 && s.gen.state == EXECUTING && s.gen.pending.Some?
    ensures var r := OnResult(c, s, body, run, now);
            r.Accepted? ==> exists letter :: letter in {Clean, Dirty} && FrameStep(c, s, r.next, r.request, letter)
  {
    hide ResultOf, Latest;
    var r := OnResult(c, s, body, run, now);
    if r.Accepted? {
      assert FrameStep(c, s, r.next, r.request, if body[2] != 0 then Dirty else Clean);
    }
  }

  lemma SimpleSteps(c: Config, s: Sup, body: bytes, now: real)
    ensures s.gen.state == STARTING ==> var r := OnHello(c, s, body);
            r.Accepted? ==> FrameStep(c, s, r.next, r.request, Hello)
    ensures s.gen.state == SETUP ==> var r := OnReady(c, s, now);
            r.Accepted? && FrameStep(c, s, r.next, r.request, Readied)
    ensures |body| == 1 && s.gen.state in {READY, SETUP, RECYCLING} ==> var r := OnDone(s, body, now);
            r.Accepted? && FrameStep(c, s, r.next, r.request, Done)
  {
    hide CheckHello, Latest;
  }

  lemma FrameSteps(lib: Library, c: Config, s: Sup, row: bytes, now: real)
    requires |row| >= 13
    requires s.gen.state == EXECUTING ==> s.gen.pending.Some?
    ensures var r := OnFrame(lib, c, s, row, now);
            r.Accepted? ==> exists letter :: FrameStep(c, s, r.next, r.request, letter)
  {
    hide OnHello, OnReady, OnPrepare, OnResult, OnDone, Fields, FrameStep;
    var f := Fields(row);
    SimpleSteps(c, s, f.payload, now);
    if f.kind == 3 && s.gen.state == READY && |f.payload| >= 46 {
      PrepareSteps(lib, c, s, f.payload, now);
    }
    if s.gen.state == EXECUTING && |f.payload| == 4 {
      ResultSteps(c, s, f.payload, f.run, now);
    }
  }

  lemma FrameKeepsWord(c: Config, s: Sup, t: Sup, q: Request, letter: Letter)
    requires StopsSound(s) && WordSound(s) && Shaped(s) && s.live && Listening(s.gen)
    requires FrameStep(c, s, t, q, letter)
    ensures WordSound(t)
  {
    var k: nat :| WordFits(s.gen, k);
    if letter == Clean {
      assert Opened(k) + [Admitted] + [Clean] == Opened(k + 1);
      assert WordFits(t.gen, k + 1);
    } else if letter == Readied {
      assert [Hello] + [Readied] == Opened(0);
      assert WordFits(t.gen, 0);
    } else {
      assert Opened(k) + [Admitted] + [Dirty] == Opened(k) + [Admitted, Dirty];
      assert Opened(k) + [Admitted, Dirty] + [Done] == Opened(k) + [Admitted, Dirty, Done];
      assert [Hello] + [Done] == [Hello, Done];
      assert WordFits(t.gen, k);
    }
  }

  lemma FrameKeepsLog(c: Config, s: Sup, t: Sup, q: Request, letter: Letter)
    requires LogSound(s) && WordSound(s)
    requires FrameStep(c, s, t, q, letter)
    ensures LogSound(t)
  {
    hide LogSound, Opened, WordFits, Latest;
    match letter
    case Readied =>
      assert s.gen.word == [Hello] by { WordAtSetup(s); }
      ReadyLogs(s, t);
    case Clean =>
      AnsweredKeepsLog(s, t, q, letter);
    case Dirty =>
      AnsweredKeepsLog(s, t, q, letter);
    case _ =>
      LetterKeepsLog(s, t, letter);
  }

  lemma WordAtSetup(s: Sup)
    requires WordSound(s) && s.gen.state == SETUP
    ensures s.gen.word == [Hello]
  {
  }

  lemma AnsweredKeepsLog(s: Sup, t: Sup, q: Request, letter: Letter)
    requires LogSound(s) && Answered(s, t, q) && letter in {Clean, Dirty}
    requires t.generation == s.generation && t.gen.word == s.gen.word + [letter] && t.gen.state in {READY, RECYCLING}
    ensures LogSound(t)
  {
    hide LogSound, Latest;
    var u := Logged(s, ResultEvent);
    LoggedKeeps(s, ResultEvent);
    LogSoundIrrelevant(u, t.(gen := u.gen));
    LetterKeepsLog(u, t, letter);
  }

  lemma LogSoundIrrelevant(s: Sup, t: Sup)
    requires LogSound(s) && t.gen == s.gen && t.history == s.history && t.events == s.events
             && t.generation == s.generation
    ensures LogSound(t)
  {
    forall i: nat | ReadyBefore(t, i) ensures t.gen.readyAt == Some(i) {
      assert ReadyBefore(s, i);
    }
    if t.gen.readyAt.Some? {
      assert ReadyBefore(s, t.gen.readyAt.value);
    }
  }

  lemma FrameKeeps(c: Config, s: Sup, t: Sup, q: Request, letter: Letter)
    requires s.live && Inv(c, s) && Listening(s.gen)
    requires FrameStep(c, s, t, q, letter)
    ensures Inv(c, t)
  {
    FrameKeepsWord(c, s, t, q, letter);
    FrameKeepsLog(c, s, t, q, letter);
    hide LogSound, WordSound, Latest;
  }

  // ----- ends and beginnings of generations -----

  lemma EndKeeps(c: Config, s: Sup)
    requires s.live && Inv(c, s) && Over(s.gen)
    ensures Inv(c, Ended(s).0)
  {
    hide TerminationResult, Opened, Latest;
    LoggedKeeps(s, Terminated);
    var t := Ended(s).0;
    assert LogSound(t) by {
      EndLog(s, t);
    }
    hide LogSound;
    var k: nat :| WordFits(s.gen, k);
    assert WordFits(t.gen, k);
  }

  lemma EndLog(s: Sup, t: Sup)
    requires LogSound(Logged(s, Terminated))
    requires t.history == Logged(s, Terminated).history && t.events == Logged(s, Terminated).events
    requires t.generation == s.generation && t.gen == s.gen.(pending := t.gen.pending)
    ensures LogSound(t)
  {
    hide Latest;
    var u := Logged(s, Terminated);
    forall i: nat | ReadyBefore(t, i) ensures t.gen.readyAt == Some(i) {
      assert ReadyBefore(u, i);
    }
    if t.gen.readyAt.Some? {
      assert ReadyBefore(u, t.gen.readyAt.value);
    }
  }

  lemma NextKeeps(c: Config, s: Sup, config: bytes, now: real)
    requires Can(c, s, Next(config, now)) && Inv(c, s)
    ensures Inv(c, NextGeneration(c, s, config, now))
  {
    hide Latest, Opened;
    var t := NextGeneration(c, s, config, now);
    assert WordFits(t.gen, 0);
  }

  lemma InitialInv(c: Config)
    ensures Inv(c, Initial(c))
  {
    hide Opened;
    assert WordFits(Initial(c).gen, 0);
  }

  lemma RowKeeps(lib: Library, c: Config, s: Sup, now: real)
    requires s.live && Inv(c, s) && s.gen.queue != []
    ensures Inv(c, OnRow(lib, c, s, now).0)
  {
    var g := s.gen;
    var s1 := s.(gen := g.(queue := g.queue[1..]));
    var row := g.queue[0];
    assert FrameLen(|row|) && Bodies(s1.gen.queue);
    assert Inv(c, s1) by {
      assert Quiet(s, s1);
      QuietKeeps(c, s, s1);
    }
    MisbehavedQuiet(s1, s1.gen);
    MisbehavedEmpties(s1);
    assert s1.(gen := s1.gen) == s1;
    QuietKeeps(c, s1, Misbehaved(s1));
    hide OnFrame, FrameStep, Inv, Misbehaved, Bodies, FrameLen;
    var r := OnFrame(lib, c, s1, row, now);
    FrameSteps(lib, c, s1, row, now);
    if Listening(g) && r.Accepted? {
      var letter :| FrameStep(c, s1, r.next, r.request, letter);
      FrameKeeps(c, s1, r.next, r.request, letter);
    }
  }

  /** Every block keeps the invariant. */
  lemma AfterKeeps(lib: Library, c: Config, s: Sup, b: Block)
    requires Inv(c, s) && Can(c, s, b)
    ensures Inv(c, After(lib, c, s, b).0)
  {
    hide Timers, ParentGone, Connected, LauncherSaysPid, LauncherSaysEnd, StreamEnds, Received, OnRow, Ended;
    hide NextGeneration;
    hide Quiet, Conserved, WithinBudget, StopsSound, WordSound, LogSound, Decide;
    match b {
      case Row(now) => RowKeeps(lib, c, s, now);
      case Leave => EndKeeps(c, s);
      case Next(config, now) => NextKeeps(c, s, config, now);
      case _ =>
        var t := After(lib, c, s, b).0;
        WatchQuiet(lib, c, s, b);
        QuietKeeps(c, s, t);
    }
  }

  lemma WatchQuiet(lib: Library, c: Config, s: Sup, b: Block)
    requires Shaped(s) && Can(c, s, b) && !b.Row? && !b.Leave? && !b.Next?
    ensures Quiet(s, After(lib, c, s, b).0) && Bodies(After(lib, c, s, b).0.gen.queue)
  {
    hide Timers, ParentGone, Connected, LauncherSaysPid, LauncherSaysEnd, StreamEnds, Received, Quiet;
    match b {
      case Tick(now) => TimersQuiet(c, s, now);
      case Data(data, now) => ReceivedQuiet(s, data, now);
      case _ => OthersQuiet(s, b);
    }
  }

  // ----- theorems over whole campaigns -----

  ghost predicate Moves(lib: Library, c: Config, s: Sup, b: Block, t: Sup) {
    Shaped(s) && Can(c, s, b) && t == After(lib, c, s, b).0
  }

  /** A campaign so far: any blocks in any order the loop allows, through any number of generations. */
  ghost predicate Campaign(lib: Library, c: Config, states: seq<Sup>, blocks: seq<Block>) {
    && |states| == |blocks| + 1
    && states[0] == Initial(c)
    && forall i :: 0 <= i < |blocks| ==> Moves(lib, c, states[i], blocks[i], states[i + 1])
  }

  lemma CampaignExtends(lib: Library, c: Config, states: seq<Sup>, blocks: seq<Block>, b: Block, t: Sup)
    requires Campaign(lib, c, states, blocks) && Moves(lib, c, states[|blocks|], b, t)
    ensures Campaign(lib, c, states + [t], blocks + [b])
  {
    hide Moves;
    var states', blocks' := states + [t], blocks + [b];
    forall i | 0 <= i < |blocks'| ensures Moves(lib, c, states'[i], blocks'[i], states'[i + 1]) {
      assert i < |blocks| ==> Moves(lib, c, states[i], blocks[i], states[i + 1]);
    }
  }

  /** The invariant holds at every point of every campaign; with it run = answered + findings + in
      flight, at most one finding a generation, and every budget. */
  lemma {:induction false} CampaignInv(lib: Library, c: Config, states: seq<Sup>, blocks: seq<Block>, i: nat)
    requires Campaign(lib, c, states, blocks) && i < |states|
    ensures Inv(c, states[i])
  {
    hide Inv, Can, After;
    if i == 0 {
      InitialInv(c);
    } else {
      CampaignInv(lib, c, states, blocks, i - 1);
      assert Moves(lib, c, states[i - 1], blocks[i - 1], states[i]);
      AfterKeeps(lib, c, states[i - 1], blocks[i - 1]);
    }
  }

  /** 1 (5 | 2 (3 4-clean)* (5 | 3-refused | 3 4-dirty 5)) */
  ghost predicate InLanguage(w: seq<Letter>) {
    w == [Hello, Done] ||
    exists k: nat :: w in {Opened(k) + [Done], Opened(k) + [Refused], Opened(k) + [Admitted, Dirty, Done]}
  }

  /** What a generation has accepted can always still become a word of the language. */
  lemma AcceptedIsPrefix(c: Config, s: Sup)
    requires Inv(c, s)
    ensures exists w :: InLanguage(w) && s.gen.word <= w
  {
    hide LogSound, Rounds;
    var k: nat :| WordFits(s.gen, k);
    var w := match s.gen.state
      case STARTING => [Hello, Done]
      case SETUP => [Hello, Done]
      case READY => if s.gen.word == Opened(k) then Opened(k) + [Done] else s.gen.word
      case EXECUTING => Opened(k) + [Admitted, Dirty, Done]
      case RECYCLING => Opened(k) + [Admitted, Dirty, Done]
      case STOPPING => s.gen.word;
    assert InLanguage(w);
    assert s.gen.word <= w;
  }

  /** Permission is asked for only in a generation nothing has stopped, behind clean runs alone. */
  lemma PermissionOnlyWhenClean(lib: Library, c: Config, s: Sup, b: Block)
    requires Inv(c, s) && Can(c, s, b)
    requires After(lib, c, s, b).1.Issue?
    ensures s.live && s.gen.stop.None? && s.gen.pending.None?
    ensures exists k: nat :: s.gen.word == Opened(k)
    ensures var (t, q, reply) := After(lib, c, s, b);
            && q.key == Key(c.campaign, s.run + 1) && t.run == s.run + 1 && s.run < c.supervisedRuns
            && t.gen.pending.Some? && t.gen.pending.value.key == q.key
  {
    hide Opened, LogSound, OnFrame, FrameStep, Misbehaved, Latest;
    assert b.Row? by { OnlyRowsAsk(lib, c, s, b); }
    var g := s.gen;
    var s1 := s.(gen := g.(queue := g.queue[1..]));
    assert FrameLen(|g.queue[0]|);
    FrameSteps(lib, c, s1, g.queue[0], b.now);
    var r := OnFrame(lib, c, s1, g.queue[0], b.now);
    var letter :| FrameStep(c, s1, r.next, r.request, letter);
    IssueMeansAdmitted(c, s1, r.next, r.request, letter);
    var k: nat :| WordFits(g, k);
  }

  lemma OnlyRowsAsk(lib: Library, c: Config, s: Sup, b: Block)
    requires Shaped(s) && Can(c, s, b) && After(lib, c, s, b).1.Issue?
    ensures b.Row?
  {
    hide TerminationResult;
  }

  lemma IssueMeansAdmitted(c: Config, s: Sup, t: Sup, q: Request, letter: Letter)
    requires FrameStep(c, s, t, q, letter) && q.Issue?
    ensures s.gen.state == READY && t.run == s.run + 1 && s.run < c.supervisedRuns && q.key == Key(c.campaign, t.run)
    ensures t.gen.pending.Some? && t.gen.pending.value.key == q.key
  {
  }

  /** A refused row changes no counter, no state, nothing pending, asks nothing of the journal, and
      ends the hearing: no later row of this generation is looked at. */
  lemma RejectionChangesNothing(lib: Library, c: Config, s: Sup, now: real)
    requires Shaped(s) && Can(c, s, Row(now))
    requires s.gen.workerPid.None? || s.gen.peerPid != s.gen.workerPid || !Listening(s.gen)
             || OnFrame(lib, c, s.(gen := s.gen.(queue := s.gen.queue[1..])), s.gen.queue[0], now).Rejected?
    ensures var (t, q, reply) := After(lib, c, s, Row(now));
            && Quiet(s, t) && q.Nothing? && reply.None?
            && !Listening(t.gen)
  {
    hide OnFrame;
    var s1 := s.(gen := s.gen.(queue := s.gen.queue[1..]));
    MisbehavedQuiet(s, s1.gen);
  }

  /** A stop reason may be replaced by a graver one but is not taken back within a generation. */
  lemma StopIsForever(lib: Library, c: Config, s: Sup, b: Block)
    requires Inv(c, s) && Can(c, s, b) && !b.Next?
    requires s.gen.stop.Some?
    ensures After(lib, c, s, b).0.gen.stop.Some?
  {
    if b.Row? {
      hide Latest, LogSound, WordSound, OnFrame, FrameStep;
      var s1 := s.(gen := s.gen.(queue := s.gen.queue[1..]));
      assert FrameLen(|s.gen.queue[0]|);
      FrameSteps(lib, c, s1, s.gen.queue[0], b.now);
      var r := OnFrame(lib, c, s1, s.gen.queue[0], b.now);
      if r.Accepted? {
        var letter :| FrameStep(c, s1, r.next, r.request, letter);
        StepKeepsStop(c, s1, r.next, r.request, letter);
      }
    } else if !b.Leave? {
      WatchQuiet(lib, c, s, b);
    } else {
      hide TerminationResult;
    }
  }

  lemma StepKeepsStop(c: Config, s: Sup, t: Sup, q: Request, letter: Letter)
    requires FrameStep(c, s, t, q, letter) && s.gen.stop.Some?
    ensures t.gen.stop.Some?
  {
  }

  /** What a run still in flight may be blamed on. */
  const BLAMES := {"native_vm_crash", "worker_unexpected_exit", "worker_hard_timeout", "campaign_deadline",
                   "supervisor_parent_death", "worker_protocol_failure"}

  /** The verdict of a run in flight when its worker ended. Whether the launcher killed the worker is not
      looked at. */
  lemma ClassificationSound(lib: Library, c: Config, s: Sup)
    requires Inv(c, s) && Can(c, s, Leave) && s.gen.pending.Some?
    ensures var (t, q, _) := After(lib, c, s, Leave);
            var e := s.gen.evidence.value;
            && q == Settle(s.gen.pending.value.key, TerminationResult(s.gen, e))
            && Classification(s.gen, e) in BLAMES
            && (Classification(s.gen, e) == "native_vm_crash" <==> s.gen.stop.None? && e.signal != 0)
            && (s.gen.stop.None? ==> s.gen.stopBytes == 0)
            && t.findings == s.findings + [s.gen.pending.value.key] && t.gen.pending.None?
  {
    hide TerminationResult, Latest, LogSound, WordSound;
  }

  /** A worker is granted exactly what is left of the mutation budget. */
  lemma GrantsAddUp(c: Config, s: Sup)
    requires Inv(c, s)
    ensures s.mutations + Grant(c, s) == c.maxIterations
  {
    hide LogSound, WordSound;
  }

  /** The restart guard asks whether the generation got ready, but reads it from the last 256 events:
      the answer is right exactly while at most 254 events followed "ready". */
  lemma GuardIsAWindow(c: Config, s: Sup)
    requires Inv(c, s) && s.live && Over(s.gen)
    ensures ReadyInWindow(Ended(s).0) <==>
            s.gen.readyAt.Some? && |s.history| - (s.gen.readyAt.value + 1) <= 254
    ensures s.gen.readyAt.Some? <==> Readied in s.gen.word
  {
    hide TerminationResult, WordSound, Latest;
    EndKeeps(c, s);
    var t := Ended(s).0;
    if s.gen.readyAt.Some? {
      var i := s.gen.readyAt.value;
      assert ReadyBefore(s, i) && ReadyBefore(t, i);
      OnlyOnce(t, i);
      InLatest(t.history, Event(Ready, t.generation), i);
    }
    if ReadyInWindow(t) {
      var i := LatestCameFrom(t.history, Event(Ready, t.generation));
      assert ReadyBefore(t, i);
      OnlyOnce(t, i);
      InLatest(t.history, Event(Ready, t.generation), i);
    }
  }

  lemma OnlyOnce(s: Sup, i: nat)
    requires LogSound(s) && ReadyBefore(s, i)
    ensures forall j :: 0 <= j < |s.history| && s.history[j] == Event(Ready, s.generation) ==> j == i
  {
    forall j | 0 <= j < |s.history| && s.history[j] == Event(Ready, s.generation) ensures j == i {
      assert ReadyBefore(s, j);
    }
  }

  lemma InLatest<T>(s: seq<T>, x: T, i: nat)
    requires i < |s| && s[i] == x
    requires forall j :: 0 <= j < |s| && s[j] == x ==> j == i
    ensures x in Latest(s) <==> |s| - i <= WINDOW
  {
    var w := Latest(s);
    if |s| - i <= WINDOW {
      assert w[|w| - (|s| - i)] == x;
    }
  }

  lemma LatestCameFrom<T>(s: seq<T>, x: T) returns (i: nat)
    requires x in Latest(s)
    ensures i < |s| && s[i] == x
  {
    var w := Latest(s);
    var j :| 0 <= j < |w| && w[j] == x;
    i := |s| - |w| + j;
  }

  // ----- what a block asks of the journal -----

  /** The request a block makes, said by the run counter and the run in flight. */
  predicate RequestFits(c: Config, s: Sup, t: Sup, q: Request) {
    match q
    case Nothing => t.run == s.run && t.gen.pending == s.gen.pending
    case Issue(key, _, _) =>
      && s.gen.pending.None? && t.run == s.run + 1 && key == Key(c.campaign, t.run)
      && t.gen.pending.Some? && t.gen.pending.value.key == key
    case Settle(key, _) =>
      t.run == s.run && s.gen.pending.Some? && key == s.gen.pending.value.key && t.gen.pending.None?
  }

  lemma StepRequests(c: Config, s: Sup, t: Sup, q: Request, letter: Letter)
    requires FrameStep(c, s, t, q, letter) && (s.gen.state == READY ==> s.gen.pending.None?)
    ensures RequestFits(c, s, t, q)
  {
  }

  lemma RowRequests(lib: Library, c: Config, s: Sup, now: real)
    requires Inv(c, s) && Can(c, s, Row(now))
    ensures RequestFits(c, s, OnRow(lib, c, s, now).0, OnRow(lib, c, s, now).1)
  {
    hide Latest, LogSound, WordSound, WithinBudget, Conserved, StopsSound, OnFrame, FrameStep, Decide;
    var s1 := s.(gen := s.gen.(queue := s.gen.queue[1..]));
    assert FrameLen(|s.gen.queue[0]|);
    FrameSteps(lib, c, s1, s.gen.queue[0], now);
    var r := OnFrame(lib, c, s1, s.gen.queue[0], now);
    if r.Accepted? {
      var letter :| FrameStep(c, s1, r.next, r.request, letter);
      StepRequests(c, s1, r.next, r.request, letter);
    }
  }

  lemma Requests(lib: Library, c: Config, s: Sup, b: Block)
    requires Inv(c, s) && Can(c, s, b)
    ensures RequestFits(c, s, After(lib, c, s, b).0, After(lib, c, s, b).1)
  {
    hide Latest, LogSound, WordSound, WithinBudget, Conserved, StopsSound, Decide, TerminationResult, OnRow;
    hide Timers, ParentGone, Connected, LauncherSaysPid, LauncherSaysEnd, StreamEnds, Received;
    if b.Row? {
      RowRequests(lib, c, s, b.now);
    } else if !b.Leave? && !b.Next? {
      WatchQuiet(lib, c, s, b);
    }
  }

  /** The permitted digest is the digest of the very bytes that go to the journal. */
  lemma DigestIsOfInput(lib: Library, c: Config, s: Sup, b: Block)
    requires Inv(c, s) && Can(c, s, b) && After(lib, c, s, b).1.Issue?
    ensures var q := After(lib, c, s, b).1;
            q.digest == lib.sha(q.job.raw)
  {
    OnlyRowsAsk(lib, c, s, b);
    hide LogSound, WordSound, WithinBudget, Conserved, StopsSound, MetaOf, RecipeSound, ParsePrepare, Hex;
    hide Latest, TerminationResult;
    var s1 := s.(gen := s.gen.(queue := s.gen.queue[1..]));
    var row := s.gen.queue[0];
    assert FrameLen(|row|);
    FrameDigest(lib, c, s1, row, b.now);
  }

  lemma FrameDigest(lib: Library, c: Config, s: Sup, row: bytes, now: real)
    requires |row| >= 13
    requires s.gen.state == EXECUTING ==> s.gen.pending.Some?
    requires var r := OnFrame(lib, c, s, row, now); r.Accepted? && r.request.Issue?
    ensures var q := OnFrame(lib, c, s, row, now).request;
            q.digest == lib.sha(q.job.raw)
  {
    hide MetaOf, RecipeSound, ParsePrepare, Hex, Latest, CheckHello, ResultOf;
    var q := OnFrame(lib, c, s, row, now).request;
    assert Hex(q.digest) == Digest(lib, q.job.raw);
    HexInjective(q.digest, lib.sha(q.job.raw));
  }

  /** Only the sizes that packing gives the metadata and the manifest can keep an admitted run from
      reading back: everything else the reader checks, the controller has seen to. */
  lemma AdmittedIsLegible(lib: Library, c: Config, s: Sup, b: Block)
    requires Bounded(c) && Inv(c, s) && Can(c, s, b) && After(lib, c, s, b).1.Issue?
    ensures var job := After(lib, c, s, b).1.job;
            Legible(lib, job) <==>
            && |lib.packed(job.meta)| <= META_LIMIT && Openers(lib.packed(job.meta)) <= NESTING_LIMIT
            && |lib.packed(Record(ManifestOf(lib, job)))| <= META_LIMIT
            && Openers(lib.packed(Record(ManifestOf(lib, job)))) <= NESTING_LIMIT
  {
    OnlyRowsAsk(lib, c, s, b);
    hide LogSound, WordSound, WithinBudget, Conserved, StopsSound, RecipeSound, ParsePrepare, Hex, Latest;
    hide TerminationResult;
    hide MetaOf, ManifestOf, Openers, Describes;
    var s1 := s.(gen := s.gen.(queue := s.gen.queue[1..]));
    var row := s.gen.queue[0];
    assert FrameLen(|row|);
    FrameJob(lib, c, s1, row, b.now);
  }

  /** The sizes are not checked before the run is published: with a target name longer than the reader's limit,
      no run the controller ever admits will read back. */
  lemma LongTargetIsIllegible(lib: Library, c: Config, s: Sup, p: Prepare, now: real)
    requires Spells(lib) && |c.target| > META_LIMIT && CheckPrepare(lib, c, p) == None
    ensures var r := Admit(lib, c, s, p, now);
            r.Accepted? && r.request.Issue? && !Legible(lib, r.request.job)
  {
    hide CheckPrepare, Hex, Openers, ManifestOf, Describes, MetaOf;
    MetaNames(c, s.generation, s.gen, p, s.run + 1);
  }

  lemma MetaNames(c: Config, generation: nat, g: Gen, p: Prepare, id: nat)
    ensures var m := MetaOf(c, generation, g, p, id);
            Named(m) && "harness" in m.fields && m.fields["harness"] == Text(c.target)
  {
    hide Hex;
  }

  lemma FrameJob(lib: Library, c: Config, s: Sup, row: bytes, now: real)
    requires Bounded(c) && |row| >= 13
    requires s.gen.state == EXECUTING ==> s.gen.pending.Some?
    requires var r := OnFrame(lib, c, s, row, now); r.Accepted? && r.request.Issue?
    ensures var job := OnFrame(lib, c, s, row, now).request.job;
            |job.raw| <= MAX_INPUT && |job.recipe| <= META_LIMIT && Describes(lib, job.meta, job.raw)
  {
    hide CheckPrepare, ParsePrepare, MetaOf, Describes, Hex, Latest, CheckHello, ResultOf;
    var f := Fields(row);
    PrepareJob(lib, c, s, ParsePrepare(f.payload));
  }

  lemma PrepareJob(lib: Library, c: Config, s: Sup, p: Prepare)
    requires Bounded(c) && CheckPrepare(lib, c, p) == None
    ensures |p.rest[..p.size]| <= MAX_INPUT && |p.rest[p.size..]| <= META_LIMIT
    ensures Describes(lib, MetaOf(c, s.generation, s.gen, p, s.run + 1), p.rest[..p.size])
  {
    hide RecipeSound, Hex;
  }

  // ----- said of whole campaigns -----

  /** Conservation and budgets, at every point of every campaign: each run ever admitted was answered, became
      a finding or is in flight, and what was spent and what the next worker is granted are the budget. */
  lemma Conservation(lib: Library, c: Config, states: seq<Sup>, blocks: seq<Block>, i: nat)
    requires Campaign(lib, c, states, blocks) && i < |states|
    ensures var s := states[i];
            && s.run == s.settled + |s.findings| + Busy(s)
            && |s.findings| <= s.generation <= c.restartBudget + 1
            && s.run <= c.supervisedRuns && s.mutations <= c.maxIterations && s.mutations + s.verifications <= s.run
            && s.mutations + Grant(c, s) == c.maxIterations
            && (s.live ==> (s.gen.pending.Some? <==> s.gen.state == EXECUTING))
  {
    hide Campaign, LogSound, WordSound, StopsSound, Grant;
    CampaignInv(lib, c, states, blocks, i);
    GrantsAddUp(c, states[i]);
  }

  /** The generation at i is the one at j. */
  predicate SameGeneration(blocks: seq<Block>, i: nat, j: nat)
    requires i <= j <= |blocks|
  {
    forall k :: i <= k < j ==> !blocks[k].Next?
  }

  /** Something has happened after which nothing may be executed any more. */
  predicate Finished(g: Gen) {
    g.stop.Some? || Dirty in g.word || Done in g.word || Refused in g.word
  }

  lemma WordGrows(lib: Library, c: Config, s: Sup, b: Block)
    requires Inv(c, s) && Can(c, s, b) && !b.Next?
    ensures s.gen.word <= After(lib, c, s, b).0.gen.word
    ensures s.run <= After(lib, c, s, b).0.run
  {
    hide Latest, LogSound, WordSound, StopsSound, Conserved, WithinBudget, TerminationResult, OnRow, Decide;
    if b.Row? {
      RowGrows(lib, c, s, b.now);
    } else if !b.Leave? {
      WatchQuiet(lib, c, s, b);
    }
  }

  lemma RowGrows(lib: Library, c: Config, s: Sup, now: real)
    requires Inv(c, s) && Can(c, s, Row(now))
    ensures s.gen.word <= OnRow(lib, c, s, now).0.gen.word
    ensures s.run <= OnRow(lib, c, s, now).0.run
  {
    hide Latest, LogSound, WordSound, StopsSound, Conserved, WithinBudget, OnFrame, FrameStep, Decide;
    var s1 := s.(gen := s.gen.(queue := s.gen.queue[1..]));
    assert FrameLen(|s.gen.queue[0]|);
    FrameSteps(lib, c, s1, s.gen.queue[0], now);
    var r := OnFrame(lib, c, s1, s.gen.queue[0], now);
    if r.Accepted? {
      var letter :| FrameStep(c, s1, r.next, r.request, letter);
      FrameGrows(c, s1, r.next, r.request, letter);
    }
  }

  lemma FrameGrows(c: Config, s: Sup, t: Sup, q: Request, letter: Letter)
    requires FrameStep(c, s, t, q, letter)
    ensures s.gen.word <= t.gen.word && s.run <= t.run
  {
  }

  lemma FinishedStays(lib: Library, c: Config, s: Sup, b: Block)
    requires Inv(c, s) && Can(c, s, b) && !b.Next? && Finished(s.gen)
    ensures Finished(After(lib, c, s, b).0.gen)
  {
    hide After, Inv, Can;
    assert Shaped(s) by { InvShapes(c, s); }
    WordGrows(lib, c, s, b);
    if s.gen.stop.Some? {
      StopIsForever(lib, c, s, b);
    }
  }

  lemma InvShapes(c: Config, s: Sup)
    requires Inv(c, s)
    ensures Shaped(s)
  {
  }

  lemma {:induction false} OpenedLetters(k: nat, x: Letter)
    requires x in Opened(k)
    ensures x in {Hello, Readied, Admitted, Clean}
  {
    if k > 0 && x !in {Hello, Readied, Admitted, Clean} {
      assert x in Opened(k - 1) by { assert Opened(k) == Opened(k - 1) + [Admitted, Clean] by { RoundsEnd(k); } }
      OpenedLetters(k - 1, x);
    }
  }

  lemma {:induction false} RoundsEnd(k: nat)
    requires k > 0
    ensures Rounds(k) == Rounds(k - 1) + [Admitted, Clean]
  {
    if k > 1 {
      RoundsEnd(k - 1);
    }
  }

  /** Once a generation has a stop reason, a dirty result, a refusal or a finish message behind it, it is
      never again permitted to execute anything. */
  lemma {:induction false} NoPermissionAfter(lib: Library, c: Config, states: seq<Sup>, blocks: seq<Block>, i: nat,
                                             j: nat)
    requires Campaign(lib, c, states, blocks) && i <= j < |blocks| && SameGeneration(blocks, i, j)
    requires Finished(states[i].gen)
    ensures Moves(lib, c, states[j], blocks[j], states[j + 1]) && !After(lib, c, states[j], blocks[j]).1.Issue?
  {
    hide Inv, After, Can, Finished;
    FinishedUntil(lib, c, states, blocks, i, j);
    CampaignInv(lib, c, states, blocks, j);
    assert Moves(lib, c, states[j], blocks[j], states[j + 1]);
    FinishedAsksNothing(lib, c, states[j], blocks[j]);
  }

  lemma {:induction false} FinishedUntil(lib: Library, c: Config, states: seq<Sup>, blocks: seq<Block>, i: nat, j: nat)
    requires Campaign(lib, c, states, blocks) && i <= j <= |blocks| && SameGeneration(blocks, i, j)
    requires Finished(states[i].gen)
    ensures Finished(states[j].gen)
    decreases j
  {
    hide Inv, After, Can, Finished;
    if i < j {
      FinishedUntil(lib, c, states, blocks, i, j - 1);
      CampaignInv(lib, c, states, blocks, j - 1);
      assert Moves(lib, c, states[j - 1], blocks[j - 1], states[j]);
      FinishedStays(lib, c, states[j - 1], blocks[j - 1]);
    }
  }

  lemma FinishedAsksNothing(lib: Library, c: Config, s: Sup, b: Block)
    requires Inv(c, s) && Can(c, s, b) && Finished(s.gen)
    ensures Shaped(s) && !After(lib, c, s, b).1.Issue?
  {
    hide Inv, After, Can, Opened;
    InvShapes(c, s);
    if After(lib, c, s, b).1.Issue? {
      PermissionOnlyWhenClean(lib, c, s, b);
      var k: nat :| s.gen.word == Opened(k);
      var x :| x in {Dirty, Done, Refused} && x in Opened(k);
      OpenedLetters(k, x);
    }
  }

  /** A stop reason, once set, is never taken back within a generation. */
  lemma {:induction false} StopStays(lib: Library, c: Config, states: seq<Sup>, blocks: seq<Block>, i: nat, j: nat)
    requires Campaign(lib, c, states, blocks) && i <= j <= |blocks| && SameGeneration(blocks, i, j)
    requires states[i].gen.stop.Some?
    ensures states[j].gen.stop.Some?
    decreases j
  {
    hide Inv, After, Can;
    if i < j {
      StopStays(lib, c, states, blocks, i, j - 1);
      CampaignInv(lib, c, states, blocks, j - 1);
      assert Moves(lib, c, states[j - 1], blocks[j - 1], states[j]);
      StopIsForever(lib, c, states[j - 1], blocks[j - 1]);
    }
  }

  /** Every permission of a campaign, across all its generations, carries a larger id than all before it. */
  lemma IdsAscend(lib: Library, c: Config, states: seq<Sup>, blocks: seq<Block>, i: nat, j: nat)
    requires Campaign(lib, c, states, blocks) && i < j < |blocks|
    requires Asks(lib, c, states[i], blocks[i]).Issue? && Asks(lib, c, states[j], blocks[j]).Issue?
    ensures Asks(lib, c, states[i], blocks[i]).key.id < Asks(lib, c, states[j], blocks[j]).key.id
  {
    hide Inv, After, Can;
    CampaignInv(lib, c, states, blocks, i);
    CampaignInv(lib, c, states, blocks, j);
    assert Moves(lib, c, states[i], blocks[i], states[i + 1]) && Moves(lib, c, states[j], blocks[j], states[j + 1]);
    Requests(lib, c, states[i], blocks[i]);
    Requests(lib, c, states[j], blocks[j]);
    RunNeverShrinks(lib, c, states, blocks, i + 1, j);
  }

  // ----- the end of a campaign -----

  /** A generation that is over gives no reason to end the campaign: the worker had got ready, was not stopped for
      good, and did not finish, or finished only because it was dirty; in a reproduction, more runs are due. */
  predicate MoreToDo(c: Config, t: Sup) {
    && t.gen.stop !in {Some(BudgetCompleted), Some(CampaignDeadline), Some(SupervisorParentDeath)}
    && (if c.replay then t.generation < c.reproduceRuns else t.gen.stop.Some? || t.gen.done != Some(0))
    && Event(Ready, t.generation) in t.events
    && (t.gen.done in {Some(1), Some(2)} ==> t.gen.stop == Some(DirtyRecycle))
  }

  /** The campaign ends here, and with this status. */
  predicate EndsAs(c: Config, t: Sup, v: FinalStatus) {
    if MoreToDo(c, t) then t.generation == c.restartBudget + 1 && v == RestartBudgetExhausted
    else v == Plain(match t.gen.stop
                    case Some(r) => Because(r)
                    case None => if t.gen.done == Some(0) then Completed else UnexpectedExit)
  }

  /** Another worker is started exactly behind an unfinished generation, while the restart budget lasts. */
  lemma DecidesExactly(c: Config, t: Sup)
    requires 1 <= t.generation <= c.restartBudget + 1
    ensures Decide(c, t) == Again <==> MoreToDo(c, t) && t.generation <= c.restartBudget
    ensures forall v :: Decide(c, t) == Stop(v) <==> EndsAs(c, t, v)
  {
  }

  /** What a block asks of the journal. */
  function Asks(lib: Library, c: Config, s: Sup, b: Block): Request {
    if Shaped(s) && Can(c, s, b) then After(lib, c, s, b).1 else Nothing
  }

  /** What a block sends to the worker. */
  function Says(lib: Library, c: Config, s: Sup, b: Block): Option<Frame> {
    if Shaped(s) && Can(c, s, b) then After(lib, c, s, b).2 else None
  }

  lemma {:induction false} RunNeverShrinks(lib: Library, c: Config, states: seq<Sup>, blocks: seq<Block>, i: nat,
                                           j: nat)
    requires Campaign(lib, c, states, blocks) && i <= j <= |blocks|
    ensures states[i].run <= states[j].run
    decreases j
  {
    hide Inv, After, Can;
    if i < j {
      RunNeverShrinks(lib, c, states, blocks, i, j - 1);
      CampaignInv(lib, c, states, blocks, j - 1);
      assert Moves(lib, c, states[j - 1], blocks[j - 1], states[j]);
      RunStep(lib, c, states[j - 1], blocks[j - 1]);
    }
  }

  lemma RunStep(lib: Library, c: Config, s: Sup, b: Block)
    requires Inv(c, s) && Can(c, s, b)
    ensures Shaped(s) && s.run <= After(lib, c, s, b).0.run
  {
    hide Conserved, WithinBudget, StopsSound, WordSound, LogSound, OnRow, Decide, Timers, Received;
    if !b.Next? {
      WordGrows(lib, c, s, b);
    }
  }

  /** Wherever in a campaign a worker ends with a run in flight, the run is blamed on one of six things;
      on a native crash exactly if there was a signal and no reason to stop, and then we had sent no stop
      byte. */
  lemma BlamesAreSound(lib: Library, c: Config, states: seq<Sup>, blocks: seq<Block>, i: nat)
    requires Campaign(lib, c, states, blocks) && i < |blocks| && blocks[i].Leave? && states[i].gen.pending.Some?
    ensures Over(states[i].gen)
    ensures var (g, e) := (states[i].gen, states[i].gen.evidence.value);
            && Classification(g, e) in BLAMES
            && (Classification(g, e) == "native_vm_crash" <==> g.stop.None? && e.signal != 0)
            && (g.stop.None? ==> g.stopBytes == 0)
            && states[i + 1].findings == states[i].findings + [g.pending.value.key]
            && Asks(lib, c, states[i], blocks[i]) == Settle(g.pending.value.key, TerminationResult(g, e))
  {
    hide Inv, After, Classification, TerminationResult;
    CampaignInv(lib, c, states, blocks, i);
    assert Moves(lib, c, states[i], blocks[i], states[i + 1]);
    ClassificationSound(lib, c, states[i]);
  }

  /** The documentation promises that a worker killed by its launcher is never called a native crash
      (docs/p1-01-external-supervisor.md:185-186). Of all the verdicts of all campaigns, the promise is broken
      by exactly those on a killed worker that ended by a signal while the controller had no reason to stop it:
      the launcher also kills on a signal of its own or a failing poll, and says so only in the evidence. */
  lemma LauncherKillBlamed(lib: Library, c: Config, states: seq<Sup>, blocks: seq<Block>, i: nat)
    requires Campaign(lib, c, states, blocks) && i < |blocks| && blocks[i].Leave? && states[i].gen.pending.Some?
    ensures Over(states[i].gen)
    ensures var (g, e, q) := (states[i].gen, states[i].gen.evidence.value, Asks(lib, c, states[i], blocks[i]));
            && q.Settle? && "classification" in q.result
            && (q.result["classification"] == Text("native_vm_crash") && e.launcherKill
                <==> g.stop.None? && e.signal != 0 && e.launcherKill)
  {
    hide Inv, After, Classification, Asks;
    BlamesAreSound(lib, c, states, blocks, i);
  }
}
