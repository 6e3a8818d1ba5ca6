// Why a generation is stopped, when it is left, and what the verdict on its run then says, read off the blocks of
// the campaign (priv/efz_external.py:498-588).
module Causes {
  import opened Wire
  import opened Records
  import opened Supervisor
  import opened Lifecycle
  import opened WorkerRows
  import opened Wrappers

  // ----- one block -----

  /** The letter of a row that is taken. */
  function Took(lib: Library, c: Config, s: Sup, b: Block): Option<Letter> {
    if b.Row? && Says(lib, c, s, b).Some? then Some(LetterOf(Said(s), Says(lib, c, s, b).value)) else None
  }

  /** The decoder objects, or a row is neither taken nor skipped. */
  predicate Misbehaves(lib: Library, c: Config, s: Sup, b: Block) {
    || (b.Data? && Fed(s.gen.buffer, b.data).0.Err?)
    || (b.Row? && Says(lib, c, s, b).None? && !Skipped(s.gen))
  }

  /** The deadline a block sets. */
  function Due(lib: Library, c: Config, s: Sup, b: Block): Option<real> {
    match b
    case Next(_, now) => Some(now + c.startup)
    case Row(now) => if Took(lib, c, s, b).Some? then DueBy(c, Said(s), Says(lib, c, s, b).value, now) else None
    case _ => None
  }

  /** An unfinished frame for more than a second. */
  predicate Stalls(g: Gen, now: real) {
    g.since.Some? && now - g.since.value > 1.0
  }

  /** The block stops the generation, and for this reason. A look at the clock gives a reason only where there is
      none: the end of the campaign before the deadline, the deadline before the unfinished frame. */
  predicate Cause(lib: Library, c: Config, s: Sup, b: Block, r: StopReason) {
    var g := s.gen;
    match r
    case CampaignDeadline => b.Tick? && g.stop.None? && b.now >= c.end
    case WorkerHardTimeout => b.Tick? && g.stop.None? && g.deadline <= b.now < c.end && g.state == EXECUTING
    case StartupOrIdleTimeout => b.Tick? && g.stop.None? && g.deadline <= b.now < c.end && g.state != EXECUTING
    case WorkerProtocolFailure =>
      || (b.Tick? && g.stop.None? && b.now < c.end && b.now < g.deadline && Stalls(g, b.now))
      || (b.Eof? && g.stop.None? && g.buffer != [])
      || Misbehaves(lib, c, s, b)
    case SupervisorParentDeath => b.Parent?
    case BudgetCompleted => Took(lib, c, s, b) == Some(Refused)
    case DirtyRecycle => Took(lib, c, s, b) == Some(Dirty)
  }

  predicate Caused(lib: Library, c: Config, s: Sup, b: Block) {
    exists r :: Cause(lib, c, s, b, r)
  }

  /** The clock finds a reason to stop, old or new, and no stop byte of this loop's own sent yet. */
  predicate Kills(lib: Library, c: Config, s: Sup, b: Block) {
    && b.Tick? && s.gen.killAt.None? && b.now >= s.gen.killAfter
    && (s.gen.stop.Some? || Caused(lib, c, s, b))
  }

  /** What a block does to the clocks of the generation. */
  predicate Timed(lib: Library, c: Config, s: Sup, b: Block, t: Sup) {
    && t.gen.deadline == Or(Due(lib, c, s, b), s.gen.deadline)
    && t.gen.killAt == (if b.Next? then None else if Kills(lib, c, s, b) then Some(b.now) else s.gen.killAt)
    && t.gen.killAfter == (if b.Next? then 0.0
                           else if b.Row? && Took(lib, c, s, b) == Some(Dirty) then b.now + 0.5 else s.gen.killAfter)
    && t.gen.stopBytes == (if b.Next? then 0
                           else s.gen.stopBytes + if b.Parent? || Kills(lib, c, s, b) then 1 else 0)
  }

  /** And to its reason to stop. */
  predicate Reasoned(lib: Library, c: Config, s: Sup, b: Block, t: Sup) {
    && (forall r :: Cause(lib, c, s, b, r) ==> t.gen.stop == Some(r))
    && (!Caused(lib, c, s, b) ==> t.gen.stop == if b.Next? then None else s.gen.stop)
  }

  /** And to what has been seen of the worker. */
  predicate Witnessed(lib: Library, c: Config, s: Sup, b: Block, t: Sup) {
    && t.gen.evidence == (match b case End(e) => Some(e) case Next(_, _) => None case _ => s.gen.evidence)
    && t.gen.workerPid == (match b case Pid(pid) => Some(pid) case Next(_, _) => None case _ => s.gen.workerPid)
    && t.gen.peerPid == (match b case Connect(pid) => Some(pid) case _ => s.gen.peerPid)
    && t.gen.connected == (match b case Connect(_) => true case Next(_, _) => false case _ => s.gen.connected)
    && t.gen.eof == (match b case Eof => true case Next(_, _) => false case _ => s.gen.eof)
    && t.gen.workerConfig == (match b case Next(config, _) => config case _ => s.gen.workerConfig)
    && t.gen.state == (if b.Next? then STARTING
                       else match Took(lib, c, s, b) case None => s.gen.state case Some(x) => StateBy(x))
    && t.gen.word == (if b.Next? then []
                      else match Took(lib, c, s, b) case None => s.gen.word case Some(x) => s.gen.word + [x])
    && t.gen.readyAt == (if b.Next? then None else if Took(lib, c, s, b) == Some(Readied) then Some(|s.history|)
                         else s.gen.readyAt)
    && t.gen.done == (if b.Next? then None
                      else if Took(lib, c, s, b) == Some(Done) && |Said(s).payload| == 1 then Some(Said(s).payload[0])
                      else s.gen.done)
  }

  /** And to the worker's bytes: what is decoded waits to be handled, until something misbehaves. */
  predicate Streamed(lib: Library, c: Config, s: Sup, b: Block, t: Sup) {
    var g, h := s.gen, t.gen;
    match b
    case Data(data, now) =>
      var (rows, rest) := Fed(g.buffer, data);
      && h.buffer == rest
      && h.queue == (if rows.Ok? then rows.value else [])
      && h.since == (if rows.Err? then g.since else if rest == [] then None
                     else if g.since.Some? then g.since else Some(now))
    case Row(_) =>
      && h.buffer == g.buffer && h.since == g.since
      && h.queue == if Misbehaves(lib, c, s, b) || g.queue == [] then [] else g.queue[1..]
    case Next(_, _) => h.buffer == [] && h.since == None && h.queue == []
    case _ => h.buffer == g.buffer && h.since == g.since && h.queue == g.queue
  }

  predicate Stepped(lib: Library, c: Config, s: Sup, b: Block, t: Sup) {
    && Timed(lib, c, s, b, t) && Reasoned(lib, c, s, b, t) && Witnessed(lib, c, s, b, t)
    && Streamed(lib, c, s, b, t)
  }

  lemma TickSteps(lib: Library, c: Config, s: Sup, b: Block)
    requires Shaped(s) && Can(c, s, b) && b.Tick?
    ensures Stepped(lib, c, s, b, After(lib, c, s, b).0)
  {
    hide Fed, OnRow;
    var r := Late(c, s.gen, b.now);
    assert s.gen.stop.None? && r.Some? ==> Cause(lib, c, s, b, r.value);
  }

  lemma WatchSteps(lib: Library, c: Config, s: Sup, b: Block)
    requires Shaped(s) && Can(c, s, b) && !b.Tick? && !b.Row? && !b.Data? && !b.Leave?
    ensures Stepped(lib, c, s, b, After(lib, c, s, b).0)
  {
    hide Fed, OnRow, Latest, Decide;
    assert b.Parent? ==> Cause(lib, c, s, b, SupervisorParentDeath);
    assert b.Eof? && s.gen.stop.None? && s.gen.buffer != [] ==> Cause(lib, c, s, b, WorkerProtocolFailure);
  }

  lemma DataSteps(lib: Library, c: Config, s: Sup, b: Block)
    requires Shaped(s) && Can(c, s, b) && b.Data?
    ensures Stepped(lib, c, s, b, After(lib, c, s, b).0)
  {
    hide Fed, OnRow, Latest, Decide;
    assert Misbehaves(lib, c, s, b) ==> Cause(lib, c, s, b, WorkerProtocolFailure);
  }

  lemma LeaveSteps(lib: Library, c: Config, s: Sup, b: Block)
    requires Shaped(s) && Can(c, s, b) && b.Leave?
    ensures Stepped(lib, c, s, b, After(lib, c, s, b).0)
  {
    hide Fed, OnRow, Latest, Decide, TerminationResult;
  }

  lemma RowSteps(lib: Library, c: Config, s: Sup, b: Block)
    requires Inv(c, s) && Can(c, s, b) && b.Row?
    ensures Shaped(s) && Stepped(lib, c, s, b, After(lib, c, s, b).0)
  {
    hide Conserved, WithinBudget, StopsSound, WordSound, LogSound, OnRow, Fit, Latest, Decide, Said, SupWritten;
    hide Replied;
    hide PendingWritten, LetterOf, Skipped, Requested;
    RowExactly(lib, c, s, b.now);
    var took := Took(lib, c, s, b);
    assert took == Some(Refused) ==> Cause(lib, c, s, b, BudgetCompleted);
    assert took == Some(Dirty) ==> Cause(lib, c, s, b, DirtyRecycle);
    assert Misbehaves(lib, c, s, b) ==> Cause(lib, c, s, b, WorkerProtocolFailure);
  }

  /** What each block does to clocks, reason and evidence. */
  lemma BlockSteps(lib: Library, c: Config, s: Sup, b: Block)
    requires Inv(c, s) && Can(c, s, b)
    ensures Shaped(s) && Stepped(lib, c, s, b, After(lib, c, s, b).0)
  {
    hide Conserved, WithinBudget, StopsSound, WordSound, LogSound, Can, After, Stepped, Shaped;
    if b.Row? {
      RowSteps(lib, c, s, b);
    } else if b.Tick? {
      TickSteps(lib, c, s, b);
    } else if b.Data? {
      DataSteps(lib, c, s, b);
    } else if b.Leave? {
      LeaveSteps(lib, c, s, b);
    } else {
      WatchSteps(lib, c, s, b);
    }
  }
}
