// Over whole campaigns: when a worker is stopped and why, when it is left, and what its run's verdict then says
// (priv/efz_external.py:498-588).
module Stopping {
  import opened Bytes
  import opened Wire
  import opened Records
  import opened Supervisor
  import opened Lifecycle
  import opened WorkerRows
  import opened Causes
  import opened Wrappers

  // ----- one point of a campaign -----

  lemma StepAt(lib: Library, c: Config, states: seq<Sup>, blocks: seq<Block>, i: nat)
    requires Campaign(lib, c, states, blocks) && i < |blocks|
    ensures Inv(c, states[i]) && Shaped(states[i]) && Can(c, states[i], blocks[i])
    ensures states[i + 1] == After(lib, c, states[i], blocks[i]).0
    ensures Stepped(lib, c, states[i], blocks[i], states[i + 1])
  {
    hide Inv, Can, After, Shaped, Stepped;
    CampaignInv(lib, c, states, blocks, i);
    assert Moves(lib, c, states[i], blocks[i], states[i + 1]);
    BlockSteps(lib, c, states[i], blocks[i]);
  }

  // ----- deadlines -----

  /** Block p set this deadline, and no block since, up to i, has set another. */
  predicate LastDue(lib: Library, c: Config, states: seq<Sup>, blocks: seq<Block>, p: int, i: int, due: real) {
    && 0 <= p < i <= |blocks| < |states| && Due(lib, c, states[p], blocks[p]) == Some(due)
    && forall m :: p < m < i ==> Due(lib, c, states[m], blocks[m]).None?
  }

  lemma {:induction false} DeadlineStands(lib: Library, c: Config, states: seq<Sup>, blocks: seq<Block>, p: nat, i: nat,
                                          due: real)
    requires Campaign(lib, c, states, blocks) && LastDue(lib, c, states, blocks, p, i, due)
    ensures states[i].gen.deadline == due
    decreases i
  {
    hide Inv, Can, After, Shaped, Due, Reasoned, Witnessed, Streamed, Kills;
    StepAt(lib, c, states, blocks, i - 1);
    if p < i - 1 {
      DeadlineStands(lib, c, states, blocks, p, i - 1, due);
    }
  }

  /** What a look at the clock finds, at any point of any campaign. */
  lemma TickExactly(lib: Library, c: Config, states: seq<Sup>, blocks: seq<Block>, p: nat, i: nat, due: real)
    requires Campaign(lib, c, states, blocks) && i < |blocks| && blocks[i].Tick?
    requires LastDue(lib, c, states, blocks, p, i, due)
    ensures var (s, now) := (states[i], blocks[i].now);
            states[i + 1].gen.stop ==
            if s.gen.stop.Some? then s.gen.stop
            else if now >= c.end then Some(CampaignDeadline)
            else if now >= due then Some(if s.gen.pending.Some? then WorkerHardTimeout else StartupOrIdleTimeout)
            else if s.gen.since.Some? && now - s.gen.since.value > 1.0 then Some(WorkerProtocolFailure)
            else None
  {
    hide Conserved, WithinBudget, StopsSound, WordSound, LogSound, After, Due, Timed, Witnessed, Streamed, Campaign;
    StepAt(lib, c, states, blocks, i);
    DeadlineStands(lib, c, states, blocks, p, i, due);
    TickLives(lib, c, states[i], blocks[i]);
    TickReasons(lib, c, states[i], blocks[i], states[i + 1]);
  }

  lemma TickLives(lib: Library, c: Config, s: Sup, b: Block)
    requires Shaped(s) && Can(c, s, b) && b.Tick?
    ensures s.live && (s.gen.pending.Some? <==> s.gen.state == EXECUTING)
  {
    hide Decide;
  }

  lemma TickReasons(lib: Library, c: Config, s: Sup, b: Block, t: Sup)
    requires Reasoned(lib, c, s, b, t) && b.Tick?
    ensures t.gen.stop ==
            if s.gen.stop.Some? then s.gen.stop
            else if b.now >= c.end then Some(CampaignDeadline)
            else if b.now >= s.gen.deadline
            then Some(if s.gen.state == EXECUTING then WorkerHardTimeout else StartupOrIdleTimeout)
            else if Stalls(s.gen, b.now) then Some(WorkerProtocolFailure)
            else None
  {
    hide Misbehaves, Took;
    if s.gen.stop.None? {
      assert b.now >= c.end ==> Cause(lib, c, s, b, CampaignDeadline);
      assert s.gen.deadline <= b.now < c.end && s.gen.state == EXECUTING ==> Cause(lib, c, s, b, WorkerHardTimeout);
      assert s.gen.deadline <= b.now < c.end && s.gen.state != EXECUTING ==> Cause(lib, c, s, b, StartupOrIdleTimeout);
      assert b.now < c.end && b.now < s.gen.deadline && Stalls(s.gen, b.now) ==>
          Cause(lib, c, s, b, WorkerProtocolFailure);
      TickQuiet(lib, c, s, b);
    } else {
      TickQuiet(lib, c, s, b);
    }
  }

  lemma TickQuiet(lib: Library, c: Config, s: Sup, b: Block)
    requires b.Tick?
    ensures s.gen.stop.Some? || (b.now < c.end && b.now < s.gen.deadline && !Stalls(s.gen, b.now)) ==>
              !Caused(lib, c, s, b)
  {
  }

  // ----- stop bytes -----

  /** Where there is no reason to stop, no stop byte has been sent and none is being held back. */
  lemma {:induction false} UntouchedSoFar(lib: Library, c: Config, states: seq<Sup>, blocks: seq<Block>, i: nat)
    requires Campaign(lib, c, states, blocks) && i < |states| && states[i].gen.stop.None?
    ensures states[i].gen.killAt.None? && states[i].gen.stopBytes == 0 && states[i].gen.killAfter == 0.0
  {
    hide Inv, Can, After, Shaped, Due, Witnessed, Streamed, Cause;
    if i > 0 {
      StepAt(lib, c, states, blocks, i - 1);
      var s, b := states[i - 1], blocks[i - 1];
      DirtyCauses(lib, c, s, b);
      ParentCauses(lib, c, s, b);
      if !b.Next? {
        UntouchedSoFar(lib, c, states, blocks, i - 1);
      }
    }
  }

  lemma DirtyCauses(lib: Library, c: Config, s: Sup, b: Block)
    ensures Took(lib, c, s, b) == Some(Dirty) ==> Cause(lib, c, s, b, DirtyRecycle)
  {
  }

  lemma ParentCauses(lib: Library, c: Config, s: Sup, b: Block)
    ensures b.Parent? ==> Cause(lib, c, s, b, SupervisorParentDeath)
  {
  }

  /** A look at the clock sends its stop byte exactly if there now is a reason, it has sent none before, and a
      dirty worker has had its half second. */
  lemma StopByteExactly(lib: Library, c: Config, states: seq<Sup>, blocks: seq<Block>, i: nat)
    requires Campaign(lib, c, states, blocks) && i < |blocks| && blocks[i].Tick?
    ensures var (g, h, now) := (states[i].gen, states[i + 1].gen, blocks[i].now);
            && h.stopBytes == g.stopBytes + (if h.stop.Some? && g.killAt.None? && now >= g.killAfter then 1 else 0)
            && h.killAt == (if h.stop.Some? && g.killAt.None? && now >= g.killAfter then Some(now) else g.killAt)
  {
    hide Inv, Can, After, Shaped, Due, Witnessed, Streamed, Cause;
    StepAt(lib, c, states, blocks, i);
  }

  // ----- a worker that hangs -----

  /** While its run is unanswered a worker is executing it, under the deadline that came with the permission. */
  lemma {:induction false} InFlight(lib: Library, c: Config, states: seq<Sup>, blocks: seq<Block>, p: nat, i: nat)
    requires Campaign(lib, c, states, blocks) && p < i <= |blocks| && blocks[p].Row?
    requires Asks(lib, c, states[p], blocks[p]).Issue?
    requires forall m :: p < m < i ==> !blocks[m].Next? && !Asks(lib, c, states[m], blocks[m]).Settle?
    ensures states[i].gen.pending.Some? && states[i].gen.state == EXECUTING
    ensures var due := blocks[p].now + c.timeoutMs as real / 1000.0 + 1.0 + c.memoryGrace + c.ipcGrace;
            LastDue(lib, c, states, blocks, p, i, due)
    decreases i
  {
    hide Inv, Can, After, Shaped, Stepped, Due, Asks;
    StepAt(lib, c, states, blocks, i - 1);
    if i - 1 == p {
      PermissionStarts(lib, c, states[p], blocks[p]);
    } else {
      InFlight(lib, c, states, blocks, p, i - 1);
      StillFlying(lib, c, states[i - 1], blocks[i - 1]);
    }
  }

  lemma PermissionStarts(lib: Library, c: Config, s: Sup, b: Block)
    requires Inv(c, s) && Can(c, s, b) && b.Row? && Asks(lib, c, s, b).Issue?
    ensures Shaped(s) && After(lib, c, s, b).0.gen.pending.Some? && After(lib, c, s, b).0.gen.state == EXECUTING
    ensures Due(lib, c, s, b) == Some(b.now + c.timeoutMs as real / 1000.0 + 1.0 + c.memoryGrace + c.ipcGrace)
  {
    hide Conserved, WithinBudget, StopsSound, WordSound, LogSound, OnRow, Fit, Decide, Said, SupWritten, Replied, Can;
    hide LetterOf, Hex, AnswerRecorded, GenKept;
    RowExactly(lib, c, s, b.now);
    assert Took(lib, c, s, b) == Some(Admitted);
  }

  lemma StillFlying(lib: Library, c: Config, s: Sup, b: Block)
    requires Inv(c, s) && Can(c, s, b) && !b.Next? && !Asks(lib, c, s, b).Settle?
    requires s.gen.pending.Some? && s.gen.state == EXECUTING
    ensures Shaped(s) && After(lib, c, s, b).0.gen.pending.Some? && After(lib, c, s, b).0.gen.state == EXECUTING
    ensures Due(lib, c, s, b).None?
  {
    hide Conserved, WithinBudget, StopsSound, WordSound, LogSound, OnRow, Decide, Latest, TerminationResult;
    hide Timers, Fed;
    if b.Row? {
      RowFlies(lib, c, s, b);
    } else if !b.Leave? {
      WatchQuiet(lib, c, s, b);
    }
  }

  lemma RowFlies(lib: Library, c: Config, s: Sup, b: Block)
    requires Inv(c, s) && Can(c, s, b) && b.Row? && !Asks(lib, c, s, b).Settle?
    requires s.gen.pending.Some? && s.gen.state == EXECUTING
    ensures Shaped(s) && After(lib, c, s, b).0.gen.pending == s.gen.pending
    ensures After(lib, c, s, b).0.gen.state == EXECUTING
    ensures Took(lib, c, s, b).None?
  {
    hide Conserved, WithinBudget, StopsSound, WordSound, LogSound, OnRow, Decide, Can, Latest, Said, RowWrites;
    hide AnswerRecorded, Proposed, Answer;
    RowExactly(lib, c, s, b.now);
  }

  /** A run that is not answered in time. Permitted under the clock t and still unanswered, without any reason to
      stop, at a look at the clock: from t + timeout + grace on the worker is stopped as hung, the campaign's end
      comes first if it is past too, and before that it is left alone unless a frame is stuck half way. */
  lemma HungWorkerIsStopped(lib: Library, c: Config, states: seq<Sup>, blocks: seq<Block>, p: nat, i: nat)
    requires Campaign(lib, c, states, blocks) && p < i < |blocks|
    requires blocks[p].Row? && Asks(lib, c, states[p], blocks[p]).Issue?
    requires forall m :: p < m < i ==> !blocks[m].Next? && !Asks(lib, c, states[m], blocks[m]).Settle?
    requires blocks[i].Tick? && states[i].gen.stop.None?
    ensures var (now, h) := (blocks[i].now, states[i + 1].gen);
            var due := blocks[p].now + c.timeoutMs as real / 1000.0 + 1.0 + c.memoryGrace + c.ipcGrace;
            && (h.stop == Some(WorkerHardTimeout) <==> due <= now < c.end)
            && (h.stop == Some(CampaignDeadline) <==> c.end <= now)
            && (now < due && now < c.end && states[i].gen.since.None? ==> h.stop.None?)
            && states[i].gen.stopBytes == 0
            && (now >= 0.0 ==> h.stopBytes == if h.stop.Some? then 1 else 0)
  {
    hide Inv, Can, After, Shaped, Stepped, Due, Asks, Campaign;
    var due := blocks[p].now + c.timeoutMs as real / 1000.0 + 1.0 + c.memoryGrace + c.ipcGrace;
    InFlight(lib, c, states, blocks, p, i);
    TickExactly(lib, c, states, blocks, p, i, due);
    assert |states| == |blocks| + 1 by { Lengths(lib, c, states, blocks); }
    UntouchedSoFar(lib, c, states, blocks, i);
    StopByteExactly(lib, c, states, blocks, i);
  }

  lemma Lengths(lib: Library, c: Config, states: seq<Sup>, blocks: seq<Block>)
    requires Campaign(lib, c, states, blocks)
    ensures |states| == |blocks| + 1
  {
  }

  // ----- a frame that is never finished -----

  lemma {:induction false} SinceFits(lib: Library, c: Config, states: seq<Sup>, blocks: seq<Block>, i: nat)
    requires Campaign(lib, c, states, blocks) && i < |states| && states[i].gen.stop.None?
    ensures states[i].gen.since.Some? <==> states[i].gen.buffer != []
  {
    hide Inv, Can, After, Shaped, Due, Witnessed, Timed, Cause, Fed;
    if i > 0 {
      StepAt(lib, c, states, blocks, i - 1);
      var s, b := states[i - 1], blocks[i - 1];
      DecoderCauses(lib, c, s, b);
      if !b.Next? {
        SinceFits(lib, c, states, blocks, i - 1);
      }
    }
  }

  lemma DecoderCauses(lib: Library, c: Config, s: Sup, b: Block)
    ensures b.Data? && Fed(s.gen.buffer, b.data).0.Err? ==> Cause(lib, c, s, b, WorkerProtocolFailure)
  {
    hide Fed;
  }

  /** The clock of an unfinished frame is that of the read that brought its first bytes. */
  lemma {:induction false} SinceStands(lib: Library, c: Config, states: seq<Sup>, blocks: seq<Block>, p: nat, i: nat)
    requires Campaign(lib, c, states, blocks) && p < i <= |blocks| && blocks[p].Data? && states[p].gen.buffer == []
    requires states[p].gen.stop.None? && !Misbehaves(lib, c, states[p], blocks[p])
    requires forall m :: p < m <= i ==> states[m].gen.buffer != []
    requires forall m :: p < m < i ==> !blocks[m].Next?
    ensures states[i].gen.since == Some(blocks[p].now)
    decreases i
  {
    hide Inv, Can, After, Shaped, Due, Witnessed, Timed, Reasoned, Fed;
    StepAt(lib, c, states, blocks, i - 1);
    if i - 1 == p {
      SinceFits(lib, c, states, blocks, p);
    } else {
      SinceStands(lib, c, states, blocks, p, i - 1);
    }
  }

  /** A frame begun under the clock t and never finished stops the worker more than a second later, if nothing
      else has by then. */
  lemma StalledFrameStops(lib: Library, c: Config, states: seq<Sup>, blocks: seq<Block>, p: nat, i: nat)
    requires Campaign(lib, c, states, blocks) && p < i < |blocks| && blocks[p].Data? && states[p].gen.buffer == []
    requires states[p].gen.stop.None? && !Misbehaves(lib, c, states[p], blocks[p])
    requires forall m :: p < m <= i ==> states[m].gen.buffer != []
    requires forall m :: p < m < i ==> !blocks[m].Next?
    requires blocks[i].Tick? && states[i].gen.stop.None?
    ensures var (now, h) := (blocks[i].now, states[i + 1].gen);
            && (h.stop.Some? <==> now >= c.end || now >= states[i].gen.deadline || now - blocks[p].now > 1.0)
            && (h.stop == Some(WorkerProtocolFailure)
                <==> now < c.end && now < states[i].gen.deadline && now - blocks[p].now > 1.0)
  {
    hide Inv, Can, After, Shaped, Due, Witnessed, Timed, Reasoned, Streamed, Campaign;
    Lengths(lib, c, states, blocks);
    SinceStands(lib, c, states, blocks, p, i);
    StepAt(lib, c, states, blocks, i);
    TickReasons(lib, c, states[i], blocks[i], states[i + 1]);
  }

  // ----- the reason a generation is stopped for -----

  /** Block k is the last before i to stop its generation, and for this reason. */
  ghost predicate LastCause(lib: Library, c: Config, states: seq<Sup>, blocks: seq<Block>, k: int, i: int,
                            r: StopReason)
  {
    && 0 <= k < i <= |blocks| < |states| && Cause(lib, c, states[k], blocks[k], r)
    && forall m :: k < m < i ==> !blocks[m].Next? && !Caused(lib, c, states[m], blocks[m])
  }

  lemma {:induction false} CausedStop(lib: Library, c: Config, states: seq<Sup>, blocks: seq<Block>, k: nat, i: nat,
                                      r: StopReason)
    requires Campaign(lib, c, states, blocks) && LastCause(lib, c, states, blocks, k, i, r)
    ensures states[i].gen.stop == Some(r)
    decreases i
  {
    hide Inv, Can, After, Shaped, Cause, Caused, Timed, Witnessed, Streamed;
    StepAt(lib, c, states, blocks, i - 1);
    if k < i - 1 {
      CausedStop(lib, c, states, blocks, k, i - 1, r);
    }
  }

  lemma {:induction false} ReasonHasCause(lib: Library, c: Config, states: seq<Sup>, blocks: seq<Block>, i: nat)
      returns (k: nat)
    requires Campaign(lib, c, states, blocks) && i < |states| && states[i].gen.stop.Some?
    ensures LastCause(lib, c, states, blocks, k, i, states[i].gen.stop.value)
    decreases i
  {
    hide Inv, Can, After, Shaped, Cause, Timed, Witnessed, Streamed;
    if i == 0 {
      NoReasonYet(c);
      assert false;
    } else {
      StepAt(lib, c, states, blocks, i - 1);
      var s, b := states[i - 1], blocks[i - 1];
      if Caused(lib, c, s, b) {
        var r :| Cause(lib, c, s, b, r);
        k := i - 1;
      } else {
        k := ReasonHasCause(lib, c, states, blocks, i - 1);
      }
    }
  }

  lemma NoReasonYet(c: Config)
    ensures Initial(c).gen.stop.None?
  {
  }

  /** At every point of every campaign: a generation is being stopped for a reason exactly if that is why the last
      block to stop it did. */
  lemma StopExactly(lib: Library, c: Config, states: seq<Sup>, blocks: seq<Block>, i: nat, r: StopReason)
    requires Campaign(lib, c, states, blocks) && i < |states|
    ensures states[i].gen.stop == Some(r) <==> exists k :: LastCause(lib, c, states, blocks, k, i, r)
  {
    hide Campaign, LastCause;
    if states[i].gen.stop == Some(r) {
      var k := ReasonHasCause(lib, c, states, blocks, i);
    }
    if k :| LastCause(lib, c, states, blocks, k, i, r) {
      assert 0 <= k by { CauseIndex(lib, c, states, blocks, k, i, r); }
      CausedStop(lib, c, states, blocks, k, i, r);
    }
  }

  lemma CauseIndex(lib: Library, c: Config, states: seq<Sup>, blocks: seq<Block>, k: int, i: int, r: StopReason)
    requires LastCause(lib, c, states, blocks, k, i, r)
    ensures 0 <= k < i
  {
    hide Cause, Caused;
  }

  // ----- leaving -----

  /** Block k is of the generation that point i is in, and before it. */
  predicate Within(blocks: seq<Block>, k: int, i: int) {
    0 <= k < i <= |blocks| && forall m :: k <= m < i ==> !blocks[m].Next?
  }

  ghost predicate HasConnected(blocks: seq<Block>, i: int) {
    exists k :: Within(blocks, k, i) && blocks[k].Connect?
  }

  ghost predicate HasEnded(blocks: seq<Block>, i: int) {
    exists k :: Within(blocks, k, i) && blocks[k].Eof?
  }

  /** The last report of the launcher in this generation. */
  predicate LastReport(blocks: seq<Block>, k: int, i: int, e: Evidence) {
    && Within(blocks, k, i) && blocks[k] == End(e)
    && forall m :: k < m < i ==> !blocks[m].End?
  }

  lemma WithinNext(blocks: seq<Block>, k: int, i: nat)
    requires i < |blocks|
    ensures Within(blocks, k, i + 1) <==> !blocks[i].Next? && (k == i || Within(blocks, k, i))
  {
  }

  lemma {:induction false} ConnectedExactly(lib: Library, c: Config, states: seq<Sup>, blocks: seq<Block>, i: nat)
    requires Campaign(lib, c, states, blocks) && i < |states|
    ensures states[i].gen.connected <==> HasConnected(blocks, i)
    ensures states[i].gen.eof <==> HasEnded(blocks, i)
  {
    hide Inv, Can, After, Shaped, Timed, Reasoned, Streamed, Within;
    if i == 0 {
      assert forall k :: !Within(blocks, k, 0) by { NothingWithin(blocks); }
    } else {
      StepAt(lib, c, states, blocks, i - 1);
      ConnectedExactly(lib, c, states, blocks, i - 1);
      forall k ensures Within(blocks, k, i) <==> !blocks[i - 1].Next? && (k == i - 1 || Within(blocks, k, i - 1)) {
        WithinNext(blocks, k, i - 1);
      }
    }
  }

  lemma NothingWithin(blocks: seq<Block>)
    ensures forall k :: !Within(blocks, k, 0)
  {
  }

  lemma {:induction false} EvidenceExactly(lib: Library, c: Config, states: seq<Sup>, blocks: seq<Block>, i: nat,
                                           e: Evidence)
    requires Campaign(lib, c, states, blocks) && i < |states|
    ensures states[i].gen.evidence == Some(e) <==> exists k :: LastReport(blocks, k, i, e)
  {
    hide Inv, Can, After, Shaped, Timed, Reasoned, Streamed, LastReport;
    if i == 0 {
      assert forall k :: !LastReport(blocks, k, 0, e) by { NothingReported(blocks, e); }
    } else {
      StepAt(lib, c, states, blocks, i - 1);
      EvidenceExactly(lib, c, states, blocks, i - 1, e);
      var n := i - 1;
      ReportNext(blocks, n, n, e);
      if k :| LastReport(blocks, k, n, e) {
        ReportNext(blocks, k, n, e);
        assert k != n by { ReportIndex(blocks, k, n, e); }
      }
      if k :| LastReport(blocks, k, i, e) {
        ReportNext(blocks, k, n, e);
      }
    }
  }

  lemma ReportIndex(blocks: seq<Block>, k: int, i: int, e: Evidence)
    requires LastReport(blocks, k, i, e)
    ensures 0 <= k < i
  {
  }

  lemma NothingReported(blocks: seq<Block>, e: Evidence)
    ensures forall k :: !LastReport(blocks, k, 0, e)
  {
  }

  lemma ReportNext(blocks: seq<Block>, k: int, i: nat, e: Evidence)
    requires i < |blocks|
    ensures LastReport(blocks, k, i + 1, e)
            <==> if k == i then blocks[k] == End(e)
                 else !blocks[i].Next? && !blocks[i].End? && LastReport(blocks, k, i, e)
  {
  }

  /** A worker is left exactly when the launcher has reported its end and that nothing of it is left, all of its
      frames are handled, and its stream was either never opened or has been read to the end. */
  lemma LeaveExactly(lib: Library, c: Config, states: seq<Sup>, blocks: seq<Block>, i: nat)
    requires Campaign(lib, c, states, blocks) && i < |states|
    ensures Can(c, states[i], Leave)
            <==> && states[i].live && states[i].gen.queue == []
                 && (exists k, e :: LastReport(blocks, k, i, e) && e.cleanupConfirmed)
                 && (HasConnected(blocks, i) ==> HasEnded(blocks, i))
  {
    hide Campaign, LastReport, Within, Decide;
    ConnectedExactly(lib, c, states, blocks, i);
    if states[i].gen.evidence.Some? {
      EvidenceExactly(lib, c, states, blocks, i, states[i].gen.evidence.value);
    }
    if k, e :| LastReport(blocks, k, i, e) && e.cleanupConfirmed {
      EvidenceExactly(lib, c, states, blocks, i, e);
    }
  }

  // ----- every byte is heard -----

  /** Everything read from the worker in this generation. */
  function ReadSoFar(blocks: seq<Block>, i: nat): bytes
    requires i <= |blocks|
  {
    if i == 0 then [] else
    match blocks[i - 1]
    case Next(_, _) => []
    case Data(data, _) => ReadSoFar(blocks, i - 1) + data
    case _ => ReadSoFar(blocks, i - 1)
  }

  /** Every frame handled in it. */
  function HandledSoFar(states: seq<Sup>, blocks: seq<Block>, i: nat): seq<bytes>
    requires i <= |blocks| <= |states|
  {
    if i == 0 then [] else
    match blocks[i - 1]
    case Next(_, _) => []
    case Row(_) => HandledSoFar(states, blocks, i - 1)
                   + if states[i - 1].gen.queue == [] then [] else [states[i - 1].gen.queue[0]]
    case _ => HandledSoFar(states, blocks, i - 1)
  }

  /** As long as nothing misbehaves, the frames handled, those waiting and what is not yet a frame are all that was
      read, in order. */
  lemma {:induction false} EveryByteIsHeard(lib: Library, c: Config, states: seq<Sup>, blocks: seq<Block>, i: nat)
    requires Campaign(lib, c, states, blocks) && i <= |blocks| < |states|
    requires forall k :: Within(blocks, k, i) ==> !Misbehaves(lib, c, states[k], blocks[k])
    ensures var rows := HandledSoFar(states, blocks, i) + states[i].gen.queue;
            Bodies(rows) && Flatten(rows) + states[i].gen.buffer == ReadSoFar(blocks, i)
  {
    hide Inv, After, Timed, Reasoned, Witnessed, Misbehaves, Fed, Flatten, Decide, Within, Bodies;
    if i == 0 {
      NothingRead(c);
      assert HandledSoFar(states, blocks, i) + states[i].gen.queue == [];
    } else {
      var s, b, t, n := states[i - 1], blocks[i - 1], states[i], i - 1;
      StepAt(lib, c, states, blocks, n);
      if b.Next? {
        NothingRead(c);
        assert HandledSoFar(states, blocks, i) + t.gen.queue == [];
      } else {
        forall k ensures Within(blocks, k, i) <==> k == n || Within(blocks, k, n) {
          WithinNext(blocks, k, n);
        }
        EveryByteIsHeard(lib, c, states, blocks, n);
        match b
        case Data(data, now) =>
          DataIsHeard(lib, c, s, b);
          assert HandledSoFar(states, blocks, n) + s.gen.queue == HandledSoFar(states, blocks, n);
          JoinRows(HandledSoFar(states, blocks, n), t.gen.queue, t.gen.buffer, s.gen.buffer, data);
        case Row(now) =>
          assert HandledSoFar(states, blocks, n) + s.gen.queue == HandledSoFar(states, blocks, i) + t.gen.queue;
        case _ =>
      }
    }
  }

  lemma NothingRead(c: Config)
    ensures Bodies([]) && Flatten([]) == [] && Initial(c).gen.queue == [] && Initial(c).gen.buffer == []
  {
  }

  lemma DataIsHeard(lib: Library, c: Config, s: Sup, b: Block)
    requires b.Data? && !Misbehaves(lib, c, s, b)
    ensures var (r, rest) := Fed(s.gen.buffer, b.data);
            r.Ok? && Bodies(r.value) && Flatten(r.value) + rest == s.gen.buffer + b.data
  {
    hide Split, Flatten, Took, Skipped;
    SplitSound(s.gen.buffer + b.data);
  }

  lemma JoinRows(a: seq<bytes>, b: seq<bytes>, rest: bytes, before: bytes, data: bytes)
    requires Bodies(a) && Bodies(b) && Flatten(b) + rest == before + data
    ensures Bodies(a + b) && Flatten(a + b) + rest == Flatten(a) + before + data
  {
    hide Flatten;
    FlattenConcat(a, b);
    assert Flatten(a) + Flatten(b) + rest == Flatten(a) + (Flatten(b) + rest) == Flatten(a) + before + data;
  }

  // ----- the verdict -----

  /** What a block that stopped a worker with a run in flight is called. */
  function BlameText(c: Config, s: Sup, b: Block): string {
    match b
    case Tick(now) =>
      if now >= c.end then "campaign_deadline"
      else if now >= s.gen.deadline then "worker_hard_timeout"
      else "worker_protocol_failure"
    case Parent => "supervisor_parent_death"
    case _ => "worker_protocol_failure"
  }

  /** The verdict on a run whose worker ended, called this, on this initiative and with this wait status. */
  predicate Blamed(result: map<string, Value>, text: string, initiative: Value, e: Evidence) {
    && result.Keys == {"classification", "initiated_by", "termination", "state", "execution_proven", "attribution"}
    && result["classification"] == Text(text) && result["initiated_by"] == initiative
    && result["termination"] == Record(map["exit_code" := Number(e.exitCode), "signal" := Number(e.signal),
                                           "cleanup_confirmed" := Flag(e.cleanupConfirmed),
                                           "launcher_kill" := Flag(e.launcherKill)])
    && result["state"] == Text("EXECUTING") && result["execution_proven"] == Flag(false)
    && result["attribution"] == Text("VM termination associated with authorized run; root cause unproven")
  }

  lemma BlamesCause(lib: Library, c: Config, s: Sup, b: Block, r: StopReason)
    requires Cause(lib, c, s, b, r) && r !in {StartupOrIdleTimeout, BudgetCompleted, DirtyRecycle}
    ensures Name(r) == BlameText(c, s, b)
  {
    hide Fed, Took, Says;
  }

  lemma EndBlames(lib: Library, c: Config, s: Sup, e: Evidence)
    requires Inv(c, s) && Can(c, s, Leave) && s.gen.pending.Some? && s.gen.evidence == Some(e)
    ensures var (q, g) := (Asks(lib, c, s, Leave), s.gen);
            && q.Settle? && q.key == g.pending.value.key
            && (g.stop.None? ==>
                  Blamed(q.result, if e.signal != 0 then "native_vm_crash" else "worker_unexpected_exit", Null, e))
            && (g.stop.Some? ==> Blamed(q.result, Name(g.stop.value), Text(Name(g.stop.value)), e)
                                 && g.stop.value !in {StartupOrIdleTimeout, BudgetCompleted, DirtyRecycle})
  {
    hide Conserved, WithinBudget, WordSound, LogSound, Latest, Name, Blamed, TerminationResult, Decide;
    TerminationSays(s.gen, e);
  }

  lemma TerminationSays(g: Gen, e: Evidence)
    requires g.state == EXECUTING
    ensures Blamed(TerminationResult(g, e), Classification(g, e),
                   if g.stop.None? then Null else Text(Name(g.stop.value)), e)
  {
    hide Classification, Name;
  }

  /** The verdict on a run in flight when its worker ended, in the words it is recorded in: it names what the last
      block to stop the generation stopped it for, and, if none did, what the worker's wait status says; and it
      carries the wait status the launcher reported last. */
  lemma VerdictExactly(lib: Library, c: Config, states: seq<Sup>, blocks: seq<Block>, i: nat, j: int, e: Evidence)
    requires Campaign(lib, c, states, blocks) && i < |blocks| && blocks[i].Leave? && states[i].gen.pending.Some?
    requires LastReport(blocks, j, i, e)
    ensures var q := Asks(lib, c, states[i], blocks[i]);
            && q.Settle? && q.key == states[i].gen.pending.value.key
            && (forall k, r :: LastCause(lib, c, states, blocks, k, i, r) ==>
                  var text := BlameText(c, states[k], blocks[k]); Blamed(q.result, text, Text(text), e))
            && ((forall k, r :: !LastCause(lib, c, states, blocks, k, i, r)) ==>
                  Blamed(q.result, if e.signal != 0 then "native_vm_crash" else "worker_unexpected_exit", Null, e))
  {
    hide Inv, Can, After, Shaped, Stepped, Asks, Blamed, BlameText, Cause, Caused, LastReport;
    StepAt(lib, c, states, blocks, i);
    EvidenceExactly(lib, c, states, blocks, i, e);
    EndBlames(lib, c, states[i], e);
    forall k, r | LastCause(lib, c, states, blocks, k, i, r)
      ensures states[i].gen.stop == Some(r) && Name(r) == BlameText(c, states[k], blocks[k])
    {
      CausedStop(lib, c, states, blocks, k, i, r);
      BlamesCause(lib, c, states[k], blocks[k], r);
    }
    if states[i].gen.stop.Some? {
      var k := ReasonHasCause(lib, c, states, blocks, i);
    }
  }
}
