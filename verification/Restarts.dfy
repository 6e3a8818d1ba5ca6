// Over whole campaigns: behind which generations another worker is started, and how a campaign ends, read off what
// the worker said and what stopped it (priv/efz_external.py:589-619).
module Restarts {
  import opened Bytes
  import opened Supervisor
  import opened Records
  import opened Lifecycle
  import opened WorkerRows
  import opened Causes
  import opened Stopping
  import opened Bookkeeping
  import opened Wrappers

  // ----- what the worker said of itself -----

  /** Block k is the last of the generation, before i, at which the worker said this letter. */
  predicate LastSaid(lib: Library, c: Config, states: seq<Sup>, blocks: seq<Block>, x: Letter, k: int, i: int) {
    && |blocks| <= |states| && Within(blocks, k, i) && Took(lib, c, states[k], blocks[k]) == Some(x)
    && forall m :: k < m < i ==> Took(lib, c, states[m], blocks[m]) != Some(x)
  }

  lemma LastSaidNext(lib: Library, c: Config, states: seq<Sup>, blocks: seq<Block>, x: Letter, k: int, n: nat)
    requires n < |blocks| <= |states|
    ensures LastSaid(lib, c, states, blocks, x, k, n + 1)
            <==> !blocks[n].Next?
                 && if Took(lib, c, states[n], blocks[n]) == Some(x) then k == n
                    else LastSaid(lib, c, states, blocks, x, k, n)
  {
    hide Took;
  }

  lemma NothingSaid(lib: Library, c: Config, states: seq<Sup>, blocks: seq<Block>, x: Letter)
    ensures forall k :: !LastSaid(lib, c, states, blocks, x, k, 0)
  {
    hide Took;
  }

  /** The worker finished at k, with this code. */
  predicate FinishedAt(lib: Library, c: Config, states: seq<Sup>, blocks: seq<Block>, k: int, i: int, code: nat) {
    LastSaid(lib, c, states, blocks, Done, k, i) && Said(states[k]).payload == [code]
  }

  lemma DonePayload(lib: Library, c: Config, s: Sup, b: Block)
    requires Inv(c, s) && Can(c, s, b) && Took(lib, c, s, b) == Some(Done)
    ensures |Said(s).payload| == 1
  {
    hide Conserved, WithinBudget, StopsSound, WordSound, LogSound, RowWrites, Requested, Said, Decide, Proposed, Answer;
    hide OnRow;
    RowExactly(lib, c, s, b.now);
  }

  /** The finish code is that of the finish message taken in this generation. */
  lemma {:induction false} DoneExactly(lib: Library, c: Config, states: seq<Sup>, blocks: seq<Block>, i: nat, code: nat)
    requires Campaign(lib, c, states, blocks) && i <= |blocks| <= |states|
    ensures states[i].gen.done == Some(code) <==> exists k :: FinishedAt(lib, c, states, blocks, k, i, code)
  {
    hide Inv, Can, After, Shaped, Timed, Reasoned, Streamed, LastSaid, Took;
    if i == 0 {
      NothingSaid(lib, c, states, blocks, Done);
    } else {
      var n := i - 1;
      DoneExactly(lib, c, states, blocks, n, code);
      StepAt(lib, c, states, blocks, n);
      var s, b := states[n], blocks[n];
      if Took(lib, c, s, b) == Some(Done) {
        DonePayload(lib, c, s, b);
        assert Said(s).payload == [Said(s).payload[0]];
      }
      LastSaidNext(lib, c, states, blocks, Done, n, n);
      if states[i].gen.done == Some(code) {
        if Took(lib, c, s, b) == Some(Done) {
          assert FinishedAt(lib, c, states, blocks, n, i, code);
        } else {
          var k :| FinishedAt(lib, c, states, blocks, k, n, code);
          LastSaidNext(lib, c, states, blocks, Done, k, n);
          assert FinishedAt(lib, c, states, blocks, k, i, code);
        }
      }
      if k :| FinishedAt(lib, c, states, blocks, k, i, code) {
        LastSaidNext(lib, c, states, blocks, Done, k, n);
        assert Took(lib, c, s, b) != Some(Done) ==> FinishedAt(lib, c, states, blocks, k, n, code);
      }
    }
  }

  /** What got logged first when the worker got ready stands in the log where it then ended. */
  lemma {:induction false} ReadyExactly(lib: Library, c: Config, states: seq<Sup>, blocks: seq<Block>, i: nat, at: nat)
    requires Campaign(lib, c, states, blocks) && i <= |blocks| <= |states|
    ensures states[i].gen.readyAt == Some(at) <==> exists k :: ReadiedAt(lib, c, states, blocks, k, i, at)
  {
    hide Inv, Can, After, Shaped, Timed, Reasoned, Streamed, LastSaid, Took;
    if i == 0 {
      NothingSaid(lib, c, states, blocks, Readied);
    } else {
      var n := i - 1;
      ReadyExactly(lib, c, states, blocks, n, at);
      StepAt(lib, c, states, blocks, n);
      LogExactly(lib, c, states, blocks, n);
      var s, b := states[n], blocks[n];
      LastSaidNext(lib, c, states, blocks, Readied, n, n);
      if states[i].gen.readyAt == Some(at) {
        if Took(lib, c, s, b) == Some(Readied) {
          assert ReadiedAt(lib, c, states, blocks, n, i, at);
        } else {
          var k :| ReadiedAt(lib, c, states, blocks, k, n, at);
          LastSaidNext(lib, c, states, blocks, Readied, k, n);
          assert ReadiedAt(lib, c, states, blocks, k, i, at);
        }
      }
      if k :| ReadiedAt(lib, c, states, blocks, k, i, at) {
        LastSaidNext(lib, c, states, blocks, Readied, k, n);
        assert Took(lib, c, s, b) != Some(Readied) ==> ReadiedAt(lib, c, states, blocks, k, n, at);
      }
    }
  }

  /** The worker got ready at k, behind this many events of the campaign. */
  predicate ReadiedAt(lib: Library, c: Config, states: seq<Sup>, blocks: seq<Block>, k: int, i: int, at: nat) {
    LastSaid(lib, c, states, blocks, Readied, k, i) && at == |LogOf(lib, c, states, blocks, k)|
  }

  // ----- restarts -----

  /** The generation that is left at i was stopped for one of these reasons. */
  ghost predicate StoppedFor(lib: Library, c: Config, states: seq<Sup>, blocks: seq<Block>, i: int,
                             reasons: set<StopReason>) {
    exists k, r :: r in reasons && LastCause(lib, c, states, blocks, k, i, r)
  }

  ghost predicate Stopped(lib: Library, c: Config, states: seq<Sup>, blocks: seq<Block>, i: int) {
    exists k, r :: LastCause(lib, c, states, blocks, k, i, r)
  }

  ghost predicate FinishedWith(lib: Library, c: Config, states: seq<Sup>, blocks: seq<Block>, i: int, codes: set<nat>) {
    exists k, code: nat :: code in codes && FinishedAt(lib, c, states, blocks, k, i, code)
  }

  /** The worker got ready, and no more than 254 events followed. */
  ghost predicate LatelyReady(lib: Library, c: Config, states: seq<Sup>, blocks: seq<Block>, i: int)
    requires 0 <= i <= |blocks| <= |states|
  {
    exists k, at: nat :: ReadiedAt(lib, c, states, blocks, k, i, at)
                         && |LogOf(lib, c, states, blocks, i)| - (at + 1) <= 254
  }

  /** The state at the end of a generation gives no reason to end the campaign. */
  predicate Onward(c: Config, s: Sup) {
    && s.gen.stop !in {Some(BudgetCompleted), Some(CampaignDeadline), Some(SupervisorParentDeath)}
    && (if c.replay then s.generation < c.reproduceRuns else s.gen.stop.Some? || s.gen.done != Some(0))
    && s.gen.readyAt.Some? && |s.history| - (s.gen.readyAt.value + 1) <= 254
    && (s.gen.done in {Some(1), Some(2)} ==> s.gen.stop == Some(DirtyRecycle))
    && s.generation <= c.restartBudget
  }

  lemma LeftBehind(lib: Library, c: Config, s: Sup, config: bytes, now: real)
    requires Inv(c, s) && Can(c, s, Leave)
    ensures Shaped(s) && (Can(c, After(lib, c, s, Leave).0, Next(config, now)) <==> Onward(c, s))
  {
    hide Conserved, WithinBudget, StopsSound, WordSound, LogSound, TerminationResult, Latest, Decide;
    GuardIsAWindow(c, s);
    GenerationBounds(c, s);
    DecidesExactly(c, After(lib, c, s, Leave).0);
  }

  lemma GenerationBounds(c: Config, s: Sup)
    requires Inv(c, s) && s.live
    ensures 1 <= s.generation <= c.restartBudget + 1
  {
    hide WordSound, LogSound, StopsSound;
  }

  lemma StopIs(lib: Library, c: Config, states: seq<Sup>, blocks: seq<Block>, i: nat, reasons: set<StopReason>)
    requires Campaign(lib, c, states, blocks) && i <= |blocks| < |states|
    ensures states[i].gen.stop.Some? <==> Stopped(lib, c, states, blocks, i)
    ensures StoppedFor(lib, c, states, blocks, i, reasons)
            <==> states[i].gen.stop.Some? && states[i].gen.stop.value in reasons
  {
    hide Campaign, LastCause;
    if states[i].gen.stop.Some? {
      var k := ReasonHasCause(lib, c, states, blocks, i);
    }
    if k, r :| LastCause(lib, c, states, blocks, k, i, r) {
      StopExactly(lib, c, states, blocks, i, r);
    }
    if k, r :| r in reasons && LastCause(lib, c, states, blocks, k, i, r) {
      StopExactly(lib, c, states, blocks, i, r);
    }
  }

  lemma DoneIs(lib: Library, c: Config, states: seq<Sup>, blocks: seq<Block>, i: nat, codes: set<nat>)
    requires Campaign(lib, c, states, blocks) && i <= |blocks| < |states|
    ensures FinishedWith(lib, c, states, blocks, i, codes)
            <==> states[i].gen.done.Some? && states[i].gen.done.value in codes
  {
    hide Campaign, FinishedAt;
    if states[i].gen.done.Some? {
      DoneExactly(lib, c, states, blocks, i, states[i].gen.done.value);
    }
    if k, code: nat :| code in codes && FinishedAt(lib, c, states, blocks, k, i, code) {
      DoneExactly(lib, c, states, blocks, i, code);
    }
  }

  lemma ReadyIs(lib: Library, c: Config, states: seq<Sup>, blocks: seq<Block>, i: nat)
    requires Campaign(lib, c, states, blocks) && i <= |blocks| < |states|
    ensures LatelyReady(lib, c, states, blocks, i)
            <==> states[i].gen.readyAt.Some? && |states[i].history| - (states[i].gen.readyAt.value + 1) <= 254
  {
    hide Campaign, ReadiedAt, LogOf;
    LogExactly(lib, c, states, blocks, i);
    if states[i].gen.readyAt.Some? {
      ReadyExactly(lib, c, states, blocks, i, states[i].gen.readyAt.value);
    }
    if k, at: nat :| ReadiedAt(lib, c, states, blocks, k, i, at)
                     && |LogOf(lib, c, states, blocks, i)| - (at + 1) <= 254 {
      ReadyExactly(lib, c, states, blocks, i, at);
    }
  }

  /** Behind a generation another worker may be started exactly if: the budget, the end of the campaign or the
      parent's death did not stop it; the reproduction is not through, or, without one, the worker did not finish
      with code 0 unstopped; it had got ready, with at most 254 events since; it did not finish with code 1 or 2,
      unless it was dirty; and the restart budget lasts. */
  lemma RestartExactly(lib: Library, c: Config, states: seq<Sup>, blocks: seq<Block>, i: nat, config: bytes, now: real)
    requires Campaign(lib, c, states, blocks) && i < |blocks| && i + 1 < |states| && blocks[i].Leave?
    ensures |blocks| <= |states|
    ensures Can(c, states[i + 1], Next(config, now))
            <==> && !StoppedFor(lib, c, states, blocks, i, {BudgetCompleted, CampaignDeadline, SupervisorParentDeath})
                 && (if c.replay then Generations(blocks, i) < c.reproduceRuns
                     else Stopped(lib, c, states, blocks, i) || !FinishedWith(lib, c, states, blocks, i, {0}))
                 && LatelyReady(lib, c, states, blocks, i)
                 && (FinishedWith(lib, c, states, blocks, i, {1, 2}) ==>
                       StoppedFor(lib, c, states, blocks, i, {DirtyRecycle}))
                 && Generations(blocks, i) <= c.restartBudget
  {
    hide Inv, After, Can, Shaped, Stepped, FinishedAt, LastCause, Campaign, ReadiedAt, LogOf;
    Lengths(lib, c, states, blocks);
    StepAt(lib, c, states, blocks, i);
    LeftBehind(lib, c, states[i], config, now);
    LogExactly(lib, c, states, blocks, i);
    StopIs(lib, c, states, blocks, i, {BudgetCompleted, CampaignDeadline, SupervisorParentDeath});
    StopIs(lib, c, states, blocks, i, {DirtyRecycle});
    DoneIs(lib, c, states, blocks, i, {0});
    DoneIs(lib, c, states, blocks, i, {1, 2});
    ReadyIs(lib, c, states, blocks, i);
  }

  /** Outside a reproduction, orderly completion is the end: a worker that finished with code 0 and was not stopped
      is followed by no other, and the campaign is completed. */
  lemma CompletionEnds(lib: Library, c: Config, states: seq<Sup>, blocks: seq<Block>, i: nat, config: bytes, now: real)
    requires Campaign(lib, c, states, blocks) && i < |blocks| && i + 1 < |states| && blocks[i].Leave? && !c.replay
    requires FinishedWith(lib, c, states, blocks, i, {0}) && !Stopped(lib, c, states, blocks, i)
    ensures !Can(c, states[i + 1], Next(config, now))
    ensures EndsAs(c, states[i + 1], Plain(Completed))
  {
    hide Inv, After, Can, Shaped, FinishedAt, LastCause, Campaign, ReadiedAt, LogOf, Timed, Streamed, Took;
    Lengths(lib, c, states, blocks);
    RestartExactly(lib, c, states, blocks, i, config, now);
    StepAt(lib, c, states, blocks, i);
    StopIs(lib, c, states, blocks, i, {});
    DoneIs(lib, c, states, blocks, i, {0});
    LeaveCausesNothing(lib, c, states[i], blocks[i]);
  }

  lemma LeaveCausesNothing(lib: Library, c: Config, s: Sup, b: Block)
    requires b.Leave?
    ensures !Caused(lib, c, s, b) && Took(lib, c, s, b).None?
  {
    hide Skipped;
  }
}
