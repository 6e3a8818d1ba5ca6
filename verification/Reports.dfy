// What a campaign reports in the end: its status in words, what it lost, and whether a reproduction was observed
// (priv/efz_external.py:581-588, 598-647).
module Reports {
  import opened Storage
  import opened Records
  import opened Supervisor
  import opened Lifecycle
  import opened Causes
  import opened Stopping
  import opened Bookkeeping
  import opened Restarts
  import opened Wrappers

  // ----- lost runs -----

  /** A worker is left here with a run in flight. */
  predicate Loses(states: seq<Sup>, blocks: seq<Block>, k: int) {
    0 <= k < |blocks| <= |states| && blocks[k].Leave? && states[k].gen.pending.Some?
  }

  /** The keys of the runs lost so far, each the last one permitted before. */
  function Lost(lib: Library, c: Config, states: seq<Sup>, blocks: seq<Block>, i: nat): seq<Key>
    requires i <= |blocks| <= |states|
  {
    if i == 0 then [] else
    Lost(lib, c, states, blocks, i - 1)
    + if Loses(states, blocks, i - 1) then [Key(c.campaign, Permissions(lib, c, states, blocks, i - 1))] else []
  }

  /** The verdicts on them. */
  function Verdicts(lib: Library, c: Config, states: seq<Sup>, blocks: seq<Block>, i: nat): seq<map<string, Value>>
    requires i <= |blocks| <= |states|
  {
    if i == 0 then [] else
    Verdicts(lib, c, states, blocks, i - 1)
    + match Asks(lib, c, states[i - 1], blocks[i - 1])
      case Settle(_, result) => if Loses(states, blocks, i - 1) then [result] else []
      case _ => []
  }

  lemma PendingIsLast(lib: Library, c: Config, s: Sup, b: Block)
    requires Inv(c, s) && Can(c, s, b) && b.Leave? && s.gen.pending.Some?
    ensures s.gen.pending.value.key == Key(c.campaign, s.run) && Asks(lib, c, s, b).Settle?
  {
    hide WithinBudget, StopsSound, WordSound, LogSound, Latest, Decide, TerminationResult;
  }

  /** The findings of the report are exactly the runs that were lost, in order, each with a verdict. */
  lemma {:induction false} FindingsExactly(lib: Library, c: Config, states: seq<Sup>, blocks: seq<Block>, i: nat)
    requires Campaign(lib, c, states, blocks) && i <= |blocks| <= |states|
    ensures states[i].findings == Lost(lib, c, states, blocks, i)
    ensures |Verdicts(lib, c, states, blocks, i)| == |Lost(lib, c, states, blocks, i)|
  {
    hide Inv, Can, After, Shaped, Stepped, Asks;
    if i > 0 {
      FindingsExactly(lib, c, states, blocks, i - 1);
      StepAt(lib, c, states, blocks, i - 1);
      CountersExactly(lib, c, states, blocks, i - 1);
      BlockNotes(lib, c, states[i - 1], blocks[i - 1]);
      if Loses(states, blocks, i - 1) {
        PendingIsLast(lib, c, states[i - 1], blocks[i - 1]);
      }
    }
  }

  // ----- the status -----

  function StatusText(v: FinalStatus): string {
    match v
    case RestartBudgetExhausted => "restart_budget_exhausted"
    case Plain(Because(r)) => Name(r)
    case Plain(Completed) => "completed"
    case Plain(UnexpectedExit) => "worker_unexpected_exit"
  }

  /** The supervisor's exit code. */
  function ExitCode(c: Config, v: FinalStatus): nat {
    if StatusText(v) in {"completed", "budget_completed"} || c.replay then 0 else 1
  }

  /** The last generation, which was left at i, was stopped for this reason and for no want of restarts. */
  ghost predicate EndedFor(lib: Library, c: Config, states: seq<Sup>, blocks: seq<Block>, i: int, r: StopReason)
    requires 0 <= i && i + 1 < |states|
  {
    StoppedFor(lib, c, states, blocks, i, {r}) && !MoreToDo(c, states[i + 1])
  }

  lemma StatusWords(c: Config, t: Sup, v: FinalStatus)
    requires EndsAs(c, t, v)
    ensures var (x, more, stop) := (StatusText(v), MoreToDo(c, t), t.gen.stop);
            && (x == "restart_budget_exhausted" <==> more)
            && (x == "completed" <==> !more && stop.None? && t.gen.done == Some(0))
            && (x == "worker_unexpected_exit" <==> !more && stop.None? && t.gen.done != Some(0))
            && (x == "budget_completed" <==> !more && stop == Some(BudgetCompleted))
            && (x == "campaign_deadline" <==> !more && stop == Some(CampaignDeadline))
  {
    hide MoreToDo;
  }

  lemma MoreStatusWords(c: Config, t: Sup, v: FinalStatus)
    requires EndsAs(c, t, v)
    ensures var (x, more, stop) := (StatusText(v), MoreToDo(c, t), t.gen.stop);
            && (x == "supervisor_parent_death" <==> !more && stop == Some(SupervisorParentDeath))
            && (x == "worker_hard_timeout" <==> !more && stop == Some(WorkerHardTimeout))
            && (x == "startup_or_idle_timeout" <==> !more && stop == Some(StartupOrIdleTimeout))
            && (x == "worker_protocol_failure" <==> !more && stop == Some(WorkerProtocolFailure))
            && (x == "dirty_recycle" <==> !more && stop == Some(DirtyRecycle))
  {
    hide MoreToDo;
  }

  lemma LeftAsItWas(lib: Library, c: Config, states: seq<Sup>, blocks: seq<Block>, i: nat)
    requires Campaign(lib, c, states, blocks) && i < |blocks| && i + 1 < |states| && blocks[i].Leave?
    ensures states[i + 1].gen.stop == states[i].gen.stop && states[i + 1].gen.done == states[i].gen.done
  {
    hide Inv, Can, After, Shaped, Timed, Streamed, Caused, Took;
    StepAt(lib, c, states, blocks, i);
    LeaveCausesNothing(lib, c, states[i], blocks[i]);
  }

  /** The status of a campaign whose last worker was left at i, in the words of the report: what stopped that worker
      last, or how it finished, or that restarts ran out. */
  lemma StatusExactly(lib: Library, c: Config, states: seq<Sup>, blocks: seq<Block>, i: nat, v: FinalStatus)
    requires Campaign(lib, c, states, blocks) && i < |blocks| && i + 1 < |states| && blocks[i].Leave?
    requires EndsAs(c, states[i + 1], v)
    ensures var (x, more) := (StatusText(v), MoreToDo(c, states[i + 1]));
            && (x == "restart_budget_exhausted" <==> more)
            && (x == "completed" <==> !more && !Stopped(lib, c, states, blocks, i)
                                      && FinishedWith(lib, c, states, blocks, i, {0}))
            && (x == "worker_unexpected_exit" <==> !more && !Stopped(lib, c, states, blocks, i)
                                                   && !FinishedWith(lib, c, states, blocks, i, {0}))
            && (x == "budget_completed" <==> EndedFor(lib, c, states, blocks, i, BudgetCompleted))
            && (x == "campaign_deadline" <==> EndedFor(lib, c, states, blocks, i, CampaignDeadline))
            && (x == "supervisor_parent_death" <==> EndedFor(lib, c, states, blocks, i, SupervisorParentDeath))
            && (x == "worker_hard_timeout" <==> EndedFor(lib, c, states, blocks, i, WorkerHardTimeout))
            && (x == "startup_or_idle_timeout" <==> EndedFor(lib, c, states, blocks, i, StartupOrIdleTimeout))
            && (x == "worker_protocol_failure" <==> EndedFor(lib, c, states, blocks, i, WorkerProtocolFailure))
            && (x == "dirty_recycle" <==> EndedFor(lib, c, states, blocks, i, DirtyRecycle))
  {
    hide Campaign, StatusText, MoreToDo, EndsAs, FinishedWith, Stopped, StoppedFor;
    Lengths(lib, c, states, blocks);
    LeftAsItWas(lib, c, states, blocks, i);
    StatusWords(c, states[i + 1], v);
    MoreStatusWords(c, states[i + 1], v);
    DoneIs(lib, c, states, blocks, i, {0});
    forall r: StopReason
      ensures StoppedFor(lib, c, states, blocks, i, {r}) <==> states[i].gen.stop == Some(r)
      ensures states[i].gen.stop.Some? <==> Stopped(lib, c, states, blocks, i)
    {
      StopIs(lib, c, states, blocks, i, {r});
    }
    StopIs(lib, c, states, blocks, i, {});
  }

  /** Outside a reproduction the supervisor exits with 0 exactly if the last worker was stopped because a budget was
      used up, or finished with code 0 and was not stopped. */
  lemma ExitExactly(lib: Library, c: Config, states: seq<Sup>, blocks: seq<Block>, i: nat, v: FinalStatus)
    requires Campaign(lib, c, states, blocks) && i < |blocks| && i + 1 < |states| && blocks[i].Leave? && !c.replay
    requires EndsAs(c, states[i + 1], v)
    ensures ExitCode(c, v) == 0
            <==> || StoppedFor(lib, c, states, blocks, i, {BudgetCompleted})
                 || (!Stopped(lib, c, states, blocks, i) && FinishedWith(lib, c, states, blocks, i, {0}))
  {
    hide Campaign, StatusText, EndsAs, FinishedWith, Stopped, StoppedFor;
    Lengths(lib, c, states, blocks);
    LeftAsItWas(lib, c, states, blocks, i);
    StatusWords(c, states[i + 1], v);
    DoneIs(lib, c, states, blocks, i, {0});
    StopIs(lib, c, states, blocks, i, {BudgetCompleted});
  }

  // ----- a reproduction -----

  function Get(row: map<string, Value>, key: string): Option<Value> {
    if key in row then Some(row[key]) else None
  }

  function GetIn(row: map<string, Value>, key: string, inner: string): Option<Value> {
    match Get(row, key)
    case Some(Record(fields)) => Get(fields, inner)
    case _ => None
  }

  /** `matches`; none where a field is missing. */
  function Matches(row: map<string, Value>, expected: map<string, Value>): Option<bool> {
    match (Get(row, "classification"), Get(expected, "classification"))
    case (Some(x), Some(y)) =>
      if x != y then Some(false)
      else if y == Text("native_vm_crash") then Equal(row, expected, "signal")
      else if y == Text("worker_unexpected_exit") then Equal(row, expected, "exit_code")
      else Some(true)
    case _ => None
  }

  function Equal(row: map<string, Value>, expected: map<string, Value>, key: string): Option<bool> {
    match (GetIn(row, "termination", key), GetIn(expected, "termination", key))
    case (Some(x), Some(y)) => Some(x == y)
    case _ => None
  }

  function Observed(rows: seq<map<string, Value>>, expected: map<string, Value>): Option<nat> {
    if rows == [] then Some(0) else
    var n := |rows| - 1;
    match (Observed(rows[..n], expected), Matches(rows[n], expected))
    case (Some(k), Some(hit)) => Some(k + if hit then 1 else 0)
    case _ => None
  }

  const UNTRIED := [Text("worker_protocol_failure"), Text("supervisor_parent_death"), Text("campaign_deadline")]

  /** The run was cut short for a reason that says nothing of the finding. */
  predicate CutShort(row: map<string, Value>) {
    Get(row, "classification").Some? && Get(row, "classification").value in UNTRIED
  }

  datatype Reproduction = Reproduction(observed: nat, requested: nat, completed: nat, status: string)

  /** What the report says of a reproduction. */
  function Reproduced(c: Config, rows: seq<map<string, Value>>, expected: map<string, Value>, run: nat):
      Option<Reproduction>
  {
    match Observed(rows, expected)
    case None => None
    case Some(n) =>
      var incomplete := run != c.reproduceRuns || exists i :: 0 <= i < |rows| && CutShort(rows[i]);
      Some(Reproduction(n, c.reproduceRuns, run,
                        if n > 0 then "observed" else if incomplete then "inconclusive" else "not_observed"))
  }

  /** The worker hung: the last thing to stop it was its deadline, before the end of the campaign. */
  predicate Hung(c: Config, s: Sup, b: Block) {
    b.Tick? && s.gen.deadline <= b.now < c.end
  }

  /** The run lost at k ended as the finding did: again it hung, or again its worker, unstopped, ended by this signal,
      or without one and with this exit code. */
  ghost predicate EndsAlike(lib: Library, c: Config, states: seq<Sup>, blocks: seq<Block>, k: int, finding: string,
                            e: Evidence)
  {
    && Loses(states, blocks, k)
    && if finding == "worker_hard_timeout"
       then exists m, r :: LastCause(lib, c, states, blocks, m, k, r) && Hung(c, states[m], blocks[m])
       else && !Stopped(lib, c, states, blocks, k)
            && exists j, f :: LastReport(blocks, j, k, f)
                              && if finding == "native_vm_crash" then f.signal != 0 && f.signal == e.signal
                                 else f.signal == 0 && f.exitCode == e.exitCode
  }

  ghost function HowOften(lib: Library, c: Config, states: seq<Sup>, blocks: seq<Block>, i: nat, finding: string,
                          e: Evidence): nat
  {
    if i == 0 then 0 else
    HowOften(lib, c, states, blocks, i - 1, finding, e)
    + if EndsAlike(lib, c, states, blocks, i - 1, finding, e) then 1 else 0
  }

  /** The run lost at k was stopped for another reason than its deadline. */
  ghost predicate Interrupts(lib: Library, c: Config, states: seq<Sup>, blocks: seq<Block>, k: int) {
    && Loses(states, blocks, k)
    && exists m, r :: LastCause(lib, c, states, blocks, m, k, r) && !Hung(c, states[m], blocks[m])
  }

  const FINDINGS := ["native_vm_crash", "worker_hard_timeout", "worker_unexpected_exit"]

  lemma BlamedMatches(row: map<string, Value>, text: string, initiative: Value, f: Evidence,
                      expected: map<string, Value>, finding: string, before: Value, e: Evidence)
    requires Blamed(row, text, initiative, f) && Blamed(expected, finding, before, e) && finding in FINDINGS
    ensures Matches(row, expected)
            == Some(text == finding && (finding == "native_vm_crash" ==> f.signal == e.signal)
                    && (finding == "worker_unexpected_exit" ==> f.exitCode == e.exitCode))
    ensures CutShort(row)
            <==> text in {"worker_protocol_failure", "supervisor_parent_death", "campaign_deadline"}
  {
  }

  lemma BlameIs(lib: Library, c: Config, s: Sup, b: Block, r: StopReason)
    requires Cause(lib, c, s, b, r)
    ensures BlameText(c, s, b) in {"worker_hard_timeout", "worker_protocol_failure", "supervisor_parent_death",
                                   "campaign_deadline"}
    ensures BlameText(c, s, b) == "worker_hard_timeout" <==> Hung(c, s, b)
  {
    hide Misbehaves, Took;
  }

  lemma ReportOf(lib: Library, c: Config, states: seq<Sup>, blocks: seq<Block>, k: nat)
      returns (j: int, f: Evidence)
    requires Campaign(lib, c, states, blocks) && Loses(states, blocks, k)
    ensures LastReport(blocks, j, k, f)
  {
    hide Campaign, Inv, LastReport, HasConnected, HasEnded, Can, Stepped, Shaped, After;
    Lengths(lib, c, states, blocks);
    StepAt(lib, c, states, blocks, k);
    LeaveExactly(lib, c, states, blocks, k);
    j, f :| LastReport(blocks, j, k, f) && f.cleanupConfirmed;
  }

  lemma CauseOfLast(lib: Library, c: Config, states: seq<Sup>, blocks: seq<Block>, k: int, i: int, r: StopReason)
    requires LastCause(lib, c, states, blocks, k, i, r)
    ensures 0 <= k < |blocks| < |states| && k < i && Cause(lib, c, states[k], blocks[k], r)
  {
    hide Cause, Caused;
  }

  lemma OneLastCause(lib: Library, c: Config, states: seq<Sup>, blocks: seq<Block>, k: int, r: StopReason, m: int,
                     q: StopReason, i: int)
    requires LastCause(lib, c, states, blocks, k, i, r) && LastCause(lib, c, states, blocks, m, i, q)
    ensures k == m
  {
    hide Cause;
  }

  /** The verdict on a run lost at k matches the finding exactly if the run ended alike, and counts as cut short
      exactly if it was. */
  lemma VerdictMatches(lib: Library, c: Config, states: seq<Sup>, blocks: seq<Block>, k: nat,
                       expected: map<string, Value>, finding: string, before: Value, e: Evidence)
    requires Campaign(lib, c, states, blocks) && Loses(states, blocks, k)
    requires Blamed(expected, finding, before, e) && finding in FINDINGS
    ensures Asks(lib, c, states[k], blocks[k]).Settle?
    ensures var row := Asks(lib, c, states[k], blocks[k]).result;
            && Matches(row, expected) == Some(EndsAlike(lib, c, states, blocks, k, finding, e))
            && (CutShort(row) <==> Interrupts(lib, c, states, blocks, k))
  {
    hide Campaign, Inv, Can, After, Shaped, Asks, Blamed, BlameText, Hung, LastReport, LastCause, Matches, CutShort;
    hide FINDINGS;
    var j, f := ReportOf(lib, c, states, blocks, k);
    VerdictExactly(lib, c, states, blocks, k, j, f);
    var row := Asks(lib, c, states[k], blocks[k]).result;
    forall j2, f2 | LastReport(blocks, j2, k, f2) ensures f2 == f {
      EvidenceExactly(lib, c, states, blocks, k, f2);
      EvidenceExactly(lib, c, states, blocks, k, f);
    }
    if m, r :| LastCause(lib, c, states, blocks, m, k, r) {
      CauseOfLast(lib, c, states, blocks, m, k, r);
      var text := BlameText(c, states[m], blocks[m]);
      BlameIs(lib, c, states[m], blocks[m], r);
      BlamedMatches(row, text, Text(text), f, expected, finding, before, e);
      StopsApart(text, finding);
      StoppedAlike(lib, c, states, blocks, k, m, r, finding, e);
    } else {
      var text := if f.signal != 0 then "native_vm_crash" else "worker_unexpected_exit";
      BlamedMatches(row, text, Null, f, expected, finding, before, e);
      EndsApart(text, f.signal, finding);
      UnstoppedAlike(lib, c, states, blocks, k, j, f, finding, e);
    }
  }

  /** Of the words for a stop, one names a finding. */
  lemma StopsApart(text: string, finding: string)
    requires text in {"worker_hard_timeout", "worker_protocol_failure", "supervisor_parent_death", "campaign_deadline"}
    requires finding in FINDINGS
    ensures text == finding <==> text == "worker_hard_timeout" && finding == "worker_hard_timeout"
    ensures text == finding ==> finding != "native_vm_crash" && finding != "worker_unexpected_exit"
  {
    assert |"worker_hard_timeout"| == 19 && |"native_vm_crash"| == 15 && |"worker_unexpected_exit"| == 22;
    assert |"worker_protocol_failure"| == 23 && |"supervisor_parent_death"| == 23 && |"campaign_deadline"| == 17;
  }

  /** And so does each word for an end without a stop. */
  lemma EndsApart(text: string, signal: int, finding: string)
    requires text == if signal != 0 then "native_vm_crash" else "worker_unexpected_exit"
    requires finding in FINDINGS
    ensures text == finding
            <==> finding != "worker_hard_timeout" && if finding == "native_vm_crash" then signal != 0 else signal == 0
    ensures finding == "worker_hard_timeout" ==> finding != "native_vm_crash" && finding != "worker_unexpected_exit"
    ensures finding in {"native_vm_crash", "worker_hard_timeout", "worker_unexpected_exit"}
    ensures finding == "native_vm_crash" ==> finding != "worker_unexpected_exit"
  {
    assert |"worker_hard_timeout"| == 19 && |"native_vm_crash"| == 15 && |"worker_unexpected_exit"| == 22;
  }

  lemma StoppedAlike(lib: Library, c: Config, states: seq<Sup>, blocks: seq<Block>, k: nat, m: int, r: StopReason,
                     finding: string, e: Evidence)
    requires Loses(states, blocks, k) && LastCause(lib, c, states, blocks, m, k, r) && 0 <= m < |blocks| < |states|
    ensures EndsAlike(lib, c, states, blocks, k, finding, e)
            <==> finding == "worker_hard_timeout" && Hung(c, states[m], blocks[m])
    ensures Interrupts(lib, c, states, blocks, k) <==> !Hung(c, states[m], blocks[m])
  {
    hide Loses, Hung, LastCause, LastReport;
    forall m2, r2 | LastCause(lib, c, states, blocks, m2, k, r2) ensures m2 == m {
      OneLastCause(lib, c, states, blocks, m, r, m2, r2, k);
    }
    assert Stopped(lib, c, states, blocks, k);
  }

  lemma UnstoppedAlike(lib: Library, c: Config, states: seq<Sup>, blocks: seq<Block>, k: nat, j: int, f: Evidence,
                       finding: string, e: Evidence)
    requires Loses(states, blocks, k) && LastReport(blocks, j, k, f)
    requires forall m, r :: !LastCause(lib, c, states, blocks, m, k, r)
    requires forall j2, f2 :: LastReport(blocks, j2, k, f2) ==> f2 == f
    ensures EndsAlike(lib, c, states, blocks, k, finding, e)
            <==> finding != "worker_hard_timeout"
                 && if finding == "native_vm_crash" then f.signal != 0 && f.signal == e.signal
                    else f.signal == 0 && f.exitCode == e.exitCode
    ensures !Interrupts(lib, c, states, blocks, k)
  {
    hide Loses, LastCause, LastReport;
  }

  lemma OneMoreRow(rows: seq<map<string, Value>>, row: map<string, Value>, expected: map<string, Value>)
    requires Observed(rows, expected).Some? && Matches(row, expected).Some?
    ensures Observed(rows + [row], expected)
            == Some(Observed(rows, expected).value + if Matches(row, expected).value then 1 else 0)
  {
    hide Matches;
    assert (rows + [row])[..|rows|] == rows;
  }

  lemma {:induction false} RowsMatch(lib: Library, c: Config, states: seq<Sup>, blocks: seq<Block>, i: nat,
                                     expected: map<string, Value>, finding: string, before: Value, e: Evidence)
    requires Campaign(lib, c, states, blocks) && i <= |blocks| <= |states|
    requires Blamed(expected, finding, before, e) && finding in FINDINGS
    ensures Observed(Verdicts(lib, c, states, blocks, i), expected)
            == Some(HowOften(lib, c, states, blocks, i, finding, e))
  {
    hide Campaign, Asks, Blamed, Matches, CutShort, FINDINGS, Loses, EndsAlike, Interrupts, Observed;
    if i == 0 {
      assert Observed([], expected) == Some(0) by { NoRows(expected); }
    } else {
      var n := i - 1;
      RowsMatch(lib, c, states, blocks, n, expected, finding, before, e);
      var rows := Verdicts(lib, c, states, blocks, n);
      if Loses(states, blocks, n) {
        VerdictMatches(lib, c, states, blocks, n, expected, finding, before, e);
        OneMoreRow(rows, Asks(lib, c, states[n], blocks[n]).result, expected);
      } else {
        NothingLost(lib, c, states, blocks, n, finding, e);
        assert rows + [] == rows;
      }
    }
  }

  lemma NoRows(expected: map<string, Value>)
    ensures Observed([], expected) == Some(0)
  {
  }

  ghost predicate AnyCutShort(rows: seq<map<string, Value>>) {
    exists n :: 0 <= n < |rows| && CutShort(rows[n])
  }

  ghost predicate AnyInterrupted(lib: Library, c: Config, states: seq<Sup>, blocks: seq<Block>, i: nat) {
    exists k :: 0 <= k < i && Interrupts(lib, c, states, blocks, k)
  }

  lemma {:induction false} RowsCut(lib: Library, c: Config, states: seq<Sup>, blocks: seq<Block>, i: nat,
                                   expected: map<string, Value>, finding: string, before: Value, e: Evidence)
    requires Campaign(lib, c, states, blocks) && i <= |blocks| <= |states|
    requires Blamed(expected, finding, before, e) && finding in FINDINGS
    ensures AnyCutShort(Verdicts(lib, c, states, blocks, i)) <==> AnyInterrupted(lib, c, states, blocks, i)
  {
    hide Campaign, Asks, Blamed, Matches, CutShort, FINDINGS, Loses, EndsAlike, Interrupts, AnyCutShort;
    hide AnyInterrupted;
    OneMoreBlock(lib, c, states, blocks, i);
    if i > 0 {
      var n := i - 1;
      RowsCut(lib, c, states, blocks, n, expected, finding, before, e);
      var rows, later := Verdicts(lib, c, states, blocks, n), Verdicts(lib, c, states, blocks, i);
      if Loses(states, blocks, n) {
        VerdictMatches(lib, c, states, blocks, n, expected, finding, before, e);
        var row := Asks(lib, c, states[n], blocks[n]).result;
        assert later == rows + [row];
        OneMore(rows, row);
      } else {
        NothingLost(lib, c, states, blocks, n, finding, e);
        assert later == rows;
      }
    } else {
      assert !AnyCutShort(Verdicts(lib, c, states, blocks, 0)) by { NothingCut(); }
    }
  }

  lemma NothingCut()
    ensures !AnyCutShort([])
  {
  }

  lemma OneMoreBlock(lib: Library, c: Config, states: seq<Sup>, blocks: seq<Block>, i: nat)
    ensures AnyInterrupted(lib, c, states, blocks, i)
            <==> i > 0 && (Interrupts(lib, c, states, blocks, i - 1) || AnyInterrupted(lib, c, states, blocks, i - 1))
  {
    hide Interrupts;
    if i > 0 && Interrupts(lib, c, states, blocks, i - 1) {
      assert 0 <= i - 1 < i;
    }
  }

  lemma OneMore(rows: seq<map<string, Value>>, row: map<string, Value>)
    ensures AnyCutShort(rows + [row]) <==> CutShort(row) || AnyCutShort(rows)
  {
    hide CutShort;
    var later := rows + [row];
    if CutShort(row) {
      assert CutShort(later[|rows|]);
    }
    if n :| 0 <= n < |rows| && CutShort(rows[n]) {
      assert CutShort(later[n]);
    }
  }

  lemma NothingLost(lib: Library, c: Config, states: seq<Sup>, blocks: seq<Block>, k: int, finding: string, e: Evidence)
    requires !Loses(states, blocks, k)
    ensures !EndsAlike(lib, c, states, blocks, k, finding, e) && !Interrupts(lib, c, states, blocks, k)
  {
    hide LastCause, LastReport, Loses;
  }

  /** What is reported of the reproduction of a finding that a supervisor recorded: how many of the lost runs ended as
      it did, out of how many requested and permitted; and if none did, the reproduction decides nothing exactly if
      not as many runs as requested were permitted, or one of them was lost to another stop than its deadline. */
  lemma ReproductionExactly(lib: Library, c: Config, states: seq<Sup>, blocks: seq<Block>, expected: map<string, Value>,
                            finding: string, before: Value, e: Evidence)
    requires Campaign(lib, c, states, blocks)
    requires Blamed(expected, finding, before, e) && finding in FINDINGS
    ensures |blocks| < |states|
    ensures var i := |blocks|;
            var (often, runs) := (HowOften(lib, c, states, blocks, i, finding, e),
                                  Permissions(lib, c, states, blocks, i));
            Reproduced(c, Verdicts(lib, c, states, blocks, i), expected, states[i].run)
            == Some(Reproduction(often, c.reproduceRuns, runs,
                                 if often > 0 then "observed"
                                 else if runs != c.reproduceRuns || exists k :: Interrupts(lib, c, states, blocks, k)
                                 then "inconclusive" else "not_observed"))
  {
    hide Campaign, Asks, Blamed, Matches, CutShort, FINDINGS, EndsAlike, Interrupts, Observed;
    Lengths(lib, c, states, blocks);
    var i := |blocks|;
    CountersExactly(lib, c, states, blocks, i);
    RowsMatch(lib, c, states, blocks, i, expected, finding, before, e);
    RowsCut(lib, c, states, blocks, i, expected, finding, before, e);
    forall k ensures Interrupts(lib, c, states, blocks, k) ==> 0 <= k < i {
      if !Loses(states, blocks, k) {
        NothingLost(lib, c, states, blocks, k, finding, e);
      }
    }
  }
}
