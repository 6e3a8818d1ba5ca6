// Concrete campaigns in which the restart guard forgets that the worker got ready
// (priv/efz_external.py:334-336, 603-615).
module Witness {
  import opened Bytes
  import opened Wire
  import opened Records
  import opened Supervisor
  import opened Lifecycle
  import opened Messages
  import opened Wrappers

  /** No block asked anything of the journal. */
  ghost predicate AsksNothing(lib: Library, c: Config, states: seq<Sup>, blocks: seq<Block>) {
    forall i :: 0 <= i < |blocks| && i < |states| ==> Asks(lib, c, states[i], blocks[i]).Nothing?
  }

  /** Some campaign gets there; a quiet one without touching the disk. */
  ghost predicate Reached(lib: Library, c: Config, s: Sup, quiet: bool) {
    exists states, blocks ::
      Campaign(lib, c, states, blocks) && states[|blocks|] == s && (quiet ==> AsksNothing(lib, c, states, blocks))
  }

  lemma ReachedSound(lib: Library, c: Config, s: Sup, quiet: bool)
    requires Reached(lib, c, s, quiet)
    ensures Inv(c, s) && Reached(lib, c, s, false)
  {
    hide Inv, AsksNothing;
    var states, blocks :| Campaign(lib, c, states, blocks) && states[|blocks|] == s;
    CampaignInv(lib, c, states, blocks, |blocks|);
  }

  lemma Onward(lib: Library, c: Config, s: Sup, b: Block, quiet: bool)
    requires Reached(lib, c, s, quiet) && Can(c, s, b) && (quiet ==> Asks(lib, c, s, b).Nothing?)
    ensures Shaped(s) && Reached(lib, c, After(lib, c, s, b).0, quiet)
  {
    ReachedSound(lib, c, s, quiet);
    assert Shaped(s);
    hide Inv, Can, After, Shaped, Asks;
    var states, blocks :| Campaign(lib, c, states, blocks) && states[|blocks|] == s
                          && (quiet ==> AsksNothing(lib, c, states, blocks));
    var t := After(lib, c, s, b).0;
    CampaignExtends(lib, c, states, blocks, b, t);
    var states', blocks' := states + [t], blocks + [b];
    assert states'[|blocks'|] == t;
    assert quiet ==> AsksNothing(lib, c, states', blocks');
  }

  /** Connected to the right process, nothing half received, no reason to stop. */
  predicate Calm(s: Sup) {
    var g := s.gen;
    && s.live && g.connected && !g.eof && g.queue == [] && g.buffer == [] && g.since.None?
    && g.workerPid.Some? && g.peerPid == g.workerPid && g.stop.None?
  }

  function RowOf(f: Frame): (row: bytes)
    requires Sound(f)
    ensures |row| == 13 + |f.payload|
  {
    Header(f) + f.payload
  }

  lemma OneFrame(f: Frame)
    requires Sound(f) && |f.payload| + 17 <= MAX_CHUNK
    ensures |Prefixed(RowOf(f))| == 17 + |f.payload|
    ensures Fed([], Prefixed(RowOf(f))) == (Ok([RowOf(f)]), [])
  {
    hide Split, Header, Be32;
    var row := RowOf(f);
    SplitComplete([row], []);
    assert Flatten([row]) == Prefixed(row) + Flatten([]);
    assert Flatten([row]) + [] == Prefixed(row) == [] + Prefixed(row);
  }

  /** One frame arrives in one piece: the block that brings it, and the one that handles it. */
  lemma Framed(lib: Library, c: Config, s: Sup, f: Frame) returns (data: bytes, s1: Sup)
    requires Shaped(s) && Calm(s) && Sound(f) && |f.payload| + 17 <= MAX_CHUNK
    requires s.gen.state == EXECUTING ==> s.gen.pending.Some?
    ensures Can(c, s, Data(data, 0.0)) && After(lib, c, s, Data(data, 0.0)) == (s1, Nothing, None)
    ensures Shaped(s1) && Can(c, s1, Row(0.0)) && s1.gen.queue == [RowOf(f)] && s1.(gen := s1.gen.(queue := [])) == s
    ensures var r := OnFrame(lib, c, s, RowOf(f), 0.0);
            r.Accepted? ==> After(lib, c, s1, Row(0.0)) == (r.next, r.request, Some(r.reply))
  {
    hide OnFrame, Fed, Prefixed, RowOf, Latest, Decide;
    var row := RowOf(f);
    OneFrame(f);
    data := Prefixed(row);
    s1 := s.(gen := s.gen.(queue := [row]));
    assert Received(s, data, 0.0) == s1;
    assert s1.(gen := s1.gen.(queue := [])) == s;
    var none: seq<bytes> := [row][1..];
    assert none == [];
  }

  lemma Delivered(lib: Library, c: Config, s: Sup, f: Frame, quiet: bool)
    requires Reached(lib, c, s, quiet) && Calm(s) && Sound(f) && |f.payload| + 17 <= MAX_CHUNK
    requires s.gen.state == EXECUTING ==> s.gen.pending.Some?
    ensures var r := OnFrame(lib, c, s, RowOf(f), 0.0);
            r.Accepted? && (quiet ==> r.request.Nothing?) ==> Reached(lib, c, r.next, quiet)
  {
    ReachedSound(lib, c, s, quiet);
    assert Shaped(s);
    hide OnFrame, Reached, RowOf, Inv, After, Can, Shaped, Calm;
    var r := OnFrame(lib, c, s, RowOf(f), 0.0);
    if r.Accepted? && (quiet ==> r.request.Nothing?) {
      var data, s1 := Framed(lib, c, s, f);
      Onward(lib, c, s, Data(data, 0.0), quiet);
      Onward(lib, c, s1, Row(0.0), quiet);
    }
  }

  // ----- rounds of clean results -----

  /** A worker that is ready and has answered n runs, all cleanly. */
  predicate Steady(c: Config, s: Sup, n: nat) {
    && Calm(s) && s.generation == 1 && s.gen.state == READY && s.gen.pending.None? && s.gen.done.None?
    && s.run == n && s.settled == n && s.mutations == 0
    && |s.history| == n + 2 && s.gen.readyAt == Some(1)
  }

  /** What a worker needs to introduce itself. */
  predicate Introducible(c: Config, id: bytes, config: bytes, pid: nat) {
    && |id| == 32 && |config| == 32 && pid < U32_SPAN && c.identity == Hex(id)
    && |c.otp| <= 32 && |c.erts| <= 32 && AllAscii(c.otp) && AllAscii(c.erts)
  }

  /** A PREPARE of a calibration run of the empty input. */
  function EmptyRun(lib: Library, c: Config): bytes
    requires c.timeoutMs < U32_SPAN
  {
    PrepareBody(lib, 1, c.timeoutMs, [], [], 0)
  }

  lemma EmptyRunPasses(lib: Library, c: Config)
    requires c.timeoutMs < U32_SPAN && |lib.sha([])| == 32
    ensures |EmptyRun(lib, c)| == 46
    ensures var p := ParsePrepare(EmptyRun(lib, c));
            CheckPrepare(lib, c, p) == None && p.phase == 1
  {
    hide PrepareBody, ParsePrepare, CheckPrepare;
    assert Proposes(lib, c, EmptyRun(lib, c), 1, [], [], 0);
    PrepareParts(lib, c, EmptyRun(lib, c), 1, [], [], 0);
    PreparePasses(lib, c, EmptyRun(lib, c), 1, [], [], 0);
  }

  predicate Usable(lib: Library, c: Config, id: bytes, config: bytes, pid: nat, n: nat) {
    && Introducible(c, id, config, pid) && |lib.sha([])| == 32
    && c.timeoutMs < U32_SPAN && n <= c.supervisedRuns && n < U64_SPAN && !c.replay
  }

  lemma PrepareLeads(lib: Library, c: Config, s: Sup, n: nat, row: bytes)
    requires Steady(c, s, n) && n < c.supervisedRuns && |row| >= 13
    requires c.timeoutMs < U32_SPAN && |lib.sha([])| == 32
    requires Fields(row) == Frame(3, 1, 0, EmptyRun(lib, c))
    ensures var r := OnFrame(lib, c, s, row, 0.0);
            && r.Accepted? && Calm(r.next) && r.next.generation == 1 && r.next.gen.state == EXECUTING
            && r.next.gen.pending.Some? && r.next.run == n + 1 && r.next.settled == n && r.next.mutations == 0
              && r.next.gen.done.None?
            && r.next.history == s.history && r.next.gen.readyAt == Some(1)
  {
    hide EmptyRun, ParsePrepare, CheckPrepare, MetaOf, Hex, Fields;
    EmptyRunPasses(lib, c);
  }

  lemma ResultLeads(lib: Library, c: Config, s: Sup, n: nat, row: bytes)
    requires Calm(s) && s.generation == 1 && s.gen.state == EXECUTING && s.gen.pending.Some? && s.run == n + 1
    requires s.settled == n && s.mutations == 0 && s.gen.done.None? && |s.history| == n + 2 && s.gen.readyAt == Some(1)
    requires |row| >= 13 && Fields(row) == Frame(4, 1, n + 1, [0, 0, 0, 0])
    ensures var r := OnFrame(lib, c, s, row, 0.0);
            r.Accepted? && Steady(c, r.next, n + 1)
  {
    hide Fields, ResultOf, Latest;
  }

  lemma CleanRound(lib: Library, c: Config, s: Sup, n: nat) returns (t: Sup)
    requires Reached(lib, c, s, false) && Steady(c, s, n) && n < c.supervisedRuns && n + 1 < U64_SPAN
    requires c.timeoutMs < U32_SPAN && |lib.sha([])| == 32
    ensures Reached(lib, c, t, false) && Steady(c, t, n + 1)
  {
    hide OnFrame, Reached, EmptyRun, Fields, Header;
    EmptyRunPasses(lib, c);
    var f := Frame(3, 1, 0, EmptyRun(lib, c));
    FieldsOfRow(f);
    PrepareLeads(lib, c, s, n, RowOf(f));
    Delivered(lib, c, s, f, false);
    var s1 := OnFrame(lib, c, s, RowOf(f), 0.0).next;
    var g := Frame(4, 1, n + 1, [0, 0, 0, 0]);
    FieldsOfRow(g);
    ResultLeads(lib, c, s1, n, RowOf(g));
    Delivered(lib, c, s1, g, false);
    t := OnFrame(lib, c, s1, RowOf(g), 0.0).next;
  }

  lemma {:induction false} CleanRounds(lib: Library, c: Config, s: Sup, n: nat) returns (t: Sup)
    requires Reached(lib, c, s, false) && Steady(c, s, 0) && n <= c.supervisedRuns && n < U64_SPAN
    requires c.timeoutMs < U32_SPAN && |lib.sha([])| == 32
    ensures Reached(lib, c, t, false) && Steady(c, t, n)
  {
    hide Reached, Steady;
    if n == 0 {
      t := s;
    } else {
      var u := CleanRounds(lib, c, s, n - 1);
      t := CleanRound(lib, c, u, n - 1);
    }
  }

  // ----- from the start of a campaign to there, and on to its end -----

  const ALL_WELL := Evidence(1, 0, true, false)

  lemma Connects(lib: Library, c: Config, config: bytes, pid: nat) returns (t: Sup)
    ensures Reached(lib, c, t, true) && Calm(t) && t.gen.state == STARTING && t.generation == 1 && t.run == 0
            && t.settled == 0 && t.mutations == 0
    ensures |t.history| == 1 && t.gen.workerPid == Some(pid) && t.gen.workerConfig == config && t.gen.done.None?
    ensures t.gen.pending.None?
  {
    hide Latest, Decide, Reached, Inv;
    Begins(lib, c);
    var s0 := Initial(c);
    Onward(lib, c, s0, Next(config, 0.0), true);
    var s1 := NextGeneration(c, s0, config, 0.0);
    Onward(lib, c, s1, Pid(pid), true);
    var s2 := LauncherSaysPid(s1, pid);
    Onward(lib, c, s2, Connect(pid), true);
    t := Connected(s2, pid);
  }

  lemma Begins(lib: Library, c: Config)
    ensures Reached(lib, c, Initial(c), true)
  {
    assert Campaign(lib, c, [Initial(c)], []) && AsksNothing(lib, c, [Initial(c)], []);
  }

  lemma HelloLeads(lib: Library, c: Config, s: Sup, row: bytes, id: bytes, config: bytes, pid: nat)
    requires Calm(s) && s.gen.state == STARTING && s.generation == 1 && |row| >= 13
    requires Introducible(c, id, config, pid)
    requires s.gen.workerConfig == config && s.gen.workerPid == Some(pid)
    requires Fields(row) == Frame(1, 1, 0, HelloBody(id, config, pid, c.otp, c.erts))
    ensures var r := OnFrame(lib, c, s, row, 0.0);
            r.Accepted? && r.next == Moved(s, SETUP, Hello) && r.request.Nothing?
  {
    hide HelloBody, CheckHello, Fields;
    HelloPasses(c, s.gen, HelloBody(id, config, pid, c.otp, c.erts), id, pid);
  }

  lemma ReadyLeads(lib: Library, c: Config, s: Sup, row: bytes)
    requires Calm(s) && s.gen.state == SETUP && s.generation == 1 && s.run == 0 && s.settled == 0 && s.mutations == 0
    requires |s.history| == 1 && s.gen.pending.None? && s.gen.done.None?
    requires |row| >= 13 && Fields(row) == Frame(2, 1, 0, [])
    ensures var r := OnFrame(lib, c, s, row, 0.0);
            && r.Accepted? && Steady(c, r.next, 0) && r.request.Nothing?
            && r.next.gen.workerPid == s.gen.workerPid && r.next.gen.workerConfig == s.gen.workerConfig
  {
    hide Fields, Latest;
  }

  lemma GetsReady(lib: Library, c: Config, id: bytes, config: bytes, pid: nat) returns (t: Sup)
    requires Introducible(c, id, config, pid)
    ensures Reached(lib, c, t, true) && Steady(c, t, 0)
    ensures t.gen.workerPid == Some(pid) && t.gen.workerConfig == config
  {
    hide OnFrame, Reached, HelloBody, Fields, Header;
    var s := Connects(lib, c, config, pid);
    assert |HelloBody(id, config, pid, c.otp, c.erts)| <= 138 by { HelloLength(c, id, config, pid); }
    var f := Frame(1, 1, 0, HelloBody(id, config, pid, c.otp, c.erts));
    FieldsOfRow(f);
    HelloLeads(lib, c, s, RowOf(f), id, config, pid);
    Delivered(lib, c, s, f, true);
    var s1 := OnFrame(lib, c, s, RowOf(f), 0.0).next;
    var g := Frame(2, 1, 0, []);
    FieldsOfRow(g);
    ReadyLeads(lib, c, s1, RowOf(g));
    Delivered(lib, c, s1, g, true);
    t := OnFrame(lib, c, s1, RowOf(g), 0.0).next;
  }

  lemma HelloLength(c: Config, id: bytes, config: bytes, pid: nat)
    requires Introducible(c, id, config, pid)
    ensures |HelloBody(id, config, pid, c.otp, c.erts)| <= 138
  {
  }

  /** The worker's process ends, and then its stream. */
  lemma Dies(lib: Library, c: Config, s: Sup, e: Evidence) returns (u: Sup)
    requires Reached(lib, c, s, false) && Calm(s)
    ensures Reached(lib, c, u, false) && u.live && Over(u.gen) && u.gen.evidence == Some(e)
    ensures u.gen == s.gen.(evidence := Some(e), eof := true) && u.(gen := s.gen) == s
  {
    hide Latest, Decide, Reached;
    Onward(lib, c, s, End(e), false);
    var s1 := LauncherSaysEnd(s, e);
    Onward(lib, c, s1, Eof, false);
    u := StreamEnds(s1);
  }

  /** A worker gets ready, answers n runs cleanly and dies without a stop reason. It is restarted, as any
      ready worker should be, exactly if n is at most 254: after more results the guard no longer finds
      the "ready" event, and the campaign ends. */
  lemma GuardForgets(lib: Library, c: Config, id: bytes, config: bytes, pid: nat, n: nat) returns (s: Sup)
    requires Usable(lib, c, id, config, pid, n) && c.restartBudget >= 1
    ensures Reached(lib, c, s, false) && !s.live && s.generation == 1 && s.settled == n
    ensures Readied in s.gen.word && Event(Ready, 1) in s.history
    ensures Decide(c, s) == if n <= 254 then Again else Stop(Plain(UnexpectedExit))
  {
    hide Reached, Inv, Steady, Conserved, LogSound, WordSound, StopsSound, WithinBudget;
    var s0 := GetsReady(lib, c, id, config, pid);
    ReachedSound(lib, c, s0, true);
    var s1 := CleanRounds(lib, c, s0, n);
    Still(c, s1, n);
    var u := Dies(lib, c, s1, ALL_WELL);
    ReachedSound(lib, c, u, false);
    GuardIsAWindow(c, u);
    Onward(lib, c, u, Leave, false);
    s := Ended(u).0;
    ReachedSound(lib, c, s, false);
    assert Event(Ready, 1) in s.history by { WasReady(c, s); }
  }

  lemma Still(c: Config, s: Sup, n: nat)
    requires Steady(c, s, n)
    ensures Calm(s) && s.generation == 1 && s.gen.state == READY && s.gen.pending.None?
    ensures s.gen.done.None? && s.gen.stop.None?
    ensures |s.history| == n + 2 && s.settled == n && s.gen.readyAt == Some(1)
  {
  }

  lemma WasReady(c: Config, s: Sup)
    requires Inv(c, s) && s.gen.readyAt.Some?
    ensures Event(Ready, s.generation) in s.history
  {
    hide Latest, Conserved, WordSound, StopsSound, WithinBudget;
  }

  // ----- killed by the launcher -----

  const LAUNCHER_KILLED := Evidence(-1, 9, true, true)

  /** A worker is given a run to execute, the launcher kills it of its own accord, and the run is blamed on a
      native crash. */
  lemma LauncherKillCalledNative(lib: Library, c: Config, id: bytes, config: bytes, pid: nat) returns (s: Sup)
    requires Usable(lib, c, id, config, pid, 1)
    ensures Reached(lib, c, s, false) && Can(c, s, Leave)
    ensures s.gen.pending.Some? && s.gen.stop.None? && s.gen.evidence == Some(LAUNCHER_KILLED)
    ensures var q := Asks(lib, c, s, Leave);
            && q.Settle? && q.key == s.gen.pending.value.key
            && q.result == TerminationResult(s.gen, LAUNCHER_KILLED)
            && q.result["classification"] == Text("native_vm_crash")
  {
    hide OnFrame, Reached, EmptyRun, Fields, Header, Inv, TerminationResult, Steady, Latest;
    var s0 := GetsReady(lib, c, id, config, pid);
    ReachedSound(lib, c, s0, true);
    Still(c, s0, 0);
    EmptyRunPasses(lib, c);
    var f := Frame(3, 1, 0, EmptyRun(lib, c));
    FieldsOfRow(f);
    PrepareLeads(lib, c, s0, 0, RowOf(f));
    Delivered(lib, c, s0, f, false);
    var s1 := OnFrame(lib, c, s0, RowOf(f), 0.0).next;
    s := Dies(lib, c, s1, LAUNCHER_KILLED);
    ReachedSound(lib, c, s, false);
    NativeVerdict(lib, c, s);
  }

  lemma NativeVerdict(lib: Library, c: Config, s: Sup)
    requires Inv(c, s) && Can(c, s, Leave) && s.gen.pending.Some? && s.gen.stop.None?
    requires s.gen.evidence == Some(LAUNCHER_KILLED)
    ensures var q := Asks(lib, c, s, Leave);
            && q.Settle? && q.key == s.gen.pending.value.key
            && q.result == TerminationResult(s.gen, LAUNCHER_KILLED)
            && "classification" in q.result && q.result["classification"] == Text("native_vm_crash")
  {
    hide Conserved, WithinBudget, StopsSound, WordSound, LogSound, Latest;
  }
}
