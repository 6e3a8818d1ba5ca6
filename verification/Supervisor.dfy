// The controller's per-generation state machine: what each block of the event loop does to it
// (priv/efz_external.py:334-589).
module Supervisor {
  import opened Bytes
  import opened Wire
  import opened Storage
  import opened Records
  import opened Wrappers

  /** The parameters of a campaign that the state machine looks at; times in seconds. */
  datatype Config = Config(
    campaign: string,
    identity: string,
    configIdentity: string,
    otp: bytes,
    erts: bytes,
    target: string,
    parent: int,
    controller: int,
    replay: bool,
    timeoutMs: nat,
    maxInput: nat,
    maxIterations: nat,
    supervisedRuns: nat,
    restartBudget: nat,
    journalBytes: nat,
    reproduceRuns: nat,
    startup: real,
    ipcGrace: real,
    memoryGrace: real,
    end: real)

  /** `options` keeps the input limit within MAX_INPUT. */
  predicate Bounded(c: Config) {
    c.maxInput <= MAX_INPUT
  }

  datatype State = STARTING | SETUP | READY | EXECUTING | RECYCLING | STOPPING

  function StateName(s: State): string {
    match s
    case STARTING => "STARTING"
    case SETUP => "SETUP"
    case READY => "READY"
    case EXECUTING => "EXECUTING"
    case RECYCLING => "RECYCLING"
    case STOPPING => "STOPPING"
  }

  datatype StopReason =
    | CampaignDeadline
    | WorkerHardTimeout
    | StartupOrIdleTimeout
    | WorkerProtocolFailure
    | SupervisorParentDeath
    | BudgetCompleted
    | DirtyRecycle

  function Name(r: StopReason): string {
    match r
    case CampaignDeadline => "campaign_deadline"
    case WorkerHardTimeout => "worker_hard_timeout"
    case StartupOrIdleTimeout => "startup_or_idle_timeout"
    case WorkerProtocolFailure => "worker_protocol_failure"
    case SupervisorParentDeath => "supervisor_parent_death"
    case BudgetCompleted => "budget_completed"
    case DirtyRecycle => "dirty_recycle"
  }

  datatype EventKind = Launched | Ready | ResultEvent | ProtocolErrorEvent | Terminated

  datatype Event = Event(kind: EventKind, generation: nat)

  /** The launcher's report on the worker's end. */
  datatype Evidence = Evidence(exitCode: int, signal: int, cleanupConfirmed: bool, launcherKill: bool)

  datatype Pending = Pending(key: Key, inputSha: string)

  /** What the accepted frames of a generation were, in order; a PREPARE is Admitted or Refused. */
  datatype Letter = Hello | Readied | Admitted | Refused | Clean | Dirty | Done

  /** One worker generation: the locals of `generation_run` and the fields it resets.
      word, readyAt and stopBytes only record what happened. */
  datatype Gen = Gen(
    state: State,
    stop: Option<StopReason>,
    done: Option<nat>,
    pending: Option<Pending>,
    deadline: real,
    killAfter: real,
    killAt: Option<real>,
    workerPid: Option<int>,
    peerPid: Option<int>,
    connected: bool,
    eof: bool,
    buffer: bytes,
    since: Option<real>,
    queue: seq<bytes>,
    evidence: Option<Evidence>,
    workerConfig: bytes,
    word: seq<Letter>,
    readyAt: Option<nat>,
    stopBytes: nat)

  /** The controller; settled and history only record what happened. */
  datatype Sup = Sup(
    generation: nat,
    live: bool,
    run: nat,
    mutations: nat,
    verifications: nat,
    settled: nat,
    findings: seq<Key>,
    quarantine: set<string>,
    events: seq<Event>,
    history: seq<Event>,
    gen: Gen)

  // ----- events -----

  const WINDOW := 256

  function Latest<T>(s: seq<T>): (r: seq<T>)
    ensures |r| <= WINDOW
  {
    if |s| <= WINDOW then s else s[|s| - WINDOW..]
  }

  function Logged(s: Sup, kind: EventKind): Sup {
    var e := Event(kind, s.generation);
    s.(events := Latest(s.events + [e]), history := s.history + [e])
  }

  // ----- frames -----

  datatype FrameError =
    | WrongGeneration
    | HandshakeIdentityOrVersion
    | OtpLength
    | ErtsOrPid
    | NotAscii
    | OtpErtsMismatch
    | PrepareLengths
    | RecipeStatus
    | RecipeEnvelope
    | PrepareSchema
    | ResultSchema
    | UnexpectedOrDuplicate

  /** What a frame asks of the journal. */
  datatype Request =
    | Nothing
    | Issue(key: Key, job: Job, digest: bytes)
    | Settle(key: Key, result: map<string, Value>)

  datatype Reaction = Rejected(error: FrameError) | Accepted(next: Sup, request: Request, reply: Frame)

  const MARKER: bytes := [69, 70, 90, 49]           // EFZ1
  const RECIPE_MARKER: bytes := [69, 70, 90, 82, 1] // EFZR, version 1

  function CheckHello(c: Config, g: Gen, body: bytes): Option<FrameError> {
    if |body| < 74 || body[..4] != MARKER || Hex(body[4..36]) != c.identity || body[36..68] != g.workerConfig
    then Some(HandshakeIdentityOrVersion) else
    var n := body[72] as nat;
    if n > 32 || |body| < 74 + n then Some(OtpLength) else
    var m := body[73 + n] as nat;
    if m > 32 || |body| != 74 + n + m || g.workerPid != Some(U32(body[68..72])) then Some(ErtsOrPid) else
    var otp, erts := body[73..73 + n], body[74 + n..];
    if exists i :: 0 <= i < |otp| && otp[i] >= 128 then Some(NotAscii)
    else if exists i :: 0 <= i < |erts| && erts[i] >= 128 then Some(NotAscii)
    else if otp != c.otp || erts != c.erts then Some(OtpErtsMismatch)
    else None
  }

  /** The fixed head of a PREPARE body and the two parts behind it. */
  datatype Prepare = Prepare(
    phase: nat,
    timeout: nat,
    digest: bytes,
    size: nat,
    recipeSize: nat,
    recipeStatus: nat,
    rest: bytes)

  function ParsePrepare(body: bytes): Prepare
    requires |body| >= 46
  {
    Prepare(body[0], U32(body[1..5]), body[5..37], U32(body[37..41]), U32(body[41..45]), body[45], body[46..])
  }

  function CheckPrepare(lib: Library, c: Config, p: Prepare): Option<FrameError> {
    if p.size > c.maxInput || p.recipeSize > 65536 || |p.rest| != p.size + p.recipeSize || p.recipeStatus > 2
    then Some(PrepareLengths) else
    var raw, recipe := p.rest[..p.size], p.rest[p.size..];
    if (recipe != []) != (p.recipeStatus == 1) then Some(RecipeStatus)
    else if recipe != [] && !RecipeSound(lib, recipe) then Some(RecipeEnvelope)
    else if !(1 <= p.phase <= 4) || p.timeout != c.timeoutMs || Hex(p.digest) != Digest(lib, raw)
    then Some(PrepareSchema)
    else None
  }

  predicate RecipeSound(lib: Library, r: bytes) {
    && |r| >= 43
    && r[..5] == RECIPE_MARKER
    && r[41..43] != [131, 80]
    && r[41] == 131
    && U32(r[5..9]) == |r| - 41
    && r[9..41] == lib.sha(r[41..])
  }

  function PhaseName(phase: nat): string {
    if phase == 1 then "calibration" else if phase == 2 then "mutation" else
    if phase == 3 then "verification" else "reproduction"
  }

  function RecipeStatusName(status: nat): string {
    if status == 0 then "not_available" else if status == 1 then "saved" else "metadata_limit"
  }

  function Ascii(b: bytes): string {
    seq(|b|, i requires 0 <= i < |b| => b[i] as char)
  }

  /** artifact.external.json */
  function MetaOf(c: Config, generation: nat, g: Gen, p: Prepare, id: nat): Value {
    Record(map[
      "format_version" := Number(1),
      "campaign_id" := Text(c.campaign),
      "run_id" := Number(id),
      "generation" := Number(generation),
      "phase" := Text(if c.replay then "reproduction" else PhaseName(p.phase)),
      "input_size" := Number(p.size),
      "input_sha256" := Text(Hex(p.digest)),
      "harness" := Text(c.target),
      "file_identity" := Text(c.identity),
      "config_identity" := Text(c.configIdentity),
      "otp" := Text(Ascii(c.otp)),
      "erts" := Text(Ascii(c.erts)),
      "timeout_ms" := Number(p.timeout),
      "worker_pid" := if g.workerPid.None? then Null else Number(g.workerPid.value),
      "supervisor_pid" := Number(c.controller),
      "launcher_parent_pid" := Number(c.parent),
      "worker_config_identity" := Text(Hex(g.workerConfig)),
      "max_input_bytes" := Number(c.maxInput),
      "recipe_status" := Text(RecipeStatusName(p.recipeStatus))])
  }

  /** Its fields. */
  const META_FIELDS := [
    "format_version", "campaign_id", "run_id", "generation", "phase", "input_size", "input_sha256", "harness",
    "file_identity", "config_identity", "otp", "erts", "timeout_ms", "worker_pid", "supervisor_pid",
    "launcher_parent_pid", "worker_config_identity", "max_input_bytes", "recipe_status"]

  function OutcomeName(n: nat): string {
    if n == 0 then "ok" else if n == 1 then "crash" else if n == 2 then "exit" else
    if n == 3 then "timeout" else "infrastructure"
  }

  function TimeoutClass(n: nat): Value {
    if n == 0 then Null else if n == 1 then Text("timeout_busy") else
    if n == 2 then Text("timeout_waiting") else Text("timeout_unknown")
  }

  function ResultOf(generation: nat, body: bytes, run: nat): map<string, Value>
    requires |body| == 4
  {
    map["classification" := Text(if body[2] != 0 then "dirty_recycle" else "execution_result"),
        "outcome" := Text(OutcomeName(body[0])),
        "target_outcome" := Text(OutcomeName(body[1])),
        "timeout_class" := TimeoutClass(body[3]),
        "run_id" := Number(run),
        "generation" := Number(generation),
        "runner_reusable" := Flag(body[2] == 0)]
  }

  function Reply(generation: nat, kind: nat, run: nat, payload: bytes): Frame {
    Frame(kind, generation, run, payload)
  }

  function Moved(s: Sup, state: State, letter: Letter): Sup {
    s.(gen := s.gen.(state := state, word := s.gen.word + [letter]))
  }

  function OnHello(c: Config, s: Sup, body: bytes): Reaction {
    var e := CheckHello(c, s.gen, body);
    if e.Some? then Rejected(e.value)
    else Accepted(Moved(s, SETUP, Hello), Nothing, Reply(s.generation, 11, 0, []))
  }

  function OnReady(c: Config, s: Sup, now: real): Reaction {
    var s1 := Moved(s, READY, Readied);
    var s2 := s1.(gen := s1.gen.(deadline := now + c.startup, readyAt := Some(|s.history|)));
    Accepted(Logged(s2, Ready), Nothing, Reply(s.generation, 11, 0, []))
  }

  function OnPrepare(lib: Library, c: Config, s: Sup, body: bytes, now: real): Reaction
    requires |body| >= 46
  {
    var p := ParsePrepare(body);
    var e := CheckPrepare(lib, c, p);
    if e.Some? then Rejected(e.value)
    else if s.run >= c.supervisedRuns || (p.phase == 2 && s.mutations >= c.maxIterations) then
      var s1 := Moved(s, READY, Refused);
      Accepted(s1.(gen := s1.gen.(stop := Some(BudgetCompleted))), Nothing, Reply(s.generation, 12, 0, []))
    else Admit(lib, c, s, p, now)
  }

  function Admit(lib: Library, c: Config, s: Sup, p: Prepare, now: real): Reaction
    requires CheckPrepare(lib, c, p) == None
  {
    var id := s.run + 1;
    var key := Key(c.campaign, id);
    var job := Job(p.rest[..p.size], MetaOf(c, s.generation, s.gen, p, id), p.rest[p.size..]);
    var s1 := Moved(s, EXECUTING, Admitted);
    var s2 := s1.(run := id,
                  mutations := s.mutations + (if p.phase == 2 then 1 else 0),
                  verifications := s.verifications + (if p.phase == 3 then 1 else 0),
                  gen := s1.gen.(pending := Some(Pending(key, Hex(p.digest))),
                                 deadline := now + p.timeout as real / 1000.0 + 1.0 + c.memoryGrace + c.ipcGrace));
    Accepted(s2, Issue(key, job, p.digest), Reply(s.generation, 10, id, p.digest))
  }

  function OnResult(c: Config, s: Sup, body: bytes, run: nat, now: real): Reaction
    requires |body| == 4 && s.gen.pending.Some?
  {
    if body[0] > 4 || body[1] > 4 || body[2] > 1 || body[3] > 3 then Rejected(ResultSchema) else
    var p := s.gen.pending.value;
    var dirty := body[2] != 0;
    var s1 := Logged(s.(settled := s.settled + 1), ResultEvent);
    var s2 := Moved(s1, if dirty then RECYCLING else READY, if dirty then Dirty else Clean);
    var g := s2.gen.(pending := None, deadline := now + c.startup);
    var s3 := if dirty
              then s2.(quarantine := s.quarantine + {p.inputSha},
                       gen := g.(stop := Some(DirtyRecycle), killAfter := now + 0.5))
              else s2.(gen := g);
    Accepted(s3, Settle(p.key, ResultOf(s.generation, body, run)), Reply(s.generation, 11, run, []))
  }

  function OnDone(s: Sup, body: bytes, now: real): Reaction
    requires |body| == 1
  {
    var s1 := Moved(s, STOPPING, Done);
    Accepted(s1.(gen := s1.gen.(done := Some(body[0]), deadline := now + 1.0)), Nothing, Reply(s.generation, 11, 0, []))
  }

  /** `frame`: the one place where a worker message changes the controller. */
  function OnFrame(lib: Library, c: Config, s: Sup, row: bytes, now: real): Reaction
    requires |row| >= 13
    requires s.gen.state == EXECUTING ==> s.gen.pending.Some?
  {
    var f := Fields(row);
    if f.generation != s.generation then Rejected(WrongGeneration)
    else if f.kind == 1 && s.gen.state == STARTING && f.run == 0 then OnHello(c, s, f.payload)
    else if f.kind == 2 && s.gen.state == SETUP && f.run == 0 && f.payload == [] then OnReady(c, s, now)
    else if f.kind == 3 && s.gen.state == READY && f.run == 0 && |f.payload| >= 46
    then OnPrepare(lib, c, s, f.payload, now)
    else if f.kind == 4 && s.gen.state == EXECUTING && f.run == s.run && |f.payload| == 4
    then OnResult(c, s, f.payload, f.run, now)
    else if f.kind == 5 && s.gen.state in {READY, SETUP, RECYCLING} && f.run == 0 && |f.payload| == 1
         && f.payload[0] <= 2
    then OnDone(s, f.payload, now)
    else Rejected(UnexpectedOrDuplicate)
  }

  // ----- the other blocks of the loop -----

  function StopFor(g: Gen, r: StopReason): Gen {
    if g.stop.None? then g.(stop := Some(r)) else g
  }

  /** The stop reason once the deadlines have been looked at, in this order; an earlier reason stays. */
  function Late(c: Config, g: Gen, now: real): Option<StopReason> {
    var s1 := if now >= c.end && g.stop.None? then Some(CampaignDeadline) else g.stop;
    var s2 := if now >= g.deadline && s1.None?
              then Some(if g.state == EXECUTING then WorkerHardTimeout else StartupOrIdleTimeout)
              else s1;
    if g.since.Some? && now - g.since.value > 1.0 && s2.None? then Some(WorkerProtocolFailure) else s2
  }

  /** The deadlines, and the stop byte they lead to. */
  function Timers(c: Config, s: Sup, now: real): Sup {
    var g := s.gen.(stop := Late(c, s.gen, now));
    s.(gen := if g.stop.Some? && g.killAt.None? && now >= g.killAfter
              then g.(stopBytes := g.stopBytes + 1, killAt := Some(now))
              else g)
  }

  function ParentGone(s: Sup): Sup {
    s.(gen := s.gen.(stop := Some(SupervisorParentDeath), stopBytes := s.gen.stopBytes + 1))
  }

  function Connected(s: Sup, pid: int): Sup {
    s.(gen := s.gen.(connected := true, peerPid := Some(pid)))
  }

  function LauncherSaysPid(s: Sup, pid: int): Sup {
    Logged(s.(gen := s.gen.(workerPid := Some(pid))), Launched)
  }

  function LauncherSaysEnd(s: Sup, e: Evidence): Sup {
    s.(gen := s.gen.(evidence := Some(e)))
  }

  function StreamEnds(s: Sup): Sup {
    var g := s.gen.(eof := true);
    s.(gen := if g.buffer != [] then StopFor(g, WorkerProtocolFailure) else g)
  }

  function Misbehaved(s: Sup): Sup {
    var s1 := Logged(s, ProtocolErrorEvent);
    s1.(gen := s1.gen.(stop := Some(WorkerProtocolFailure), queue := []))
  }

  function Received(s: Sup, data: bytes, now: real): Sup {
    var (r, buffer) := Fed(s.gen.buffer, data);
    match r
    case Err(_) => Misbehaved(s.(gen := s.gen.(buffer := buffer)))
    case Ok(rows) =>
      var since := if buffer == [] then None else if s.gen.since.Some? then s.gen.since else Some(now);
      s.(gen := s.gen.(buffer := buffer, since := since, queue := rows))
  }

  predicate Listening(g: Gen) {
    g.stop.None? || g.stop == Some(DirtyRecycle)
  }

  /** One decoded row: peer check, then `frame` unless the generation is already being stopped. */
  function OnRow(lib: Library, c: Config, s: Sup, now: real): (Sup, Request, Option<Frame>)
    requires s.gen.queue != [] && |s.gen.queue[0]| >= 13
    requires s.gen.state == EXECUTING ==> s.gen.pending.Some?
  {
    var g := s.gen;
    var s1 := s.(gen := g.(queue := g.queue[1..]));
    if g.workerPid.None? || g.peerPid != g.workerPid then (Misbehaved(s1), Nothing, None)
    else if !Listening(g) then (s1, Nothing, None)
    else match OnFrame(lib, c, s1, g.queue[0], now)
      case Rejected(_) => (Misbehaved(s1), Nothing, None)
      case Accepted(s2, request, reply) => (s2, request, Some(reply))
  }

  // ----- the end of a generation -----

  function Classification(g: Gen, e: Evidence): string {
    match g.stop
    case Some(r) => Name(r)
    case None => if e.signal != 0 then "native_vm_crash" else "worker_unexpected_exit"
  }

  function TerminationResult(g: Gen, e: Evidence): map<string, Value> {
    map["classification" := Text(Classification(g, e)),
        "termination" := Record(map["exit_code" := Number(e.exitCode), "signal" := Number(e.signal),
                                    "cleanup_confirmed" := Flag(e.cleanupConfirmed),
                                    "launcher_kill" := Flag(e.launcherKill)]),
        "initiated_by" := if g.stop.None? then Null else Text(Name(g.stop.value)),
        "state" := Text(StateName(g.state)),
        "execution_proven" := Flag(false),
        "attribution" := Text("VM termination associated with authorized run; root cause unproven")]
  }

  /** The loop's way out: wait status and end of stream both seen. */
  predicate Over(g: Gen) {
    g.evidence.Some? && (g.eof || !g.connected) && g.queue == []
  }

  function Ended(s: Sup): (Sup, Request)
    requires Over(s.gen)
  {
    var e := s.gen.evidence.value;
    var s1 := Logged(s, Terminated).(live := false);
    match s.gen.pending
    case None => (s1, Nothing)
    case Some(p) =>
      (s1.(findings := s.findings + [p.key], quarantine := s.quarantine + {p.inputSha},
           gen := s1.gen.(pending := None)),
       Settle(p.key, TerminationResult(s.gen, e)))
  }

  datatype Status = Because(reason: StopReason) | Completed | UnexpectedExit

  function StatusOf(g: Gen): Status {
    match g.stop
    case Some(r) => Because(r)
    case None => if g.done == Some(0) then Completed else UnexpectedExit
  }

  /** What the worker is told it may still mutate. */
  function Grant(c: Config, s: Sup): nat {
    if c.maxIterations >= s.mutations then c.maxIterations - s.mutations else 0
  }

  function FreshGen(c: Config, peer: Option<int>, config: bytes, now: real): Gen {
    Gen(STARTING, None, None, None, now + c.startup, 0.0, None, None, peer, false, false, [], None, [], None,
        config, [], None, 0)
  }

  function NextGeneration(c: Config, s: Sup, config: bytes, now: real): Sup {
    s.(generation := s.generation + 1, live := true, gen := FreshGen(c, s.gen.peerPid, config, now))
  }

  function Initial(c: Config): Sup {
    Sup(0, false, 0, 0, 0, 0, [], {}, [], [], FreshGen(c, None, [], 0.0))
  }
}
