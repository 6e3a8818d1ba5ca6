// What a campaign has counted, logged, quarantined and put on record, read off its blocks
// (priv/efz_external.py:334-336, 407-455, 582-588).
module Bookkeeping {
  import opened Bytes
  import opened Wire
  import opened Storage
  import opened Records
  import opened Supervisor
  import opened Lifecycle
  import opened Messages
  import opened WorkerRows
  import opened Causes
  import opened Stopping
  import opened Wrappers

  // ----- counters -----

  /** A row that was answered with a permission. */
  predicate Permits(lib: Library, c: Config, s: Sup, b: Block) {
    b.Row? && Says(lib, c, s, b).Some? && Says(lib, c, s, b).value.kind == 10
  }

  /** How many permissions there were before i. */
  function Permissions(lib: Library, c: Config, states: seq<Sup>, blocks: seq<Block>, i: nat): nat
    requires i <= |blocks| <= |states|
  {
    if i == 0 then 0 else
    Permissions(lib, c, states, blocks, i - 1) + if Permits(lib, c, states[i - 1], blocks[i - 1]) then 1 else 0
  }

  /** ... for PREPAREs whose first byte was this phase. */
  function PermissionsOf(lib: Library, c: Config, states: seq<Sup>, blocks: seq<Block>, i: nat, phase: nat): nat
    requires i <= |blocks| <= |states|
  {
    if i == 0 then 0 else
    PermissionsOf(lib, c, states, blocks, i - 1, phase)
    + if Permits(lib, c, states[i - 1], blocks[i - 1]) && Phased(Said(states[i - 1]), phase) then 1 else 0
  }

  predicate Counted(lib: Library, c: Config, s: Sup, b: Block, t: Sup) {
    && t.run == s.run + (if Permits(lib, c, s, b) then 1 else 0)
    && t.mutations == s.mutations + (if Permits(lib, c, s, b) && Phased(Said(s), 2) then 1 else 0)
    && t.verifications == s.verifications + (if Permits(lib, c, s, b) && Phased(Said(s), 3) then 1 else 0)
  }

  lemma BlockCounts(lib: Library, c: Config, s: Sup, b: Block)
    requires Inv(c, s) && Can(c, s, b)
    ensures Shaped(s) && Counted(lib, c, s, b, After(lib, c, s, b).0)
  {
    hide Conserved, WithinBudget, StopsSound, WordSound, LogSound, Latest, Decide, OnRow, Timers, Received;
    if b.Row? {
      RowCounts(lib, c, s, b);
    } else if b.Tick? || b.Data? {
      WatchQuiet(lib, c, s, b);
    }
  }

  lemma RowCounts(lib: Library, c: Config, s: Sup, b: Block)
    requires Inv(c, s) && Can(c, s, b) && b.Row?
    ensures Shaped(s) && Counted(lib, c, s, b, After(lib, c, s, b).0)
  {
    hide Conserved, WithinBudget, StopsSound, WordSound, LogSound, Latest, Decide, OnRow, Fit, GenWritten, GenKept;
    hide PendingWritten, Requested, Said, Skipped, Hears;
    RowExactly(lib, c, s, b.now);
  }

  /** The counters are the numbers of permissions so far: all of them, those of mutations, those of
      verifications. */
  lemma {:induction false} CountersExactly(lib: Library, c: Config, states: seq<Sup>, blocks: seq<Block>, i: nat)
    requires Campaign(lib, c, states, blocks) && i <= |blocks| <= |states|
    ensures states[i].run == Permissions(lib, c, states, blocks, i)
    ensures states[i].mutations == PermissionsOf(lib, c, states, blocks, i, 2)
    ensures states[i].verifications == PermissionsOf(lib, c, states, blocks, i, 3)
  {
    hide Inv, Can, After, Shaped, Stepped, Permits, Phased;
    if i > 0 {
      CountersExactly(lib, c, states, blocks, i - 1);
      StepAt(lib, c, states, blocks, i - 1);
      BlockCounts(lib, c, states[i - 1], blocks[i - 1]);
    }
  }

  /** A sound PREPARE is refused exactly if the permissions so far have reached the number of supervised runs, or it
      is for a mutation and those of mutations have reached theirs; otherwise it is permitted. */
  lemma RefusalExactly(lib: Library, c: Config, states: seq<Sup>, blocks: seq<Block>, i: nat)
    requires Campaign(lib, c, states, blocks) && i < |blocks| <= |states| && blocks[i].Row?
    requires Hears(states[i].gen) && Said(states[i]).kind == 3 && Fit(lib, c, states[i], Said(states[i]))
    ensures var (reply, mutation) := (Says(lib, c, states[i], blocks[i]), Phased(Said(states[i]), 2));
            && reply.Some? && reply.value.kind in {10, 12}
            && (reply.value.kind == 12
                <==> || Permissions(lib, c, states, blocks, i) >= c.supervisedRuns
                     || (mutation && PermissionsOf(lib, c, states, blocks, i, 2) >= c.maxIterations))
  {
    hide Campaign, Conserved, WithinBudget, StopsSound, WordSound, LogSound, After, Stepped, Phased, Hears, Fit, Said;
    hide GenWritten, GenKept, SupWritten, PendingWritten, Requested, Decide, Shaped;
    StepAt(lib, c, states, blocks, i);
    CountersExactly(lib, c, states, blocks, i);
    RowExactly(lib, c, states[i], blocks[i].now);
    SaidLater(states[i]);
  }

  lemma SaidLater(s: Sup)
    ensures Unqueued(s).run == s.run && Unqueued(s).mutations == s.mutations
  {
  }

  // ----- generations and the log -----

  function Generations(blocks: seq<Block>, i: nat): nat
    requires i <= |blocks|
  {
    if i == 0 then 0 else Generations(blocks, i - 1) + if blocks[i - 1].Next? then 1 else 0
  }

  /** The event a block logs. */
  function Logs(lib: Library, c: Config, s: Sup, b: Block): Option<EventKind> {
    match b
    case Pid(_) => Some(Launched)
    case Leave => Some(Terminated)
    case Data(_, _) => if Misbehaves(lib, c, s, b) then Some(ProtocolErrorEvent) else None
    case Row(_) =>
      if Misbehaves(lib, c, s, b) then Some(ProtocolErrorEvent)
      else (match Took(lib, c, s, b)
            case Some(Readied) => Some(Ready)
            case Some(Clean) => Some(ResultEvent)
            case Some(Dirty) => Some(ResultEvent)
            case _ => None)
    case _ => None
  }

  predicate Noted(lib: Library, c: Config, s: Sup, b: Block, t: Sup) {
    && t.generation == s.generation + (if b.Next? then 1 else 0)
    && t.live == (b.Next? || (s.live && !b.Leave?))
    && t.history == s.history + (match Logs(lib, c, s, b)
                                 case Some(kind) => [Event(kind, s.generation)]
                                 case None => [])
    && t.findings == s.findings + (if b.Leave? && s.gen.pending.Some? then [s.gen.pending.value.key] else [])
    && t.quarantine == s.quarantine + (if s.gen.pending.Some? && (b.Leave? || Took(lib, c, s, b) == Some(Dirty))
                                       then {s.gen.pending.value.inputSha} else {})
  }

  lemma WatchNotes(lib: Library, c: Config, s: Sup, b: Block)
    requires Shaped(s) && Can(c, s, b) && !b.Row?
    ensures Noted(lib, c, s, b, After(lib, c, s, b).0)
  {
    hide Fed, OnRow, Latest, Decide, Late, TerminationResult, Skipped;
  }

  lemma RowNotes(lib: Library, c: Config, s: Sup, b: Block)
    requires Inv(c, s) && Can(c, s, b) && b.Row?
    ensures Shaped(s) && Noted(lib, c, s, b, After(lib, c, s, b).0)
  {
    hide Conserved, WithinBudget, StopsSound, WordSound, LogSound, Latest, Decide, OnRow, Fit, GenWritten, GenKept;
    hide PendingWritten, Requested, Said, Skipped, Hears, LetterOf, Replied;
    RowExactly(lib, c, s, b.now);
  }

  lemma BlockNotes(lib: Library, c: Config, s: Sup, b: Block)
    requires Inv(c, s) && Can(c, s, b)
    ensures Shaped(s) && Noted(lib, c, s, b, After(lib, c, s, b).0)
  {
    hide Conserved, WithinBudget, StopsSound, WordSound, LogSound, After, Can, Noted, Shaped;
    if b.Row? {
      RowNotes(lib, c, s, b);
    } else {
      WatchNotes(lib, c, s, b);
    }
  }

  /** The worker launched at k has not been left by i. */
  predicate Aboard(blocks: seq<Block>, k: int, i: int) {
    && 0 <= k < i <= |blocks| && blocks[k].Next?
    && forall m :: k < m < i ==> !blocks[m].Next? && !blocks[m].Leave?
  }

  /** A worker is there exactly if one was launched and has not been left. */
  lemma {:induction false} LiveExactly(lib: Library, c: Config, states: seq<Sup>, blocks: seq<Block>, i: nat)
    requires Campaign(lib, c, states, blocks) && i <= |blocks| <= |states|
    ensures states[i].live <==> exists k :: Aboard(blocks, k, i)
  {
    hide Inv, Can, After, Shaped, Stepped, Logs, Took;
    if i > 0 {
      var n := i - 1;
      LiveExactly(lib, c, states, blocks, n);
      StepAt(lib, c, states, blocks, n);
      BlockNotes(lib, c, states[n], blocks[n]);
      if blocks[n].Next? {
        assert Aboard(blocks, n, i);
      }
      assert forall k :: k < n && Aboard(blocks, k, i) ==> Aboard(blocks, k, n);
      assert forall k :: Aboard(blocks, k, n) && !blocks[n].Next? && !blocks[n].Leave? ==> Aboard(blocks, k, i);
    }
  }

  /** All events of a campaign, each with the generation it was logged in. */
  function LogOf(lib: Library, c: Config, states: seq<Sup>, blocks: seq<Block>, i: nat): seq<Event>
    requires i <= |blocks| <= |states|
  {
    if i == 0 then [] else
    LogOf(lib, c, states, blocks, i - 1)
    + match Logs(lib, c, states[i - 1], blocks[i - 1])
      case Some(kind) => [Event(kind, Generations(blocks, i - 1))]
      case None => []
  }

  /** The generation is the number of launches, and the events kept are the last 256 of all there were. */
  lemma LogExactly(lib: Library, c: Config, states: seq<Sup>, blocks: seq<Block>, i: nat)
    requires Campaign(lib, c, states, blocks) && i <= |blocks| <= |states|
    ensures states[i].generation == Generations(blocks, i)
    ensures states[i].history == LogOf(lib, c, states, blocks, i)
    ensures var log := LogOf(lib, c, states, blocks, i);
            states[i].events == if |log| <= 256 then log else log[|log| - 256..]
  {
    hide Conserved, WithinBudget, StopsSound, WordSound, Shaped, Campaign, LogOf;
    Lengths(lib, c, states, blocks);
    CampaignInv(lib, c, states, blocks, i);
    AllLogged(lib, c, states, blocks, i);
  }

  lemma {:induction false} AllLogged(lib: Library, c: Config, states: seq<Sup>, blocks: seq<Block>, i: nat)
    requires Campaign(lib, c, states, blocks) && i <= |blocks| <= |states|
    ensures states[i].generation == Generations(blocks, i)
    ensures states[i].history == LogOf(lib, c, states, blocks, i)
  {
    hide Inv, Can, After, Shaped, Stepped, Logs;
    if i > 0 {
      AllLogged(lib, c, states, blocks, i - 1);
      StepAt(lib, c, states, blocks, i - 1);
      BlockNotes(lib, c, states[i - 1], blocks[i - 1]);
    }
  }

  // ----- the run in flight -----

  /** The run in flight is the last one permitted, until it is given a verdict. */
  predicate Pends(lib: Library, c: Config, s: Sup, b: Block, t: Sup) {
    t.gen.pending ==
    if Permits(lib, c, s, b)
    then var reply := Says(lib, c, s, b).value; Some(Pending(Key(c.campaign, reply.run), Hex(reply.payload)))
    else if b.Next? || Asks(lib, c, s, b).Settle? then None
    else s.gen.pending
  }

  lemma RowPends(lib: Library, c: Config, s: Sup, b: Block)
    requires Inv(c, s) && Can(c, s, b) && b.Row?
    ensures Shaped(s) && Pends(lib, c, s, b, After(lib, c, s, b).0)
    ensures Permits(lib, c, s, b) <==> Asks(lib, c, s, b).Issue?
  {
    hide Conserved, WithinBudget, StopsSound, WordSound, LogSound, Latest, Decide, OnRow, Fit, GenWritten, GenKept;
    hide SupWritten, AnswerRecorded, Said, Skipped, Hears, Hex;
    RowExactly(lib, c, s, b.now);
  }

  lemma BlockPends(lib: Library, c: Config, s: Sup, b: Block)
    requires Inv(c, s) && Can(c, s, b)
    ensures Shaped(s) && Pends(lib, c, s, b, After(lib, c, s, b).0)
  {
    hide Conserved, WithinBudget, StopsSound, WordSound, LogSound, Latest, Decide, OnRow, Timers, Received;
    hide TerminationResult, Hex;
    if b.Row? {
      RowPends(lib, c, s, b);
    } else if b.Tick? || b.Data? {
      WatchQuiet(lib, c, s, b);
    }
  }

  /** Permitted at p and without a verdict up to i. */
  predicate Flies(lib: Library, c: Config, states: seq<Sup>, blocks: seq<Block>, p: int, i: int) {
    && 0 <= p < i <= |blocks| <= |states| && Permits(lib, c, states[p], blocks[p])
    && forall m :: p < m < i ==> !blocks[m].Next? && !Asks(lib, c, states[m], blocks[m]).Settle?
                                 && !Permits(lib, c, states[m], blocks[m])
  }

  lemma {:induction false} PendingStands(lib: Library, c: Config, states: seq<Sup>, blocks: seq<Block>, p: nat, i: nat)
    requires Campaign(lib, c, states, blocks) && Flies(lib, c, states, blocks, p, i)
    ensures Says(lib, c, states[p], blocks[p]).Some?
    ensures var reply := Says(lib, c, states[p], blocks[p]).value;
            states[i].gen.pending == Some(Pending(Key(c.campaign, reply.run), Hex(reply.payload)))
    decreases i
  {
    hide Inv, Can, After, Shaped, Stepped, Asks, Says, Hex;
    StepAt(lib, c, states, blocks, i - 1);
    BlockPends(lib, c, states[i - 1], blocks[i - 1]);
    if p < i - 1 {
      PendingStands(lib, c, states, blocks, p, i - 1);
    }
  }

  lemma {:induction false} PendingFrom(lib: Library, c: Config, states: seq<Sup>, blocks: seq<Block>, i: nat)
      returns (p: nat)
    requires Campaign(lib, c, states, blocks) && i <= |blocks| <= |states| && states[i].gen.pending.Some?
    ensures Flies(lib, c, states, blocks, p, i)
  {
    hide Inv, Can, After, Shaped, Stepped, Asks, Says, Hex, Permits;
    if i == 0 {
      NonePending(c);
      assert false;
    } else {
      StepAt(lib, c, states, blocks, i - 1);
      BlockPends(lib, c, states[i - 1], blocks[i - 1]);
      if Permits(lib, c, states[i - 1], blocks[i - 1]) {
        p := i - 1;
      } else {
        p := PendingFrom(lib, c, states, blocks, i - 1);
      }
    }
  }

  lemma NonePending(c: Config)
    ensures Initial(c).gen.pending.None? && Initial(c).quarantine == {}
  {
  }

  // ----- quarantine -----

  /** The input permitted at p, of this digest, was lost or left its worker dirty at k. */
  predicate Spoils(lib: Library, c: Config, states: seq<Sup>, blocks: seq<Block>, p: int, k: int, x: string) {
    && k < |blocks| && Flies(lib, c, states, blocks, p, k)
    && (blocks[k].Leave? || Took(lib, c, states[k], blocks[k]) == Some(Dirty))
    && x == Hex(Says(lib, c, states[p], blocks[p]).value.payload)
  }

  /** The inputs in quarantine are exactly those whose run never answered, or answered that it left its worker
      dirty. */
  lemma {:induction false} QuarantineExactly(lib: Library, c: Config, states: seq<Sup>, blocks: seq<Block>, i: nat,
                                             x: string)
    requires Campaign(lib, c, states, blocks) && i <= |blocks| <= |states|
    ensures x in states[i].quarantine <==> exists p, k :: k < i && Spoils(lib, c, states, blocks, p, k, x)
  {
    hide Inv, Can, After, Shaped, Stepped, Asks, Says, Hex, Permits, Flies, Took;
    if i == 0 {
      NonePending(c);
      forall p, k | k < 0 ensures !Spoils(lib, c, states, blocks, p, k, x) {
        SpoilIndex(lib, c, states, blocks, p, k, x);
      }
    } else {
      var n := i - 1;
      QuarantineExactly(lib, c, states, blocks, n, x);
      StepAt(lib, c, states, blocks, n);
      BlockNotes(lib, c, states[n], blocks[n]);
      if x in states[i].quarantine && x !in states[n].quarantine {
        var p := PendingFrom(lib, c, states, blocks, n);
        PendingStands(lib, c, states, blocks, p, n);
        assert Spoils(lib, c, states, blocks, p, n, x);
      }
      if p, k :| k < i && Spoils(lib, c, states, blocks, p, k, x) {
        if k == n {
          SpoilIndex(lib, c, states, blocks, p, k, x);
          PendingStands(lib, c, states, blocks, p, n);
        }
      }
    }
  }

  lemma SpoilIndex(lib: Library, c: Config, states: seq<Sup>, blocks: seq<Block>, p: int, k: int, x: string)
    ensures Spoils(lib, c, states, blocks, p, k, x) ==> 0 <= p < k
  {
    hide Permits, Asks, Hex, Says, Took;
  }

  // ----- the record of a permitted run -----

  const PHASES := ["", "calibration", "mutation", "verification", "reproduction"]
  const RECIPE_STATUSES := ["not_available", "saved", "metadata_limit"]

  predicate Tells(m: map<string, Value>, key: string, v: Value) {
    key in m && m[key] == v
  }

  /** What the metadata says of the run ... */
  predicate TellsRun(lib: Library, c: Config, s: Sup, run: nat, raw: bytes, m: map<string, Value>) {
    && Tells(m, "format_version", Number(1)) && Tells(m, "campaign_id", Text(c.campaign))
    && Tells(m, "run_id", Number(run)) && Tells(m, "generation", Number(s.generation))
    && Tells(m, "input_size", Number(|raw|)) && Tells(m, "input_sha256", Text(Hex(lib.sha(raw))))
    && Tells(m, "timeout_ms", Number(c.timeoutMs)) && Tells(m, "max_input_bytes", Number(c.maxInput))
  }

  /** ... of its purpose and recipe ... */
  predicate TellsPhase(c: Config, phase: byte, status: byte, m: map<string, Value>) {
    && 1 <= phase <= 4 && status <= 2
    && Tells(m, "phase", Text(if c.replay then "reproduction" else PHASES[phase]))
    && Tells(m, "recipe_status", Text(RECIPE_STATUSES[status]))
  }

  /** ... of its worker, this build and this campaign ... */
  predicate TellsWorker(c: Config, s: Sup, m: map<string, Value>) {
    && Tells(m, "harness", Text(c.target)) && Tells(m, "file_identity", Text(c.identity))
    && Tells(m, "config_identity", Text(c.configIdentity))
    && Tells(m, "otp", Text(Ascii(c.otp))) && Tells(m, "erts", Text(Ascii(c.erts)))
    && s.gen.workerPid.Some? && Tells(m, "worker_pid", Number(s.gen.workerPid.value))
    && Tells(m, "supervisor_pid", Number(c.controller)) && Tells(m, "launcher_parent_pid", Number(c.parent))
    && Tells(m, "worker_config_identity", Text(Hex(s.gen.workerConfig)))
  }

  /** ... and nothing else. */
  predicate Described(lib: Library, c: Config, s: Sup, run: nat, phase: byte, raw: bytes, status: byte,
                      m: map<string, Value>) {
    && TellsRun(lib, c, s, run, raw, m) && TellsPhase(c, phase, status, m) && TellsWorker(c, s, m)
    && forall key :: key in m ==> key in META_FIELDS
  }

  /** The run handed to the journal is the input and the recipe of this PREPARE, and its metadata describes it. */
  predicate Filed(lib: Library, c: Config, s: Sup, body: bytes, phase: byte, raw: bytes, recipe: bytes, status: byte,
                  q: Request) {
    && q.Issue? && Proposes(lib, c, body, phase, raw, recipe, status)
    && q.job.raw == raw && q.job.recipe == recipe && q.digest == lib.sha(raw)
    && q.job.meta.Record? && Described(lib, c, s, s.run + 1, phase, raw, status, q.job.meta.fields)
  }

  lemma MetaDescribes(lib: Library, c: Config, s: Sup, p: Prepare, raw: bytes)
    requires 1 <= p.phase <= 4 && p.recipeStatus <= 2 && s.gen.workerPid.Some?
    requires p.timeout == c.timeoutMs && p.size == |raw| && Hex(p.digest) == Hex(lib.sha(raw))
    ensures Described(lib, c, s, s.run + 1, p.phase, raw, p.recipeStatus,
                      MetaOf(c, s.generation, s.gen, p, s.run + 1).fields)
  {
    hide MetaOf, TellsRun, TellsPhase, TellsWorker;
    MetaTellsRun(lib, c, s, p, raw);
    MetaTellsPhase(c, s, p);
    MetaTellsWorker(c, s, p);
    MetaTellsAll(c, s, p);
  }

  lemma MetaTellsRun(lib: Library, c: Config, s: Sup, p: Prepare, raw: bytes)
    requires p.timeout == c.timeoutMs && p.size == |raw| && Hex(p.digest) == Hex(lib.sha(raw))
    ensures TellsRun(lib, c, s, s.run + 1, raw, MetaOf(c, s.generation, s.gen, p, s.run + 1).fields)
  {
    hide Hex, Ascii, PhaseName, RecipeStatusName;
  }

  lemma MetaTellsPhase(c: Config, s: Sup, p: Prepare)
    requires 1 <= p.phase <= 4 && p.recipeStatus <= 2
    ensures TellsPhase(c, p.phase, p.recipeStatus, MetaOf(c, s.generation, s.gen, p, s.run + 1).fields)
  {
    PhaseIs(p.phase);
    StatusIs(p.recipeStatus);
    hide Hex, Ascii, PhaseName, RecipeStatusName;
  }

  lemma MetaTellsWorker(c: Config, s: Sup, p: Prepare)
    requires s.gen.workerPid.Some?
    ensures TellsWorker(c, s, MetaOf(c, s.generation, s.gen, p, s.run + 1).fields)
  {
    hide Hex, Ascii, PhaseName, RecipeStatusName;
  }

  lemma MetaTellsAll(c: Config, s: Sup, p: Prepare)
    ensures forall key :: key in MetaOf(c, s.generation, s.gen, p, s.run + 1).fields ==> key in META_FIELDS
  {
    hide Hex, Ascii, PhaseName, RecipeStatusName;
  }

  lemma PhaseIs(phase: nat)
    requires 1 <= phase <= 4
    ensures PhaseName(phase) == PHASES[phase]
  {
  }

  lemma StatusIs(status: nat)
    requires status <= 2
    ensures RecipeStatusName(status) == RECIPE_STATUSES[status]
  {
  }

  lemma AdmissionFiles(lib: Library, c: Config, s: Sup, body: bytes, now: real)
    requires |body| >= 46 && s.gen.workerPid.Some? && OnPrepare(lib, c, s, body, now).Accepted?
    requires OnPrepare(lib, c, s, body, now).request.Issue?
    ensures exists phase, raw, recipe, status ::
              Filed(lib, c, s, body, phase, raw, recipe, status, OnPrepare(lib, c, s, body, now).request)
  {
    hide CheckPrepare, Hex, Described, MetaOf, Proposes, RecipeSound, ParsePrepare;
    var p := ParsePrepare(body);
    PrepareProposes(lib, c, body);
    var raw, recipe := p.rest[..p.size], p.rest[p.size..];
    ProposedParts(lib, c, body, raw, recipe);
    MetaDescribes(lib, c, s, p, raw);
    MetaNames(c, s.generation, s.gen, p, s.run + 1);
    assert Filed(lib, c, s, body, body[0], raw, recipe, body[45], OnPrepare(lib, c, s, body, now).request);
  }

  lemma ProposedParts(lib: Library, c: Config, body: bytes, raw: bytes, recipe: bytes)
    requires |body| >= 46 && Proposes(lib, c, body, body[0], raw, recipe, body[45])
    ensures var p := ParsePrepare(body);
            1 <= p.phase <= 4 && p.recipeStatus <= 2 && p.timeout == c.timeoutMs && p.size == |raw|
            && p.digest == lib.sha(raw) && p.phase == body[0] && p.recipeStatus == body[45]
  {
    hide PrepareBody, RecipeSound, ParsePrepare;
    PrepareParts(lib, c, body, body[0], raw, recipe, body[45]);
  }

  /** At every permission of every campaign: what is handed to the journal is the very input and recipe of the
      PREPARE, under metadata that describe the run, the worker and the build. */
  lemma JobExactly(lib: Library, c: Config, states: seq<Sup>, blocks: seq<Block>, i: nat)
    requires Campaign(lib, c, states, blocks) && i < |blocks| <= |states|
    requires Asks(lib, c, states[i], blocks[i]).Issue?
    ensures blocks[i].Row? && |Said(states[i]).payload| >= 46
    ensures exists phase, raw, recipe, status ::
              Filed(lib, c, states[i], Said(states[i]).payload, phase, raw, recipe, status,
                    Asks(lib, c, states[i], blocks[i]))
  {
    hide Inv, After, Can, Shaped, Filed;
    StepAt(lib, c, states, blocks, i);
    RowFiles(lib, c, states[i], blocks[i]);
  }

  lemma RowFiles(lib: Library, c: Config, s: Sup, b: Block)
    requires Inv(c, s) && Can(c, s, b) && Asks(lib, c, s, b).Issue?
    ensures b.Row? && |Said(s).payload| >= 46
    ensures exists phase, raw, recipe, status :: Filed(lib, c, s, Said(s).payload, phase, raw, recipe, status,
                                                       Asks(lib, c, s, b))
  {
    hide Conserved, WithinBudget, StopsSound, WordSound, LogSound, OnHello, OnReady, OnPrepare, OnResult, OnDone;
    hide Filed, Fields, Decide, Latest;
    OnlyRowsAsk(lib, c, s, b);
    assert FrameLen(|s.gen.queue[0]|);
    var s1, f := Unqueued(s), Said(s);
    OthersIssueNothing(c, s1, f, b.now);
    AdmissionFiles(lib, c, s1, f.payload, b.now);
    var phase, raw, recipe, status :|
      Filed(lib, c, s1, f.payload, phase, raw, recipe, status, OnPrepare(lib, c, s1, f.payload, b.now).request);
    FiledLater(lib, c, s, f.payload, phase, raw, recipe, status, OnPrepare(lib, c, s1, f.payload, b.now).request);
  }

  lemma FiledLater(lib: Library, c: Config, s: Sup, body: bytes, phase: byte, raw: bytes, recipe: bytes, status: byte,
                   q: Request)
    requires Filed(lib, c, Unqueued(s), body, phase, raw, recipe, status, q)
    ensures Filed(lib, c, s, body, phase, raw, recipe, status, q)
  {
    hide Proposes, Hex, Tells;
  }

  lemma OthersIssueNothing(c: Config, s: Sup, f: Frame, now: real)
    ensures OnHello(c, s, f.payload).Accepted? ==> !OnHello(c, s, f.payload).request.Issue?
    ensures OnReady(c, s, now).Accepted? ==> !OnReady(c, s, now).request.Issue?
    ensures |f.payload| == 4 && s.gen.pending.Some? && OnResult(c, s, f.payload, f.run, now).Accepted? ==>
              !OnResult(c, s, f.payload, f.run, now).request.Issue?
    ensures |f.payload| == 1 && OnDone(s, f.payload, now).Accepted? ==> !OnDone(s, f.payload, now).request.Issue?
  {
    hide CheckHello, ResultOf, Latest;
  }
}
