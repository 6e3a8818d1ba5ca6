// When every run reads back: with a target name as short as the worker takes, and everything else as it is made
// (priv/efz_external.py:90-91, 120-135, 415-425; src/efz_cli.erl:127-128).
module Legibility {
  import opened Bytes
  import opened Records
  import opened Supervisor
  import opened Lifecycle
  import opened Wrappers
  import opened Storage
  import opened Scripts
  import opened History
  import opened Wire

  // ----- sizes -----

  const LONGEST_TARGET := 255

  predicate Tame(s: string) { |s| <= LONGEST_TARGET && Bare(s) }

  predicate Small(v: Value) {
    match v
    case Null => true
    case Number(n) => 0 <= n < U64_SPAN
    case Text(s) => |s| <= LONGEST_TARGET
    case _ => false
  }

  predicate Plain(v: Value) {
    Small(v) && (v.Text? ==> Bare(v.s))
  }

  lemma {:induction false} HexIsTame(b: bytes)
    ensures |Hex(b)| == 2 * |b| && Bare(Hex(b))
  {
    if b != [] {
      HexIsTame(b[1..]);
      DigitIsBare(b[0] / 16);
      DigitIsBare(b[0] % 16);
      assert Hex(b) == [HexDigit(b[0] / 16), HexDigit(b[0] % 16)] + Hex(b[1..]);
    }
  }

  lemma DigitIsBare(n: nat)
    requires n < 16
    ensures HexDigit(n) != '{' && HexDigit(n) != '['
  {
  }

  lemma SmallFits(lib: Library, v: Value)
    requires Compact(lib) && Small(v)
    ensures |lib.packed(v)| <= 3062 && Openers(lib.packed(v)) <= LONGEST_TARGET
    ensures Plain(v) ==> Openers(lib.packed(v)) == 0
  {
    hide Openers, Bare, EachFits, OpensIn;
  }

  // ----- the metadata -----

  /** As the options, the file hashes and the campaign's uuid make it. */
  predicate Ordinary(c: Config) {
    && |c.target| <= LONGEST_TARGET
    && Tame(c.campaign) && Tame(c.identity) && Tame(c.configIdentity) && Tame(Ascii(c.otp)) && Tame(Ascii(c.erts))
    && 0 <= c.parent < U64_SPAN && 0 <= c.controller < U64_SPAN
    && c.timeoutMs < U64_SPAN && Bounded(c)
    && c.supervisedRuns < U64_SPAN && c.restartBudget + 1 < U64_SPAN
  }

  /** The worker's pid and the hash of its arguments. */
  predicate Usual(g: Gen) {
    && (g.workerPid.Some? ==> 0 <= g.workerPid.value < U64_SPAN)
    && |g.workerConfig| <= 32
  }

  predicate NameFits(key: string) { |key| <= 22 && Bare(key) }

  lemma NamesFitA()
    ensures NameFits("format_version") && NameFits("campaign_id") && NameFits("run_id") && NameFits("generation")
            && NameFits("phase")
  {
  }

  lemma NamesFitB()
    ensures NameFits("input_size") && NameFits("input_sha256") && NameFits("harness") && NameFits("file_identity")
            && NameFits("config_identity")
  {
  }

  lemma NamesFitC()
    ensures NameFits("otp") && NameFits("erts") && NameFits("timeout_ms") && NameFits("worker_pid")
            && NameFits("supervisor_pid")
  {
  }

  lemma NamesFitD()
    ensures NameFits("launcher_parent_pid") && NameFits("worker_config_identity") && NameFits("max_input_bytes")
            && NameFits("recipe_status")
  {
  }

  lemma MetaNamesFit(c: Config, generation: nat, g: Gen, p: Prepare, id: nat)
    ensures forall key :: key in MetaOf(c, generation, g, p, id).fields ==> NameFits(key)
  {
    hide Hex, Ascii, PhaseName, RecipeStatusName, NameFits;
    NamesFitA();
    NamesFitB();
    NamesFitC();
    NamesFitD();
  }

  lemma MetaCount(c: Config, generation: nat, g: Gen, p: Prepare, id: nat)
    ensures |MetaOf(c, generation, g, p, id).fields| <= 19
  {
    hide Hex, Ascii, PhaseName, RecipeStatusName;
    var m := MetaOf(c, generation, g, p, id).fields;
    assert forall key :: key in m.Keys ==> key in META_FIELDS;
    NoMoreThan(m.Keys, META_FIELDS);
    assert |m.Keys| == |m|;
  }

  lemma {:induction false} NoMoreThan(keys: set<string>, names: seq<string>)
    requires forall key :: key in keys ==> key in names
    ensures |keys| <= |names|
    decreases |names|
  {
    if names != [] {
      NoMoreThan(keys - {names[0]}, names[1..]);
    }
  }

  lemma FirstPhasesArePlain()
    ensures Plain(Text("calibration")) && Plain(Text("mutation"))
  {
  }

  lemma LastPhasesArePlain()
    ensures Plain(Text("verification")) && Plain(Text("reproduction"))
  {
  }

  lemma PhaseIsPlain(phase: nat)
    ensures Plain(Text(PhaseName(phase))) && Plain(Text("reproduction"))
  {
    hide Plain;
    FirstPhasesArePlain();
    LastPhasesArePlain();
  }

  lemma FirstStatusesArePlain()
    ensures Plain(Text("not_available")) && Plain(Text("saved"))
  {
  }

  lemma LastStatusIsPlain()
    ensures Plain(Text("metadata_limit"))
  {
  }

  lemma StatusIsPlain(status: nat)
    ensures Plain(Text(RecipeStatusName(status)))
  {
    hide Plain;
    FirstStatusesArePlain();
    LastStatusIsPlain();
  }

  lemma MetaPlain(lib: Library, c: Config, generation: nat, g: Gen, p: Prepare, id: nat)
    requires Ordinary(c) && Usual(g) && generation < U64_SPAN && id < U64_SPAN
    requires CheckPrepare(lib, c, p) == None && |p.digest| == 32
    ensures var m := MetaOf(c, generation, g, p, id).fields;
            forall key :: key in m ==> if key == "harness" then Small(m[key]) else Plain(m[key])
  {
    HexIsTame(p.digest);
    HexIsTame(g.workerConfig);
    PhaseIsPlain(p.phase);
    StatusIsPlain(p.recipeStatus);
    hide Hex, RecipeSound, Ascii, Bare, PhaseName, RecipeStatusName;
  }

  lemma NameTakes(lib: Library, key: string)
    requires Compact(lib) && NameFits(key)
    ensures |lib.packed(Text(key))| <= 266 && Openers(lib.packed(Text(key))) == 0
  {
    hide Openers, Bare, EachFits, OpensIn;
  }

  lemma RecordTakes(lib: Library, m: map<string, Value>, n: nat, names: set<string>, k: nat)
    requires Compact(lib) && EachFits(lib, m, n) && OpensIn(lib, m, names, k)
    ensures |lib.packed(Record(m))| <= 2 + |m| * n && Openers(lib.packed(Record(m))) <= 1 + |names| * k
  {
    hide Openers, Bare, EachFits, OpensIn;
  }

  /** A flat record of which one field may hold anything that is short. */
  lemma FlatTakes(lib: Library, m: map<string, Value>, loose: string)
    requires Compact(lib) && loose in m && |m| <= 19
    requires forall key :: key in m ==> NameFits(key) && if key == loose then Small(m[key]) else Plain(m[key])
    ensures |lib.packed(Record(m))| <= META_LIMIT && Openers(lib.packed(Record(m))) <= NESTING_LIMIT
  {
    hide Compact, Openers, NameFits, Small, Plain;
    forall key | key in m
      ensures |lib.packed(Text(key))| + |lib.packed(m[key])| + 2 <= 3330 && Openers(lib.packed(Text(key))) == 0
      ensures Openers(lib.packed(m[key])) <= if key == loose then LONGEST_TARGET else 0
    {
      NameTakes(lib, key);
      PlainIsSmall(m[key]);
      SmallFits(lib, m[key]);
    }
    RecordTakes(lib, m, 3330, {loose}, LONGEST_TARGET);
  }

  lemma MetaTakes(lib: Library, c: Config, generation: nat, g: Gen, p: Prepare, id: nat)
    requires Compact(lib) && Ordinary(c) && Usual(g) && generation < U64_SPAN && id < U64_SPAN
    requires CheckPrepare(lib, c, p) == None && |p.digest| == 32
    ensures var meta := MetaOf(c, generation, g, p, id);
            |lib.packed(meta)| <= META_LIMIT && Openers(lib.packed(meta)) <= NESTING_LIMIT
  {
    hide Compact, Openers, NameFits, Small, Plain, Ordinary, Usual, CheckPrepare, Hex, MetaOf;
    var meta := MetaOf(c, generation, g, p, id);
    MetaNamesFit(c, generation, g, p, id);
    MetaCount(c, generation, g, p, id);
    MetaPlain(lib, c, generation, g, p, id);
    MetaNames(c, generation, g, p, id);
    FlatTakes(lib, meta.fields, "harness");
  }

  lemma PlainIsSmall(v: Value)
    ensures Plain(v) ==> Small(v)
  {
  }

  // ----- the manifest -----

  lemma EntryTakes(lib: Library, b: bytes)
    requires Compact(lib) && |lib.sha(b)| == 32 && |b| < U64_SPAN
    ensures |lib.packed(Entry(lib, b))| <= 7000 && Openers(lib.packed(Entry(lib, b))) <= 1
  {
    hide Compact, Openers, Hex;
    HexIsTame(lib.sha(b));
    EntryNames();
    var m := Entry(lib, b).fields;
    assert m.Keys == {"size", "sha256"};
    forall key | key in m
      ensures |lib.packed(Text(key))| + |lib.packed(m[key])| + 2 <= 3330 && Openers(lib.packed(Text(key))) == 0
      ensures Openers(lib.packed(m[key])) == 0
    {
      NameTakes(lib, key);
      SmallFits(lib, m[key]);
    }
    assert |m| <= 2;
    RecordTakes(lib, m, 3330, {}, 0);
  }

  lemma EntryNames()
    ensures NameFits("size") && NameFits("sha256")
  {
  }

  lemma ManifestNames()
    ensures NameFits(INPUT) && NameFits(META) && NameFits(RECIPE)
  {
  }

  lemma ManifestTakes(lib: Library, job: Job)
    requires Compact(lib) && forall b :: |lib.sha(b)| == 32
    requires |job.raw| < U64_SPAN && |job.recipe| < U64_SPAN && |lib.packed(job.meta)| < U64_SPAN
    ensures var manifest := Record(ManifestOf(lib, job));
            |lib.packed(manifest)| <= META_LIMIT && Openers(lib.packed(manifest)) <= NESTING_LIMIT
  {
    hide Compact, Openers, Entry, NameFits;
    ManifestNames();
    EntryTakes(lib, job.raw);
    EntryTakes(lib, job.recipe);
    EntryTakes(lib, lib.packed(job.meta));
    var m := ManifestOf(lib, job);
    forall key | key in m
      ensures |lib.packed(Text(key))| + |lib.packed(m[key])| + 2 <= 7268 && Openers(lib.packed(Text(key))) == 0
      ensures Openers(lib.packed(m[key])) <= 1
    {
      NameTakes(lib, key);
    }
    assert |m| <= 3 && |m.Keys| == |m|;
    RecordTakes(lib, m, 7268, m.Keys, 1);
  }

  // ----- every run that is admitted -----

  lemma FramePrepare(lib: Library, c: Config, s: Sup, row: bytes, now: real) returns (p: Prepare)
    requires |row| >= 13
    requires s.gen.state == EXECUTING ==> s.gen.pending.Some?
    requires var r := OnFrame(lib, c, s, row, now); r.Accepted? && r.request.Issue?
    ensures CheckPrepare(lib, c, p) == None && |p.digest| == 32 && s.run < c.supervisedRuns
    ensures OnFrame(lib, c, s, row, now).request.job.meta == MetaOf(c, s.generation, s.gen, p, s.run + 1)
  {
    hide CheckPrepare, MetaOf, Hex, Latest, CheckHello, ResultOf;
    p := ParsePrepare(Fields(row).payload);
  }

  /** With an ordinary configuration and a compact printer, whatever is admitted reads back. */
  lemma OrdinaryIsLegible(lib: Library, c: Config, s: Sup, b: Block)
    requires Compact(lib) && (forall raw :: |lib.sha(raw)| == 32) && Ordinary(c) && Usual(s.gen)
    requires Inv(c, s) && Can(c, s, b) && After(lib, c, s, b).1.Issue?
    ensures Legible(lib, After(lib, c, s, b).1.job)
  {
    hide Compact, LogSound, WordSound, StopsSound, Conserved, RecipeSound, Hex, Latest, TerminationResult;
    hide MetaOf, ManifestOf, Openers, Describes, OnFrame, CheckPrepare, Legible;
    AdmittedIsLegible(lib, c, s, b);
    OnlyRowsAsk(lib, c, s, b);
    var s1 := s.(gen := s.gen.(queue := s.gen.queue[1..]));
    assert FrameLen(|s.gen.queue[0]|);
    var p := FramePrepare(lib, c, s1, s.gen.queue[0], b.now);
    MetaTakes(lib, c, s.generation, s1.gen, p, s.run + 1);
    FrameJob(lib, c, s1, s.gen.queue[0], b.now);
    ManifestTakes(lib, After(lib, c, s, b).1.job);
  }

  // ----- every run that is visible, over any history -----

  /** The launcher reports process ids, and the worker's configuration is a hash. */
  predicate UsualAct(a: Act) {
    match a
    case Boot(c) => Ordinary(c)
    case Loop(Pid(pid), _, _) => 0 <= pid < U64_SPAN
    case Loop(Next(config, _), _, _) => |config| == 32
    case _ => true
  }

  predicate PhaseLegible(lib: Library, p: Phase) {
    p.Staging? ==> Legible(lib, p.job)
  }

  predicate ProcUsual(lib: Library, p: Proc) {
    match p
    case Down => true
    case Recovering(c, _, phase) => Ordinary(c) && PhaseLegible(lib, phase)
    case Up(c, sup, _, _, phase) => Ordinary(c) && Usual(sup.gen) && PhaseLegible(lib, phase)
  }

  predicate AllLegible(lib: Library, w: World) {
    (forall k :: k in w.jobs ==> Legible(lib, w.jobs[k])) && ProcUsual(lib, w.proc)
  }

  lemma StaysUsual(lib: Library, c: Config, s: Sup, b: Block)
    requires Shaped(s) && Can(c, s, b) && Usual(s.gen)
    requires b.Pid? ==> 0 <= b.pid < U64_SPAN
    requires b.Next? ==> |b.workerConfig| == 32
    ensures Usual(After(lib, c, s, b).0.gen)
  {
    hide Latest, Late, Decide, TerminationResult, OnFrame;
    if b.Row? && s.gen.queue != [] && |s.gen.queue[0]| >= 13 {
      var s1 := s.(gen := s.gen.(queue := s.gen.queue[1..]));
      FrameKeepsWorker(lib, c, s1, s.gen.queue[0], b.now);
    }
  }

  lemma FrameKeepsWorker(lib: Library, c: Config, s: Sup, row: bytes, now: real)
    requires |row| >= 13
    requires s.gen.state == EXECUTING ==> s.gen.pending.Some?
    ensures var r := OnFrame(lib, c, s, row, now);
            r.Accepted? ==> r.next.gen.workerPid == s.gen.workerPid && r.next.gen.workerConfig == s.gen.workerConfig
  {
    hide CheckHello, CheckPrepare, MetaOf, Hex, ResultOf, Latest, Fields;
  }

  lemma InitialUsual(c: Config)
    ensures Usual(Initial(c).gen)
  {
  }

  lemma LoopLegible(lib: Library, w: World, a: Act, w': World)
    requires Compact(lib) && (forall raw :: |lib.sha(raw)| == 32) && a.Loop? && UsualAct(a)
    requires LoopStep(lib, w, a.block, a.place, a.nonce, w') && Inv(w.proc.c, w.proc.sup)
    requires AllLegible(lib, w)
    ensures AllLegible(lib, w')
  {
    hide Compact, Inv, Ordinary, Usual, Legible, After, Can, Shaped;
    var c, s := w.proc.c, w.proc.sup;
    StaysUsual(lib, c, s, a.block);
    if After(lib, c, s, a.block).1.Issue? {
      OrdinaryIsLegible(lib, c, s, a.block);
    }
  }

  lemma FileLegible(lib: Library, w: World, nonce: nat, w': World)
    requires FileStep(lib, w, nonce, w') && AllLegible(lib, w)
    ensures AllLegible(lib, w')
  {
    hide Ordinary, Usual, Legible, OpsOf, Apply, Enabled;
  }

  lemma OtherLegible(lib: Library, w: World, a: Act, w': World)
    requires UsualAct(a) && Step(lib, w, a, w') && AllLegible(lib, w) && !a.Loop? && !a.FileOp?
    ensures AllLegible(lib, w')
  {
    hide Ordinary, Legible, LoopStep, FileStep, PowerLoss, LoadRun, ValidatedResult, Scan, Interrupted;
    if a.StartUp? {
      InitialUsual(w.proc.c);
    }
  }

  lemma StepLegible(lib: Library, w: World, a: Act, w': World)
    requires Compact(lib) && (forall raw :: |lib.sha(raw)| == 32) && UsualAct(a)
    requires WorldSound(lib, w) && Step(lib, w, a, w') && AllLegible(lib, w)
    ensures AllLegible(lib, w')
  {
    hide Compact, UsualAct, AllLegible, WorldSound, Step, LoopStep, FileStep;
    if a.Loop? {
      LoopActs(lib, w, a, w');
      LoopsUp(lib, w, a, w');
      SupInv(lib, w);
      LoopLegible(lib, w, a, w');
    } else if a.FileOp? {
      FileActs(lib, w, a, w');
      FileLegible(lib, w, a.nonce, w');
    } else {
      OtherLegible(lib, w, a, w');
    }
  }

  lemma LoopActs(lib: Library, w: World, a: Act, w': World)
    requires Step(lib, w, a, w') && a.Loop?
    ensures LoopStep(lib, w, a.block, a.place, a.nonce, w')
  {
    hide LoopStep;
  }

  lemma SupInv(lib: Library, w: World)
    requires WorldSound(lib, w) && w.proc.Up?
    ensures Inv(w.proc.c, w.proc.sup)
  {
    hide SentSound, SentOnce, NoneForgotten, PhaseSound, GoodRun, Inv;
  }

  lemma {:induction false} HistoryLegible(lib: Library, ws: seq<World>, acts: seq<Act>, i: nat)
    requires Compact(lib) && (forall raw :: |lib.sha(raw)| == 32)
    requires History.Run(lib, ws, acts) && i < |ws| && forall j :: 0 <= j < |acts| ==> UsualAct(acts[j])
    ensures AllLegible(lib, ws[i])
  {
    hide Compact, WorldSound, Step, UsualAct;
    if i > 0 {
      HistoryLegible(lib, ws, acts, i - 1);
      HistorySound(lib, ws, acts, i - 1);
      StepLegible(lib, ws[i - 1], acts[i - 1], ws[i]);
    }
  }

  /** At every point of every history of ordinary configurations, every visible run, permitted or not, reads back
      as the very metadata and input it was prepared with. */
  lemma EveryRunReadsBack(lib: Library, ws: seq<World>, acts: seq<Act>, i: nat, key: Key)
    requires Faithful(lib) && Compact(lib) && forall raw :: |lib.sha(raw)| == 32
    requires History.Run(lib, ws, acts) && i < |ws| && forall j :: 0 <= j < |acts| ==> UsualAct(acts[j])
    requires key in ws[i].disk.runs
    ensures key in ws[i].jobs
    ensures LoadRun(lib, ws[i].disk.runs[key]) == Ok((ws[i].jobs[key].meta, ws[i].jobs[key].raw))
  {
    hide Compact, WorldSound, Step, UsualAct, Legible, LoadRun, History.Run, Faithful, Holds, Solid;
    HistoryLegible(lib, ws, acts, i);
    VisibleIsComplete(lib, ws, acts, i, key);
    ReadsBack(lib, ws[i].disk.runs[key], ws[i].jobs[key]);
  }
}
