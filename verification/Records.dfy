// What the journal writes into its files and how it reads it back
// (priv/efz_external.py:35-36, 90-143).
module Records {
  import opened Bytes
  import opened Storage
  import opened Wire
  import opened Wrappers

  /** A JSON value as Python holds it. */
  datatype Value =
    | Null
    | Flag(b: bool)
    | Number(n: int)
    | Text(s: string)
    | Record(fields: map<string, Value>)

  /** hashlib.sha256 and json.dumps/json.loads, of which only what the journal relies on is known. */
  datatype Library = Library(sha: bytes -> bytes, packed: Value -> bytes, parse: bytes -> Parsed)

  datatype Parsed = Unreadable | Parsed(value: Value)

  /** json.loads reads back what json.dumps wrote. */
  ghost predicate Faithful(lib: Library) {
    forall v :: lib.parse(lib.packed(v)) == Parsed(v)
  }

  /** A packed record is no shorter than any of the texts in it. */
  ghost predicate Spells(lib: Library) {
    forall m: map<string, Value>, key :: key in m && m[key].Text? ==> |lib.packed(Record(m))| >= |m[key].s|
  }

  /** No brace and no bracket in it. */
  predicate Bare(s: string) {
    '{' !in s && '[' !in s
  }

  ghost predicate EachFits(lib: Library, m: map<string, Value>, n: nat) {
    forall key :: key in m ==> |lib.packed(Text(key))| + |lib.packed(m[key])| + 2 <= n
  }

  /** Only the fields of these names have braces or brackets in them, and no more than n each. */
  ghost predicate OpensIn(lib: Library, m: map<string, Value>, names: set<string>, n: nat) {
    && names <= m.Keys
    && forall key :: key in m ==>
         Openers(lib.packed(Text(key))) == 0 && Openers(lib.packed(m[key])) <= if key in names then n else 0
  }

  /** Packing escapes a character with at most twelve bytes, and adds to the fields of a record two braces and,
      for each, a colon and a comma. */
  ghost predicate Compact(lib: Library) {
    && (forall s :: |lib.packed(Text(s))| <= 2 + 12 * |s| && Openers(lib.packed(Text(s))) <= |s|)
    && (forall s :: Bare(s) ==> Openers(lib.packed(Text(s))) == 0)
    && (forall n :: 0 <= n < U64_SPAN ==> |lib.packed(Number(n))| <= 20 && Openers(lib.packed(Number(n))) == 0)
    && |lib.packed(Null)| <= 4 && Openers(lib.packed(Null)) == 0
    && (forall m, n :: EachFits(lib, m, n) ==> |lib.packed(Record(m))| <= 2 + |m| * n)
    && (forall m, names, n :: OpensIn(lib, m, names, n) ==> Openers(lib.packed(Record(m))) <= 1 + |names| * n)
  }

  const META_LIMIT := 65536
  const RESULT_LIMIT := 16384
  const NESTING_LIMIT := 512
  const RUN_OVERHEAD := 16384

  datatype ReadError =
    | NotFound
    | MetadataLimit
    | MetadataNesting
    | NotJson
    | ManifestSchema
    | ArtifactIntegrity
    | ArtifactVersionOrDigest
    | ResultIntegrity
    | NoSuchKey

  function HexDigit(n: nat): char
    requires n < 16
  {
    "0123456789abcdef"[n]
  }

  /** bytes.hex */
  function Hex(b: bytes): string {
    if b == [] then "" else [HexDigit(b[0] / 16), HexDigit(b[0] % 16)] + Hex(b[1..])
  }

  function Digest(lib: Library, b: bytes): string {
    Hex(lib.sha(b))
  }

  lemma HexDigitInjective(m: nat, n: nat)
    requires m < 16 && n < 16 && HexDigit(m) == HexDigit(n)
    ensures m == n
  {
  }

  lemma {:induction false} HexInjective(a: bytes, b: bytes)
    requires Hex(a) == Hex(b)
    ensures a == b
  {
    hide HexDigit;
    if a == [] || b == [] {
      assert Hex(a) == [] || Hex(b) == [];
    } else {
      var s, t := Hex(a), Hex(b);
      assert s[0] == t[0] && s[1] == t[1];
      HexDigitInjective(a[0] / 16, b[0] / 16);
      HexDigitInjective(a[0] % 16, b[0] % 16);
      assert s[2..] == Hex(a[1..]) && t[2..] == Hex(b[1..]);
      HexInjective(a[1..], b[1..]);
      assert a == [a[0]] + a[1..] && b == [b[0]] + b[1..];
    }
  }

  /** b.count(b"{") + b.count(b"[") */
  function Openers(b: bytes): nat {
    if b == [] then 0 else
    (if b[|b| - 1] == 123 || b[|b| - 1] == 91 then 1 else 0) + Openers(b[..|b| - 1])
  }

  /** Every opening brace and bracket counts, in text or not. */
  lemma {:induction false} OpenersCount(b: bytes)
    ensures Openers(b) == multiset(b)[123] + multiset(b)[91]
  {
    if b != [] {
      OpenersCount(b[..|b| - 1]);
      assert b == b[..|b| - 1] + [b[|b| - 1]];
    }
  }

  /** What a hexadecimal digit is worth. */
  function Nibble(c: char): int {
    if '0' <= c <= '9' then c as int - 48 else if 'a' <= c <= 'f' then c as int - 87 else -1
  }

  lemma DigitIs(n: nat)
    requires n < 16
    ensures Nibble(HexDigit(n)) == n
  {
  }

  /** Two lower-case digits for every byte, the higher first. */
  lemma {:induction false} HexReads(b: bytes, i: nat)
    requires i < |b|
    ensures |Hex(b)| == 2 * |b| && Nibble(Hex(b)[2 * i]) * 16 + Nibble(Hex(b)[2 * i + 1]) == b[i]
    ensures Nibble(Hex(b)[2 * i]) >= 0 && Nibble(Hex(b)[2 * i + 1]) >= 0
  {
    hide HexDigit, Nibble;
    if i == 0 {
      DigitIs(b[0] / 16);
      DigitIs(b[0] % 16);
      HexLength(b[1..]);
    } else {
      HexReads(b[1..], i - 1);
      assert Hex(b)[2 * i] == Hex(b[1..])[2 * (i - 1)] && Hex(b)[2 * i + 1] == Hex(b[1..])[2 * (i - 1) + 1];
    }
  }

  lemma {:induction false} HexLength(b: bytes)
    ensures |Hex(b)| == 2 * |b|
  {
    if b != [] {
      HexLength(b[1..]);
    }
  }

  // ----- reading -----

  function ReadJson(lib: Library, f: Folder, name: FileName, limit: nat): Result<Value, ReadError> {
    if name !in f.live then Err(NotFound) else
    var b := f.live[name].data;
    if |b| > limit then Err(MetadataLimit)
    else if Openers(b) > NESTING_LIMIT then Err(MetadataNesting)
    else match lib.parse(b)
      case Unreadable => Err(NotJson)
      case Parsed(v) => Ok(v)
  }

  const INPUT := "artifact.input"
  const META := "artifact.external.json"
  const RECIPE := "artifact.recipe"

  /** One line of the manifest. */
  function Entry(lib: Library, b: bytes): Value {
    Record(map["size" := Number(|b|), "sha256" := Text(Digest(lib, b))])
  }

  /** The artifact is there, within its limit and as the manifest says. */
  function CheckArtifact(lib: Library, f: Folder, manifest: map<string, Value>, name: FileName, title: string,
                         limit: nat)
    : Result<bytes, ReadError>
  {
    if name !in f.live then Err(NotFound) else
    var b := f.live[name].data;
    if |b| > limit || title !in manifest || manifest[title] != Entry(lib, b) then Err(ArtifactIntegrity) else Ok(b)
  }

  function LoadRun(lib: Library, f: Folder): Result<(Value, bytes), ReadError> {
    match ReadJson(lib, f, Manifest, META_LIMIT)
    case Err(e) => Err(e)
    case Ok(manifest) =>
      if !manifest.Record? || (manifest.fields.Keys != {INPUT, META} && manifest.fields.Keys != {INPUT, META, RECIPE})
      then Err(ManifestSchema) else
      match CheckArtifact(lib, f, manifest.fields, Input, INPUT, MAX_INPUT)
      case Err(e) => Err(e)
      case Ok(raw) =>
        match CheckArtifact(lib, f, manifest.fields, Meta, META, META_LIMIT)
        case Err(e) => Err(e)
        case Ok(_) =>
          var recipe := if RECIPE in manifest.fields
                        then CheckArtifact(lib, f, manifest.fields, Recipe, RECIPE, META_LIMIT)
                        else Ok([]);
          match recipe
          case Err(e) => Err(e)
          case Ok(_) => LoadMeta(lib, f, raw)
  }

  function LoadMeta(lib: Library, f: Folder, raw: bytes): Result<(Value, bytes), ReadError> {
    match ReadJson(lib, f, Meta, META_LIMIT)
    case Err(e) => Err(e)
    case Ok(m) => if Describes(lib, m, raw) then Ok((m, raw)) else Err(ArtifactVersionOrDigest)
  }

  /** The metadata is of this version and about this input. */
  predicate Describes(lib: Library, m: Value, raw: bytes) {
    && m.Record?
    && "format_version" in m.fields && m.fields["format_version"] == Number(1)
    && "input_sha256" in m.fields && m.fields["input_sha256"] == Text(Digest(lib, raw))
  }

  function ValidatedResult(lib: Library, f: Folder): Result<map<string, Value>, ReadError> {
    match ReadJson(lib, f, Verdict, RESULT_LIMIT)
    case Err(e) => Err(e)
    case Ok(v) =>
      if !v.Record? || "sha256" !in v.fields then Err(ResultIntegrity) else
      var body := v.fields - {"sha256"};
      if v.fields["sha256"] != Text(Digest(lib, lib.packed(Record(body))))
         || "classification" !in body || !body["classification"].Text?
      then Err(ResultIntegrity)
      else Ok(body)
  }

  // ----- writing -----

  /** A run as `prepare` is given it. */
  datatype Job = Job(raw: bytes, meta: Value, recipe: bytes)

  function ManifestOf(lib: Library, job: Job): map<string, Value> {
    var two := map[INPUT := Entry(lib, job.raw), META := Entry(lib, lib.packed(job.meta))];
    if job.recipe == [] then two else two[RECIPE := Entry(lib, job.recipe)]
  }

  /** The files of the run, in the order they are written. */
  function Files(lib: Library, job: Job): seq<(FileName, bytes)> {
    [(Input, job.raw), (Meta, lib.packed(job.meta))]
    + (if job.recipe == [] then [] else [(Recipe, job.recipe)])
    + [(Manifest, lib.packed(Record(ManifestOf(lib, job))))]
  }

  /** What the artifacts of a published run must be for as long as it is visible. */
  predicate Holds(lib: Library, f: Folder, job: Job) {
    && Input in f.live && f.live[Input].data == job.raw
    && Meta in f.live && f.live[Meta].data == lib.packed(job.meta)
    && Manifest in f.live && f.live[Manifest].data == lib.packed(Record(ManifestOf(lib, job)))
    && (Recipe in f.live <==> job.recipe != [])
    && (Recipe in f.live ==> f.live[Recipe].data == job.recipe)
  }

  /** The size and nesting limits `load_run` reads under, and what it asks of the metadata. */
  predicate Legible(lib: Library, job: Job) {
    && |job.raw| <= MAX_INPUT
    && |job.recipe| <= META_LIMIT
    && |lib.packed(job.meta)| <= META_LIMIT
    && Openers(lib.packed(job.meta)) <= NESTING_LIMIT
    && |lib.packed(Record(ManifestOf(lib, job)))| <= META_LIMIT
    && Openers(lib.packed(Record(ManifestOf(lib, job)))) <= NESTING_LIMIT
    && Describes(lib, job.meta, job.raw)
  }

  /** A published run reads back as the metadata and bytes it was prepared with, exactly when it is
      within the reader's limits, which the writer does not check. */
  lemma ReadsBack(lib: Library, f: Folder, job: Job)
    requires Faithful(lib) && Holds(lib, f, job)
    ensures LoadRun(lib, f) == Ok((job.meta, job.raw)) <==> Legible(lib, job)
    ensures !Legible(lib, job) ==> LoadRun(lib, f).Err?
  {
    hide Openers, Entry, Describes;
    var m := ManifestOf(lib, job);
    assert lib.parse(lib.packed(job.meta)) == Parsed(job.meta);
    assert lib.parse(lib.packed(Record(m))) == Parsed(Record(m));
    assert m.Keys == if job.recipe == [] then {INPUT, META} else {INPUT, META, RECIPE};
  }

  // ----- what reading requires, of any folder -----

  /** The file is there, within its limit, and its size and hash are those the manifest gives for it. */
  predicate Vouched(lib: Library, f: Folder, manifest: map<string, Value>, title: string, name: FileName, limit: nat) {
    && title in manifest && name in f.live
    && var b := f.live[name].data;
    && |b| <= limit
    && manifest[title] == Record(map["size" := Number(|b|), "sha256" := Text(Hex(lib.sha(b)))])
  }

  /** A JSON file within the reader's size and nesting limits. */
  predicate Readable(lib: Library, f: Folder, name: FileName, v: Value) {
    && name in f.live && |f.live[name].data| <= 65536 && Openers(f.live[name].data) <= 512
    && lib.parse(f.live[name].data) == Parsed(v)
  }

  /** A run is loaded exactly if the manifest can be read and names input, metadata and perhaps a recipe, each of
      the files it names is there as it says, and the metadata is of version 1 and of this input; what is loaded
      is then the metadata and the input of those files. A recipe the manifest does not name is not looked at. */
  lemma LoadsExactly(lib: Library, f: Folder, m: Value, raw: bytes)
    ensures LoadRun(lib, f) == Ok((m, raw)) <==>
            exists manifest ::
              && Readable(lib, f, Manifest, Record(manifest))
              && (manifest.Keys == {INPUT, META} || manifest.Keys == {INPUT, META, RECIPE})
              && Vouched(lib, f, manifest, INPUT, Input, 1048576) && Vouched(lib, f, manifest, META, Meta, 65536)
              && (RECIPE in manifest ==> Vouched(lib, f, manifest, RECIPE, Recipe, 65536))
              && raw == f.live[Input].data && Readable(lib, f, Meta, m)
              && m.Record? && "format_version" in m.fields && m.fields["format_version"] == Number(1)
              && "input_sha256" in m.fields && m.fields["input_sha256"] == Text(Hex(lib.sha(raw)))
  {
    hide Openers, Hex;
    if LoadRun(lib, f) == Ok((m, raw)) {
      assert Readable(lib, f, Manifest, Record(lib.parse(f.live[Manifest].data).value.fields));
    }
  }

  /** A published run of which one artifact has since become something else that hashes differently. */
  predicate Damaged(lib: Library, f: Folder, job: Job, name: FileName, b: bytes) {
    && name in {Input, Meta, Recipe} && name in f.live && f.live[name].data == b
    && lib.sha(b) != lib.sha(match name case Input => job.raw case Meta => lib.packed(job.meta) case _ => job.recipe)
    && Manifest in f.live && f.live[Manifest].data == lib.packed(Record(ManifestOf(lib, job)))
    && (name == Recipe ==> job.recipe != [])
  }

  /** Such a run never loads, whatever else is in its folder. */
  lemma DamageIsRefused(lib: Library, f: Folder, job: Job, name: FileName, b: bytes)
    requires Faithful(lib) && Damaged(lib, f, job, name, b)
    ensures LoadRun(lib, f).Err?
  {
    hide LoadRun, Openers, Hex, Vouched;
    if LoadRun(lib, f).Ok? {
      var (m, raw) := LoadRun(lib, f).value;
      LoadsExactly(lib, f, m, raw);
      var manifest :| && Readable(lib, f, Manifest, Record(manifest))
                      && Vouched(lib, f, manifest, INPUT, Input, 1048576)
                      && Vouched(lib, f, manifest, META, Meta, 65536)
                      && (RECIPE in manifest ==> Vouched(lib, f, manifest, RECIPE, Recipe, 65536));
      assert lib.parse(lib.packed(Record(ManifestOf(lib, job)))) == Parsed(Record(ManifestOf(lib, job)));
      assert manifest == ManifestOf(lib, job);
      match name
      case Input => VouchesFor(lib, f, manifest, INPUT, Input, 1048576, job.raw);
      case Meta => VouchesFor(lib, f, manifest, META, Meta, 65536, lib.packed(job.meta));
      case Recipe => VouchesFor(lib, f, manifest, RECIPE, Recipe, 65536, job.recipe);
    }
  }

  lemma VouchesFor(lib: Library, f: Folder, manifest: map<string, Value>, title: string, name: FileName, limit: nat,
                   b: bytes)
    requires Vouched(lib, f, manifest, title, name, limit) && manifest[title] == Entry(lib, b)
    ensures lib.sha(f.live[name].data) == lib.sha(b)
  {
    hide Hex;
    var there := f.live[name].data;
    assert Entry(lib, b).fields["sha256"] == Text(Hex(lib.sha(there)));
    HexInjective(lib.sha(there), lib.sha(b));
  }

  /** A verdict is taken exactly if its file is within the reader's limits, is a record with a checksum that is the
      hash of everything else in it, and has a classification; what is returned is everything else. */
  lemma ValidatesExactly(lib: Library, f: Folder, body: map<string, Value>)
    ensures ValidatedResult(lib, f) == Ok(body) <==>
            exists fields ::
              && Verdict in f.live && |f.live[Verdict].data| <= 16384 && Openers(f.live[Verdict].data) <= 512
              && lib.parse(f.live[Verdict].data) == Parsed(Record(fields))
              && "sha256" in fields && body == fields - {"sha256"}
              && fields["sha256"] == Text(Hex(lib.sha(lib.packed(Record(body)))))
              && "classification" in body && body["classification"].Text?
  {
    hide Openers, Hex;
    if ValidatedResult(lib, f) == Ok(body) {
      var fields := lib.parse(f.live[Verdict].data).value.fields;
      assert lib.parse(f.live[Verdict].data) == Parsed(Record(fields));
    }
  }

  /** `dict(result, sha256=...)` of a result without a checksum of its own. */
  function SealedResult(lib: Library, result: map<string, Value>): Value {
    var body := result - {"sha256"};
    Record(body["sha256" := Text(Digest(lib, lib.packed(Record(body))))])
  }

  /** `validated_result` returns what `finish` was given, exactly within the reader's limits. */
  lemma ResultReadsBack(lib: Library, f: Folder, result: map<string, Value>)
    requires Faithful(lib)
    requires Verdict in f.live && f.live[Verdict].data == lib.packed(SealedResult(lib, result))
    ensures ValidatedResult(lib, f) == Ok(result - {"sha256"}) <==> LegibleResult(lib, result)
    ensures !LegibleResult(lib, result) ==> ValidatedResult(lib, f).Err?
  {
    var body := result - {"sha256"};
    var sealed := SealedResult(lib, result);
    assert lib.parse(lib.packed(sealed)) == Parsed(sealed);
    assert sealed.fields - {"sha256"} == body;
  }

  predicate LegibleResult(lib: Library, result: map<string, Value>) {
    && |lib.packed(SealedResult(lib, result))| <= RESULT_LIMIT
    && Openers(lib.packed(SealedResult(lib, result))) <= NESTING_LIMIT
    && "classification" in result && result["classification"].Text?
  }

  /** What a run is charged against the journal's byte budget. */
  function Cost(job: Job): nat {
    |job.raw| + |job.recipe| + RUN_OVERHEAD
  }

  /** The bytes a scan charges for a run: what `prepare` had charged. */
  function Weight(f: Folder): nat {
    (if Input in f.live then |f.live[Input].data| else 0)
    + (if Recipe in f.live then |f.live[Recipe].data| else 0) + RUN_OVERHEAD
  }

  function Weights(runs: map<Key, Folder>): map<Key, nat> {
    map k | k in runs :: Weight(runs[k])
  }

  lemma WeightIsCost(lib: Library, f: Folder, job: Job)
    requires Holds(lib, f, job)
    ensures Weight(f) == Cost(job)
  {
  }

  /** The metadata names its run, as a verdict of recovery repeats it. */
  predicate Named(m: Value) {
    m.Record? && "campaign_id" in m.fields && "run_id" in m.fields
  }

  /** The verdict recovery puts on a run it finds without one. */
  function Interrupted(m: Value, authorized: bool): map<string, Value>
    requires Named(m)
  {
    map["classification" := Text(if authorized then "interrupted_unknown" else "interrupted_prepared"),
        "execution_proven" := Flag(false),
        "campaign_id" := m.fields["campaign_id"],
        "run_id" := m.fields["run_id"]]
  }

  /** A verdict of recovery: that the run was interrupted, and whether it may have been executing. */
  predicate Interrupting(result: map<string, Value>, authorized: bool) {
    && result.Keys == {"classification", "execution_proven", "campaign_id", "run_id"}
    && result["classification"] == Text(if authorized then "interrupted_unknown" else "interrupted_prepared")
    && result["execution_proven"] == Flag(false)
  }

  /** ... and of which run: the one its metadata names. */
  lemma InterruptedTells(m: Value, authorized: bool)
    requires Named(m)
    ensures var result := Interrupted(m, authorized);
            && Interrupting(result, authorized)
            && result["campaign_id"] == m.fields["campaign_id"] && result["run_id"] == m.fields["run_id"]
  {
  }
}
