// Exactly which handshakes, recipes and PREPAREs the controller takes, written the other way round: as what
// a worker that means it would send (priv/efz_external.py:374-397).
module Messages {
  import opened Bytes
  import opened Wire
  import opened Records
  import opened Supervisor
  import opened Wrappers

  predicate AllAscii(b: bytes) {
    forall i :: 0 <= i < |b| ==> b[i] < 128
  }

  function HelloBody(id: bytes, config: bytes, pid: nat, otp: bytes, erts: bytes): bytes
    requires pid < U32_SPAN && |otp| <= 32 && |erts| <= 32
  {
    MARKER + id + config + Be32(pid) + [|otp|] + otp + [|erts|] + erts
  }

  /** The handshake of the very process, build and configuration that were launched. */
  predicate Introduces(c: Config, g: Gen, body: bytes, id: bytes, pid: nat) {
    && |id| == 32 && c.identity == Hex(id) && |g.workerConfig| == 32
    && pid < U32_SPAN && g.workerPid == Some(pid)
    && |c.otp| <= 32 && |c.erts| <= 32 && AllAscii(c.otp) && AllAscii(c.erts)
    && body == HelloBody(id, g.workerConfig, pid, c.otp, c.erts)
  }

  lemma HelloExactly(c: Config, g: Gen, body: bytes)
    ensures CheckHello(c, g, body) == None <==> exists id, pid :: Introduces(c, g, body, id, pid)
  {
    hide Hex, Be32, U32;
    if CheckHello(c, g, body) == None {
      HelloParts(c, g, body);
    }
    if exists id, pid :: Introduces(c, g, body, id, pid) {
      var id, pid :| Introduces(c, g, body, id, pid);
      HelloPasses(c, g, body, id, pid);
    }
  }

  lemma HelloParts(c: Config, g: Gen, body: bytes)
    requires CheckHello(c, g, body) == None
    ensures |body| >= 74 && Introduces(c, g, body, body[4..36], U32(body[68..72]))
  {
    hide Hex, Be32, U32;
    Be32Inverse(body[68..72]);
    var n := |c.otp|;
    assert body[72] as int == n && body[73 + n] as int == |c.erts|;
    assert body == HelloBody(body[4..36], g.workerConfig, U32(body[68..72]), c.otp, c.erts);
  }

  lemma HelloPasses(c: Config, g: Gen, body: bytes, id: bytes, pid: nat)
    requires Introduces(c, g, body, id, pid)
    ensures CheckHello(c, g, body) == None
  {
    hide Hex, Be32, U32;
    var n := |c.otp|;
    assert body[..4] == MARKER && body[4..36] == id && body[36..68] == g.workerConfig;
    assert body[68..72] == Be32(pid) && body[73..73 + n] == c.otp && body[74 + n..] == c.erts;
    assert body[72] == n && body[73 + n] == |c.erts|;
  }

  /** A recipe around its external term. */
  function RecipeOf(lib: Library, term: bytes): bytes
    requires |term| < U32_SPAN
  {
    RECIPE_MARKER + Be32(|term|) + lib.sha(term) + term
  }

  /** An external term that is not compressed. */
  predicate PlainTerm(term: bytes) {
    2 <= |term| < U32_SPAN && term[0] == 131 && term[1] != 80
  }

  /** The recipes taken are exactly the sealed uncompressed terms. */
  lemma RecipeExactly(lib: Library, r: bytes)
    requires forall b :: |lib.sha(b)| == 32
    ensures RecipeSound(lib, r) <==> exists term :: PlainTerm(term) && r == RecipeOf(lib, term)
    ensures RecipeSound(lib, r) ==> |r| >= 43
  {
    hide Be32, U32;
    if RecipeSound(lib, r) {
      var term := r[41..];
      Be32Inverse(r[5..9]);
      assert r[41..43] == [r[41], r[42]];
      assert r == RecipeOf(lib, term);
    }
    if term :| PlainTerm(term) && r == RecipeOf(lib, term) {
      RecipePasses(lib, r, term);
    }
  }

  lemma RecipePasses(lib: Library, r: bytes, term: bytes)
    requires PlainTerm(term) && r == RecipeOf(lib, term) && |lib.sha(term)| == 32
    ensures |r| == 41 + |term| && RecipeSound(lib, r)
  {
    hide Be32, U32;
    assert r[..5] == RECIPE_MARKER && r[5..9] == Be32(|term|) && r[9..41] == lib.sha(term) && r[41..] == term;
    assert r[41] == term[0] && r[42] == term[1];
    assert r[41..43] == [term[0], term[1]];
  }

  function PrepareBody(lib: Library, phase: byte, timeout: nat, raw: bytes, recipe: bytes, status: byte): bytes
    requires timeout < U32_SPAN && |raw| < U32_SPAN && |recipe| < U32_SPAN
  {
    [phase] + Be32(timeout) + lib.sha(raw) + Be32(|raw|) + Be32(|recipe|) + [status] + raw + recipe
  }

  /** A PREPARE that names its own input, with a recipe exactly where it says so. */
  predicate Proposes(lib: Library, c: Config, body: bytes, phase: byte, raw: bytes, recipe: bytes, status: byte) {
    && 1 <= phase <= 4 && c.timeoutMs < U32_SPAN
    && |raw| < U32_SPAN && |raw| <= c.maxInput && |recipe| <= 65536 && status <= 2
    && (recipe != [] <==> status == 1) && (recipe != [] ==> RecipeSound(lib, recipe))
    && |lib.sha(raw)| == 32
    && body == PrepareBody(lib, phase, c.timeoutMs, raw, recipe, status)
  }

  lemma PrepareParts(lib: Library, c: Config, body: bytes, phase: byte, raw: bytes, recipe: bytes, status: byte)
    requires Proposes(lib, c, body, phase, raw, recipe, status)
    ensures |body| == 46 + |raw| + |recipe|
    ensures ParsePrepare(body) == Prepare(phase, c.timeoutMs, lib.sha(raw), |raw|, |recipe|, status, raw + recipe)
  {
    hide Be32, U32, RecipeSound;
    assert body[1..5] == Be32(c.timeoutMs) && body[5..37] == lib.sha(raw) && body[37..41] == Be32(|raw|);
    assert body[41..45] == Be32(|recipe|) && body[46..] == raw + recipe;
  }

  lemma PreparePasses(lib: Library, c: Config, body: bytes, phase: byte, raw: bytes, recipe: bytes, status: byte)
    requires Proposes(lib, c, body, phase, raw, recipe, status)
    ensures |body| >= 46 && CheckPrepare(lib, c, ParsePrepare(body)) == None
  {
    hide RecipeSound, ParsePrepare, PrepareBody, Hex;
    PrepareParts(lib, c, body, phase, raw, recipe, status);
    assert (raw + recipe)[..|raw|] == raw && (raw + recipe)[|raw|..] == recipe;
  }

  /** The PREPAREs that pass are exactly those; the digest then is that of the very input behind it. */
  lemma PrepareExactly(lib: Library, c: Config, body: bytes)
    requires |body| >= 46
    ensures CheckPrepare(lib, c, ParsePrepare(body)) == None <==>
            exists phase, raw, recipe, status :: Proposes(lib, c, body, phase, raw, recipe, status)
  {
    hide Proposes, CheckPrepare, ParsePrepare;
    if CheckPrepare(lib, c, ParsePrepare(body)) == None {
      PrepareProposes(lib, c, body);
    }
    if exists phase, raw, recipe, status :: Proposes(lib, c, body, phase, raw, recipe, status) {
      var phase, raw, recipe, status :| Proposes(lib, c, body, phase, raw, recipe, status);
      PreparePasses(lib, c, body, phase, raw, recipe, status);
    }
  }

  lemma PrepareProposes(lib: Library, c: Config, body: bytes)
    requires |body| >= 46 && CheckPrepare(lib, c, ParsePrepare(body)) == None
    ensures var p := ParsePrepare(body);
            p.size <= |p.rest| && Proposes(lib, c, body, body[0], p.rest[..p.size], p.rest[p.size..], body[45])
  {
    hide Be32, U32, RecipeSound, Hex;
    var p := ParsePrepare(body);
    var raw, recipe := p.rest[..p.size], p.rest[p.size..];
    HexInjective(p.digest, lib.sha(raw));
    Be32Inverse(body[1..5]);
    Be32Inverse(body[37..41]);
    Be32Inverse(body[41..45]);
    assert p.digest == lib.sha(raw);
    assert raw + recipe == body[46..];
    assert body == PrepareBody(lib, body[0], c.timeoutMs, raw, recipe, body[45]);
  }

  /** Every PREPARE the controller can admit fits a frame, and the longest one is exactly a frame long. */
  lemma LargestPrepare(lib: Library, c: Config, body: bytes, raw: bytes, term: bytes)
    requires Bounded(c) && |body| >= 46 && CheckPrepare(lib, c, ParsePrepare(body)) == None
    requires |raw| == MAX_INPUT && |term| == 65536 - 41 && PlainTerm(term)
    requires |lib.sha(raw)| == 32 && |lib.sha(term)| == 32 && c.timeoutMs < U32_SPAN
    ensures FrameLen(13 + |body|)
    ensures var largest := PrepareBody(lib, 1, c.timeoutMs, raw, RecipeOf(lib, term), 1);
            && 13 + |largest| == MAX_FRAME == 1048576 + 65536 + 59
            && CheckPrepare(lib, c.(maxInput := MAX_INPUT), ParsePrepare(largest)) == None
  {
    hide RecipeSound, RecipeOf, PrepareBody, CheckPrepare, ParsePrepare;
    PrepareLength(lib, c, body);
    var recipe := RecipeOf(lib, term);
    RecipePasses(lib, recipe, term);
    var largest := PrepareBody(lib, 1, c.timeoutMs, raw, recipe, 1);
    var c' := c.(maxInput := MAX_INPUT);
    assert Proposes(lib, c', largest, 1, raw, recipe, 1);
    PrepareParts(lib, c', largest, 1, raw, recipe, 1);
    PreparePasses(lib, c', largest, 1, raw, recipe, 1);
  }

  lemma PrepareLength(lib: Library, c: Config, body: bytes)
    requires Bounded(c) && |body| >= 46 && CheckPrepare(lib, c, ParsePrepare(body)) == None
    ensures FrameLen(13 + |body|)
  {
    hide RecipeSound, Hex;
  }
}
