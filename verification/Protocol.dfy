// Frames of the client protocol, both ways, and what a request may nest
// (packages/pyefz/src/pyefz/protocol.py:61-112; packages/pyefz/src/pyefz/client.py:23-38, 299-300, 339-347, 401-406).
module Protocol {
  import opened Bytes
  import opened JsonText
  import Base64
  import JsonReader
  import opened Wrappers

  const MAX_FRAME := 8 * 1024 * 1024

  // ----- sending -----

  datatype FrameError = TooLong | Nesting(e: ScanError)

  /** `frame` */
  function Frame(v: Json): Result<bytes, FrameError> {
    var data := Print(v);
    if !(0 < |data| <= MAX_FRAME) then Err(TooLong)
    else match Objection(data)
      case Some(e) => Err(Nesting(e))
      case None => Ok(Be32(|data|) + data)
  }

  /** What can be sent, in terms of the value alone and the length of its printed form. */
  lemma FrameExactly(v: Json)
    requires Printable(v)
    ensures Frame(v).Ok? <==> 0 < |Print(v)| <= 8388608 && Depth(v) <= 24 && Nodes(v) <= 32768
    ensures Frame(v).Ok? ==> Frame(v).value == Be32(|Print(v)|) + Print(v)
    ensures 0 < |Print(v)| <= MAX_FRAME && Frame(v).Err? ==> Frame(v) == Err(Nesting(Complexity))
  {
    hide Objection, Print, Depth, Nodes;
    ScannerIsExact(v);
  }

  // ----- receiving -----

  datatype ReadError = EndOfFile | Truncated | FrameLength | Unbalanced(e: ScanError) | NotJson

  /** The stream of a pipe: what is still to come, and how many bytes more than one each read brings at most. */
  class Source {
    var rest: bytes
    var grains: seq<nat>

    constructor (rest: bytes, grains: seq<nat>)
      ensures this.rest == rest && this.grains == grains
    {
      this.rest, this.grains := rest, grains;
    }

    /** read(n): at least one byte and at most n, unless the stream has ended. */
    method Read(n: nat) returns (part: bytes)
      requires n > 0
      modifies this
      ensures part + rest == old(rest) && |part| <= n
      ensures part == [] <==> old(rest) == []
    {
      var most := if grains == [] then n else grains[0] + 1;
      var take := if most <= n then most else n;
      take := if take <= |rest| then take else |rest|;
      if grains != [] {
        grains := grains[1..];
      }
      part := rest[..take];
      rest := rest[take..];
    }

    /** `read_exact`: however the bytes are cut, all of them or an error that says whether any came. */
    method ReadExact(size: nat) returns (r: Result<bytes, ReadError>)
      modifies this
      ensures r == Exactly(old(rest), size)
      ensures rest == if r.Ok? then old(rest)[size..] else []
    {
      var chunks: bytes := [];
      while |chunks| < size
        invariant |chunks| <= size && chunks + rest == old(rest)
        decreases size - |chunks|
      {
        var part := Read(size - |chunks|);
        if part == [] {
          return Err(if chunks == [] then EndOfFile else Truncated);
        }
        chunks := chunks + part;
      }
      assert old(rest)[..size] == chunks && old(rest)[size..] == rest;
      r := Ok(chunks);
    }

    method ReadFrame(parse: bytes -> Option<Json>) returns (r: Result<Json, ReadError>)
      modifies this
      ensures (r, if r.Ok? then rest else []) == Next(parse, old(rest))
    {
      hide Objection;
      var head := ReadExact(4);
      if head.Err? {
        return Err(head.error);
      }
      var size := U32(head.value);
      if !(0 < size <= MAX_FRAME) {
        return Err(FrameLength);
      }
      var body := ReadExact(size);
      if body.Err? {
        return Err(body.error);
      }
      r := Decoded(parse, body.value);
    }
  }

  /** The first size bytes of a stream, or what is missing. */
  function Exactly(stream: bytes, size: nat): Result<bytes, ReadError> {
    if |stream| >= size then Ok(stream[..size]) else if stream == [] then Err(EndOfFile) else Err(Truncated)
  }

  /** `decode_json` after its length check: the scanner first, then the JSON library. */
  function Decoded(parse: bytes -> Option<Json>, data: bytes): Result<Json, ReadError> {
    match Objection(data)
    case Some(e) => Err(Unbalanced(e))
    case None => match parse(data)
      case None => Err(NotJson)
      case Some(v) => Ok(v)
  }

  /** The frame a stream begins with, and what follows it. */
  function Next(parse: bytes -> Option<Json>, stream: bytes): (Result<Json, ReadError>, bytes) {
    match Exactly(stream, 4)
    case Err(e) => (Err(e), [])
    case Ok(head) =>
      var size := U32(head);
      if !(0 < size <= MAX_FRAME) then (Err(FrameLength), []) else
      match Exactly(stream[4..], size)
      case Err(e) => (Err(e), [])
      case Ok(body) =>
        var r := Decoded(parse, body);
        (r, if r.Ok? then stream[4 + size..] else [])
  }

  /** The JSON library reads back what it printed. */
  ghost predicate Faithful(parse: bytes -> Option<Json>, v: Json) {
    parse(Print(v)) == Option.Some(v)
  }

  /** Whatever `frame` agrees to send, `read_frame` reads back as the same value, and stops right behind it. */
  lemma FrameRoundTrip(parse: bytes -> Option<Json>, v: Json, later: bytes)
    requires Frame(v).Ok? && Faithful(parse, v)
    ensures Next(parse, Frame(v).value + later) == (Ok(v), later)
  {
    hide Objection, Print, Be32, U32;
    var data := Print(v);
    var stream := Frame(v).value + later;
    assert stream[..4] == Be32(|data|);
    assert stream[4..] == data + later && stream[4..][..|data|] == data && stream[4 + |data|..] == later;
  }

  function Frames(vs: seq<Json>): bytes
    requires forall i :: 0 <= i < |vs| ==> Frame(vs[i]).Ok?
  {
    if vs == [] then [] else Frame(vs[0]).value + Frames(vs[1..])
  }

  /** A whole stream of requests reads back in order, and then ends cleanly. */
  lemma {:induction false} StreamRoundTrip(parse: bytes -> Option<Json>, vs: seq<Json>)
    requires forall i :: 0 <= i < |vs| ==> Frame(vs[i]).Ok? && Faithful(parse, vs[i])
    ensures ReadAll(parse, Frames(vs)) == (vs, EndOfFile)
    decreases |vs|
  {
    hide Frame, Faithful, Next;
    if vs == [] {
      NothingNext(parse);
    } else {
      FrameRoundTrip(parse, vs[0], Frames(vs[1..]));
      StreamRoundTrip(parse, vs[1..]);
      assert [vs[0]] + vs[1..] == vs;
    }
  }

  lemma NothingNext(parse: bytes -> Option<Json>)
    ensures Next(parse, []) == (Err(EndOfFile), [])
  {
  }

  /** Frames until an error; it is the last thing the reader sees. */
  function ReadAll(parse: bytes -> Option<Json>, stream: bytes): (seq<Json>, ReadError)
    decreases |stream|
  {
    var (r, rest) := Next(parse, stream);
    match r
    case Err(e) => ([], e)
    case Ok(v) => var (vs, e) := ReadAll(parse, rest); ([v] + vs, e)
  }

  /** There is such a library: whatever `frame` sends is read back by one that reads JSON, unless a number is empty
      or a text holds a surrogate pair as two characters. */
  lemma SentIsRead(v: Json, later: bytes)
    requires Frame(v).Ok? && JsonReader.Sound(v)
    ensures Next(JsonReader.Parse, Frame(v).value + later) == (Ok(v), later)
  {
    hide Next, Frame, JsonReader.Parse, JsonReader.Sound, Print;
    JsonReader.ReadsBack(v);
    FrameRoundTrip(JsonReader.Parse, v, later);
  }

  /** A stream that ends right behind a frame's length is reported as a clean end, not as truncated. */
  lemma CutBehindTheLength(parse: bytes -> Option<Json>, size: nat, part: bytes)
    requires 0 < size <= MAX_FRAME && |part| < size
    ensures Next(parse, Be32(size) + part).0 == Err(if part == [] then EndOfFile else Truncated)
  {
    hide Be32, U32;
    var stream := Be32(size) + part;
    assert stream[..4] == Be32(size) && stream[4..] == part;
  }

  /** Of all streams, these are reported as a clean end. */
  lemma CleanEndExactly(parse: bytes -> Option<Json>, stream: bytes)
    ensures Next(parse, stream).0 == Err(EndOfFile)
            <==> stream == [] || (|stream| == 4 && 0 < U32(stream) <= MAX_FRAME)
  {
    hide Objection, U32;
    if |stream| >= 4 {
      assert |stream| == 4 ==> stream[..4] == stream;
      assert |stream[4..]| == |stream| - 4;
    }
  }

  /** Frames are read up to the first error, so a stream of requests with something behind them ends cleanly
      exactly if that is nothing, or nothing but a length. */
  lemma {:induction false} EndsCleanlyExactly(parse: bytes -> Option<Json>, vs: seq<Json>, tail: bytes)
    requires forall i :: 0 <= i < |vs| ==> Frame(vs[i]).Ok? && Faithful(parse, vs[i])
    requires Next(parse, tail).0.Err?
    ensures ReadAll(parse, Frames(vs) + tail).0 == vs
    ensures ReadAll(parse, Frames(vs) + tail).1 == EndOfFile
            <==> tail == [] || (|tail| == 4 && 0 < U32(tail) <= MAX_FRAME)
    decreases |vs|
  {
    hide Frame, Faithful, Next, U32;
    if vs == [] {
      assert Frames(vs) + tail == tail;
      CleanEndExactly(parse, tail);
    } else {
      var later := Frames(vs[1..]) + tail;
      assert Frames(vs) + tail == Frame(vs[0]).value + later;
      FrameRoundTrip(parse, vs[0], later);
      EndsCleanlyExactly(parse, vs[1..], tail);
      assert [vs[0]] + vs[1..] == vs;
    }
  }

  // ----- what a configuration value becomes -----

  type text = seq<codepoint>

  /** A Python value as a caller may hand it in; a key is a string or something else. */
  datatype Value =
    | Raw(data: bytes)
    | Path(path: text)
    | Dict(entries: Entries)
    | List(items: Values)
    | Plain(scalar: Json)
    | Foreign

  datatype Key = Name(text: text) | OtherKey

  datatype Entries = NoEntries | Entry(key: Key, value: Value, rest: Entries)

  datatype Values = NoValues | Val(head: Value, tail: Values)

  datatype ConfigError = TooDeep | KeysMustBeStrings | Unsupported

  predicate Scalar(v: Json) { !v.Array? && !v.Object? }

  /** A plain value is a scalar, and numbers are written as numbers. */
  predicate Sane(v: Value) {
    match v
    case Plain(s) => Scalar(s) && Printable(s)
    case Dict(entries) => EntriesSane(entries)
    case List(items) => ValuesSane(items)
    case _ => true
  }

  predicate EntriesSane(es: Entries) {
    es.Entry? ==> Sane(es.value) && EntriesSane(es.rest)
  }

  predicate ValuesSane(vs: Values) {
    vs.Val? ==> Sane(vs.head) && ValuesSane(vs.tail)
  }

  predicate AllNames(es: Entries) {
    es.Entry? ==> es.key.Name? && AllNames(es.rest)
  }

  function Letters(b: bytes): text {
    if b == [] then [] else [b[0] as int] + Letters(b[1..])
  }

  const BASE64: text := [98, 97, 115, 101, 54, 52]

  function Envelope(b: bytes): Json {
    Object(Field(BASE64, Str(Letters(Base64.Encode(b))), NoFields))
  }

  const NESTING := 20

  /** `_json_value` */
  function JsonValue(v: Value, depth: nat): Result<Json, ConfigError>
    decreases v
  {
    if depth > NESTING then Err(TooDeep)
    else match v
      case Raw(data) => Ok(Envelope(data))
      case Path(path) => Ok(Str(path))
      case Dict(entries) =>
        if !AllNames(entries) then Err(KeysMustBeStrings)
        else (match JsonEntries(entries, depth + 1)
              case Err(e) => Err(e)
              case Ok(fields) => Ok(Object(fields)))
      case List(items) =>
        (match JsonValues(items, depth + 1)
         case Err(e) => Err(e)
         case Ok(values) => Ok(Array(values)))
      case Plain(scalar) => Ok(scalar)
      case Foreign => Err(Unsupported)
  }

  function JsonEntries(es: Entries, depth: nat): Result<Fields, ConfigError>
    requires AllNames(es)
    decreases es
  {
    match es
    case NoEntries => Ok(NoFields)
    case Entry(key, value, rest) =>
      match JsonValue(value, depth)
      case Err(e) => Err(e)
      case Ok(v) => match JsonEntries(rest, depth)
        case Err(e) => Err(e)
        case Ok(fields) => Ok(Field(key.text, v, fields))
  }

  function JsonValues(vs: Values, depth: nat): Result<Items, ConfigError>
    decreases vs
  {
    match vs
    case NoValues => Ok(NoItems)
    case Val(head, tail) =>
      match JsonValue(head, depth)
      case Err(e) => Err(e)
      case Ok(v) => match JsonValues(tail, depth)
        case Err(e) => Err(e)
        case Ok(items) => Ok(Item(v, items))
  }

  /** How far below a value its deepest part lies. */
  function Height(v: Value): nat {
    match v
    case Dict(entries) => EntriesHeight(entries)
    case List(items) => ValuesHeight(items)
    case _ => 0
  }

  function EntriesHeight(es: Entries): nat {
    if es.NoEntries? then 0 else Max(1 + Height(es.value), EntriesHeight(es.rest))
  }

  function ValuesHeight(vs: Values): nat {
    if vs.NoValues? then 0 else Max(1 + Height(vs.head), ValuesHeight(vs.tail))
  }

  predicate Supported(v: Value) {
    match v
    case Dict(entries) => EntriesSupported(entries)
    case List(items) => ValuesSupported(items)
    case Foreign => false
    case _ => true
  }

  predicate EntriesSupported(es: Entries) {
    es.Entry? ==> es.key.Name? && Supported(es.value) && EntriesSupported(es.rest)
  }

  predicate ValuesSupported(vs: Values) {
    vs.Val? ==> Supported(vs.head) && ValuesSupported(vs.tail)
  }

  /** `_json_value` accepts exactly the supported values whose parts all lie within 20 levels; what comes
      out can be printed and nests one level more than that at most, bytes having become an object. */
  lemma {:induction false} JsonValueExactly(v: Value, depth: nat)
    requires Sane(v) && depth <= NESTING
    ensures JsonValue(v, depth).Ok? <==> Supported(v) && depth + Height(v) <= 20
    ensures JsonValue(v, depth).Ok? ==>
              Printable(JsonValue(v, depth).value) && depth + Depth(JsonValue(v, depth).value) <= 21
    decreases v, 0
  {
    hide Envelope;
    match v
    case Dict(entries) => DictExactly(entries, depth);
    case List(items) => ListExactly(items, depth);
    case Raw(data) => EnvelopeDepth(data);
    case _ =>
  }

  lemma {:induction false} DictExactly(es: Entries, depth: nat)
    requires EntriesSane(es) && depth <= NESTING
    ensures JsonValue(Dict(es), depth).Ok? <==> EntriesSupported(es) && depth + EntriesHeight(es) <= NESTING
    ensures JsonValue(Dict(es), depth).Ok? ==>
              var v := JsonValue(Dict(es), depth).value;
              v.Object? && FieldsPrintable(v.fields) && depth + 1 + FieldsDepth(v.fields) <= NESTING + 1
    decreases es, 1
  {
    hide Depth, Printable, Height, Supported;
    EntriesNamed(es);
    if AllNames(es) && es.Entry? {
      if depth < NESTING {
        EntriesExactly(es, depth + 1);
      } else {
        assert JsonValue(es.value, depth + 1).Err?;
      }
    }
  }

  lemma {:induction false} ListExactly(vs: Values, depth: nat)
    requires ValuesSane(vs) && depth <= NESTING
    ensures JsonValue(List(vs), depth).Ok? <==> ValuesSupported(vs) && depth + ValuesHeight(vs) <= NESTING
    ensures JsonValue(List(vs), depth).Ok? ==>
              var v := JsonValue(List(vs), depth).value;
              v.Array? && ItemsPrintable(v.items) && depth + 1 + ItemsDepth(v.items) <= NESTING + 1
    decreases vs, 1
  {
    hide Depth, Printable, Height, Supported;
    if vs.Val? {
      if depth < NESTING {
        ValuesExactly(vs, depth + 1);
      } else {
        assert JsonValue(vs.head, depth + 1).Err?;
      }
    }
  }

  lemma EnvelopeDepth(data: bytes)
    ensures Depth(Envelope(data)) == 1 && Nodes(Envelope(data)) == 1 && Printable(Envelope(data))
  {
    var value := Str(Letters(Base64.Encode(data)));
    var fields := Field(BASE64, value, NoFields);
    assert FieldsDepth(fields) == Max(Depth(value), FieldsDepth(NoFields)) == 0;
    assert FieldsNodes(fields) == Nodes(value) + FieldsNodes(NoFields) == 0;
    assert FieldsPrintable(NoFields) && Printable(value);
    assert FieldsPrintable(fields);
  }

  lemma {:induction false} EntriesNamed(es: Entries)
    ensures EntriesSupported(es) ==> AllNames(es)
  {
    if es.Entry? {
      EntriesNamed(es.rest);
    }
  }

  lemma {:induction false} EntriesExactly(es: Entries, depth: nat)
    requires EntriesSane(es) && AllNames(es) && 0 < depth <= NESTING
    ensures JsonEntries(es, depth).Ok? <==> EntriesSupported(es) && depth - 1 + EntriesHeight(es) <= NESTING
    ensures JsonEntries(es, depth).Ok? ==>
              FieldsPrintable(JsonEntries(es, depth).value)
                && depth + FieldsDepth(JsonEntries(es, depth).value) <= NESTING + 1
    decreases es, 0
  {
    hide Depth, Printable, JsonValue, Height, Supported;
    if es.Entry? {
      JsonValueExactly(es.value, depth);
      EntriesExactly(es.rest, depth);
    }
  }

  lemma {:induction false} ValuesExactly(vs: Values, depth: nat)
    requires ValuesSane(vs) && 0 < depth <= NESTING
    ensures JsonValues(vs, depth).Ok? <==> ValuesSupported(vs) && depth - 1 + ValuesHeight(vs) <= NESTING
    ensures JsonValues(vs, depth).Ok? ==>
              ItemsPrintable(JsonValues(vs, depth).value)
                && depth + ItemsDepth(JsonValues(vs, depth).value) <= NESTING + 1
    decreases vs, 0
  {
    hide Depth, Printable, JsonValue, Height, Supported;
    if vs.Val? {
      JsonValueExactly(vs.head, depth);
      ValuesExactly(vs.tail, depth);
    }
  }

  // ----- what comes out stands for what went in -----

  function Bytes8(t: text): bytes
    requires forall i :: 0 <= i < |t| ==> t[i] < 128
  {
    seq(|t|, i requires 0 <= i < |t| => t[i] as int)
  }

  /** An object of one field "base64", whose text the byte decoder takes for these bytes. */
  predicate IsEnvelopeOf(j: Json, data: bytes) {
    && j.Object? && j.fields.Field? && j.fields.rest.NoFields? && j.fields.key == [98, 97, 115, 101, 54, 52]
    && j.fields.value.Str? && (forall i :: 0 <= i < |j.fields.value.text| ==> j.fields.value.text[i] < 128)
    && Base64.DecodeBytes(Base64.Text(Bytes8(j.fields.value.text)), |data|) == Ok(data)
  }

  /** This JSON stands for that Python value: bytes for their envelope, a path for its text, containers part by part
      and in order, and scalars for themselves. */
  predicate StandsFor(j: Json, v: Value) {
    match v
    case Raw(data) => IsEnvelopeOf(j, data)
    case Path(path) => j == Str(path)
    case Dict(entries) => j.Object? && FieldsStandFor(j.fields, entries)
    case List(items) => j.Array? && ItemsStandFor(j.items, items)
    case Plain(scalar) => j == scalar
    case Foreign => false
  }

  predicate FieldsStandFor(fields: Fields, es: Entries) {
    match es
    case NoEntries => fields.NoFields?
    case Entry(key, value, rest) =>
      && fields.Field? && key == Name(fields.key)
      && StandsFor(fields.value, value) && FieldsStandFor(fields.rest, rest)
  }

  predicate ItemsStandFor(items: Items, vs: Values) {
    match vs
    case NoValues => items.NoItems?
    case Val(head, tail) => items.Item? && StandsFor(items.head, head) && ItemsStandFor(items.tail, tail)
  }

  lemma {:induction false} LettersBack(b: bytes)
    requires forall i :: 0 <= i < |b| ==> b[i] < 128
    ensures |Letters(b)| == |b| && forall i :: 0 <= i < |b| ==> Letters(b)[i] == b[i] as int
  {
    if b != [] {
      LettersBack(b[1..]);
    }
  }

  lemma {:induction false} EncodedLetters(b: bytes)
    ensures forall i :: 0 <= i < |Base64.Encode(b)| ==> Base64.Encode(b)[i] < 128
  {
    if |b| > 2 {
      EncodedLetters(b[3..]);
    }
  }

  lemma EnvelopeStands(data: bytes)
    ensures IsEnvelopeOf(Envelope(data), data)
  {
    hide Base64.Encode, Base64.Decode, Letters;
    var encoded := Base64.Encode(data);
    EncodedLetters(data);
    LettersBack(encoded);
    assert Bytes8(Letters(encoded)) == encoded;
    Base64.AcceptsExactly(encoded, |data|, data);
  }

  /** Whatever `_json_value` accepts, what it returns stands for it. */
  lemma {:induction false} JsonValueStands(v: Value, depth: nat)
    requires JsonValue(v, depth).Ok?
    ensures StandsFor(JsonValue(v, depth).value, v)
    decreases v
  {
    hide Envelope, IsEnvelopeOf;
    match v
    case Raw(data) => EnvelopeStands(data);
    case Dict(entries) => EntriesStand(entries, depth + 1);
    case List(items) => ValuesStand(items, depth + 1);
    case _ =>
  }

  lemma {:induction false} EntriesStand(es: Entries, depth: nat)
    requires AllNames(es) && JsonEntries(es, depth).Ok?
    ensures FieldsStandFor(JsonEntries(es, depth).value, es)
    decreases es
  {
    hide IsEnvelopeOf;
    if es.Entry? {
      JsonValueStands(es.value, depth);
      EntriesStand(es.rest, depth);
    }
  }

  lemma {:induction false} ValuesStand(vs: Values, depth: nat)
    requires JsonValues(vs, depth).Ok?
    ensures ItemsStandFor(JsonValues(vs, depth).value, vs)
    decreases vs
  {
    hide IsEnvelopeOf;
    if vs.Val? {
      JsonValueStands(vs.head, depth);
      ValuesStand(vs.tail, depth);
    }
  }

  // ----- requests -----

  // The names of the fields, in code points.
  const VERSION: text := [118, 101, 114, 115, 105, 111, 110]
  const ID: text := [105, 100]
  const OP: text := [111, 112]
  const ARGS: text := [97, 114, 103, 115]
  const CONFIG: text := [99, 111, 110, 102, 105, 103]
  const INPUT: text := [105, 110, 112, 117, 116]
  const PROVIDER: text := [112, 114, 111, 118, 105, 100, 101, 114]
  const REQUEST: text := [114, 101, 113, 117, 101, 115, 116]
  const LIMIT: text := [109, 97, 120, 95, 105, 110, 112, 117, 116, 95, 98, 121, 116, 101, 115]
  const SEED: text := [115, 101, 101, 100]
  const ITEMS: text := [105, 116, 101, 109, 115]

  function Request(id: Json, op: Json, args: Json): Json {
    Object(Field(VERSION, Number([49]), Field(ID, id, Field(OP, op, Field(ARGS, args, NoFields)))))
  }

  function StartRequest(id: Json, op: Json, config: Json): Json {
    Request(id, op, Object(Field(CONFIG, config, NoFields)))
  }

  /** The arguments of one mutation: the input's envelope, provider, request, limit. */
  function MutationArgs(input: bytes, provider: Json, request: Json, limit: Json): Json {
    Object(Field(INPUT, Envelope(input),
           Field(PROVIDER, provider,
           Field(REQUEST, request,
           Field(LIMIT, limit, NoFields)))))
  }

  function MutateRequest(id: Json, op: Json, input: bytes, provider: Json, request: Json, limit: Json): Json {
    Request(id, op, MutationArgs(input, provider, request, limit))
  }

  function BatchRequest(id: Json, op: Json, items: Items): Json {
    Request(id, op, Object(Field(ITEMS, Array(items), NoFields)))
  }

  lemma RequestDepth(id: Json, op: Json, args: Json)
    requires Scalar(id) && Scalar(op)
    ensures Depth(Request(id, op, args)) == 1 + Depth(args)
  {
    var f3 := Field(ARGS, args, NoFields);
    assert FieldsDepth(f3) == Max(Depth(args), FieldsDepth(NoFields)) == Depth(args);
    var f2 := Field(OP, op, f3);
    assert FieldsDepth(f2) == Max(Depth(op), FieldsDepth(f3));
    var f1 := Field(ID, id, f2);
    assert FieldsDepth(f1) == Max(Depth(id), FieldsDepth(f2));
    assert FieldsDepth(Field(VERSION, Number([49]), f1)) == Max(Depth(Number([49])), FieldsDepth(f1));
  }

  lemma ArgsDepth(input: bytes, provider: Json, request: Json, limit: Json)
    requires Scalar(limit)
    ensures Depth(MutationArgs(input, provider, request, limit)) == 1 + Max(1, Max(Depth(provider), Depth(request)))
  {
    hide Envelope;
    EnvelopeDepth(input);
    var f3 := Field(LIMIT, limit, NoFields);
    assert FieldsDepth(f3) == Max(Depth(limit), FieldsDepth(NoFields)) == 0;
    var f2 := Field(REQUEST, request, f3);
    assert FieldsDepth(f2) == Max(Depth(request), FieldsDepth(f3));
    var f1 := Field(PROVIDER, provider, f2);
    assert FieldsDepth(f1) == Max(Depth(provider), FieldsDepth(f2));
    assert FieldsDepth(Field(INPUT, Envelope(input), f1)) == Max(Depth(Envelope(input)), FieldsDepth(f1));
  }

  /** A start or mutate request made of accepted values never nests too deep to be sent: 23 levels at most. */
  lemma SingleRequestsFit(id: Json, op: Json, config: Value, provider: Value, request: Value, input: bytes, limit: Json)
    requires Scalar(id) && Scalar(op) && Scalar(limit) && Sane(config) && Sane(provider) && Sane(request)
    requires JsonValue(config, 0).Ok? && JsonValue(provider, 0).Ok? && JsonValue(request, 0).Ok?
    ensures Depth(StartRequest(id, op, JsonValue(config, 0).value)) <= 23
    ensures Depth(MutateRequest(id, op, input, JsonValue(provider, 0).value, JsonValue(request, 0).value, limit)) <= 23
  {
    hide JsonValue, Request, MutationArgs;
    JsonValueExactly(config, 0);
    JsonValueExactly(provider, 0);
    JsonValueExactly(request, 0);
    var c := JsonValue(config, 0).value;
    var args := Object(Field(CONFIG, c, NoFields));
    assert FieldsDepth(args.fields) == Max(Depth(c), FieldsDepth(NoFields));
    RequestDepth(id, op, args);
    var p, r := JsonValue(provider, 0).value, JsonValue(request, 0).value;
    ArgsDepth(input, p, r, limit);
    RequestDepth(id, op, MutationArgs(input, p, r, limit));
  }

  /** One mutation of a batch, as the caller gives it. */
  datatype Mutation = Mutation(input: bytes, provider: Value, request: Value, limit: Json)

  predicate Accepted(m: Mutation) {
    && Scalar(m.limit) && Sane(m.provider) && Sane(m.request)
    && JsonValue(m.provider, 0).Ok? && JsonValue(m.request, 0).Ok?
  }

  function ItemOf(m: Mutation): Json
    requires Accepted(m)
  {
    MutationArgs(m.input, JsonValue(m.provider, 0).value, JsonValue(m.request, 0).value, m.limit)
  }

  function ItemsOf(ms: seq<Mutation>): Items
    requires forall i :: 0 <= i < |ms| ==> Accepted(ms[i])
  {
    if ms == [] then NoItems else Item(ItemOf(ms[0]), ItemsOf(ms[1..]))
  }

  /** Neither the provider nor the request uses all 21 levels it is allowed. */
  predicate Shallow(m: Mutation)
    requires Accepted(m)
  {
    Depth(JsonValue(m.provider, 0).value) <= 20 && Depth(JsonValue(m.request, 0).value) <= 20
  }

  lemma BatchDepth(id: Json, op: Json, items: Items)
    requires Scalar(id) && Scalar(op)
    ensures Depth(BatchRequest(id, op, items)) == 3 + ItemsDepth(items)
  {
    hide Request;
    var fields := Field(ITEMS, Array(items), NoFields);
    assert FieldsDepth(fields) == Max(Depth(Array(items)), FieldsDepth(NoFields));
    RequestDepth(id, op, Object(fields));
  }

  lemma {:induction false} ItemsFit(ms: seq<Mutation>)
    requires forall i :: 0 <= i < |ms| ==> Accepted(ms[i])
    ensures ItemsDepth(ItemsOf(ms)) <= 22
    ensures ItemsDepth(ItemsOf(ms)) <= 21 <==> forall i :: 0 <= i < |ms| ==> Shallow(ms[i])
  {
    hide MutationArgs, JsonValue, Depth;
    if ms == [] {
      assert ItemsDepth(NoItems) == 0;
    } else {
      var m := ms[0];
      var p, r := JsonValue(m.provider, 0).value, JsonValue(m.request, 0).value;
      JsonValueExactly(m.provider, 0);
      JsonValueExactly(m.request, 0);
      ArgsDepth(m.input, p, r, m.limit);
      ItemsFit(ms[1..]);
      assert forall i :: 1 <= i < |ms| ==> ms[i] == ms[1..][i - 1];
    }
  }

  /** A batch wraps each mutation two levels deeper, so one of accepted values is refused for its nesting
      exactly if a provider or a request somewhere in it uses all 21 levels it is allowed. */
  lemma BatchMayNotFit(id: Json, op: Json, ms: seq<Mutation>)
    requires Scalar(id) && Scalar(op) && forall i :: 0 <= i < |ms| ==> Accepted(ms[i])
    ensures Depth(BatchRequest(id, op, ItemsOf(ms))) <= 25
    ensures Depth(BatchRequest(id, op, ItemsOf(ms))) <= MAX_DEPTH <==> forall i :: 0 <= i < |ms| ==> Shallow(ms[i])
  {
    hide Shallow, ItemsOf, BatchRequest;
    BatchDepth(id, op, ItemsOf(ms));
    ItemsFit(ms);
  }

  // ----- what arrives -----

  /** A name in code points. */
  function Points(s: string): text {
    seq(|s|, i requires 0 <= i < |s| => s[i] as int)
  }

  /** The field of this name. */
  function Get(v: Json, name: string): Option<Json> {
    if v.Object? then Find(v.fields, Points(name)) else None
  }

  function Find(fields: Fields, key: text): Option<Json> {
    match fields
    case NoFields => None
    case Field(k, value, rest) => if k == key then Some(value) else Find(rest, key)
  }

  /** Version 1, this id, this operation, these arguments. */
  predicate Asks(v: Json, id: Json, op: Json, args: Json) {
    && Get(v, "version") == Some(Number([49])) && Get(v, "id") == Some(id) && Get(v, "op") == Some(op)
    && Get(v, "args") == Some(args)
  }

  /** These arguments ask for this mutation. */
  predicate AsksFor(args: Json, m: Mutation) {
    && Get(args, "input").Some? && IsEnvelopeOf(Get(args, "input").value, m.input)
    && Get(args, "provider").Some? && StandsFor(Get(args, "provider").value, m.provider)
    && Get(args, "request").Some? && StandsFor(Get(args, "request").value, m.request)
    && Get(args, "max_input_bytes") == Some(m.limit)
  }

  /** The items ask for these mutations, one for one and in order. */
  predicate AskForAll(items: Items, ms: seq<Mutation>) {
    if ms == [] then items.NoItems?
    else items.Item? && AsksFor(items.head, ms[0]) && AskForAll(items.tail, ms[1..])
  }

  lemma FourFields(k: seq<text>, v: seq<Json>)
    requires |k| == |v| == 4 && forall i, j :: 0 <= i < j < 4 ==> k[i] != k[j]
    ensures var fields := Field(k[0], v[0], Field(k[1], v[1], Field(k[2], v[2], Field(k[3], v[3], NoFields))));
            forall i :: 0 <= i < 4 ==> Find(fields, k[i]) == Some(v[i])
  {
    var f3 := Field(k[3], v[3], NoFields);
    var f2 := Field(k[2], v[2], f3);
    var f1 := Field(k[1], v[1], f2);
    assert Find(f2, k[2]) == Some(v[2]) && Find(f2, k[3]) == Find(f3, k[3]) == Some(v[3]);
    assert Find(f1, k[1]) == Some(v[1]) && Find(f1, k[2]) == Find(f2, k[2]) && Find(f1, k[3]) == Find(f2, k[3]);
  }

  lemma RequestAsks(id: Json, op: Json, args: Json)
    ensures Asks(Request(id, op, args), id, op, args)
  {
    hide Find;
    Names();
    var k, v := [VERSION, ID, OP, ARGS], [Number([49]), id, op, args];
    FourFields(k, v);
    var fields := Request(id, op, args).fields;
    assert Find(fields, k[0]) == Some(v[0]) && Find(fields, k[1]) == Some(v[1]);
    assert Find(fields, k[2]) == Some(v[2]) && Find(fields, k[3]) == Some(v[3]);
  }

  /** The names of the fields, as they are written, differ. */
  lemma Names()
    ensures Points("version") == VERSION && Points("id") == ID && Points("op") == OP && Points("args") == ARGS
    ensures Points("input") == INPUT && Points("provider") == PROVIDER && Points("request") == REQUEST
    ensures Points("max_input_bytes") == LIMIT && Points("config") == CONFIG && Points("items") == ITEMS
    ensures VERSION != ID && VERSION != OP && VERSION != ARGS && ID != OP && ID != ARGS && OP != ARGS
    ensures INPUT != PROVIDER && INPUT != REQUEST && INPUT != LIMIT && PROVIDER != REQUEST && PROVIDER != LIMIT
    ensures REQUEST != LIMIT
  {
    assert ID[0] != OP[0] && PROVIDER[0] != REQUEST[0];
  }

  lemma ItemAsks(m: Mutation)
    requires Accepted(m)
    ensures AsksFor(ItemOf(m), m)
  {
    hide JsonValue, StandsFor, IsEnvelopeOf, Envelope, Find;
    Names();
    EnvelopeStands(m.input);
    JsonValueStands(m.provider, 0);
    JsonValueStands(m.request, 0);
    var k := [INPUT, PROVIDER, REQUEST, LIMIT];
    var v := [Envelope(m.input), JsonValue(m.provider, 0).value, JsonValue(m.request, 0).value, m.limit];
    FourFields(k, v);
    var fields := ItemOf(m).fields;
    assert Find(fields, k[0]) == Some(v[0]) && Find(fields, k[1]) == Some(v[1]);
    assert Find(fields, k[2]) == Some(v[2]) && Find(fields, k[3]) == Some(v[3]);
  }

  lemma {:induction false} ItemsAsk(ms: seq<Mutation>)
    requires forall i :: 0 <= i < |ms| ==> Accepted(ms[i])
    ensures AskForAll(ItemsOf(ms), ms)
  {
    hide Accepted, AsksFor, ItemOf;
    if ms != [] {
      ItemAsks(ms[0]);
      ItemsAsk(ms[1..]);
    }
  }

  /** A mutation that the client gets to send is read at the other end as a request for that very mutation: its input,
      and what stands for its provider and its request. */
  lemma MutationArrives(id: Json, op: Json, m: Mutation, later: bytes)
    requires Accepted(m)
    requires var v := MutateRequest(id, op, m.input, JsonValue(m.provider, 0).value, JsonValue(m.request, 0).value,
                                    m.limit);
             Frame(v).Ok? && JsonReader.Sound(v)
    ensures var v := MutateRequest(id, op, m.input, JsonValue(m.provider, 0).value, JsonValue(m.request, 0).value,
                                   m.limit);
            var (read, rest) := Next(JsonReader.Parse, Frame(v).value + later);
            read.Ok? && rest == later && exists args :: Asks(read.value, id, op, args) && AsksFor(args, m)
  {
    hide JsonValue, StandsFor, IsEnvelopeOf, Next, Frame, JsonReader.Parse, JsonReader.Sound, Asks, AsksFor, Request;
    var args := ItemOf(m);
    SentIsRead(Request(id, op, args), later);
    RequestAsks(id, op, args);
    ItemAsks(m);
  }

  /** And a batch as a request for its mutations, in order. */
  lemma BatchArrives(id: Json, op: Json, ms: seq<Mutation>, later: bytes)
    requires forall i :: 0 <= i < |ms| ==> Accepted(ms[i])
    requires var v := BatchRequest(id, op, ItemsOf(ms)); Frame(v).Ok? && JsonReader.Sound(v)
    ensures var (read, rest) := Next(JsonReader.Parse, Frame(BatchRequest(id, op, ItemsOf(ms))).value + later);
            && read.Ok? && rest == later
            && exists items :: Asks(read.value, id, op, Object(Field(Points("items"), Array(items), NoFields)))
                               && AskForAll(items, ms)
  {
    hide Accepted, Next, Frame, JsonReader.Parse, JsonReader.Sound, Asks, AskForAll, ItemsOf, Request;
    var args := Object(Field(ITEMS, Array(ItemsOf(ms)), NoFields));
    SentIsRead(Request(id, op, args), later);
    RequestAsks(id, op, args);
    ItemsAsk(ms);
    Names();
  }

  /** A batch of one. */
  function BatchOfOne(id: Json, op: Json, input: bytes, provider: Json, request: Json, limit: Json): Json {
    BatchRequest(id, op, Item(MutationArgs(input, provider, request, limit), NoItems))
  }

  /** Lists in lists, n of them. */
  function Nested(n: nat): Value {
    if n == 0 then List(NoValues) else List(Val(Nested(n - 1), NoValues))
  }

  lemma {:induction false} NestedIs(n: nat, depth: nat)
    requires depth + n <= NESTING
    ensures Sane(Nested(n)) && JsonValue(Nested(n), depth).Ok?
    ensures var v := JsonValue(Nested(n), depth).value;
            Depth(v) == n + 1 && Nodes(v) == n + 1 && Printable(v)
  {
    assert ValuesSane(NoValues) && JsonValues(NoValues, depth + 1) == Ok(NoItems);
    assert ItemsDepth(NoItems) == 0 && ItemsNodes(NoItems) == 0 && ItemsPrintable(NoItems);
    if n > 0 {
      NestedIs(n - 1, depth + 1);
      var v := JsonValue(Nested(n - 1), depth + 1).value;
      assert JsonValues(Val(Nested(n - 1), NoValues), depth + 1) == Ok(Item(v, NoItems)) by {
        assert JsonValues(NoValues, depth + 1) == Ok(NoItems);
      }
      assert ItemsDepth(Item(v, NoItems)) == Max(Depth(v), ItemsDepth(NoItems));
      assert ItemsNodes(Item(v, NoItems)) == Nodes(v) + ItemsNodes(NoItems);
      assert ItemsPrintable(Item(v, NoItems)) && ValuesSane(Val(Nested(n - 1), NoValues));
    }
  }

  /** The request of a mutation that asks for nothing but its seed. */
  function SeedRequest(a: bytes, b: bytes, c: bytes): Value {
    Dict(Entry(Name(SEED), List(Val(Plain(Number(a)), Val(Plain(Number(b)), Val(Plain(Number(c)), NoValues)))),
               NoEntries))
  }

  function SeedObject(a: bytes, b: bytes, c: bytes): Json {
    Object(Field(SEED, Array(Item(Number(a), Item(Number(b), Item(Number(c), NoItems)))), NoFields))
  }

  lemma NumberInFront(a: bytes, items: Items)
    requires IsNumber(a)
    ensures ItemsDepth(Item(Number(a), items)) == ItemsDepth(items)
    ensures ItemsNodes(Item(Number(a), items)) == ItemsNodes(items)
    ensures ItemsPrintable(items) ==> ItemsPrintable(Item(Number(a), items))
  {
    assert Depth(Number(a)) == 0 && Nodes(Number(a)) == 0 && Printable(Number(a));
  }

  lemma SeedIs(a: bytes, b: bytes, c: bytes)
    requires IsNumber(a) && IsNumber(b) && IsNumber(c)
    ensures Sane(SeedRequest(a, b, c)) && JsonValue(SeedRequest(a, b, c), 0) == Ok(SeedObject(a, b, c))
    ensures var v := SeedObject(a, b, c);
            Depth(v) == 2 && Nodes(v) == 2 && Printable(v)
  {
    var v3 := Val(Plain(Number(c)), NoValues);
    var v2 := Val(Plain(Number(b)), v3);
    var v1 := Val(Plain(Number(a)), v2);
    var i3 := Item(Number(c), NoItems);
    var i2 := Item(Number(b), i3);
    var i1 := Item(Number(a), i2);
    assert ValuesSane(NoValues) && EntriesSane(NoEntries) && AllNames(NoEntries);
    assert ItemsNodes(NoItems) == 0 && ItemsDepth(NoItems) == 0 && ItemsPrintable(NoItems);
    assert FieldsNodes(NoFields) == 0 && FieldsDepth(NoFields) == 0 && FieldsPrintable(NoFields);
    assert Sane(Plain(Number(a))) && Sane(Plain(Number(b))) && Sane(Plain(Number(c)));
    assert Printable(Number(a)) && Printable(Number(b)) && Printable(Number(c));
    assert ValuesSane(v3);
    assert ValuesSane(v2);
    assert ValuesSane(v1);
    assert JsonValues(NoValues, 2) == Ok(NoItems);
    assert JsonValues(v3, 2) == Ok(i3);
    assert JsonValues(v2, 2) == Ok(i2);
    assert JsonValues(v1, 2) == Ok(i1);
    assert JsonValue(List(v1), 1) == Ok(Array(i1));
    var es := Entry(Name(SEED), List(v1), NoEntries);
    assert Sane(List(v1)) && EntriesSane(es) && AllNames(es);
    assert JsonEntries(NoEntries, 1) == Ok(NoFields);
    assert JsonEntries(es, 1) == Ok(Field(SEED, Array(i1), NoFields));
    NumberInFront(c, NoItems);
    NumberInFront(b, i3);
    NumberInFront(a, i2);
    var list := Array(i1);
    assert Depth(list) == 1 && Nodes(list) == 1 && Printable(list);
    var fields := Field(SEED, list, NoFields);
    assert FieldsDepth(fields) == 1 && FieldsNodes(fields) == 1 && FieldsPrintable(fields);
  }

  /** What a request adds to its arguments. */
  lemma RequestShape(id: Json, op: Json, args: Json)
    requires Scalar(id) && Scalar(op) && Printable(id) && Printable(op) && Printable(args)
    ensures Nodes(Request(id, op, args)) == 1 + Nodes(args) && Printable(Request(id, op, args))
  {
    assert FieldsNodes(NoFields) == 0 && FieldsPrintable(NoFields);
    var f3 := Field(ARGS, args, NoFields);
    assert FieldsNodes(f3) == Nodes(args) && FieldsPrintable(f3);
    var f2 := Field(OP, op, f3);
    assert FieldsNodes(f2) == Nodes(op) + FieldsNodes(f3) && FieldsPrintable(f2);
    var f1 := Field(ID, id, f2);
    assert FieldsNodes(f1) == Nodes(id) + FieldsNodes(f2) && FieldsPrintable(f1);
    assert Printable(Number([49])) by { assert IsNumber([49]); }
    var f0 := Field(VERSION, Number([49]), f1);
    assert FieldsNodes(f0) == Nodes(Number([49])) + FieldsNodes(f1) && FieldsPrintable(f0);
  }

  lemma ArgsShape(input: bytes, provider: Json, request: Json, limit: Json)
    requires Scalar(limit) && Printable(provider) && Printable(request) && Printable(limit)
    ensures var args := MutationArgs(input, provider, request, limit);
            Nodes(args) == 2 + Nodes(provider) + Nodes(request) && Printable(args)
  {
    hide Envelope;
    EnvelopeDepth(input);
    assert FieldsNodes(NoFields) == 0 && FieldsPrintable(NoFields);
    var f3 := Field(LIMIT, limit, NoFields);
    assert FieldsNodes(f3) == Nodes(limit) == 0 && FieldsPrintable(f3);
    var f2 := Field(REQUEST, request, f3);
    assert FieldsNodes(f2) == Nodes(request) + FieldsNodes(f3) && FieldsPrintable(f2);
    var f1 := Field(PROVIDER, provider, f2);
    assert FieldsNodes(f1) == Nodes(provider) + FieldsNodes(f2) && FieldsPrintable(f1);
    var f0 := Field(INPUT, Envelope(input), f1);
    assert FieldsNodes(f0) == Nodes(Envelope(input)) + FieldsNodes(f1) && FieldsPrintable(f0);
  }

  /** Wrapping a mutation into a batch of one. */
  lemma BatchShape(id: Json, op: Json, args: Json)
    requires Scalar(id) && Scalar(op) && Printable(id) && Printable(op) && Printable(args)
    ensures Printable(BatchRequest(id, op, Item(args, NoItems)))
    ensures Depth(BatchRequest(id, op, Item(args, NoItems))) == 3 + Depth(args)
  {
    hide Request;
    var items := Item(args, NoItems);
    assert ItemsDepth(items) == Max(Depth(args), ItemsDepth(NoItems));
    assert ItemsPrintable(NoItems) && ItemsPrintable(items);
    var fields := Field(ITEMS, Array(items), NoFields);
    assert FieldsPrintable(NoFields) && FieldsPrintable(fields);
    BatchDepth(id, op, items);
    RequestShape(id, op, Object(fields));
  }

  /** A provider nested 20 lists deep and a request of nothing but a seed: as long as the requests are not too
      long, the client sends them as a mutation, and refuses them, for their nesting, as a batch of one. */
  lemma BatchRefusesWhatMutateAccepts(id: Json, op: Json, input: bytes, limit: Json, a: bytes, b: bytes, c: bytes)
    requires Scalar(id) && Scalar(op) && Scalar(limit) && Printable(id) && Printable(op) && Printable(limit)
    requires IsNumber(a) && IsNumber(b) && IsNumber(c)
    requires var (p, r) := (JsonValue(Nested(20), 0), SeedObject(a, b, c));
             p.Ok? ==> |Print(MutateRequest(id, op, input, p.value, r, limit))| <= MAX_FRAME
                       && |Print(BatchOfOne(id, op, input, p.value, r, limit))| <= MAX_FRAME
    ensures var (p, r) := (JsonValue(Nested(20), 0), JsonValue(SeedRequest(a, b, c), 0));
            && p.Ok? && r.Ok?
            && Frame(MutateRequest(id, op, input, p.value, r.value, limit)).Ok?
            && Frame(BatchOfOne(id, op, input, p.value, r.value, limit)) == Err(Nesting(Complexity))
  {
    hide JsonValue, Request, MutationArgs, Nested, Objection, Print, BatchRequest, SeedObject, SeedRequest;
    hide Depth, Nodes;
    hide Printable;
    NestedIs(20, 0);
    SeedIs(a, b, c);
    var p, r := JsonValue(Nested(20), 0).value, SeedObject(a, b, c);
    var args := MutationArgs(input, p, r, limit);
    ArgsDepth(input, p, r, limit);
    ArgsShape(input, p, r, limit);
    RequestDepth(id, op, args);
    RequestShape(id, op, args);
    BatchShape(id, op, args);
    var one, batch := MutateRequest(id, op, input, p, r, limit), BatchOfOne(id, op, input, p, r, limit);
    SomethingPrinted(one);
    SomethingPrinted(batch);
    FrameExactly(one);
    FrameExactly(batch);
  }

  lemma SomethingPrinted(v: Json)
    ensures Depth(v) > 0 ==> |Print(v)| > 0
  {
  }
}
