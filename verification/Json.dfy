// JSON values, the compact ASCII form the client prints them in, and the byte scanner that bounds their
// nesting, against sections 2 and 7 of RFC 8259 (packages/pyefz/src/pyefz/protocol.py:35-58, 81-93).
module JsonText {
  import opened Bytes
  import opened Wrappers

  type codepoint = x: int | 0 <= x < 0x110000

  datatype Json =
    | Null
    | Bool(value: bool)
    | Number(digits: bytes)
    | Str(text: seq<codepoint>)
    | Array(items: Items)
    | Object(fields: Fields)

  datatype Items = NoItems | Item(head: Json, tail: Items)

  datatype Fields = NoFields | Field(key: seq<codepoint>, value: Json, rest: Fields)

  // ----- structure -----

  function Max(a: nat, b: nat): nat { if a >= b then a else b }

  /** How many containers are nested in each other at most. */
  function Depth(v: Json): nat {
    match v
    case Array(items) => 1 + ItemsDepth(items)
    case Object(fields) => 1 + FieldsDepth(fields)
    case _ => 0
  }

  function ItemsDepth(items: Items): nat {
    match items
    case NoItems => 0
    case Item(head, tail) => Max(Depth(head), ItemsDepth(tail))
  }

  function FieldsDepth(fields: Fields): nat {
    match fields
    case NoFields => 0
    case Field(_, value, rest) => Max(Depth(value), FieldsDepth(rest))
  }

  /** How many containers there are. */
  function Nodes(v: Json): nat {
    match v
    case Array(items) => 1 + ItemsNodes(items)
    case Object(fields) => 1 + FieldsNodes(fields)
    case _ => 0
  }

  function ItemsNodes(items: Items): nat {
    match items
    case NoItems => 0
    case Item(head, tail) => Nodes(head) + ItemsNodes(tail)
  }

  function FieldsNodes(fields: Fields): nat {
    match fields
    case NoFields => 0
    case Field(_, value, rest) => Nodes(value) + FieldsNodes(rest)
  }

  // ----- printing -----

  const QUOTE: byte := 34
  const BACKSLASH: byte := 92

  /** Digits, sign, point and exponent: what a number is written with. */
  predicate NumberByte(b: byte) {
    48 <= b <= 57 || b in {43, 45, 46, 69, 101}
  }

  predicate IsNumber(text: bytes) {
    forall i :: 0 <= i < |text| ==> NumberByte(text[i])
  }

  /** Every number is written as one. */
  predicate Printable(v: Json) {
    match v
    case Number(text) => IsNumber(text)
    case Array(items) => ItemsPrintable(items)
    case Object(fields) => FieldsPrintable(fields)
    case _ => true
  }

  predicate ItemsPrintable(items: Items) {
    items.Item? ==> Printable(items.head) && ItemsPrintable(items.tail)
  }

  predicate FieldsPrintable(fields: Fields) {
    fields.Field? ==> Printable(fields.value) && FieldsPrintable(fields.rest)
  }

  function HexDigit(n: nat): byte
    requires n < 16
  {
    if n < 10 then 48 + n else 87 + n
  }

  /** \uXXXX */
  function Unit(n: nat): bytes
    requires n < 0x10000
  {
    [BACKSLASH, 117, HexDigit(n / 4096), HexDigit(n / 256 % 16), HexDigit(n / 16 % 16), HexDigit(n % 16)]
  }

  /** A character inside a string: two-character escapes, \u escapes, surrogate pairs, or itself. */
  function Escape(c: codepoint): bytes {
    if c == 34 || c == 92 then [BACKSLASH, c]
    else if c == 8 then [BACKSLASH, 98]
    else if c == 9 then [BACKSLASH, 116]
    else if c == 10 then [BACKSLASH, 110]
    else if c == 12 then [BACKSLASH, 102]
    else if c == 13 then [BACKSLASH, 114]
    else if 32 <= c <= 126 then [c]
    else if c < 0x10000 then Unit(c)
    else Unit(0xD800 + (c - 0x10000) / 1024) + Unit(0xDC00 + (c - 0x10000) % 1024)
  }

  function Escapes(s: seq<codepoint>): bytes {
    if s == [] then [] else Escape(s[0]) + Escapes(s[1..])
  }

  function Quoted(s: seq<codepoint>): bytes {
    [QUOTE] + Escapes(s) + [QUOTE]
  }

  function Print(v: Json): bytes {
    match v
    case Null => [110, 117, 108, 108]
    case Bool(b) => if b then [116, 114, 117, 101] else [102, 97, 108, 115, 101]
    case Number(text) => text
    case Str(text) => Quoted(text)
    case Array(items) => [91] + PrintItems(items) + [93]
    case Object(fields) => [123] + PrintFields(fields) + [125]
  }

  function PrintItems(items: Items): bytes {
    match items
    case NoItems => []
    case Item(head, tail) => Print(head) + (if tail.NoItems? then [] else [44] + PrintItems(tail))
  }

  function PrintFields(fields: Fields): bytes {
    match fields
    case NoFields => []
    case Field(key, value, rest) =>
      Quoted(key) + [58] + Print(value) + (if rest.NoFields? then [] else [44] + PrintFields(rest))
  }

  // ----- scanning -----

  const MAX_DEPTH := 24
  const MAX_NODES := 32768

  datatype ScanError = Complexity | BadNesting | Incomplete

  datatype Scan = Scan(depth: nat, nodes: nat, quoted: bool, escaped: bool) | Failed(error: ScanError)

  function Step(s: Scan, b: byte): Scan {
    if s.Failed? then s
    else if s.quoted then
      if s.escaped then Scan(s.depth, s.nodes, true, false)
      else if b == BACKSLASH then Scan(s.depth, s.nodes, true, true)
      else if b == QUOTE then Scan(s.depth, s.nodes, false, false)
      else s
    else if b == QUOTE then Scan(s.depth, s.nodes, true, s.escaped)
    else if b == 91 || b == 123 then
      if s.depth + 1 > MAX_DEPTH || s.nodes + 1 > MAX_NODES then Failed(Complexity)
      else Scan(s.depth + 1, s.nodes + 1, false, s.escaped)
    else if b == 93 || b == 125 then
      if s.depth == 0 then Failed(BadNesting) else Scan(s.depth - 1, s.nodes, false, s.escaped)
    else s
  }

  function ScanAll(s: Scan, data: bytes): Scan
    decreases |data|
  {
    if data == [] then s else ScanAll(Step(s, data[0]), data[1..])
  }

  const START := Scan(0, 0, false, false)

  /** What `_depth` raises, if anything. */
  function Objection(data: bytes): Option<ScanError> {
    match ScanAll(START, data)
    case Failed(e) => Some(e)
    case Scan(depth, _, quoted, _) => if depth != 0 || quoted then Some(Incomplete) else None
  }

  /** `_depth`: one pass over the bytes. */
  method CheckDepth(data: bytes) returns (raised: Option<ScanError>)
    ensures raised == Objection(data)
  {
    var depth: nat, nodes: nat := 0, 0;
    var quoted, escaped := false, false;
    for i := 0 to |data|
      invariant ScanAll(Scan(depth, nodes, quoted, escaped), data[i..]) == ScanAll(START, data)
    {
      assert data[i..][1..] == data[i + 1..];
      var octet := data[i];
      if quoted {
        if escaped {
          escaped := false;
        } else if octet == BACKSLASH {
          escaped := true;
        } else if octet == QUOTE {
          quoted := false;
        }
      } else if octet == QUOTE {
        quoted := true;
      } else if octet == 91 || octet == 123 {
        depth, nodes := depth + 1, nodes + 1;
        if depth > MAX_DEPTH || nodes > MAX_NODES {
          FailedStays(Complexity, data[i + 1..]);
          return Some(Complexity);
        }
      } else if octet == 93 || octet == 125 {
        if depth - 1 < 0 {
          FailedStays(BadNesting, data[i + 1..]);
          return Some(BadNesting);
        }
        depth := depth - 1;
      }
    }
    raised := if depth != 0 || quoted then Some(Incomplete) else None;
  }

  lemma {:induction false} FailedStays(e: ScanError, data: bytes)
    ensures ScanAll(Failed(e), data) == Failed(e)
    decreases |data|
  {
    if data != [] {
      FailedStays(e, data[1..]);
    }
  }

  lemma {:induction false} ScanConcat(s: Scan, a: bytes, b: bytes)
    ensures ScanAll(s, a + b) == ScanAll(ScanAll(s, a), b)
    decreases |a|
  {
    if a == [] {
      assert a + b == b;
    } else {
      assert (a + b)[1..] == a[1..] + b;
      ScanConcat(Step(s, a[0]), a[1..], b);
    }
  }

  // ----- the scanner against the structure -----

  predicate PlainInString(b: byte) { b != QUOTE && b != BACKSLASH }

  predicate PlainOutside(b: byte) { b != QUOTE && b != 91 && b != 93 && b != 123 && b != 125 }

  lemma {:induction false} PlainInStringStays(d: nat, n: nat, data: bytes)
    requires forall i :: 0 <= i < |data| ==> PlainInString(data[i])
    ensures ScanAll(Scan(d, n, true, false), data) == Scan(d, n, true, false)
    decreases |data|
  {
    if data != [] {
      PlainInStringStays(d, n, data[1..]);
    }
  }

  lemma {:induction false} PlainOutsideStays(d: nat, n: nat, data: bytes)
    requires forall i :: 0 <= i < |data| ==> PlainOutside(data[i])
    ensures ScanAll(Scan(d, n, false, false), data) == Scan(d, n, false, false)
    decreases |data|
  {
    if data != [] {
      PlainOutsideStays(d, n, data[1..]);
    }
  }

  lemma Escaped(d: nat, n: nat, c: byte, rest: bytes)
    requires forall i :: 0 <= i < |rest| ==> PlainInString(rest[i])
    ensures ScanAll(Scan(d, n, true, false), [BACKSLASH, c] + rest) == Scan(d, n, true, false)
  {
    var data := [BACKSLASH, c] + rest;
    assert data[1..][1..] == rest;
    PlainInStringStays(d, n, rest);
  }

  lemma UnitScans(d: nat, n: nat, u: nat)
    requires u < 0x10000
    ensures ScanAll(Scan(d, n, true, false), Unit(u)) == Scan(d, n, true, false)
  {
    hide ScanAll;
    var rest := [HexDigit(u / 4096), HexDigit(u / 256 % 16), HexDigit(u / 16 % 16), HexDigit(u % 16)];
    assert Unit(u) == [BACKSLASH, 117] + rest;
    Escaped(d, n, 117, rest);
  }

  lemma EscapeScans(d: nat, n: nat, c: codepoint)
    ensures ScanAll(Scan(d, n, true, false), Escape(c)) == Scan(d, n, true, false)
  {
    hide ScanAll, Unit;
    if c == 34 || c == 92 || c == 8 || c == 9 || c == 10 || c == 12 || c == 13 {
      Escaped(d, n, Escape(c)[1], []);
      assert Escape(c) == [BACKSLASH, Escape(c)[1]] + [];
    } else if 32 <= c <= 126 {
      PlainInStringStays(d, n, [c]);
    } else if c < 0x10000 {
      UnitScans(d, n, c);
    } else {
      var high, low := 0xD800 + (c - 0x10000) / 1024, 0xDC00 + (c - 0x10000) % 1024;
      ScanConcat(Scan(d, n, true, false), Unit(high), Unit(low));
      UnitScans(d, n, high);
      UnitScans(d, n, low);
    }
  }

  lemma {:induction false} EscapesScan(d: nat, n: nat, s: seq<codepoint>)
    ensures ScanAll(Scan(d, n, true, false), Escapes(s)) == Scan(d, n, true, false)
    decreases |s|
  {
    hide ScanAll, Escape;
    if s == [] {
      PlainInStringStays(d, n, []);
    } else {
      ScanConcat(Scan(d, n, true, false), Escape(s[0]), Escapes(s[1..]));
      EscapeScans(d, n, s[0]);
      EscapesScan(d, n, s[1..]);
    }
  }

  lemma One(s: Scan, b: byte)
    ensures ScanAll(s, [b]) == Step(s, b)
  {
    assert [b][1..] == [];
  }

  /** A string, whatever is in it, looks to the scanner like nothing at all. */
  lemma QuotedScans(d: nat, n: nat, s: seq<codepoint>)
    ensures ScanAll(Scan(d, n, false, false), Quoted(s)) == Scan(d, n, false, false)
  {
    hide ScanAll, Escapes;
    var start := Scan(d, n, false, false);
    One(start, QUOTE);
    ScanConcat(start, [QUOTE], Escapes(s));
    EscapesScan(d, n, s);
    ScanConcat(start, [QUOTE] + Escapes(s), [QUOTE]);
    One(Scan(d, n, true, false), QUOTE);
  }

  /** Where the scanner stands after a value of this depth and size, begun d levels down after n containers. */
  function Outcome(d: nat, n: nat, depth: nat, nodes: nat): Scan {
    if d + depth <= MAX_DEPTH && n + nodes <= MAX_NODES then Scan(d, n + nodes, false, false) else Failed(Complexity)
  }

  lemma {:induction false} PrintScans(d: nat, n: nat, v: Json)
    requires d <= MAX_DEPTH && n <= MAX_NODES && Printable(v)
    ensures ScanAll(Scan(d, n, false, false), Print(v)) == Outcome(d, n, Depth(v), Nodes(v))
    decreases v
  {
    hide ScanAll;
    match v
    case Null => PlainOutsideStays(d, n, Print(v));
    case Bool(_) => PlainOutsideStays(d, n, Print(v));
    case Number(text) =>
      assert forall i :: 0 <= i < |text| ==> NumberByte(text[i]) && PlainOutside(text[i]);
      PlainOutsideStays(d, n, text);
    case Str(text) => QuotedScans(d, n, text);
    case Array(items) =>
      if d < MAX_DEPTH && n < MAX_NODES {
        ItemsScan(d + 1, n + 1, items);
      }
      Bracketed(d, n, 91, PrintItems(items), 93, ItemsDepth(items), ItemsNodes(items));
    case Object(fields) =>
      if d < MAX_DEPTH && n < MAX_NODES {
        FieldsScan(d + 1, n + 1, fields);
      }
      Bracketed(d, n, 123, PrintFields(fields), 125, FieldsDepth(fields), FieldsNodes(fields));
  }

  lemma Bracketed(d: nat, n: nat, open: byte, inner: bytes, close: byte, depth: nat, nodes: nat)
    requires (open == 91 && close == 93) || (open == 123 && close == 125)
    requires d <= MAX_DEPTH && n <= MAX_NODES
    requires d < MAX_DEPTH && n < MAX_NODES ==>
               ScanAll(Scan(d + 1, n + 1, false, false), inner) == Outcome(d + 1, n + 1, depth, nodes)
    ensures ScanAll(Scan(d, n, false, false), [open] + inner + [close]) == Outcome(d, n, depth + 1, nodes + 1)
  {
    hide ScanAll;
    var start := Scan(d, n, false, false);
    One(start, open);
    ScanConcat(start, [open], inner);
    ScanConcat(start, [open] + inner, [close]);
    FailedStays(Complexity, inner);
    One(ScanAll(start, [open] + inner), close);
  }

  lemma Joined(d: nat, n: nat, first: bytes, rest: bytes, depth: nat, nodes: nat, depth': nat, nodes': nat)
    requires ScanAll(Scan(d, n, false, false), first) == Outcome(d, n, depth, nodes)
    requires n + nodes <= MAX_NODES ==>
               ScanAll(Scan(d, n + nodes, false, false), rest) == Outcome(d, n + nodes, depth', nodes')
    ensures ScanAll(Scan(d, n, false, false), first + [44] + rest) == Outcome(d, n, Max(depth, depth'), nodes + nodes')
  {
    hide ScanAll;
    var start := Scan(d, n, false, false);
    ScanConcat(start, first, [44]);
    ScanConcat(start, first + [44], rest);
    One(Outcome(d, n, depth, nodes), 44);
    FailedStays(Complexity, rest);
  }

  lemma {:induction false} ItemsScan(d: nat, n: nat, items: Items)
    requires d <= MAX_DEPTH && n <= MAX_NODES && ItemsPrintable(items)
    ensures ScanAll(Scan(d, n, false, false), PrintItems(items)) == Outcome(d, n, ItemsDepth(items), ItemsNodes(items))
    decreases items
  {
    hide ScanAll, Print, Depth, Nodes, Printable;
    match items
    case NoItems => PlainOutsideStays(d, n, []);
    case Item(head, tail) =>
      PrintScans(d, n, head);
      if tail.NoItems? {
        assert PrintItems(items) == Print(head);
      } else {
        if n + Nodes(head) <= MAX_NODES {
          ItemsScan(d, n + Nodes(head), tail);
        }
        Joined(d, n, Print(head), PrintItems(tail), Depth(head), Nodes(head), ItemsDepth(tail), ItemsNodes(tail));
        assert PrintItems(items) == Print(head) + [44] + PrintItems(tail);
      }
  }

  lemma {:induction false} FieldsScan(d: nat, n: nat, fields: Fields)
    requires d <= MAX_DEPTH && n <= MAX_NODES && FieldsPrintable(fields)
    ensures ScanAll(Scan(d, n, false, false), PrintFields(fields))
            == Outcome(d, n, FieldsDepth(fields), FieldsNodes(fields))
    decreases fields
  {
    hide ScanAll, Print, Depth, Nodes, Printable, Quoted;
    match fields
    case NoFields => PlainOutsideStays(d, n, []);
    case Field(key, value, rest) =>
      PrintScans(d, n, value);
      KeyScans(d, n, key, Print(value));
      var first := Quoted(key) + [58] + Print(value);
      if rest.NoFields? {
        assert PrintFields(fields) == first;
      } else {
        if n + Nodes(value) <= MAX_NODES {
          FieldsScan(d, n + Nodes(value), rest);
        }
        Joined(d, n, first, PrintFields(rest), Depth(value), Nodes(value), FieldsDepth(rest), FieldsNodes(rest));
        assert PrintFields(fields) == first + [44] + PrintFields(rest);
      }
  }

  lemma KeyScans(d: nat, n: nat, key: seq<codepoint>, value: bytes)
    ensures ScanAll(Scan(d, n, false, false), Quoted(key) + [58] + value) == ScanAll(Scan(d, n, false, false), value)
  {
    hide ScanAll, Quoted;
    var start := Scan(d, n, false, false);
    QuotedScans(d, n, key);
    ScanConcat(start, Quoted(key), [58]);
    One(start, 58);
    ScanConcat(start, Quoted(key) + [58], value);
  }

  /** On the printed form of any value the scanner accepts exactly if the value nests at most 24 deep and
      has at most 32768 containers; otherwise it objects to complexity and nothing else. */
  lemma ScannerIsExact(v: Json)
    requires Printable(v)
    ensures Objection(Print(v)) == if Depth(v) <= 24 && Nodes(v) <= 32768 then None else Some(Complexity)
  {
    hide Print, Depth, Nodes, ScanAll, Printable;
    PrintScans(0, 0, v);
  }
}
