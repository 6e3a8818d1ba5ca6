// A reader for what the printer prints, after sections 3 to 7 of RFC 8259: it reads every printable value back, so
// that what the protocol asks of a JSON library can be had (packages/pyefz/src/pyefz/protocol.py:61-93).
module JsonReader {
  import opened Bytes
  import opened JsonText
  import opened Wrappers

  // ----- strings -----

  function HexWorth(b: byte): Option<nat> {
    if 48 <= b <= 57 then Some(b - 48)
    else if 97 <= b <= 102 then Some(b - 87)
    else if 65 <= b <= 70 then Some(b - 55)
    else None
  }

  /** Four hexadecimal digits. */
  function ReadUnit(b: bytes): (r: Option<nat>)
    ensures r.Some? ==> r.value < 0x10000
  {
    if |b| < 4 then None else
    match (HexWorth(b[0]), HexWorth(b[1]), HexWorth(b[2]), HexWorth(b[3]))
    case (Some(i), Some(j), Some(k), Some(l)) =>
      if i < 16 && j < 16 && k < 16 && l < 16 then Some(i * 4096 + j * 256 + k * 16 + l) else None
    case _ => None
  }

  predicate High(n: nat) { 0xD800 <= n < 0xDC00 }

  predicate Low(n: nat) { 0xDC00 <= n < 0xE000 }

  /** The character that begins here, and what follows it. */
  function ReadChar(b: bytes): (r: Option<(codepoint, bytes)>)
    ensures r.Some? ==> |r.value.1| < |b|
  {
    if b == [] || b[0] == 34 || b[0] < 32 || b[0] > 126 then None
    else if b[0] != 92 then Some((b[0] as int, b[1..]))
    else if |b| < 2 then None
    else if b[1] == 34 || b[1] == 92 || b[1] == 47 then Some((b[1] as int, b[2..]))
    else if b[1] == 98 then Some((8, b[2..]))
    else if b[1] == 102 then Some((12, b[2..]))
    else if b[1] == 110 then Some((10, b[2..]))
    else if b[1] == 114 then Some((13, b[2..]))
    else if b[1] == 116 then Some((9, b[2..]))
    else if b[1] == 117 then ReadEscape(b)
    else None
  }

  /** \\uXXXX, or two of them where they are the two halves of a surrogate pair. */
  function ReadEscape(b: bytes): (r: Option<(codepoint, bytes)>)
    requires |b| >= 2
    ensures r.Some? ==> |r.value.1| < |b|
  {
    match ReadUnit(b[2..])
    case None => None
    case Some(n) =>
      if High(n) && |b| >= 8 && b[6] == 92 && b[7] == 117 && ReadUnit(b[8..]).Some? && Low(ReadUnit(b[8..]).value)
      then Some((0x10000 + (n - 0xD800) * 1024 + (ReadUnit(b[8..]).value - 0xDC00), b[12..]))
      else Some((n, b[6..]))
  }

  /** Characters up to the closing quote, and what follows it. */
  function ReadChars(b: bytes): (r: Option<(seq<codepoint>, bytes)>)
    ensures r.Some? ==> |r.value.1| < |b|
    decreases |b|
  {
    if b != [] && b[0] == 34 then Some(([], b[1..])) else
    match ReadChar(b)
    case None => None
    case Some((c, later)) =>
      match ReadChars(later)
      case None => None
      case Some((s, rest)) => Some(([c] + s, rest))
  }

  /** No character is the first half of a surrogate pair and the next the second. */
  predicate Unpaired(s: seq<codepoint>) {
    forall i :: 0 <= i < |s| - 1 ==> !(High(s[i]) && Low(s[i + 1]))
  }

  lemma DigitWorth(n: nat)
    requires n < 16
    ensures HexWorth(HexDigit(n)) == Some(n)
  {
  }

  lemma FourDigits(n: nat)
    requires n < 0x10000
    ensures n / 4096 < 16
    ensures n / 4096 * 4096 + n / 256 % 16 * 256 + n / 16 % 16 * 16 + n % 16 == n
  {
    var a, b, c := n / 4096, n / 256, n / 16;
    assert n == 16 * c + n % 16 && c == 16 * b + c % 16 && b == 16 * a + b % 16;
  }

  lemma UnitBack(n: nat, later: bytes)
    requires n < 0x10000
    ensures |Unit(n)| == 6 && Unit(n)[0] == 92 && Unit(n)[1] == 117
    ensures ReadUnit((Unit(n) + later)[2..]) == Some(n)
  {
    hide HexDigit, HexWorth;
    FourDigits(n);
    var i, j, k, l := n / 4096, n / 256 % 16, n / 16 % 16, n % 16;
    DigitWorth(i);
    DigitWorth(j);
    DigitWorth(k);
    DigitWorth(l);
    assert (Unit(n) + later)[2..] == [HexDigit(i), HexDigit(j), HexDigit(k), HexDigit(l)] + later;
  }

  /** A low half of a pair is next. */
  predicate LowNext(b: bytes) {
    |b| >= 6 && b[0] == 92 && b[1] == 117 && ReadUnit(b[2..]).Some? && Low(ReadUnit(b[2..]).value)
  }

  lemma CharBack(c: codepoint, later: bytes)
    requires !(High(c) && LowNext(later))
    ensures ReadChar(Escape(c) + later) == Some((c, later))
  {
    hide ReadEscape, Unit;
    var b := Escape(c) + later;
    if c == 34 || c == 92 || c == 8 || c == 9 || c == 10 || c == 12 || c == 13 {
      assert b[2..] == later;
    } else if 32 <= c <= 126 {
      assert b[1..] == later;
    } else if c < 0x10000 {
      UnitIsRead(c, later);
    } else {
      PairIsRead(c, later);
    }
  }

  lemma UnitIsRead(c: nat, later: bytes)
    requires c < 0x10000 && !(High(c) && LowNext(later))
    ensures var b := Unit(c) + later; |b| >= 6 && b[0] == 92 && b[1] == 117 && ReadEscape(b) == Some((c, later))
  {
    hide Unit, ReadUnit;
    UnitBack(c, later);
    var b := Unit(c) + later;
    assert b[6..] == later;
    if |b| >= 8 {
      assert b[8..] == later[2..] && b[6] == later[0] && b[7] == later[1];
      if b[6] == 92 && b[7] == 117 && ReadUnit(b[8..]).Some? {
        assert |b[8..]| >= 4 by { UnitLength(b[8..]); }
      }
    }
  }

  lemma UnitLength(b: bytes)
    requires ReadUnit(b).Some?
    ensures |b| >= 4
  {
  }

  lemma PairIsRead(c: nat, later: bytes)
    requires 0x10000 <= c < 0x110000
    ensures var b := Unit(0xD800 + (c - 0x10000) / 1024) + Unit(0xDC00 + (c - 0x10000) % 1024) + later;
            |b| >= 6 && b[0] == 92 && b[1] == 117 && ReadEscape(b) == Some((c, later))
  {
    hide Unit, ReadUnit;
    var high, low := 0xD800 + (c - 0x10000) / 1024, 0xDC00 + (c - 0x10000) % 1024;
    var b := Unit(high) + Unit(low) + later;
    UnitBack(high, Unit(low) + later);
    UnitBack(low, later);
    assert b == Unit(high) + (Unit(low) + later);
    assert b[8..] == (Unit(low) + later)[2..] && b[6] == Unit(low)[0] && b[7] == Unit(low)[1] && b[12..] == later;
  }

  lemma EscapeStarts(c: codepoint, later: bytes)
    ensures Escape(c) != [] && Escape(c)[0] != 34
    ensures LowNext(Escape(c) + later) ==> Low(c)
  {
    hide ReadUnit, Unit;
    if 0x7F <= c < 0x10000 || (c < 32 && c !in {8, 9, 10, 12, 13}) {
      UnitBack(c, later);
    } else if c >= 0x10000 {
      var high, low := 0xD800 + (c - 0x10000) / 1024, 0xDC00 + (c - 0x10000) % 1024;
      UnitBack(high, Unit(low) + later);
      assert Escape(c) + later == Unit(high) + (Unit(low) + later);
    }
  }

  lemma {:induction false} CharsBack(s: seq<codepoint>, later: bytes)
    requires Unpaired(s)
    ensures ReadChars(Escapes(s) + [34] + later) == Some((s, later))
    decreases |s|
  {
    hide ReadChar, Escape, LowNext;
    var b := Escapes(s) + [34] + later;
    if s == [] {
      assert b[1..] == later;
    } else {
      var c, rest := s[0], Escapes(s[1..]) + [34] + later;
      assert b == Escape(c) + rest;
      EscapeStarts(c, rest);
      assert b[0] == Escape(c)[0];
      if |s| > 1 {
        var rest1 := Escapes(s[2..]) + [34] + later;
        assert s[1..][0] == s[1] && s[1..][1..] == s[2..];
        assert rest == Escape(s[1]) + rest1;
        EscapeStarts(s[1], rest1);
      } else {
        assert s[1..] == [] && rest == [34] + later;
        QuoteIsNotLow(later);
      }
      CharBack(c, rest);
      CharsBack(s[1..], later);
      assert [c] + s[1..] == s;
    }
  }

  lemma QuoteIsNotLow(later: bytes)
    ensures !LowNext([34] + later)
  {
  }

  // ----- values -----

  /** How many bytes of a number there are in front. */
  function NumberLength(b: bytes): (n: nat)
    ensures n <= |b| && forall i :: 0 <= i < n ==> NumberByte(b[i])
  {
    if b == [] || !NumberByte(b[0]) then 0 else 1 + NumberLength(b[1..])
  }

  predicate StartsWith(b: bytes, word: bytes) {
    |b| >= |word| && b[..|word|] == word
  }

  function ReadValue(b: bytes): (r: Option<(Json, bytes)>)
    ensures r.Some? ==> |r.value.1| < |b|
    decreases |b|, 1
  {
    if StartsWith(b, [110, 117, 108, 108]) then Some((Null, b[4..]))
    else if StartsWith(b, [116, 114, 117, 101]) then Some((Bool(true), b[4..]))
    else if StartsWith(b, [102, 97, 108, 115, 101]) then Some((Bool(false), b[5..]))
    else if NumberLength(b) > 0 then Some((Number(b[..NumberLength(b)]), b[NumberLength(b)..]))
    else if b == [] then None
    else if b[0] == 34 then (match ReadChars(b[1..]) case None => None case Some((t, rest)) => Some((Str(t), rest)))
    else if b[0] == 91 then
      if StartsWith(b[1..], [93]) then Some((Array(NoItems), b[2..]))
      else (match ReadItems(b[1..]) case None => None case Some((items, rest)) => Some((Array(items), rest)))
    else if b[0] == 123 then
      if StartsWith(b[1..], [125]) then Some((Object(NoFields), b[2..]))
      else (match ReadFields(b[1..]) case None => None case Some((fields, rest)) => Some((Object(fields), rest)))
    else None
  }

  /** One item or more, and the closing bracket. */
  function ReadItems(b: bytes): (r: Option<(Items, bytes)>)
    ensures r.Some? ==> |r.value.1| < |b|
    decreases |b|, 2
  {
    match ReadValue(b)
    case None => None
    case Some((v, rest)) =>
      if StartsWith(rest, [93]) then Some((Item(v, NoItems), rest[1..]))
      else if StartsWith(rest, [44]) then
        (match ReadItems(rest[1..]) case None => None case Some((items, later)) => Some((Item(v, items), later)))
      else None
  }

  /** One field or more, and the closing brace. */
  function ReadFields(b: bytes): (r: Option<(Fields, bytes)>)
    ensures r.Some? ==> |r.value.1| < |b|
    decreases |b|, 2
  {
    if !StartsWith(b, [34]) then None else
    match ReadChars(b[1..])
    case None => None
    case Some((key, rest)) =>
      if !StartsWith(rest, [58]) then None else
      match ReadValue(rest[1..])
      case None => None
      case Some((v, later)) =>
        if StartsWith(later, [125]) then Some((Field(key, v, NoFields), later[1..]))
        else if StartsWith(later, [44]) then
          (match ReadFields(later[1..])
           case None => None
           case Some((fields, last)) => Some((Field(key, v, fields), last)))
        else None
  }

  /** Numbers are written with something, and texts hold no pair of characters that read as one. */
  predicate Sound(v: Json) {
    match v
    case Number(digits) => digits != [] && IsNumber(digits)
    case Str(t) => Unpaired(t)
    case Array(items) => ItemsSound(items)
    case Object(fields) => FieldsSound(fields)
    case _ => true
  }

  predicate ItemsSound(items: Items) {
    items.Item? ==> Sound(items.head) && ItemsSound(items.tail)
  }

  predicate FieldsSound(fields: Fields) {
    fields.Field? ==> Unpaired(fields.key) && Sound(fields.value) && FieldsSound(fields.rest)
  }

  /** What comes behind a value that a number does not run into. */
  predicate Ends(later: bytes) {
    later == [] || !NumberByte(later[0])
  }

  lemma {:induction false} NumberIsRead(digits: bytes, later: bytes)
    requires IsNumber(digits) && Ends(later)
    ensures NumberLength(digits + later) == |digits|
    decreases |digits|
  {
    if digits == [] {
      assert digits + later == later;
    } else {
      assert (digits + later)[1..] == digits[1..] + later;
      NumberIsRead(digits[1..], later);
    }
  }

  /** What a value begins with. */
  lemma Begins(v: Json)
    requires Sound(v)
    ensures Print(v) != [] && Print(v)[0] != 93 && Print(v)[0] != 125
  {
    hide PrintItems, PrintFields, Escapes, Sound;
    if v.Number? {
      assert v.digits != [] && NumberByte(v.digits[0]) by { NumberBegins(v); }
    }
  }

  lemma NumberBegins(v: Json)
    requires Sound(v) && v.Number?
    ensures v.digits != [] && NumberByte(v.digits[0])
  {
  }

  lemma {:induction false} ValueBack(v: Json, later: bytes)
    requires Sound(v) && Ends(later)
    ensures ReadValue(Print(v) + later) == Some((v, later))
    decreases v, 0
  {
    hide ReadChars, ReadItems, ReadFields, PrintItems, PrintFields, Escapes, NumberLength, ItemsSound, FieldsSound;
    hide Unpaired;
    match v
    case Number(digits) =>
      NumberBack(digits, later);
    case Str(t) =>
      TextBack(t, later);
    case Array(items) =>
      ArrayBack(items, later);
    case Object(fields) =>
      ObjectBack(fields, later);
    case _ =>
      WordBack(v, later);
  }

  lemma WordBack(v: Json, later: bytes)
    requires v.Null? || v.Bool?
    ensures ReadValue(Print(v) + later) == Some((v, later))
  {
    hide ReadChars, ReadItems, ReadFields, NumberLength;
    var word := Print(v);
    var b := word + later;
    assert b[|word|..] == later && b[..|word|] == word;
    FirstByte(b, [110, 117, 108, 108]);
    FirstByte(b, [116, 114, 117, 101]);
  }

  lemma NumberBack(digits: bytes, later: bytes)
    requires digits != [] && IsNumber(digits) && Ends(later)
    ensures ReadValue(digits + later) == Some((Number(digits), later))
  {
    hide ReadChars, ReadItems, ReadFields, NumberLength;
    var b := digits + later;
    NumberIsRead(digits, later);
    assert b[0] == digits[0] && NumberByte(b[0]);
    assert b[..|digits|] == digits && b[|digits|..] == later;
    NotAWord(b);
  }

  lemma FirstByte(b: bytes, word: bytes)
    requires word != []
    ensures StartsWith(b, word) ==> b != [] && b[0] == word[0]
  {
    if StartsWith(b, word) {
      assert b[..|word|][0] == b[0];
    }
  }

  /** Nothing that begins like a number, a text or a container is one of the three words. */
  lemma NotAWord(b: bytes)
    requires b != [] && b[0] !in {110, 116, 102}
    ensures !StartsWith(b, [110, 117, 108, 108]) && !StartsWith(b, [116, 114, 117, 101])
    ensures !StartsWith(b, [102, 97, 108, 115, 101])
  {
    hide StartsWith;
    FirstByte(b, [110, 117, 108, 108]);
    FirstByte(b, [116, 114, 117, 101]);
    FirstByte(b, [102, 97, 108, 115, 101]);
  }

  lemma NotANumber(b: bytes)
    requires b != [] && !NumberByte(b[0])
    ensures NumberLength(b) == 0
  {
  }

  lemma TextBack(t: seq<codepoint>, later: bytes)
    requires Unpaired(t)
    ensures ReadValue(Quoted(t) + later) == Some((Str(t), later))
  {
    hide ReadChars, ReadItems, ReadFields, NumberLength, Escapes, Unpaired, StartsWith;
    var b := Quoted(t) + later;
    CharsBack(t, later);
    assert b[1..] == Escapes(t) + [34] + later && b[0] == 34;
    NotAWord(b);
    NotANumber(b);
  }

  lemma {:induction false} ArrayBack(items: Items, later: bytes)
    requires ItemsSound(items) && Ends(later)
    ensures ReadValue(Print(Array(items)) + later) == Some((Array(items), later))
    decreases items, 1
  {
    hide ReadChars, ReadItems, ReadFields, NumberLength, ItemsSound;
    var b := Print(Array(items)) + later;
    assert b == [91] + (PrintItems(items) + [93] + later) && b[0] == 91;
    assert b[1..] == PrintItems(items) + [93] + later;
    NotAWord(b);
    NotANumber(b);
    if items.NoItems? {
      assert b[2..] == later && b[1..][..1] == [93];
    } else {
      ItemsBack(items, later);
      ItemsBegin(items);
      assert b[1] == PrintItems(items)[0] && b[1..][0] == b[1];
      FirstByte(b[1..], [93]);
    }
  }

  lemma ItemsBegin(items: Items)
    requires items.Item? && ItemsSound(items)
    ensures PrintItems(items) != [] && PrintItems(items)[0] != 93
  {
    hide Print, Sound;
    assert Sound(items.head);
    Begins(items.head);
  }

  lemma {:induction false} ItemsBack(items: Items, later: bytes)
    requires items.Item? && ItemsSound(items) && Ends(later)
    ensures ReadItems(PrintItems(items) + [93] + later) == Some((items, later))
    decreases items, 0
  {
    hide ReadValue, Print, Sound;
    var b := PrintItems(items) + [93] + later;
    if items.tail.NoItems? {
      var rest := [93] + later;
      assert b == Print(items.head) + rest && rest[..1] == [93] && rest[1..] == later;
      ValueBack(items.head, rest);
    } else {
      var rest := [44] + (PrintItems(items.tail) + [93] + later);
      assert b == Print(items.head) + rest && rest[..1] == [44] && rest[1..] == PrintItems(items.tail) + [93] + later;
      ValueBack(items.head, rest);
      ItemsBack(items.tail, later);
    }
  }

  lemma {:induction false} ObjectBack(fields: Fields, later: bytes)
    requires FieldsSound(fields) && Ends(later)
    ensures ReadValue(Print(Object(fields)) + later) == Some((Object(fields), later))
    decreases fields, 1
  {
    hide ReadChars, ReadItems, ReadFields, NumberLength, FieldsSound, PrintFields;
    var b := Print(Object(fields)) + later;
    assert b == [123] + (PrintFields(fields) + [125] + later) && b[0] == 123;
    assert b[1..] == PrintFields(fields) + [125] + later;
    NotAWord(b);
    NotANumber(b);
    if fields.NoFields? {
      assert PrintFields(fields) == [] by { NoFieldsPrint(fields); }
      assert b[2..] == later && b[1..][..1] == [125];
    } else {
      FieldsBack(fields, later);
      FieldsBegin(fields);
      FirstByte(b[1..], [125]);
    }
  }

  lemma NoFieldsPrint(fields: Fields)
    requires fields.NoFields?
    ensures PrintFields(fields) == []
  {
  }

  lemma FieldsBegin(fields: Fields)
    requires fields.Field?
    ensures PrintFields(fields) != [] && PrintFields(fields)[0] == 34
  {
    hide Print, Escapes;
  }

  /** What comes behind the value of the first field. */
  function Behind(fields: Fields, later: bytes): bytes
    requires fields.Field?
  {
    if fields.rest.NoFields? then [125] + later else [44] + (PrintFields(fields.rest) + [125] + later)
  }

  lemma Regroup(a: bytes, b: bytes, c: bytes, d: bytes)
    ensures a + b + c + d == a + (b + c + d)
  {
  }

  lemma FieldShape(fields: Fields, later: bytes)
    requires fields.Field?
    ensures PrintFields(fields) + [125] + later
            == [34] + (Escapes(fields.key) + [34] + ([58] + (Print(fields.value) + Behind(fields, later))))
  {
    hide Print, Escapes, Behind, Quoted;
    var key, value := Quoted(fields.key), Print(fields.value);
    var more := if fields.rest.NoFields? then [] else [44] + PrintFields(fields.rest);
    assert more + [125] + later == Behind(fields, later) by { BehindShape(fields, later); }
    Regroup(key + [58] + value, more, [125], later);
    assert key + [58] + value + Behind(fields, later) == key + ([58] + (value + Behind(fields, later)));
    QuotedShape(fields.key, [58] + (value + Behind(fields, later)));
  }

  lemma BehindShape(fields: Fields, later: bytes)
    requires fields.Field?
    ensures (if fields.rest.NoFields? then [] else [44] + PrintFields(fields.rest)) + [125] + later
            == Behind(fields, later)
  {
    hide PrintFields;
  }

  lemma QuotedShape(key: seq<codepoint>, later: bytes)
    ensures Quoted(key) + later == [34] + (Escapes(key) + [34] + later)
  {
    hide Escapes;
  }

  lemma {:induction false} FieldsBack(fields: Fields, later: bytes)
    requires fields.Field? && FieldsSound(fields) && Ends(later)
    ensures ReadFields(PrintFields(fields) + [125] + later) == Some((fields, later))
    decreases fields, 0
  {
    hide ReadValue, ReadChars, Print, PrintFields, Sound, Escapes, Unpaired;
    var b, rest := PrintFields(fields) + [125] + later, Behind(fields, later);
    var value := Print(fields.value) + rest;
    FieldShape(fields, later);
    assert b[..1] == [34] && b[1..] == Escapes(fields.key) + [34] + ([58] + value);
    CharsBack(fields.key, [58] + value);
    assert ([58] + value)[..1] == [58] && ([58] + value)[1..] == value;
    ValueBack(fields.value, rest);
    if fields.rest.NoFields? {
      assert rest[..1] == [125] && rest[1..] == later;
    } else {
      assert rest[..1] == [44] && rest[1..] == PrintFields(fields.rest) + [125] + later;
      FieldsBack(fields.rest, later);
    }
  }

  // ----- texts -----

  /** The one value a text holds. */
  function Parse(data: bytes): Option<Json> {
    match ReadValue(data)
    case None => None
    case Some((v, rest)) => if rest == [] then Some(v) else None
  }

  /** What is printed of a sound value is read back as that value. */
  lemma ReadsBack(v: Json)
    requires Sound(v)
    ensures Parse(Print(v)) == Some(v)
  {
    hide ReadValue, Print, Sound;
    ValueBack(v, []);
    assert Print(v) + [] == Print(v);
  }

  lemma {:induction false} EscapesConcat(a: seq<codepoint>, b: seq<codepoint>)
    ensures Escapes(a + b) == Escapes(a) + Escapes(b)
  {
    hide Escape;
    if a == [] {
      assert a + b == b;
    } else {
      assert (a + b)[1..] == a[1..] + b;
      EscapesConcat(a[1..], b);
    }
  }

  lemma PairPrints(high: nat, low: nat)
    requires High(high) && Low(low)
    ensures Escapes([high, low]) == Escapes([0x10000 + (high - 0xD800) * 1024 + (low - 0xDC00)])
  {
    hide Unit;
    var c := 0x10000 + (high - 0xD800) * 1024 + (low - 0xDC00);
    assert (c - 0x10000) / 1024 == high - 0xD800 && (c - 0x10000) % 1024 == low - 0xDC00;
    assert [high, low][1..] == [low];
    EscapesOne(low);
    EscapesOne(c);
  }

  lemma EscapesOne(c: codepoint)
    ensures Escapes([c]) == Escape(c)
  {
    hide Escape;
    assert [c][1..] == [];
  }

  /** A text printed alike in which no pair is left. */
  lemma {:induction false} Joined(t: seq<codepoint>) returns (u: seq<codepoint>)
    ensures Unpaired(u) && Escapes(u) == Escapes(t) && (u == t || |u| < |t|)
    decreases |t|
  {
    hide Escapes;
    if Unpaired(t) {
      u := t;
    } else {
      var i :| 0 <= i < |t| - 1 && High(t[i]) && Low(t[i + 1]);
      var c := 0x10000 + (t[i] - 0xD800) * 1024 + (t[i + 1] - 0xDC00);
      PairPrints(t[i], t[i + 1]);
      assert t == t[..i] + [t[i], t[i + 1]] + t[i + 2..];
      EscapesConcat(t[..i] + [t[i], t[i + 1]], t[i + 2..]);
      EscapesConcat(t[..i], [t[i], t[i + 1]]);
      EscapesConcat(t[..i] + [c], t[i + 2..]);
      EscapesConcat(t[..i], [c]);
      u := Joined(t[..i] + [c] + t[i + 2..]);
    }
  }

  /** A text is read back exactly if it nowhere holds the two halves of a surrogate pair as two characters: those
      are printed like the one character they make. */
  lemma TextReadsBackExactly(t: seq<codepoint>)
    ensures Parse(Print(Str(t))) == Some(Str(t)) <==> Unpaired(t)
  {
    hide Parse, Escapes;
    var u := Joined(t);
    ReadsBack(Str(u));
    assert Print(Str(u)) == Print(Str(t));
    if Unpaired(t) {
      ReadsBack(Str(t));
    }
  }
}
