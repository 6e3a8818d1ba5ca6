// The worker wire: u32-length-prefixed frames and the streaming decoder
// (priv/efz_external.py:25-71).
module Wire {
  import opened Bytes
  import opened Wrappers

  const MAX_INPUT := 1048576
  const MAX_FRAME := MAX_INPUT + 65536 + 59
  const MAX_CHUNK := 4096
  const MAX_ROWS := 64

  datatype Frame = Frame(kind: nat, generation: nat, run: nat, payload: bytes)

  datatype EncodeError = StructRange

  datatype DecodeError = ReadChunkLimit | FrameLength | FrameRate

  predicate Sound(f: Frame) {
    && f.kind < 0x100
    && f.generation < U32_SPAN
    && f.run < U64_SPAN
    && |f.payload| + 13 <= MAX_FRAME
  }

  predicate AllSound(frames: seq<Frame>) {
    forall i :: 0 <= i < |frames| ==> Sound(frames[i])
  }

  predicate FrameLen(n: int) { 13 <= n <= MAX_FRAME }

  /** A body behind its length. */
  function Prefixed(row: bytes): bytes
    requires |row| < U32_SPAN
  {
    Be32(|row|) + row
  }

  /** `encode`: struct.pack refuses a field that does not fit its width. */
  function Encode(f: Frame): (r: Result<bytes, EncodeError>)
    ensures r.Ok? <==> f.kind < 0x100 && f.generation < U32_SPAN
                       && f.run < U64_SPAN && |f.payload| + 13 < U32_SPAN
    ensures r.Ok? ==> |r.value| == |f.payload| + 17
  {
    if f.kind < 0x100 && f.generation < U32_SPAN && f.run < U64_SPAN
       && |f.payload| + 13 < U32_SPAN
    then Ok(Prefixed(Header(f) + f.payload))
    else Err(StructRange)
  }

  function Header(f: Frame): (b: bytes)
    requires f.kind < 0x100 && f.generation < U32_SPAN && f.run < U64_SPAN
    ensures |b| == 13
  {
    [f.kind] + Be32(f.generation) + Be64(f.run)
  }

  /** struct.unpack("!BIQ", b[:13]) and b[13:]. */
  function Fields(row: bytes): Frame
    requires |row| >= 13
  {
    Frame(row[0], U32(row[1..5]), U64(row[5..13]), row[13..])
  }

  lemma FieldsOfRow(f: Frame)
    requires Sound(f)
    ensures Fields(Header(f) + f.payload) == f
  {
    var row := Header(f) + f.payload;
    assert row[1..5] == Be32(f.generation);
    assert row[5..13] == Be64(f.run);
    assert row[13..] == f.payload;
  }

  // ----- the reference parse of a whole stream -----

  /** rows: the complete frames; rest: what follows them; bad: rest starts with an illegal length. */
  datatype Parse = Parse(rows: seq<bytes>, rest: bytes, bad: bool)

  function Split(stream: bytes): (p: Parse)
    ensures Bodies(p.rows)
    decreases |stream|
  {
    if Ready(stream) then
      var p := Split(Later(stream));
      Parse([First(stream)] + p.rows, p.rest, p.bad)
    else
      Parse([], stream, IllegalLength(stream))
  }

  /** Bytes no frame can be taken from yet. */
  predicate Incomplete(rest: bytes) {
    !Ready(rest) && !IllegalLength(rest)
  }

  predicate IllegalLength(rest: bytes) {
    |rest| >= 4 && !FrameLen(U32(rest[..4]))
  }

  predicate Bodies(rows: seq<bytes>) {
    forall i :: 0 <= i < |rows| ==> FrameLen(|rows[i]|)
  }

  function Flatten(rows: seq<bytes>): bytes
    requires Bodies(rows)
  {
    if rows == [] then [] else Prefixed(rows[0]) + Flatten(rows[1..])
  }

  predicate Ready(stream: bytes) {
    |stream| >= 4 && FrameLen(U32(stream[..4])) && |stream| >= U32(stream[..4]) + 4
  }

  function First(stream: bytes): (row: bytes)
    requires Ready(stream)
    ensures FrameLen(|row|)
  {
    stream[4..U32(stream[..4]) + 4]
  }

  function Later(stream: bytes): (rest: bytes)
    requires Ready(stream)
    ensures |rest| < |stream|
  {
    stream[U32(stream[..4]) + 4..]
  }

  lemma FirstSound(stream: bytes)
    requires Ready(stream)
    ensures stream == Prefixed(First(stream)) + Later(stream)
  {
    Be32Inverse(stream[..4]);
  }

  lemma FirstComplete(row: bytes, later: bytes)
    requires FrameLen(|row|)
    ensures var stream := Prefixed(row) + later;
            Ready(stream) && First(stream) == row && Later(stream) == later
  {
    var stream := Prefixed(row) + later;
    assert stream[..4] == Be32(|row|);
  }

  lemma FirstExtends(a: bytes, b: bytes)
    requires Ready(a)
    ensures Ready(a + b) && First(a + b) == First(a) && Later(a + b) == Later(a) + b
  {
    assert (a + b)[..4] == a[..4];
  }

  /** The parse is the one decomposition of the stream into frames and an unfinished tail. */
  lemma {:induction false} SplitSound(stream: bytes)
    ensures var p := Split(stream);
            && stream == Flatten(p.rows) + p.rest
            && (if p.bad then IllegalLength(p.rest) else Incomplete(p.rest))
    decreases |stream|
  {
    hide Prefixed, First, Later, Ready, IllegalLength, Flatten;
    if Ready(stream) {
      var first, later := First(stream), Later(stream);
      var p := Split(later);
      FirstSound(stream);
      SplitSound(later);
      FlattenMore(first, p.rows);
      assert Prefixed(first) + (Flatten(p.rows) + p.rest) == Prefixed(first) + Flatten(p.rows) + p.rest;
    } else {
      FlattenNone(stream);
    }
  }

  lemma FlattenNone(rest: bytes)
    ensures Flatten([]) + rest == rest
  {
  }

  lemma FlattenMore(row: bytes, rows: seq<bytes>)
    requires FrameLen(|row|) && Bodies(rows)
    ensures Bodies([row] + rows) && Flatten([row] + rows) == Prefixed(row) + Flatten(rows)
  {
    hide Prefixed;
    assert ([row] + rows)[1..] == rows;
  }

  lemma NoFrameFirst(rest: bytes)
    requires Incomplete(rest) || IllegalLength(rest)
    ensures Split(rest) == Parse([], rest, IllegalLength(rest)) && !Ready(rest)
    ensures Incomplete(rest) ==> !IllegalLength(rest)
  {
  }

  lemma {:induction false} SplitComplete(rows: seq<bytes>, rest: bytes)
    requires Bodies(rows)
    requires Incomplete(rest) || IllegalLength(rest)
    ensures Split(Flatten(rows) + rest) == Parse(rows, rest, IllegalLength(rest))
  {
    hide Prefixed, First, Later, Ready;
    if rows == [] {
      NoFrameFirst(rest);
      assert Flatten(rows) + rest == rest;
    } else {
      var tail := Flatten(rows[1..]) + rest;
      FirstComplete(rows[0], tail);
      assert Flatten(rows) + rest == Prefixed(rows[0]) + tail;
      SplitComplete(rows[1..], rest);
    }
  }

  /** Cutting a stream anywhere: parse the first part, carry the rest over. */
  lemma {:induction false} SplitConcat(a: bytes, b: bytes)
    requires !Split(a).bad
    ensures var p, q := Split(a), Split(Split(a).rest + b);
            Split(a + b) == Parse(p.rows + q.rows, q.rest, q.bad)
    decreases |a|
  {
    hide Prefixed, First, Later, Ready, IllegalLength, FrameLen;
    var p, q := Split(a), Split(Split(a).rest + b);
    if Ready(a) {
      var p' := Split(Later(a));
      FirstExtends(a, b);
      SplitConcat(Later(a), b);
      assert [First(a)] + (p'.rows + q.rows) == p.rows + q.rows;
    } else {
      assert p.rows + q.rows == q.rows;
    }
  }

  // ----- what one feed does -----

  /** What is left after the first n frames have been deleted. */
  function Dropped(stream: bytes, n: nat): bytes
    requires n <= |Split(stream).rows|
    decreases n
  {
    if n == 0 then stream else Dropped(Later(stream), n - 1)
  }

  lemma {:induction false} DropOne(stream: bytes, n: nat)
    requires n < |Split(stream).rows|
    ensures var rest := Dropped(stream, n);
            Ready(rest) && Dropped(stream, n + 1) == Later(rest)
    decreases n
  {
    hide First, Later;
    if n > 0 {
      DropOne(Later(stream), n - 1);
    }
  }

  /** Part of the stream has been handed out and deleted, the rest is still in the buffer. */
  predicate Underway(stream: bytes, rows: seq<bytes>, buffer: bytes) {
    var p := Split(buffer);
    && Split(stream) == Parse(rows + p.rows, p.rest, p.bad)
    && Dropped(stream, |rows|) == buffer
  }

  lemma Peel(stream: bytes, rows: seq<bytes>, buffer: bytes)
    requires Underway(stream, rows, buffer) && Ready(buffer)
    ensures Underway(stream, rows + [First(buffer)], Later(buffer))
  {
    hide First, Later, Ready;
    var p := Split(Later(buffer));
    assert rows + ([First(buffer)] + p.rows) == rows + [First(buffer)] + p.rows;
    DropOne(stream, |rows|);
  }

  lemma AllOut(stream: bytes, rows: seq<bytes>, buffer: bytes)
    requires Underway(stream, rows, buffer) && !Ready(buffer)
    ensures Split(stream) == Parse(rows, buffer, IllegalLength(buffer))
  {
    assert rows + [] == rows;
  }

  function Fed(buffer: bytes, data: bytes): (Result<seq<bytes>, DecodeError>, bytes) {
    if |data| > MAX_CHUNK then (Err(ReadChunkLimit), buffer) else
    var p := Split(buffer + data);
    if |p.rows| > MAX_ROWS then (Err(FrameRate), Dropped(buffer + data, MAX_ROWS + 1))
    else if p.bad then (Err(FrameLength), p.rest)
    else (Ok(p.rows), p.rest)
  }

  class Decoder {
    var buffer: bytes
    var waiting: bool  // `since is not None`
    var since: real

    constructor ()
      ensures buffer == [] && !waiting
    {
      buffer, waiting, since := [], false, 0.0;
    }

    /** Takes bytes as they come and hands out the frames they complete; `since` is when the
        present unfinished frame was first seen. */
    method Feed(data: bytes, now: real) returns (r: Result<seq<bytes>, DecodeError>)
      modifies this
      ensures (r, buffer) == Fed(old(buffer), data)
      ensures r.Err? ==> waiting == old(waiting) && since == old(since)
      ensures r.Ok? ==> waiting == (buffer != [])
      ensures r.Ok? && waiting ==> since == if old(waiting) then old(since) else now
    {
      hide U32, Be32;
      if |data| > MAX_CHUNK {
        return Err(ReadChunkLimit);
      }
      buffer := buffer + data;
      ghost var stream := buffer;
      var rows: seq<bytes> := [];
      assert rows + Split(stream).rows == Split(stream).rows;
      hide Split, Dropped;
      while |buffer| >= 4
        invariant |rows| <= MAX_ROWS && Underway(stream, rows, buffer)
        invariant waiting == old(waiting) && since == old(since)
        decreases |buffer|
      {
        var n := U32(buffer[..4]);
        if !FrameLen(n) {
          AllOut(stream, rows, buffer);
          return Err(FrameLength);
        }
        if |buffer| < n + 4 {
          break;
        }
        Peel(stream, rows, buffer);
        var b := buffer[4..n + 4];
        buffer := buffer[n + 4..];
        rows := rows + [b];
        if |rows| > MAX_ROWS {
          return Err(FrameRate);
        }
      }
      AllOut(stream, rows, buffer);
      if buffer != [] {
        if !waiting {
          waiting, since := true, now;
        }
      } else {
        waiting := false;
      }
      r := Ok(rows);
    }
  }

  /** When each error is raised, said of the bytes alone. */
  lemma FeedErrors(buffer: bytes, data: bytes)
    ensures var stream := buffer + data;
            && (Fed(buffer, data).0 == Err(ReadChunkLimit) <==> |data| > 4096)
            && (Fed(buffer, data).0 == Err(FrameRate) <==>
                |data| <= 4096 && exists rows, rest :: Overfull(stream, rows, rest))
            && (Fed(buffer, data).0 == Err(FrameLength) <==>
                |data| <= 4096 && exists rows, rest :: Misframed(stream, rows, rest))
  {
    hide Split, Incomplete, IllegalLength, Prefixed, Flatten, FrameLen;
    var stream := buffer + data;
    var p := Split(stream);
    SplitSound(stream);
    if |p.rows| > MAX_ROWS {
      var head, tail := p.rows[..MAX_ROWS + 1], p.rows[MAX_ROWS + 1..];
      FlattenConcat(head, tail);
      assert head + tail == p.rows;
      assert Overfull(stream, head, Flatten(tail) + p.rest);
    } else if p.bad {
      assert Misframed(stream, p.rows, p.rest);
    }
    forall rows, rest | Overfull(stream, rows, rest) ensures |p.rows| > MAX_ROWS {
      PrefixOfRows(rows, rest);
    }
    forall rows, rest | Misframed(stream, rows, rest) ensures p == Parse(rows, rest, true) {
      SplitComplete(rows, rest);
    }
  }

  /** The stream opens with one frame more than a feed may hand out. */
  ghost predicate Overfull(stream: bytes, rows: seq<bytes>, rest: bytes) {
    Bodies(rows) && |rows| == 65 && stream == Flatten(rows) + rest
  }

  /** An illegal length stands behind at most as many frames as a feed may hand out. */
  ghost predicate Misframed(stream: bytes, rows: seq<bytes>, rest: bytes) {
    Bodies(rows) && |rows| <= 64 && IllegalLength(rest) && stream == Flatten(rows) + rest
  }

  lemma {:induction false} DropAll(rows: seq<bytes>, rest: bytes)
    requires Bodies(rows)
    ensures var stream := Flatten(rows) + rest;
            |rows| <= |Split(stream).rows| && Dropped(stream, |rows|) == rest
    decreases |rows|
  {
    hide Prefixed, First, Later, Ready;
    PrefixOfRows(rows, rest);
    if rows != [] {
      var later := Flatten(rows[1..]) + rest;
      assert FrameLen(|rows[0]|) && Bodies(rows[1..]);
      DropAll(rows[1..], rest);
      FirstComplete(rows[0], later);
      assert Flatten(rows) + rest == Prefixed(rows[0]) + later;
    } else {
      FlattenNone(rest);
    }
  }

  /** What an error leaves in the buffer: what it was, if too much came; what stands behind the 65th frame; or the
      illegal length and all behind it. */
  lemma ErrorLeaves(buffer: bytes, data: bytes, rows: seq<bytes>, rest: bytes)
    ensures |data| > 4096 ==> Fed(buffer, data).1 == buffer
    ensures |data| <= 4096 && (Overfull(buffer + data, rows, rest) || Misframed(buffer + data, rows, rest)) ==>
              Fed(buffer, data).1 == rest
  {
    hide Split, IllegalLength, Prefixed, Flatten, FrameLen, Dropped;
    if Overfull(buffer + data, rows, rest) {
      DropAll(rows, rest);
      PrefixOfRows(rows, rest);
    } else if Misframed(buffer + data, rows, rest) {
      SplitComplete(rows, rest);
    }
  }

  lemma PrefixOfRows(rows: seq<bytes>, rest: bytes)
    requires Bodies(rows)
    ensures rows <= Split(Flatten(rows) + rest).rows
  {
    hide Split, Incomplete, IllegalLength, Prefixed, FrameLen;
    var q := Split(rest);
    SplitSound(rest);
    FlattenConcat(rows, q.rows);
    assert Flatten(rows) + rest == Flatten(rows + q.rows) + q.rest;
    SplitComplete(rows + q.rows, q.rest);
  }

  lemma {:induction false} FlattenConcat(a: seq<bytes>, b: seq<bytes>)
    requires Bodies(a) && Bodies(b)
    ensures Flatten(a + b) == Flatten(a) + Flatten(b)
  {
    if a == [] {
      assert a + b == b;
    } else {
      assert (a + b)[1..] == a[1..] + b;
      FlattenConcat(a[1..], b);
    }
  }

  // ----- chunking does not matter -----

  /** Feeding one chunk after another; None as soon as one feed raises. */
  datatype Drained = Raised | Drained(rows: seq<bytes>, rest: bytes)

  function Feeds(buffer: bytes, chunks: seq<bytes>): Drained
    decreases |chunks|
  {
    if chunks == [] then Drained([], buffer) else
    var (r, buffer') := Fed(buffer, chunks[0]);
    if r.Err? then Raised else
    match Feeds(buffer', chunks[1..])
    case Raised => Raised
    case Drained(rows, rest) => Drained(r.value + rows, rest)
  }

  /** However the bytes were cut, the rows and the leftover are those of the whole stream. */
  lemma {:induction false} ChunksAsWhole(buffer: bytes, chunks: seq<bytes>)
    requires Incomplete(buffer)
    requires Feeds(buffer, chunks).Drained?
    ensures var d := Feeds(buffer, chunks);
            Split(buffer + Concat(chunks)) == Parse(d.rows, d.rest, false)
    decreases |chunks|
  {
    hide Split, Incomplete, Prefixed;
    if chunks == [] {
      NoFrameFirst(buffer);
      assert buffer + Concat(chunks) == buffer;
    } else {
      var stream, later := buffer + chunks[0], Concat(chunks[1..]);
      var p := Split(stream);
      SplitSound(stream);
      assert Fed(buffer, chunks[0]) == (Ok(p.rows), p.rest);
      var d := Feeds(p.rest, chunks[1..]);
      assert Feeds(buffer, chunks) == Drained(p.rows + d.rows, d.rest);
      ChunksAsWhole(p.rest, chunks[1..]);
      SplitConcat(stream, later);
      assert buffer + Concat(chunks) == stream + later;
    }
  }

  /** Any two chunkings of the same bytes on which no feed raises agree. */
  lemma ChunkingIrrelevant(one: seq<bytes>, two: seq<bytes>)
    requires Concat(one) == Concat(two)
    requires Feeds([], one).Drained? && Feeds([], two).Drained?
    ensures Feeds([], one) == Feeds([], two)
  {
    ChunksAsWhole([], one);
    ChunksAsWhole([], two);
  }

  // ----- the row limit -----

  lemma {:induction false} FlattenLength(rows: seq<bytes>)
    requires Bodies(rows)
    ensures |Flatten(rows)| >= 17 * |rows|
  {
    if rows != [] {
      FlattenLength(rows[1..]);
    }
  }

  /** At most 1088 new bytes complete at most 64 frames, whatever was left over before. */
  lemma SmallChunksKeepRate(buffer: bytes, data: bytes)
    requires Incomplete(buffer)
    requires |data| <= 1088
    ensures Fed(buffer, data).0 != Err(FrameRate)
  {
    var stream := buffer + data;
    var p := Split(stream);
    SplitSound(stream);
    if p.rows != [] {
      FlattenLength(p.rows[1..]);
      if |buffer| >= 4 {
        assert stream[..4] == buffer[..4];
      }
      assert |Flatten(p.rows)| >= |buffer| + 1 + 17 * (|p.rows| - 1);
    }
  }

  /** 1089 is enough to trip it: the last byte of one smallest frame and 64 more such frames. */
  lemma RateBoundIsTight()
    ensures exists buffer, data ::
              Incomplete(buffer) && |data| == 1089 && Fed(buffer, data).0 == Err(FrameRate)
  {
    hide Split, Incomplete, Flatten, U32, Be32;
    var row: bytes := [0, 0, 0, 0, 0, 0, 0, 0, 0, 0, 0, 0, 0];
    CopiesFlatten(row, 65);
    var rows := Copies(row, 65);
    var stream := Flatten(rows);
    var buffer, data := stream[..16], stream[16..];
    ShortOfOne(rows);
    assert buffer + data == stream == stream + [];
    NoBytesLeft();
    SplitComplete(rows, []);
    assert Fed(buffer, data).0 == Err(FrameRate);
  }

  lemma ShortOfOne(rows: seq<bytes>)
    requires Bodies(rows) && rows != [] && |rows[0]| == 13
    ensures |Flatten(rows)| >= 17 && Incomplete(Flatten(rows)[..16])
  {
    hide U32, Be32;
    assert Flatten(rows) == Prefixed(rows[0]) + Flatten(rows[1..]);
    assert Flatten(rows)[..16][..4] == Be32(13);
  }

  function Copies(row: bytes, n: nat): (rows: seq<bytes>)
    ensures |rows| == n
  {
    if n == 0 then [] else [row] + Copies(row, n - 1)
  }

  lemma {:induction false} CopiesFlatten(row: bytes, n: nat)
    requires FrameLen(|row|)
    ensures Bodies(Copies(row, n)) && |Flatten(Copies(row, n))| == n * (|row| + 4)
  {
    hide U32, Be32;
    if n > 0 {
      CopiesFlatten(row, n - 1);
      assert Copies(row, n)[1..] == Copies(row, n - 1);
    }
  }

  // ----- round trip -----

  function EncodeAll(frames: seq<Frame>): bytes
    requires AllSound(frames)
  {
    if frames == [] then [] else Encode(frames[0]).value + EncodeAll(frames[1..])
  }

  function Decoded(rows: seq<bytes>): (frames: seq<Frame>)
    requires Bodies(rows)
    ensures |frames| == |rows|
    ensures forall i :: 0 <= i < |rows| ==> frames[i] == Fields(rows[i])
  {
    seq(|rows|, i requires 0 <= i < |rows| => Fields(rows[i]))
  }

  /** The frame bodies on the wire. */
  function Rows(frames: seq<Frame>): (rows: seq<bytes>)
    requires AllSound(frames)
    ensures Bodies(rows) && |rows| == |frames|
  {
    if frames == [] then [] else [Header(frames[0]) + frames[0].payload] + Rows(frames[1..])
  }

  lemma {:induction false} EncodedRows(frames: seq<Frame>)
    requires AllSound(frames)
    ensures Flatten(Rows(frames)) == EncodeAll(frames)
    ensures Decoded(Rows(frames)) == frames
  {
    hide Header, Prefixed, Fields;
    if frames != [] {
      var f, rows := frames[0], Rows(frames);
      EncodedRows(frames[1..]);
      FieldsOfRow(f);
      EncodeIsPrefixed(f);
      assert rows[1..] == Rows(frames[1..]);
      forall i | 0 <= i < |rows| ensures Fields(rows[i]) == frames[i] {
        assert i > 0 ==> Fields(rows[i]) == Decoded(rows[1..])[i - 1];
      }
    }
  }

  lemma EncodeIsPrefixed(f: Frame)
    requires Sound(f)
    ensures Encode(f) == Ok(Prefixed(Header(f) + f.payload))
  {
  }

  /** Four octets, most significant first. */
  function Octets(a: int, b: int, c: int, d: int): int {
    a * 0x100_0000 + b * 0x1_0000 + c * 0x100 + d
  }

  /** Every integer of a frame stands in it with its most significant octet first: length, kind, generation, run
      and then the payload. */
  lemma FrameLayout(f: Frame)
    requires Encode(f).Ok?
    ensures var b := Encode(f).value;
            && |b| == 17 + |f.payload| && b[17..] == f.payload && b[4] == f.kind
            && Octets(b[0], b[1], b[2], b[3]) == 13 + |f.payload|
            && Octets(b[5], b[6], b[7], b[8]) == f.generation
            && Octets(b[9], b[10], b[11], b[12]) * 0x1_0000_0000 + Octets(b[13], b[14], b[15], b[16]) == f.run
  {
    hide Octets, Be32, Be64, U32, U64;
    var row := Header(f) + f.payload;
    var b := Prefixed(row);
    Four(b[..4]);
    Four(b[5..9]);
    assert b[..4] == Be32(13 + |f.payload|) && b[5..9] == Be32(f.generation) && b[9..17] == Be64(f.run);
    Eight(b[9..17]);
  }

  /** The length a stream announces is illegal, octet by octet: under 13, or over the largest PREPARE. */
  lemma IllegalExactly(stream: bytes)
    ensures IllegalLength(stream)
            <==> |stream| >= 4 && var n := Octets(stream[0], stream[1], stream[2], stream[3]); n < 13 || n > 1114171
  {
    hide Octets, U32;
    if |stream| >= 4 {
      Four(stream[..4]);
    }
  }

  /** The sound frames are exactly those that can be encoded and that the decoder then lets through. */
  lemma SoundExactly(f: Frame)
    ensures Sound(f) <==> Encode(f).Ok? && !IllegalLength(Encode(f).value)
  {
    hide U32, U64, Be64;
    if Encode(f).Ok? {
      var row := Header(f) + f.payload;
      assert Prefixed(row)[..4] == Be32(|row|);
    }
  }

  lemma Four(b: bytes)
    requires |b| == 4
    ensures U32(b) == Octets(b[0], b[1], b[2], b[3])
  {
    FirstFour(b);
  }

  lemma FirstFour(b: bytes)
    requires |b| >= 4
    ensures Val(b, 4) == Octets(b[0], b[1], b[2], b[3])
  {
    assert Val(b, 1) == Val(b, 0) * 256 + (b[0] as int) && Val(b, 2) == Val(b, 1) * 256 + (b[1] as int);
    assert Val(b, 3) == Val(b, 2) * 256 + (b[2] as int) && Val(b, 4) == Val(b, 3) * 256 + (b[3] as int);
  }

  lemma Eight(b: bytes)
    requires |b| == 8
    ensures U64(b) == Octets(b[0], b[1], b[2], b[3]) * 0x1_0000_0000 + Octets(b[4], b[5], b[6], b[7])
  {
    FirstFour(b);
    assert Val(b, 5) == Val(b, 4) * 256 + (b[4] as int) && Val(b, 6) == Val(b, 5) * 256 + (b[5] as int);
    assert Val(b, 7) == Val(b, 6) * 256 + (b[6] as int) && Val(b, 8) == Val(b, 7) * 256 + (b[7] as int);
  }

  /** Whatever is sent is what is read: same frames, nothing left, in any chunking that raises nothing. */
  lemma WireRoundTrip(frames: seq<Frame>, chunks: seq<bytes>)
    requires AllSound(frames)
    requires Concat(chunks) == EncodeAll(frames)
    requires Feeds([], chunks).Drained?
    ensures Feeds([], chunks) == Drained(Rows(frames), [])
    ensures Decoded(Rows(frames)) == frames
  {
    hide Split, Flatten, Rows, EncodeAll, Decoded;
    EncodedRows(frames);
    NoBytesLeft();
    ChunksAsWhole([], chunks);
    assert [] + Concat(chunks) == Flatten(Rows(frames)) + [];
    SplitComplete(Rows(frames), []);
  }

  /** And nothing is raised when no chunk is longer than 1088 bytes. */
  lemma {:induction false} SmallChunksDrain(buffer: bytes, chunks: seq<bytes>, rows: seq<bytes>)
    requires Incomplete(buffer) && Bodies(rows)
    requires buffer + Concat(chunks) == Flatten(rows)
    requires forall c :: c in chunks ==> |c| <= 1088
    ensures Feeds(buffer, chunks).Drained?
    decreases |chunks|
  {
    hide Split, Incomplete, IllegalLength, Prefixed, Flatten;
    if chunks != [] {
      var stream, later := buffer + chunks[0], Concat(chunks[1..]);
      assert stream + later == Flatten(rows);
      var rest, rows' := CutBetween(stream, later, rows);
      SmallChunksKeepRate(buffer, chunks[0]);
      SmallChunksDrain(rest, chunks[1..], rows');
    }
  }

  lemma BadStaysBad(a: bytes, b: bytes)
    requires Split(a).bad
    ensures Split(a + b).bad
  {
    hide Split, Ready, Prefixed, FrameLen;
    var p := Split(a);
    SplitSound(a);
    assert (p.rest + b)[..4] == p.rest[..4];
    SplitComplete(p.rows, p.rest + b);
    assert a + b == Flatten(p.rows) + (p.rest + b);
  }

  lemma NoBytesLeft()
    ensures Incomplete([])
  {
  }

  /** A cut stream of whole frames: a good first part, and whole frames again from its leftover on. */
  lemma CutBetween(a: bytes, b: bytes, rows: seq<bytes>) returns (rest: bytes, rows': seq<bytes>)
    requires Bodies(rows) && a + b == Flatten(rows)
    ensures !Split(a).bad && rest == Split(a).rest && Incomplete(rest)
    ensures Bodies(rows') && rest + b == Flatten(rows')
  {
    hide Split, Incomplete, Prefixed, Flatten, FrameLen, IllegalLength;
    var p := Split(a);
    rest := p.rest;
    SplitSound(a);
    NoBytesLeft();
    assert a + b == Flatten(rows) + [];
    SplitComplete(rows, []);
    if p.bad {
      BadStaysBad(a, b);
    }
    SplitConcat(a, b);
    SplitSound(rest + b);
    rows' := Split(rest + b).rows;
    assert Flatten(rows') + [] == Flatten(rows');
  }
}
