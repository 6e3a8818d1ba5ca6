// The Python client as an object: its lock regions, its reader loop and its write loop
// (packages/pyefz/src/pyefz/client.py:208-249, 264-297, 310-337).
module ClientObject {
  import opened Bytes
  import opened Session
  import opened Wrappers

  // ----- the write loop -----

  /** What one round of the write loop meets. A write takes at most what it is given. */
  datatype WriteEvent = DeadlinePassed | NotWritable | WouldBlock | Wrote(n: nat) | OsFailure

  datatype WriteEnd = Whole | TimedOut | Raised

  function Taken(n: nat, left: nat): (m: nat)
    ensures m <= left
  {
    if n <= left then n else left
  }

  /** Where the loop over a message of length n gets to: bytes written, how it ends, and whether any
      write went through. It is cut short like any other exception when the events run out. */
  function Push(n: nat, k: nat, sent: bool, events: seq<WriteEvent>): (r: (nat, WriteEnd, bool))
    requires k <= n
    ensures k <= r.0 <= n && (r.1.Whole? <==> r.0 == n) && (sent ==> r.2) && (r.0 > k ==> r.2)
    decreases |events|
  {
    if k == n then (k, Whole, sent)
    else if events == [] then (k, WriteEnd.Raised, sent)
    else match events[0]
      case DeadlinePassed => (k, TimedOut, sent)
      case NotWritable => (k, TimedOut, sent)
      case WouldBlock => Push(n, k, sent, events[1..])
      case Wrote(m) => Push(n, k + Taken(m, n - k), true, events[1..])
      case OsFailure => (k, WriteEnd.Raised, sent)
  }

  /** A thread's turn with the write lock. */
  datatype Turn = Turn(message: bytes, events: seq<WriteEvent>)

  /** The channel between turns: all bytes written, the frames that went out whole, whether the client
      has recorded a failure, and whether an error other than a timeout ever cut a frame. */
  datatype Channel = Channel(stream: bytes, frames: seq<bytes>, failed: bool, torn: bool)

  function Written(ch: Channel, t: Turn): Channel {
    var (k, end, sent) := Push(|t.message|, 0, false, t.events);
    Channel(ch.stream + t.message[..k],
            if end.Whole? then ch.frames + [t.message] else ch.frames,
            ch.failed || (end.TimedOut? && sent),
            ch.torn || (end.Raised? && k > 0))
  }

  /** The turns in lock order; a failure may also be recorded by another thread before any of them. */
  function AllWritten(ch: Channel, turns: seq<(bool, Turn)>): Channel
    decreases |turns|
  {
    if turns == [] then ch
    else AllWritten(Written(ch.(failed := ch.failed || turns[0].0), turns[0].1), turns[1..])
  }

  const UNUSED := Channel([], [], false, false)

  /** How many of n bytes the writes among these events have taken. */
  function Moved(n: nat, events: seq<WriteEvent>): (k: nat)
    ensures k <= n
  {
    if events == [] then 0 else
    var k := Moved(n, events[..|events| - 1]);
    match events[|events| - 1]
    case Wrote(m) => k + Taken(m, n - k)
    case _ => k
  }

  predicate OnlyWrites(events: seq<WriteEvent>) {
    forall i :: 0 <= i < |events| ==> events[i].WouldBlock? || events[i].Wrote?
  }

  /** After j rounds of writing, some but not all bytes of the message are out, and an error that is not a
      timeout ends the turn. */
  predicate CutAt(t: Turn, j: int) {
    && 0 <= j <= |t.events| && OnlyWrites(t.events[..j])
    && (j == |t.events| || t.events[j].OsFailure?)
    && 0 < Moved(|t.message|, t.events[..j]) < |t.message|
  }

  lemma {:induction false} PushFollows(t: Turn, j: nat, sent: bool) returns (sent': bool)
    requires j <= |t.events| && OnlyWrites(t.events[..j]) && Moved(|t.message|, t.events[..j]) < |t.message|
    ensures Push(|t.message|, 0, sent, t.events)
            == Push(|t.message|, Moved(|t.message|, t.events[..j]), sent', t.events[j..])
    decreases j
  {
    var n := |t.message|;
    if j == 0 {
      assert t.events[0..] == t.events && t.events[..0] == [];
      sent' := sent;
    } else {
      assert t.events[..j][..j - 1] == t.events[..j - 1] && t.events[..j][j - 1] == t.events[j - 1];
      assert OnlyWrites(t.events[..j - 1]) by {
        assert forall i :: 0 <= i < j - 1 ==> t.events[..j - 1][i] == t.events[..j][i];
      }
      sent' := PushFollows(t, j - 1, sent);
      assert t.events[j - 1..][1..] == t.events[j..] && t.events[j - 1..][0] == t.events[j - 1];
      sent' := sent' || t.events[j - 1].Wrote?;
    }
  }

  /** Where a turn that was cut was cut. */
  lemma {:induction false} PushEnds(t: Turn, j: nat, sent: bool) returns (i: nat)
    requires j <= |t.events| && OnlyWrites(t.events[..j]) && Moved(|t.message|, t.events[..j]) < |t.message|
    requires var r := Push(|t.message|, Moved(|t.message|, t.events[..j]), sent, t.events[j..]);
             r.1.Raised? && r.0 > 0
    ensures CutAt(t, i)
    decreases |t.events| - j
  {
    var n := |t.message|;
    if j == |t.events| || t.events[j].OsFailure? {
      i := j;
    } else {
      assert t.events[j..][1..] == t.events[j + 1..] && t.events[j..][0] == t.events[j];
      assert t.events[..j + 1][..j] == t.events[..j] && t.events[..j + 1][j] == t.events[j];
      var sent' := sent || t.events[j].Wrote?;
      assert Push(n, Moved(n, t.events[..j]), sent, t.events[j..])
          == Push(n, Moved(n, t.events[..j + 1]), sent', t.events[j + 1..]);
      i := PushEnds(t, j + 1, sent');
    }
  }

  /** A turn tears the stream exactly if its events cut it. */
  lemma TearsExactly(t: Turn)
    ensures var (k, end, _) := Push(|t.message|, 0, false, t.events);
            end.Raised? && k > 0 <==> exists j :: CutAt(t, j)
  {
    var r := Push(|t.message|, 0, false, t.events);
    assert t.events[..0] == [] && t.events[0..] == t.events;
    if r.1.Raised? && r.0 > 0 {
      var j := PushEnds(t, 0, false);
    }
    if j :| CutAt(t, j) {
      var sent := PushFollows(t, j, false);
    }
  }

  /** What is on the stream is at least the whole frames, and more than that once it is torn. */
  predicate Grown(ch: Channel) {
    && |ch.stream| >= |Concat(ch.frames)| + (if ch.torn then 1 else 0)
    && (ch.failed || ch.torn || ch.stream == Concat(ch.frames))
  }

  lemma TurnGrows(ch: Channel, t: Turn)
    requires Grown(ch)
    ensures Grown(Written(ch, t))
  {
    hide Concat;
    var (k, end, sent) := Push(|t.message|, 0, false, t.events);
    if end.Whole? {
      assert t.message[..k] == t.message;
      ConcatPush(ch.frames, t.message);
    } else if k == 0 {
      assert ch.stream + t.message[..k] == ch.stream;
    }
  }

  lemma {:induction false} AllGrow(ch: Channel, turns: seq<(bool, Turn)>)
    requires Grown(ch)
    ensures Grown(AllWritten(ch, turns))
    decreases |turns|
  {
    hide Written, Concat;
    if turns != [] {
      var ch1 := ch.(failed := ch.failed || turns[0].0);
      assert Grown(ch1);
      TurnGrows(ch1, turns[0].1);
      AllGrow(Written(ch1, turns[0].1), turns[1..]);
    }
  }

  lemma {:induction false} TornExactly(ch: Channel, turns: seq<(bool, Turn)>)
    ensures AllWritten(ch, turns).torn <==> ch.torn || exists i, j :: 0 <= i < |turns| && CutAt(turns[i].1, j)
    decreases |turns|
  {
    hide CutAt;
    if turns != [] {
      var ch1 := ch.(failed := ch.failed || turns[0].0);
      TearsExactly(turns[0].1);
      TornExactly(Written(ch1, turns[0].1), turns[1..]);
      forall i, j | 0 <= i < |turns| && CutAt(turns[i].1, j)
        ensures i == 0 || (0 <= i - 1 < |turns[1..]| && CutAt(turns[1..][i - 1].1, j))
      {
      }
      assert forall i :: 0 <= i < |turns| - 1 ==> turns[1..][i] == turns[i + 1];
    }
  }

  /** Request stream integrity, exactly. Whenever the write lock is free and no failure is recorded, the bytes
      sent are the whole frames sent, in lock order, if and only if no turn was cut by an error other than a
      timeout. */
  lemma StreamIntegrity(turns: seq<(bool, Turn)>)
    ensures var ch := AllWritten(UNUSED, turns);
            !ch.failed ==>
              (ch.stream == Concat(ch.frames) <==> !exists i, j :: 0 <= i < |turns| && CutAt(turns[i].1, j))
  {
    hide CutAt, AllWritten;
    AllGrow(UNUSED, turns);
    TornExactly(UNUSED, turns);
  }

  lemma {:induction false} ConcatPush(frames: seq<bytes>, message: bytes)
    ensures Concat(frames + [message]) == Concat(frames) + message
  {
    if frames == [] {
      assert frames + [message] == [message];
      assert Concat([message]) == message + Concat([]);
    } else {
      assert (frames + [message])[1..] == frames[1..] + [message];
      ConcatPush(frames[1..], message);
    }
  }

  /** The exception: half a frame, an error that is not a timeout, and the next caller writes on. The
      bytes are then no concatenation of the frames, and no failure says so. */
  lemma TornStream()
    ensures var ch := AllWritten(Channel([], [], false, false),
                                 [(false, Turn([1, 2], [Wrote(1), OsFailure])), (false, Turn([3], [Wrote(1)]))]);
            !ch.failed && ch.stream == [1, 3] && ch.frames == [[3]] && ch.stream != Concat(ch.frames)
  {
    var first, second := Turn([1, 2], [Wrote(1), OsFailure]), Turn([3], [Wrote(1)]);
    assert Push(2, 0, false, first.events) == (1, WriteEnd.Raised, true);
    assert Push(1, 0, false, second.events) == (1, Whole, true);
    var ch0 := Channel([], [], false, false);
    var ch1 := Written(ch0, first);
    assert ch1 == Channel([1], [], false, true);
    var ch2 := Written(ch1, second);
    assert ch2 == Channel([1, 3], [[3]], false, true);
    assert Concat([[3]]) == [3];
    var turns: seq<(bool, Turn)> := [(false, first), (false, second)];
    assert turns[1..] == [(false, second)] && turns[1..][1..] == [];
    assert AllWritten(ch0, turns) == AllWritten(ch1, turns[1..]) == AllWritten(ch2, []);
  }

  // ----- the object -----

  class Client {
    var pending: map<nat, nat>
    var nextId: nat
    var failure: Option<Error>
    var closing: bool
    var closed: bool
    var futures: seq<Outcome>
    /** Everything written to the runtime, and the frames that went out whole. */
    var stream: bytes
    ghost var frames: seq<bytes>

    /** The shared state, with no thread in the middle of anything. */
    function Table(): Session
      reads this
    {
      Session(pending, nextId, failure, closing, closed, futures, Reading, [], {}, None)
    }

    ghost predicate Valid()
      reads this
    {
      TableSound(Table())
    }

    constructor ()
      ensures Valid() && Table() == FRESH && stream == [] && frames == []
    {
      pending, nextId, failure, closing, closed, futures := map[], 1, None, false, false, [];
      stream, frames := [], [];
    }

    /** The lock region of `_begin_call`. */
    method BeginCall(exempt: bool) returns (r: Admission)
      requires Valid()
      modifies this`pending, this`nextId, this`futures
      ensures Valid() && (Table(), r) == Register(old(Table()), exempt)
    {
      RegisterTable(Table(), exempt);
      if closed || (closing && !exempt) {
        return Refused(IS_CLOSED);
      }
      if failure.Some? {
        return Refused(failure.value);
      }
      if |pending| >= MAX_PENDING {
        return Refused(TOO_MANY);
      }
      var id := nextId;
      nextId := nextId + 1;
      futures := futures + [Waiting];
      pending := pending[id := |futures| - 1];
      r := Admitted(id);
    }

    method Forget(id: nat)
      requires Valid()
      modifies this`pending
      ensures Valid() && pending == old(pending) - {id}
    {
      ForgetTable(Table(), id);
      pending := pending - {id};
    }

    /** `_fail_pending`: the table is emptied under the lock, its futures are failed after it. */
    method FailPending(error: Error)
      requires Valid()
      modifies this`pending, this`failure, this`futures
      ensures Valid() && pending == map[]
      ensures failure == if old(failure).None? then Some(error) else old(failure)
      ensures |futures| == |old(futures)|
      ensures forall f: nat :: f < |futures| ==>
                futures[f] == if f + 1 in old(pending) then Swept(error) else old(futures)[f]
    {
      if failure.None? {
        failure := Some(error);
      }
      var left := pending.Values;
      Owners(pending, left);
      pending := map[];
      FailAll(left, error);
      assert |pending| == 0;
    }

    method FailAll(all: set<nat>, error: Error)
      requires forall f :: f in all ==> f < |futures| && futures[f].Waiting?
      modifies this`futures
      ensures |futures| == |old(futures)|
      ensures forall f: nat :: f < |futures| ==> futures[f] == if f in all then Swept(error) else old(futures)[f]
    {
      var left := all;
      while left != {}
        invariant left <= all && |futures| == |old(futures)|
        invariant forall f: nat :: f < |futures| ==>
                    futures[f] == if f in all && f !in left then Swept(error) else old(futures)[f]
        decreases left
      {
        var f :| f in left;
        if futures[f].Waiting? {
          futures := futures[f := Swept(error)];
        }
        left := left - {f};
      }
    }

    /** One round of the reader's loop; an exception comes back as Some. */
    method Respond(x: Incoming) returns (raised: Option<Error>)
      requires Valid()
      modifies this`pending, this`futures
      ensures Valid()
      ensures var t := Handled(old(Table()), x);
              && pending == t.pending && futures == t.futures
              && raised == if t.reader.Raised? then Some(t.reader.error) else None
    {
      hide TableSound;
      HandledTable(Table(), x);
      ghost var before, t := Table(), Handled(Table(), x);
      match x
      case EndOfStream => return Some(EXITED);
      case Broken(e) => return Some(e);
      case Envelope(response) =>
        if !(0 < response.id < nextId) {
          return Some(UNEXPECTED_ID);
        }
        if response.id !in pending {
          return None;
        }
        Expected(before, response.id);
        var future := pending[response.id];
        pending := pending - {response.id};
        if response.Refusal? && response.body.Malformed? {
          TableOnly(t, Table());
          return Some(INVALID_ERROR);
        }
        futures := futures[future := Answered(response)];
        raised := None;
    }

    /** `_read_responses`, with nobody else about: frame after frame, until one of them ends it. */
    method ReadResponses(frames: seq<Incoming>)
      requires Valid()
      modifies this`pending, this`futures, this`failure
      ensures Valid()
      ensures var t := AllHandled(old(Table()), frames);
              && |futures| == |t.futures|
              && if t.reader.Raised?
                 then && pending == map[]
                   && failure == (if old(failure).None? then Some(t.reader.error) else old(failure))
                      && forall f: nat :: f < |futures| ==>
                           futures[f] == if f + 1 in t.pending then Swept(t.reader.error) else t.futures[f]
                 else pending == t.pending && futures == t.futures && failure == old(failure)
    {
      hide Handled;
      ghost var before := Table();
      for i := 0 to |frames|
        invariant Valid() && failure == old(failure)
        invariant AllHandled(Table(), frames[i..]) == AllHandled(before, frames)
      {
        assert frames[i..][1..] == frames[i + 1..];
        HandledTable(Table(), frames[i]);
        ghost var t := Handled(Table(), frames[i]);
        var raised := Respond(frames[i]);
        if raised.Some? {
          FailPending(raised.value);
          return;
        }
        assert Table() == t;
      }
    }

    /** `_write_message`: under the write lock, until the whole frame is out or something ends it. A frame
        cut by a timeout leaves a failure recorded and the table empty before the lock is free again. */
    method WriteMessage(message: bytes, acquired: bool, events: seq<WriteEvent>) returns (end: WriteEnd)
      requires Valid()
      modifies this`stream, this`frames, this`pending, this`failure, this`futures
      ensures Valid()
      ensures !acquired ==> end == TimedOut && stream == old(stream) && frames == old(frames)
      ensures acquired ==>
                var (k, e, sent) := Push(|message|, 0, false, events);
                && end == e && stream == old(stream) + message[..k]
                && frames == (if e.Whole? then old(frames) + [message] else old(frames))
      ensures if acquired && end.TimedOut? && Push(|message|, 0, false, events).2
              then failure.Some? && pending == map[] && (old(failure).Some? ==> failure == old(failure))
              else Table() == old(Table())
    {
      hide TableSound;
      if !acquired {
        return TimedOut;
      }
      var sent;
      end, sent := WriteLoop(message, events);
      if end.TimedOut? && sent {
        FailPending(Error("protocol_error", "Partial request timed out; close this Client"));
      }
    }

    method WriteLoop(message: bytes, events: seq<WriteEvent>) returns (end: WriteEnd, sent: bool)
      modifies this`stream, this`frames
      ensures var (k, e, out) := Push(|message|, 0, false, events);
              && end == e && sent == out && stream == old(stream) + message[..k]
              && frames == if e.Whole? then old(frames) + [message] else old(frames)
    {
      sent := false;
      ghost var k: nat := 0;
      var rest, i := message, 0;
      while rest != []
        invariant k <= |message| && i <= |events| && rest == message[k..] && stream == old(stream) + message[..k]
        invariant frames == old(frames)
        invariant Push(|message|, k, sent, events[i..]) == Push(|message|, 0, false, events)
        decreases |events| - i
      {
        if i == |events| {
          return WriteEnd.Raised, sent;
        }
        var event := events[i];
        assert events[i..][1..] == events[i + 1..];
        i := i + 1;
        match event {
          case DeadlinePassed => return TimedOut, sent;
          case NotWritable => return TimedOut, sent;
          case OsFailure => return WriteEnd.Raised, sent;
          case WouldBlock =>
          case Wrote(n) =>
            var written := Taken(n, |rest|);
            sent := true;
            stream := stream + rest[..written];
            assert message[..k] + rest[..written] == message[..k + written];
            rest := rest[written..];
            k := k + written;
        }
      }
      end := Whole;
      frames := frames + [message];
    }
  }

  /** One round of the reader's loop with no other thread in between. */
  function Handled(s: Session, x: Incoming): Session
    requires TableSound(s)
  {
    var t := Receive(s, x);
    if t.reader.Holding? && t.reader.future < |t.futures| then Deliver(t) else t
  }

  lemma HandledTable(s: Session, x: Incoming)
    requires TableSound(s) && s.reader.Reading?
    ensures TableSound(Handled(s, x))
    ensures var t := Handled(s, x);
            && (t.reader.Reading? || t.reader.Raised?) && t.nextId == s.nextId && t.failure == s.failure
            && (t.reader.Reading? ==> t == s.(pending := t.pending, futures := t.futures))
  {
    hide TableSound;
    ReceiveTable(s, x);
    if x.Envelope? && x.response.id in s.pending {
      Expected(s, x.response.id);
      DeliverTable(Receive(s, x));
    }
  }

  lemma Expected(s: Session, id: nat)
    requires TableSound(s) && id in s.pending
    ensures 0 < id < s.nextId && s.pending[id] == id - 1 < |s.futures| && s.futures[id - 1].Waiting?
  {
  }

  lemma DeliverTable(s: Session)
    requires TableSound(s) && s.reader.Holding?
    requires s.reader.future < |s.futures| && s.futures[s.reader.future].Waiting? && s.reader.future + 1 !in s.pending
    ensures TableSound(Deliver(s))
  {
  }

  /** The table does not depend on what the threads are doing. */
  lemma TableOnly(s: Session, t: Session)
    requires TableSound(s) && s.pending == t.pending && s.nextId == t.nextId && s.failure == t.failure
             && s.futures == t.futures
    ensures TableSound(t)
  {
  }

  function AllHandled(s: Session, frames: seq<Incoming>): Session
    requires TableSound(s) && s.reader.Reading?
    decreases |frames|
  {
    if frames == [] then s else
    HandledTable(s, frames[0]);
    var t := Handled(s, frames[0]);
    if t.reader.Raised? then t else AllHandled(t, frames[1..])
  }

  lemma Owners(table: map<nat, nat>, left: set<nat>)
    requires left == table.Values && forall id :: id in table ==> id > 0 && table[id] == id - 1
    ensures forall f :: f in left ==> f + 1 in table && table[f + 1] == f
    ensures forall id :: id in table ==> id - 1 in left
  {
    forall f | f in left ensures f + 1 in table && table[f + 1] == f {
      var id :| id in table && table[id] == f;
    }
    forall id | id in table ensures id - 1 in left {
      assert table[id] in table.Values;
    }
  }
}
