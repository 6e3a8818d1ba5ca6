// What becomes of the calls of a client, read off what its threads have done, in any order
// (packages/pyefz/src/pyefz/client.py:208-297, 461-476).
module Calls {
  import opened Session
  import opened Wrappers

  // ----- flags -----

  predicate Before(acts: seq<Act>, i: int, a: Act) {
    exists k :: 0 <= k < i && k < |acts| && acts[k] == a
  }

  /** A thread enters `_fail_pending`. */
  predicate Fails(a: Act) {
    a.Fail? || a.ReaderFails?
  }

  /** k is the first time that happens. */
  predicate FirstFails(acts: seq<Act>, k: int, i: int) {
    && 0 <= k < i && k < |acts| && Fails(acts[k])
    && forall m :: 0 <= m < k ==> !Fails(acts[m])
  }

  predicate NoneFails(acts: seq<Act>, i: int) {
    forall m :: 0 <= m < i && m < |acts| ==> !Fails(acts[m])
  }

  /** With what error. */
  function FailedWith(s: Session, a: Act): Option<Error> {
    match a
    case Fail(e) => Some(e)
    case ReaderFails => if s.reader.Raised? then Some(s.reader.error) else None
    case _ => None
  }

  lemma ClosingStep(s: Session, a: Act)
    requires Can(s, a)
    ensures After(s, a).closing <==> s.closing || a == BeginClose
    ensures After(s, a).closed <==> s.closed || a == EndClose
  {
    match a
    case Call(_) =>
    case _ =>
  }

  lemma FailureStep(s: Session, a: Act)
    requires Can(s, a)
    ensures After(s, a).failure == if s.failure.None? then FailedWith(s, a) else s.failure
    ensures FailedWith(s, a).Some? <==> Fails(a)
  {
    match a
    case Call(_) =>
    case _ =>
  }

  /** The client is closing, or closed, from the step on that says so. */
  lemma {:induction false} ClosedExactly(ss: seq<Session>, acts: seq<Act>, i: nat)
    requires Run(ss, acts) && i < |ss|
    ensures ss[i].closing <==> Before(acts, i, BeginClose)
    ensures ss[i].closed <==> Before(acts, i, EndClose)
  {
    hide Inv, Can, After;
    if i > 0 {
      ClosedExactly(ss, acts, i - 1);
      ClosingStep(ss[i - 1], acts[i - 1]);
    }
  }

  /** The recorded failure is that of the first thread to fail the client, and there is none exactly if none did. */
  lemma {:induction false} FailureExactly(ss: seq<Session>, acts: seq<Act>, i: nat)
    requires Run(ss, acts) && i < |ss|
    ensures ss[i].failure.None? <==> NoneFails(acts, i)
    ensures forall k :: FirstFails(acts, k, i) ==> ss[i].failure == FailedWith(ss[k], acts[k])
  {
    hide Can, After, FailedWith, FirstFails, NoneFails, Fails;
    if i == 0 {
      NoneYet(acts);
    } else {
      var n := i - 1;
      FailureExactly(ss, acts, n);
      assert ss[i] == After(ss[n], acts[n]);
      FailureStep(ss[n], acts[n]);
      FirstLater(acts, n);
      forall k | 0 <= k < i && FirstFails(acts, k, i) ensures ss[i].failure == FailedWith(ss[k], acts[k]) {
        if FirstFails(acts, k, n) {
          assert ss[n].failure.Some?;
        } else {
          assert k == n && ss[n].failure.None?;
        }
      }
    }
  }

  lemma NoneYet(acts: seq<Act>)
    ensures NoneFails(acts, 0) && forall k :: !FirstFails(acts, k, 0)
  {
  }

  lemma FirstLater(acts: seq<Act>, n: nat)
    requires n < |acts|
    ensures forall k :: FirstFails(acts, k, n) ==> FirstFails(acts, k, n + 1)
    ensures forall k :: FirstFails(acts, k, n + 1) ==> FirstFails(acts, k, n) || (k == n && NoneFails(acts, n))
    ensures FirstFails(acts, n, n + 1) <==> Fails(acts[n]) && NoneFails(acts, n)
    ensures NoneFails(acts, n + 1) <==> NoneFails(acts, n) && !Fails(acts[n])
    ensures forall k :: FirstFails(acts, k, n) ==> !NoneFails(acts, n)
    ensures forall k, i :: FirstFails(acts, k, i) ==> 0 <= k < i
  {
  }

  // ----- the reader -----

  predicate OfReader(a: Act) {
    a.Read? || a.Resolve? || a.ReaderFails?
  }

  /** k is the reader's last step before i. */
  predicate LastOfReader(acts: seq<Act>, k: int, i: int) {
    && 0 <= k < i <= |acts| && OfReader(acts[k])
    && forall m :: k < m < i ==> !OfReader(acts[m])
  }

  /** What the reader's step leaves it with: an id never given out, an end, or an unusable frame raise, each its own
      error; the answer to a pending request is held; any other is dropped. */
  function Then(s: Session, a: Act): Reader {
    match a
    case Read(EndOfStream) => Raised(Error("cancelled", "Runtime exited or closed the control channel"))
    case Read(Broken(e)) => Raised(e)
    case Read(Envelope(r)) =>
      if r.id <= 0 || r.id >= s.nextId then Raised(Error("protocol_error", "Unexpected response ID"))
      else if r.id in s.pending then Holding(r.id - 1, r)
      else Reading
    case Resolve =>
      if s.reader.Holding? && MalformedIn(Envelope(s.reader.response))
      then Raised(Error("protocol_error", "Invalid error response"))
      else Reading
    case _ => Ended
  }

  lemma ReaderStep(s: Session, a: Act)
    requires Inv(s) && Can(s, a)
    ensures After(s, a).reader == if OfReader(a) then Then(s, a) else s.reader
  {
    hide SweepsSound, OutcomesSound, Accounted;
    match a
    case Read(_) => hide Register, Deliver, Seize, FailOne, Forget;
    case Resolve => hide Register, Receive, Seize, FailOne, Forget;
    case Call(_) => hide Deliver, Receive, Seize, FailOne, Forget;
    case _ => hide Register, Deliver, Receive;
  }

  /** The reader is where its last step left it, and reading before its first. */
  lemma {:induction false} ReaderExactly(ss: seq<Session>, acts: seq<Act>, i: nat)
    requires Run(ss, acts) && i < |ss|
    ensures forall k :: LastOfReader(acts, k, i) ==> ss[i].reader == Then(ss[k], acts[k])
    ensures (forall k :: !LastOfReader(acts, k, i)) ==> ss[i].reader == Reading
  {
    hide Inv, Can, After, Then;
    if i > 0 {
      var n := i - 1;
      ReaderExactly(ss, acts, n);
      RunInv(ss, acts, n);
      ReaderStep(ss[n], acts[n]);
      if OfReader(acts[n]) {
        assert LastOfReader(acts, n, i);
      } else {
        assert forall k :: LastOfReader(acts, k, i) <==> LastOfReader(acts, k, n);
      }
    }
  }

  // ----- calls -----

  /** This call is let in: the client is not closed, nor closing unless the operation is exempt, nobody has failed it,
      and fewer than 64 requests are pending. */
  predicate Enters(ss: seq<Session>, acts: seq<Act>, k: int) {
    && 0 <= k < |acts| && |ss| == |acts| + 1 && acts[k].Call?
    && !Before(acts, k, EndClose) && (acts[k].exempt || !Before(acts, k, BeginClose)) && NoneFails(acts, k)
    && |ss[k].pending| < 64
  }

  /** How many were let in before. */
  function Entered(ss: seq<Session>, acts: seq<Act>, i: nat): nat {
    if i == 0 then 0 else Entered(ss, acts, i - 1) + if Enters(ss, acts, i - 1) then 1 else 0
  }

  lemma {:induction false} EnteredExactly(ss: seq<Session>, acts: seq<Act>, i: nat)
    requires Run(ss, acts) && i < |ss|
    ensures ss[i].nextId == 1 + Entered(ss, acts, i) && |ss[i].futures| == Entered(ss, acts, i)
  {
    hide Inv, Can, After, Before, NoneFails;
    if i > 0 {
      var n := i - 1;
      EnteredExactly(ss, acts, n);
      RunInv(ss, acts, n);
      ClosedExactly(ss, acts, n);
      FailureExactly(ss, acts, n);
      EntryStep(ss[n], acts[n]);
    }
  }

  lemma EntryStep(s: Session, a: Act)
    requires Inv(s) && Can(s, a)
    ensures var (t, enters) := (After(s, a), a.Call? && !s.closed && (a.exempt || !s.closing) && s.failure.None?
                                          && |s.pending| < 64);
            && t.nextId == s.nextId + (if enters then 1 else 0)
            && |t.futures| == |s.futures| + (if enters then 1 else 0)
  {
    hide ReaderSound, SweepsSound, OutcomesSound, Accounted;
  }

  /** A call gets the next number, or the error that says why not: closed before failed before too many. */
  lemma CallExactly(ss: seq<Session>, acts: seq<Act>, i: nat)
    requires Run(ss, acts) && i < |acts| && acts[i].Call?
    ensures Register(ss[i], acts[i].exempt).1 ==
            if Enters(ss, acts, i) then Admitted(1 + Entered(ss, acts, i))
            else if Before(acts, i, EndClose) || (Before(acts, i, BeginClose) && !acts[i].exempt)
            then Refused(Error("cancelled", "Client is closed"))
            else if ss[i].failure.Some? then Refused(ss[i].failure.value)
            else Refused(Error("bad_config", "At most 64 concurrent requests are supported"))
  {
    hide Inv, Can, After, Before, NoneFails;
    EnteredExactly(ss, acts, i);
    ClosedExactly(ss, acts, i);
    FailureExactly(ss, acts, i);
  }

  // ----- what is pending -----

  /** A step after which this request is no longer waited for: its caller leaves, its answer is read, or somebody
      fails the client. */
  predicate Ends(a: Act, id: nat) {
    a == Leave(id) || Fails(a) || (a.Read? && a.incoming.Envelope? && a.incoming.response.id == id)
  }

  /** The call at k was let in under this number, and nothing has ended it up to i. */
  predicate Waits(ss: seq<Session>, acts: seq<Act>, k: int, i: int, id: nat) {
    && 0 <= k < i <= |acts| && Enters(ss, acts, k) && id == 1 + Entered(ss, acts, k)
    && forall m :: k < m < i ==> !Ends(acts[m], id)
  }

  lemma TableStep(s: Session, a: Act, id: nat)
    requires Inv(s) && Can(s, a)
    ensures id in After(s, a).pending
            <==> || (id in s.pending && !Ends(a, id))
                 || (a.Call? && !s.closed && (a.exempt || !s.closing) && s.failure.None? && |s.pending| < 64
                     && id == s.nextId)
  {
    hide ReaderSound, SweepsSound, OutcomesSound, Accounted;
  }

  /** At every point the table holds exactly the calls that were let in and that nothing has ended. */
  lemma {:induction false} PendingExactly(ss: seq<Session>, acts: seq<Act>, i: nat, id: nat)
    requires Run(ss, acts) && i < |ss|
    ensures id in ss[i].pending <==> exists k :: Waits(ss, acts, k, i, id)
  {
    hide Inv, Can, After, Before, NoneFails, Enters, Ends;
    if i > 0 {
      var n := i - 1;
      PendingExactly(ss, acts, n, id);
      RunInv(ss, acts, n);
      EnteredExactly(ss, acts, n);
      TableStep(ss[n], acts[n], id);
      EntersNow(ss, acts, n);
      if id in ss[i].pending {
        if Enters(ss, acts, n) && id == ss[n].nextId {
          assert Waits(ss, acts, n, i, id);
        } else {
          var k :| Waits(ss, acts, k, n, id);
          assert Waits(ss, acts, k, i, id);
        }
      }
      if k :| Waits(ss, acts, k, i, id) {
        assert k < n ==> Waits(ss, acts, k, n, id);
      }
    }
  }

  lemma EntersNow(ss: seq<Session>, acts: seq<Act>, i: nat)
    requires Run(ss, acts) && i < |acts|
    ensures Enters(ss, acts, i)
            <==> && acts[i].Call? && !ss[i].closed && (acts[i].exempt || !ss[i].closing) && ss[i].failure.None?
                 && |ss[i].pending| < 64
  {
    hide Inv, Can, After, Before, NoneFails;
    ClosedExactly(ss, acts, i);
    FailureExactly(ss, acts, i);
  }

  // ----- what a call comes to -----

  /** The reader reads this answer at k, while its request is pending, and hands it over at m. */
  predicate Answers(ss: seq<Session>, acts: seq<Act>, k: int, m: int, r: Response) {
    && 0 <= k < m < |acts| < |ss| && acts[k] == Read(Envelope(r)) && r.id in ss[k].pending && acts[m] == Resolve
    && LastOfReader(acts, k, m) && !MalformedIn(Envelope(r))
  }

  /** The first thread to fail the client does so at k, while this request is pending, and gets to its future at m. */
  predicate FailsCall(ss: seq<Session>, acts: seq<Act>, k: int, m: int, f: nat) {
    && 0 <= k < m < |acts| < |ss| && FirstFails(acts, k, m) && f + 1 in ss[k].pending
    && acts[m] == SweepOne(0, f)
  }

  lemma AnswerStep(s: Session, a: Act, f: nat, r: Response)
    requires Inv(s) && Can(s, a)
    ensures var (u, v) := (s.futures, After(s, a).futures);
            (f < |v| && v[f] == Answered(r))
            <==> || (f < |u| && u[f] == Answered(r))
                 || (a.Resolve? && s.reader == Holding(f, r) && !MalformedIn(Envelope(r)))
  {
    hide TableSound, SweepsSound, OutcomesSound, Accounted;
  }

  lemma HoldingFrom(ss: seq<Session>, acts: seq<Act>, i: nat, f: nat, r: Response) returns (k: nat)
    requires Run(ss, acts) && i < |ss| && ss[i].reader == Holding(f, r)
    ensures LastOfReader(acts, k, i) && acts[k] == Read(Envelope(r)) && r.id in ss[k].pending && r.id == f + 1
  {
    hide Run;
    assert |ss| == |acts| + 1 by { RunLength(ss, acts); }
    ReaderExactly(ss, acts, i);
    k :| LastOfReader(acts, k, i);
  }

  lemma RunLength(ss: seq<Session>, acts: seq<Act>)
    requires Run(ss, acts)
    ensures |ss| == |acts| + 1
  {
  }

  /** A future holds an answer exactly if the reader read that very answer, under the call's own number and while it
      was pending, and then handed it over; one whose error body is malformed never. */
  lemma {:induction false} AnsweredExactly(ss: seq<Session>, acts: seq<Act>, i: nat, f: nat, r: Response)
    requires Run(ss, acts) && i < |ss|
    ensures f < |ss[i].futures| && ss[i].futures[f] == Answered(r)
            <==> exists k, m :: m < i && Answers(ss, acts, k, m, r) && r.id == f + 1
  {
    hide Inv, Can, After, LastOfReader, MalformedIn;
    if i > 0 {
      var n := i - 1;
      AnsweredExactly(ss, acts, n, f, r);
      RunInv(ss, acts, n);
      AnswerStep(ss[n], acts[n], f, r);
      if acts[n].Resolve? && ss[n].reader == Holding(f, r) && !MalformedIn(Envelope(r)) {
        var k := HoldingFrom(ss, acts, n, f, r);
        assert k < n by { LastIsEarlier(acts, k, n); }
        assert Answers(ss, acts, k, n, r);
      }
      if k, m :| m < i && Answers(ss, acts, k, m, r) && r.id == f + 1 {
        if m == n {
          ReaderExactly(ss, acts, n);
          RunInv(ss, acts, k);
          HeldAfter(ss[k], r);
        }
      }
    }
  }

  lemma LastIsEarlier(acts: seq<Act>, k: int, i: int)
    requires LastOfReader(acts, k, i)
    ensures 0 <= k < i
  {
  }

  lemma HeldAfter(s: Session, r: Response)
    requires Inv(s) && r.id in s.pending
    ensures Then(s, Read(Envelope(r))) == Holding(r.id - 1, r)
  {
  }

  /** A caller is gone exactly if it has left. */
  lemma {:induction false} GoneExactly(ss: seq<Session>, acts: seq<Act>, i: nat, id: nat)
    requires Run(ss, acts) && i < |ss|
    ensures id in ss[i].gone <==> Before(acts, i, Leave(id))
  {
    hide Inv, Can, After;
    if i > 0 {
      GoneExactly(ss, acts, i - 1, id);
      OnlyLeaving(ss[i - 1], acts[i - 1]);
    }
  }

  // ----- failing -----

  lemma SweepStep(s: Session, a: Act, f: nat)
    requires Inv(s) && Can(s, a)
    ensures InSweep(After(s, a), f)
            <==> (InSweep(s, f) && a != SweepOne(0, f)) || (Fails(a) && s.failure.None? && f + 1 in s.pending)
  {
    hide ReaderSound, OutcomesSound, Accounted;
    if Fails(a) {
      TakenFromTable(s, if a.Fail? then a.error else s.reader.error);
    }
  }

  /** The first thread to fail the client has taken this request's future at k and not come to it by i. */
  predicate Taken(ss: seq<Session>, acts: seq<Act>, k: int, i: int, f: nat) {
    && 0 <= k < i <= |acts| < |ss| && FirstFails(acts, k, i) && f + 1 in ss[k].pending
    && forall m :: k < m < i ==> acts[m] != SweepOne(0, f)
  }

  lemma {:induction false} SweepExactly(ss: seq<Session>, acts: seq<Act>, i: nat, f: nat)
    requires Run(ss, acts) && i < |ss|
    ensures InSweep(ss[i], f) <==> exists k :: Taken(ss, acts, k, i, f)
  {
    hide Inv, Can, After, InSweep, FirstFails, NoneFails;
    RunLength(ss, acts);
    if i == 0 {
      NoSweepYet(f);
    } else {
      var n := i - 1;
      SweepExactly(ss, acts, n, f);
      RunInv(ss, acts, n);
      FailureExactly(ss, acts, n);
      SweepStep(ss[n], acts[n], f);
      FirstLater(acts, n);
      if InSweep(ss[i], f) {
        if Fails(acts[n]) && ss[n].failure.None? && f + 1 in ss[n].pending {
          assert Taken(ss, acts, n, i, f);
        } else {
          var k :| Taken(ss, acts, k, n, f);
          assert Taken(ss, acts, k, i, f);
        }
      }
      if k :| Taken(ss, acts, k, i, f) {
        assert k < n ==> Taken(ss, acts, k, n, f);
      }
    }
  }

  lemma NoSweepYet(f: nat)
    ensures !InSweep(FRESH, f)
  {
  }

  lemma FailStep(s: Session, a: Act, f: nat, e: Error)
    requires Inv(s) && Can(s, a)
    ensures var (u, v) := (s.futures, After(s, a).futures);
            (f < |v| && v[f] == Swept(e))
            <==> (f < |u| && u[f] == Swept(e)) || (a == SweepOne(0, f) && s.failure == Some(e))
  {
    hide TableSound, ReaderSound, OutcomesSound, Accounted, FailOne, SweepsSound;
    match a
    case SweepOne(k, g) => FailOneStep(s, k, g, f, e);
    case Call(exempt) => hide Receive, Deliver, Seize, Forget;
    case Resolve => hide Receive, Register, Seize, Forget;
    case _ => hide Register, Deliver;
  }

  lemma FailOneStep(s: Session, k: nat, g: nat, f: nat, e: Error)
    requires SweepsSound(s) && Can(s, SweepOne(k, g))
    ensures var (u, v) := (s.futures, FailOne(s, k, g).futures);
            && |u| == |v|
            && (f < |v| && v[f] == Swept(e)
                <==> (f < |u| && u[f] == Swept(e)) || (k == 0 && g == f && s.failure == Some(e)))
  {
  }

  /** A future holds a failure exactly if the first thread to fail the client, with this error, did so while the
      request was pending, and has come to it. */
  lemma {:induction false} FailedExactly(ss: seq<Session>, acts: seq<Act>, i: nat, f: nat, e: Error)
    requires Run(ss, acts) && i < |ss|
    ensures f < |ss[i].futures| && ss[i].futures[f] == Swept(e)
            <==> exists k, m :: m < i && FailsCall(ss, acts, k, m, f) && FailedWith(ss[k], acts[k]) == Some(e)
  {
    hide Inv, Can, After, InSweep, FirstFails, NoneFails, FailedWith;
    RunLength(ss, acts);
    if i > 0 {
      var n := i - 1;
      FailedExactly(ss, acts, n, f, e);
      RunInv(ss, acts, n);
      FailureExactly(ss, acts, n);
      FailStep(ss[n], acts[n], f, e);
      if acts[n] == SweepOne(0, f) && ss[n].failure == Some(e) {
        SweepExactly(ss, acts, n, f);
        InFirstSweep(ss[n], f);
        var k :| Taken(ss, acts, k, n, f);
        assert FailsCall(ss, acts, k, n, f);
      }
    }
  }

  lemma InFirstSweep(s: Session, f: nat)
    requires Can(s, SweepOne(0, f))
    ensures InSweep(s, f)
  {
  }
}
