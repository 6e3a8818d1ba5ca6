// Request correlation in the Python client: callers, the reader, timeouts and close, interleaved in any
// order, each step one lock region or one private step of a thread
// (packages/pyefz/src/pyefz/client.py:208-297, 461-476; packages/pyefz/src/pyefz/errors.py:57-63).
module Session {
  import opened Wrappers

  datatype Error = Error(code: string, message: string)

  /** The error body of a response: two strings under exactly the right names, or anything else. */
  datatype Remote = WellFormed(error: Error) | Malformed

  datatype Response = Reply(id: int, result: string) | Refusal(id: int, body: Remote)

  /** What one read of the channel yields: a response envelope, an unusable frame, or the end. */
  datatype Incoming = Envelope(response: Response) | Broken(error: Error) | EndOfStream

  datatype Outcome = Waiting | Answered(response: Response) | Swept(error: Error)

  /** The reader thread: reading, holding a future it took out of the table, about to fail everyone, or gone. */
  datatype Reader = Reading | Holding(future: nat, response: Response) | Raised(error: Error) | Ended | Crashed

  /** A thread in `_fail_pending`, past the lock: the futures it still has to fail. */
  datatype Sweep = Sweep(error: Error, left: set<nat>)

  /** The client and its threads; the future created n-th has number n. gone and lost only record what
      happened: whose callers have left, and which future the reader dropped. */
  datatype Session = Session(
    pending: map<nat, nat>,
    nextId: nat,
    failure: Option<Error>,
    closing: bool,
    closed: bool,
    futures: seq<Outcome>,
    reader: Reader,
    sweeps: seq<Sweep>,
    gone: set<nat>,
    lost: Option<nat>)

  const MAX_PENDING := 64
  const EXITED := Error("cancelled", "Runtime exited or closed the control channel")
  const UNEXPECTED_ID := Error("protocol_error", "Unexpected response ID")
  const INVALID_ERROR := Error("protocol_error", "Invalid error response")
  const IS_CLOSED := Error("cancelled", "Client is closed")
  const TOO_MANY := Error("bad_config", "At most 64 concurrent requests are supported")

  const FRESH := Session(map[], 1, None, false, false, [], Reading, [], {}, None)

  // ----- lock regions and private steps -----

  datatype Admission = Admitted(id: nat) | Refused(error: Error)

  /** The lock region of `_begin_call`; exempt says the operation may still be sent while closing. */
  function Register(s: Session, exempt: bool): (Session, Admission) {
    if s.closed || (s.closing && !exempt) then (s, Refused(IS_CLOSED))
    else if s.failure.Some? then (s, Refused(s.failure.value))
    else if |s.pending| >= MAX_PENDING then (s, Refused(TOO_MANY))
    else (s.(pending := s.pending[s.nextId := |s.futures|], nextId := s.nextId + 1, futures := s.futures + [Waiting]),
          Admitted(s.nextId))
  }

  function Forget(s: Session, id: nat): Session {
    s.(pending := s.pending - {id}, gone := s.gone + {id})
  }

  /** The lock region of `_fail_pending`. */
  function Seize(s: Session, e: Error): Session {
    s.(failure := if s.failure.None? then Some(e) else s.failure,
       pending := map[],
       sweeps := s.sweeps + [Sweep(e, s.pending.Values)])
  }

  /** One round of the loop behind it. */
  function FailOne(s: Session, k: nat, f: nat): Session
    requires k < |s.sweeps| && f in s.sweeps[k].left && f < |s.futures|
  {
    var sweep := s.sweeps[k];
    s.(sweeps := s.sweeps[k := Sweep(sweep.error, sweep.left - {f})],
       futures := if s.futures[f].Waiting? then s.futures[f := Swept(sweep.error)] else s.futures)
  }

  /** The reader looks at a frame; an expected future leaves the table with it. */
  function Receive(s: Session, x: Incoming): Session {
    match x
    case EndOfStream => s.(reader := Raised(EXITED))
    case Broken(e) => s.(reader := Raised(e))
    case Envelope(r) =>
      if !(0 < r.id < s.nextId) then s.(reader := Raised(UNEXPECTED_ID))
      else if r.id in s.pending then s.(reader := Holding(s.pending[r.id], r), pending := s.pending - {r.id})
      else s
  }

  /** set_result and set_exception refuse a future that is already resolved; `remote_error` may itself raise. */
  function Deliver(s: Session): Session
    requires s.reader.Holding? && s.reader.future < |s.futures|
  {
    var f, r := s.reader.future, s.reader.response;
    if r.Refusal? && r.body.Malformed? then s.(reader := Raised(INVALID_ERROR), lost := Some(f))
    else if !s.futures[f].Waiting? then s.(reader := Crashed)
    else s.(reader := Reading, futures := s.futures[f := Answered(r)])
  }

  datatype Act =
    | Call(exempt: bool)
    | Leave(id: nat)
    | Read(incoming: Incoming)
    | Resolve
    | ReaderFails
    | Fail(error: Error)
    | SweepOne(k: nat, f: nat)
    | BeginClose
    | EndClose

  predicate Can(s: Session, a: Act) {
    match a
    case Leave(id) => 0 < id < s.nextId
    case Read(_) => s.reader.Reading?
    case Resolve => s.reader.Holding? && s.reader.future < |s.futures|
    case ReaderFails => s.reader.Raised?
    case SweepOne(k, f) => k < |s.sweeps| && f in s.sweeps[k].left && f < |s.futures|
    case _ => true
  }

  function After(s: Session, a: Act): Session
    requires Can(s, a)
  {
    match a
    case Call(exempt) => Register(s, exempt).0
    case Leave(id) => Forget(s, id)
    case Read(x) => Receive(s, x)
    case Resolve => Deliver(s)
    case ReaderFails => Seize(s, s.reader.error).(reader := Ended)
    case Fail(e) => Seize(s, e)
    case SweepOne(k, f) => FailOne(s, k, f)
    case BeginClose => s.(closing := true)
    case EndClose => s.(closed := true)
  }

  ghost predicate Run(ss: seq<Session>, acts: seq<Act>) {
    && |ss| == |acts| + 1
    && ss[0] == FRESH
    && forall i :: 0 <= i < |acts| ==> Can(ss[i], acts[i]) && ss[i + 1] == After(ss[i], acts[i])
  }

  // ----- what every step keeps -----

  predicate Held(s: Session, f: nat) { s.reader.Holding? && s.reader.future == f }

  predicate InSweep(s: Session, f: nat) { s.sweeps != [] && f in s.sweeps[0].left }

  /** The table: each pending id stands for the future made for it, which is unresolved. */
  predicate TableSound(s: Session) {
    && s.nextId == |s.futures| + 1 && |s.pending| <= MAX_PENDING
    && (s.failure.Some? ==> s.pending == map[])
    && forall id :: id in s.pending ==> 0 < id < s.nextId && s.pending[id] == id - 1 && s.futures[id - 1].Waiting?
  }

  predicate ReaderSound(s: Session) {
    && !s.reader.Crashed?
    && (s.reader.Ended? ==> s.failure.Some?)
    && (s.reader.Holding? ==>
          var f := s.reader.future;
          f < |s.futures| && s.futures[f].Waiting? && s.reader.response.id == f + 1 && f + 1 !in s.pending
            && !InSweep(s, f))
  }

  /** Only the first sweep ever finds anything. */
  predicate SweepsSound(s: Session) {
    && (s.sweeps != [] <==> s.failure.Some?)
    && (forall k :: 0 < k < |s.sweeps| ==> s.sweeps[k].left == {})
    && (s.sweeps != [] ==>
          && s.failure == Some(s.sweeps[0].error)
          && forall f :: f in s.sweeps[0].left ==> f < |s.futures| && s.futures[f].Waiting?)
  }

  predicate OutcomesSound(s: Session) {
    && (forall f :: 0 <= f < |s.futures| && s.futures[f].Answered? ==> s.futures[f].response.id == f + 1)
    && (forall f :: 0 <= f < |s.futures| && s.futures[f].Swept? ==> s.failure == Some(s.futures[f].error))
  }

  /** Someone answers for every unresolved future: the table, the reader, a sweep; or its caller has
      left; or it was lost. */
  predicate Accounted(s: Session) {
    && (forall f: nat :: f < |s.futures| && s.futures[f].Waiting? ==>
          f + 1 in s.pending || Held(s, f) || InSweep(s, f) || f + 1 in s.gone || s.lost == Some(f))
    && (s.lost.Some? ==>
          var f := s.lost.value;
          f < |s.futures| && s.futures[f].Waiting? && f + 1 !in s.pending && !InSweep(s, f)
          && (s.reader.Raised? || s.reader.Ended?))
  }

  predicate Inv(s: Session) {
    TableSound(s) && ReaderSound(s) && SweepsSound(s) && OutcomesSound(s) && Accounted(s)
  }

  lemma RegisterKeeps(s: Session, exempt: bool)
    requires Inv(s)
    ensures Inv(Register(s, exempt).0)
  {
    hide Accounted, TableSound;
    RegisterTable(s, exempt);
    RegisterRest(s, exempt);
    RegisterAccounts(s, exempt);
  }

  lemma RegisterTable(s: Session, exempt: bool)
    requires TableSound(s)
    ensures TableSound(Register(s, exempt).0)
  {
    if s.nextId !in s.pending {
      Larger(s.pending, s.nextId, |s.futures|);
    }
  }

  lemma Larger(m: map<nat, nat>, id: nat, f: nat)
    requires id !in m
    ensures |m[id := f]| == |m| + 1
  {
    assert m[id := f].Keys == m.Keys + {id};
  }

  lemma RegisterRest(s: Session, exempt: bool)
    requires TableSound(s) && ReaderSound(s) && SweepsSound(s) && OutcomesSound(s)
    ensures var t := Register(s, exempt).0;
            ReaderSound(t) && SweepsSound(t) && OutcomesSound(t)
  {
  }

  lemma RegisterAccounts(s: Session, exempt: bool)
    requires TableSound(s) && ReaderSound(s) && SweepsSound(s) && Accounted(s)
    ensures Accounted(Register(s, exempt).0)
  {
  }

  lemma ForgetKeeps(s: Session, id: nat)
    requires Inv(s) && 0 < id < s.nextId
    ensures Inv(Forget(s, id))
  {
    hide Accounted, OutcomesSound, SweepsSound, TableSound;
    ForgetTable(s, id);
    ForgetAccounts(s, id);
  }

  lemma ForgetTable(s: Session, id: nat)
    requires TableSound(s)
    ensures TableSound(Forget(s, id))
  {
    Smaller(s.pending, id);
  }

  lemma ForgetAccounts(s: Session, id: nat)
    requires SweepsSound(s) && OutcomesSound(s) && Accounted(s)
    ensures SweepsSound(Forget(s, id)) && OutcomesSound(Forget(s, id)) && Accounted(Forget(s, id))
  {
  }

  lemma ReceiveKeeps(s: Session, x: Incoming)
    requires Inv(s) && s.reader.Reading?
    ensures Inv(Receive(s, x))
  {
    hide Accounted, OutcomesSound, SweepsSound, TableSound, ReaderSound;
    ReceiveAccounts(s, x);
    ReceiveTable(s, x);
    ReceiveSweeps(s, x);
    ReceiveReader(s, x);
  }

  lemma ReceiveTable(s: Session, x: Incoming)
    requires TableSound(s)
    ensures TableSound(Receive(s, x))
  {
    if x.Envelope? && x.response.id >= 0 {
      Smaller(s.pending, x.response.id);
    }
  }

  lemma ReceiveSweeps(s: Session, x: Incoming)
    requires SweepsSound(s)
    ensures SweepsSound(Receive(s, x))
  {
  }

  lemma Smaller(m: map<nat, nat>, id: int)
    requires id >= 0
    ensures |m - {id}| <= |m|
  {
    assert (m - {id}).Keys == m.Keys - {id};
  }

  lemma ReceiveReader(s: Session, x: Incoming)
    requires TableSound(s) && SweepsSound(s) && ReaderSound(s) && s.reader.Reading?
    ensures ReaderSound(Receive(s, x))
  {
  }

  lemma ReceiveAccounts(s: Session, x: Incoming)
    requires TableSound(s) && Accounted(s) && OutcomesSound(s) && s.reader.Reading?
    ensures Accounted(Receive(s, x)) && OutcomesSound(Receive(s, x))
  {
  }

  lemma DeliverKeeps(s: Session)
    requires Inv(s) && s.reader.Holding?
    ensures Inv(Deliver(s))
  {
    hide Accounted, OutcomesSound;
    DeliverAccounts(s);
    DeliverOutcomes(s);
  }

  lemma DeliverAccounts(s: Session)
    requires TableSound(s) && ReaderSound(s) && SweepsSound(s) && Accounted(s) && s.reader.Holding?
    ensures Accounted(Deliver(s))
  {
    hide TableSound;
  }

  lemma DeliverOutcomes(s: Session)
    requires ReaderSound(s) && OutcomesSound(s) && s.reader.Holding?
    ensures OutcomesSound(Deliver(s))
  {
  }

  lemma SeizeKeeps(s: Session, e: Error, ended: bool)
    requires Inv(s) && (ended ==> s.reader.Raised?)
    ensures Inv(Seize(s, e).(reader := if ended then Ended else s.reader))
  {
    hide Accounted, SweepsSound;
    SeizeAccounts(s, e, ended);
    SeizeSweeps(s, e, ended);
  }

  lemma SeizeAccounts(s: Session, e: Error, ended: bool)
    requires Inv(s) && (ended ==> s.reader.Raised?)
    ensures Accounted(Seize(s, e).(reader := if ended then Ended else s.reader))
    ensures forall f: nat :: InSweep(Seize(s, e), f) <==> InSweep(s, f) || f + 1 in s.pending
  {
    hide ReaderSound, OutcomesSound;
    TakenFromTable(s, e);
  }

  lemma TakenFromTable(s: Session, e: Error)
    requires TableSound(s) && SweepsSound(s)
    ensures forall f: nat :: InSweep(Seize(s, e), f) <==> InSweep(s, f) || f + 1 in s.pending
  {
    var t := Seize(s, e);
    forall f: nat ensures InSweep(t, f) <==> InSweep(s, f) || f + 1 in s.pending {
      if f + 1 in s.pending {
        assert s.pending[f + 1] in s.pending.Values;
      }
    }
  }

  lemma SeizeSweeps(s: Session, e: Error, ended: bool)
    requires TableSound(s) && SweepsSound(s)
    ensures SweepsSound(Seize(s, e).(reader := if ended then Ended else s.reader))
  {
  }

  lemma FailOneKeeps(s: Session, k: nat, f: nat)
    requires Inv(s) && Can(s, SweepOne(k, f))
    ensures Inv(FailOne(s, k, f))
  {
  }

  lemma AfterKeeps(s: Session, a: Act)
    requires Inv(s) && Can(s, a)
    ensures Inv(After(s, a))
  {
    hide Register, Forget, Seize, FailOne, Receive, Deliver, TableSound, ReaderSound, SweepsSound;
    hide OutcomesSound, Accounted;
    match a
    case Call(exempt) => RegisterKeeps(s, exempt);
    case Leave(id) => ForgetKeeps(s, id);
    case Read(x) => ReceiveKeeps(s, x);
    case Resolve => DeliverKeeps(s);
    case ReaderFails => SeizeKeeps(s, s.reader.error, true);
    case Fail(e) => SeizeKeeps(s, e, false);
      SameReader(s, e);
    case SweepOne(k, f) => FailOneKeeps(s, k, f);
    case BeginClose => FlagsKeep(s, true, s.closed);
    case EndClose => FlagsKeep(s, s.closing, true);
  }

  lemma SameReader(s: Session, e: Error)
    ensures Seize(s, e).(reader := s.reader) == Seize(s, e)
  {
  }

  lemma FlagsKeep(s: Session, closing: bool, closed: bool)
    requires Inv(s)
    ensures Inv(s.(closing := closing, closed := closed))
  {
  }

  // ----- theorems over every interleaving -----

  /** At every point of every interleaving the invariant holds; with it at most 64 requests are pending
      and a recorded failure means an empty table. */
  lemma {:induction false} RunInv(ss: seq<Session>, acts: seq<Act>, i: nat)
    requires Run(ss, acts) && i < |ss|
    ensures Inv(ss[i])
    ensures |ss[i].pending| <= 64
    ensures ss[i].failure.Some? ==> ss[i].pending == map[]
  {
    if i == 0 {
      assert Inv(FRESH);
    } else {
      RunInv(ss, acts, i - 1);
      AfterKeeps(ss[i - 1], acts[i - 1]);
    }
  }

  /** A resolved future never changes again; a response resolves only the future of its own id, and
      leaves every other request as it was. */
  lemma ResolvedOnce(s: Session, a: Act, f: nat)
    requires Inv(s) && Can(s, a) && f < |s.futures|
    ensures f < |After(s, a).futures|
    ensures !s.futures[f].Waiting? ==> After(s, a).futures[f] == s.futures[f]
    ensures After(s, a).futures[f] != s.futures[f] ==>
              (a.Resolve? && s.reader.response.id == f + 1 && After(s, a).futures[f] == Answered(s.reader.response))
              || (a.SweepOne? && a.f == f && s.failure == Some(After(s, a).futures[f].error))
  {
    hide Accounted, TableSound, OutcomesSound;
  }

  /** Ids are handed out in order and never again, and nobody is admitted once the client has failed or closed. */
  lemma IdsAreFresh(s: Session, exempt: bool)
    requires Inv(s)
    ensures var (t, admission) := Register(s, exempt);
            && (admission.Admitted? <==>
                  !s.closed && (exempt || !s.closing) && s.failure.None? && |s.pending| < 64)
            && (admission.Admitted? ==> admission.id == s.nextId && t.nextId == s.nextId + 1
                                        && admission.id !in s.pending
                                          && t.pending == s.pending[admission.id := |s.futures|]
                                        && t.futures == s.futures + [Waiting])
            && (admission.Refused? ==> t == s)
  {
    hide ReaderSound, SweepsSound, OutcomesSound, Accounted;
  }

  lemma NeverReused(s: Session, a: Act)
    requires Can(s, a)
    ensures s.nextId <= After(s, a).nextId
    ensures forall id :: id in After(s, a).pending && id !in s.pending ==> id == s.nextId && a.Call?
  {
  }

  lemma {:induction false} GoneForGood(ss: seq<Session>, acts: seq<Act>, i: nat, j: nat, id: nat)
    requires Run(ss, acts) && i <= j < |ss| && id < ss[i].nextId && id !in ss[i].pending
    ensures id < ss[j].nextId && id !in ss[j].pending
    decreases j
  {
    hide Can, After;
    if i < j {
      GoneForGood(ss, acts, i, j - 1, id);
      NeverReused(ss[j - 1], acts[j - 1]);
    }
  }

  /** Once a request is answered, timed out or given up, no response for it changes anything ever after. */
  lemma LateResponsesAreIgnored(ss: seq<Session>, acts: seq<Act>, i: nat, j: nat, r: Response)
    requires Run(ss, acts) && i <= j < |acts| && acts[j] == Read(Envelope(r))
    requires 0 < r.id < ss[i].nextId && r.id !in ss[i].pending
    ensures ss[j + 1] == ss[j]
  {
    GoneForGood(ss, acts, i, j, r.id);
  }

  /** A caller still waits for this future and no step will ever resolve it. */
  predicate Stranded(s: Session, f: nat) {
    && f < |s.futures| && s.futures[f].Waiting? && f + 1 !in s.gone
    && f + 1 !in s.pending && !Held(s, f) && !InSweep(s, f)
  }

  /** A future is stranded exactly if the reader took it out of the table for a response whose error
      body then turned out malformed, and its caller has not given up. */
  lemma StrandedExactly(s: Session, f: nat)
    requires Inv(s)
    ensures Stranded(s, f) <==> s.lost == Some(f) && f + 1 !in s.gone
  {
    hide OutcomesSound;
  }

  /** What loses a future, and when. */
  lemma LostExactly(s: Session, a: Act)
    requires Inv(s) && Can(s, a)
    ensures var t := After(s, a);
            t.lost != s.lost <==> a.Resolve? && s.reader.response.Refusal? && s.reader.response.body.Malformed?
    ensures var t := After(s, a);
            t.lost != s.lost ==> s.lost.None? && t.lost == Some(s.reader.response.id - 1)
  {
    hide OutcomesSound, TableSound, SweepsSound;
  }

  /** As long as every error body read is well formed, no caller is ever stranded. */
  lemma {:induction false} NobodyStranded(ss: seq<Session>, acts: seq<Act>, i: nat, f: nat)
    requires Run(ss, acts) && i < |ss|
    requires forall j :: 0 <= j < |acts| && acts[j].Read? ==> !MalformedIn(acts[j].incoming)
    ensures !Stranded(ss[i], f)
  {
    RunInv(ss, acts, i);
    StrandedExactly(ss[i], f);
    NothingLost(ss, acts, i);
  }

  predicate MalformedIn(x: Incoming) {
    x.Envelope? && x.response.Refusal? && x.response.body.Malformed?
  }

  predicate Clean(s: Session) {
    s.lost.None? && (s.reader.Holding? ==> !MalformedIn(Envelope(s.reader.response)))
  }

  lemma {:induction false} NothingLost(ss: seq<Session>, acts: seq<Act>, i: nat)
    requires Run(ss, acts) && i < |ss|
    requires forall j :: 0 <= j < |acts| && acts[j].Read? ==> !MalformedIn(acts[j].incoming)
    ensures Clean(ss[i])
  {
    if i > 0 {
      NothingLost(ss, acts, i - 1);
      RunInv(ss, acts, i - 1);
      LostExactly(ss[i - 1], acts[i - 1]);
      CleanStep(ss[i - 1], acts[i - 1]);
    }
  }

  lemma CleanStep(s: Session, a: Act)
    requires Clean(s) && Can(s, a) && (a.Read? ==> !MalformedIn(a.incoming))
    ensures Clean(After(s, a))
  {
  }

  /** The shortest run that strands a caller: one request, one refusal for it with a malformed body. From
      then on nothing but the caller's own deadline ends its wait. */
  lemma MalformedErrorStrands() returns (ss: seq<Session>, acts: seq<Act>)
    ensures Run(ss, acts) && Stranded(ss[|acts|], 0)
    ensures ss[|acts|].reader.Ended? && ss[|acts|].failure.Some?
    ensures ss[|acts|].sweeps != [] && ss[|acts|].sweeps[0].left == {}
  {
    acts := [Call(false), Read(Envelope(Refusal(1, Malformed))), Resolve, ReaderFails];
    var s1 := After(FRESH, acts[0]);
    assert s1.pending == map[1 := 0];
    var s2 := After(s1, acts[1]);
    var s3 := After(s2, acts[2]);
    var s4 := After(s3, acts[3]);
    ss := [FRESH, s1, s2, s3, s4];
  }

  lemma {:induction false} StrandedForever(ss: seq<Session>, acts: seq<Act>, i: nat, j: nat, f: nat)
    requires Run(ss, acts) && i <= j < |ss| && Stranded(ss[i], f)
    requires forall k :: i <= k < j ==> acts[k] != Leave(f + 1)
    ensures Stranded(ss[j], f)
    decreases j
  {
    hide Inv, After, Can, Stranded;
    if i < j {
      StrandedForever(ss, acts, i, j - 1, f);
      RunInv(ss, acts, j - 1);
      StrandedStep(ss[j - 1], acts[j - 1], f);
    }
  }

  lemma StrandedStep(s: Session, a: Act, f: nat)
    requires Inv(s) && Can(s, a) && Stranded(s, f) && a != Leave(f + 1)
    ensures Stranded(After(s, a), f)
  {
    hide Inv, Stranded, After, Can;
    AfterKeeps(s, a);
    StrandedExactly(s, f);
    StrandedExactly(After(s, a), f);
    LostExactly(s, a);
    OnlyLeaving(s, a);
  }

  lemma OnlyLeaving(s: Session, a: Act)
    requires Can(s, a)
    ensures After(s, a).gone == if a.Leave? then s.gone + {a.id} else s.gone
  {
  }

  /** When the reader has ended and every sweep is through, each request ever made is resolved, given up,
      or the one that was lost. */
  lemma AllAnsweredInTheEnd(s: Session, f: nat)
    requires Inv(s) && s.reader.Ended? && f < |s.futures|
    requires s.sweeps[0].left == {}
    ensures !s.futures[f].Waiting? || f + 1 in s.gone || s.lost == Some(f)
  {
    hide OutcomesSound;
  }

  // ----- said of whole runs -----

  /** Whatever a future was resolved with, it keeps. */
  lemma {:induction false} ResolvedForever(ss: seq<Session>, acts: seq<Act>, i: nat, j: nat, f: nat)
    requires Run(ss, acts) && i <= j < |ss| && f < |ss[i].futures| && !ss[i].futures[f].Waiting?
    ensures f < |ss[j].futures| && ss[j].futures[f] == ss[i].futures[f]
    decreases j
  {
    hide Inv, After, Can;
    if i < j {
      ResolvedForever(ss, acts, i, j - 1, f);
      RunInv(ss, acts, j - 1);
      ResolvedOnce(ss[j - 1], acts[j - 1], f);
    }
  }

  /** The response was read at some step before i. */
  ghost predicate WasRead(acts: seq<Act>, i: nat, r: Response) {
    exists k :: 0 <= k < i && k < |acts| && acts[k] == Read(Envelope(r))
  }

  ghost predicate Received(acts: seq<Act>, i: nat, s: Session) {
    && (s.reader.Holding? ==> WasRead(acts, i, s.reader.response))
    && forall f :: 0 <= f < |s.futures| && s.futures[f].Answered? ==> WasRead(acts, i, s.futures[f].response)
  }

  /** An answered future was answered by a response that was read, and that carried its own id. */
  lemma AnsweredByItsOwn(ss: seq<Session>, acts: seq<Act>, i: nat, f: nat)
    requires Run(ss, acts) && i < |ss| && f < |ss[i].futures| && ss[i].futures[f].Answered?
    ensures ss[i].futures[f].response.id == f + 1 && WasRead(acts, i, ss[i].futures[f].response)
  {
    hide Run, WasRead;
    RunInv(ss, acts, i);
    AllReceived(ss, acts, i);
  }

  lemma {:induction false} AllReceived(ss: seq<Session>, acts: seq<Act>, i: nat)
    requires Run(ss, acts) && i < |ss|
    ensures Received(acts, i, ss[i])
  {
    hide After, Can, Inv, Received, Receive;
    if i == 0 {
      NothingReceived(acts);
    } else {
      AllReceived(ss, acts, i - 1);
      RunInv(ss, acts, i - 1);
      ReceivedStep(acts, i - 1, ss[i - 1]);
    }
  }

  lemma NothingReceived(acts: seq<Act>)
    ensures Received(acts, 0, FRESH)
  {
  }

  lemma ReceivedStep(acts: seq<Act>, i: nat, s: Session)
    requires i < |acts| && Inv(s) && Can(s, acts[i]) && Received(acts, i, s)
    ensures Received(acts, i + 1, After(s, acts[i]))
  {
    hide WasRead, OutcomesSound, Accounted, TableSound;
    LaterToo(acts, i);
    var t := After(s, acts[i]);
    if acts[i].Read? && t.reader.Holding? {
      JustRead(acts, i, t.reader.response);
    }
  }

  lemma LaterToo(acts: seq<Act>, i: nat)
    ensures forall r :: WasRead(acts, i, r) ==> WasRead(acts, i + 1, r)
  {
  }

  lemma JustRead(acts: seq<Act>, i: nat, r: Response)
    requires i < |acts| && acts[i] == Read(Envelope(r))
    ensures WasRead(acts, i + 1, r)
  {
  }

  /** No two calls of a run are ever given the same id. */
  lemma IdsDiffer(ss: seq<Session>, acts: seq<Act>, i: nat, j: nat)
    requires Run(ss, acts) && i < j < |acts| && acts[i].Call? && acts[j].Call?
    requires Register(ss[i], acts[i].exempt).1.Admitted? && Register(ss[j], acts[j].exempt).1.Admitted?
    ensures Register(ss[i], acts[i].exempt).1.id < Register(ss[j], acts[j].exempt).1.id
  {
    assert ss[i + 1] == After(ss[i], acts[i]);
    NextIdGrows(ss, acts, i + 1, j);
  }

  lemma {:induction false} NextIdGrows(ss: seq<Session>, acts: seq<Act>, i: nat, j: nat)
    requires Run(ss, acts) && i <= j < |ss|
    ensures ss[i].nextId <= ss[j].nextId
    decreases j
  {
    hide After, Can;
    if i < j {
      NextIdGrows(ss, acts, i, j - 1);
      NeverReused(ss[j - 1], acts[j - 1]);
    }
  }

  /** At step k the reader gives up the future of f over a malformed error body. */
  predicate Drops(ss: seq<Session>, acts: seq<Act>, k: int, f: nat)
    requires |ss| == |acts| + 1
  {
    && 0 <= k < |acts| && acts[k].Resolve?
    && ss[k].reader.Holding? && ss[k].reader.future == f && MalformedIn(Envelope(ss[k].reader.response))
  }

  lemma {:induction false} LostInRun(ss: seq<Session>, acts: seq<Act>, i: nat, f: nat)
    requires Run(ss, acts) && i < |ss|
    ensures ss[i].lost == Some(f) <==> exists k :: 0 <= k < i && Drops(ss, acts, k, f)
  {
    hide After, Can, Inv, MalformedIn;
    if i > 0 {
      LostInRun(ss, acts, i - 1, f);
      RunInv(ss, acts, i - 1);
      LostStep(ss[i - 1], acts[i - 1], f);
      assert Drops(ss, acts, i - 1, f) <==> DropsNow(ss[i - 1], acts[i - 1], f);
    }
  }

  predicate DropsNow(s: Session, a: Act, f: nat) {
    a.Resolve? && s.reader.Holding? && s.reader.future == f && MalformedIn(Envelope(s.reader.response))
  }

  lemma LostStep(s: Session, a: Act, f: nat)
    requires Inv(s) && Can(s, a)
    ensures After(s, a).lost == Some(f) <==> s.lost == Some(f) || DropsNow(s, a, f)
  {
    hide OutcomesSound, TableSound, SweepsSound;
  }

  /** At any point of any run a caller is stranded exactly if at some earlier step the reader gave up its
      future over a malformed error body, and the caller has not left since. */
  lemma StrandedInRun(ss: seq<Session>, acts: seq<Act>, i: nat, f: nat)
    requires Run(ss, acts) && i < |ss|
    ensures Stranded(ss[i], f) <==>
            f + 1 !in ss[i].gone && exists k :: 0 <= k < i && Drops(ss, acts, k, f)
  {
    hide Run, Inv, Stranded, Drops;
    RunInv(ss, acts, i);
    StrandedExactly(ss[i], f);
    LostInRun(ss, acts, i, f);
  }
}
