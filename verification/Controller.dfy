// The controller object: the event loop and the restart loop in their own form, tied step by step to the
// state machine of Supervisor and Lifecycle (priv/efz_external.py:334-336, 366-619).
module ControllerObject {
  import opened Bytes
  import opened Wire
  import opened Storage
  import opened Records
  import opened Scripts
  import opened Supervisor
  import opened Lifecycle
  import opened JournalObject
  import opened Rounds
  import opened Wrappers

  datatype FrameFail = Protocol(e: FrameError) | Died(f: Fatal)

  class Controller {
    const lib: Library
    const c: Config
    const journal: Journal
    var generation: nat
    var live: bool
    var run: nat
    var mutations: nat
    var verifications: nat
    var findings: seq<Key>
    var quarantine: set<string>
    var events: seq<Event>
    var gen: Gen
    /** Every frame sent, in order. */
    var sent: seq<Frame>
    /** Bookkeeping of the model: results accepted, and all events ever logged. */
    var settled: nat
    var history: seq<Event>
    /** The campaign of the state machine that this object has carried out. */
    ghost var states: seq<Sup>
    ghost var blocks: seq<Block>
    /** ... and what each of its blocks asked of the journal. */
    ghost var asked: seq<Request>

    function View(): Sup
      reads this
    {
      Sup(generation, live, run, mutations, verifications, settled, findings, quarantine, events, history, gen)
    }

    ghost predicate Tracked()
      reads this
    {
      && Campaign(lib, c, states, blocks) && states[|blocks|] == View() && Inv(c, View())
      && Recorded(lib, c, states, blocks, asked)
    }

    /** What was done is a campaign of the state machine, and whatever the worker was told is on disk. */
    ghost predicate Valid()
      reads this, journal
    {
      && journal.lib == lib && journal.campaign == c.campaign
      && Tracked()
      && Covered(lib, c, journal.disk, asked, run, gen.pending, sent)
    }

    constructor (lib: Library, c: Config, journal: Journal)
      requires journal.lib == lib && journal.campaign == c.campaign
      ensures Valid() && this.lib == lib && this.c == c && this.journal == journal
      ensures View() == Initial(c) && sent == [] && blocks == []
    {
      this.lib, this.c, this.journal := lib, c, journal;
      generation, live, run, mutations, verifications := 0, false, 0, 0, 0;
      findings, quarantine, events := [], {}, [];
      gen := FreshGen(c, None, [], 0.0);
      sent := [];
      settled, history, states, blocks, asked := 0, [], [Initial(c)], [], [];
      new;
      InitialInv(c);
    }

    /** `event`: append, keep the last 256. */
    method Log(kind: EventKind)
      modifies this`events, this`history
      ensures View() == Logged(old(View()), kind)
    {
      events := events + [Event(kind, generation)];
      history := history + [Event(kind, generation)];
      if |events| > WINDOW {
        events := events[|events| - WINDOW..];
      }
    }

    /** Notes the block just carried out. */
    ghost method Note(b: Block, before: Sup)
      requires Campaign(lib, c, states, blocks) && states[|blocks|] == before && Inv(c, before)
      requires Recorded(lib, c, states, blocks, asked)
      requires Can(c, before, b) && View() == After(lib, c, before, b).0
      modifies this`states, this`blocks, this`asked
      ensures Tracked() && View() == old(View())
      ensures asked == old(asked) + [Asks(lib, c, before, b)] && blocks == old(blocks) + [b]
    {
      hide Conserved, WithinBudget, StopsSound, WordSound, LogSound, Can, After, Asks, Recorded;
      AfterKeeps(lib, c, before, b);
      CampaignExtends(lib, c, states, blocks, b, View());
      RecordedExtends(lib, c, states, blocks, asked, b, View());
      asked := asked + [Asks(lib, c, before, b)];
      states, blocks := states + [View()], blocks + [b];
    }

    // ----- what the journal can do -----

    /** The byte budget has room for the run, its name is free, and the disk obeys until it is authorized. */
    ghost predicate CanIssue(key: Key, job: Job)
      reads journal
    {
      && journal.count + Cost(job) <= journal.maxBytes
      && GoesThrough(journal.disk, PrepareOps(lib, Stage(c.campaign, journal.uuid), key, job)
                                   + AuthorizeOps(lib, key, journal.uuid + 1), journal.fuel)
    }

    ghost predicate CanSettle(key: Key, result: map<string, Value>)
      reads journal
    {
      GoesThrough(journal.disk, FinishOps(lib, key, journal.uuid, result), journal.fuel)
    }

    ghost predicate CanDo(q: Request)
      reads journal
    {
      match q
      case Nothing => true
      case Issue(key, job, _) => CanIssue(key, job)
      case Settle(key, result) => CanSettle(key, result)
    }

    // ----- frames -----

    method Send(f: Frame)
      modifies this`sent
      ensures sent == old(sent) + [f]
    {
      sent := sent + [f];
    }

    method HandleHello(body: bytes) returns (r: Result<(), FrameFail>)
      modifies this`gen, this`sent
      ensures Followed(OnHello(c, old(View()), body), old(View()), View(), old(sent), sent, r)
    {
      hide CheckHello;
      match CheckHello(c, gen, body)
      case Some(e) => r := Err(Protocol(e));
      case None =>
        gen := gen.(state := SETUP, word := gen.word + [Hello]);
        Send(Reply(generation, 11, 0, []));
        r := Ok(());
    }

    method HandleReady(now: real) returns (r: Result<(), FrameFail>)
      modifies this`gen, this`sent, this`events, this`history
      ensures Followed(OnReady(c, old(View()), now), old(View()), View(), old(sent), sent, r)
    {
      gen := gen.(state := READY, word := gen.word + [Readied]);
      gen := gen.(deadline := now + c.startup);
      gen := gen.(readyAt := Some(|history|));
      Log(Ready);
      Send(Reply(generation, 11, 0, []));
      r := Ok(());
    }

    method HandlePrepare(body: bytes, now: real) returns (r: Result<(), FrameFail>)
      requires |body| >= 46 && gen.state == READY
      requires journal.lib == lib && journal.campaign == c.campaign
      modifies this`gen, this`sent, this`run, this`mutations, this`verifications
      modifies journal`disk, journal`fuel, journal`uuid, journal`count
      ensures r.Err? ==> sent == old(sent) && NothingLost(lib, c, old(journal.disk), journal.disk)
      ensures !r.Err? || !r.error.Died? ==>
                Followed(OnPrepare(lib, c, old(View()), body, now), old(View()), View(), old(sent), sent, r)
      ensures r.Ok? ==> Obeyed(lib, OnPrepare(lib, c, old(View()), body, now).request, old(journal.disk), journal.disk)
      ensures r.Err? && r.error.Protocol? ==> journal.disk == old(journal.disk)
      ensures var x := OnPrepare(lib, c, old(View()), body, now);
              Dies(r) <==> x.Accepted? && !old(CanDo(x.request))
      ensures Dies(r) ==> r.error.f.JournalFailed?
    {
      hide CheckPrepare, MetaOf, Hex, Ran, PrepareOps, Cost, NothingLost, CanIssue;
      SameDiskLosesNothing(lib, c, journal.disk);
      var p := ParsePrepare(body);
      match CheckPrepare(lib, c, p)
      case Some(e) => return Err(Protocol(e));
      case None =>
      if run >= c.supervisedRuns || (p.phase == 2 && mutations >= c.maxIterations) {
        gen := gen.(state := READY, word := gen.word + [Refused]);
        Send(Reply(generation, 12, 0, []));
        gen := gen.(stop := Some(BudgetCompleted));
        return Ok(());
      }
      r := Carry(p, now);
    }

    /** The durable part of PREPARE: the run published, then its permission recorded. */
    method PublishAndAuthorize(id: nat, job: Job) returns (r: Result<Key, Fatal>)
      requires journal.lib == lib && journal.campaign == c.campaign
      modifies journal`disk, journal`fuel, journal`uuid, journal`count
      ensures r.Ok? ==> r.value == Key(c.campaign, id)
                        && IssuedOnDisk(lib, r.value, job, old(journal.disk), journal.disk)
      ensures r.Err? ==> r.error.JournalFailed? && NothingLost(lib, c, old(journal.disk), journal.disk)
      ensures r.Ok? <==> old(CanIssue(Key(c.campaign, id), job))
    {
      hide Ran, PrepareOps, Cost, AuthorizeOps, IssuedOnDisk, NothingLost, GoesThrough;
      ghost var d0, u0, f0 := journal.disk, journal.uuid, journal.fuel;
      ghost var a := PrepareOps(lib, Stage(c.campaign, u0), Key(c.campaign, id), job);
      ghost var b := AuthorizeOps(lib, Key(c.campaign, id), u0 + 1);
      var prepared, n := journal.Prepare(id, job.raw, job.meta, job.recipe);
      if prepared.Err? {
        if prepared.error == ByteBudget {
          SameDiskLosesNothing(lib, c, d0);
        } else {
          PrepareLosesNothing(lib, c, d0, journal.disk, Stage(c.campaign, u0), Key(c.campaign, id), job, n, f0,
                              journal.fuel);
          RanBound(d0, journal.disk, a, n, f0, journal.fuel);
          Stopped(d0, journal.disk, a, b, n, f0, journal.fuel);
        }
        return Err(JournalFailed(prepared.error));
      }
      var key := prepared.value;
      ghost var d1, u1, f1 := journal.disk, journal.uuid, journal.fuel;
      var ok, m := journal.Authorize(key);
      FourOps(lib, key, u1, map[]);
      WentOn(d0, d1, journal.disk, a, b, n, m, f0, f1, journal.fuel);
      if !ok {
        AuthorizeLosesNothing(lib, c, d0, d1, journal.disk, Stage(c.campaign, u0), key, job, u1, n, m, f0, f1,
                              journal.fuel);
        return Err(JournalFailed(Io));
      }
      IssueOnDisk(lib, d0, d1, journal.disk, key, job, Stage(c.campaign, u0), u1, n, m, f0, f1, journal.fuel);
      r := Ok(key);
    }

    /** PREPARING: count, publish, authorize, and only then permit. */
    method Carry(p: Prepare, now: real) returns (r: Result<(), FrameFail>)
      requires CheckPrepare(lib, c, p) == None
      requires journal.lib == lib && journal.campaign == c.campaign
      modifies this`gen, this`sent, this`run, this`mutations, this`verifications
      modifies journal`disk, journal`fuel, journal`uuid, journal`count
      ensures r.Err? ==> sent == old(sent) && r.error.Died? && NothingLost(lib, c, old(journal.disk), journal.disk)
      ensures r.Ok? ==> Followed(Admit(lib, c, old(View()), p, now), old(View()), View(), old(sent), sent, r)
      ensures r.Ok? ==> Obeyed(lib, Admit(lib, c, old(View()), p, now).request, old(journal.disk), journal.disk)
      ensures r.Ok? <==> old(CanDo(Admit(lib, c, View(), p, now).request))
      ensures r.Err? ==> r.error.f.JournalFailed?
    {
      hide CheckPrepare, MetaOf, Hex, IssuedOnDisk, Admit, Counted, WithPermit, NothingLost, CanIssue;
      AdmitParts(lib, c, View(), p, now);
      var raw, recipe := PrepareParts(lib, c, p);
      CountIn(p.phase);
      var job := Job(raw, MetaOf(c, generation, gen, p, run), recipe);
      var issued := PublishAndAuthorize(run, job);
      if issued.Err? {
        return Err(Died(issued.error));
      }
      Permit(issued.value, p, now);
      r := Ok(());
    }

    method CountIn(phase: nat)
      modifies this`run, this`mutations, this`verifications
      ensures View() == Counted(old(View()), phase) && run == old(run) + 1
    {
      run := run + 1;
      if phase == 2 {
        mutations := mutations + 1;
      }
      if phase == 3 {
        verifications := verifications + 1;
      }
    }

    method Permit(key: Key, p: Prepare, now: real)
      modifies this`gen, this`sent
      ensures View() == WithPermit(c, old(View()), key, p, now)
      ensures sent == old(sent) + [Reply(generation, 10, run, p.digest)]
    {
      hide Hex;
      gen := gen.(pending := Some(Pending(key, Hex(p.digest))), state := EXECUTING, word := gen.word + [Admitted]);
      gen := gen.(deadline := now + p.timeout as real / 1000.0 + 1.0 + c.memoryGrace + c.ipcGrace);
      Send(Reply(generation, 10, run, p.digest));
    }

    method PrepareParts(lib: Library, c: Config, p: Prepare) returns (raw: bytes, recipe: bytes)
      requires CheckPrepare(lib, c, p) == None
      ensures raw == p.rest[..p.size] && recipe == p.rest[p.size..]
    {
      raw, recipe := p.rest[..p.size], p.rest[p.size..];
    }

    /** A verdict for a run that has none yet. */
    method Conclude(key: Key, result: map<string, Value>) returns (r: Result<(), Fatal>)
      requires Unsettled(lib, journal.disk, key) && journal.lib == lib
      modifies journal`disk, journal`fuel, journal`uuid
      ensures r.Ok? ==> SettledOnDisk(lib, key, result, old(journal.disk), journal.disk)
      ensures r.Err? ==> r.error.JournalFailed? && NothingLost(lib, c, old(journal.disk), journal.disk)
      ensures r.Ok? <==> old(CanSettle(key, result))
    {
      hide Ran, FinishOps, SettledOnDisk, NothingLost, GoesThrough;
      ghost var d0, u0, f0 := journal.disk, journal.uuid, journal.fuel;
      var finished, n := journal.Finish(key, result);
      assert |FinishOps(lib, key, u0, result)| == 4 by { FourOps(lib, key, u0, result); }
      RanExactly(d0, journal.disk, FinishOps(lib, key, u0, result), n, f0, journal.fuel);
      if finished.Err? {
        FinishLosesNothing(lib, c, d0, journal.disk, key, result, u0, n, f0, journal.fuel);
        return Err(JournalFailed(finished.error));
      }
      FinishOnDisk(lib, d0, journal.disk, key, result, u0, n, f0, journal.fuel);
      r := Ok(());
    }

    method HandleResult(body: bytes, id: nat, now: real) returns (r: Result<(), FrameFail>)
      requires |body| == 4 && gen.pending.Some? && Unsettled(lib, journal.disk, gen.pending.value.key)
      requires journal.lib == lib
      modifies this`gen, this`sent, this`quarantine, this`events, this`history, this`settled
      modifies journal`disk, journal`fuel, journal`uuid
      ensures r.Err? ==> sent == old(sent) && NothingLost(lib, c, old(journal.disk), journal.disk)
      ensures !r.Err? || !r.error.Died? ==>
                Followed(OnResult(c, old(View()), body, id, now), old(View()), View(), old(sent), sent, r)
      ensures r.Ok? ==> Obeyed(lib, OnResult(c, old(View()), body, id, now).request, old(journal.disk), journal.disk)
      ensures r.Err? && r.error.Protocol? ==> journal.disk == old(journal.disk)
      ensures var x := OnResult(c, old(View()), body, id, now);
              Dies(r) <==> x.Accepted? && !old(CanDo(x.request))
      ensures Dies(r) ==> r.error.f.JournalFailed?
    {
      hide ResultOf, Latest, SettledOnDisk, OnResult, NothingLost, CanSettle;
      SameDiskLosesNothing(lib, c, journal.disk);
      ResultParts(c, View(), body, id, now);
      if body[0] > 4 || body[1] > 4 || body[2] > 1 || body[3] > 3 {
        return Err(Protocol(ResultSchema));
      }
      var concluded := Conclude(gen.pending.value.key, ResultOf(generation, body, id));
      if concluded.Err? {
        return Err(Died(concluded.error));
      }
      Absorb(gen.pending.value.inputSha, body[2] != 0, id, now);
      r := Ok(());
    }

    /** The rest of FINALIZING, once the verdict is durable. */
    method Absorb(inputSha: string, dirty: bool, id: nat, now: real)
      modifies this`gen, this`sent, this`quarantine, this`events, this`history, this`settled
      ensures View() == Absorbed(c, old(View()), inputSha, dirty, now)
      ensures sent == old(sent) + [Reply(generation, 11, id, [])]
    {
      hide Latest;
      settled := settled + 1;
      Log(ResultEvent);
      gen := gen.(pending := None, state := READY, deadline := now + c.startup,
                  word := gen.word + [if dirty then Dirty else Clean]);
      Send(Reply(generation, 11, id, []));
      if dirty {
        quarantine := quarantine + {inputSha};
        gen := gen.(stop := Some(DirtyRecycle), state := RECYCLING, killAfter := now + 0.5);
      }
    }

    method HandleDone(body: bytes, now: real) returns (r: Result<(), FrameFail>)
      requires |body| == 1
      modifies this`gen, this`sent
      ensures Followed(OnDone(old(View()), body, now), old(View()), View(), old(sent), sent, r)
    {
      gen := gen.(done := Some(body[0]));
      Send(Reply(generation, 11, 0, []));
      gen := gen.(state := STOPPING, word := gen.word + [Done]);
      gen := gen.(deadline := now + 1.0);
      r := Ok(());
    }

    /** `frame`. A rejected frame changes nothing; an accepted one is answered only after what it asked
        of the journal is on disk. */
    method Frame(row: bytes, now: real) returns (r: Result<(), FrameFail>)
      requires |row| >= 13
      requires gen.state == EXECUTING ==> gen.pending.Some? && Unsettled(lib, journal.disk, gen.pending.value.key)
      requires journal.lib == lib && journal.campaign == c.campaign
      modifies this`gen, this`sent, this`run, this`mutations, this`verifications, this`quarantine
      modifies this`events, this`history, this`settled
      modifies journal`disk, journal`fuel, journal`uuid, journal`count
      ensures r.Err? ==> sent == old(sent) && NothingLost(lib, c, old(journal.disk), journal.disk)
      ensures !r.Err? || !r.error.Died? ==>
                Followed(OnFrame(lib, c, old(View()), row, now), old(View()), View(), old(sent), sent, r)
      ensures r.Ok? ==> Obeyed(lib, OnFrame(lib, c, old(View()), row, now).request, old(journal.disk), journal.disk)
      ensures r.Err? && r.error.Protocol? ==> journal.disk == old(journal.disk)
      ensures var x := OnFrame(lib, c, old(View()), row, now);
              Dies(r) <==> x.Accepted? && !old(CanDo(x.request))
      ensures Dies(r) ==> r.error.f.JournalFailed?
    {
      hide OnHello, OnReady, OnPrepare, OnResult, OnDone, Fields, NothingLost, CanIssue, CanSettle;
      SameDiskLosesNothing(lib, c, journal.disk);
      var f := Fields(row);
      RequestsOfTheRest(c, View(), f.payload, now);
      if f.generation != generation {
        r := Err(Protocol(WrongGeneration));
      } else if f.kind == 1 && gen.state == STARTING && f.run == 0 {
        r := HandleHello(f.payload);
      } else if f.kind == 2 && gen.state == SETUP && f.run == 0 && f.payload == [] {
        r := HandleReady(now);
      } else if f.kind == 3 && gen.state == READY && f.run == 0 && |f.payload| >= 46 {
        r := HandlePrepare(f.payload, now);
      } else if f.kind == 4 && gen.state == EXECUTING && f.run == run && |f.payload| == 4 {
        r := HandleResult(f.payload, f.run, now);
      } else if f.kind == 5 && gen.state in {READY, SETUP, RECYCLING} && f.run == 0 && |f.payload| == 1
                && f.payload[0] <= 2 {
        r := HandleDone(f.payload, now);
      } else {
        r := Err(Protocol(UnexpectedOrDuplicate));
      }
    }

    // ----- the other blocks of the loop, in memory -----

    method StopHelper()
      modifies this`gen
      ensures gen == old(gen).(stopBytes := old(gen).stopBytes + 1)
    {
      gen := gen.(stopBytes := gen.stopBytes + 1);
    }

    method CheckDeadlines(now: real)
      modifies this`gen
      ensures View() == Timers(c, old(View()), now)
    {
      var stop := gen.stop;
      if now >= c.end && stop.None? {
        stop := Some(CampaignDeadline);
      }
      if now >= gen.deadline && stop.None? {
        stop := Some(if gen.state == EXECUTING then WorkerHardTimeout else StartupOrIdleTimeout);
      }
      if gen.since.Some? && now - gen.since.value > 1.0 && stop.None? {
        stop := Some(WorkerProtocolFailure);
      }
      gen := gen.(stop := stop);
      if stop.Some? && gen.killAt.None? && now >= gen.killAfter {
        StopHelper();
        gen := gen.(killAt := Some(now));
      }
    }

    method LoseParent()
      modifies this`gen
      ensures View() == ParentGone(old(View()))
    {
      gen := gen.(stop := Some(SupervisorParentDeath));
      StopHelper();
    }

    method Accept(pid: int)
      modifies this`gen
      ensures View() == Connected(old(View()), pid)
    {
      gen := gen.(connected := true);
      gen := gen.(peerPid := Some(pid));
    }

    method ReadStatus(row: StatusRow)
      requires !row.BadRow?
      modifies this`gen, this`events, this`history
      ensures View() == match row
                        case PidRow(pid) => LauncherSaysPid(old(View()), pid)
                        case EndRow(e) => LauncherSaysEnd(old(View()), e)
    {
      hide Latest;
      match row
      case PidRow(pid) =>
        gen := gen.(workerPid := Some(pid));
        Log(Launched);
      case EndRow(e) =>
        gen := gen.(evidence := Some(e));
    }

    method EndOfStream()
      modifies this`gen
      ensures View() == StreamEnds(old(View()))
    {
      gen := gen.(eof := true);
      if gen.buffer != [] && gen.stop.None? {
        gen := gen.(stop := Some(WorkerProtocolFailure));
      }
    }

    method Misbehave()
      modifies this`gen, this`events, this`history
      ensures View() == Misbehaved(old(View()))
    {
      hide Latest;
      Log(ProtocolErrorEvent);
      gen := gen.(stop := Some(WorkerProtocolFailure), queue := []);
    }

    method Receive(decoder: Decoder, data: bytes, now: real)
      requires InStep(decoder.buffer, decoder.waiting, decoder.since, gen)
      modifies this`gen, this`events, this`history, decoder
      ensures View() == Received(old(View()), data, now)
      ensures InStep(decoder.buffer, decoder.waiting, decoder.since, gen)
    {
      hide Latest, Split, Dropped, Fed;
      var fed := decoder.Feed(data, now);
      gen := gen.(buffer := decoder.buffer);
      match fed
      case Err(_) =>
        Misbehave();
      case Ok(rows) =>
        gen := gen.(since := if decoder.waiting then Some(decoder.since) else None, queue := rows);
    }

    /** One decoded frame: the peer check, then `frame` unless the generation is being stopped. */
    method HandleRow(now: real) returns (r: Result<(), Fatal>)
      requires gen.queue != [] && |gen.queue[0]| >= 13
      requires gen.state == EXECUTING ==> gen.pending.Some? && Unsettled(lib, journal.disk, gen.pending.value.key)
      requires journal.lib == lib && journal.campaign == c.campaign
      modifies this`gen, this`sent, this`run, this`mutations, this`verifications, this`quarantine
      modifies this`events, this`history, this`settled
      modifies journal`disk, journal`fuel, journal`uuid, journal`count
      ensures r.Err? ==> sent == old(sent) && NothingLost(lib, c, old(journal.disk), journal.disk)
      ensures r.Ok? <==> old(CanDo(OnRow(lib, c, View(), now).1))
      ensures r.Err? ==> r.error.JournalFailed?
      ensures r.Ok? ==> Did(OnRow(lib, c, old(View()), now), lib, View(), old(sent), sent, old(journal.disk),
                            journal.disk)
    {
      hide OnFrame, Obeyed, Latest, NothingLost, CanIssue, CanSettle;
      var row := gen.queue[0];
      gen := gen.(queue := gen.queue[1..]);
      Untouched(lib, journal.disk);
      if gen.workerPid.None? || gen.peerPid != gen.workerPid {
        Misbehave();
      } else if gen.stop.None? || gen.stop == Some(DirtyRecycle) {
        var framed := Frame(row, now);
        if framed.Err? && framed.error.Died? {
          return Err(framed.error.f);
        }
        if framed.Err? {
          Misbehave();
        }
      }
      r := Ok(());
    }

    /** The end of a generation: a run still in flight gets the verdict of what ended it. */
    method EndGeneration() returns (r: Result<(), Fatal>)
      requires Over(gen) && (gen.pending.Some? ==> Unsettled(lib, journal.disk, gen.pending.value.key))
      requires journal.lib == lib && journal.campaign == c.campaign
      modifies this`gen, this`live, this`findings, this`quarantine, this`events, this`history
      modifies journal`disk, journal`fuel, journal`uuid
      ensures r.Err? ==> r.error.JournalFailed? && NothingLost(lib, c, old(journal.disk), journal.disk)
      ensures r.Ok? <==> old(CanDo(Ended(View()).1))
      ensures r.Ok? ==> View() == Ended(old(View())).0
      ensures r.Ok? ==> Obeyed(lib, Ended(old(View())).1, old(journal.disk), journal.disk)
    {
      hide Latest, SettledOnDisk, TerminationResult, NothingLost, Unsettled, CanSettle;
      Log(Terminated);
      live := false;
      if gen.pending.Some? {
        var p := gen.pending.value;
        var concluded := Conclude(p.key, TerminationResult(gen, gen.evidence.value));
        if concluded.Err? {
          return Err(concluded.error);
        }
        findings := findings + [p.key];
        quarantine := quarantine + {p.inputSha};
        gen := gen.(pending := None);
      }
      r := Ok(());
    }

    method BeginGeneration(workerConfig: bytes, start: real)
      modifies this`generation, this`live, this`gen
      ensures View() == NextGeneration(c, old(View()), workerConfig, start)
    {
      generation := generation + 1;
      live := true;
      gen := FreshGen(c, gen.peerPid, workerConfig, start);
    }

    // ----- the event loop -----

    /** Whatever the worker was ever told is so on disk. */
    ghost predicate AllTold()
      reads this, journal
    {
      forall i :: 0 <= i < |sent| ==> FrameCovered(lib, c, journal.disk, asked, sent[i])
    }

    lemma ValidTells()
      ensures Valid() ==> AllTold()
    {
      hide Tracked, FrameCovered;
    }

    /** Inside the event loop, between blocks. */
    ghost predicate Running(decoder: Decoder)
      reads this, journal, decoder
    {
      Valid() && live && gen.queue == [] && InStep(decoder.buffer, decoder.waiting, decoder.since, gen)
    }

    /** Notes a block that only watches. */
    ghost method NoteWatching(decoder: Decoder, b: Block, before: Sup)
      requires !b.Row? && !b.Leave? && !b.Next? && Can(c, before, b)
      requires Campaign(lib, c, states, blocks) && states[|blocks|] == before && Inv(c, before)
      requires Recorded(lib, c, states, blocks, asked)
      requires View() == After(lib, c, before, b).0
      requires journal.lib == lib && journal.campaign == c.campaign
      requires Covered(lib, c, journal.disk, asked, before.run, before.gen.pending, sent)
      modifies this`states, this`blocks, this`asked
      ensures Valid() && live && View() == old(View())
      ensures blocks == old(blocks) + [b] && View() == Through(lib, c, before, b)
      ensures !b.Data? && InStep(decoder.buffer, decoder.waiting, decoder.since, before.gen) ==> Running(decoder)
    {
      hide Conserved, WithinBudget, StopsSound, WordSound, LogSound, After, Quiet, Covered, Recorded, Asks;
      WatchQuiet(lib, c, before, b);
      QuietKeepsRun(before, View());
      QueueStays(lib, c, before, b);
      CoveredMore(lib, c, journal.disk, asked, Asks(lib, c, before, b), run, gen.pending, sent);
      Note(b, before);
    }

    method Tick(decoder: Decoder, now: real)
      requires Running(decoder)
      modifies this`gen, this`states, this`blocks, this`asked
      ensures Running(decoder)
      ensures blocks == old(blocks) + [Block.Tick(now)] && View() == Through(lib, c, old(View()), Block.Tick(now))
      ensures View() == Timers(c, old(View()), now)
    {
      hide Inv, Campaign, Covered, Timers;
      ghost var before := View();
      CheckDeadlines(now);
      NoteWatching(decoder, Block.Tick(now), before);
    }

    method Orphan(decoder: Decoder)
      requires Running(decoder)
      modifies this`gen, this`states, this`blocks, this`asked
      ensures Running(decoder)
      ensures blocks == old(blocks) + [Parent] && View() == Through(lib, c, old(View()), Parent)
    {
      hide Inv, Campaign, Covered;
      ghost var before := View();
      LoseParent();
      NoteWatching(decoder, Parent, before);
    }

    method Welcome(decoder: Decoder, pid: int)
      requires Running(decoder) && !gen.connected && !gen.eof
      modifies this`gen, this`states, this`blocks, this`asked
      ensures Running(decoder)
      ensures blocks == old(blocks) + [Connect(pid)] && View() == Through(lib, c, old(View()), Connect(pid))
    {
      hide Inv, Campaign, Covered;
      ghost var before := View();
      Accept(pid);
      NoteWatching(decoder, Connect(pid), before);
    }

    method Heed(decoder: Decoder, row: StatusRow)
      requires Running(decoder) && !row.BadRow?
      modifies this`gen, this`events, this`history, this`states, this`blocks, this`asked
      ensures Running(decoder)
      ensures blocks == old(blocks) + [StatusBlock(row)] && View() == Through(lib, c, old(View()), StatusBlock(row))
    {
      hide Inv, Campaign, Covered, Latest;
      ghost var before := View();
      ReadStatus(row);
      NoteWatching(decoder, StatusBlock(row), before);
    }

    method HearEnd(decoder: Decoder)
      requires Running(decoder) && gen.connected && !gen.eof
      modifies this`gen, this`states, this`blocks, this`asked
      ensures Running(decoder)
      ensures blocks == old(blocks) + [Eof] && View() == Through(lib, c, old(View()), Eof)
    {
      hide Inv, Campaign, Covered;
      ghost var before := View();
      EndOfStream();
      NoteWatching(decoder, Eof, before);
    }

    method Hear(decoder: Decoder, data: bytes, now: real)
      requires Running(decoder) && gen.connected && !gen.eof && data != []
      modifies this`gen, this`events, this`history, this`states, this`blocks, this`asked, decoder
      ensures Valid() && live && InStep(decoder.buffer, decoder.waiting, decoder.since, gen)
      ensures blocks == old(blocks) + [Data(data, now)] && View() == Through(lib, c, old(View()), Data(data, now))
    {
      hide Inv, Campaign, Covered, Received;
      ghost var before := View();
      Receive(decoder, data, now);
      NoteWatching(decoder, Data(data, now), before);
    }

    method NextRow(decoder: Decoder, now: real) returns (r: Result<(), Fatal>)
      requires Valid() && live && InStep(decoder.buffer, decoder.waiting, decoder.since, gen) && gen.queue != []
      modifies this`gen, this`sent, this`run, this`mutations, this`verifications, this`quarantine
      modifies this`events, this`history, this`settled, this`states, this`blocks, this`asked
      modifies journal`disk, journal`fuel, journal`uuid, journal`count
      ensures r.Ok? ==> Valid() && live && InStep(decoder.buffer, decoder.waiting, decoder.since, gen)
      ensures AllTold()
      ensures r.Ok? ==> |gen.queue| < |old(gen.queue)|
      ensures r.Ok? ==> blocks == old(blocks) + [Row(now)] && View() == Through(lib, c, old(View()), Row(now))
      ensures r.Ok? <==> old(CanDo(Asks(lib, c, View(), Row(now))))
      ensures r.Err? ==> r.error.JournalFailed?
    {
      hide CanIssue, CanSettle;
      hide Campaign, OnRow, Obeyed, Conserved, WithinBudget, StopsSound, WordSound, LogSound, Covered;
      hide NothingLost, Recorded, Asks, Did, After;
      ghost var before, told, d := View(), sent, journal.disk;
      RowFits(lib, c, before, now, d, asked, told);
      AsksOfRow(lib, c, before, now);
      r := HandleRow(now);
      if r.Ok? {
        RowCovers(lib, c, before, now, View(), d, journal.disk, asked, told, sent);
        Note(Row(now), before);
        ValidTells();
      } else {
        StillTold(lib, c, d, journal.disk, asked, before.run, before.gen.pending, told);
      }
    }

    method Finish(decoder: Decoder) returns (r: Result<(), Fatal>)
      requires Running(decoder) && Over(gen) && gen.evidence.value.cleanupConfirmed
      modifies this`gen, this`live, this`findings, this`quarantine, this`events, this`history
      modifies this`states, this`blocks, this`asked
      modifies journal`disk, journal`fuel, journal`uuid
      ensures AllTold() && (r.Ok? ==> Valid() && !live)
      ensures r.Ok? ==> gen.stop == old(gen).stop && gen.done == old(gen).done
      ensures r.Ok? ==> gen.evidence == old(gen).evidence
                        && gen.connected == old(gen).connected && gen.eof == old(gen).eof
      ensures r.Ok? ==> blocks == old(blocks) + [Leave] && View() == Through(lib, c, old(View()), Leave)
      ensures r.Ok? <==> old(CanDo(Asks(lib, c, View(), Leave)))
      ensures r.Err? ==> r.error.JournalFailed? && old(gen.pending).Some?
    {
      hide CanSettle;
      hide Campaign, Obeyed, Conserved, WithinBudget, StopsSound, WordSound, LogSound, FrameCovered, Ended;
      hide Recorded, Asks;
      ghost var before, d := View(), journal.disk;
      AsksOfLeave(lib, c, before);
      r := EndGeneration();
      if r.Ok? {
        EndCovers(lib, c, before, d, journal.disk, asked, sent);
        CoveredMore(lib, c, journal.disk, asked, Asks(lib, c, before, Leave), run, gen.pending, sent);
        Note(Leave, before);
      }
    }

    method Begin(workerConfig: bytes, start: real) returns (decoder: Decoder)
      requires Valid() && Can(c, View(), Next(workerConfig, start))
      modifies this`generation, this`live, this`gen, this`states, this`blocks, this`asked
      ensures fresh(decoder) && Running(decoder) && generation == old(generation) + 1
      ensures View() == NextGeneration(c, old(View()), workerConfig, start)
      ensures blocks == old(blocks) + [Next(workerConfig, start)]
      ensures View() == Through(lib, c, old(View()), Next(workerConfig, start))
    {
      hide Campaign, Conserved, WithinBudget, StopsSound, WordSound, LogSound, FrameCovered, Decide, Recorded, Asks;
      ghost var before := View();
      decoder := new Decoder();
      BeginGeneration(workerConfig, start);
      CoveredMore(lib, c, journal.disk, asked, Asks(lib, c, before, Next(workerConfig, start)), run, gen.pending, sent);
      Note(Next(workerConfig, start), before);
    }

    /** The listener, while nobody is connected; false if somebody else's process is. */
    method Greet(decoder: Decoder, peer: Peer) returns (ours: bool)
      requires Running(decoder)
      modifies this`gen, this`states, this`blocks, this`asked
      ensures Running(decoder) && gen.eof == old(gen.eof) && (old(gen.connected) ==> gen.connected)
      ensures ours <==> !Greets(old(gen), peer) || peer.sameUser
      ensures ours ==> Came(lib, c, old(View()), old(blocks), GreetBlocks(old(gen), peer), View(), blocks)
    {
      hide Valid, InStep, Through, Came;
      CameNowhere(lib, c, View(), blocks);
      if !gen.connected && !gen.eof && peer.Peer? {
        if !peer.sameUser {
          return false;
        }
        WatchKeeps(lib, c, View(), Connect(peer.pid));
        CameOne(lib, c, View(), blocks, [], View(), blocks, Connect(peer.pid));
        assert [] + [Connect(peer.pid)] == [Connect(peer.pid)];
        Welcome(decoder, peer.pid);
      }
      ours := true;
    }

    /** Deadlines, parent, peer and launcher, in this order. */
    method Look(decoder: Decoder, x: Round) returns (r: Result<(), Fatal>)
      requires Running(decoder)
      modifies this`gen, this`events, this`history, this`states, this`blocks, this`asked
      ensures AllTold()
      ensures if r.Ok? then Meets(c, old(View()), x) == None else Meets(c, old(View()), x) == Some(r.error)
      ensures r.Ok? ==> Running(decoder) && gen.eof == old(gen.eof) && (old(gen.connected) ==> gen.connected)
                        && Came(lib, c, old(View()), old(blocks), LookBlocks(old(gen), x), View(), blocks)
    {
      hide Valid, InStep, Through, Timers, StatusBlocks, GreetBlocks, LookBlocks, Came, FrameCovered;
      ghost var s0, b0 := View(), blocks;
      ghost var done: seq<Block> := [];
      TimersKeep(c, s0, x.now);
      CameNowhere(lib, c, s0, b0);
      CameOne(lib, c, s0, b0, done, View(), blocks, Block.Tick(x.now));
      Tick(decoder, x.now);
      done := done + [Block.Tick(x.now)];
      ValidTells();
      if gen.killAt.Some? && x.now - gen.killAt.value > 5.0 {
        return Err(TerminationUnconfirmed);
      }
      if x.parentReady {
        WatchKeeps(lib, c, View(), Parent);
        CameOne(lib, c, s0, b0, done, View(), blocks, Parent);
        Orphan(decoder);
        done := done + [Parent];
      }
      ghost var s, b, g := View(), blocks, gen;
      var ours := Greet(decoder, x.peer);
      ValidTells();
      if !ours {
        return Err(PeerUid);
      }
      CameMore(lib, c, s0, b0, done, s, b, GreetBlocks(g, x.peer), View(), blocks);
      LookParts(s0.gen, g, x, done);
      done := done + GreetBlocks(g, x.peer);
      ghost var s1, b1 := View(), blocks;
      var readable := HeedAll(decoder, x.status);
      ValidTells();
      if !readable {
        return Err(LauncherFrame);
      }
      CameMore(lib, c, s0, b0, done, s1, b1, StatusBlocks(x.status), View(), blocks);
      r := Ok(());
    }

    /** The launcher's lines; false if one of them cannot be read. */
    method HeedAll(decoder: Decoder, rows: seq<StatusRow>) returns (readable: bool)
      requires Running(decoder)
      modifies this`gen, this`events, this`history, this`states, this`blocks, this`asked
      ensures Running(decoder) && gen.connected == old(gen.connected) && gen.eof == old(gen.eof)
      ensures readable <==> BadRow !in rows
      ensures readable ==> Came(lib, c, old(View()), old(blocks), StatusBlocks(rows), View(), blocks)
    {
      hide Valid, InStep, Through, Came;
      ghost var s0, b0 := View(), blocks;
      ghost var done: seq<Block> := [];
      CameNowhere(lib, c, s0, b0);
      for i := 0 to |rows|
        invariant Running(decoder) && gen.connected == old(gen.connected) && gen.eof == old(gen.eof)
        invariant BadRow !in rows[..i] && Came(lib, c, s0, b0, done, View(), blocks)
        invariant done + StatusBlocks(rows[i..]) == StatusBlocks(rows)
      {
        if rows[i].BadRow? {
          return false;
        }
        WatchKeeps(lib, c, View(), StatusBlock(rows[i]));
        CameOne(lib, c, s0, b0, done, View(), blocks, StatusBlock(rows[i]));
        Heed(decoder, rows[i]);
        assert rows[i..][1..] == rows[i + 1..] && rows[..i + 1] == rows[..i] + [rows[i]];
        done := done + [StatusBlock(rows[i])];
      }
      assert rows[..|rows|] == rows && done + [] == done == StatusBlocks(rows);
      readable := true;
    }

    /** The worker's bytes, and every frame they complete. */
    method HearFrames(decoder: Decoder, data: bytes, now: real, clock: nat -> real) returns (r: Result<(), Fatal>)
      requires Running(decoder) && gen.connected && !gen.eof && data != []
      modifies this`gen, this`sent, this`run, this`mutations, this`verifications, this`quarantine
      modifies this`events, this`history, this`settled, this`states, this`blocks, this`asked
      modifies decoder, journal`disk, journal`fuel, journal`uuid, journal`count
      ensures AllTold() && (r.Ok? ==> Running(decoder))
      ensures var all := HearBlocks(lib, c, old(View()), [Data(data, now)], clock);
              if r.Ok? then Came(lib, c, old(View()), old(blocks), all, View(), blocks)
              else r.error.JournalFailed? && AskAmong(lib, c, old(View()), all)
    {
      hide Valid, InStep, Came, Through, Replay, RowBlocks, AskAmong, Asks, CanIssue, CanSettle, FrameCovered;
      ghost var s0, b0, first := View(), blocks, [Data(data, now)];
      CameNowhere(lib, c, s0, b0);
      CameOne(lib, c, s0, b0, [], s0, b0, Data(data, now));
      assert [] + first == first;
      Hear(decoder, data, now);
      ghost var s1 := View();
      assert s1 == Replay(lib, c, s0, first) by { ReplayOne(lib, c, s0, [], Data(data, now)); }
      ghost var all, done := RowBlocks(lib, c, s1, clock, 0), [];
      CameNowhere(lib, c, s1, blocks);
      ghost var b1 := blocks;
      var i: nat := 0;
      while gen.queue != []
        invariant Valid() && live && InStep(decoder.buffer, decoder.waiting, decoder.since, gen)
        invariant Came(lib, c, s1, b1, done, View(), blocks)
        invariant done + RowBlocks(lib, c, View(), clock, i) == all
        decreases |gen.queue|
      {
        ghost var s, b := View(), blocks;
        CameOne(lib, c, s1, b1, done, s, b, Row(clock(i)));
        var handled := NextRow(decoder, clock(i));
        if handled.Err? {
          AskedByNow(lib, c, s0, first, clock, b1, done, s, b, i);
          return Err(handled.error);
        }
        RowsNext(lib, c, s, clock, i);
        done := done + [Row(clock(i))];
        i := i + 1;
      }
      ValidTells();
      NoRows(lib, c, View(), clock, i);
      assert done + [] == done;
      CameMore(lib, c, s0, b0, first, s1, b1, done, View(), blocks);
      r := Ok(());
    }

    /** The worker's socket, if it was watched when the round began. */
    method Listen(decoder: Decoder, x: Round, watched: bool) returns (r: Result<(), Fatal>)
      requires Running(decoder) && (watched ==> gen.connected)
      modifies this`gen, this`sent, this`run, this`mutations, this`verifications, this`quarantine
      modifies this`events, this`history, this`settled, this`states, this`blocks, this`asked
      modifies decoder, journal`disk, journal`fuel, journal`uuid, journal`count
      ensures AllTold() && (r.Ok? ==> Running(decoder))
      ensures var read := ReadBlocks(watched, old(gen.eof), x);
              var all := HearBlocks(lib, c, old(View()), read, x.clock);
              if r.Ok? then Came(lib, c, old(View()), old(blocks), all, View(), blocks)
              else r.error.JournalFailed? && AskAmong(lib, c, old(View()), all)
    {
      hide Valid, InStep, Came, Through, AskAmong, FrameCovered;
      ghost var s0, b0 := View(), blocks;
      ValidTells();
      CameNowhere(lib, c, s0, b0);
      NoRows(lib, c, s0, x.clock, 0);
      assert HearBlocks(lib, c, s0, [], x.clock) == [];
      if watched && !gen.eof && x.received.Some? {
        if x.received.value == [] {
          CameOne(lib, c, s0, b0, [], s0, b0, Eof);
          ReplayOne(lib, c, s0, [], Eof);
          HearEnd(decoder);
          ValidTells();
          NoRows(lib, c, View(), x.clock, 0);
          assert [] + [Eof] == [Eof] == HearBlocks(lib, c, s0, [Eof], x.clock);
        } else {
          r := HearFrames(decoder, x.received.value, x.now, x.clock);
          return;
        }
      }
      r := Ok(());
    }

    /** One round of the event loop, in the order of its blocks; true when the generation is over. */
    method OneRound(decoder: Decoder, x: Round) returns (r: Result<bool, Fatal>)
      requires Running(decoder)
      modifies this`gen, this`sent, this`run, this`mutations, this`verifications, this`quarantine
      modifies this`events, this`history, this`settled, this`states, this`blocks, this`asked
      modifies decoder, journal`disk, journal`fuel, journal`uuid, journal`count
      ensures AllTold() && (r.Ok? ==> Running(decoder) && (r.value <==> Over(gen)))
      ensures r.Ok? ==> (r.value <==> gen.evidence.Some? && (gen.connected ==> gen.eof))
      ensures r.Ok? ==> Meets(c, old(View()), x) == None && (x.launcherLost ==> gen.evidence.Some?)
      ensures r.Ok? ==> Came(lib, c, old(View()), old(blocks), RoundBlocks(lib, c, old(View()), x), View(), blocks)
      ensures r.Err? ==> RoundFails(lib, c, old(View()), x, r.error)
    {
      hide Valid, InStep, Came, Replay, HearBlocks, Meets, AskAmong, LookBlocks, FrameCovered;
      ghost var s0, b0 := View(), blocks;
      var watched := gen.connected;
      var looked := Look(decoder, x);
      if looked.Err? {
        return Err(looked.error);
      }
      ghost var s1, b1, look := View(), blocks, LookBlocks(s0.gen, x);
      ghost var hear := HearBlocks(lib, c, s1, ReadBlocks(watched, gen.eof, x), x.clock);
      CameTo(lib, c, s0, b0, look, s1, b1);
      var listened := Listen(decoder, x, watched);
      if listened.Err? {
        AskLater(lib, c, s0, look, hear);
        return Err(listened.error);
      }
      CameMore(lib, c, s0, b0, look, s1, b1, hear, View(), blocks);
      CameTo(lib, c, s0, b0, look + hear, View(), blocks);
      ValidTells();
      if gen.evidence.Some? && (gen.eof || !gen.connected) {
        return Ok(true);
      }
      if x.launcherLost && gen.evidence.None? {
        return Err(LauncherLost);
      }
      r := Ok(false);
    }

    /** Whether another worker is started; the window of the last 256 events tells whether this one got ready. */
    method AfterGeneration(attempt: nat, status: Status) returns (r: Decision)
      requires generation == attempt + 1 && status == StatusOf(gen)
      ensures r == Decide(c, View())
      ensures attempt <= c.restartBudget ==>
                (r.Again? <==> MoreToDo(c, View()) && attempt < c.restartBudget)
                && (r.Stop? ==> EndsAs(c, View(), r.status))
      ensures attempt == c.restartBudget ==> r.Stop?
      ensures r == Stop(RestartBudgetExhausted) ==> attempt == c.restartBudget
    {
      hide StatusOf, MoreToDo, EndsAs;
      if attempt <= c.restartBudget {
        DecidesExactly(c, View());
      }
      if status in {Because(BudgetCompleted), Because(CampaignDeadline), Because(SupervisorParentDeath)} {
        return Stop(Plain(status));
      }
      if c.replay {
        if generation >= c.reproduceRuns {
          return Stop(Plain(status));
        }
      } else if status == Completed {
        return Stop(Plain(status));
      }
      if Event(Ready, generation) !in events {
        return Stop(Plain(status));
      }
      if gen.done in {Some(1), Some(2)} && status != Because(DirtyRecycle) {
        return Stop(Plain(status));
      }
      if attempt == c.restartBudget {
        return Stop(RestartBudgetExhausted);
      }
      r := Again;
    }

    /** The event loop: round after round, until the generation is over or nothing more is met. */
    method EventLoop(decoder: Decoder, rounds: seq<Round>) returns (r: Result<bool, Fatal>)
      requires Running(decoder) && !Over(gen)
      modifies this`gen, this`sent, this`run, this`mutations, this`verifications, this`quarantine
      modifies this`events, this`history, this`settled, this`states, this`blocks, this`asked
      modifies decoder, journal`disk, journal`fuel, journal`uuid, journal`count
      ensures AllTold() && (r.Ok? ==> Running(decoder) && (r.value <==> Over(gen)))
      ensures r.Ok? ==> Came(lib, c, old(View()), old(blocks), UntilOver(lib, c, old(View()), rounds), View(), blocks)
      ensures r.Err? ==> exists k :: FailsIn(lib, c, old(View()), rounds, k, r.error)
    {
      hide Valid, InStep, Came, Replay, RoundBlocks, RoundFails, Over, FrameCovered;
      ghost var s1, b1, done := View(), blocks, [];
      CameNowhere(lib, c, s1, b1);
      var over, i := false, 0;
      while !over && i < |rounds|
        invariant Running(decoder) && (over <==> Over(gen))
        invariant 0 <= i <= |rounds| && done == UntilOver(lib, c, s1, rounds[..i])
        invariant Came(lib, c, s1, b1, done, View(), blocks)
        decreases |rounds| - i, !over
      {
        ghost var s, b := View(), blocks;
        CameTo(lib, c, s1, b1, done, s, b);
        var round := OneRound(decoder, rounds[i]);
        if round.Err? {
          assert FailsIn(lib, c, s1, rounds, i, round.error);
          return Err(round.error);
        }
        CameMore(lib, c, s1, b1, done, s, b, RoundBlocks(lib, c, s, rounds[i]), View(), blocks);
        done := done + RoundBlocks(lib, c, s, rounds[i]);
        over := round.value;
        assert rounds[..i + 1][..i] == rounds[..i];
        i := i + 1;
      }
      ValidTells();
      CameTo(lib, c, s1, b1, done, View(), blocks);
      if over {
        OverStays(lib, c, s1, rounds, i);
      } else {
        assert rounds[..i] == rounds;
      }
      r := Ok(over);
    }

    /** `generation_run`: one worker from launch to the verdict on its end. */
    method GenerationRun(span: Span) returns (r: Result<Status, Fatal>)
      requires Valid() && Can(c, View(), Next(span.workerConfig, span.start))
      modifies this, journal`disk, journal`fuel, journal`uuid, journal`count
      ensures AllTold() && generation == old(generation) + 1
      ensures r.Ok? ==> Valid() && !live && r.value == StatusOf(gen) && !span.buildChanged
      ensures r.Ok? ==> Came(lib, c, old(View()), old(blocks), SpanBlocks(lib, c, old(View()), span), View(), blocks)
      ensures r.Ok? ==> gen.evidence.Some? && gen.evidence.value.cleanupConfirmed && (gen.connected ==> gen.eof)
      ensures r.Err? ==> SpanFails(lib, c, old(View()), span, r.error)
    {
      hide Valid, InStep, Can, Came, Through, AfterRounds, UntilOver, FailsIn, Asks, FrameCovered, CanDo, SpanFails;
      ValidTells();
      if span.buildChanged {
        generation := generation + 1;
        assert SpanFails(lib, c, old(View()), span, BuildChanged) by { Changed(lib, c, old(View()), span); }
        return Err(BuildChanged);
      }
      ghost var s0, b0, next := View(), blocks, Next(span.workerConfig, span.start);
      CameNowhere(lib, c, s0, b0);
      CameOne(lib, c, s0, b0, [], s0, b0, next);
      assert [] + [next] == [next];
      var decoder := Begin(span.workerConfig, span.start);
      ghost var s1, b1, done := View(), blocks, UntilOver(lib, c, View(), span.rounds);
      var looped := EventLoop(decoder, span.rounds);
      if looped.Err? {
        ghost var k :| FailsIn(lib, c, s1, span.rounds, k, looped.error);
        FailsInSpan(lib, c, s0, span, k, looped.error);
        return Err(looped.error);
      }
      CameTo(lib, c, s1, b1, done, View(), blocks);
      assert View() == AfterRounds(lib, c, s1, span.rounds) by { AfterAll(lib, c, s1, span.rounds); }
      FallsShort(lib, c, s0, span, View());
      ValidTells();
      if !looped.value {
        return Err(Cut);
      }
      if !gen.evidence.value.cleanupConfirmed {
        return Err(CleanupUnconfirmed);
      }
      CameOne(lib, c, s1, b1, done, View(), blocks, Leave);
      var ended := Finish(decoder);
      if ended.Err? {
        return Err(ended.error);
      }
      CameMore(lib, c, s0, b0, [next], s1, b1, done + [Leave], View(), blocks);
      assert [next] + (done + [Leave]) == SpanBlocks(lib, c, s0, span);
      r := Ok(match gen.stop
              case Some(reason) => Because(reason)
              case None => if gen.done == Some(0) then Completed else UnexpectedExit);
    }

    /** `run_campaign`: workers one after another until a reason to stop. */
    method RunCampaign(spans: seq<Span>) returns (r: Result<FinalStatus, Fatal>)
      requires Valid() && View() == Initial(c) && blocks == []
      modifies this, journal`disk, journal`fuel, journal`uuid, journal`count
      ensures AllTold() && generation <= c.restartBudget + 1
      ensures r.Ok? ==> Valid() && !live && 1 <= generation <= |spans|
      ensures r.Ok? ==> blocks == Generations(lib, c, Initial(c), spans[..generation])
      ensures r.Ok? ==> Decide(c, View()) == Stop(r.value) && EndsAs(c, View(), r.value)
      ensures r == Ok(RestartBudgetExhausted) ==> generation == c.restartBudget + 1
      ensures r.Err? ==> exists n :: CampaignFails(lib, c, Initial(c), spans, r.error, n)
    {
      hide Valid, Decide, EndsAs, MoreToDo, Came, Replay, SpanBlocks, SpanFails;
      ghost var s0, done := View(), [];
      CameNowhere(lib, c, s0, []);
      r := Err(Cut);
      for attempt := 0 to c.restartBudget + 1
        invariant Valid() && !live && generation == attempt
        invariant attempt == 0 || (attempt <= c.restartBudget && Decide(c, View()) == Again)
        invariant attempt <= |spans| && done == Generations(lib, c, s0, spans[..attempt])
        invariant Came(lib, c, s0, [], done, View(), blocks)
      {
        ghost var s, b := View(), blocks;
        CameTo(lib, c, s0, [], done, s, b);
        if attempt >= |spans| {
          ValidTells();
          assert CampaignFails(lib, c, s0, spans, Cut, attempt);
          return Err(Cut);
        }
        var returned := GenerationRun(spans[attempt]);
        if returned.Err? {
          assert CampaignFails(lib, c, s0, spans, returned.error, attempt);
          return Err(returned.error);
        }
        CameMore(lib, c, s0, [], done, s, b, SpanBlocks(lib, c, s, spans[attempt]), View(), blocks);
        done := done + SpanBlocks(lib, c, s, spans[attempt]);
        assert spans[..attempt + 1][..attempt] == spans[..attempt];
        var next := AfterGeneration(attempt, returned.value);
        if next.Stop? {
          CameTo(lib, c, s0, [], done, View(), blocks);
          assert [] + done == done;
          ValidTells();
          return Ok(next.status);
        }
      }
      assert false;
    }
  }

  predicate Dies(r: Result<(), FrameFail>) {
    r.Err? && r.error.Died?
  }

  lemma Stopped(d: Disk, d': Disk, a: seq<Op>, b: seq<Op>, n: nat, f: nat, f': nat)
    requires Ran(d, d', a, n, f, f') && n < |a|
    ensures !GoesThrough(d, a + b, f)
  {
    hide Ran, GoesThrough;
    RanShort(d, d', a, b, n, f, f');
    RanExactly(d, d', a + b, n, f, f');
  }

  lemma WentOn(d: Disk, d1: Disk, d2: Disk, a: seq<Op>, b: seq<Op>, n: nat, m: nat, f: nat, f1: nat, f2: nat)
    requires Ran(d, d1, a, n, f, f1) && n == |a| && Ran(d1, d2, b, m, f1, f2)
    ensures m == |b| <==> GoesThrough(d, a + b, f)
  {
    hide Ran, GoesThrough;
    RanThen(d, d1, d2, a, b, m, f, f1, f2);
    RanExactly(d, d2, a + b, |a| + m, f, f2);
  }

  lemma FourOps(lib: Library, key: Key, nonce: nat, result: map<string, Value>)
    ensures |FinishOps(lib, key, nonce, result)| == 4 == |AuthorizeOps(lib, key, nonce)|
  {
  }

  /** Doing what the reaction says: nothing but the error, or the next state and the one reply. */
  predicate Followed(x: Reaction, s: Sup, t: Sup, before: seq<Frame>, after: seq<Frame>, r: Result<(), FrameFail>) {
    match x
    case Rejected(e) => r == Err(Protocol(e)) && t == s && after == before
    case Accepted(next, _, reply) => r.Ok? && t == next && after == before + [reply]
  }

  /** The disk after a request: untouched, the run durably published and authorized, or its verdict durable. */
  ghost predicate Obeyed(lib: Library, q: Request, d: Disk, d': Disk) {
    match q
    case Nothing => d' == d
    case Issue(key, job, _) => IssuedOnDisk(lib, key, job, d, d')
    case Settle(key, result) => SettledOnDisk(lib, key, result, d, d')
  }

  ghost predicate IssuedOnDisk(lib: Library, key: Key, job: Job, d: Disk, d': Disk) {
    && key !in d.runs && key in d'.linked && d.linked <= d'.linked
    && exists nonce: nat ::
         d'.runs == d.runs[key := AtomicFolder(RunFolder(lib, job), nonce, Authorized, lib.packed(PERMISSION), 4)]
  }

  ghost predicate SettledOnDisk(lib: Library, key: Key, result: map<string, Value>, d: Disk, d': Disk) {
    && key in d.runs && d'.linked == d.linked
    && exists nonce: nat ::
         var data := lib.packed(SealedResult(lib, result));
         d'.runs == d.runs[key := AtomicFolder(d.runs[key], nonce, Verdict, data, 4)]
  }

  /** The pieces of an admission: the counters, then the permission. */
  function Counted(s: Sup, phase: nat): Sup {
    s.(run := s.run + 1,
       mutations := if phase == 2 then s.mutations + 1 else s.mutations,
       verifications := if phase == 3 then s.verifications + 1 else s.verifications)
  }

  function WithPermit(c: Config, s: Sup, key: Key, p: Prepare, now: real): Sup {
    s.(gen := s.gen.(pending := Some(Pending(key, Hex(p.digest))), state := EXECUTING, word := s.gen.word + [Admitted],
                     deadline := now + p.timeout as real / 1000.0 + 1.0 + c.memoryGrace + c.ipcGrace))
  }

  lemma AdmitParts(lib: Library, c: Config, s: Sup, p: Prepare, now: real)
    requires CheckPrepare(lib, c, p) == None
    ensures Admit(lib, c, s, p, now) == Accepted(
              WithPermit(c, Counted(s, p.phase), Key(c.campaign, s.run + 1), p, now),
              Issue(Key(c.campaign, s.run + 1),
                    Job(p.rest[..p.size], MetaOf(c, s.generation, s.gen, p, s.run + 1), p.rest[p.size..]), p.digest),
              Reply(s.generation, 10, s.run + 1, p.digest))
    ensures Counted(s, p.phase).generation == s.generation && Counted(s, p.phase).gen == s.gen
  {
    hide CheckPrepare, MetaOf, Hex;
  }

  function Absorbed(c: Config, s: Sup, inputSha: string, dirty: bool, now: real): Sup {
    var s1 := Logged(s.(settled := s.settled + 1), ResultEvent);
    var g := s1.gen.(pending := None, state := READY, deadline := now + c.startup,
                     word := s.gen.word + [if dirty then Dirty else Clean]);
    if dirty
    then s1.(quarantine := s.quarantine + {inputSha},
             gen := g.(stop := Some(DirtyRecycle), state := RECYCLING, killAfter := now + 0.5))
    else s1.(gen := g)
  }

  lemma ResultParts(c: Config, s: Sup, body: bytes, id: nat, now: real)
    requires |body| == 4 && s.gen.pending.Some?
    ensures OnResult(c, s, body, id, now) ==
            if body[0] > 4 || body[1] > 4 || body[2] > 1 || body[3] > 3 then Rejected(ResultSchema)
            else Accepted(Absorbed(c, s, s.gen.pending.value.inputSha, body[2] != 0, now),
                          Settle(s.gen.pending.value.key, ResultOf(s.generation, body, id)),
                          Reply(s.generation, 11, id, []))
  {
    hide ResultOf, Latest;
  }

  lemma RequestsOfTheRest(c: Config, s: Sup, body: bytes, now: real)
    ensures OnHello(c, s, body).Accepted? ==> OnHello(c, s, body).request.Nothing?
    ensures OnReady(c, s, now).Accepted? && OnReady(c, s, now).request.Nothing?
    ensures |body| == 1 ==> OnDone(s, body, now).Accepted? && OnDone(s, body, now).request.Nothing?
  {
    hide CheckHello;
  }

  lemma IssueOnDisk(lib: Library, d: Disk, d1: Disk, d2: Disk, key: Key, job: Job, p: Place, nonce: nat, n: nat, m: nat,
                    f: nat, f1: nat, f2: nat)
    requires p.Stage? && Ran(d, d1, PrepareOps(lib, p, key, job), n, f, f1) && n == |PrepareOps(lib, p, key, job)|
    requires Ran(d1, d2, AuthorizeOps(lib, key, nonce), m, f1, f2) && m == 4
    ensures IssuedOnDisk(lib, key, job, d, d2)
  {
    hide Exec, Legal, Enabled, RunFolder, AtomicFolder, PrepareOps;
    var ops := PrepareOps(lib, p, key, job);
    assert ops[..n] == ops;
    PrepareDone(lib, d, p, key, job);
    AtomicRan(d1, key, nonce, Authorized, lib.packed(PERMISSION), 4);
    assert d2.runs == d.runs[key := AtomicFolder(RunFolder(lib, job), nonce, Authorized, lib.packed(PERMISSION), 4)];
  }

  lemma FinishOnDisk(lib: Library, d: Disk, d': Disk, key: Key, result: map<string, Value>, nonce: nat, n: nat,
                     f: nat, f': nat)
    requires key in d.runs && Ran(d, d', FinishOps(lib, key, nonce, result), n, f, f') && n == 4
    ensures SettledOnDisk(lib, key, result, d, d')
  {
    hide AtomicFolder, SealedResult, FinishOps, Ran;
    FinishRan(d, d', lib, key, nonce, result, n, f, f');
  }

  /** The decoder object holds what the state machine calls buffer and since. */
  predicate InStep(buffer: bytes, waiting: bool, since: real, g: Gen) {
    buffer == g.buffer && g.since == if waiting then Some(since) else None
  }

  ghost predicate Did(x: (Sup, Request, Option<Frame>), lib: Library, t: Sup, before: seq<Frame>, after: seq<Frame>,
                      d: Disk, d': Disk) {
    && t == x.0
    && after == before + (if x.2.Some? then [x.2.value] else [])
    && Obeyed(lib, x.1, d, d')
  }

  lemma Untouched(lib: Library, d: Disk)
    ensures Obeyed(lib, Nothing, d, d)
  {
  }

  /** The run is durable under its name and durably authorized, and the digest is of its input. */
  ghost predicate PermittedOnDisk(lib: Library, d: Disk, key: Key, digest: bytes) {
    && key in d.runs && key in d.linked && Authorized in d.runs[key].saved
    && exists job :: GoodRun(lib, d.runs[key], job) && digest == lib.sha(job.raw)
  }

  /** What each block of a campaign asked of the journal. */
  ghost predicate Recorded(lib: Library, c: Config, states: seq<Sup>, blocks: seq<Block>, asked: seq<Request>) {
    && |asked| == |blocks| < |states|
    && forall i :: 0 <= i < |blocks| ==> asked[i] == Asks(lib, c, states[i], blocks[i])
  }

  lemma RecordedExtends(lib: Library, c: Config, states: seq<Sup>, blocks: seq<Block>, asked: seq<Request>, b: Block,
                        t: Sup)
    requires |states| == |blocks| + 1 && Recorded(lib, c, states, blocks, asked)
    ensures Recorded(lib, c, states + [t], blocks + [b], asked + [Asks(lib, c, states[|blocks|], b)])
  {
    hide Asks;
  }

  /** A verdict that was asked for stands durably on disk, as it was asked for. */
  ghost predicate AnsweredOnDisk(lib: Library, d: Disk, asked: seq<Request>, key: Key) {
    exists i :: 0 <= i < |asked| && asked[i].Settle? && asked[i].key == key && SettledAs(lib, d, key, asked[i].result)
  }

  /** A permission is of a durable authorized run; an acknowledgement is of a durable verdict, and that verdict
      is a result the campaign had asked to be recorded for the run. */
  ghost predicate FrameCovered(lib: Library, c: Config, d: Disk, asked: seq<Request>, f: Frame) {
    && (f.kind == 10 ==> PermittedOnDisk(lib, d, Key(c.campaign, f.run), f.payload))
    && (f.kind == 11 && f.run != 0 ==> AnsweredOnDisk(lib, d, asked, Key(c.campaign, f.run)))
  }

  /** Every frame sent is covered, and the run in flight is on disk without a verdict. */
  ghost predicate Covered(lib: Library, c: Config, d: Disk, asked: seq<Request>, run: nat, pending: Option<Pending>,
                          sent: seq<Frame>) {
    && (forall i :: 0 <= i < |sent| ==> FrameCovered(lib, c, d, asked, sent[i]))
    && (pending.Some? ==> pending.value.key == Key(c.campaign, run) && Unsettled(lib, d, pending.value.key))
  }

  lemma CoveredMore(lib: Library, c: Config, d: Disk, asked: seq<Request>, q: Request, run: nat,
                    pending: Option<Pending>, sent: seq<Frame>)
    requires Covered(lib, c, d, asked, run, pending, sent)
    ensures Covered(lib, c, d, asked + [q], run, pending, sent)
  {
    hide FrameCovered, Unsettled;
    forall i | 0 <= i < |sent| ensures FrameCovered(lib, c, d, asked + [q], sent[i]) {
      FrameCoveredMore(lib, c, d, asked, q, sent[i]);
    }
  }

  lemma FrameCoveredMore(lib: Library, c: Config, d: Disk, asked: seq<Request>, q: Request, f: Frame)
    requires FrameCovered(lib, c, d, asked, f)
    ensures FrameCovered(lib, c, d, asked + [q], f)
  {
    hide SettledAs, PermittedOnDisk;
    var key := Key(c.campaign, f.run);
    if f.kind == 11 && f.run != 0 {
      var i :| 0 <= i < |asked| && asked[i].Settle? && asked[i].key == key && SettledAs(lib, d, key, asked[i].result);
      assert (asked + [q])[i] == asked[i];
    }
  }

  lemma AsksOfRow(lib: Library, c: Config, s: Sup, now: real)
    requires Inv(c, s) && Can(c, s, Row(now))
    ensures s.gen.queue != [] && |s.gen.queue[0]| >= 13 && (s.gen.state == EXECUTING ==> s.gen.pending.Some?)
    ensures Asks(lib, c, s, Row(now)) == OnRow(lib, c, s, now).1
  {
    hide Conserved, WithinBudget, StopsSound, WordSound, LogSound, OnRow;
    assert FrameLen(|s.gen.queue[0]|);
  }

  lemma AsksOfLeave(lib: Library, c: Config, s: Sup)
    requires Inv(c, s) && Can(c, s, Leave)
    ensures Asks(lib, c, s, Leave) == Ended(s).1 && (Ended(s).1.Nothing? <==> s.gen.pending.None?)
    ensures Through(lib, c, s, Leave) == Ended(s).0
  {
    hide Conserved, WithinBudget, StopsSound, WordSound, LogSound, TerminationResult, Latest;
  }

  lemma QuietKeepsRun(s: Sup, t: Sup)
    requires Quiet(s, t)
    ensures t.run == s.run && t.gen.pending == s.gen.pending && t.live == s.live
  {
  }

  lemma QueueStays(lib: Library, c: Config, s: Sup, b: Block)
    requires Shaped(s) && Can(c, s, b) && !b.Row? && !b.Leave? && !b.Next?
    ensures var g := After(lib, c, s, b).0.gen;
            !b.Data? ==> g.queue == [] && g.buffer == s.gen.buffer && g.since == s.gen.since
  {
    hide Latest, Decide, Late;
  }

  lemma RowFits(lib: Library, c: Config, s: Sup, now: real, d: Disk, asked: seq<Request>,
                sent: seq<Frame>)
    requires Inv(c, s) && s.live && s.gen.queue != []
    requires Covered(lib, c, d, asked, s.run, s.gen.pending, sent)
    ensures |s.gen.queue[0]| >= 13 && Can(c, s, Row(now)) && Shaped(s)
    ensures s.gen.state == EXECUTING ==> s.gen.pending.Some? && Unsettled(lib, d, s.gen.pending.value.key)
  {
    hide Conserved, WithinBudget, StopsSound, WordSound, LogSound, FrameCovered;
    assert FrameLen(|s.gen.queue[0]|);
  }

  /** The reply says what was asked of the journal: permission for an issue, acknowledgement for a verdict. */
  predicate Answers(run: nat, run': nat, q: Request, reply: Frame) {
    match q
    case Nothing => reply.kind != 10 && reply.run == 0
    case Issue(_, _, digest) => reply.kind == 10 && reply.run == run' && reply.payload == digest
    case Settle(_, _) => reply.kind == 11 && reply.run == run
  }

  predicate StreamKept(g: Gen, g': Gen) {
    g'.queue == g.queue && g'.buffer == g.buffer && g'.since == g.since
  }

  /** The reply fits the request, and the frames still to be handled are as they were. */
  predicate Fits(s: Sup, r: Reaction) {
    r.Accepted? ==>
      r.next.live == s.live && StreamKept(s.gen, r.next.gen) && Answers(s.run, r.next.run, r.request, r.reply)
  }

  lemma PrepareFits(lib: Library, c: Config, s: Sup, body: bytes, now: real)
    requires |body| >= 46
    ensures Fits(s, OnPrepare(lib, c, s, body, now))
  {
    hide CheckPrepare, MetaOf, Hex, ParsePrepare;
  }

  lemma ResultFits(c: Config, s: Sup, body: bytes, now: real)
    requires |body| == 4 && s.gen.pending.Some?
    ensures Fits(s, OnResult(c, s, body, s.run, now))
  {
    hide ResultOf, Latest;
  }

  lemma OthersFit(c: Config, s: Sup, body: bytes, now: real)
    ensures Fits(s, OnHello(c, s, body)) && Fits(s, OnReady(c, s, now))
    ensures |body| == 1 ==> Fits(s, OnDone(s, body, now))
  {
    hide CheckHello, Latest;
  }

  lemma FrameAnswers(lib: Library, c: Config, s: Sup, row: bytes, now: real)
    requires |row| >= 13
    requires s.gen.state == EXECUTING ==> s.gen.pending.Some?
    ensures Fits(s, OnFrame(lib, c, s, row, now))
  {
    hide OnHello, OnReady, OnPrepare, OnResult, OnDone;
    var f := Fields(row);
    OthersFit(c, s, f.payload, now);
    if |f.payload| >= 46 {
      PrepareFits(lib, c, s, f.payload, now);
    }
    if |f.payload| == 4 && s.gen.pending.Some? {
      ResultFits(c, s, f.payload, now);
    }
  }

  lemma RowAnswers(lib: Library, c: Config, s: Sup, now: real)
    requires Inv(c, s) && Can(c, s, Row(now))
    ensures var (t, q, reply) := OnRow(lib, c, s, now);
            && t.live && |t.gen.queue| < |s.gen.queue| && t.gen.buffer == s.gen.buffer && t.gen.since == s.gen.since
            && (reply.None? ==> q.Nothing?)
            && (reply.Some? ==> Answers(s.run, t.run, q, reply.value))
  {
    hide Conserved, WithinBudget, StopsSound, WordSound, LogSound, Answers, OnFrame, Latest;
    assert FrameLen(|s.gen.queue[0]|);
    var s1 := s.(gen := s.gen.(queue := s.gen.queue[1..]));
    FrameAnswers(lib, c, s1, s.gen.queue[0], now);
  }

  /** Whatever was on disk of the other runs, and of this one before its verdict, is still there. */
  lemma IssueCovers(lib: Library, c: Config, d: Disk, d': Disk, key: Key, job: Job, asked: seq<Request>,
                    f: Frame)
    requires IssuedOnDisk(lib, key, job, d, d') && FrameCovered(lib, c, d, asked, f)
    ensures FrameCovered(lib, c, d', asked, f)
  {
  }

  lemma IssueBacks(lib: Library, d: Disk, d': Disk, key: Key, job: Job)
    requires IssuedOnDisk(lib, key, job, d, d')
    ensures PermittedOnDisk(lib, d', key, lib.sha(job.raw)) && OnDisk(d', key) && GoodRun(lib, d'.runs[key], job)
  {
    hide AtomicFolder, RunFolder, GoodRun;
    RunFolderGood(lib, job);
    var f := RunFolder(lib, job);
    var nonce: nat :| d'.runs == d.runs[key := AtomicFolder(f, nonce, Authorized, lib.packed(PERMISSION), 4)];
    AtomicFacts(lib, f, job, nonce, Authorized, lib.packed(PERMISSION), 3);
    assert GoodRun(lib, d'.runs[key], job);
  }

  lemma SettleConcludes(lib: Library, d: Disk, d': Disk, key: Key, result: map<string, Value>, job: Job)
    requires SettledOnDisk(lib, key, result, d, d') && OnDisk(d, key) && GoodRun(lib, d.runs[key], job)
    ensures SettledAs(lib, d', key, result) && GoodRun(lib, d'.runs[key], job)
    ensures Authorized in d.runs[key].saved ==> Authorized in d'.runs[key].saved
  {
    hide AtomicFolder, GoodRun, SealedResult;
    var f, data := d.runs[key], lib.packed(SealedResult(lib, result));
    var nonce: nat :| d'.runs == d.runs[key := AtomicFolder(f, nonce, Verdict, data, 4)];
    AtomicFacts(lib, f, job, nonce, Verdict, data, 3);
    if Authorized in f.saved {
      SavedSoFar(lib, f, job, nonce, data, 4);
    }
  }

  lemma SettleCovers(lib: Library, c: Config, d: Disk, d': Disk, key: Key, result: map<string, Value>, job: Job,
                     asked: seq<Request>, f: Frame)
    requires SettledOnDisk(lib, key, result, d, d') && OnDisk(d, key) && GoodRun(lib, d.runs[key], job)
    requires FrameCovered(lib, c, d, asked, f)
    ensures FrameCovered(lib, c, d', asked, f)
  {
    hide AtomicFolder, GoodRun, SealedResult;
    SettleConcludes(lib, d, d', key, result, job);
    var k := Key(c.campaign, f.run);
    assert Verdict !in d.runs[key].saved by { VerdictUnsaved(lib, d.runs[key], job); }
    if f.kind == 11 && f.run != 0 {
      var i :| 0 <= i < |asked| && asked[i].Settle? && asked[i].key == k && SettledAs(lib, d, k, asked[i].result);
      assert SettledAs(lib, d', k, asked[i].result);
    }
    if f.kind == 10 && k == key {
      var j :| GoodRun(lib, d.runs[key], j) && f.payload == lib.sha(j.raw);
      SettleConcludes(lib, d, d', key, result, j);
    }
  }

  lemma RowCovers(lib: Library, c: Config, s: Sup, now: real, t: Sup, d: Disk, d': Disk, asked: seq<Request>,
                  sent: seq<Frame>, sent': seq<Frame>)
    requires Inv(c, s) && Can(c, s, Row(now))
    requires Covered(lib, c, d, asked, s.run, s.gen.pending, sent)
    requires Did(OnRow(lib, c, s, now), lib, t, sent, sent', d, d')
    ensures t == After(lib, c, s, Row(now)).0
    ensures Covered(lib, c, d', asked + [Asks(lib, c, s, Row(now))], t.run, t.gen.pending, sent')
    ensures t.live && |t.gen.queue| < |s.gen.queue| && t.gen.buffer == s.gen.buffer && t.gen.since == s.gen.since
  {
    hide Conserved, WithinBudget, StopsSound, WordSound, LogSound, Decide, OnRow, IssuedOnDisk, SettledOnDisk;
    hide FrameCovered, GoodRun, RequestFits, Covered, Obeyed, Answers;
    RowFits(lib, c, s, now, d, asked, sent);
    RowAnswers(lib, c, s, now);
    RowRequests(lib, c, s, now);
    RowDigest(lib, c, s, now);
    AsksOfRow(lib, c, s, now);
    var (t', q, reply) := OnRow(lib, c, s, now);
    AnswerCovers(lib, c, s, t, q, reply, d, d', asked, sent, sent');
  }

  lemma RowDigest(lib: Library, c: Config, s: Sup, now: real)
    requires Inv(c, s) && Can(c, s, Row(now))
    ensures var q := OnRow(lib, c, s, now).1;
            q.Issue? ==> q.digest == lib.sha(q.job.raw)
  {
    hide Conserved, WithinBudget, StopsSound, WordSound, LogSound, Decide, OnRow;
    assert FrameLen(|s.gen.queue[0]|);
    if OnRow(lib, c, s, now).1.Issue? {
      DigestIsOfInput(lib, c, s, Row(now));
    }
  }

  lemma AnswerCovers(lib: Library, c: Config, s: Sup, t: Sup, q: Request, reply: Option<Frame>, d: Disk, d': Disk,
                     asked: seq<Request>, sent: seq<Frame>, sent': seq<Frame>)
    requires Covered(lib, c, d, asked, s.run, s.gen.pending, sent)
    requires RequestFits(c, s, t, q) && Obeyed(lib, q, d, d')
    requires q.Issue? ==> q.digest == lib.sha(q.job.raw)
    requires if reply.None? then q.Nothing? && sent' == sent
             else sent' == sent + [reply.value] && Answers(s.run, t.run, q, reply.value)
    ensures Covered(lib, c, d', asked + [q], t.run, t.gen.pending, sent')
  {
    hide IssuedOnDisk, SettledOnDisk, GoodRun, FrameCovered;
    forall i | 0 <= i < |sent| ensures FrameCovered(lib, c, d, asked + [q], sent[i]) {
      FrameCoveredMore(lib, c, d, asked, q, sent[i]);
    }
    var asked' := asked + [q];
    match q
    case Nothing =>
      if reply.Some? {
        Harmless(lib, c, d, asked', reply.value);
      }
    case Issue(key, job, digest) =>
      forall i | 0 <= i < |sent| ensures FrameCovered(lib, c, d', asked', sent[i]) {
        IssueCovers(lib, c, d, d', key, job, asked', sent[i]);
      }
      IssueBacks(lib, d, d', key, job);
      Permits(lib, c, d', asked', reply.value);
    case Settle(key, result) =>
      var job :| GoodRun(lib, d.runs[key], job);
      forall i | 0 <= i < |sent| ensures FrameCovered(lib, c, d', asked', sent[i]) {
        SettleCovers(lib, c, d, d', key, result, job, asked', sent[i]);
      }
      SettleConcludes(lib, d, d', key, result, job);
      assert asked'[|asked|] == q;
      Acknowledges(lib, c, d', asked', reply.value);
  }

  lemma Harmless(lib: Library, c: Config, d: Disk, asked: seq<Request>, f: Frame)
    requires f.kind != 10 && f.run == 0
    ensures FrameCovered(lib, c, d, asked, f)
  {
  }

  lemma Permits(lib: Library, c: Config, d: Disk, asked: seq<Request>, f: Frame)
    requires f.kind == 10 && PermittedOnDisk(lib, d, Key(c.campaign, f.run), f.payload)
    ensures FrameCovered(lib, c, d, asked, f)
  {
  }

  lemma Acknowledges(lib: Library, c: Config, d: Disk, asked: seq<Request>, f: Frame)
    requires f.kind == 11 && AnsweredOnDisk(lib, d, asked, Key(c.campaign, f.run))
    ensures FrameCovered(lib, c, d, asked, f)
  {
  }

  lemma EndCovers(lib: Library, c: Config, s: Sup, d: Disk, d': Disk, asked: seq<Request>,
                  sent: seq<Frame>)
    requires Over(s.gen) && Covered(lib, c, d, asked, s.run, s.gen.pending, sent) && Obeyed(lib, Ended(s).1, d, d')
    ensures var t := Ended(s).0;
            && Covered(lib, c, d', asked, t.run, t.gen.pending, sent)
            && !t.live && t.gen.stop == s.gen.stop && t.gen.done == s.gen.done
            && t.gen.evidence == s.gen.evidence && t.gen.connected == s.gen.connected && t.gen.eof == s.gen.eof
  {
    hide IssuedOnDisk, SettledOnDisk, GoodRun, FrameCovered, TerminationResult, Latest;
    if s.gen.pending.Some? {
      var key, result := s.gen.pending.value.key, TerminationResult(s.gen, s.gen.evidence.value);
      var job :| GoodRun(lib, d.runs[key], job);
      forall i | 0 <= i < |sent| ensures FrameCovered(lib, c, d', asked, sent[i]) {
        SettleCovers(lib, c, d, d', key, result, job, asked, sent[i]);
      }
    }
  }

  /** A published run waiting for its verdict. */
  ghost predicate Unsettled(lib: Library, d: Disk, key: Key) {
    OnDisk(d, key) && exists job :: GoodRun(lib, d.runs[key], job)
  }

  /** Whatever was said and was so on d is so on d'. */
  ghost predicate NothingLost(lib: Library, c: Config, d: Disk, d': Disk) {
    forall asked, f :: FrameCovered(lib, c, d, asked, f) ==> FrameCovered(lib, c, d', asked, f)
  }

  lemma StillTold(lib: Library, c: Config, d: Disk, d': Disk, asked: seq<Request>, run: nat,
                  pending: Option<Pending>, sent: seq<Frame>)
    requires Covered(lib, c, d, asked, run, pending, sent) && NothingLost(lib, c, d, d')
    ensures forall i :: 0 <= i < |sent| ==> FrameCovered(lib, c, d', asked, sent[i])
  {
    hide FrameCovered, Unsettled;
  }

  lemma SameDiskLosesNothing(lib: Library, c: Config, d: Disk)
    ensures NothingLost(lib, c, d, d)
  {
  }

  /** New runs may be there, but the old ones are as they were. */
  predicate Extends(d: Disk, d': Disk) {
    d.linked <= d'.linked && forall k :: k in d.runs ==> k in d'.runs && d'.runs[k] == d.runs[k]
  }

  lemma ExtendingLosesNothing(lib: Library, c: Config, d: Disk, d': Disk)
    requires Extends(d, d')
    ensures NothingLost(lib, c, d, d')
  {
    hide GoodRun;
  }

  lemma PrepareExtends(lib: Library, d: Disk, d': Disk, p: Place, key: Key, job: Job, n: nat, f: nat, f': nat)
    requires p.Stage? && Ran(d, d', PrepareOps(lib, p, key, job), n, f, f')
    ensures Extends(d, d')
    ensures n == |PrepareOps(lib, p, key, job)| ==> key !in d.runs && key in d'.runs && key in d'.linked
  {
    hide StageOps, RunFolder, Exec, Legal;
    var stage, ops := StageOps(lib, p, job), PrepareOps(lib, p, key, job);
    StageOpsOnStage(lib, p, job);
    if n <= |stage| {
      assert ops[..n] == stage[..n];
      StagingIsInvisible(d, stage[..n]);
    } else {
      var tail := [Publish(p, key), SyncCampaign(key.campaign)][..n - |stage|];
      assert ops[..n] == stage + tail;
      StagingIsInvisible(d, stage);
      ExecConcat(d, stage, tail);
      TailExtends(Exec(d, stage), p, key, tail);
    }
  }

  lemma TailExtends(d: Disk, p: Place, key: Key, tail: seq<Op>)
    requires Legal(d, tail) && (tail == [Publish(p, key)] || tail == [Publish(p, key), SyncCampaign(key.campaign)])
    ensures Extends(d, Exec(d, tail)) && key !in d.runs && key in Exec(d, tail).runs
    ensures |tail| == 2 ==> key in Exec(d, tail).linked
  {
    if |tail| == 1 {
      One(d, Publish(p, key));
    } else {
      Two(d, Publish(p, key), SyncCampaign(key.campaign));
    }
  }

  lemma PrepareLosesNothing(lib: Library, c: Config, d: Disk, d': Disk, p: Place, key: Key, job: Job, n: nat, f: nat,
                            f': nat)
    requires p.Stage? && Ran(d, d', PrepareOps(lib, p, key, job), n, f, f')
    ensures NothingLost(lib, c, d, d')
  {
    hide Ran, Extends, NothingLost;
    PrepareExtends(lib, d, d', p, key, job, n, f, f');
    ExtendingLosesNothing(lib, c, d, d');
  }

  lemma AuthorizeLosesNothing(lib: Library, c: Config, d: Disk, d1: Disk, d2: Disk, p: Place, key: Key, job: Job,
                              nonce: nat, n: nat, m: nat, f: nat, f1: nat, f2: nat)
    requires p.Stage? && Ran(d, d1, PrepareOps(lib, p, key, job), n, f, f1) && n == |PrepareOps(lib, p, key, job)|
    requires Ran(d1, d2, AuthorizeOps(lib, key, nonce), m, f1, f2)
    ensures NothingLost(lib, c, d, d2)
  {
    hide Exec, Legal, Enabled, AtomicFolder, PrepareOps, NothingLost;
    PrepareExtends(lib, d, d1, p, key, job, n, f, f1);
    AtomicRan(d1, key, nonce, Authorized, lib.packed(PERMISSION), m);
    assert Extends(d, d2);
    ExtendingLosesNothing(lib, c, d, d2);
  }

  lemma FinishLosesNothing(lib: Library, c: Config, d: Disk, d': Disk, key: Key, result: map<string, Value>, nonce: nat,
                           n: nat, f: nat, f': nat)
    requires Unsettled(lib, d, key) && Ran(d, d', FinishOps(lib, key, nonce, result), n, f, f')
    ensures NothingLost(lib, c, d, d')
  {
    hide AtomicFolder, SealedResult, FinishOps, Ran, GoodRun, FrameCovered;
    FinishRan(d, d', lib, key, nonce, result, n, f, f');
    forall asked, frame | FrameCovered(lib, c, d, asked, frame) ensures FrameCovered(lib, c, d', asked, frame) {
      FinishingCovers(lib, c, d, d', key, nonce, lib.packed(SealedResult(lib, result)), n, asked, frame);
    }
  }

  lemma FinishingCovers(lib: Library, c: Config, d: Disk, d': Disk, key: Key, nonce: nat, data: bytes, n: nat,
                        asked: seq<Request>, f: Frame)
    requires Unsettled(lib, d, key) && n <= 4
    requires d' == d.(runs := d.runs[key := AtomicFolder(d.runs[key], nonce, Verdict, data, n)])
    requires FrameCovered(lib, c, d, asked, f)
    ensures FrameCovered(lib, c, d', asked, f)
  {
    hide AtomicFolder, GoodRun;
    var k := Key(c.campaign, f.run);
    var run := d.runs[key];
    if k == key {
      var job :| GoodRun(lib, run, job);
      assert Verdict !in run.saved by { VerdictUnsaved(lib, run, job); }
      if f.kind == 10 {
        var j :| GoodRun(lib, run, j) && f.payload == lib.sha(j.raw);
        AtomicKeepsGood(lib, run, j, nonce, Verdict, data, n);
        SavedSoFar(lib, run, j, nonce, data, n);
      }
    }
  }

  lemma SavedSoFar(lib: Library, f: Folder, job: Job, nonce: nat, data: bytes, n: nat)
    requires GoodRun(lib, f, job) && Authorized in f.saved && n <= 4
    ensures Authorized in AtomicFolder(f, nonce, Verdict, data, n).saved
  {
    hide Holds;
  }

  predicate OnDisk(d: Disk, key: Key) {
    key in d.runs && key in d.linked && Verdict !in d.runs[key].live
  }
}
