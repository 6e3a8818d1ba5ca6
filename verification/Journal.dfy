// The journal object: its methods run the scripts on a disk that may stop obeying at any moment
// (priv/efz_external.py:146-210).
module JournalObject {
  import opened Bytes
  import opened Storage
  import opened Records
  import opened Scripts
  import opened Sums
  import opened Wrappers

  const SCAN_LIMIT := 100000

  datatype JournalError =
    | ByteBudget
    | Io
    | ScanLimit
    | Damaged(e: ReadError)
    | ConflictingFinalization

  /** The first n of the operations were carried out, and more would have been but for a fault. */
  predicate Ran(d: Disk, d': Disk, ops: seq<Op>, n: nat, fuel: nat, fuel': nat) {
    && n <= |ops| && n <= fuel && fuel' == fuel - n
    && Legal(d, ops[..n]) && d' == Exec(d, ops[..n])
    && (n < |ops| ==> fuel' == 0 || !Enabled(d', ops[n]))
  }

  /** The disk obeys long enough for all of these, and none of them fails on its own account. */
  predicate GoesThrough(d: Disk, ops: seq<Op>, fuel: nat) {
    |ops| <= fuel && Legal(d, ops)
  }

  lemma RanExactly(d: Disk, d': Disk, ops: seq<Op>, n: nat, fuel: nat, fuel': nat)
    requires Ran(d, d', ops, n, fuel, fuel')
    ensures n == |ops| <==> GoesThrough(d, ops, fuel)
  {
    hide Legal, Exec, Enabled, Apply;
    if n == |ops| {
      assert ops[..n] == ops;
    } else if GoesThrough(d, ops, fuel) {
      LegalAt(d, ops, n);
    }
  }

  lemma RanThen(d: Disk, d1: Disk, d2: Disk, a: seq<Op>, b: seq<Op>, n: nat, f: nat, f1: nat, f2: nat)
    requires Ran(d, d1, a, |a|, f, f1) && Ran(d1, d2, b, n, f1, f2)
    ensures Ran(d, d2, a + b, |a| + n, f, f2)
  {
    hide Enabled, Apply, Exec, Legal;
    assert a[..|a|] == a;
    assert (a + b)[..|a| + n] == a + b[..n];
    ExecConcat(d, a, b[..n]);
  }

  lemma RanShort(d: Disk, d': Disk, a: seq<Op>, b: seq<Op>, n: nat, f: nat, f': nat)
    requires Ran(d, d', a, n, f, f') && n < |a|
    ensures Ran(d, d', a + b, n, f, f')
  {
    hide Enabled, Apply, Exec, Legal;
    assert (a + b)[..n] == a[..n];
  }

  /** A run that reads back and names itself. */
  predicate Answerable(lib: Library, f: Folder) {
    LoadRun(lib, f).Ok? && Named(LoadRun(lib, f).value.0)
  }

  /** Recovery cannot go on past this run, and with this error: it does not read back, its verdict is not sound, or it
      has none and does not name itself. */
  predicate Refuses(lib: Library, f: Folder, e: ReadError) {
    match LoadRun(lib, f)
    case Err(d) => e == d
    case Ok((m, _)) => if Verdict in f.live then ValidatedResult(lib, f) == Err(e) else !Named(m) && e == NoSuchKey
  }

  /** A recovered run: untouched if it had a verdict, else some way into, or past, getting one. */
  ghost predicate PartlyRecovered(lib: Library, f: Folder, g: Folder) {
    g == f || (Verdict !in f.live && Answerable(lib, f) &&
               exists nonce: nat, n: nat :: n <= 4 && g == AtomicFolder(f, nonce, Verdict, VerdictFor(lib, f), n))
  }

  ghost predicate FullyRecovered(lib: Library, f: Folder, g: Folder) {
    if Verdict in f.live then g == f && LoadRun(lib, f).Ok? && ValidatedResult(lib, f).Ok?
    else Answerable(lib, f) && exists nonce: nat :: g == AtomicFolder(f, nonce, Verdict, VerdictFor(lib, f), 4)
  }

  /** result.json as recovery writes it for a run found without one. */
  function VerdictFor(lib: Library, f: Folder): bytes
    requires Answerable(lib, f)
  {
    lib.packed(SealedResult(lib, Interrupted(LoadRun(lib, f).value.0, Authorized in f.live)))
  }

  lemma LoadedInput(lib: Library, f: Folder)
    requires LoadRun(lib, f).Ok?
    ensures Input in f.live && LoadRun(lib, f).value.1 == f.live[Input].data
  {
    hide Openers, Entry, Describes;
  }

  class Journal {
    const lib: Library
    const campaign: string
    const maxBytes: nat
    var disk: Disk
    var count: nat
    var recovered: nat
    var uuid: nat
    /** How many more file operations succeed before a fault, a kill or a power cut. */
    var fuel: nat

    constructor (lib: Library, campaign: string, maxBytes: nat, disk: Disk, uuid: nat, fuel: nat)
      ensures this.lib == lib && this.campaign == campaign && this.maxBytes == maxBytes
      ensures this.disk == disk && this.uuid == uuid && this.fuel == fuel
      ensures count == 0 && recovered == 0
    {
      this.lib, this.campaign, this.maxBytes := lib, campaign, maxBytes;
      this.disk, this.uuid, this.fuel := disk, uuid, fuel;
      count, recovered := 0, 0;
    }

    method Do(op: Op) returns (ok: bool)
      modifies this`disk, this`fuel
      ensures ok <==> old(fuel) > 0 && Enabled(old(disk), op)
      ensures Ran(old(disk), disk, [op], if ok then 1 else 0, old(fuel), fuel)
    {
      One(disk, op);
      ok := fuel > 0 && Enabled(disk, op);
      if ok {
        disk := Apply(disk, op);
        fuel := fuel - 1;
        assert [op][..1] == [op];
      }
    }

    method DoTwo(a: Op, b: Op) returns (ok: bool, ghost n: nat)
      modifies this`disk, this`fuel
      ensures Ran(old(disk), disk, [a, b], n, old(fuel), fuel)
      ensures ok <==> n == 2
    {
      hide Enabled, Apply, Exec, Legal, Ran;
      ghost var d0, f0 := disk, fuel;
      assert [a] + [b] == [a, b];
      ok := Do(a);
      if !ok {
        RanShort(d0, disk, [a], [b], 0, f0, fuel);
        return false, 0;
      }
      ghost var d1, f1 := disk, fuel;
      ok := Do(b);
      n := if ok then 2 else 1;
      RanThen(d0, d1, disk, [a], [b], n - 1, f0, f1, fuel);
    }

    /** write_sync, fsync, rename over, fsync of the folder. */
    method Atomic(key: Key, name: FileName, data: bytes) returns (ok: bool, ghost n: nat)
      modifies this`disk, this`fuel, this`uuid
      ensures Ran(old(disk), disk, AtomicOps(key, old(uuid), name, data), n, old(fuel), fuel)
      ensures ok <==> n == 4
    {
      hide Enabled, Apply, Exec, Legal, Ran;
      var p, nonce := Run(key), uuid;
      uuid := uuid + 1;
      ghost var d0, f0 := disk, fuel;
      ghost var first := [Write(p, Tmp(nonce), data), SyncFile(p, Tmp(nonce))];
      ghost var second := [Replace(p, nonce, name), SyncFolder(p)];
      assert AtomicOps(key, nonce, name, data) == first + second;
      ok, n := DoTwo(Write(p, Tmp(nonce), data), SyncFile(p, Tmp(nonce)));
      if !ok {
        assert n < 2 by { assert n <= 2 by { RanBound(d0, disk, first, n, f0, fuel); } }
        RanShort(d0, disk, first, second, n, f0, fuel);
        return;
      }
      ghost var d1, f1 := disk, fuel;
      ghost var m;
      ok, m := DoTwo(Replace(p, nonce, name), SyncFolder(p));
      n := 2 + m;
      RanThen(d0, d1, disk, first, second, m, f0, f1, fuel);
    }

    /** One write_sync after another. */
    method WriteFiles(p: Place, files: seq<(FileName, bytes)>) returns (ok: bool, ghost n: nat)
      modifies this`disk, this`fuel
      ensures Ran(old(disk), disk, WriteAll(p, files), n, old(fuel), fuel)
      ensures ok <==> n == |WriteAll(p, files)|
    {
      hide Enabled, Apply, Exec, Legal, Ran;
      ghost var d0, f0, ops := disk, fuel, WriteAll(p, files);
      ghost var done: seq<Op> := [];
      ok, n := true, 0;
      RanNothing(d0, f0);
      for i := 0 to |files|
        invariant done == WriteAll(p, files[..i]) && n == |done|
        invariant ok && Ran(d0, disk, done, n, f0, fuel)
      {
        ghost var d1, f1, m := disk, fuel, 0;
        ghost var pair := [Write(p, files[i].0, files[i].1), SyncFile(p, files[i].0)];
        assert files[..i + 1][..i] == files[..i];
        ok, m := DoTwo(Write(p, files[i].0, files[i].1), SyncFile(p, files[i].0));
        RanThen(d0, d1, disk, done, pair, m, f0, f1, fuel);
        n := n + m;
        done := done + pair;
        if !ok {
          RanBound(d1, disk, pair, m, f1, fuel);
          WriteAllPrefix(p, files, i + 1);
          RanShort(d0, disk, done, ops[|done|..], n, f0, fuel);
          assert done + ops[|done|..] == ops;
          return;
        }
      }
      assert files[..|files|] == files;
    }

    /** Publishes a run: all its files under a hidden name, then one rename. */
    method Prepare(id: nat, raw: bytes, meta: Value, recipe: bytes) returns (r: Result<Key, JournalError>, ghost n: nat)
      modifies this`disk, this`fuel, this`uuid, this`count
      ensures count == old(count) + Cost(Job(raw, meta, recipe)) == old(count) + |raw| + |recipe| + 16384
      ensures r != Err(ByteBudget) ==> uuid == old(uuid) + 1
      ensures r == Err(ByteBudget) <==> count > maxBytes
      ensures r == Err(ByteBudget) ==> disk == old(disk)
      ensures old(count) > maxBytes ==> r == Err(ByteBudget)
      ensures r != Err(ByteBudget) ==>
                var ops := PrepareOps(lib, Stage(campaign, old(uuid)), Key(campaign, id), Job(raw, meta, recipe));
                && Ran(old(disk), disk, ops, n, old(fuel), fuel)
                && r == if n == |ops| then Ok(Key(campaign, id)) else Err(Io)
    {
      hide Enabled, Apply, Exec, Legal, Ran, Files, WriteAll;
      var job := Job(raw, meta, recipe);
      n := 0;
      count := count + |raw| + |recipe| + RUN_OVERHEAD;
      if count > maxBytes {
        return Err(ByteBudget), 0;
      }
      var p, key := Stage(campaign, uuid), Key(campaign, id);
      uuid := uuid + 1;
      ghost var d0, f0 := disk, fuel;
      ghost var one, two := [MkStage(p)], WriteAll(p, Files(lib, job));
      ghost var three := [SyncFolder(p), Publish(p, key), SyncCampaign(key.campaign)];
      assert PrepareOps(lib, p, key, job) == one + (two + three) == one + two + three;
      var ok := Do(MkStage(p));
      if !ok {
        RanShort(d0, disk, one, two + three, 0, f0, fuel);
        return Err(Io), 0;
      }
      ghost var d1, f1, m := disk, fuel, 0;
      ok, m := WriteFiles(p, Files(lib, job));
      RanThen(d0, d1, disk, one, two, m, f0, f1, fuel);
      RanBound(d1, disk, two, m, f1, fuel);
      n := 1 + m;
      if !ok {
        RanShort(d0, disk, one + two, three, n, f0, fuel);
        return Err(Io), n;
      }
      ghost var d2, f2 := disk, fuel;
      ok, m := DoThree(SyncFolder(p), Publish(p, key), SyncCampaign(key.campaign));
      RanThen(d0, d2, disk, one + two, three, m, f0, f2, fuel);
      RanBound(d2, disk, three, m, f2, fuel);
      n := n + m;
      r := if ok then Ok(key) else Err(Io);
    }

    method DoThree(a: Op, b: Op, c: Op) returns (ok: bool, ghost n: nat)
      modifies this`disk, this`fuel
      ensures Ran(old(disk), disk, [a, b, c], n, old(fuel), fuel)
      ensures ok <==> n == 3
    {
      hide Enabled, Apply, Exec, Legal, Ran;
      ghost var d0, f0 := disk, fuel;
      assert [a, b] + [c] == [a, b, c];
      ok, n := DoTwo(a, b);
      RanBound(d0, disk, [a, b], n, f0, fuel);
      if !ok {
        RanShort(d0, disk, [a, b], [c], n, f0, fuel);
        return;
      }
      ghost var d1, f1 := disk, fuel;
      ok := Do(c);
      n := if ok then 3 else 2;
      RanThen(d0, d1, disk, [a, b], [c], n - 2, f0, f1, fuel);
    }

    /** Records the permission. */
    method Authorize(key: Key) returns (ok: bool, ghost n: nat)
      modifies this`disk, this`fuel, this`uuid
      ensures Ran(old(disk), disk, AuthorizeOps(lib, key, old(uuid)), n, old(fuel), fuel)
      ensures ok <==> n == 4
    {
      ok, n := Atomic(key, Authorized, lib.packed(PERMISSION));
    }

    /** Write-once: a standing verdict is confirmed or the call fails, and nothing is written. */
    method Finish(key: Key, result: map<string, Value>) returns (r: Result<(), JournalError>, ghost n: nat)
      requires key in disk.runs
      modifies this`disk, this`fuel, this`uuid
      ensures Verdict in old(disk).runs[key].live ==>
                && disk == old(disk) && fuel == old(fuel)
                && r == match ValidatedResult(lib, disk.runs[key])
                        case Err(e) => Err(Damaged(e))
                        case Ok(v) => if v == result - {"sha256"} then Ok(()) else Err(ConflictingFinalization)
      ensures Verdict !in old(disk).runs[key].live ==>
                && Ran(old(disk), disk, FinishOps(lib, key, old(uuid), result), n, old(fuel), fuel)
                && r == if n == 4 then Ok(()) else Err(Io)
    {
      hide ValidatedResult, Ran;
      n := 0;
      var body := result - {"sha256"};
      if Verdict in disk.runs[key].live {
        match ValidatedResult(lib, disk.runs[key])
        case Err(e) => return Err(Damaged(e)), 0;
        case Ok(v) => return if v == body then Ok(()) else Err(ConflictingFinalization), 0;
      }
      var ok;
      ok, n := Atomic(key, Verdict, lib.packed(SealedResult(lib, result)));
      r := if ok then Ok(()) else Err(Io);
    }

    /** The scan of a new journal: every visible run must read back; one without a verdict is given one.
        Stops, and fails, at the first run that does not read back. */
    method Recover() returns (r: Result<(), JournalError>)
      requires count == 0 && recovered == 0
      modifies this`disk, this`fuel, this`uuid, this`count, this`recovered
      ensures disk.runs.Keys == old(disk).runs.Keys && disk.linked == old(disk).linked
      ensures forall k :: k in disk.runs ==> PartlyRecovered(lib, old(disk).runs[k], disk.runs[k])
      ensures r.Ok? ==> forall k :: k in disk.runs ==> FullyRecovered(lib, old(disk).runs[k], disk.runs[k])
      ensures r.Ok? ==> count == Sum(Weights(old(disk).runs), old(disk).runs.Keys)
      ensures r.Ok? ==> recovered == |Unfinished(old(disk).runs)|
      ensures r.Ok? ==> |Entries(old(disk))| <= 100000
      ensures r == Err(ScanLimit) ==> |Entries(old(disk))| > 100000
      ensures forall e :: r == Err(Damaged(e)) ==> exists k :: k in old(disk).runs && Refuses(lib, old(disk).runs[k], e)
      ensures r == Err(Io) ==> fuel == 0 || exists k, nonce :: k in disk.runs && Tmp(nonce) in disk.runs[k].live
      ensures r !in {Err(ByteBudget), Err(ConflictingFinalization)}
    {
      hide Refuses, Scanned, FullyRecovered, PartlyRecovered, Weight, Weights, Unfinished, ToVisit, Entries;
      ghost var d0, seen: set<Key> := disk, {};
      var left := Entries(disk);
      var scanned := 0;
      ScanStarts(lib, d0.runs);
      EntriesStart(d0);
      while left != {}
        invariant ToVisit(left, d0.runs.Keys, seen)
        invariant d0.runs.Keys == disk.runs.Keys && disk.linked == d0.linked
        invariant Scanned(lib, d0.runs, disk.runs, seen, count, recovered)
        invariant scanned + |left| == |Entries(d0)| && scanned <= SCAN_LIMIT
        decreases left
      {
        var p :| p in left;
        EntryTaken(left, d0.runs.Keys, seen, p);
        left := left - {p};
        scanned := scanned + 1;
        if scanned > SCAN_LIMIT {
          ScanStops(lib, d0.runs, disk.runs, seen, count, recovered);
          return Err(ScanLimit);
        }
        if p.Run? {
          ghost var runs, n, m := disk.runs, count, recovered;
          r := RecoverOne(p.key);
          if r.Err? {
            ScanStopsAt(lib, d0.runs, runs, disk.runs, seen, n, m, p.key);
            return;
          }
          ScanGoesOn(lib, d0.runs, runs, disk.runs, seen, n, m, p.key);
          seen := seen + {p.key};
        }
      }
      AllVisited(d0.runs.Keys, seen);
      ScanEnds(lib, d0.runs, disk.runs, seen, count, recovered);
      ScanStops(lib, d0.runs, disk.runs, seen, count, recovered);
      r := Ok(());
    }

    method RecoverOne(key: Key) returns (r: Result<(), JournalError>)
      requires key in disk.runs
      modifies this`disk, this`fuel, this`uuid, this`count, this`recovered
      ensures var f := old(disk).runs[key];
              && disk.runs.Keys == old(disk).runs.Keys && disk.linked == old(disk).linked
              && disk.runs == old(disk).runs[key := disk.runs[key]]
              && PartlyRecovered(lib, f, disk.runs[key])
              && (r.Ok? ==> FullyRecovered(lib, f, disk.runs[key]))
              && (r.Ok? ==> count == old(count) + Weight(f))
              && (r.Ok? ==> recovered == old(recovered) + if Verdict in f.live then 0 else 1)
              && (forall e :: r == Err(Damaged(e)) <==> Refuses(lib, f, e))
              && (r == Err(Io) ==> fuel == 0 || exists nonce :: Tmp(nonce) in disk.runs[key].live)
              && r !in {Err(ByteBudget), Err(ScanLimit), Err(ConflictingFinalization)}
    {
      hide LoadRun, ValidatedResult, AtomicFolder, Ran, Apply, Exec, Legal, Enabled, SealedResult;
      ghost var d0 := disk;
      var f := disk.runs[key];
      match LoadRun(lib, f)
      case Err(e) =>
        r := Err(Damaged(e));
      case Ok((m, raw)) =>
        LoadedInput(lib, f);
        count := count + |raw| + RUN_OVERHEAD + (if Recipe in f.live then |f.live[Recipe].data| else 0);
        if Verdict in f.live {
          match ValidatedResult(lib, f)
          case Err(e) => r := Err(Damaged(e));
          case Ok(_) => r := Ok(());
          assert disk.runs == d0.runs[key := f];
        } else if !Named(m) {
          r := Err(Damaged(NoSuchKey));
          assert disk.runs == d0.runs[key := f];
        } else {
          ghost var n, nonce, f0 := 0, uuid, fuel;
          var result := Interrupted(m, Authorized in f.live);
          r, n := Finish(key, result);
          FinishRan(d0, disk, lib, key, nonce, result, n, f0, fuel);
          if n < 4 {
            FinishBalks(d0, disk, lib, key, nonce, result, n, f0, fuel);
          }
          assert VerdictFor(lib, f) == lib.packed(SealedResult(lib, result));
          assert disk.runs[key] == AtomicFolder(f, nonce, Verdict, VerdictFor(lib, f), n);
          recovered := recovered + 1;
        }
    }
  }

  function Unfinished(runs: map<Key, Folder>): set<Key> {
    set k | k in runs && Verdict !in runs[k].live
  }

  /** What a scan of the campaign folders lists: run folders and staging leftovers. */
  function Entries(d: Disk): set<Place> {
    (set p | p in d.stages && p.Stage?) + (set k | k in d.runs :: Run(k))
  }

  ghost predicate ToVisit(left: set<Place>, keys: set<Key>, seen: set<Key>) {
    && (forall p :: p in left && p.Run? ==> p.key in keys && p.key !in seen)
    && (forall k :: k in keys ==> k in seen || Run(k) in left)
  }

  lemma EntriesStart(d: Disk)
    ensures ToVisit(Entries(d), d.runs.Keys, {})
  {
  }

  lemma EntryTaken(left: set<Place>, keys: set<Key>, seen: set<Key>, p: Place)
    requires ToVisit(left, keys, seen) && p in left
    ensures p.Run? ==> p.key in keys && p.key !in seen
    ensures ToVisit(left - {p}, keys, if p.Run? then seen + {p.key} else seen)
  {
  }

  lemma AllVisited(keys: set<Key>, seen: set<Key>)
    requires ToVisit({}, keys, seen)
    ensures keys <= seen
  {
  }

  /** What the scan has done once it has been through the runs of seen. */
  ghost predicate Scanned(lib: Library, runs0: map<Key, Folder>, runs: map<Key, Folder>, seen: set<Key>, count: nat,
                          recovered: nat) {
    && seen <= runs0.Keys && runs.Keys == runs0.Keys
    && (forall k :: k in seen ==> FullyRecovered(lib, runs0[k], runs[k]))
    && (forall k :: k in runs0 && k !in seen ==> runs[k] == runs0[k])
    && count == Sum(Weights(runs0), seen)
    && recovered == |Unfinished(runs0) * seen|
  }

  lemma ScanStarts(lib: Library, runs: map<Key, Folder>)
    ensures Scanned(lib, runs, runs, {}, 0, 0)
  {
    assert Unfinished(runs) * {} == {};
  }

  lemma ScanGoesOn(lib: Library, runs0: map<Key, Folder>, runs: map<Key, Folder>, runs': map<Key, Folder>,
                   seen: set<Key>,
                   count: nat, recovered: nat, key: Key)
    requires Scanned(lib, runs0, runs, seen, count, recovered)
    requires key in runs && key !in seen && key in runs' && runs' == runs[key := runs'[key]]
    requires FullyRecovered(lib, runs[key], runs'[key])
    ensures Scanned(lib, runs0, runs', seen + {key}, count + Weight(runs[key]),
                    recovered + if Verdict in runs[key].live then 0 else 1)
  {
    hide FullyRecovered, Weight, Unfinished;
    SumAdd(Weights(runs0), Weights(runs0), seen, key);
    OneMoreUnfinished(runs0, seen, key);
  }

  lemma OneMoreUnfinished(runs: map<Key, Folder>, seen: set<Key>, key: Key)
    requires key in runs && key !in seen
    ensures |Unfinished(runs) * (seen + {key})|
            == |Unfinished(runs) * seen| + if Verdict in runs[key].live then 0 else 1
  {
    if Verdict in runs[key].live {
      assert Unfinished(runs) * (seen + {key}) == Unfinished(runs) * seen;
    } else {
      assert Unfinished(runs) * (seen + {key}) == Unfinished(runs) * seen + {key};
    }
  }

  lemma ScanEnds(lib: Library, runs0: map<Key, Folder>, runs: map<Key, Folder>, seen: set<Key>, count: nat,
                 recovered: nat)
    requires Scanned(lib, runs0, runs, seen, count, recovered) && runs0.Keys <= seen
    ensures forall k :: k in runs ==> FullyRecovered(lib, runs0[k], runs[k])
    ensures count == Sum(Weights(runs0), runs0.Keys) && recovered == |Unfinished(runs0)|
  {
    hide FullyRecovered;
    assert seen == runs0.Keys;
    assert Unfinished(runs0) * seen == Unfinished(runs0);
  }

  lemma FullIsPart(lib: Library, f: Folder, g: Folder)
    requires FullyRecovered(lib, f, g)
    ensures PartlyRecovered(lib, f, g)
  {
    hide LoadRun, ValidatedResult, AtomicFolder, VerdictFor;
  }

  lemma ScanStops(lib: Library, runs0: map<Key, Folder>, runs: map<Key, Folder>, seen: set<Key>, count: nat,
                  recovered: nat)
    requires Scanned(lib, runs0, runs, seen, count, recovered)
    ensures forall k :: k in runs ==> PartlyRecovered(lib, runs0[k], runs[k])
  {
    forall k | k in runs ensures PartlyRecovered(lib, runs0[k], runs[k]) {
      if k in seen {
        FullIsPart(lib, runs0[k], runs[k]);
      }
    }
  }

  lemma ScanStopsAt(lib: Library, runs0: map<Key, Folder>, runs: map<Key, Folder>, runs': map<Key, Folder>,
                    seen: set<Key>,
                    count: nat, recovered: nat, key: Key)
    requires Scanned(lib, runs0, runs, seen, count, recovered)
    requires key in runs && key !in seen && key in runs' && runs' == runs[key := runs'[key]]
    requires PartlyRecovered(lib, runs[key], runs'[key])
    ensures forall k :: k in runs' ==> PartlyRecovered(lib, runs0[k], runs'[k])
    ensures key in runs0 && runs[key] == runs0[key]
  {
    hide PartlyRecovered, FullyRecovered;
    ScanStops(lib, runs0, runs, seen, count, recovered);
  }

  /** However far `atomic` got, only the one folder moved, and that by its script. */
  lemma {:induction false} AtomicRan(d: Disk, key: Key, nonce: nat, name: FileName, data: bytes, n: nat)
    requires key in d.runs && n <= 4 && Legal(d, AtomicOps(key, nonce, name, data)[..n])
    ensures Exec(d, AtomicOps(key, nonce, name, data)[..n])
            == d.(runs := d.runs[key := AtomicFolder(d.runs[key], nonce, name, data, n)])
    decreases n
  {
    hide AtomicFolder, Enabled, Apply;
    var ops := AtomicOps(key, nonce, name, data);
    if n == 0 {
      AtomicStart(d.runs[key], nonce, name, data);
    } else {
      assert ops[..n][..n - 1] == ops[..n - 1];
      AtomicRan(d, key, nonce, name, data, n - 1);
      AtomicStep(Exec(d, ops[..n - 1]), d.runs[key], key, nonce, name, data, n - 1);
    }
  }

  /** An authorization that went through leaves, durably, the words of the permission in the run, and nothing else
      moves. */
  lemma PermissionShows(lib: Library, d: Disk, key: Key, nonce: nat)
    requires key in d.runs && Legal(d, AuthorizeOps(lib, key, nonce))
    ensures var (d', words) := (Exec(d, AuthorizeOps(lib, key, nonce)),
                                Record(map["permission_recorded" := Flag(true), "execution_proven" := Flag(false)]));
            && key in d'.runs && d' == d.(runs := d.runs[key := d'.runs[key]])
            && Authorized in d'.runs[key].saved && d'.runs[key].saved[Authorized].data == lib.packed(words)
            && forall name :: name in d.runs[key].live && name !in {Tmp(nonce), Authorized} ==>
                                name in d'.runs[key].live && d'.runs[key].live[name] == d.runs[key].live[name]
  {
    hide Enabled, Apply, Exec, Legal;
    var ops := AuthorizeOps(lib, key, nonce);
    assert ops[..4] == ops;
    AtomicRan(d, key, nonce, Authorized, lib.packed(PERMISSION), 4);
  }

  lemma FinishRan(d: Disk, d': Disk, lib: Library, key: Key, nonce: nat, result: map<string, Value>, n: nat, f: nat,
                  f': nat)
    requires key in d.runs && Ran(d, d', FinishOps(lib, key, nonce, result), n, f, f')
    ensures n <= 4
    ensures var data := lib.packed(SealedResult(lib, result));
            d' == d.(runs := d.runs[key := AtomicFolder(d.runs[key], nonce, Verdict, data, n)])
  {
    hide AtomicFolder, Enabled, Apply, Exec, Legal, SealedResult;
    AtomicRan(d, key, nonce, Verdict, lib.packed(SealedResult(lib, result)), n);
  }

  /** The disk gave out, or the name of the temporary file was taken. */
  lemma FinishBalks(d: Disk, d': Disk, lib: Library, key: Key, nonce: nat, result: map<string, Value>, n: nat, f: nat,
                    f': nat)
    requires key in d.runs && n < 4 && Ran(d, d', FinishOps(lib, key, nonce, result), n, f, f')
    requires d'.runs.Keys == d.runs.Keys
    ensures f' == 0 || Tmp(nonce) in d'.runs[key].live
  {
  }

  lemma AtomicStart(f: Folder, nonce: nat, name: FileName, data: bytes)
    ensures AtomicFolder(f, nonce, name, data, 0) == f
  {
  }

  lemma RanNothing(d: Disk, f: nat)
    ensures Ran(d, d, [], 0, f, f)
  {
  }

  lemma RanBound(d: Disk, d': Disk, ops: seq<Op>, n: nat, f: nat, f': nat)
    requires Ran(d, d', ops, n, f, f')
    ensures n <= |ops|
  {
  }

  lemma {:induction false} WriteAllPrefix(p: Place, files: seq<(FileName, bytes)>, i: nat)
    requires i <= |files|
    ensures WriteAll(p, files[..i]) <= WriteAll(p, files)
  {
    if i < |files| {
      var few := files[..|files| - 1];
      assert files[..i] == few[..i];
      WriteAllPrefix(p, few, i);
    } else {
      assert files[..i] == files;
    }
  }
}
