// The journal's procedures as lists of file operations, and what the disk looks like
// wherever one of them is cut short (priv/efz_external.py:94-106, 179-210).
module Scripts {
  import opened Bytes
  import opened Storage
  import opened Records

  function WriteAll(p: Place, files: seq<(FileName, bytes)>): seq<Op> {
    if files == [] then [] else
    var (name, data) := files[|files| - 1];
    WriteAll(p, files[..|files| - 1]) + [Write(p, name, data), SyncFile(p, name)]
  }

  /** Everything `prepare` does under the hidden staging name. */
  function StageOps(lib: Library, p: Place, job: Job): seq<Op> {
    [MkStage(p)] + WriteAll(p, Files(lib, job)) + [SyncFolder(p)]
  }

  function PrepareOps(lib: Library, p: Place, key: Key, job: Job): seq<Op> {
    StageOps(lib, p, job) + [Publish(p, key), SyncCampaign(key.campaign)]
  }

  /** `atomic`: write beside, fsync, rename over, fsync the folder. */
  function AtomicOps(key: Key, nonce: nat, name: FileName, data: bytes): seq<Op> {
    var p := Run(key);
    [Write(p, Tmp(nonce), data), SyncFile(p, Tmp(nonce)), Replace(p, nonce, name), SyncFolder(p)]
  }

  const PERMISSION := Record(map["permission_recorded" := Flag(true), "execution_proven" := Flag(false)])

  function AuthorizeOps(lib: Library, key: Key, nonce: nat): seq<Op> {
    AtomicOps(key, nonce, Authorized, lib.packed(PERMISSION))
  }

  function FinishOps(lib: Library, key: Key, nonce: nat, result: map<string, Value>): seq<Op> {
    AtomicOps(key, nonce, Verdict, lib.packed(SealedResult(lib, result)))
  }

  // ----- staging -----

  predicate OnStage(op: Op) {
    match op
    case MkStage(p) => p.Stage?
    case Write(p, _, _) => p.Stage?
    case SyncFile(p, _) => p.Stage?
    case SyncFolder(p) => p.Stage?
    case Replace(p, _, _) => p.Stage?
    case Publish(_, _) => false
    case SyncCampaign(_) => false
  }

  predicate AllOnStage(ops: seq<Op>) {
    forall i :: 0 <= i < |ops| ==> OnStage(ops[i])
  }

  /** Nothing done under a staging name is visible among the runs. */
  lemma {:induction false} StagingIsInvisible(d: Disk, ops: seq<Op>)
    requires AllOnStage(ops)
    ensures Exec(d, ops).runs == d.runs && Exec(d, ops).linked == d.linked
  {
    if ops != [] {
      StagingIsInvisible(d, ops[..|ops| - 1]);
      assert OnStage(ops[|ops| - 1]);
    }
  }

  lemma {:induction false} WriteAllOnStage(p: Place, files: seq<(FileName, bytes)>)
    requires p.Stage?
    ensures AllOnStage(WriteAll(p, files))
  {
    if files != [] {
      WriteAllOnStage(p, files[..|files| - 1]);
    }
  }

  /** A folder whose files were each written and fsynced, no name twice. */
  function Filled(files: seq<(FileName, bytes)>): map<FileName, Node> {
    if files == [] then map[] else
    Filled(files[..|files| - 1])[files[|files| - 1].0 := Node(files[|files| - 1].1, true)]
  }

  lemma FilledStep(files: seq<(FileName, bytes)>)
    requires files != []
    ensures Filled(files) == Filled(files[..|files| - 1])[files[|files| - 1].0 := Node(files[|files| - 1].1, true)]
  {
  }

  predicate Distinct(files: seq<(FileName, bytes)>) {
    forall i, j :: 0 <= i < j < |files| ==> files[i].0 != files[j].0
  }

  lemma {:induction false} FilledNames(files: seq<(FileName, bytes)>, name: FileName)
    requires forall i :: 0 <= i < |files| ==> files[i].0 != name
    ensures name !in Filled(files)
  {
    if files != [] {
      FilledNames(files[..|files| - 1], name);
    }
  }

  /** Writing them all fills the staging folder, and no step can fail of itself. */
  lemma {:induction false} WriteAllFills(d: Disk, p: Place, files: seq<(FileName, bytes)>)
    requires p.Stage? && Distinct(files)
    requires p in d.stages && d.stages[p] == Folder(map[], map[])
    ensures Legal(d, WriteAll(p, files))
    ensures var d' := Exec(d, WriteAll(p, files));
            p in d'.stages && d'.stages[p] == Folder(Filled(files), map[])
  {
    if files != [] {
      var few := files[..|files| - 1];
      var (name, data) := files[|files| - 1];
      WriteAllFills(d, p, few);
      FilledNames(few, name);
      WriteSynced(Exec(d, WriteAll(p, few)), p, name, data);
      ExecConcat(d, WriteAll(p, few), [Write(p, name, data), SyncFile(p, name)]);
    }
  }

  lemma WriteSynced(d: Disk, p: Place, name: FileName, data: bytes)
    requires Has(d, p) && name !in At(d, p).live
    ensures var ops := [Write(p, name, data), SyncFile(p, name)];
            && Legal(d, ops)
            && Exec(d, ops) == Put(d, p, At(d, p).(live := At(d, p).live[name := Node(data, true)]))
  {
    var w, s := Write(p, name, data), SyncFile(p, name);
    Two(d, w, s);
    var f := At(d, p);
    assert Synced(Written(f, name, data), name).live == f.live[name := Node(data, true)];
    match p
    case Run(key) => assert d.runs[key := Written(f, name, data)][key := Synced(Written(f, name, data), name)]
                         == d.runs[key := Synced(Written(f, name, data), name)];
    case Stage(_, _) => assert d.stages[p := Written(f, name, data)][p := Synced(Written(f, name, data), name)]
                             == d.stages[p := Synced(Written(f, name, data), name)];
  }

  lemma One(d: Disk, op: Op)
    ensures Legal(d, [op]) <==> Enabled(d, op)
    ensures Enabled(d, op) ==> Exec(d, [op]) == Apply(d, op)
  {
    hide Enabled, Apply;
    assert [op][..0] == [];
  }

  /** Each operation of a script that goes through finds the disk as it needs it. */
  lemma LegalAt(d: Disk, ops: seq<Op>, n: nat)
    requires Legal(d, ops) && n < |ops|
    ensures Enabled(Exec(d, ops[..n]), ops[n]) && Exec(d, ops[..n + 1]) == Apply(Exec(d, ops[..n]), ops[n])
  {
    hide Legal, Exec, Enabled, Apply;
    assert ops == ops[..n] + ([ops[n]] + ops[n + 1..]);
    ExecConcat(d, ops[..n], [ops[n]] + ops[n + 1..]);
    ExecConcat(Exec(d, ops[..n]), [ops[n]], ops[n + 1..]);
    One(Exec(d, ops[..n]), ops[n]);
    assert ops[..n + 1] == ops[..n] + [ops[n]];
    ExecConcat(d, ops[..n], [ops[n]]);
  }

  lemma Two(d: Disk, a: Op, b: Op)
    ensures Legal(d, [a, b]) <==> Enabled(d, a) && Enabled(Apply(d, a), b)
    ensures Legal(d, [a, b]) ==> Exec(d, [a, b]) == Apply(Apply(d, a), b)
  {
    hide Enabled, Apply;
    One(d, a);
    assert [a, b][..1] == [a];
  }

  /** The folder a completed staging publishes. */
  function RunFolder(lib: Library, job: Job): Folder {
    var m := Filled(Files(lib, job));
    Folder(m, m)
  }

  lemma StagingCompletes(lib: Library, d: Disk, p: Place, job: Job)
    requires p.Stage? && p !in d.stages
    ensures Legal(d, StageOps(lib, p, job))
    ensures var d' := Exec(d, StageOps(lib, p, job));
            && p in d'.stages && d'.stages[p] == RunFolder(lib, job)
            && d'.runs == d.runs && d'.linked == d.linked
  {
    hide Files, Filled;
    var files := Files(lib, job);
    FilesDistinct(lib, job);
    var d1 := Apply(d, MkStage(p));
    One(d, MkStage(p));
    WriteAllFills(d1, p, files);
    var d2 := Exec(d1, WriteAll(p, files));
    One(d2, SyncFolder(p));
    ExecConcat(d1, WriteAll(p, files), [SyncFolder(p)]);
    ExecConcat(d, [MkStage(p)], WriteAll(p, files) + [SyncFolder(p)]);
    assert StageOps(lib, p, job) == [MkStage(p)] + (WriteAll(p, files) + [SyncFolder(p)]);
    StageOpsOnStage(lib, p, job);
    StagingIsInvisible(d, StageOps(lib, p, job));
  }

  lemma FilesDistinct(lib: Library, job: Job)
    ensures Distinct(Files(lib, job))
  {
  }

  lemma StageOpsOnStage(lib: Library, p: Place, job: Job)
    requires p.Stage?
    ensures AllOnStage(StageOps(lib, p, job))
  {
    WriteAllOnStage(p, Files(lib, job));
  }

  lemma RunFolderHolds(lib: Library, job: Job)
    ensures Holds(lib, RunFolder(lib, job), job)
    ensures RunFolder(lib, job).live.Keys ==
            {Input, Meta, Manifest} + if job.recipe == [] then {} else {Recipe}
    ensures forall name :: name in RunFolder(lib, job).live ==> RunFolder(lib, job).live[name].synced
  {
    var files := Files(lib, job);
    FilledStep(files);
    FilledStep(files[..|files| - 1]);
    FilledStep(files[..2]);
    FilledStep(files[..1]);
    assert files[..|files| - 1][..|files| - 2] == files[..|files| - 2];
  }

  // ----- atomic, on a published run -----

  /** The run folder after the first n operations of `atomic`. */
  function AtomicFolder(f: Folder, nonce: nat, name: FileName, data: bytes, n: nat): Folder
    requires n <= 4
  {
    var m := Tmp(nonce);
    if n == 0 then f
    else if n == 1 then Written(f, m, data)
    else if n == 2 then Synced(Written(f, m, data), m)
    else
      var g := Replaced(Synced(Written(f, m, data), m), nonce, name);
      if n == 3 then g else Saved(g)
  }

  /** One operation of `atomic` takes the folder one step on and touches nothing else. */
  lemma AtomicStep(d: Disk, f: Folder, key: Key, nonce: nat, name: FileName, data: bytes, n: nat)
    requires n < 4 && key in d.runs && d.runs[key] == AtomicFolder(f, nonce, name, data, n)
    requires Enabled(d, AtomicOps(key, nonce, name, data)[n])
    ensures Apply(d, AtomicOps(key, nonce, name, data)[n])
            == d.(runs := d.runs[key := AtomicFolder(f, nonce, name, data, n + 1)])
  {
  }

  /** Every name but a temporary one is synced, what is saved is what is live, and the artifacts are saved. */
  predicate Solid(f: Folder) {
    && (forall name :: name in f.live && !name.Tmp? ==> f.live[name].synced)
    && (forall name :: name in f.saved && !name.Tmp? ==> name in f.live && f.saved[name] == f.live[name])
    && (forall name :: name in f.live && name in {Input, Meta, Recipe, Manifest} ==> name in f.saved)
  }

  predicate GoodRun(lib: Library, f: Folder, job: Job) {
    Solid(f) && Holds(lib, f, job)
  }

  /** What `atomic` shows under its final name: nothing, then the whole file, then durably so. */
  lemma AtomicShows(f: Folder, nonce: nat, name: FileName, data: bytes, n: nat)
    requires n <= 4 && !name.Tmp? && name !in f.live && name !in f.saved
    ensures var g := AtomicFolder(f, nonce, name, data, n);
            && (name in g.live <==> n >= 3) && (name in g.saved <==> n == 4)
            && (name in g.live ==> g.live[name] == Node(data, true))
            && (name in g.saved ==> g.saved[name] == Node(data, true))
            && (forall other: FileName :: other != name && !other.Tmp? ==>
                  (other in g.live <==> other in f.live) && (other in f.live ==> g.live[other] == f.live[other]))
  {
  }

  lemma AtomicKeepsSolid(f: Folder, nonce: nat, name: FileName, data: bytes, n: nat)
    requires Solid(f) && n <= 4
    requires name in {Authorized, Verdict} && name !in f.live
    ensures Solid(AtomicFolder(f, nonce, name, data, n))
  {
  }

  /** At no point of `atomic` is a published run anything but good. */
  lemma AtomicKeepsGood(lib: Library, f: Folder, job: Job, nonce: nat, name: FileName, data: bytes, n: nat)
    requires GoodRun(lib, f, job) && n <= 4
    requires name in {Authorized, Verdict} && name !in f.live
    ensures GoodRun(lib, AtomicFolder(f, nonce, name, data, n), job)
  {
    hide AtomicFolder, ManifestOf;
    assert name !in f.saved;
    AtomicKeepsSolid(f, nonce, name, data, n);
    AtomicShows(f, nonce, name, data, n);
  }

  lemma RunFolderGood(lib: Library, job: Job)
    ensures GoodRun(lib, RunFolder(lib, job), job)
    ensures Authorized !in RunFolder(lib, job).live && Verdict !in RunFolder(lib, job).live
  {
    RunFolderHolds(lib, job);
    hide RunFolder, Holds;
    var f := RunFolder(lib, job);
    assert f.saved == f.live by { SavedAsLive(lib, job); }
  }

  lemma SavedAsLive(lib: Library, job: Job)
    ensures RunFolder(lib, job).saved == RunFolder(lib, job).live
  {
  }

  /** A good run survives a power loss good, with everything that was saved. */
  lemma LossKeepsGood(lib: Library, f: Folder, f': Folder, job: Job)
    requires GoodRun(lib, f, job) && FolderAfterLoss(f, f')
    ensures GoodRun(lib, f', job)
    ensures forall name: FileName :: !name.Tmp? ==>
              && (name in f'.live ==> name in f.live && f'.live[name] == f.live[name])
              && (name in f.saved ==> name in f'.live && name in f'.saved && f'.saved[name] == f.saved[name])
  {
  }

  /** What has become durable in a run stays so. */
  predicate Keeps(f: Folder, g: Folder) {
    forall name: FileName :: name in f.saved && !name.Tmp? ==> name in g.saved && g.saved[name] == f.saved[name]
  }

  lemma AtomicKeepsSaved(f: Folder, nonce: nat, name: FileName, data: bytes, n: nat)
    requires Solid(f) && n < 4 && !name.Tmp? && name !in f.saved
    ensures Keeps(AtomicFolder(f, nonce, name, data, n), AtomicFolder(f, nonce, name, data, n + 1))
  {
  }

  /** One step of `atomic` on a good run, in one place. */
  lemma AtomicFacts(lib: Library, f: Folder, job: Job, nonce: nat, name: FileName, data: bytes, n: nat)
    requires GoodRun(lib, f, job) && n < 4
    requires name in {Authorized, Verdict} && name !in f.live
    ensures var h, g := AtomicFolder(f, nonce, name, data, n), AtomicFolder(f, nonce, name, data, n + 1);
            && GoodRun(lib, g, job) && Keeps(h, g)
            && name !in h.saved
            && (name in g.live <==> n + 1 >= 3) && (name in g.saved <==> n + 1 == 4)
            && (name in g.saved ==> g.saved[name].data == data)
            && (forall other: FileName :: other != name && !other.Tmp? ==>
                  (other in g.live <==> other in f.live) && (other in h.live <==> other in f.live))
  {
    assert name !in f.saved;
    hide AtomicFolder, GoodRun;
    AtomicKeepsGood(lib, f, job, nonce, name, data, n + 1);
    AtomicKeepsSaved(f, nonce, name, data, n);
    AtomicShows(f, nonce, name, data, n);
    AtomicShows(f, nonce, name, data, n + 1);
  }

  /** Staging can only have gone through under a name that was free. */
  lemma StagedUnderFreeName(lib: Library, d: Disk, p: Place, job: Job)
    requires p.Stage? && Legal(d, StageOps(lib, p, job))
    ensures p !in d.stages
  {
    hide Exec, WriteAll, Files;
    var rest := WriteAll(p, Files(lib, job)) + [SyncFolder(p)];
    assert StageOps(lib, p, job) == [MkStage(p)] + rest;
    hide Legal;
    ExecConcat(d, [MkStage(p)], rest);
    One(d, MkStage(p));
  }

  /** All of `prepare`: the whole run, under a name that was free, and that name durable. */
  lemma PrepareDone(lib: Library, d: Disk, p: Place, key: Key, job: Job)
    requires p.Stage? && Legal(d, PrepareOps(lib, p, key, job))
    ensures key !in d.runs
    ensures var d' := Exec(d, PrepareOps(lib, p, key, job));
            d'.runs == d.runs[key := RunFolder(lib, job)] && key in d'.linked && d.linked <= d'.linked
  {
    hide StageOps, RunFolder, Exec, Legal;
    var ops := StageOps(lib, p, job);
    var publish, sync := Publish(p, key), SyncCampaign(key.campaign);
    ExecConcat(d, ops, [publish, sync]);
    StagedUnderFreeName(lib, d, p, job);
    StagingCompletes(lib, d, p, job);
    Two(Exec(d, ops), publish, sync);
  }

  /** And nothing of itself stands in its way, exactly if both names are free; nothing is then left under the hidden
      one. */
  lemma PrepareExactly(lib: Library, d: Disk, p: Place, key: Key, job: Job)
    requires p.Stage?
    ensures Legal(d, PrepareOps(lib, p, key, job)) <==> p !in d.stages && key !in d.runs
    ensures Legal(d, PrepareOps(lib, p, key, job)) ==> p !in Exec(d, PrepareOps(lib, p, key, job)).stages
  {
    hide StageOps, RunFolder, Exec, Legal;
    var ops := StageOps(lib, p, job);
    var publish, sync := Publish(p, key), SyncCampaign(key.campaign);
    ExecConcat(d, ops, [publish, sync]);
    Two(Exec(d, ops), publish, sync);
    if Legal(d, ops) {
      StagedUnderFreeName(lib, d, p, job);
    }
    if p !in d.stages {
      StagingCompletes(lib, d, p, job);
    }
  }

  /** Nor in that of `atomic`, exactly if the run is there and the temporary name is free in it. */
  lemma AtomicExactly(d: Disk, key: Key, nonce: nat, name: FileName, data: bytes)
    ensures Legal(d, AtomicOps(key, nonce, name, data)) <==> key in d.runs && Tmp(nonce) !in d.runs[key].live
  {
    hide Legal, Exec;
    var p := Run(key);
    var a, b := Write(p, Tmp(nonce), data), SyncFile(p, Tmp(nonce));
    var e, f := Replace(p, nonce, name), SyncFolder(p);
    assert AtomicOps(key, nonce, name, data) == [a, b] + [e, f];
    ExecConcat(d, [a, b], [e, f]);
    Two(d, a, b);
    Two(Exec(d, [a, b]), e, f);
  }

  /** The run stands durably under its name with a durable verdict. */
  predicate Concluded(d: Disk, key: Key) {
    key in d.runs && key in d.linked && Verdict in d.runs[key].saved
  }

  /** ... and this is the verdict. */
  predicate SettledAs(lib: Library, d: Disk, key: Key, result: map<string, Value>) {
    Concluded(d, key) && d.runs[key].saved[Verdict].data == lib.packed(SealedResult(lib, result))
  }

  lemma VerdictUnsaved(lib: Library, f: Folder, job: Job)
    requires GoodRun(lib, f, job) && Verdict !in f.live
    ensures Verdict !in f.saved
  {
    hide Holds;
  }
}
