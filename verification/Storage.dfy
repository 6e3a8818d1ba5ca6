// The journal's part of the file system, with what a power loss may undo
// (priv/efz_external.py:74-106).
module Storage {
  import opened Bytes

  /** The files of one run folder; Tmp is the ".tmp-<uuid>" sibling `atomic` writes first. */
  datatype FileName =
    | Input
    | Meta
    | Recipe
    | Manifest
    | Authorized
    | Verdict
    | Tmp(nonce: nat)

  /** synced: its bytes have been fsynced. */
  datatype Node = Node(data: bytes, synced: bool)

  /** live: what a reader sees; saved: the names as of the last fsync of the folder. */
  datatype Folder = Folder(live: map<FileName, Node>, saved: map<FileName, Node>)

  datatype Key = Key(campaign: string, id: nat)

  /** A run folder under its number, or a staging folder under its hidden name. */
  datatype Place = Run(key: Key) | Stage(campaign: string, nonce: nat)

  /** linked: the run folders whose name has been made durable by an fsync of the campaign folder. */
  datatype Disk = Disk(runs: map<Key, Folder>, linked: set<Key>, stages: map<Place, Folder>)

  datatype Op =
    | MkStage(place: Place)
    | Write(place: Place, name: FileName, data: bytes)
    | SyncFile(place: Place, name: FileName)
    | SyncFolder(place: Place)
    | Publish(place: Place, key: Key)
    | SyncCampaign(campaign: string)
    | Replace(place: Place, nonce: nat, name: FileName)

  predicate Has(d: Disk, p: Place) {
    match p
    case Run(key) => key in d.runs
    case Stage(_, _) => p in d.stages
  }

  function At(d: Disk, p: Place): Folder
    requires Has(d, p)
  {
    match p
    case Run(key) => d.runs[key]
    case Stage(_, _) => d.stages[p]
  }

  function Put(d: Disk, p: Place, f: Folder): Disk {
    match p
    case Run(key) => d.(runs := d.runs[key := f])
    case Stage(_, _) => d.(stages := d.stages[p := f])
  }

  // ----- one folder -----

  function Written(f: Folder, name: FileName, data: bytes): Folder {
    f.(live := f.live[name := Node(data, false)])
  }

  function Synced(f: Folder, name: FileName): Folder
    requires name in f.live
  {
    f.(live := f.live[name := f.live[name].(synced := true)])
  }

  function Saved(f: Folder): Folder {
    f.(saved := f.live)
  }

  function Replaced(f: Folder, nonce: nat, name: FileName): Folder
    requires Tmp(nonce) in f.live
  {
    f.(live := (f.live - {Tmp(nonce)})[name := f.live[Tmp(nonce)]])
  }

  // ----- one file operation -----

  /** The operation does not fail on its own account: "xb" and mkdir refuse an existing name,
      rename refuses a non-empty target folder. */
  predicate Enabled(d: Disk, op: Op) {
    match op
    case MkStage(p) => p.Stage? && p !in d.stages
    case Write(p, name, _) => Has(d, p) && name !in At(d, p).live
    case SyncFile(p, name) => Has(d, p) && name in At(d, p).live
    case SyncFolder(p) => Has(d, p)
    case Publish(p, key) => p.Stage? && p in d.stages && key !in d.runs
    case SyncCampaign(_) => true
    case Replace(p, nonce, _) => Has(d, p) && Tmp(nonce) in At(d, p).live
  }

  function Apply(d: Disk, op: Op): Disk
    requires Enabled(d, op)
  {
    match op
    case MkStage(p) => d.(stages := d.stages[p := Folder(map[], map[])])
    case Write(p, name, data) => Put(d, p, Written(At(d, p), name, data))
    case SyncFile(p, name) => Put(d, p, Synced(At(d, p), name))
    case SyncFolder(p) => Put(d, p, Saved(At(d, p)))
    case Publish(p, key) => d.(runs := d.runs[key := d.stages[p]], stages := d.stages - {p})
    case SyncCampaign(c) => d.(linked := d.linked + CampaignKeys(d, c))
    case Replace(p, nonce, name) => Put(d, p, Replaced(At(d, p), nonce, name))
  }

  function CampaignKeys(d: Disk, c: string): set<Key> {
    set k | k in d.runs && k.campaign == c
  }

  // ----- a list of them, from the first on -----

  /** The disk after the operations, as far as they succeed. */
  function Exec(d: Disk, ops: seq<Op>): Disk {
    if ops == [] then d else
    var d' := Exec(d, ops[..|ops| - 1]);
    if Enabled(d', ops[|ops| - 1]) then Apply(d', ops[|ops| - 1]) else d'
  }

  predicate Legal(d: Disk, ops: seq<Op>) {
    ops != [] ==> Legal(d, ops[..|ops| - 1]) && Enabled(Exec(d, ops[..|ops| - 1]), ops[|ops| - 1])
  }

  lemma {:induction false} ExecConcat(d: Disk, a: seq<Op>, b: seq<Op>)
    ensures Exec(d, a + b) == Exec(Exec(d, a), b)
    ensures Legal(d, a + b) <==> Legal(d, a) && Legal(Exec(d, a), b)
  {
    hide Enabled, Apply;
    if b == [] {
      assert a + b == a;
    } else {
      var b' := b[..|b| - 1];
      assert (a + b)[..|a + b| - 1] == a + b';
      ExecConcat(d, a, b');
    }
  }

  // ----- losing power -----

  /** What a power loss may leave of a folder: every entry is the saved one or the live one, or gone
      where one of the two lacks it; unsynced bytes may read back as anything. */
  ghost predicate FolderAfterLoss(f: Folder, f': Folder) {
    && f'.saved == f'.live
    && (forall name :: name in f'.live && !name.Tmp? ==>
          f'.live[name].synced
          && ((name in f.live && Survives(f.live[name], f'.live[name]))
              || (name in f.saved && Survives(f.saved[name], f'.live[name]))))
    && (forall name :: name in f.live && name in f.saved ==> name in f'.live)
  }

  predicate Survives(n: Node, n': Node) {
    n.synced ==> n'.data == n.data
  }

  /** What a power loss makes of a folder that keeps all its files but one. */
  function Remaining(f: Folder, name: FileName): map<FileName, Node> {
    map n | n in f.saved && n != name && !n.Tmp? :: Node(f.saved[n].data, true)
  }

  /** A file that was not fsynced may read back as anything, even under a name that was. */
  lemma UnsyncedMayChange(f: Folder, name: FileName, data: bytes, other: bytes) returns (f': Folder)
    requires !name.Tmp? && f.saved == f.live && name !in f.live && forall n :: n in f.live ==> !n.Tmp?
    ensures FolderAfterLoss(Saved(Written(f, name, data)), f')
    ensures name in f'.live && f'.live[name].data == other
  {
    var files := Remaining(f, name)[name := Node(other, true)];
    f' := Folder(files, files);
  }

  /** One whose name was not may be gone, even if its bytes were. */
  lemma UnsavedMayGo(f: Folder, name: FileName, data: bytes) returns (f': Folder)
    requires !name.Tmp? && f.saved == f.live && name !in f.live && forall n :: n in f.live ==> !n.Tmp?
    ensures FolderAfterLoss(Synced(Written(f, name, data), name), f') && name !in f'.live
  {
    f' := Folder(Remaining(f, name), Remaining(f, name));
  }

  /** Run folders whose name was not durable may vanish; staging leftovers are anybody's guess. */
  ghost predicate PowerLoss(d: Disk, d': Disk) {
    && d'.runs.Keys <= d.runs.Keys
    && d.linked * d.runs.Keys <= d'.runs.Keys
    && d'.linked == d'.runs.Keys
    && (forall k :: k in d'.runs ==> FolderAfterLoss(d.runs[k], d'.runs[k]))
  }
}
