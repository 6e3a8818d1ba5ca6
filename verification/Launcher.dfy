// The launcher that owns a worker's processes: the tail of its log, and the loop that kills and reaps what
// is left of its process tree (c_src/efz_vm_launcher.c:37-67).
module Launcher {
  import opened Bytes

  // ----- the log tail -----

  const TAIL := 4096

  /** The last bytes of a log, as many as the ring holds. */
  function LastOf(log: bytes): bytes {
    if |log| <= 4096 then log else log[|log| - 4096..]
  }

  class LogTail {
    const tail: array<byte>
    var total: nat
    /** Everything ever read. */
    ghost var log: bytes

    ghost predicate Valid()
      reads this, tail
    {
      && tail.Length == TAIL && total == |log|
      && forall i :: 0 <= i < total && total - TAIL <= i ==> tail[i % TAIL] == log[i]
    }

    constructor ()
      ensures Valid() && log == [] && fresh(tail)
    {
      tail := new byte[TAIL];
      total, log := 0, [];
    }

    /** What one read brought, byte by byte over the oldest ones. */
    method Take(buf: bytes)
      requires Valid()
      modifies this`total, this`log, tail
      ensures Valid() && log == old(log) + buf
    {
      for j := 0 to |buf|
        invariant Valid() && log == old(log) + buf[..j]
      {
        tail[total % TAIL] := buf[j];
        total, log := total + 1, log + [buf[j]];
        assert buf[..j + 1] == buf[..j] + [buf[j]];
      }
      assert buf[..|buf|] == buf;
    }

    /** The bytes as they are printed at the end, oldest first. */
    method Printed() returns (out: bytes)
      requires Valid()
      ensures |out| == (if |log| <= 4096 then |log| else 4096) && out == log[|log| - |out|..] == LastOf(log)
    {
      var count := if total < TAIL then total else TAIL;
      var start := total - count;
      out := [];
      for i := 0 to count
        invariant out == log[start..start + i]
      {
        out := out + [tail[(start + i) % TAIL]];
      }
    }
  }

  // ----- processes -----

  /** Doomed: SIGKILL is on its way; it will not run, or fork, again. Zombie: dead and not yet reaped. */
  datatype Status = Running | Doomed | Zombie

  /** The parent is named by its serial; 0 is the launcher. */
  datatype Proc = Proc(pid: nat, parent: nat, status: Status)

  /** The launcher's descendants by serial, a number never used twice; the pids of all other processes. */
  datatype Kernel = Kernel(procs: map<nat, Proc>, outside: set<nat>, next: nat)

  predicate Free(k: Kernel, pid: nat) {
    pid !in k.outside && forall s :: s in k.procs ==> k.procs[s].pid != pid
  }

  /** No two processes have one pid. */
  predicate PidsApart(k: Kernel) {
    && (forall s :: s in k.procs ==> k.procs[s].pid !in k.outside)
    && (forall s, t :: s in k.procs && t in k.procs && k.procs[s].pid == k.procs[t].pid ==> s == t)
  }

  /** Parents are older than their children and not dead. */
  predicate TreeSound(k: Kernel) {
    forall s :: s in k.procs ==> 0 < s < k.next && k.procs[s].parent < s && ParentLives(k, s)
  }

  predicate Inv(k: Kernel) {
    PidsApart(k) && TreeSound(k)
  }

  predicate ParentLives(k: Kernel, s: nat)
    requires s in k.procs
  {
    var p := k.procs[s].parent;
    p == 0 || (p in k.procs && !k.procs[p].status.Zombie?)
  }

  function Children(k: Kernel): set<nat> {
    set s | s in k.procs && k.procs[s].parent == 0
  }

  /** The processes of dead die; their children are handed to the launcher, which is their subreaper. */
  function Die(k: Kernel, dead: set<nat>): Kernel {
    k.(procs := map s | s in k.procs ::
         Proc(k.procs[s].pid,
              if k.procs[s].parent in dead then 0 else k.procs[s].parent,
              if s in dead then Zombie else k.procs[s].status))
  }

  function DoomedOnes(k: Kernel): set<nat> {
    set s | s in k.procs && k.procs[s].status.Doomed?
  }

  function Without(k: Kernel, s: nat): Kernel {
    k.(procs := k.procs - {s})
  }

  function Doom(k: Kernel, s: nat): Kernel
    requires s in k.procs
  {
    var p := k.procs[s];
    if p.status.Running? then k.(procs := k.procs[s := Proc(p.pid, p.parent, Doomed)]) else k
  }

  /** What happens without the launcher: forks, deaths, the deaths of all that are doomed, others' signals and
      reaping, other processes. */
  datatype Event =
    | Fork(parent: nat, pid: nat)
    | Exit(serial: nat)
    | DoomedDie
    | Struck(serial: nat)
    | Collected(serial: nat)
    | Spawned(pid: nat)
    | Vanished(pid: nat)

  predicate Possible(k: Kernel, e: Event) {
    match e
    case Fork(p, pid) => p in k.procs && k.procs[p].status.Running? && Free(k, pid)
    case Exit(s) => s in k.procs && !k.procs[s].status.Zombie?
    case DoomedDie => true
    case Struck(s) => s in k.procs
    case Collected(s) => s in k.procs && k.procs[s].status.Zombie? && k.procs[s].parent != 0
    case Spawned(pid) => Free(k, pid)
    case Vanished(pid) => pid in k.outside
  }

  function Happened(k: Kernel, e: Event): Kernel {
    if !Possible(k, e) then k else
    match e
    case Fork(p, pid) => k.(procs := k.procs[k.next := Proc(pid, p, Running)], next := k.next + 1)
    case Exit(s) => Die(k, {s})
    case DoomedDie => Die(k, DoomedOnes(k))
    case Struck(s) => Doom(k, s)
    case Collected(s) => Without(k, s)
    case Spawned(pid) => k.(outside := k.outside + {pid})
    case Vanished(pid) => k.(outside := k.outside - {pid})
  }

  function AllHappened(k: Kernel, es: seq<Event>): Kernel
    decreases |es|
  {
    if es == [] then k else AllHappened(Happened(k, es[0]), es[1..])
  }

  /** s dies of this. */
  predicate DiesOf(k: Kernel, e: Event, s: nat) {
    s in k.procs && (e == Exit(s) || (e.DoomedDie? && k.procs[s].status.Doomed?))
  }

  /** Process by process: a fork adds one running child; nobody else appears, only who is reaped disappears, and a pid
      is never lost; who dies becomes a zombie, whose children are the launcher's; who is struck while running will not
      run again; and everybody else stays as it was. */
  lemma HappensExactly(k: Kernel, e: Event, s: nat)
    requires Inv(k) && Possible(k, e)
    ensures var (was, now) := (k.procs, Happened(k, e).procs);
            && (s in now <==> (s in was && e != Collected(s)) || (e.Fork? && s == k.next))
            && (e.Fork? && s == k.next ==> now[s] == Proc(e.pid, e.parent, Running))
            && (s in was && s in now ==>
                  && now[s].pid == was[s].pid
                  && now[s].parent == (if DiesOf(k, e, was[s].parent) then 0 else was[s].parent)
                  && now[s].status == if DiesOf(k, e, s) then Zombie
                                      else if e == Struck(s) && was[s].status == Running then Doomed else was[s].status)
    ensures forall pid :: pid in Happened(k, e).outside
              <==> (pid in k.outside && e != Vanished(pid)) || e == Spawned(pid)
    ensures Happened(k, e).next == k.next + if e.Fork? then 1 else 0
  {
    hide PidsApart, ParentLives, Free;
  }

  lemma EventKeeps(k: Kernel, e: Event)
    requires Inv(k)
    ensures Inv(Happened(k, e))
  {
    hide Inv, Die, Doom, Without;
    match e
    case Fork(p, pid) => ForkKeeps(k, e);
    case Exit(s) => if Possible(k, e) { DieKeeps(k, {s}); }
    case DoomedDie => DieKeeps(k, DoomedOnes(k));
    case Struck(s) => if Possible(k, e) { DoomKeeps(k, s); }
    case Collected(s) => if Possible(k, e) { WithoutKeeps(k, s); }
    case Spawned(pid) => OutsideKeeps(k, e);
    case Vanished(pid) => OutsideKeeps(k, e);
  }

  lemma ForkKeeps(k: Kernel, e: Event)
    requires Inv(k) && e.Fork?
    ensures Inv(Happened(k, e))
  {
    hide PidsApart, TreeSound;
    ForkApart(k, e);
    ForkTree(k, e);
  }

  lemma ForkApart(k: Kernel, e: Event)
    requires Inv(k) && e.Fork?
    ensures PidsApart(Happened(k, e))
  {
    hide ParentLives;
  }

  lemma ForkTree(k: Kernel, e: Event)
    requires TreeSound(k) && e.Fork?
    ensures TreeSound(Happened(k, e))
  {
    hide Free;
  }

  lemma OutsideKeeps(k: Kernel, e: Event)
    requires Inv(k) && (e.Spawned? || e.Vanished?)
    ensures Inv(Happened(k, e))
  {
  }

  lemma DieKeeps(k: Kernel, dead: set<nat>)
    requires Inv(k)
    ensures Inv(Die(k, dead))
  {
  }

  lemma DoomKeeps(k: Kernel, s: nat)
    requires Inv(k) && s in k.procs
    ensures Inv(Doom(k, s))
  {
    hide PidsApart, TreeSound;
    DoomApart(k, s);
    DoomTree(k, s);
  }

  lemma DoomApart(k: Kernel, s: nat)
    requires PidsApart(k) && s in k.procs
    ensures PidsApart(Doom(k, s))
  {
  }

  lemma DoomTree(k: Kernel, s: nat)
    requires TreeSound(k) && s in k.procs
    ensures TreeSound(Doom(k, s))
  {
  }

  /** A zombie has no children, so nobody is orphaned when it is reaped. */
  lemma WithoutKeeps(k: Kernel, s: nat)
    requires Inv(k) && s in k.procs && k.procs[s].status.Zombie?
    ensures Inv(Without(k, s))
  {
  }

  /** A child of the launcher stays what it is, pid and all, until the launcher reaps it. */
  predicate Kept(k: Kernel, k': Kernel, s: nat) {
    s in Children(k) ==> s in Children(k') && k'.procs[s].pid == k.procs[s].pid
  }

  lemma EventKeepsChild(k: Kernel, e: Event, s: nat)
    requires Inv(k)
    ensures Kept(k, Happened(k, e), s)
  {
  }

  lemma {:induction false} ChildStays(k: Kernel, es: seq<Event>, s: nat)
    requires Inv(k)
    ensures Inv(AllHappened(k, es)) && Kept(k, AllHappened(k, es), s)
    decreases |es|
  {
    hide Happened, Inv;
    if es != [] {
      EventKeeps(k, es[0]);
      EventKeepsChild(k, es[0], s);
      ChildStays(Happened(k, es[0]), es[1..], s);
    }
  }

  /** Whom a signal to this pid reaches. */
  predicate Reaches(k: Kernel, pid: nat, s: nat) {
    s in k.procs && k.procs[s].pid == pid
  }

  /** A signal to the pid a child had when it was listed reaches that very child and nobody else, whatever
      happened in between, as long as the launcher has not reaped it. */
  lemma SignalsOnlyItsChild(k: Kernel, es: seq<Event>, s: nat)
    requires Inv(k) && s in Children(k)
    ensures var k', pid := AllHappened(k, es), k.procs[s].pid;
            && pid !in k'.outside
            && forall t :: Reaches(k', pid, t) <==> t == s
  {
    hide AllHappened;
    ChildStays(k, es, s);
  }

  /** Whoever is left, one of them is the launcher's own child. */
  lemma OldestIsChild(k: Kernel) returns (s: nat)
    requires Inv(k) && k.procs != map[]
    ensures s in Children(k)
  {
    s :| s in k.procs;
    while k.procs[s].parent != 0
      invariant s in k.procs
      decreases s
    {
      s := k.procs[s].parent;
    }
  }

  // ----- what is left, when nobody forks -----

  function Living(k: Kernel): set<nat> {
    set s | s in k.procs && !k.procs[s].status.Zombie?
  }

  function Runners(k: Kernel): set<nat> {
    set s | s in k.procs && k.procs[s].status.Running?
  }

  /** Three for a process that runs, two for a doomed one, one for a zombie. */
  function Rank(k: Kernel): (n: nat)
    ensures n <= 3 * |k.procs|
  {
    Within(Living(k), k.procs.Keys);
    Within(Runners(k), k.procs.Keys);
    |k.procs.Keys| + |Living(k)| + |Runners(k)|
  }

  lemma Within(few: set<nat>, many: set<nat>)
    requires few <= many
    ensures |few| <= |many|
    ensures few != many ==> |few| < |many|
  {
    assert many == few + (many - few);
  }

  /** Nobody new, nobody back from the dead, nobody reprieved. */
  predicate Fewer(k: Kernel, k': Kernel) {
    k'.procs.Keys <= k.procs.Keys && Living(k') <= Living(k) && Runners(k') <= Runners(k)
  }

  lemma FewerRank(k: Kernel, k': Kernel)
    requires Fewer(k, k')
    ensures Rank(k') <= Rank(k)
    ensures k'.procs.Keys != k.procs.Keys || Living(k') != Living(k) || Runners(k') != Runners(k) ==> Rank(k') < Rank(k)
  {
    Within(k'.procs.Keys, k.procs.Keys);
    Within(Living(k'), Living(k));
    Within(Runners(k'), Runners(k));
  }

  predicate NoFork(es: seq<Event>) {
    forall i :: 0 <= i < |es| ==> !es[i].Fork?
  }

  lemma EventFewer(k: Kernel, e: Event)
    requires !e.Fork?
    ensures Fewer(k, Happened(k, e))
  {
  }

  /** If nobody forks, whatever else happens only ever leaves fewer. */
  lemma {:induction false} AllFewer(k: Kernel, es: seq<Event>)
    requires NoFork(es)
    ensures Fewer(k, AllHappened(k, es))
    decreases |es|
  {
    hide Happened;
    if es != [] {
      EventFewer(k, es[0]);
      AllFewer(Happened(k, es[0]), es[1..]);
    }
  }

  /** Once the doomed have died, none is doomed. */
  lemma {:induction false} NoneDoomed(k: Kernel, es: seq<Event>)
    requires es != [] && es[|es| - 1].DoomedDie?
    ensures DoomedOnes(AllHappened(k, es)) == {}
    decreases |es|
  {
    if |es| == 1 {
      assert es[1..] == [];
    } else {
      NoneDoomed(Happened(k, es[0]), es[1..]);
    }
  }

  const LISTED := 4096

  predicate ZombieChild(k: Kernel, s: nat) {
    s in Children(k) && k.procs[s].status.Zombie?
  }

  // ----- the loop itself -----

  datatype Waited = NoChild | Reaped | NothingYet

  /** What a pass meets: before the wait, and before each signal of its own. */
  datatype Meanwhile = Meanwhile(before: seq<Event>, between: seq<seq<Event>>)

  /** What happens before the j-th signal. */
  function Before(between: seq<seq<Event>>, j: nat): seq<Event> {
    if j < |between| then between[j] else []
  }

  /** Nobody forks, and whoever is doomed has died by the time of the wait. */
  predicate Undisturbed(m: Meanwhile) {
    && m.before != [] && m.before[|m.before| - 1].DoomedDie? && NoFork(m.before)
    && forall j :: 0 <= j < |m.between| ==> NoFork(m.between[j])
  }

  function ZombieChildren(k: Kernel): (r: set<nat>)
    ensures forall s: nat :: s in r <==> ZombieChild(k, s)
  {
    set s | s in k.procs && ZombieChild(k, s)
  }

  lemma ZombieIsDead(k: Kernel, s: nat)
    requires ZombieChild(k, s)
    ensures s in k.procs && k.procs[s].status.Zombie?
  {
  }

  lemma NoneLeft(k: Kernel)
    requires Inv(k)
    ensures Children(k) == {} <==> k.procs == map[]
  {
    hide Inv;
    if k.procs != map[] {
      var s := OldestIsChild(k);
    }
  }

  class Reaper {
    var k: Kernel
    /** Whether a signal ever reached anyone but the child whose pid was listed. */
    ghost var astray: bool

    constructor (k: Kernel)
      requires Inv(k)
      ensures this.k == k && !astray
    {
      this.k := k;
      astray := false;
    }

    method Happen(es: seq<Event>)
      modifies this`k
      ensures k == AllHappened(old(k), es)
    {
      for i := 0 to |es|
        invariant AllHappened(k, es[i..]) == AllHappened(old(k), es)
      {
        assert es[i..][1..] == es[i + 1..];
        k := Happened(k, es[i]);
      }
    }

    /** waitpid(-1, WNOHANG) */
    method Wait() returns (r: Waited)
      requires Inv(k)
      modifies this`k
      ensures Inv(k)
      ensures r.NoChild? <==> old(k).procs == map[]
      ensures r.Reaped? ==> exists s :: ZombieChild(old(k), s) && k == Without(old(k), s)
      ensures !r.Reaped? ==> k == old(k)
      ensures r.NothingYet? ==> forall s :: s in Children(k) ==> !ZombieChild(k, s)
    {
      hide Without, Inv, Children, ZombieChild;
      NoneLeft(k);
      if Children(k) == {} {
        return NoChild;
      }
      var zombies := ZombieChildren(k);
      if zombies == {} {
        return NothingYet;
      }
      var s :| s in zombies;
      ZombieIsDead(k, s);
      WithoutKeeps(k, s);
      k := Without(k, s);
      r := Reaped;
    }

    /** kill(pid, SIGKILL) for the child that was listed under this pid. */
    method Kill(pid: nat, ghost listed: nat)
      requires Inv(k)
      modifies this`k, this`astray
      ensures Inv(k)
      ensures astray == (old(astray) || pid in old(k).outside || exists t :: t in old(k).procs
                                                                             && Reaches(old(k), pid, t) && t != listed)
      ensures forall s :: Kept(old(k), k, s)
      ensures Fewer(old(k), k) && forall t :: Reaches(old(k), pid, t) ==> t !in Runners(k)
    {
      hide Inv, Doom, Children, Fewer;
      astray := astray || pid in k.outside || exists t :: t in k.procs && Reaches(k, pid, t) && t != listed;
      var targets := set t | t in k.procs && k.procs[t].pid == pid;
      assert forall t :: Reaches(k, pid, t) ==> t in targets;
      SameFewer(k);
      AtMostOne(k, pid);
      if targets != {} {
        var t :| t in targets;
        DoomKeeps(k, t);
        DoomFewer(k, t);
        DoomKept(k, t);
        assert Reaches(k, pid, t);
        k := Doom(k, t);
      }
    }

    /** fscanf over /proc/self/task/.../children, at most LISTED of them. */
    method List() returns (pids: seq<nat>, ghost serials: seq<nat>)
      ensures |pids| == |serials| <= LISTED && (Children(k) != {} ==> pids != [])
      ensures |Children(k)| <= LISTED ==> forall s :: s in Children(k) ==> s in serials
      ensures forall i :: 0 <= i < |pids| ==> serials[i] in Children(k) && k.procs[serials[i]].pid == pids[i]
    {
      var left := Children(k);
      pids, serials := [], [];
      while left != {} && |pids| < LISTED
        invariant |pids| == |serials| <= LISTED && left <= Children(k) && |left| + |pids| == |Children(k)|
        invariant forall s :: s in Children(k) ==> s in left || s in serials
        invariant forall i :: 0 <= i < |pids| ==> serials[i] in Children(k) && k.procs[serials[i]].pid == pids[i]
        decreases left
      {
        var s :| s in left;
        left := left - {s};
        pids, serials := pids + [k.procs[s].pid], serials + [s];
      }
    }

    /** The cleanup loop until its deadline, with anything going on around it: confirmed means that not
        one descendant is left, and no signal ever went to anyone but the child it was meant for. If nobody
        forks and the doomed die in time, three passes for each process, and one more, get there. */
    method CleanUp(passes: seq<Meanwhile>) returns (confirmed: bool)
      requires Inv(k)
      modifies this
      ensures Inv(k) && (confirmed ==> k.procs == map[]) && astray == old(astray)
      ensures (forall i :: 0 <= i < |passes| ==> Undisturbed(passes[i])) && |passes| > Rank(old(k)) ==> confirmed
    {
      hide Inv, AllHappened, Children, Undisturbed, Rank, Fewer;
      confirmed := false;
      for i := 0 to |passes|
        invariant Inv(k) && astray == old(astray) && !confirmed
        invariant (forall j :: 0 <= j < |passes| ==> Undisturbed(passes[j])) ==> Rank(k) + i <= Rank(old(k))
      {
        ghost var k0 := k;
        ChildStays(k, passes[i].before, 0);
        Happen(passes[i].before);
        ghost var k1 := k;
        var r := Wait();
        if r.NoChild? {
          return true;
        }
        if r.NothingYet? {
          KillListed(passes[i].between);
        }
        if Undisturbed(passes[i]) {
          BetweenUndisturbed(passes[i]);
          PassFalls(k0, k1, k, passes[i], r.Reaped?);
        }
      }
    }

    /** Every listed child is sent its signal: unless there are too many to list, none of those there were runs
        any more, forks or not. */
    method KillListed(between: seq<seq<Event>>)
      requires Inv(k)
      modifies this
      ensures Inv(k) && astray == old(astray)
      ensures |Children(old(k))| <= LISTED ==> forall s :: s in Children(old(k)) ==> s !in Runners(k)
      ensures (forall j :: 0 <= j < |between| ==> NoFork(between[j])) ==>
                Fewer(old(k), k) && (Children(old(k)) == {} || exists s :: s in Children(old(k)) && s !in Runners(k))
    {
      hide Inv, AllHappened, Fewer, NoFork, Runners;
      var pids, serials := List();
      assert forall i :: 0 <= i < |serials| ==> serials[i] in Children(old(k));
      SameFewer(k);
      for j := 0 to |pids|
        invariant Inv(k) && astray == old(astray)
        invariant forall i :: 0 <= i < |pids| ==> serials[i] in Children(k) && Reaches(k, pids[i], serials[i])
        invariant (forall i :: 0 <= i < |between| ==> NoFork(between[i])) ==>
                    Fewer(old(k), k)
        invariant forall i :: 0 <= i < j ==> serials[i] !in Runners(k)
      {
        ghost var k0 := k;
        var es := Before(between, j);
        SignalsOnlyItsChild(k, es, serials[j]);
        forall i | 0 <= i < |pids| ensures Kept(k0, AllHappened(k0, es), serials[i]) {
          ChildStays(k0, es, serials[i]);
        }
        forall i | 0 <= i < j ensures serials[i] !in Runners(AllHappened(k0, es)) {
          NotReprieved(k0, es, serials[i]);
        }
        ChildStays(k, es, 0);
        Happen(es);
        ghost var k1 := k;
        Kill(pids[j], serials[j]);
        assert forall i :: 0 <= i < |pids| ==> Kept(k1, k, serials[i]);
        NoneRunsAgain(k1, k);
        if forall i :: 0 <= i < |between| ==> NoFork(between[i]) {
          assert NoFork(es) by { NoForkAtAll(); }
          AllFewer(k0, es);
          FewerThen(k0, k1, k);
          FewerThen(old(k), k0, k);
        }
      }
      assert Children(old(k)) != {} ==> serials[0] in Children(old(k)) && serials[0] !in Runners(k);
    }
  }

  /** Whoever is dead or doomed does not run again. */
  lemma NotReprieved(k: Kernel, es: seq<Event>, s: nat)
    requires Inv(k) && s in k.procs && s !in Runners(k)
    ensures s !in Runners(AllHappened(k, es))
  {
    assert s < k.next;
    NeverRunsAgain(k, es, s);
  }

  lemma {:induction false} NeverRunsAgain(k: Kernel, es: seq<Event>, s: nat)
    requires s < k.next && s !in Runners(k)
    ensures s !in Runners(AllHappened(k, es))
    decreases |es|
  {
    hide Happened;
    if es != [] {
      EventReprievesNone(k, es[0], s);
      NeverRunsAgain(Happened(k, es[0]), es[1..], s);
    }
  }

  lemma EventReprievesNone(k: Kernel, e: Event, s: nat)
    requires s < k.next && s !in Runners(k)
    ensures s < Happened(k, e).next && s !in Runners(Happened(k, e))
  {
  }

  lemma NoForkAtAll()
    ensures NoFork([])
  {
  }

  lemma SameFewer(k: Kernel)
    ensures Fewer(k, k)
  {
  }

  lemma FewerThen(k: Kernel, k1: Kernel, k2: Kernel)
    requires Fewer(k, k1) && Fewer(k1, k2)
    ensures Fewer(k, k2)
  {
  }

  lemma NoneRunsAgain(k: Kernel, k': Kernel)
    requires Fewer(k, k')
    ensures Runners(k') <= Runners(k)
  {
  }

  lemma DoomFewer(k: Kernel, s: nat)
    requires s in k.procs
    ensures Fewer(k, Doom(k, s)) && s !in Runners(Doom(k, s))
  {
  }

  lemma DoomKept(k: Kernel, t: nat)
    requires t in k.procs
    ensures forall s :: Kept(k, Doom(k, t), s)
  {
  }

  lemma AtMostOne(k: Kernel, pid: nat)
    requires Inv(k)
    ensures forall t, u :: Reaches(k, pid, t) && Reaches(k, pid, u) ==> t == u
  {
  }

  lemma BetweenUndisturbed(m: Meanwhile)
    requires Undisturbed(m)
    ensures forall j :: 0 <= j < |m.between| ==> NoFork(m.between[j])
  {
    hide NoFork;
  }

  /** A pass that nobody disturbs leaves strictly less. */
  lemma PassFalls(k0: Kernel, k1: Kernel, k2: Kernel, m: Meanwhile, reaped: bool)
    requires Undisturbed(m) && k1 == AllHappened(k0, m.before) && k1.procs != map[] && Inv(k1)
    requires if reaped then exists s :: ZombieChild(k1, s) && k2 == Without(k1, s)
             else (forall s :: s in Children(k1) ==> !ZombieChild(k1, s))
                  && Fewer(k1, k2) && (Children(k1) == {} || exists s :: s in Children(k1) && s !in Runners(k2))
    ensures Rank(k2) < Rank(k0)
  {
    hide Inv, AllHappened, Rank, Without;
    AllFewer(k0, m.before);
    FewerRank(k0, k1);
    NoneDoomed(k0, m.before);
    if reaped {
      var s :| ZombieChild(k1, s) && k2 == Without(k1, s);
      ReapFewer(k1, s);
    } else {
      NoneLeft(k1);
      var s :| s in Children(k1) && s !in Runners(k2);
      assert !ZombieChild(k1, s) && s !in DoomedOnes(k1);
      assert s in Runners(k1);
    }
    FewerRank(k1, k2);
  }

  lemma ReapFewer(k: Kernel, s: nat)
    requires s in k.procs && k.procs[s].status.Zombie?
    ensures Fewer(k, Without(k, s)) && Without(k, s).procs.Keys != k.procs.Keys
  {
    assert s !in Without(k, s).procs.Keys;
  }
}
