// Five storages of one count map (bench/efz_hit_count_micro.erl:47-51, 57-80, 87-98).
module HitCount {

  type id = nat

  // ----- the count map -----

  /** How often each id was hit, by the hits alone, in whatever order they came. */
  function Tally(hits: seq<id>): map<id, nat> {
    map i | i in hits :: multiset(hits)[i]
  }

  lemma TallyPush(hits: seq<id>, i: id)
    ensures Tally(hits + [i]) == Tally(hits)[i := multiset(hits)[i] + 1]
    ensures multiset(hits + [i]) == multiset(hits) + multiset{i}
    ensures i !in hits ==> multiset(hits)[i] == 0
  {
  }

  /** The ids times over. */
  function Repeated(ids: seq<id>, n: nat): seq<id> {
    if n == 0 then [] else ids + Repeated(ids, n - 1)
  }

  predicate Distinct(ids: seq<id>) {
    forall i, j :: 0 <= i < j < |ids| ==> ids[i] != ids[j]
  }

  lemma {:induction false} OnceEach(ids: seq<id>, i: id)
    requires Distinct(ids)
    ensures multiset(ids)[i] == if i in ids then 1 else 0
  {
    if ids != [] {
      assert ids == ids[..|ids| - 1] + [ids[|ids| - 1]];
      OnceEach(ids[..|ids| - 1], i);
    }
  }

  lemma {:induction false} RepeatedCount(ids: seq<id>, n: nat, i: id)
    requires Distinct(ids)
    ensures multiset(Repeated(ids, n))[i] == if i in ids then n else 0
  {
    if n > 0 {
      RepeatedCount(ids, n - 1, i);
      OnceEach(ids, i);
      assert multiset(ids + Repeated(ids, n - 1)) == multiset(ids) + multiset(Repeated(ids, n - 1));
    }
  }

  /** What every measurement checks: n rounds over distinct ids leave exactly n on each of them. */
  lemma RoundsTally(ids: seq<id>, n: nat)
    requires Distinct(ids) && n > 0
    ensures Tally(Repeated(ids, n)) == map i | i in ids :: n
  {
    var t := Tally(Repeated(ids, n));
    forall i ensures (i in t <==> i in ids) && (i in ids ==> t[i] == n) {
      RepeatedCount(ids, n, i);
      assert i in Repeated(ids, n) <==> multiset(Repeated(ids, n))[i] > 0;
    }
  }

  // ----- several writers -----

  /** One order in which the hits of several writers can take effect, each writer's own kept in order. */
  ghost predicate Interleaving(writers: seq<seq<id>>, hits: seq<id>)
    decreases |hits|
  {
    if hits == [] then forall k :: 0 <= k < |writers| ==> writers[k] == []
    else exists k :: 0 <= k < |writers| && Next(writers[k], hits[0])
                     && Interleaving(writers[k := writers[k][1..]], hits[1..])
  }

  predicate Next(writer: seq<id>, i: id) {
    writer != [] && writer[0] == i
  }

  function AllOf(writers: seq<seq<id>>): multiset<id> {
    if writers == [] then multiset{} else multiset(writers[0]) + AllOf(writers[1..])
  }

  lemma {:induction false} TakeOne(writers: seq<seq<id>>, k: nat)
    requires k < |writers| && writers[k] != []
    ensures AllOf(writers) == AllOf(writers[k := writers[k][1..]]) + multiset{writers[k][0]}
  {
    var w := writers[k];
    assert w == [w[0]] + w[1..];
    var writers' := writers[k := w[1..]];
    if k == 0 {
      assert writers'[1..] == writers[1..];
    } else {
      assert writers'[1..] == writers[1..][k - 1 := w[1..]];
      TakeOne(writers[1..], k - 1);
    }
  }

  lemma {:induction false} NothingLeft(writers: seq<seq<id>>)
    requires forall k :: 0 <= k < |writers| ==> writers[k] == []
    ensures AllOf(writers) == multiset{}
  {
    if writers != [] {
      NothingLeft(writers[1..]);
    }
  }

  lemma {:induction false} InterleavingCounts(writers: seq<seq<id>>, hits: seq<id>)
    requires Interleaving(writers, hits)
    ensures multiset(hits) == AllOf(writers)
    decreases |hits|
  {
    if hits == [] {
      NothingLeft(writers);
    } else {
      var k :| 0 <= k < |writers| && Next(writers[k], hits[0])
        && Interleaving(writers[k := writers[k][1..]], hits[1..]);
      InterleavingCounts(writers[k := writers[k][1..]], hits[1..]);
      TakeOne(writers, k);
      assert hits == [hits[0]] + hits[1..];
    }
  }

  /** However the writers interleave, the counts come out the same. */
  lemma OrderDoesNotMatter(writers: seq<seq<id>>, one: seq<id>, two: seq<id>)
    requires Interleaving(writers, one) && Interleaving(writers, two)
    ensures Tally(one) == Tally(two)
  {
    InterleavingCounts(writers, one);
    InterleavingCounts(writers, two);
    assert forall i :: i in one <==> i in multiset(one);
    assert forall i :: i in two <==> i in multiset(two);
  }

  // ----- 64-bit slots -----

  const SPAN := 0x1_0000_0000_0000_0000
  const HALF := 0x8000_0000_0000_0000

  /** Atomics are opened unsigned; both kinds of counters are signed. */
  datatype Kind = Atomics | Counters | WriteCounters

  function Limit(kind: Kind): nat {
    if kind.Atomics? then SPAN else HALF
  }

  /** What a slot shows after n hits. */
  function Shown(kind: Kind, n: int): int {
    var low := n % SPAN;
    if kind.Atomics? || low < HALF then low else low - SPAN
  }

  /** Adding wraps around, and that is the same as counting first and wrapping then. */
  lemma ShownNext(kind: Kind, n: nat)
    ensures Shown(kind, Shown(kind, n) + 1) == Shown(kind, n + 1)
  {
  }

  /** A slot shows the true count of at least one hit as long as it fits, and only then. */
  lemma ShownIsCount(kind: Kind, n: nat)
    requires n > 0
    ensures Shown(kind, n) == n <==> n < Limit(kind)
  {
  }

  /** What a snapshot keeps of the slots: the positive ones. */
  function DenseSnapshot(kind: Kind, ids: seq<id>, hits: seq<id>): map<id, int> {
    map i | i in ids && Shown(kind, multiset(hits)[i]) > 0 :: Shown(kind, multiset(hits)[i])
  }

  /** The dense storages show the count map exactly if no count has outgrown its slot. */
  lemma DenseIsTally(kind: Kind, ids: seq<id>, hits: seq<id>)
    requires forall i :: i in hits ==> i in ids
    ensures DenseSnapshot(kind, ids, hits) == Tally(hits) <==>
            forall i :: i in hits ==> multiset(hits)[i] < Limit(kind)
  {
    var d, t := DenseSnapshot(kind, ids, hits), Tally(hits);
    forall i | i in hits ensures i in t && t[i] == multiset(hits)[i] > 0 {
      assert i in multiset(hits);
    }
    if forall i :: i in hits ==> multiset(hits)[i] < Limit(kind) {
      forall i ensures (i in d <==> i in t) && (i in t ==> d[i] == t[i]) {
        if i in hits {
          ShownIsCount(kind, multiset(hits)[i]);
        } else {
          assert i !in multiset(hits);
        }
      }
    }
    if d == t {
      forall i | i in hits ensures multiset(hits)[i] < Limit(kind) {
        ShownIsCount(kind, multiset(hits)[i]);
        assert d[i] == t[i];
      }
    }
  }

  /** At its 2^63rd hit an id is gone from the snapshot of the signed counters; up to then it was there. */
  lemma CounterDisappears(n: nat)
    ensures 0 < n < HALF ==> DenseSnapshot(Counters, [0], Repeated([0], n)) == map[0 := n]
    ensures n == HALF ==> DenseSnapshot(Counters, [0], Repeated([0], n)) == map[]
  {
    hide Shown, Repeated;
    RepeatedCount([0], n, 0);
    ShownBelow(n);
  }

  lemma ShownBelow(n: nat)
    ensures 0 < n < HALF ==> Shown(Counters, n) == n
    ensures n == HALF ==> Shown(Counters, n) < 0
  {
  }

  // ----- the storages -----

  class EtsSet {
    var table: set<id>
    ghost var hits: seq<id>

    ghost predicate Valid()
      reads this
    {
      forall i :: i in table <==> i in hits
    }

    constructor ()
      ensures Valid() && hits == []
    {
      table, hits := {}, [];
    }

    method Hit(i: id)
      requires Valid()
      modifies this
      ensures Valid() && hits == old(hits) + [i]
    {
      table := table + {i};
      hits := hits + [i];
    }

    /** The projection of the count map to one. */
    method Snapshot() returns (rows: map<id, nat>)
      requires Valid()
      ensures rows == map i | i in Tally(hits) :: 1
    {
      rows := map i | i in table :: 1;
    }

    method Reset()
      modifies this
      ensures Valid() && hits == []
    {
      table, hits := {}, [];
    }
  }

  class EtsCounter {
    var table: map<id, nat>
    ghost var hits: seq<id>

    ghost predicate Valid()
      reads this
    {
      table == Tally(hits)
    }

    constructor ()
      ensures Valid() && hits == []
    {
      table, hits := map[], [];
    }

    /** update_counter with a default row. */
    method Hit(i: id)
      requires Valid()
      modifies this
      ensures Valid() && hits == old(hits) + [i]
    {
      TallyPush(hits, i);
      if i !in table {
        table := table[i := 0];
      }
      table := table[i := table[i] + 1];
      hits := hits + [i];
    }

    method Snapshot() returns (rows: map<id, nat>)
      requires Valid()
      ensures rows == Tally(hits)
    {
      rows := table;
    }

    method Reset()
      modifies this
      ensures Valid() && hits == []
    {
      table, hits := map[], [];
    }
  }

  /** A slot per prepared id; the slot is looked up by the id itself. */
  class Dense {
    const kind: Kind
    const ids: seq<id>
    const slots: map<id, nat>
    const values: array<int>
    ghost var hits: seq<id>

    ghost predicate Valid()
      reads this, values
    {
      && Distinct(ids) && values.Length == |ids|
      && (forall i :: i in slots <==> i in ids)
      && (forall i :: i in slots ==> slots[i] < |ids| && ids[slots[i]] == i)
      && (forall i :: i in hits ==> i in ids)
      && forall k :: 0 <= k < |ids| ==> values[k] == Shown(kind, multiset(hits)[ids[k]])
    }

    constructor (kind: Kind, ids: seq<id>)
      requires Distinct(ids)
      ensures Valid() && hits == [] && this.kind == kind && this.ids == ids && fresh(values)
    {
      this.kind, this.ids := kind, ids;
      slots := Numbered(ids);
      values := new int[|ids|](_ => 0);
      hits := [];
    }

    /** An id that was not prepared is refused before anything is counted. */
    method Hit(i: id) returns (ok: bool)
      requires Valid()
      modifies this`hits, values
      ensures Valid() && (ok <==> i in ids) && hits == if ok then old(hits) + [i] else old(hits)
    {
      if i !in slots {
        return false;
      }
      var slot := slots[i];
      ShownNext(kind, multiset(hits)[i]);
      TallyPush(hits, i);
      values[slot] := Shown(kind, values[slot] + 1);
      hits := hits + [i];
      ok := true;
    }

    method Snapshot() returns (rows: map<id, int>)
      requires Valid()
      ensures rows == DenseSnapshot(kind, ids, hits)
    {
      rows := map i | i in slots && values[slots[i]] > 0 :: values[slots[i]];
    }

    method Reset()
      requires Valid()
      modifies this`hits, values
      ensures Valid() && hits == [] && DenseSnapshot(kind, ids, hits) == map[]
    {
      for k := 0 to values.Length
        invariant forall j :: 0 <= j < k ==> values[j] == 0
      {
        values[k] := 0;
      }
      hits := [];
    }

    /** `hits`: n rounds over the used ids. */
    method Hits(n: nat, used: seq<id>)
      requires Valid() && forall i :: i in used ==> i in ids
      modifies this`hits, values
      ensures Valid() && hits == old(hits) + Repeated(used, n)
    {
      hide Valid;
      var left: nat := n;
      while left != 0
        invariant left <= n && Valid() && hits + Repeated(used, left) == old(hits) + Repeated(used, n)
      {
        ghost var before := hits;
        HitAll(used);
        left := left - 1;
        assert before + Repeated(used, left + 1) == hits + Repeated(used, left);
      }
      assert hits + Repeated(used, 0) == hits;
    }

    method HitAll(used: seq<id>)
      requires Valid() && forall i :: i in used ==> i in ids
      modifies this`hits, values
      ensures Valid() && hits == old(hits) + used
    {
      hide Valid;
      for k := 0 to |used|
        invariant Valid() && hits == old(hits) + used[..k]
      {
        var ok := Hit(used[k]);
        assert used[..k + 1] == used[..k] + [used[k]];
      }
      assert used[..|used|] == used;
    }
  }

  function Numbered(ids: seq<id>): (m: map<id, nat>)
    requires Distinct(ids)
    ensures forall i :: i in m <==> i in ids
    ensures forall i :: i in m ==> m[i] < |ids| && ids[m[i]] == i
  {
    if ids == [] then map[] else
    var last := |ids| - 1;
    Numbered(ids[..last])[ids[last] := last]
  }
}
