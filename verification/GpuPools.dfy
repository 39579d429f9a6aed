/** core/config.py, `parse_spend_gpu_pools`: two entries of one GPU pool may not cover the same hour. */
module GpuPools {
  import opened Prelude

  /** An entry of the setting; hours are counted from an epoch, and no end means open. */
  datatype Pool = Pool(provider: string, nodePool: string, start: int, end: Option<int>)

  /** A JSON item once its fields are read: ill-formed in some field, or with these values. */
  datatype Item = Malformed | Item(provider: string, nodePool: string, start: int, end: Option<int>)

  datatype Problem = BadField | ToNotAfterFrom | SameHour(nodePool: string)

  datatype Parsed<T> = Pools(value: T) | Error(problem: Problem)

  ghost predicate WellFormed(p: Pool) {
    p.end.Some? ==> p.start < p.end.value
  }

  ghost predicate Covers(p: Pool, hour: int) {
    p.start <= hour && (p.end.Some? ==> hour < p.end.value)
  }

  predicate SamePool(p: Pool, q: Pool) {
    p.provider == q.provider && p.nodePool == q.nodePool
  }

  ghost predicate ShareAnHour(p: Pool, q: Pool) {
    SamePool(p, q) && exists hour :: Covers(p, hour) && Covers(q, hour)
  }

  /** No two entries, at whatever positions, cover the same hour of one pool. */
  ghost predicate Disjoint(pools: seq<Pool>) {
    forall i, j :: 0 <= i < j < |pools| ==> !ShareAnHour(pools[i], pools[j])
  }

  // ----- the order of the sort -----

  /** Python's comparison of strings, by code point. */
  predicate TextLeq(a: string, b: string) {
    a == "" || (b != "" && (a[0] < b[0] || (a[0] == b[0] && TextLeq(a[1..], b[1..]))))
  }

  lemma {:induction false} TextTotal(a: string, b: string)
    ensures TextLeq(a, b) || TextLeq(b, a)
    ensures TextLeq(a, b) && TextLeq(b, a) ==> a == b
  {
    if a != "" && b != "" && a[0] == b[0] {
      TextTotal(a[1..], b[1..]);
      assert a == [a[0]] + a[1..] && b == [b[0]] + b[1..];
    }
  }

  lemma {:induction false} TextTransitive(a: string, b: string, c: string)
    requires TextLeq(a, b) && TextLeq(b, c)
    ensures TextLeq(a, c)
  {
    if a != "" && a[0] == b[0] == c[0] {
      TextTransitive(a[1..], b[1..], c[1..]);
    }
  }

  /** The sort key: provider, node pool, start. */
  predicate Leq(p: Pool, q: Pool) {
    if p.provider != q.provider then TextLeq(p.provider, q.provider)
    else if p.nodePool != q.nodePool then TextLeq(p.nodePool, q.nodePool)
    else p.start <= q.start
  }

  lemma LeqTotal(p: Pool, q: Pool)
    ensures Leq(p, q) || Leq(q, p)
  {
    TextTotal(p.provider, q.provider);
    TextTotal(p.nodePool, q.nodePool);
  }

  lemma LeqTransitive(p: Pool, q: Pool, r: Pool)
    requires Leq(p, q) && Leq(q, r)
    ensures Leq(p, r)
  {
    TextTotal(p.provider, q.provider);
    TextTotal(q.provider, r.provider);
    TextTotal(p.nodePool, q.nodePool);
    TextTotal(q.nodePool, r.nodePool);
    if TextLeq(p.provider, q.provider) && TextLeq(q.provider, r.provider) {
      TextTransitive(p.provider, q.provider, r.provider);
    }
    if TextLeq(p.nodePool, q.nodePool) && TextLeq(q.nodePool, r.nodePool) {
      TextTransitive(p.nodePool, q.nodePool, r.nodePool);
    }
  }

  ghost predicate Sorted(pools: seq<Pool>) {
    forall i, j :: 0 <= i < j < |pools| ==> Leq(pools[i], pools[j])
  }

  /** `sorted(pools, key=...)`, a stable sort. */
  function Sort(pools: seq<Pool>): seq<Pool> {
    if pools == [] then [] else Insert(Sort(pools[..|pools| - 1]), pools[|pools| - 1])
  }

  function Insert(sorted: seq<Pool>, p: Pool): (r: seq<Pool>) {
    if sorted == [] || Leq(sorted[|sorted| - 1], p) then sorted + [p]
    else Insert(sorted[..|sorted| - 1], p) + [sorted[|sorted| - 1]]
  }

  /** Inserting puts the entry somewhere, and leaves the rest as it was. */
  lemma {:induction false} InsertSplits(sorted: seq<Pool>, p: Pool) returns (k: nat)
    requires Sorted(sorted)
    ensures k <= |sorted| && Insert(sorted, p) == sorted[..k] + [p] + sorted[k..]
    ensures Sorted(Insert(sorted, p))
  {
    if sorted == [] || Leq(sorted[|sorted| - 1], p) {
      k := |sorted|;
      forall i | 0 <= i < |sorted| ensures Leq(sorted[i], p) {
        if i < |sorted| - 1 {
          LeqTransitive(sorted[i], sorted[|sorted| - 1], p);
        }
      }
    } else {
      var init, last := sorted[..|sorted| - 1], sorted[|sorted| - 1];
      k := InsertSplits(init, p);
      LeqTotal(p, last);
      assert init[..k] == sorted[..k] && init[k..] + [last] == sorted[k..];
      var r := Insert(init, p);
      assert forall x :: x in r ==> x in init || x == p;
      forall i | 0 <= i < |r| ensures Leq(r[i], last) {
        assert r[i] in r;
      }
    }
  }

  lemma {:induction false} InsertAdds(sorted: seq<Pool>, p: Pool)
    ensures multiset(Insert(sorted, p)) == multiset(sorted) + multiset{p}
  {
    if sorted != [] && !Leq(sorted[|sorted| - 1], p) {
      InsertAdds(sorted[..|sorted| - 1], p);
      assert sorted == sorted[..|sorted| - 1] + [sorted[|sorted| - 1]];
    }
  }

  /** The sort is one: its result is in order and is a rearrangement. */
  lemma {:induction false} SortSorts(pools: seq<Pool>)
    ensures Sorted(Sort(pools)) && multiset(Sort(pools)) == multiset(pools)
  {
    if pools != [] {
      var init, last := pools[..|pools| - 1], pools[|pools| - 1];
      SortSorts(init);
      var k := InsertSplits(Sort(init), last);
      InsertAdds(Sort(init), last);
      assert pools == init + [last];
    }
  }

  // ----- the check -----

  /** The test on two neighbours of the sorted list. */
  predicate Clash(before: Pool, after: Pool) {
    SamePool(before, after) && (before.end.None? || before.end.value > after.start)
  }

  /** The neighbour loop, from the left. */
  function FirstClash(ordered: seq<Pool>): Option<Pool> {
    if |ordered| < 2 then None
    else if Clash(ordered[0], ordered[1]) then Some(ordered[1])
    else FirstClash(ordered[1..])
  }

  /** `_gpu_pool` on every item: the first problem stops. */
  function Read(items: seq<Item>): Parsed<seq<Pool>> {
    if items == [] then Pools([])
    else
      var before := Read(items[..|items| - 1]);
      if before.Error? then before
      else
        match items[|items| - 1]
        case Malformed => Error(BadField)
        case Item(provider, nodePool, start, end) =>
          if end.Some? && end.value <= start then Error(ToNotAfterFrom)
          else Pools(before.value + [Pool(provider, nodePool, start, end)])
  }

  /** `parse_spend_gpu_pools`, after the JSON is read. */
  function Parse(items: seq<Item>): Parsed<seq<Pool>> {
    var pools := Read(items);
    if pools.Error? then pools
    else
      var clash := FirstClash(Sort(pools.value));
      if clash.Some? then Error(SameHour(clash.value.nodePool)) else pools
  }

  // ----- the check is exact -----

  ghost predicate ClashAt(o: seq<Pool>, k: int) {
    0 <= k < |o| - 1 && Clash(o[k], o[k + 1])
  }

  lemma {:induction false} FirstClashFinds(o: seq<Pool>)
    ensures FirstClash(o).None? <==> forall k :: !ClashAt(o, k)
  {
    if |o| >= 2 {
      FirstClashFinds(o[1..]);
      if Clash(o[0], o[1]) {
        assert ClashAt(o, 0);
      } else {
        assert forall k :: ClashAt(o[1..], k) ==> ClashAt(o, k + 1);
        assert forall k :: ClashAt(o, k) ==> ClashAt(o[1..], k - 1);
      }
    }
  }

  ghost predicate AllWellFormed(pools: seq<Pool>) {
    forall p :: p in pools ==> WellFormed(p)
  }

  /** Two entries of one pool in sorted order have only entries of that pool between them. */
  lemma BetweenIsSamePool(p: Pool, q: Pool, r: Pool)
    requires Leq(p, q) && Leq(q, r) && SamePool(p, r)
    ensures SamePool(p, q)
  {
    TextTotal(p.provider, q.provider);
    TextTotal(p.nodePool, q.nodePool);
  }

  /** Without a clash between neighbours, an earlier entry of a pool has ended before a later one starts. */
  lemma {:induction false} EndsBefore(o: seq<Pool>, i: nat, j: nat)
    requires Sorted(o) && AllWellFormed(o) && i < j < |o| && SamePool(o[i], o[j])
    requires forall k :: !ClashAt(o, k)
    ensures o[i].end.Some? && o[i].end.value <= o[j].start
  {
    if i + 1 == j {
      assert !ClashAt(o, i);
    } else {
      BetweenIsSamePool(o[i], o[j - 1], o[j]);
      EndsBefore(o, i, j - 1);
      assert !ClashAt(o, j - 1) && WellFormed(o[j - 1]);
    }
  }

  /** On a sorted list the neighbours tell everything. */
  lemma NeighboursSuffice(o: seq<Pool>)
    requires Sorted(o) && AllWellFormed(o)
    ensures Disjoint(o) <==> FirstClash(o).None?
  {
    FirstClashFinds(o);
    if FirstClash(o).None? {
      forall i, j | 0 <= i < j < |o| ensures !ShareAnHour(o[i], o[j]) {
        if SamePool(o[i], o[j]) {
          EndsBefore(o, i, j);
        }
      }
    } else {
      var i :| ClashAt(o, i);
      assert Covers(o[i], o[i + 1].start) && Covers(o[i + 1], o[i + 1].start) by {
        assert WellFormed(o[i + 1]) && Leq(o[i], o[i + 1]);
      }
    }
  }

  // ----- the order of the entries does not matter -----

  ghost predicate FreeOf(s: seq<Pool>, p: Pool) {
    forall q :: q in s ==> !ShareAnHour(q, p)
  }

  /** `Disjoint`, one entry at a time. */
  ghost predicate Clean(s: seq<Pool>) {
    s == [] || (Clean(s[..|s| - 1]) && FreeOf(s[..|s| - 1], s[|s| - 1]))
  }

  lemma {:induction false} CleanIsDisjoint(s: seq<Pool>)
    ensures Clean(s) <==> Disjoint(s)
  {
    if s != [] {
      var init, last := s[..|s| - 1], s[|s| - 1];
      CleanIsDisjoint(init);
      if Disjoint(s) {
        forall i, j | 0 <= i < j < |init| ensures !ShareAnHour(init[i], init[j]) {
          assert !ShareAnHour(s[i], s[j]);
        }
        forall q | q in init ensures !ShareAnHour(q, last) {
          var i :| 0 <= i < |init| && init[i] == q;
          assert !ShareAnHour(s[i], s[|s| - 1]);
        }
      }
    }
  }

  lemma CleanOneMore(s: seq<Pool>, p: Pool)
    ensures Clean(s + [p]) <==> Clean(s) && FreeOf(s, p)
  {
    assert (s + [p])[..|s|] == s;
  }

  lemma {:induction false} InsertMembers(s: seq<Pool>, p: Pool)
    ensures forall q :: q in Insert(s, p) <==> q in s || q == p
  {
    if s != [] && !Leq(s[|s| - 1], p) {
      InsertMembers(s[..|s| - 1], p);
      assert s == s[..|s| - 1] + [s[|s| - 1]];
    }
  }

  /** An entry is free of an inserted list when it is free of the list and of the entry inserted. */
  lemma FreeOfInsert(s: seq<Pool>, p: Pool, x: Pool)
    ensures FreeOf(Insert(s, p), x) <==> FreeOf(s, x) && !ShareAnHour(p, x)
  {
    InsertMembers(s, p);
    if FreeOf(Insert(s, p), x) {
      assert p in Insert(s, p);
    }
  }

  lemma FreeOfOneMore(s: seq<Pool>, p: Pool, x: Pool)
    ensures FreeOf(s + [p], x) <==> FreeOf(s, x) && !ShareAnHour(p, x)
  {
    if FreeOf(s + [p], x) {
      assert p in s + [p];
      assert forall q :: q in s ==> q in s + [p];
    }
  }

  lemma {:induction false} CleanInsert(s: seq<Pool>, p: Pool)
    ensures Clean(Insert(s, p)) <==> Clean(s) && FreeOf(s, p)
  {
    if s == [] || Leq(s[|s| - 1], p) {
      CleanOneMore(s, p);
    } else {
      var init, last := s[..|s| - 1], s[|s| - 1];
      CleanInsert(init, p);
      CleanOneMore(Insert(init, p), last);
      FreeOfInsert(init, p, last);
      assert s == init + [last];
      FreeOfOneMore(init, last, p);
      Symmetric(p, last);
    }
  }

  lemma Symmetric(p: Pool, q: Pool)
    ensures ShareAnHour(p, q) <==> ShareAnHour(q, p)
  {}

  /** A rearrangement has the same entries. */
  lemma SameEntries(s: seq<Pool>, t: seq<Pool>)
    requires multiset(s) == multiset(t)
    ensures forall p :: p in s <==> p in t
  {
    assert forall p :: p in s <==> p in multiset(s);
    assert forall p :: p in t <==> p in multiset(t);
  }

  lemma SameFree(s: seq<Pool>, t: seq<Pool>, p: Pool)
    requires multiset(s) == multiset(t)
    ensures FreeOf(s, p) <==> FreeOf(t, p)
  {
    SameEntries(s, t);
  }

  lemma {:induction false} SortKeepsClean(pools: seq<Pool>)
    ensures Clean(Sort(pools)) <==> Clean(pools)
  {
    if pools != [] {
      var init, last := pools[..|pools| - 1], pools[|pools| - 1];
      SortKeepsClean(init);
      SortSorts(init);
      SameFree(Sort(init), init, last);
      CleanInsert(Sort(init), last);
    }
  }

  lemma {:induction false} ReadPools(items: seq<Item>)
    requires Read(items).Pools?
    ensures AllWellFormed(Read(items).value) && |Read(items).value| == |items|
    ensures forall i :: 0 <= i < |items| ==>
              items[i].Item? && Read(items).value[i] == Pool(items[i].provider, items[i].nodePool, items[i].start, items[i].end)
  {
    if items != [] {
      ReadPools(items[..|items| - 1]);
    }
  }

  /** The neighbour check is exact: a setting whose items are all well-formed is accepted, in its own order, if
      and only if no two of its entries cover the same hour of one pool. */
  lemma ParseExactly(items: seq<Item>)
    requires Read(items).Pools?
    ensures Parse(items).Pools? <==> Disjoint(Read(items).value)
    ensures Parse(items).Pools? ==> Parse(items) == Read(items)
  {
    var pools := Read(items).value;
    ReadPools(items);
    SortSorts(pools);
    SameEntries(Sort(pools), pools);
    SortKeepsClean(pools);
    CleanIsDisjoint(pools);
    CleanIsDisjoint(Sort(pools));
    NeighboursSuffice(Sort(pools));
  }

  /** A refusal for a shared hour names a pool that two entries really share an hour of. */
  lemma NamedPoolClashes(items: seq<Item>) returns (p: Pool, q: Pool)
    requires Read(items).Pools? && Parse(items).Error?
    ensures multiset{p, q} <= multiset(Read(items).value) && ShareAnHour(p, q) && Parse(items).problem == SameHour(q.nodePool)
  {
    var pools := Read(items).value;
    ReadPools(items);
    SortSorts(pools);
    SameEntries(Sort(pools), pools);
    var o := Sort(pools);
    var k := ClashFound(o);
    p, q := o[k], o[k + 1];
    TwoOf(o, k);
    assert Covers(p, q.start) && Covers(q, q.start) by {
      assert WellFormed(q) && Leq(p, q);
    }
  }

  lemma TwoOf(o: seq<Pool>, k: nat)
    requires k + 1 < |o|
    ensures multiset{o[k], o[k + 1]} <= multiset(o)
  {
    assert o == o[..k] + [o[k], o[k + 1]] + o[k + 2..];
  }

  lemma {:induction false} ClashFound(o: seq<Pool>) returns (k: nat)
    requires FirstClash(o).Some?
    ensures ClashAt(o, k) && FirstClash(o).value == o[k + 1]
  {
    if Clash(o[0], o[1]) {
      k := 0;
    } else {
      k := ClashFound(o[1..]);
      k := k + 1;
    }
  }

  /** And the items are read exactly when each is well-formed and ends after it starts. */
  lemma {:induction false} ReadExactly(items: seq<Item>)
    ensures Read(items).Pools? <==>
            forall i :: 0 <= i < |items| ==> items[i].Item? && (items[i].end.Some? ==> items[i].start < items[i].end.value)
  {
    if items != [] {
      ReadExactly(items[..|items| - 1]);
    }
  }
}
