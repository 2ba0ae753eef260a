/** Python's `collections.Counter` as the skill analyser uses it: increments,
    look-ups, `most_common(n)` and the sum of the counts. */
module Counters {
  import opened Seqs

  /** The keys in insertion order and the count of each. */
  datatype Counter = Counter(keys: seq<string>, counts: map<string, nat>)

  /** The keys are listed once each, exactly the keys of the map, and every
      count is positive (a key only appears when it is first incremented). */
  predicate WellFormed(c: Counter) {
    && Distinct(c.keys)
    && (forall i :: 0 <= i < |c.keys| ==> c.keys[i] in c.counts && c.counts[c.keys[i]] > 0)
    && (forall k :: k in c.counts ==> k in c.keys)
  }

  const EmptyCounter: Counter := Counter([], map[])

  /** `counter[k]`: zero for a key never incremented. */
  function Get(c: Counter, k: string): nat {
    if k in c.counts then c.counts[k] else 0
  }

  /** `counter[k] += 1` */
  function Add(c: Counter, k: string): (r: Counter)
    ensures Get(r, k) == Get(c, k) + 1
    ensures forall other :: other != k ==> Get(r, other) == Get(c, other)
    ensures WellFormed(c) ==> WellFormed(r)
    ensures WellFormed(c) ==> r.keys == if k in c.keys then c.keys else c.keys + [k]
  {
    if k in c.counts then Counter(c.keys, c.counts[k := c.counts[k] + 1])
    else Counter(c.keys + [k], c.counts[k := 1])
  }

  /** Increments every key of `ks`, in order. */
  function AddAll(c: Counter, ks: seq<string>): (r: Counter)
    ensures WellFormed(c) ==> WellFormed(r)
    decreases |ks|
  {
    if ks == [] then c else AddAll(Add(c, ks[0]), ks[1..])
  }

  /** After the increments, each key has risen by its number of occurrences in `ks`. */
  lemma {:induction false} AddAllGet(c: Counter, ks: seq<string>, k: string)
    ensures Get(AddAll(c, ks), k) == Get(c, k) + Count(ks, k)
    decreases |ks|
  {
    if ks != [] {
      AddAllGet(Add(c, ks[0]), ks[1..], k);
    }
  }

  lemma {:induction false} AddAllConcat(c: Counter, a: seq<string>, b: seq<string>)
    ensures AddAll(c, a + b) == AddAll(AddAll(c, a), b)
    decreases |a|
  {
    if a == [] {
      assert a + b == b;
    } else {
      assert (a + b)[0] == a[0] && (a + b)[1..] == a[1..] + b;
      AddAllConcat(Add(c, a[0]), a[1..], b);
    }
  }

  /** Incrementing one more key, or none, after a run of increments. */
  lemma AddAllOne(c: Counter, ks: seq<string>, k: string, hit: bool)
    ensures AddAll(c, ks + if hit then [k] else []) == if hit then Add(AddAll(c, ks), k) else AddAll(c, ks)
  {
    AddAllConcat(c, ks, if hit then [k] else []);
    if !hit { assert ks + [] == ks; }
  }

  /** A `(key, count)` pair of `most_common`. */
  type SkillCount = (string, nat)

  /** `counter.items()`: each key with its count, in insertion order. */
  function Items(c: Counter): (r: seq<SkillCount>)
    ensures |r| == |c.keys|
    ensures forall i :: 0 <= i < |r| ==> r[i] == (c.keys[i], Get(c, c.keys[i]))
  {
    seq(|c.keys|, i requires 0 <= i < |c.keys| => (c.keys[i], Get(c, c.keys[i])))
  }

  predicate NonIncreasing(ps: seq<SkillCount>) {
    forall i, j :: 0 <= i < j < |ps| ==> ps[i].1 >= ps[j].1
  }

  /** Inserts `p` after every leading pair whose count is at least its own. */
  function InsertByCount(p: SkillCount, sorted: seq<SkillCount>): (r: seq<SkillCount>)
    ensures |r| == |sorted| + 1
  {
    if sorted == [] then [p]
    else if sorted[0].1 >= p.1 then [sorted[0]] + InsertByCount(p, sorted[1..])
    else [p] + sorted
  }

  /** Inserting adds `p` and loses nothing. */
  lemma {:induction false} InsertPermutes(p: SkillCount, sorted: seq<SkillCount>)
    ensures multiset(InsertByCount(p, sorted)) == multiset(sorted) + multiset{p}
  {
    if sorted != [] && sorted[0].1 >= p.1 {
      InsertPermutes(p, sorted[1..]);
      assert sorted == [sorted[0]] + sorted[1..];
    }
  }

  lemma {:induction false} InsertKeepsOrder(p: SkillCount, sorted: seq<SkillCount>)
    requires NonIncreasing(sorted)
    ensures NonIncreasing(InsertByCount(p, sorted))
  {
    if sorted != [] && sorted[0].1 >= p.1 {
      var rest := InsertByCount(p, sorted[1..]);
      InsertKeepsOrder(p, sorted[1..]);
      InsertPermutes(p, sorted[1..]);
      forall j | 0 <= j < |rest| ensures rest[j].1 <= sorted[0].1 {
        assert rest[j] in multiset(rest);
        assert rest[j] in multiset(sorted[1..]) || rest[j] == p;
        if rest[j] != p {
          var m :| 0 <= m < |sorted[1..]| && sorted[1..][m] == rest[j];
          assert sorted[m + 1] == rest[j];
        }
      }
    }
  }

  /** A stable sort by decreasing count: `sorted(items, key=count, reverse=True)`. */
  function SortByCount(ps: seq<SkillCount>): (r: seq<SkillCount>)
    ensures multiset(r) == multiset(ps)
    ensures |r| == |ps|
    ensures NonIncreasing(r)
  {
    if ps == [] then []
    else
      var init, last := ps[..|ps| - 1], ps[|ps| - 1];
      assert ps == init + [last];
      InsertKeepsOrder(last, SortByCount(init));
      InsertPermutes(last, SortByCount(init));
      InsertByCount(last, SortByCount(init))
  }

  /** The pairs with count `v`, in order. */
  function WithCount(ps: seq<SkillCount>, v: nat): seq<SkillCount> {
    Filter(ps, (p: SkillCount) => p.1 == v)
  }

  lemma WithCountConcat(a: seq<SkillCount>, b: seq<SkillCount>, v: nat)
    ensures WithCount(a + b, v) == WithCount(a, v) + WithCount(b, v)
  {
    FilterConcat(a, b, (p: SkillCount) => p.1 == v);
  }

  lemma WithCountNone(ps: seq<SkillCount>, v: nat)
    requires forall i :: 0 <= i < |ps| ==> ps[i].1 != v
    ensures WithCount(ps, v) == []
  {
    FilterDropsAll(ps, (p: SkillCount) => p.1 == v);
  }

  lemma {:induction false} InsertWithCount(p: SkillCount, sorted: seq<SkillCount>, v: nat)
    requires NonIncreasing(sorted)
    ensures WithCount(InsertByCount(p, sorted), v) == WithCount(sorted, v) + if p.1 == v then [p] else []
  {
    var extra := if p.1 == v then [p] else [];
    if sorted == [] || sorted[0].1 < p.1 {
      assert InsertByCount(p, sorted) == [p] + sorted;
      InsertBeforeAll(p, sorted, v);
    } else {
      var x, tail := sorted[0], sorted[1..];
      assert NonIncreasing(tail) by {
        forall i, j | 0 <= i < j < |tail| ensures tail[i].1 >= tail[j].1 {
          assert tail[i] == sorted[i + 1] && tail[j] == sorted[j + 1];
        }
      }
      InsertWithCount(p, tail, v);
      assert InsertByCount(p, sorted) == [x] + InsertByCount(p, tail);
      assert sorted == [x] + tail;
      InsertAfterHead(x, tail, InsertByCount(p, tail), extra, v);
    }
  }

  /** The step of `InsertWithCount` where the inserted pair goes first: no
      pair of `sorted` has its count. */
  lemma InsertBeforeAll(p: SkillCount, sorted: seq<SkillCount>, v: nat)
    requires NonIncreasing(sorted) && (sorted == [] || sorted[0].1 < p.1)
    ensures WithCount([p] + sorted, v) == WithCount(sorted, v) + if p.1 == v then [p] else []
  {
    WithCountCons(p, sorted, v);
    if p.1 == v {
      forall i | 0 <= i < |sorted| ensures sorted[i].1 != v {
        assert sorted[0].1 >= sorted[i].1;
      }
      WithCountNone(sorted, v);
    }
  }

  /** The step of `InsertWithCount` where the inserted pair goes after the head `x`. */
  lemma InsertAfterHead(x: SkillCount, tail: seq<SkillCount>, ins: seq<SkillCount>, extra: seq<SkillCount>, v: nat)
    requires WithCount(ins, v) == WithCount(tail, v) + extra
    ensures WithCount([x] + ins, v) == WithCount([x] + tail, v) + extra
  {
    var head := if x.1 == v then [x] else [];
    WithCountCons(x, ins, v);
    WithCountCons(x, tail, v);
    assert head + (WithCount(tail, v) + extra) == (head + WithCount(tail, v)) + extra;
  }

  /** Unfolding `WithCount` once on a pair put in front. */
  lemma WithCountCons(x: SkillCount, rest: seq<SkillCount>, v: nat)
    ensures WithCount([x] + rest, v) == (if x.1 == v then [x] else []) + WithCount(rest, v)
  {
    assert ([x] + rest)[0] == x && ([x] + rest)[1..] == rest;
  }

  /** The sort is stable: the pairs of any one count keep their relative order. */
  lemma {:induction false} SortStable(ps: seq<SkillCount>, v: nat)
    ensures WithCount(SortByCount(ps), v) == WithCount(ps, v)
  {
    if ps != [] {
      var init, last := ps[..|ps| - 1], ps[|ps| - 1];
      assert ps == init + [last];
      SortStable(init, v);
      InsertWithCount(last, SortByCount(init), v);
      WithCountConcat(init, [last], v);
    }
  }

  /** Every pair of the sorted items is a key of the counter with its count. */
  lemma SortedItemsFromCounter(c: Counter)
    ensures forall i :: 0 <= i < |c.keys| ==>
      (SortByCount(Items(c))[i].0 in c.keys && SortByCount(Items(c))[i].1 == Get(c, SortByCount(Items(c))[i].0))
  {
    var items := Items(c);
    var sorted := SortByCount(items);
    forall i | 0 <= i < |c.keys| ensures sorted[i].0 in c.keys && sorted[i].1 == Get(c, sorted[i].0) {
      assert sorted[i] in multiset(sorted);
      assert sorted[i] in multiset(items);
      var m :| 0 <= m < |items| && items[m] == sorted[i];
    }
  }

  /** `counter.most_common(n)`: the first `n` pairs of the stable sort by
      decreasing count. */
  function MostCommon(c: Counter, n: nat): (r: seq<SkillCount>)
    ensures |r| == if n < |c.keys| then n else |c.keys|
    ensures NonIncreasing(r)
    ensures forall i :: 0 <= i < |r| ==> r[i].0 in c.keys && r[i].1 == Get(c, r[i].0)
  {
    var m := if n < |c.keys| then n else |c.keys|;
    SortedItemsFromCounter(c);
    SortByCount(Items(c))[..m]
  }

  /** The pairs `most_common(n)` leaves out have counts no larger than any it returns. */
  lemma MostCommonIsTop(c: Counter, n: nat, k: string)
    requires k in c.keys && (k, Get(c, k)) !in MostCommon(c, n)
    ensures forall i :: 0 <= i < |MostCommon(c, n)| ==> Get(c, k) <= MostCommon(c, n)[i].1
  {
    var sorted := SortByCount(Items(c));
    var m :| 0 <= m < |c.keys| && c.keys[m] == k;
    assert Items(c)[m] == (k, Get(c, k));
    assert (k, Get(c, k)) in multiset(sorted);
    var j :| 0 <= j < |sorted| && sorted[j] == (k, Get(c, k));
    assert j >= |MostCommon(c, n)|;
  }

  /** The first pair with count `v` is preceded only by pairs of other counts. */
  lemma {:induction false} WithCountFirst(ps: seq<SkillCount>, v: nat)
    requires WithCount(ps, v) != []
    ensures exists m :: (0 <= m < |ps| && ps[m] == WithCount(ps, v)[0]
                         && ps[m].1 == v && forall i :: 0 <= i < m ==> ps[i].1 != v)
  {
    if ps[0].1 == v {
      assert ps[0] == WithCount(ps, v)[0];
    } else {
      WithCountFirst(ps[1..], v);
      var m :| 0 <= m < |ps[1..]| && ps[1..][m] == WithCount(ps[1..], v)[0]
        && ps[1..][m].1 == v && forall i :: 0 <= i < m ==> ps[1..][i].1 != v;
      assert ps[m + 1] == WithCount(ps, v)[0];
      forall i | 0 <= i < m + 1 ensures ps[i].1 != v {
        if i > 0 { assert ps[i] == ps[1..][i - 1]; }
      }
    }
  }

  /** The head of the sorted items has the largest count. */
  lemma SortedHeadIsMaximal(c: Counter)
    requires |c.keys| > 0
    ensures forall i :: 0 <= i < |c.keys| ==> Get(c, c.keys[i]) <= SortByCount(Items(c))[0].1
  {
    var items := Items(c);
    var sorted := SortByCount(items);
    forall i | 0 <= i < |c.keys| ensures Get(c, c.keys[i]) <= sorted[0].1 {
      assert items[i] in multiset(sorted);
      var j :| 0 <= j < |sorted| && sorted[j] == items[i];
    }
  }

  /** The head of the sorted items is the first item with its count. */
  lemma SortedHeadIsFirst(c: Counter)
    requires |c.keys| > 0
    ensures exists m :: (0 <= m < |c.keys| && SortByCount(Items(c))[0] == (c.keys[m], Get(c, c.keys[m]))
                         && forall i :: 0 <= i < m ==> Get(c, c.keys[i]) != Get(c, c.keys[m]))
  {
    var items := Items(c);
    var sorted := SortByCount(items);
    var top := sorted[0];
    SortStable(items, top.1);
    assert WithCount(sorted, top.1)[0] == top;
    WithCountFirst(items, top.1);
  }

  /** `most_common(1)[0]` of a non-empty counter has the largest count, and
      among the keys with that count it is the one inserted first. */
  lemma MostCommonFirst(c: Counter)
    requires |c.keys| > 0
    ensures exists m :: (0 <= m < |c.keys| && MostCommon(c, 1)[0] == (c.keys[m], Get(c, c.keys[m]))
                         && forall i :: 0 <= i < m ==> Get(c, c.keys[i]) < Get(c, c.keys[m]))
    ensures forall i :: 0 <= i < |c.keys| ==> Get(c, c.keys[i]) <= MostCommon(c, 1)[0].1
  {
    var top := SortByCount(Items(c))[0];
    assert MostCommon(c, 1)[0] == top;
    SortedHeadIsMaximal(c);
    SortedHeadIsFirst(c);
  }

  /** Sum of the counts. */
  function Total(ps: seq<SkillCount>): nat {
    if ps == [] then 0 else ps[0].1 + Total(ps[1..])
  }

  lemma {:induction false} TotalConcat(a: seq<SkillCount>, b: seq<SkillCount>)
    ensures Total(a + b) == Total(a) + Total(b)
  {
    if a == [] {
      assert a + b == b;
    } else {
      assert (a + b)[0] == a[0] && (a + b)[1..] == a[1..] + b;
      TotalConcat(a[1..], b);
    }
  }

  /** Raising one count by one raises the sum by one. */
  lemma {:induction false} TotalBump(ps: seq<SkillCount>, qs: seq<SkillCount>, m: nat)
    requires |ps| == |qs| && m < |ps|
    requires forall i :: 0 <= i < |ps| && i != m ==> qs[i].1 == ps[i].1
    requires qs[m].1 == ps[m].1 + 1
    ensures Total(qs) == Total(ps) + 1
  {
    if m == 0 {
      TotalSame(ps[1..], qs[1..]);
    } else {
      TotalBump(ps[1..], qs[1..], m - 1);
    }
  }

  lemma {:induction false} TotalSame(ps: seq<SkillCount>, qs: seq<SkillCount>)
    requires |ps| == |qs|
    requires forall i :: 0 <= i < |ps| ==> qs[i].1 == ps[i].1
    ensures Total(qs) == Total(ps)
  {
    if ps != [] {
      TotalSame(ps[1..], qs[1..]);
    }
  }

  /** Incrementing a key already present raises its pair's count only. */
  lemma TotalAddPresent(c: Counter, k: string, m: nat)
    requires WellFormed(c) && m < |c.keys| && c.keys[m] == k
    ensures Total(Items(Add(c, k))) == Total(Items(c)) + 1
  {
    var r := Add(c, k);
    assert r.keys == c.keys;
    forall i | 0 <= i < |c.keys| && i != m
      ensures Items(r)[i].1 == Items(c)[i].1
    {
      assert c.keys[i] != k;
    }
    TotalBump(Items(c), Items(r), m);
  }

  /** Incrementing a new key keeps the existing pairs' counts. */
  lemma AbsentKeepsFront(c: Counter, k: string)
    requires WellFormed(c) && k !in c.keys
    ensures Total(Items(Add(c, k))[..|c.keys|]) == Total(Items(c))
  {
    var r := Add(c, k);
    var front := Items(r)[..|c.keys|];
    assert r.keys == c.keys + [k];
    forall i | 0 <= i < |c.keys|
      ensures front[i].1 == Items(c)[i].1
    {
      assert c.keys[i] != k;
    }
    TotalSame(Items(c), front);
  }

  /** Incrementing a new key appends the pair `(k, 1)`. */
  lemma AbsentAppendsOne(c: Counter, k: string)
    requires WellFormed(c) && k !in c.keys
    ensures Items(Add(c, k)) == Items(Add(c, k))[..|c.keys|] + [(k, 1)]
  {
    assert Add(c, k).keys == c.keys + [k];
    assert k !in c.counts;
  }

  lemma TotalAddAbsent(c: Counter, k: string)
    requires WellFormed(c) && k !in c.keys
    ensures Total(Items(Add(c, k))) == Total(Items(c)) + 1
  {
    var front := Items(Add(c, k))[..|c.keys|];
    AbsentKeepsFront(c, k);
    AbsentAppendsOne(c, k);
    TotalConcat(front, [(k, 1)]);
  }

  /** `sum(counter.values())` rises by one with each increment. */
  lemma TotalAdd(c: Counter, k: string)
    requires WellFormed(c)
    ensures Total(Items(Add(c, k))) == Total(Items(c)) + 1
  {
    if k in c.keys {
      var m :| 0 <= m < |c.keys| && c.keys[m] == k;
      TotalAddPresent(c, k, m);
    } else {
      TotalAddAbsent(c, k);
    }
  }

  /** A run of increments raises the sum by its length. */
  lemma {:induction false} TotalAddAll(c: Counter, ks: seq<string>)
    requires WellFormed(c)
    ensures Total(Items(AddAll(c, ks))) == Total(Items(c)) + |ks|
    decreases |ks|
  {
    if ks != [] {
      TotalAdd(c, ks[0]);
      TotalAddAll(Add(c, ks[0]), ks[1..]);
    }
  }
}
