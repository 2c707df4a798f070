/**
 Stable sorting and window counting over sequences: what Python's `sorted` promises,
 and the naive definition of how many instants fall in a half-open window.
 */
module Sequences {

  datatype Option<+T> = None | Some(value: T)

  /** Some element of a set, as a loop over a set or dictionary picks its next one. */
  method PickOne<T>(s: set<T>) returns (x: T)
    requires s != {}
    ensures x in s
  {
    x :| x in s;
  }

  lemma SomeMember<T>(s: set<T>) returns (x: T)
    requires s != {}
    ensures x in s
  {
    x :| x in s;
  }

  lemma SameMap<V>(a: map<int, V>, b: map<int, V>)
    requires a.Keys == b.Keys && forall k :: k in a ==> a[k] == b[k]
    ensures a == b
  {
    forall k | k in a.Keys ensures a[k] == b[k] {
    }
  }

  // ---------------------------------------------------------------------------
  // Stable sort by a pair of integers, compared lexicographically
  // ---------------------------------------------------------------------------

  type SortKey = (int, int)

  predicate Leq(a: SortKey, b: SortKey) {
    a.0 < b.0 || (a.0 == b.0 && a.1 <= b.1)
  }

  ghost predicate SortedBy<T>(s: seq<T>, key: T -> SortKey) {
    forall i, j :: 0 <= i < j < |s| ==> Leq(key(s[i]), key(s[j]))
  }

  /** Where `x` goes: after every element whose key is not larger. */
  function Slot<T>(s: seq<T>, key: T -> SortKey, x: T): (p: nat)
    requires SortedBy(s, key)
    ensures p <= |s|
    ensures forall i :: 0 <= i < p ==> Leq(key(s[i]), key(x))
    ensures forall i :: p <= i < |s| ==> !Leq(key(s[i]), key(x))
  {
    if s == [] || Leq(key(s[|s| - 1]), key(x)) then |s|
    else Slot(s[..|s| - 1], key, x)
  }

  function InsertBy<T>(s: seq<T>, key: T -> SortKey, x: T): (r: seq<T>)
    requires SortedBy(s, key)
    ensures multiset(r) == multiset(s) + multiset{x}
    ensures |r| == |s| + 1
    ensures SortedBy(r, key)
  {
    var p := Slot(s, key, x);
    InsertKeepsOrder(s, key, x, p);
    InsertAdds(s, x, p);
    s[..p] + [x] + s[p..]
  }

  lemma InsertKeepsOrder<T>(s: seq<T>, key: T -> SortKey, x: T, p: nat)
    requires SortedBy(s, key) && p <= |s|
    requires forall i :: 0 <= i < p ==> Leq(key(s[i]), key(x))
    requires forall i :: p <= i < |s| ==> !Leq(key(s[i]), key(x))
    ensures SortedBy(s[..p] + [x] + s[p..], key)
  {
    var r := s[..p] + [x] + s[p..];
    forall i, j | 0 <= i < j < |r| ensures Leq(key(r[i]), key(r[j])) {
      assert r[i] == if i < p then s[i] else if i == p then x else s[i - 1];
      assert r[j] == if j < p then s[j] else if j == p then x else s[j - 1];
    }
  }

  lemma InsertAdds<T>(s: seq<T>, x: T, p: nat)
    requires p <= |s|
    ensures multiset(s[..p] + [x] + s[p..]) == multiset(s) + multiset{x}
  {
    assert s == s[..p] + s[p..];
  }

  /** A permutation of `s` in non-decreasing key order, equal keys in their given order. */
  function SortBy<T>(s: seq<T>, key: T -> SortKey): (r: seq<T>)
    ensures multiset(r) == multiset(s)
    ensures |r| == |s|
    ensures SortedBy(r, key)
  {
    if s == [] then []
    else
      assert s == s[..|s| - 1] + [s[|s| - 1]];
      InsertBy(SortBy(s[..|s| - 1], key), key, s[|s| - 1])
  }

  lemma SameMembers<T>(a: seq<T>, b: seq<T>)
    requires multiset(a) == multiset(b)
    ensures forall x :: x in a <==> x in b
  {
    forall x ensures x in a <==> x in b {
      assert x in a <==> x in multiset(a);
      assert x in b <==> x in multiset(b);
    }
  }

  ghost predicate Distinct<T>(s: seq<T>) {
    forall i, j :: 0 <= i < j < |s| ==> s[i] != s[j]
  }

  lemma {:induction false} DistinctCounts<T>(s: seq<T>, x: T)
    requires Distinct(s)
    ensures multiset(s)[x] <= 1
  {
    if s != [] {
      var n := |s| - 1;
      DistinctCounts(s[..n], x);
      assert s == s[..n] + [s[n]];
      if x == s[n] {
        assert x !in s[..n];
        assert x !in multiset(s[..n]);
      }
    }
  }

  lemma DistinctPermutes<T>(a: seq<T>, b: seq<T>)
    requires Distinct(a) && multiset(a) == multiset(b)
    ensures Distinct(b)
  {
    forall i, j | 0 <= i < j < |b| ensures b[i] != b[j] {
      DistinctCounts(a, b[i]);
      assert b == b[..j] + [b[j]] + b[j + 1..];
      assert b[i] in b[..j];
      assert multiset(b) == multiset(b[..j]) + multiset{b[j]} + multiset(b[j + 1..]);
    }
  }

  function Map<S, T>(s: seq<S>, f: S -> T): (r: seq<T>)
    ensures |r| == |s|
    ensures forall i :: 0 <= i < |s| ==> r[i] == f(s[i])
  {
    seq(|s|, i requires 0 <= i < |s| => f(s[i]))
  }

  lemma {:induction false} MapPermutes<S, T>(a: seq<S>, b: seq<S>, f: S -> T)
    requires multiset(a) == multiset(b)
    ensures multiset(Map(a, f)) == multiset(Map(b, f))
    decreases |a|
  {
    if a == [] {
      assert |multiset(b)| == 0;
    } else {
      var k := IndexOfLast(a, b);
      SameRest(a, b, k);
      MapPermutes(a[..|a| - 1], b[..k] + b[k + 1..], f);
      MapWithout(b, k, f);
      assert Map(a, f) == Map(a[..|a| - 1], f) + [f(b[k])];
    }
  }

  lemma MapWithout<S, T>(b: seq<S>, k: nat, f: S -> T)
    requires k < |b|
    ensures multiset(Map(b, f)) == multiset(Map(b[..k] + b[k + 1..], f)) + multiset{f(b[k])}
  {
    var s := Map(b, f);
    assert s == s[..k] + [s[k]] + s[k + 1..];
    assert Map(b[..k] + b[k + 1..], f) == s[..k] + s[k + 1..];
  }

  // ---------------------------------------------------------------------------
  // Selecting: the comprehension `[f(x) for x in s if f applies]`
  // ---------------------------------------------------------------------------

  function Pick<T>(o: Option<T>): (r: seq<T>) {
    if o.Some? then [o.value] else []
  }

  function Select<S, T>(s: seq<S>, f: S -> Option<T>): (r: seq<T>)
    ensures |r| <= |s|
  {
    if s == [] then [] else Select(s[..|s| - 1], f) + Pick(f(s[|s| - 1]))
  }

  lemma {:induction false} SelectAppend<S, T>(a: seq<S>, b: seq<S>, f: S -> Option<T>)
    ensures Select(a + b, f) == Select(a, f) + Select(b, f)
  {
    if b == [] {
      assert a + b == a;
    } else {
      var n := |b| - 1;
      SelectAppend(a, b[..n], f);
      SelectLast(a, b, f);
      Reassociate(Select(a, f), Select(b[..n], f), Pick(f(b[n])));
    }
  }

  lemma SelectLast<S, T>(a: seq<S>, b: seq<S>, f: S -> Option<T>)
    requires b != []
    ensures Select(a + b, f) == Select(a + b[..|b| - 1], f) + Pick(f(b[|b| - 1]))
  {
    assert (a + b)[..|a + b| - 1] == a + b[..|b| - 1];
  }

  lemma Reassociate<T>(x: seq<T>, y: seq<T>, z: seq<T>)
    ensures x + y + z == x + (y + z)
  {
  }

  lemma AppendAssociates<T>(x: seq<T>, y: seq<T>, z: seq<T>)
    ensures x + y + z == x + (y + z)
    ensures multiset(x + (y + z)) == multiset(x + z) + multiset(y)
  {
  }

  lemma SelectSingle<S, T>(x: S, f: S -> Option<T>)
    ensures Select([x], f) == Pick(f(x))
  {
    assert [x][..0] == [];
  }

  lemma SelectMiddle<S, T>(p: seq<S>, x: S, q: seq<S>, f: S -> Option<T>)
    ensures multiset(Select(p + ([x] + q), f)) == multiset(Select(p + q, f)) + multiset(Pick(f(x)))
  {
    SelectAppend(p, [x] + q, f);
    SelectAppend([x], q, f);
    SelectAppend(p, q, f);
    SelectSingle(x, f);
    AppendAssociates(Select(p, f), Pick(f(x)), Select(q, f));
  }

  lemma SelectWithout<S, T>(b: seq<S>, k: nat, f: S -> Option<T>)
    requires k < |b|
    ensures multiset(Select(b, f)) == multiset(Select(b[..k] + b[k + 1..], f)) + multiset(Pick(f(b[k])))
  {
    SplitAt(b, k);
    SelectMiddle(b[..k], b[k], b[k + 1..], f);
  }

  lemma SplitAt<T>(b: seq<T>, k: nat)
    requires k < |b|
    ensures b == b[..k] + ([b[k]] + b[k + 1..])
  {
  }

  lemma {:induction false} SelectPermutes<S, T>(a: seq<S>, b: seq<S>, f: S -> Option<T>)
    requires multiset(a) == multiset(b)
    ensures multiset(Select(a, f)) == multiset(Select(b, f))
    decreases |a|
  {
    if a == [] {
      assert |multiset(b)| == 0;
    } else {
      var k := IndexOfLast(a, b);
      SameRest(a, b, k);
      SelectPermutes(a[..|a| - 1], b[..k] + b[k + 1..], f);
      SelectWithout(b, k, f);
    }
  }

  lemma {:induction false} SelectAgrees<S, T>(a: seq<S>, b: seq<S>, f: S -> Option<T>)
    requires |a| == |b| && forall i :: 0 <= i < |a| ==> f(a[i]) == f(b[i])
    ensures Select(a, f) == Select(b, f)
  {
    if a != [] {
      SelectAgrees(a[..|a| - 1], b[..|b| - 1], f);
    }
  }

  lemma {:induction false} SelectNothing<S, T>(s: seq<S>, f: S -> Option<T>)
    requires forall i :: 0 <= i < |s| ==> f(s[i]) == None
    ensures Select(s, f) == []
  {
    if s != [] {
      SelectNothing(s[..|s| - 1], f);
    }
  }

  /** The indices below `n` at which `f` applies, in order. */
  function Indices<S, T>(s: seq<S>, f: S -> Option<T>, n: nat): (r: seq<int>)
    requires n <= |s|
  {
    if n == 0 then [] else Indices(s, f, n - 1) + if f(s[n - 1]).Some? then [n - 1] else []
  }

  lemma {:induction false} IndicesMembers<S, T>(s: seq<S>, f: S -> Option<T>, n: nat)
    requires n <= |s|
    ensures forall i :: i in Indices(s, f, n) <==> 0 <= i < n && f(s[i]).Some?
    ensures Distinct(Indices(s, f, n))
  {
    if n > 0 {
      IndicesMembers(s, f, n - 1);
    }
  }

  lemma {:induction false} IndicesEmpty<S, T>(s: seq<S>, f: S -> Option<T>, n: nat)
    requires n <= |s| && forall i :: 0 <= i < n ==> f(s[i]) == None
    ensures Indices(s, f, n) == []
  {
    if n > 0 {
      IndicesEmpty(s, f, n - 1);
    }
  }

  /** Selecting values and selecting indices visit the same elements. */
  lemma {:induction false} SelectByIndices<S, T>(s: seq<S>, f: S -> Option<T>, g: int -> T, n: nat)
    requires n <= |s| && forall i :: 0 <= i < n && f(s[i]).Some? ==> g(i) == f(s[i]).value
    ensures Map(Indices(s, f, n), g) == Select(s[..n], f)
  {
    if n > 0 {
      SelectByIndices(s, f, g, n - 1);
      assert s[..n][..n - 1] == s[..n - 1];
    }
  }

  // ---------------------------------------------------------------------------
  // Occurrences
  // ---------------------------------------------------------------------------

  lemma CountLast<T>(s: seq<T>, t: T)
    requires s != []
    ensures multiset(s)[t] == multiset(s[..|s| - 1])[t] + if s[|s| - 1] == t then 1 else 0
  {
    assert s == s[..|s| - 1] + [s[|s| - 1]];
  }

  function Excluding<T(==)>(s: seq<T>, t: T): (r: seq<T>) {
    if s == [] then []
    else Excluding(s[..|s| - 1], t) + if s[|s| - 1] == t then [] else [s[|s| - 1]]
  }

  lemma {:induction false} ExcludingCounts<T>(s: seq<T>, t: T, u: T)
    ensures multiset(Excluding(s, t))[u] == if u == t then 0 else multiset(s)[u]
    ensures |Excluding(s, t)| == |s| - multiset(s)[t]
  {
    if s != [] {
      ExcludingCounts(s[..|s| - 1], t, u);
      CountLast(s, t);
      CountLast(s, u);
    }
  }

  // ---------------------------------------------------------------------------
  // Sums
  // ---------------------------------------------------------------------------

  function SumBy<T>(s: seq<T>, f: T -> int): (r: int) {
    if s == [] then 0 else SumBy(s[..|s| - 1], f) + f(s[|s| - 1])
  }

  lemma {:induction false} SumAppend<T>(a: seq<T>, b: seq<T>, f: T -> int)
    ensures SumBy(a + b, f) == SumBy(a, f) + SumBy(b, f)
  {
    if b == [] {
      assert a + b == a;
    } else {
      SumAppend(a, b[..|b| - 1], f);
      assert (a + b)[..|a + b| - 1] == a + b[..|b| - 1];
    }
  }

  lemma SumSingle<T>(x: T, f: T -> int)
    ensures SumBy([x], f) == f(x)
  {
    assert [x][..0] == [];
  }

  lemma SumFirst<T>(s: seq<T>, f: T -> int)
    requires s != []
    ensures SumBy(s, f) == f(s[0]) + SumBy(s[1..], f)
  {
    assert s == [s[0]] + s[1..];
    SumAppend([s[0]], s[1..], f);
    SumSingle(s[0], f);
  }

  lemma SumWithout<T>(s: seq<T>, k: nat, f: T -> int)
    requires k < |s|
    ensures SumBy(s, f) == SumBy(s[..k] + s[k + 1..], f) + f(s[k])
  {
    SplitAt(s, k);
    SumAppend(s[..k], [s[k]] + s[k + 1..], f);
    SumAppend([s[k]], s[k + 1..], f);
    SumSingle(s[k], f);
    SumAppend(s[..k], s[k + 1..], f);
  }

  lemma {:induction false} SumPermutes<T>(a: seq<T>, b: seq<T>, f: T -> int)
    requires multiset(a) == multiset(b)
    ensures SumBy(a, f) == SumBy(b, f)
    decreases |a|
  {
    if a == [] {
      assert |multiset(b)| == 0;
    } else {
      var k := IndexOfLast(a, b);
      SameRest(a, b, k);
      SumPermutes(a[..|a| - 1], b[..k] + b[k + 1..], f);
      SumWithout(b, k, f);
    }
  }

  lemma {:induction false} SumAgrees<T>(s: seq<T>, f: T -> int, g: T -> int)
    requires forall i :: 0 <= i < |s| ==> f(s[i]) == g(s[i])
    ensures SumBy(s, f) == SumBy(s, g)
  {
    if s != [] {
      SumAgrees(s[..|s| - 1], f, g);
    }
  }

  lemma {:induction false} SumNonNegative<T>(s: seq<T>, f: T -> int)
    requires forall i :: 0 <= i < |s| ==> f(s[i]) >= 0
    ensures SumBy(s, f) >= 0
  {
    if s != [] {
      SumNonNegative(s[..|s| - 1], f);
    }
  }

  // ---------------------------------------------------------------------------
  // Tallies
  // ---------------------------------------------------------------------------

  /** How many positions below `n` are hits. */
  function Tally(n: nat, hit: int -> bool): (r: nat) {
    if n == 0 then 0 else Tally(n - 1, hit) + if hit(n - 1) then 1 else 0
  }

  lemma {:induction false} TallyIsSize(n: nat, hit: int -> bool, s: set<int>)
    requires forall i :: i in s <==> 0 <= i < n && hit(i)
    ensures |s| == Tally(n, hit)
  {
    if n == 0 {
      if s != {} {
        var i := SomeMember(s);
      }
    } else {
      TallyIsSize(n - 1, hit, s - {n - 1});
    }
  }

  /** A count that starts at 0 and grows by one at every hit. */
  ghost predicate Grows(n: nat, count: int -> int, hit: int -> bool) {
    count(0) == 0 && forall k :: 0 <= k < n ==> GrowsAt(k, count, hit)
  }

  predicate GrowsAt(k: int, count: int -> int, hit: int -> bool) {
    count(k + 1) == count(k) + if hit(k) then 1 else 0
  }

  lemma {:induction false} CountIsTally(n: nat, count: int -> int, hit: int -> bool)
    requires Grows(n, count, hit)
    ensures count(n) == Tally(n, hit)
  {
    if n > 0 {
      CountIsTally(n - 1, count, hit);
      assert GrowsAt(n - 1, count, hit);
    }
  }

  // ---------------------------------------------------------------------------
  // Counting instants in a window
  // ---------------------------------------------------------------------------

  /** How many of `times` lie in [start, start + width). */
  function InWindow(times: seq<int>, start: int, width: int): (n: nat)
    ensures n <= |times|
  {
    if times == [] then 0
    else InWindow(times[..|times| - 1], start, width) + Hit(times[|times| - 1], start, width)
  }

  function Hit(t: int, start: int, width: int): (n: nat)
    ensures n <= 1
  {
    if start <= t < start + width then 1 else 0
  }

  lemma {:induction false} InWindowAppend(a: seq<int>, b: seq<int>, start: int, width: int)
    ensures InWindow(a + b, start, width) == InWindow(a, start, width) + InWindow(b, start, width)
  {
    if b == [] {
      assert a + b == a;
    } else {
      InWindowAppend(a, b[..|b| - 1], start, width);
      assert (a + b)[..|a + b| - 1] == a + b[..|b| - 1];
    }
  }

  lemma InWindowSplit(s: seq<int>, i: nat, start: int, width: int)
    requires i <= |s|
    ensures InWindow(s, start, width) == InWindow(s[..i], start, width) + InWindow(s[i..], start, width)
  {
    assert s == s[..i] + s[i..];
    InWindowAppend(s[..i], s[i..], start, width);
  }

  lemma InWindowSingle(x: int, start: int, width: int)
    ensures InWindow([x], start, width) == Hit(x, start, width)
  {
    assert [x][..0] == [];
  }

  /** The count depends on the instants, not on their order. */
  lemma {:induction false} InWindowPermutes(a: seq<int>, b: seq<int>, start: int, width: int)
    requires multiset(a) == multiset(b)
    ensures InWindow(a, start, width) == InWindow(b, start, width)
    decreases |a|
  {
    if a == [] {
      assert |multiset(b)| == 0;
    } else {
      var k := IndexOfLast(a, b);
      SameRest(a, b, k);
      InWindowPermutes(a[..|a| - 1], b[..k] + b[k + 1..], start, width);
      InWindowWithout(b, k, start, width);
    }
  }

  lemma IndexOfLast<T>(a: seq<T>, b: seq<T>) returns (k: nat)
    requires multiset(a) == multiset(b) && a != []
    ensures k < |b| && b[k] == a[|a| - 1]
  {
    assert a[|a| - 1] in multiset(b);
    k :| 0 <= k < |b| && b[k] == a[|a| - 1];
  }

  lemma InWindowWithout(b: seq<int>, k: nat, start: int, width: int)
    requires k < |b|
    ensures InWindow(b, start, width)
         == InWindow(b[..k] + b[k + 1..], start, width) + Hit(b[k], start, width)
  {
    InWindowSplit(b, k, start, width);
    assert b[k..] == [b[k]] + b[k + 1..];
    InWindowAppend([b[k]], b[k + 1..], start, width);
    InWindowSingle(b[k], start, width);
    InWindowAppend(b[..k], b[k + 1..], start, width);
  }

  lemma SameRest<T>(a: seq<T>, b: seq<T>, k: nat)
    requires multiset(a) == multiset(b) && |a| > 0 && k < |b| && b[k] == a[|a| - 1]
    ensures multiset(a[..|a| - 1]) == multiset(b[..k] + b[k + 1..])
  {
    var n := |a| - 1;
    RestOf(a, n);
    RestOf(b, k);
    assert a[..n] + a[n + 1..] == a[..n];
  }

  lemma RestOf<T>(s: seq<T>, k: nat)
    requires k < |s|
    ensures multiset(s[..k] + s[k + 1..]) == multiset(s) - multiset{s[k]}
  {
    SplitAt(s, k);
    MiddleAdds(s[..k], s[k], s[k + 1..]);
  }

  lemma MiddleAdds<T>(p: seq<T>, x: T, q: seq<T>)
    ensures multiset(p + ([x] + q)) == multiset(p + q) + multiset{x}
  {
  }

  /** Moving a window's start up to the earliest instant it holds loses none of them. */
  lemma {:induction false} InWindowSlides(times: seq<int>, start: int, first: int, width: int)
    requires start <= first
    requires forall i :: 0 <= i < |times| && start <= times[i] < start + width ==> first <= times[i]
    ensures InWindow(times, start, width) <= InWindow(times, first, width)
  {
    if times != [] {
      InWindowSlides(times[..|times| - 1], start, first, width);
    }
  }

  lemma {:induction false} InWindowZero(times: seq<int>, start: int, width: int)
    requires forall i :: 0 <= i < |times| ==> !(start <= times[i] < start + width)
    ensures InWindow(times, start, width) == 0
  {
    if times != [] {
      InWindowZero(times[..|times| - 1], start, width);
    }
  }

  lemma {:induction false} InWindowAll(times: seq<int>, start: int, width: int)
    requires forall i :: 0 <= i < |times| ==> start <= times[i] < start + width
    ensures InWindow(times, start, width) == |times|
  {
    if times != [] {
      InWindowAll(times[..|times| - 1], start, width);
    }
  }

  lemma {:induction false} InWindowNone(times: seq<int>, start: int, width: int)
    requires InWindow(times, start, width) == 0
    ensures forall i :: 0 <= i < |times| ==> !(start <= times[i] < start + width)
  {
    if times != [] {
      InWindowNone(times[..|times| - 1], start, width);
      assert forall i :: 0 <= i < |times| - 1 ==> times[..|times| - 1][i] == times[i];
    }
  }

  /** A window that is not empty has an earliest instant. */
  lemma {:induction false} InWindowFirst(times: seq<int>, start: int, width: int) returns (k: nat)
    requires InWindow(times, start, width) > 0
    ensures k < |times| && start <= times[k] < start + width
    ensures forall i :: 0 <= i < |times| && start <= times[i] < start + width ==> times[k] <= times[i]
  {
    var last := |times| - 1;
    assert forall i :: 0 <= i < last ==> times[..last][i] == times[i];
    if InWindow(times[..last], start, width) == 0 {
      k := last;
      InWindowNone(times[..last], start, width);
    } else {
      k := InWindowFirst(times[..last], start, width);
      if start <= times[last] < times[k] { k := last; }
    }
  }

  ghost predicate Sorted(s: seq<int>) {
    forall i, j :: 0 <= i < j < |s| ==> s[i] <= s[j]
  }

  /** Sorted instants before the window's start can be dropped. */
  lemma InWindowDropBefore(s: seq<int>, i: nat, start: int, width: int)
    requires Sorted(s) && i <= |s|
    requires i > 0 ==> s[i - 1] < start
    ensures InWindow(s, start, width) == InWindow(s[i..], start, width)
  {
    InWindowSplit(s, i, start, width);
    InWindowZero(s[..i], start, width);
  }

  lemma InWindowHead(s: seq<int>, n: nat, start: int, width: int)
    requires Sorted(s) && n <= |s|
    requires n > 0 ==> start <= s[0] && s[n - 1] < start + width
    requires n < |s| ==> start + width <= s[n]
    ensures InWindow(s, start, width) == n
  {
    InWindowSplit(s, n, start, width);
    InWindowAll(s[..n], start, width);
    InWindowZero(s[n..], start, width);
  }

  lemma InWindowSlice(s: seq<int>, i: nat, j: nat, start: int, width: int)
    requires Sorted(s) && i < j <= |s| && start <= s[i] && s[j - 1] < start + width
    ensures InWindow(s[i..j], start, width) == j - i
  {
    InWindowAll(s[i..j], start, width);
  }

  /** More than `k` sorted instants in a window are k+1 neighbours. */
  lemma {:induction false} WindowHoldsRun(s: seq<int>, start: int, width: int, k: nat) returns (i: nat)
    requires Sorted(s) && InWindow(s, start, width) > k
    ensures i + k < |s| && start <= s[i] && s[i + k] < start + width
  {
    var last := |s| - 1;
    if InWindow(s[..last], start, width) > k {
      i := WindowHoldsRun(s[..last], start, width, k);
    } else {
      i := last - k;
      InWindowTail(s, i, start, width);
    }
  }

  lemma InWindowTail(s: seq<int>, i: nat, start: int, width: int)
    requires Sorted(s) && i < |s|
    ensures s[i] < start ==> InWindow(s, start, width) <= |s| - 1 - i
  {
    if s[i] < start {
      InWindowDropBefore(s, i + 1, start, width);
    }
  }
}
