/**
 Picking an A/B variant: a recipient's bucket against the cumulative weights of a traffic split.
 Variants are ordered by their id; the hash is any function.
 */
module Assignment {
  import opened Sequences

  datatype Result<T> = Ok(value: T) | Misconfigured

  /** One entry of a split: a variant and its weight. */
  datatype Share = Share(variant: int, weight: int)

  /** A dictionary in insertion order. */
  type Split = seq<Share>

  datatype RawWeight = Number(value: int) | NotANumber

  datatype RawShare = RawShare(variant: int, weight: RawWeight)

  datatype RawSplit = NotAnObject | Object(shares: seq<RawShare>)

  function Weight(): Share -> int {
    (s: Share) => s.weight
  }

  function Total(split: Split): (r: int) {
    SumBy(split, Weight())
  }

  /** The weight of the variants that sort before `v`. */
  function Below(split: Split, v: int): (r: int) {
    SumBy(split, (s: Share) => if s.variant < v then s.weight else 0)
  }

  /** The weight of `v`, zero if it is not in the split. */
  function WeightOf(split: Split, v: int): (r: int) {
    SumBy(split, (s: Share) => if s.variant == v then s.weight else 0)
  }

  ghost predicate DistinctVariants(split: Split) {
    forall i, j :: 0 <= i < j < |split| ==> split[i].variant != split[j].variant
  }

  ghost predicate Ascending(split: Split) {
    forall i, j :: 0 <= i < j < |split| ==> split[i].variant < split[j].variant
  }

  predicate NonNegative(split: Split) {
    forall i :: 0 <= i < |split| ==> split[i].weight >= 0
  }

  function ByVariant(): Share -> SortKey {
    (s: Share) => (s.variant, s.weight)
  }

  function SortedShares(split: Split): (r: Split) {
    SortBy(split, ByVariant())
  }

  /** The first share, in order, whose cumulative weight passes the bucket. */
  function Choose(shares: Split, bucket: int): (v: int)
    requires 0 <= bucket < Total(shares)
    ensures exists i :: 0 <= i < |shares| && shares[i].variant == v
  {
    SumFirst(shares, Weight());
    if bucket < shares[0].weight then shares[0].variant
    else
      var v := Choose(shares[1..], bucket - shares[0].weight);
      assert exists i :: 0 <= i < |shares[1..]| && shares[1..][i].variant == v;
      v
  }

  function PickVariant(split: Split, hash: nat): (r: Result<int>) {
    if split == [] || Total(split) <= 0 then Misconfigured
    else
      SumPermutes(SortedShares(split), split, Weight());
      Ok(Choose(SortedShares(split), hash % Total(split)))
  }

  /** The cumulative loop, which always returns: the total passes every bucket. */
  method PickVariantIndex(split: Split, hash: nat) returns (r: Result<int>)
    ensures r == PickVariant(split, hash)
  {
    if split == [] { return Misconfigured; }
    var total := Total(split);
    if total <= 0 { return Misconfigured; }
    var bucket := hash % total;
    var shares := SortedShares(split);
    SumPermutes(shares, split, Weight());
    var cumulative := 0;
    assert shares[0..] == shares;
    for n := 0 to |shares|
      invariant cumulative <= bucket
      invariant bucket - cumulative < Total(shares[n..])
      invariant Choose(shares[n..], bucket - cumulative) == Choose(shares, bucket)
    {
      SumFirst(shares[n..], Weight());
      assert shares[n..][1..] == shares[n + 1..];
      cumulative := cumulative + shares[n].weight;
      if bucket < cumulative {
        return Ok(shares[n].variant);
      }
    }
    r := Misconfigured;
    assert false;
  }

  // ---------------------------------------------------------------------------
  // Exact shares
  // ---------------------------------------------------------------------------

  /** In ascending order a variant owns the buckets between two cumulative weights. */
  lemma {:induction false} ChooseIsInterval(shares: Split, bucket: int, i: nat)
    requires Ascending(shares) && NonNegative(shares) && 0 <= bucket < Total(shares) && i < |shares|
    ensures Choose(shares, bucket) == shares[i].variant
       <==> Total(shares[..i]) <= bucket < Total(shares[..i]) + shares[i].weight
    decreases |shares|
  {
    SumFirst(shares, Weight());
    if i > 0 {
      var rest := shares[1..];
      SumFirst(shares[..i], Weight());
      assert shares[..i][1..] == rest[..i - 1];
      SumNonNegative(rest[..i - 1], Weight());
      if shares[0].weight <= bucket {
        ChooseIsInterval(rest, bucket - shares[0].weight, i - 1);
      }
    }
  }

  lemma BelowIsPrefix(shares: Split, i: nat)
    requires Ascending(shares) && i < |shares|
    ensures Below(shares, shares[i].variant) == Total(shares[..i])
  {
    var v := shares[i].variant;
    var below := (s: Share) => if s.variant < v then s.weight else 0;
    assert shares == shares[..i] + shares[i..];
    SumAppend(shares[..i], shares[i..], below);
    SumAgrees(shares[..i], below, Weight());
    SumAgrees(shares[i..], below, (s: Share) => 0);
    SumZero(shares[i..]);
  }

  lemma WeightIsOwn(shares: Split, i: nat)
    requires Ascending(shares) && i < |shares|
    ensures WeightOf(shares, shares[i].variant) == shares[i].weight
  {
    var v := shares[i].variant;
    var own := (s: Share) => if s.variant == v then s.weight else 0;
    var others := shares[..i] + shares[i + 1..];
    SumWithout(shares, i, own);
    forall k | 0 <= k < |others| ensures others[k].variant != v {
      assert others[k] == if k < i then shares[k] else shares[k + 1];
    }
    SumAgrees(others, own, (s: Share) => 0);
    SumZero(others);
  }

  lemma {:induction false} SumZero(s: Split)
    ensures SumBy(s, (x: Share) => 0) == 0
  {
    if s != [] { SumZero(s[..|s| - 1]); }
  }

  /** Sorting by variant is strict when the variants are distinct. */
  lemma SortedAscends(split: Split)
    requires DistinctVariants(split)
    ensures Ascending(SortedShares(split)) && multiset(SortedShares(split)) == multiset(split)
  {
    var shares, variant := SortedShares(split), (s: Share) => s.variant;
    MapPermutes(split, shares, variant);
    DistinctPermutes(Map(split, variant), Map(shares, variant));
    forall i, j | 0 <= i < j < |shares| ensures shares[i].variant < shares[j].variant {
      assert Leq(ByVariant()(shares[i]), ByVariant()(shares[j]));
      assert Map(shares, variant)[i] != Map(shares, variant)[j];
    }
  }

  /**
   What a pick means, whatever the order of the dictionary: with weights that are not negative,
   bucket `b` goes to variant `v` exactly when it lies in the `WeightOf(v)` buckets that follow
   those of the smaller variants.
   */
  lemma PickIsInterval(split: Split, hash: nat, v: int)
    requires DistinctVariants(split) && NonNegative(split) && Total(split) > 0
    ensures var b := hash % Total(split);
      PickVariant(split, hash) == Ok(v) <==> Below(split, v) <= b < Below(split, v) + WeightOf(split, v)
  {
    var shares, b := SortedShares(split), hash % Total(split);
    SortedAscends(split);
    SumPermutes(shares, split, Weight());
    SumPermutes(shares, split, (s: Share) => if s.variant < v then s.weight else 0);
    SumPermutes(shares, split, (s: Share) => if s.variant == v then s.weight else 0);
    SameMembers(shares, split);
    NonNegativePermutes(split, shares);
    if i :| 0 <= i < |shares| && shares[i].variant == v {
      ChooseIsInterval(shares, b, i);
      BelowIsPrefix(shares, i);
      WeightIsOwn(shares, i);
    } else {
      AbsentWeighsNothing(shares, v);
    }
  }

  lemma NonNegativePermutes(a: Split, b: Split)
    requires NonNegative(a) && forall x :: x in b <==> x in a
    ensures NonNegative(b)
  {
    forall i | 0 <= i < |b| ensures b[i].weight >= 0 {
      assert b[i] in a;
    }
  }

  lemma AbsentWeighsNothing(shares: Split, v: int)
    requires forall i :: 0 <= i < |shares| ==> shares[i].variant != v
    ensures WeightOf(shares, v) == 0
  {
    SumAgrees(shares, (s: Share) => if s.variant == v then s.weight else 0, (s: Share) => 0);
    SumZero(shares);
  }

  /** How many of the first `n` buckets go to `v`. */
  function Buckets(split: Split, v: int, n: nat): (r: nat) {
    if n == 0 then 0 else Buckets(split, v, n - 1) + if PickVariant(split, n - 1) == Ok(v) then 1 else 0
  }

  /** Exactly `WeightOf(v)` of the `Total` buckets go to `v`. */
  lemma ExactShares(split: Split, v: int)
    requires DistinctVariants(split) && NonNegative(split) && Total(split) > 0
    ensures Buckets(split, v, Total(split)) == WeightOf(split, v)
  {
    SharesFit(split, v);
    var lo, hi := Below(split, v), Below(split, v) + WeightOf(split, v);
    forall b | 0 <= b < Total(split) ensures PickVariant(split, b) == Ok(v) <==> lo <= b < hi {
      BucketIsOwned(split, v, b);
    }
    BucketsUpTo(split, v, Total(split), lo, hi);
  }

  lemma {:induction false} BucketsUpTo(split: Split, v: int, n: nat, lo: int, hi: int)
    requires 0 <= lo <= hi && forall b :: 0 <= b < n ==> (PickVariant(split, b) == Ok(v) <==> lo <= b < hi)
    ensures Buckets(split, v, n) == if n <= lo then 0 else if n <= hi then n - lo else hi - lo
  {
    if n > 0 {
      BucketsUpTo(split, v, n - 1, lo, hi);
      assert PickVariant(split, n - 1) == Ok(v) <==> lo <= n - 1 < hi;
    }
  }

  lemma BucketIsOwned(split: Split, v: int, b: nat)
    requires DistinctVariants(split) && NonNegative(split) && b < Total(split)
    ensures PickVariant(split, b) == Ok(v) <==> Below(split, v) <= b < Below(split, v) + WeightOf(split, v)
  {
    PickIsInterval(split, b, v);
    SmallMod(b, Total(split));
  }

  lemma SmallMod(b: int, n: int)
    requires 0 <= b < n
    ensures b % n == b
  {
  }

  lemma SharesFit(split: Split, v: int)
    requires NonNegative(split)
    ensures 0 <= Below(split, v) <= Below(split, v) + WeightOf(split, v) <= Total(split)
  {
    if split != [] {
      SharesFit(split[..|split| - 1], v);
    }
  }

  /** Whatever the weights, the order of the dictionary does not matter. */
  lemma OrderIsIrrelevant(a: Split, b: Split, hash: nat)
    requires DistinctVariants(a) && multiset(a) == multiset(b)
    ensures PickVariant(a, hash) == PickVariant(b, hash)
  {
    VariantsPermute(a, b);
    SortedAscends(a);
    SortedAscends(b);
    AscendingIsUnique(SortedShares(a), SortedShares(b));
    SumPermutes(a, b, Weight());
    assert |multiset(a)| == |a| && |multiset(b)| == |b|;
  }

  lemma VariantsPermute(a: Split, b: Split)
    requires DistinctVariants(a) && multiset(a) == multiset(b)
    ensures DistinctVariants(b)
  {
    var variant := (s: Share) => s.variant;
    MapPermutes(a, b, variant);
    DistinctPermutes(Map(a, variant), Map(b, variant));
    forall i, j | 0 <= i < j < |b| ensures b[i].variant != b[j].variant {
      assert Map(b, variant)[i] != Map(b, variant)[j];
    }
  }

  lemma LargestAgree(a: Split, b: Split)
    requires Ascending(a) && Ascending(b) && multiset(a) == multiset(b) && |a| == |b| > 0
    ensures a[|a| - 1] == b[|b| - 1]
  {
    var n := |a| - 1;
    SameMembers(a, b);
    assert a[n] in b && b[n] in a;
    var k :| 0 <= k < |b| && b[k] == a[n];
    var m :| 0 <= m < |a| && a[m] == b[n];
  }

  lemma {:induction false} AscendingIsUnique(a: Split, b: Split)
    requires Ascending(a) && Ascending(b) && multiset(a) == multiset(b)
    ensures a == b
  {
    assert |a| == |multiset(a)| == |multiset(b)| == |b|;
    if a != [] {
      var n := |a| - 1;
      LargestAgree(a, b);
      SameRest(a, b, n);
      assert b[..n] + b[n + 1..] == b[..n];
      AscendingIsUnique(a[..n], b[..n]);
    }
  }

  // ---------------------------------------------------------------------------
  // Reading the stored split
  // ---------------------------------------------------------------------------

  function Positive(): RawShare -> Option<Share> {
    (s: RawShare) => if s.weight.Number? && s.weight.value > 0 then Some(Share(s.variant, s.weight.value)) else None
  }

  ghost predicate DistinctRaw(raw: RawSplit) {
    raw.Object? ==> forall i, j :: 0 <= i < j < |raw.shares| ==> raw.shares[i].variant != raw.shares[j].variant
  }

  predicate AllNumbers(raw: RawSplit) {
    raw.Object? && forall i :: 0 <= i < |raw.shares| ==> raw.shares[i].weight.Number?
  }

  /** Shares without a positive weight are dropped; anything that is not a number is refused. */
  function Coerced(raw: RawSplit): (r: Result<Split>) {
    if AllNumbers(raw) then Ok(Select(raw.shares, Positive())) else Misconfigured
  }

  method CoerceSplit(raw: RawSplit) returns (r: Result<Split>)
    ensures r == Coerced(raw)
  {
    if raw.NotAnObject? { return Misconfigured; }
    var split: Split := [];
    for n := 0 to |raw.shares|
      invariant forall i :: 0 <= i < n ==> raw.shares[i].weight.Number?
      invariant split == Select(raw.shares[..n], Positive())
    {
      var share := raw.shares[n];
      assert raw.shares[..n + 1][..n] == raw.shares[..n];
      if share.weight.NotANumber? { return Misconfigured; }
      if share.weight.value > 0 {
        split := split + [Share(share.variant, share.weight.value)];
      }
    }
    assert raw.shares[..|raw.shares|] == raw.shares;
    r := Ok(split);
  }

  ghost predicate AllPositive(split: Split) {
    forall i :: 0 <= i < |split| ==> split[i].weight > 0
  }

  /** A coerced split has positive weights on distinct variants, so it can be picked from unless it is empty. */
  lemma CoercedIsUsable(raw: RawSplit, hash: nat)
    requires DistinctRaw(raw) && Coerced(raw).Ok?
    ensures var split := Coerced(raw).value;
      && AllPositive(split) && DistinctVariants(split)
      && (PickVariant(split, hash).Ok? <==> split != [])
  {
    var split := Coerced(raw).value;
    SelectedShares(raw.shares);
    if split != [] {
      SumFirst(split, Weight());
      SumNonNegative(split[1..], Weight());
    }
  }

  lemma {:induction false} SelectedShares(shares: seq<RawShare>)
    requires forall i, j :: 0 <= i < j < |shares| ==> shares[i].variant != shares[j].variant
    ensures var split := Select(shares, Positive());
      && AllPositive(split) && DistinctVariants(split)
      && forall i :: 0 <= i < |split| ==> exists j :: 0 <= j < |shares| && shares[j].variant == split[i].variant
  {
    if shares != [] {
      var n := |shares| - 1;
      SelectedShares(shares[..n]);
      var split, before := Select(shares, Positive()), Select(shares[..n], Positive());
      forall i | 0 <= i < |split| ensures exists j :: 0 <= j < |shares| && shares[j].variant == split[i].variant {
        if i < |before| {
          var j :| 0 <= j < n && shares[..n][j].variant == before[i].variant;
          assert shares[j].variant == split[i].variant;
        } else {
          assert shares[n].variant == split[i].variant;
        }
      }
      forall i | 0 <= i < |before| ensures before[i].variant != shares[n].variant {
        var j :| 0 <= j < n && shares[..n][j].variant == before[i].variant;
        assert shares[j].variant != shares[n].variant;
      }
    }
  }

  // ---------------------------------------------------------------------------
  // From the stored split to the buckets
  // ---------------------------------------------------------------------------

  /** The stored split gives variant `v` the positive weight `w`. */
  ghost predicate Stores(raw: RawSplit, v: int, w: int) {
    raw.Object? && w > 0 && RawShare(v, Number(w)) in raw.shares
  }

  ghost predicate StoresNothing(raw: RawSplit, v: int) {
    forall w :: !Stores(raw, v, w)
  }

  function PositivePart(): RawShare -> int {
    (s: RawShare) => if s.weight.Number? && s.weight.value > 0 then s.weight.value else 0
  }

  function PositivePartOf(v: int): RawShare -> int {
    (s: RawShare) => if s.variant == v && s.weight.Number? && s.weight.value > 0 then s.weight.value else 0
  }

  /** The sum of the stored positive weights. */
  function StoredTotal(raw: RawSplit): (r: int) {
    if raw.Object? then SumBy(raw.shares, PositivePart()) else 0
  }

  lemma {:induction false} SumOfSelected(shares: seq<RawShare>, v: int)
    ensures Total(Select(shares, Positive())) == SumBy(shares, PositivePart())
    ensures WeightOf(Select(shares, Positive()), v) == SumBy(shares, PositivePartOf(v))
  {
    if shares != [] {
      var n := |shares| - 1;
      SumOfSelected(shares[..n], v);
      var before, last := Select(shares[..n], Positive()), Positive()(shares[n]);
      if last.Some? {
        TotalAppend(before, last.value, v);
      } else {
        assert Select(shares, Positive()) == before;
      }
    }
  }

  lemma TotalAppend(split: Split, share: Share, v: int)
    ensures Total(split + [share]) == Total(split) + share.weight
    ensures WeightOf(split + [share], v) == WeightOf(split, v) + if share.variant == v then share.weight else 0
  {
    assert (split + [share])[..|split|] == split;
  }

  lemma {:induction false} NoneStored(shares: seq<RawShare>, v: int)
    requires forall i :: 0 <= i < |shares| ==> PositivePartOf(v)(shares[i]) == 0
    ensures SumBy(shares, PositivePartOf(v)) == 0
  {
    if shares != [] { NoneStored(shares[..|shares| - 1], v); }
  }

  /** Coercing keeps every positive weight as it was stored, and invents none. */
  lemma CoercedWeights(raw: RawSplit, v: int)
    requires DistinctRaw(raw) && AllNumbers(raw)
    ensures Total(Coerced(raw).value) == StoredTotal(raw)
    ensures forall w :: Stores(raw, v, w) ==> WeightOf(Coerced(raw).value, v) == w
    ensures StoresNothing(raw, v) ==> WeightOf(Coerced(raw).value, v) == 0
  {
    SumOfSelected(raw.shares, v);
    forall w | Stores(raw, v, w) ensures WeightOf(Coerced(raw).value, v) == w {
      OneStored(raw, v, w);
    }
    if StoresNothing(raw, v) {
      forall i | 0 <= i < |raw.shares| ensures PositivePartOf(v)(raw.shares[i]) == 0 {
        assert raw.shares[i].weight.Number? && !Stores(raw, v, raw.shares[i].weight.value);
      }
      NoneStored(raw.shares, v);
    }
  }

  lemma OneStored(raw: RawSplit, v: int, w: int)
    requires DistinctRaw(raw) && Stores(raw, v, w)
    ensures SumBy(raw.shares, PositivePartOf(v)) == w
  {
    var k :| 0 <= k < |raw.shares| && raw.shares[k] == RawShare(v, Number(w));
    var others := raw.shares[..k] + raw.shares[k + 1..];
    SumWithout(raw.shares, k, PositivePartOf(v));
    forall i | 0 <= i < |others| ensures PositivePartOf(v)(others[i]) == 0 {
      assert others[i] == if i < k then raw.shares[i] else raw.shares[i + 1];
    }
    NoneStored(others, v);
  }

  /** Of the `StoredTotal` buckets of a stored split exactly the stored weight goes to each variant. */
  lemma StoredShares(raw: RawSplit, v: int)
    requires DistinctRaw(raw) && AllNumbers(raw) && StoredTotal(raw) > 0
    ensures forall w :: Stores(raw, v, w) ==> Buckets(Coerced(raw).value, v, StoredTotal(raw)) == w
    ensures StoresNothing(raw, v) ==> Buckets(Coerced(raw).value, v, StoredTotal(raw)) == 0
  {
    CoercedWeights(raw, v);
    CoercedIsUsable(raw, 0);
    ExactShares(Coerced(raw).value, v);
  }
}
