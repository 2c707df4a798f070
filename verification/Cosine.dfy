/**
 The word-bag cosine similarity that gates A/B variants, over exact reals. A text is its list of
 tokens; the square root is any function that squares back.
 */
module Cosine {
  import opened Sequences

  function Count(s: seq<string>, t: string): (n: nat) {
    multiset(s)[t]
  }

  function CountIn(s: seq<string>): string -> int {
    (t: string) => Count(s, t)
  }

  /** The sum, over the tokens two texts share, of the products of their counts. */
  function Dot(a: seq<string>, b: seq<string>): (r: int) {
    SumBy(a, CountIn(b))
  }

  ghost predicate IsSqrt(sqrt: real -> real) {
    forall x :: x >= 0.0 ==> sqrt(x) >= 0.0 && sqrt(x) * sqrt(x) == x
  }

  function Similarity(a: seq<string>, b: seq<string>, sqrt: real -> real): (r: real)
    requires IsSqrt(sqrt)
  {
    if a == [] || b == [] then 0.0
    else Quotient(Dot(a, b), sqrt(Dot(a, a) as real), sqrt(Dot(b, b) as real))
  }

  function Quotient(dot: int, magA: real, magB: real): (r: real) {
    if magA == 0.0 || magB == 0.0 then 0.0
    else
      NonZeroProduct(magA, magB);
      dot as real / (magA * magB)
  }

  lemma NonZeroProduct(x: real, y: real)
    requires x != 0.0 && y != 0.0
    ensures x * y != 0.0
  {
  }

  // ---------------------------------------------------------------------------
  // The loops
  // ---------------------------------------------------------------------------

  ghost predicate CountsOf(counts: map<string, int>, tokens: seq<string>) {
    && (forall t :: t in counts <==> t in tokens)
    && (forall t :: t in counts ==> counts[t] == Count(tokens, t))
  }

  method CountTokens(tokens: seq<string>) returns (counts: map<string, int>)
    ensures CountsOf(counts, tokens)
  {
    counts := map[];
    for n := 0 to |tokens|
      invariant CountsOf(counts, tokens[..n])
    {
      var t := tokens[n];
      assert tokens[..n + 1] == tokens[..n] + [t];
      counts := counts[t := (if t in counts then counts[t] else 0) + 1];
    }
    assert tokens[..|tokens|] == tokens;
  }

  /** Only the tokens visited so far contribute. */
  function Visited(b: seq<string>, done: set<string>): string -> int {
    (t: string) => if t in done then Count(b, t) else 0
  }

  lemma {:induction false} VisitOne(a: seq<string>, b: seq<string>, done: set<string>, t: string)
    requires t !in done
    ensures SumBy(a, Visited(b, done + {t})) == SumBy(a, Visited(b, done)) + Count(a, t) * Count(b, t)
  {
    if a != [] {
      VisitOne(a[..|a| - 1], b, done, t);
      CountLast(a, t);
      Distribute(Count(a[..|a| - 1], t), if a[|a| - 1] == t then 1 else 0, Count(b, t));
    }
  }

  lemma Distribute(x: int, y: int, z: int)
    ensures (x + y) * z == x * z + y * z
  {
  }

  /** The sum of products over the shared keys, visited in any order. */
  method SumProducts(countsA: map<string, int>, countsB: map<string, int>, ghost a: seq<string>, ghost b: seq<string>)
    returns (sum: int)
    requires CountsOf(countsA, a) && CountsOf(countsB, b)
    ensures sum == Dot(a, b)
  {
    var todo := countsA.Keys * countsB.Keys;
    ghost var done: set<string> := {};
    sum := 0;
    NothingVisited(a, b);
    while todo != {}
      invariant forall t :: t in todo ==> t in countsA && t in countsB && t !in done
      invariant forall t :: t in countsA && t in countsB ==> t in done || t in todo
      invariant sum == SumBy(a, Visited(b, done))
      decreases |todo|
    {
      var t := PickOne(todo);
      sum := AddProduct(sum, countsA[t], countsB[t], a, b, done, t);
      todo, done := todo - {t}, done + {t};
    }
    AllVisited(a, b, done);
  }

  method AddProduct(sum: int, x: int, y: int, ghost a: seq<string>, ghost b: seq<string>, ghost done: set<string>, ghost t: string)
    returns (r: int)
    requires sum == SumBy(a, Visited(b, done)) && t !in done && x == Count(a, t) && y == Count(b, t)
    ensures r == SumBy(a, Visited(b, done + {t}))
  {
    VisitOne(a, b, done, t);
    r := sum + x * y;
  }

  lemma AllVisited(a: seq<string>, b: seq<string>, done: set<string>)
    requires forall t :: t in a && t in b ==> t in done
    ensures SumBy(a, Visited(b, done)) == Dot(a, b)
  {
    forall i | 0 <= i < |a| ensures Visited(b, done)(a[i]) == CountIn(b)(a[i]) {
      if a[i] !in b { assert a[i] !in multiset(b); }
    }
    SumAgrees(a, Visited(b, done), CountIn(b));
  }

  lemma {:induction false} NothingVisited(a: seq<string>, b: seq<string>)
    ensures SumBy(a, Visited(b, {})) == 0
  {
    if a != [] { NothingVisited(a[..|a| - 1], b); }
  }

  method BodyCosineSimilarity(tokensA: seq<string>, tokensB: seq<string>, sqrt: real -> real) returns (r: real)
    requires IsSqrt(sqrt)
    ensures r == Similarity(tokensA, tokensB, sqrt)
  {
    if tokensA == [] || tokensB == [] { return 0.0; }
    var countsA := CountTokens(tokensA);
    var countsB := CountTokens(tokensB);
    var dot := SumProducts(countsA, countsB, tokensA, tokensB);
    var squaresA := SumProducts(countsA, countsA, tokensA, tokensA);
    var squaresB := SumProducts(countsB, countsB, tokensB, tokensB);
    var magA, magB := sqrt(squaresA as real), sqrt(squaresB as real);
    if magA == 0.0 || magB == 0.0 { return 0.0; }
    NonZeroProduct(magA, magB);
    r := dot as real / (magA * magB);
  }

  // ---------------------------------------------------------------------------
  // Taking one token out of both texts
  // ---------------------------------------------------------------------------

  lemma CountExcluding(s: seq<string>, t: string, u: string)
    ensures Count(Excluding(s, t), u) == if u == t then 0 else Count(s, u)
    ensures |Excluding(s, t)| == |s| - Count(s, t)
  {
    ExcludingCounts(s, t, u);
  }

  lemma {:induction false} SumSplits(s: seq<string>, t: string, f: string -> int)
    ensures SumBy(s, f) == Count(s, t) * f(t) + SumBy(Excluding(s, t), f)
  {
    if s != [] {
      var n := |s| - 1;
      SumSplits(s[..n], t, f);
      CountLast(s, t);
      Distribute(Count(s[..n], t), if s[n] == t then 1 else 0, f(t));
      if s[n] == t {
        assert Excluding(s, t) == Excluding(s[..n], t);
      } else {
        SumAppend(Excluding(s[..n], t), [s[n]], f);
        SumSingle(s[n], f);
      }
    }
  }

  lemma DotSplits(a: seq<string>, b: seq<string>, t: string)
    ensures Dot(a, b) == Count(a, t) * Count(b, t) + Dot(Excluding(a, t), Excluding(b, t))
  {
    SumSplits(a, t, CountIn(b));
    var rest := Excluding(a, t);
    forall i | 0 <= i < |rest| ensures CountIn(b)(rest[i]) == CountIn(Excluding(b, t))(rest[i]) {
      CountExcluding(a, t, t);
      CountExcluding(b, t, rest[i]);
      assert rest[i] in multiset(rest);
    }
    SumAgrees(rest, CountIn(b), CountIn(Excluding(b, t)));
  }

  /** Some token that occurs in one of the texts. */
  function SomeToken(a: seq<string>, b: seq<string>): (t: string)
    requires a != [] || b != []
    ensures Count(a, t) + Count(b, t) > 0
  {
    var t := if a != [] then a[0] else b[0];
    assert a != [] ==> t in multiset(a);
    assert a == [] ==> t in multiset(b);
    t
  }

  lemma {:induction false} DotSymmetric(a: seq<string>, b: seq<string>)
    ensures Dot(a, b) == Dot(b, a)
    decreases |a| + |b|
  {
    if a != [] || b != [] {
      var t := SomeToken(a, b);
      CountExcluding(a, t, t);
      CountExcluding(b, t, t);
      DotSplits(a, b, t);
      DotSplits(b, a, t);
      DotSymmetric(Excluding(a, t), Excluding(b, t));
    }
  }

  // ---------------------------------------------------------------------------
  // Cauchy–Schwarz
  // ---------------------------------------------------------------------------

  /** The sum, over all tokens, of the squares of x * count in a - y * count in b. */
  function Form(x: int, y: int, aa: int, ab: int, bb: int): (r: int) {
    x * x * aa - 2 * x * y * ab + y * y * bb
  }

  lemma FormStep(x: int, y: int, p: int, q: int, aa: int, ab: int, bb: int, aa1: int, ab1: int, bb1: int)
    requires aa == p * p + aa1 && ab == p * q + ab1 && bb == q * q + bb1
    ensures Form(x, y, aa, ab, bb) == Square(x * p - y * q) + Form(x, y, aa1, ab1, bb1)
  {
    assert Form(x, y, p * p + aa1, p * q + ab1, q * q + bb1) == (x * p - y * q) * (x * p - y * q) + Form(x, y, aa1, ab1, bb1);
  }

  lemma FormOfDots(x: int, y: int, a: seq<string>, b: seq<string>, t: string)
    ensures Form(x, y, Dot(a, a), Dot(a, b), Dot(b, b))
         == Square(x * Count(a, t) - y * Count(b, t))
          + Form(x, y, Dot(Excluding(a, t), Excluding(a, t)), Dot(Excluding(a, t), Excluding(b, t)), Dot(Excluding(b, t), Excluding(b, t)))
  {
    var a1, b1 := Excluding(a, t), Excluding(b, t);
    DotSplits(a, a, t);
    DotSplits(a, b, t);
    DotSplits(b, b, t);
    FormStep(x, y, Count(a, t), Count(b, t), Dot(a, a), Dot(a, b), Dot(b, b), Dot(a1, a1), Dot(a1, b1), Dot(b1, b1));
  }

  function Square(x: int): (r: int)
    ensures r >= 0
  {
    x * x
  }

  lemma {:induction false} FormIsNotNegative(x: int, y: int, a: seq<string>, b: seq<string>)
    ensures Form(x, y, Dot(a, a), Dot(a, b), Dot(b, b)) >= 0
    decreases |a| + |b|
  {
    if a != [] || b != [] {
      var t := SomeToken(a, b);
      CountExcluding(a, t, t);
      CountExcluding(b, t, t);
      FormIsNotNegative(x, y, Excluding(a, t), Excluding(b, t));
      FormOfDots(x, y, a, b, t);
    }
  }

  lemma DotSign(a: seq<string>, b: seq<string>)
    ensures Dot(a, b) >= 0
    ensures a != [] ==> Dot(a, a) > 0
  {
    SumNonNegative(a, CountIn(b));
    if a != [] {
      SumNonNegative(a[..|a| - 1], CountIn(a));
      assert a[|a| - 1] in multiset(a);
    }
  }

  lemma FormAtMinimum(aa: int, ab: int, bb: int)
    ensures Form(bb, ab, aa, ab, bb) == bb * (aa * bb - ab * ab)
    ensures ab * ab == aa * bb ==> Form(bb, ab, aa, ab, bb) == 0
  {
  }

  lemma CauchySchwarz(a: seq<string>, b: seq<string>)
    ensures Dot(a, b) * Dot(a, b) <= Dot(a, a) * Dot(b, b)
  {
    var aa, ab, bb := Dot(a, a), Dot(a, b), Dot(b, b);
    if b == [] {
      DotSymmetric(a, b);
    } else {
      FormIsNotNegative(bb, ab, a, b);
      FormAtMinimum(aa, ab, bb);
      DotSign(b, a);
      FactorSign(bb, aa * bb - ab * ab);
    }
  }

  lemma FactorSign(x: int, y: int)
    requires x > 0 && x * y >= 0
    ensures y >= 0
  {
  }

  // ---------------------------------------------------------------------------
  // What the similarity can be
  // ---------------------------------------------------------------------------

  lemma QuotientBounds(dot: int, aa: int, bb: int, x: real, y: real)
    requires dot >= 0 && aa > 0 && bb > 0 && dot * dot <= aa * bb
    requires x >= 0.0 && y >= 0.0 && x * x == aa as real && y * y == bb as real
    ensures 0.0 <= Quotient(dot, x, y) <= 1.0
    ensures Quotient(dot, x, y) == 1.0 <==> dot * dot == aa * bb
    ensures Quotient(dot, x, y) == 0.0 <==> dot == 0
  {
    var z := x * y;
    ProductSquare(aa, bb, x, y);
    assert (dot * dot) as real == dot as real * dot as real;
    CompareSquares(dot as real, z);
    QuotientByOrder(dot as real, z);
  }

  lemma ProductSquare(m: int, n: int, x: real, y: real)
    requires m > 0 && n > 0 && x >= 0.0 && y >= 0.0 && x * x == m as real && y * y == n as real
    ensures x > 0.0 && y > 0.0 && x * y > 0.0 && (x * y) * (x * y) == (m * n) as real
  {
    assert (x * y) * (x * y) == (x * x) * (y * y);
    assert (m * n) as real == m as real * n as real;
  }

  lemma QuotientByOrder(d: real, z: real)
    requires 0.0 <= d <= z && z > 0.0
    ensures 0.0 <= d / z <= 1.0
    ensures d / z == 1.0 <==> d == z
    ensures d / z == 0.0 <==> d == 0.0
  {
  }

  lemma PositiveProduct(x: real, y: real)
    requires x > 0.0 && y > 0.0
    ensures x * y > 0.0
  {
  }

  lemma CompareSquares(x: real, y: real)
    requires x >= 0.0 && y >= 0.0
    ensures x * x <= y * y <==> x <= y
    ensures x * x == y * y <==> x == y
  {
    assert y * y - x * x == (y + x) * (y - x);
    if x < y {
      PositiveProduct(y + x, y - x);
    } else if y < x {
      PositiveProduct(y + x, x - y);
      assert (y + x) * (y - x) == -((y + x) * (x - y));
    }
  }

  /** The same relative frequency for every token. */
  ghost predicate SameMix(a: seq<string>, b: seq<string>) {
    forall t :: Count(a, t) * |b| == Count(b, t) * |a|
  }

  /**
   For any two texts the similarity lies in [0, 1]; it is 1 exactly when both have tokens in the
   same proportions, and 0 exactly when they share none.
   */
  lemma SimilarityRange(a: seq<string>, b: seq<string>, sqrt: real -> real)
    requires IsSqrt(sqrt)
    ensures 0.0 <= Similarity(a, b, sqrt) <= 1.0
    ensures Similarity(a, b, sqrt) == 1.0 <==> a != [] && b != [] && SameMix(a, b)
    ensures Similarity(a, b, sqrt) == 0.0 <==> forall t :: t in a ==> t !in b
  {
    if a != [] && b != [] {
      DotSign(a, b);
      DotSign(b, a);
      CauchySchwarz(a, b);
      QuotientBounds(Dot(a, b), Dot(a, a), Dot(b, b), sqrt(Dot(a, a) as real), sqrt(Dot(b, b) as real));
      EqualityIff(a, b);
      DisjointIff(a, b);
    }
  }

  /** The similarity's square is the squared dot product over the product of the squared magnitudes. */
  lemma SimilarityIs(a: seq<string>, b: seq<string>, sqrt: real -> real)
    requires IsSqrt(sqrt) && a != [] && b != []
    ensures IsCosine(Similarity(a, b, sqrt), Dot(a, b), Dot(a, a) * Dot(b, b))
  {
    DotSign(a, b);
    DotSign(b, a);
    QuotientIs(Dot(a, b), Dot(a, a), Dot(b, b), sqrt(Dot(a, a) as real), sqrt(Dot(b, b) as real));
  }

  predicate IsCosine(r: real, dot: int, squares: int) {
    r >= 0.0 && r * r * squares as real == (dot * dot) as real
  }

  lemma QuotientIs(dot: int, aa: int, bb: int, x: real, y: real)
    requires dot >= 0 && aa > 0 && bb > 0
    requires x >= 0.0 && y >= 0.0 && x * x == aa as real && y * y == bb as real
    ensures IsCosine(Quotient(dot, x, y), dot, aa * bb)
  {
    ProductSquare(aa, bb, x, y);
    var z, r := x * y, Quotient(dot, x, y);
    assert r == dot as real / z;
    TimesBack(dot as real, z, r);
    assert (dot * dot) as real == dot as real * dot as real;
    SquareOfProduct(r, z);
  }

  lemma TimesBack(d: real, z: real, r: real)
    requires d >= 0.0 && z > 0.0 && r == d / z
    ensures r >= 0.0 && r * z == d
  {
  }

  lemma SquareOfProduct(r: real, z: real)
    ensures (r * z) * (r * z) == r * r * (z * z)
  {
  }

  /** The pairs of positions, one in each text, that hold the same token. */
  function Matches(a: seq<string>, b: seq<string>): (r: set<(int, int)>) {
    set i, j | 0 <= i < |a| && 0 <= j < |b| && a[i] == b[j] :: (i, j)
  }

  function PositionsOf(b: seq<string>, t: string): (r: set<int>) {
    set j | 0 <= j < |b| && b[j] == t
  }

  lemma {:induction false} CountIsPositions(b: seq<string>, t: string)
    ensures Count(b, t) == |PositionsOf(b, t)|
  {
    if b == [] {
      assert PositionsOf(b, t) == {};
    } else {
      var n := |b| - 1;
      CountIsPositions(b[..n], t);
      CountLast(b, t);
      assert PositionsOf(b, t) == PositionsOf(b[..n], t) + if b[n] == t then {n} else {};
    }
  }

  /** The pairs whose first position is `i`. */
  function PairedWith(i: int, js: set<int>): (r: set<(int, int)>) {
    set j | j in js :: (i, j)
  }

  lemma {:induction false} PairedSize(i: int, js: set<int>)
    ensures |PairedWith(i, js)| == |js|
    decreases |js|
  {
    if js == {} {
      assert PairedWith(i, js) == {};
    } else {
      var j := SomeMember(js);
      PairedSize(i, js - {j});
      assert PairedWith(i, js) == PairedWith(i, js - {j}) + {(i, j)};
    }
  }

  /** The dot product counts the pairs of equal tokens. */
  lemma {:induction false} DotCountsMatches(a: seq<string>, b: seq<string>)
    ensures Dot(a, b) == |Matches(a, b)|
  {
    if a == [] {
      assert Matches(a, b) == {};
    } else {
      var n := |a| - 1;
      DotCountsMatches(a[..n], b);
      CountIsPositions(b, a[n]);
      PairedSize(n, PositionsOf(b, a[n]));
      MatchesLast(a, b);
    }
  }

  lemma MatchesLast(a: seq<string>, b: seq<string>)
    requires a != []
    ensures var n := |a| - 1;
      |Matches(a, b)| == |Matches(a[..n], b)| + |PairedWith(n, PositionsOf(b, a[n]))|
  {
    var n := |a| - 1;
    assert Matches(a, b) == Matches(a[..n], b) + PairedWith(n, PositionsOf(b, a[n]));
    assert Matches(a[..n], b) !! PairedWith(n, PositionsOf(b, a[n]));
  }

  lemma SimilaritySymmetric(a: seq<string>, b: seq<string>, sqrt: real -> real)
    requires IsSqrt(sqrt)
    ensures Similarity(a, b, sqrt) == Similarity(b, a, sqrt)
  {
    DotSymmetric(a, b);
  }

  lemma IdenticalTexts(a: seq<string>, sqrt: real -> real)
    requires IsSqrt(sqrt) && a != []
    ensures Similarity(a, a, sqrt) == 1.0
  {
    SimilarityRange(a, a, sqrt);
  }

  lemma {:induction false} DisjointIff(a: seq<string>, b: seq<string>)
    ensures Dot(a, b) == 0 <==> forall t :: t in a ==> t !in b
  {
    if a != [] {
      var n := |a| - 1;
      DisjointIff(a[..n], b);
      SumNonNegative(a[..n], CountIn(b));
      assert a == a[..n] + [a[n]];
      assert a[n] in multiset(b) <==> a[n] in b;
    }
  }

  lemma EqualityIff(a: seq<string>, b: seq<string>)
    requires a != [] && b != []
    ensures Dot(a, b) * Dot(a, b) == Dot(a, a) * Dot(b, b) <==> SameMix(a, b)
  {
    if SameMix(a, b) {
      SameMixIsEqual(a, b);
    }
    if Dot(a, b) * Dot(a, b) == Dot(a, a) * Dot(b, b) {
      forall t ensures Count(a, t) * |b| == Count(b, t) * |a| {
        EqualIsSameMix(a, b, t);
      }
    }
  }

  lemma {:induction false} SumScales(s: seq<string>, f: string -> int, g: string -> int, c: int, d: int)
    requires forall i :: 0 <= i < |s| ==> f(s[i]) * c == g(s[i]) * d
    ensures SumBy(s, f) * c == SumBy(s, g) * d
  {
    if s != [] {
      SumScales(s[..|s| - 1], f, g, c, d);
      Distribute(SumBy(s[..|s| - 1], f), f(s[|s| - 1]), c);
      Distribute(SumBy(s[..|s| - 1], g), g(s[|s| - 1]), d);
    }
  }

  lemma SameMixIsEqual(a: seq<string>, b: seq<string>)
    requires a != [] && b != [] && SameMix(a, b)
    ensures Dot(a, b) * Dot(a, b) == Dot(a, a) * Dot(b, b)
  {
    DotSymmetric(a, b);
    forall t ensures CountIn(a)(t) * |b| == CountIn(b)(t) * |a| {
      assert Count(a, t) * |b| == Count(b, t) * |a|;
    }
    SumScales(b, CountIn(a), CountIn(b), |b|, |a|);
    SumScales(a, CountIn(a), CountIn(b), |b|, |a|);
    CrossCancel(Dot(a, a), Dot(a, b), Dot(b, b), |a|, |b|);
  }

  lemma CrossCancel(aa: int, ab: int, bb: int, m: int, n: int)
    requires m > 0 && n > 0 && ab * n == bb * m && aa * n == ab * m
    ensures ab * ab == aa * bb
  {
    assert (aa * n) * (bb * m) == (ab * m) * (ab * n);
    assert (aa * bb - ab * ab) * (m * n) == (aa * n) * (bb * m) - (ab * m) * (ab * n);
    assert m * n > 0;
  }

  lemma EqualIsSameMix(a: seq<string>, b: seq<string>, t: string)
    requires a != [] && b != [] && Dot(a, b) * Dot(a, b) == Dot(a, a) * Dot(b, b)
    ensures Count(a, t) * |b| == Count(b, t) * |a|
  {
    var aa, ab, bb := Dot(a, a), Dot(a, b), Dot(b, b);
    forall u ensures bb * Count(a, u) == ab * Count(b, u) {
      ProportionalAt(a, b, u);
    }
    ProportionalTotals(a, b, bb, ab);
    DotSign(b, a);
    CancelFactor(bb, ab, Count(a, t), Count(b, t), |a|, |b|);
  }

  lemma CancelFactor(c: int, d: int, p: int, q: int, m: int, n: int)
    requires c > 0 && c * p == d * q && c * m == d * n
    ensures p * n == q * m
  {
    assert c * (p * n - q * m) == (c * p) * n - q * (c * m);
    assert (d * q) * n - q * (d * n) == 0;
  }

  /** At equality the sum of squares vanishes, and with it each square. */
  lemma ProportionalAt(a: seq<string>, b: seq<string>, t: string)
    requires Dot(a, b) * Dot(a, b) == Dot(a, a) * Dot(b, b)
    ensures Dot(b, b) * Count(a, t) == Dot(a, b) * Count(b, t)
  {
    FormAtMinimum(Dot(a, a), Dot(a, b), Dot(b, b));
    VanishesAt(Dot(b, b), Dot(a, b), a, b, t);
  }

  lemma VanishesAt(x: int, y: int, a: seq<string>, b: seq<string>, t: string)
    requires Form(x, y, Dot(a, a), Dot(a, b), Dot(b, b)) == 0
    ensures x * Count(a, t) == y * Count(b, t)
  {
    FormOfDots(x, y, a, b, t);
    FormIsNotNegative(x, y, Excluding(a, t), Excluding(b, t));
    SquareIsZero(x * Count(a, t) - y * Count(b, t));
  }

  lemma SquareIsZero(x: int)
    ensures Square(x) <= 0 ==> x == 0
  {
  }

  lemma ProportionalWithout(a: seq<string>, b: seq<string>, c: int, d: int, t: string, u: string)
    requires c * Count(a, u) == d * Count(b, u)
    ensures c * Count(Excluding(a, t), u) == d * Count(Excluding(b, t), u)
  {
    CountExcluding(a, t, u);
    CountExcluding(b, t, u);
    if u == t {
      assert c * 0 == d * 0;
    }
  }

  lemma AddProportions(c: int, d: int, p: int, q: int, m: int, n: int)
    requires c * p == d * q && c * m == d * n
    ensures c * (p + m) == d * (q + n)
  {
  }

  lemma {:induction false} ProportionalTotals(a: seq<string>, b: seq<string>, c: int, d: int)
    requires forall t :: c * Count(a, t) == d * Count(b, t)
    ensures c * |a| == d * |b|
    decreases |a| + |b|
  {
    if a != [] || b != [] {
      var t := SomeToken(a, b);
      forall u ensures c * Count(Excluding(a, t), u) == d * Count(Excluding(b, t), u) {
        ProportionalWithout(a, b, c, d, t, u);
      }
      ShorterWithout(a, b, t);
      ProportionalTotals(Excluding(a, t), Excluding(b, t), c, d);
      AddProportions(c, d, Count(a, t), Count(b, t), |Excluding(a, t)|, |Excluding(b, t)|);
    }
  }

  lemma ShorterWithout(a: seq<string>, b: seq<string>, t: string)
    ensures |a| == Count(a, t) + |Excluding(a, t)| && |b| == Count(b, t) + |Excluding(b, t)|
  {
    CountExcluding(a, t, t);
    CountExcluding(b, t, t);
  }
}
