/**
 Where the calendar puts its touches, and how far apart any `limit + 1` consecutive
 ones are. Days are counted from the campaign's first day.
 */
module Spacing {
  import opened Rounding

  /** The day of touch `i` when `count` touches are spread over `days` days. */
  function Offset(i: nat, days: nat, count: nat): (r: int)
    requires days >= 1 && i < count
  {
    if count == 1 then days / 2
    else RoundHalfEven(i * (days - 1), count - 1)
  }

  lemma OffsetEnds(days: nat, count: nat)
    requires days >= 1 && count >= 2
    ensures Offset(0, days, count) == 0
    ensures Offset(count - 1, days, count) == days - 1
  {
    RoundEquals(0 * (days - 1), count - 1, 0);
    RoundEquals((count - 1) * (days - 1), count - 1, days - 1);
  }

  /** Every gap is the floor or the ceiling of the exact step: two neighbouring ties, which
      could stretch or shrink a gap by a whole day more, do not occur. */
  lemma OffsetGap(i: nat, days: nat, count: nat)
    requires days >= 1 && count >= 2 && i + 1 < count
    ensures var gap := Offset(i + 1, days, count) - Offset(i, days, count);
      var floor := (days - 1) / (count - 1);
      var ceiling := if (days - 1) % (count - 1) == 0 then floor else floor + 1;
      floor <= gap <= ceiling
  {
    var d, n := days - 1, count - 1;
    MulAdd(i, 1, d);
    DivMod(d, n);
    if d % n == 0 {
      ExactGap(i, d, n, d / n);
    } else {
      UnevenGap(i * d, d, n, d / n);
    }
  }

  lemma ExactGap(i: nat, d: int, n: int, q: int)
    requires n > 0 && d == q * n
    ensures RoundHalfEven(i * d + d, n) - RoundHalfEven(i * d, n) == q
  {
    MulAssoc(i, q, n);
    MulAdd(i * q, q, n);
    RoundMultiple(i * d, n, i * q);
    RoundMultiple(i * d + d, n, i * q + q);
  }

  lemma UnevenGap(a: int, d: int, n: int, q: int)
    requires n > 0 && q * n < d < q * n + n
    ensures q <= RoundHalfEven(a + d, n) - RoundHalfEven(a, n) <= q + 1
  {
    var r, s := RoundHalfEven(a, n), RoundHalfEven(a + d, n);
    RoundIsNearest(a, n);
    RoundIsNearest(a + d, n);
    MulSub(s, r, n);
    MulSteps(s - r, q, n);
    GapByOrder(a, d, n, r, s, q, r * n, s * n, q * n);
  }

  lemma RoundMultiple(a: int, n: int, q: int)
    requires n > 0 && a == q * n
    ensures RoundHalfEven(a, n) == q
  {
    RoundEquals(a, n, q);
  }

  lemma GapByOrder(a: int, d: int, n: int, r: int, s: int, q: int, rn: int, sn: int, qn: int)
    requires n > 0 && qn < d < qn + n
    requires NearestBy(a, n, r, rn) && NearestBy(a + d, n, s, sn)
    requires s - r < q ==> sn - rn + n <= qn
    requires q + 1 < s - r ==> qn + 2 * n <= sn - rn
    ensures q <= s - r <= q + 1
  {
  }

  lemma OffsetInRange(i: nat, days: nat, count: nat)
    requires days >= 1 && i < count
    ensures 0 <= Offset(i, days, count) < days
  {
    if count >= 2 {
      var d := days - 1;
      OffsetEnds(days, count);
      MulSub(count - 1, i, d);
      MulSign(count - 1 - i, d);
      MulSign(i, d);
      RoundMonotone(0 * d, i * d, count - 1);
      RoundMonotone(i * d, (count - 1) * d, count - 1);
    }
  }

  lemma OffsetMonotone(i: nat, j: nat, days: nat, count: nat)
    requires days >= 1 && i <= j < count
    ensures Offset(i, days, count) <= Offset(j, days, count)
  {
    if count >= 2 {
      var d := days - 1;
      MulSub(j, i, d);
      MulSign(j - i, d);
      RoundMonotone(i * d, j * d, count - 1);
    }
  }

  // ---------------------------------------------------------------------------
  // Hard caps: `limit` touches per `window` days
  // ---------------------------------------------------------------------------

  /** Any `limit + 1` consecutive touches span at least `window` days. */
  ghost predicate Spaced(days: nat, count: nat, limit: nat, window: nat)
    requires days >= 1
  {
    forall i: nat {:trigger Offset(i, days, count)} :: i + limit < count ==>
      Offset(i + limit, days, count) - Offset(i, days, count) >= window
  }

  /** More than one touch is only laid down when that many fit at the cap's average rate. */
  predicate Fits(days: nat, count: nat, limit: nat, window: nat) {
    count <= 1 || count * window <= days * limit
  }

  /** The caps the generator meets on every date range; `HonouredIsExact` shows there are no others. */
  predicate Honoured(limit: nat, window: nat) {
    limit <= window || (window % 2 == 0 && limit % (2 * (limit - window)) == 0)
  }

  /** a/n lies exactly between two integers. */
  predicate IsTie(a: int, n: int)
    requires n > 0
  {
    2 * a % (2 * n) == n
  }

  /** If the exact step gives `limit` touches at least `window` days, rounding can only lose
      a day when it gives them exactly `window`, the window is odd and both ends are ties. */
  lemma SpanAtLeast(a: int, y: int, n: int, window: nat)
    requires n > 0 && y >= window * n
    requires y == window * n && window % 2 == 1 ==> !IsTie(a, n)
    ensures RoundHalfEven(a + y, n) - RoundHalfEven(a, n) >= window
  {
    var r, s := RoundHalfEven(a, n), RoundHalfEven(a + y, n);
    RoundIsNearest(a, n);
    RoundIsNearest(a + y, n);
    MulSub(s, r, n);
    MulSteps(s - r, window, n);
    TieFrom(a, n, r);
    SpanByOrder(a, y, n, window, r, s, r * n, s * n, window * n);
  }

  lemma TieFrom(a: int, n: int, r: int)
    requires n > 0
    ensures 2 * a == 2 * (r * n) - n ==> IsTie(a, n)
  {
    if 2 * a == 2 * (r * n) - n {
      MulAssoc(r - 1, 2, n);
      MulSub(r, 1, n);
      DivModUnique(2 * a, 2 * n, r - 1, n);
    }
  }

  lemma SpanByOrder(a: int, y: int, n: int, w: nat, r: int, s: int, rn: int, sn: int, wn: int)
    requires n > 0 && y >= wn
    requires y == wn && w % 2 == 1 ==> 2 * a != 2 * rn - n
    requires NearestBy(a, n, r, rn) && NearestBy(a + y, n, s, sn)
    requires s - r < w ==> sn - rn + n <= wn
    requires s - r + 1 < w ==> sn - rn + 2 * n <= wn
    ensures s - r >= w
  {
  }

  lemma SpanOfOffsets(i: nat, days: nat, count: nat, limit: nat)
    requires days >= 1 && limit >= 1 && i + limit < count
    ensures Offset(i + limit, days, count) == RoundHalfEven(i * (days - 1) + limit * (days - 1), count - 1)
    ensures Offset(i, days, count) == RoundHalfEven(i * (days - 1), count - 1)
  {
    assert (i + limit) * (days - 1) == i * (days - 1) + limit * (days - 1);
  }

  /** A generous step, `limit` touches over strictly more than `window` days, is always spaced. */
  lemma SpacedWhenRoomy(days: nat, count: nat, limit: nat, window: nat)
    requires days >= 1 && limit >= 1
    requires count >= 2 ==> limit * (days - 1) > window * (count - 1)
    ensures Spaced(days, count, limit, window)
  {
    forall i: nat | i + limit < count
      ensures Offset(i + limit, days, count) - Offset(i, days, count) >= window
    {
      SpanFrom(i, days, count, limit, window);
    }
  }

  lemma SpacedWhenHonoured(days: nat, count: nat, limit: nat, window: nat)
    requires days >= 1 && limit >= 1 && window >= 1
    requires Fits(days, count, limit, window) && Honoured(limit, window)
    ensures Spaced(days, count, limit, window)
  {
    forall i: nat | i + limit < count
      ensures Offset(i + limit, days, count) - Offset(i, days, count) >= window
    {
      if limit > window && limit * (days - 1) < window * (count - 1) {
        SpanInBlocks(i, days, count, limit, window);
      } else {
        SpanWithSlack(i, days, count, limit, window);
      }
    }
  }

  /** The span of `limit` steps when they cover the window, or the cap is at most one a day. */
  lemma SpanWithSlack(i: nat, days: nat, count: nat, limit: nat, window: nat)
    requires days >= 1 && limit >= 1 && window >= 1 && i + limit < count && Fits(days, count, limit, window)
    requires limit <= window || (window % 2 == 0 && limit * (days - 1) >= window * (count - 1))
    ensures Offset(i + limit, days, count) - Offset(i, days, count) >= window
  {
    if limit <= window {
      StepsCover(days, count, limit, window);
      if limit * (days - 1) == window * (count - 1) {
        EqualRate(days, count, limit, window);
        NoTieOnMultiples(i, count - 1);
      }
    }
    SpanFrom(i, days, count, limit, window);
  }

  lemma SpanFrom(i: nat, days: nat, count: nat, limit: nat, window: nat)
    requires days >= 1 && limit >= 1 && i + limit < count && limit * (days - 1) >= window * (count - 1)
    requires limit * (days - 1) == window * (count - 1) && window % 2 == 1 ==> !IsTie(i * (days - 1), count - 1)
    ensures Offset(i + limit, days, count) - Offset(i, days, count) >= window
  {
    SpanOfOffsets(i, days, count, limit);
    SpanAtLeast(i * (days - 1), limit * (days - 1), count - 1, window);
  }

  lemma StepsCover(days: nat, count: nat, limit: nat, window: nat)
    requires days >= 1 && count >= 1 && limit <= window && count * window <= days * limit
    ensures limit * (days - 1) >= window * (count - 1)
  {
    MulSub(days, 1, limit);
    MulSub(count, 1, window);
  }

  lemma EqualRate(days: nat, count: nat, limit: nat, window: nat)
    requires days >= 1 && count >= 1 && 1 <= limit <= window && count * window <= days * limit
    requires limit * (days - 1) == window * (count - 1)
    ensures days == count
  {
    MulSub(days, 1, limit);
    MulSub(count, 1, window);
    assert limit == window;
    SameFactor(limit, days - 1, count - 1);
  }

  lemma SameFactor(w: nat, d: int, n: int)
    requires w >= 1 && w * d == w * n
    ensures d == n
  {
    assert w * (d - n) == 0;
  }

  lemma NoTieOnMultiples(i: int, n: int)
    requires n > 0
    ensures !IsTie(i * n, n)
  {
    MulAssoc(i, 2, n);
    DivModUnique(2 * (i * n), 2 * n, i, 0);
  }

  /** Position arithmetic shared by the two exact-rate layouts below: with `limit * m` touches
      over `window * m` days, touch `i0 + j * limit` sits just before a whole day. */
  lemma Position(limit: int, window: int, m: int, i0: int, j: int)
    ensures (i0 + j * limit) * (window * m - 1)
         == (j * window + i0) * (limit * m - 1) - (limit - window) * (m * i0 + j)
  {
    calc {
      (j * window + i0) * (limit * m - 1) - (limit - window) * (m * i0 + j);
      { assert (j * window + i0) * (limit * m - 1)
            == j * window * limit * m + i0 * limit * m - j * window - i0; }
      j * window * limit * m + i0 * limit * m - j * window - i0 - (limit - window) * (m * i0 + j);
      { assert (limit - window) * (m * i0 + j) == limit * m * i0 + limit * j - window * m * i0 - window * j; }
      j * window * limit * m + window * m * i0 - i0 - limit * j;
      { assert (i0 + j * limit) * (window * m - 1) == i0 * window * m - i0 + j * limit * window * m - j * limit; }
      (i0 + j * limit) * (window * m - 1);
    }
  }

  /** A touch less than half a day short of day `j * window + i0` is rounded up to it. */
  lemma PositionUp(limit: int, window: int, g: int, m: int, i0: int, j: int, short: int)
    requires g == limit - window && limit * m - 1 > 0 && short == g * (m * i0 + j)
    requires 0 <= 2 * short < limit * m - 1
    ensures RoundHalfEven((i0 + j * limit) * (window * m - 1), limit * m - 1) == j * window + i0
  {
    Position(limit, window, m, i0, j);
    RoundEquals((i0 + j * limit) * (window * m - 1), limit * m - 1, j * window + i0);
  }

  /** More than half a day short of it, the touch falls on the day before. */
  lemma PositionDown(limit: int, window: int, g: int, m: int, i0: int, j: int, short: int)
    requires g == limit - window && limit * m - 1 > 0 && short == g * (m * i0 + j)
    requires limit * m - 1 < 2 * short <= 2 * (limit * m - 1)
    ensures RoundHalfEven((i0 + j * limit) * (window * m - 1), limit * m - 1) == j * window + i0 - 1
  {
    Position(limit, window, m, i0, j);
    MulSub(j * window + i0, 1, limit * m - 1);
    RoundEquals((i0 + j * limit) * (window * m - 1), limit * m - 1, j * window + i0 - 1);
  }

  /** With 2h * m touches over (2h - 1) * m days, each run of 2h touches takes 2h - 1 days. */
  lemma BlockOffset(h: nat, m: nat, i0: nat, j: nat)
    requires h >= 1 && m >= 1 && i0 < 2 * h && j < m
    ensures i0 + j * (2 * h) < 2 * h * m && (2 * h - 1) * m >= 1
    ensures Offset(i0 + j * (2 * h), (2 * h - 1) * m, 2 * h * m)
         == j * (2 * h - 1) + if i0 < h then i0 else i0 - 1
  {
    BlockRange(h, m, i0, j);
    BlockSlack(h, m, i0, j);
    if i0 < h {
      PositionUp(2 * h, 2 * h - 1, 1, m, i0, j, m * i0 + j);
    } else {
      PositionDown(2 * h, 2 * h - 1, 1, m, i0, j, m * i0 + j);
    }
  }

  lemma BlockRange(h: nat, m: nat, i0: nat, j: nat)
    requires h >= 1 && m >= 1 && i0 < 2 * h && j < m
    ensures i0 + j * (2 * h) < 2 * h * m && (2 * h - 1) * m >= 1 && 2 * h * m >= 2
  {
    MulGap(2 * h - 1, m);
    MulGap(2 * h, m);
    MulSteps(j, m, 2 * h);
  }

  lemma BlockSlack(h: nat, m: nat, i0: nat, j: nat)
    requires h >= 1 && m >= 1 && i0 < 2 * h && j < m
    ensures var n, u := 2 * h * m - 1, m * i0 + j;
      n >= 1 && (if i0 < h then 0 <= 2 * u < n else n < 2 * u <= 2 * n)
  {
    MulAssoc(2, h, m);
    MulGap(h, m);
    MulSteps(i0, h, m);
    MulSteps(i0, 2 * h, m);
    MulGap(i0, m);
  }

  /** The honoured caps above their window: there the rate is exact and whole blocks repeat. */
  lemma SpanInBlocks(i: nat, days: nat, count: nat, limit: nat, window: nat)
    requires days >= 1 && limit > window >= 1 && limit % (2 * (limit - window)) == 0
    requires i + limit < count && count * window <= days * limit
    requires limit * (days - 1) < window * (count - 1)
    ensures Offset(i + limit, days, count) - Offset(i, days, count) == window
  {
    var g := limit - window;
    var h := limit / (2 * g);
    HalfPeriod(limit, window, g, h);
    ExactRate(days, count, h, g, limit, window);
    SpanByBlocks(i, days, count, limit, window, h, g, count - days);
  }

  lemma SpanByBlocks(i: nat, days: nat, count: nat, limit: nat, window: nat, h: nat, g: nat, m: nat)
    requires h >= 1 && m >= 1 && days >= 1 && i + limit < count
    requires limit == 2 * h * g && window == (2 * h - 1) * g
    requires count == 2 * h * m && days == (2 * h - 1) * m
    ensures Offset(i + limit, days, count) - Offset(i, days, count) == window
  {
    var i0, j := PlaceInBlock(i, 2 * h, g, m, limit);
    SpanOf(h, m, g, i0, j, i, i + limit, days, count);
  }

  /** Rank `i` is rank `i0` of block `j` of `p`, and `limit` ranks on it is the same rank `g` blocks on. */
  lemma PlaceInBlock(i: nat, p: nat, g: nat, m: nat, limit: nat) returns (i0: nat, j: nat)
    requires p >= 1 && limit == p * g && i + limit < p * m
    ensures i0 < p && j + g < m && i == i0 + j * p && i + limit == i0 + (j + g) * p
  {
    i0, j := i % p, i / p;
    DivMod(i, p);
    MulAdd(j, g, p);
    MulSteps(m, j + g, p);
  }

  /** `BlockSpan` with its products named. */
  lemma SpanOf(h: nat, m: nat, g: nat, i0: nat, j: nat, i: nat, k: nat, days: nat, count: nat)
    requires h >= 1 && m >= 1 && i0 < 2 * h && j + g < m
    requires days == (2 * h - 1) * m && count == 2 * h * m && i == i0 + j * (2 * h) && k == i0 + (j + g) * (2 * h)
    ensures days >= 1 && i < count && k < count && Offset(k, days, count) == Offset(i, days, count) + (2 * h - 1) * g
  {
    BlockSpan(h, m, g, i0, j);
  }

  lemma BlockSpan(h: nat, m: nat, g: nat, i0: nat, j: nat)
    requires h >= 1 && m >= 1 && i0 < 2 * h && j + g < m
    ensures (2 * h - 1) * m >= 1
    ensures 0 <= i0 + j * (2 * h) < 2 * h * m && 0 <= i0 + (j + g) * (2 * h) < 2 * h * m
    ensures Offset(i0 + (j + g) * (2 * h), (2 * h - 1) * m, 2 * h * m)
         == Offset(i0 + j * (2 * h), (2 * h - 1) * m, 2 * h * m) + (2 * h - 1) * g
  {
    BlockOffset(h, m, i0, j);
    BlockOffset(h, m, i0, j + g);
    MulAdd(j, g, 2 * h - 1);
  }

  lemma HalfPeriod(limit: nat, window: nat, g: nat, h: nat)
    requires g >= 1 && limit == window + g && window >= 1
    requires limit % (2 * g) == 0 && h == limit / (2 * g)
    ensures h >= 1 && limit == 2 * h * g && window == (2 * h - 1) * g
  {
    DivMod(limit, 2 * g);
    MulAssoc(2, h, g);
    MulSub(2 * h, 1, g);
    MulGap(h, 2 * g);
  }

  lemma ExactRate(days: nat, count: nat, h: nat, g: nat, limit: nat, window: nat)
    requires h >= 1 && g >= 1 && days >= 1
    requires limit == 2 * h * g && window == (2 * h - 1) * g
    requires count * window <= days * limit
    requires limit * (days - 1) < window * (count - 1)
    ensures count > days
    ensures count == 2 * h * (count - days)
    ensures days == (2 * h - 1) * (count - days)
  {
    var p, q := 2 * h, 2 * h - 1;
    MulAssoc(p, g, days);
    MulAssoc(q, g, count);
    MulSub(p * days, q * count, g);
    var lead := p * days - q * count;
    assert lead * g == days * limit - count * window;
    MulSub(days, 1, limit);
    MulSub(count, 1, window);
    MulSub(p, 1, g);
    MulGap(lead, g);
    assert 0 - g <= lead * g - g < 0;
    assert lead == 0;
    RateDifference(h, days, count);
  }

  lemma RateDifference(h: nat, days: nat, count: nat)
    requires h >= 1 && days >= 1
    requires 2 * h * days == (2 * h - 1) * count
    ensures count > days
    ensures count == 2 * h * (count - days)
    ensures days == (2 * h - 1) * (count - days)
  {
    MulSub(2 * h, 1, count);
    MulSub(count, days, 2 * h);
    MulSub(2 * h, 1, count - days);
    MulGap(count - days, 2 * h);
  }

  // ---------------------------------------------------------------------------
  // Every other cap is broken by some date range
  // ---------------------------------------------------------------------------

  datatype Layout = Layout(days: int, count: int, first: int)

  /** A layout in which `limit + 1` consecutive touches, from `first` on, span too few days. */
  ghost predicate Breaks(w: Layout, limit: nat, window: nat) {
    && w.days >= 1 && w.count >= 2 && 0 <= w.first && w.first + limit < w.count
    && w.count * window <= w.days * limit
    && Offset(w.first + limit, w.days, w.count) - Offset(w.first, w.days, w.count) < window
  }

  /** A cap that is not honoured, together with a layout that shows it. */
  function Breaking(limit: nat, window: nat): (w: Layout)
    requires window >= 1 && !Honoured(limit, window)
  {
    var g := limit - window;
    if limit % (2 * g) != 0 then
      Layout(window * (2 * g), limit * (2 * g), (limit - 1) / (2 * g) + (limit - 1) % (2 * g) * limit)
    else
      var h := limit / (2 * g);
      Layout((2 * h - 1) * (g + 2) + 1, 2 * h * (g + 2) + 1, if h % 2 == 0 then h else 3 * h)
  }

  lemma BreakingBreaks(limit: nat, window: nat)
    requires window >= 1 && !Honoured(limit, window)
    ensures Breaks(Breaking(limit, window), limit, window)
  {
    var g := limit - window;
    if limit % (2 * g) != 0 {
      BreaksByCrossing(limit, window, g, (limit - 1) / (2 * g), (limit - 1) % (2 * g));
    } else {
      var h := limit / (2 * g);
      HalfPeriod(limit, window, g, h);
      BreaksByTie(h, g, limit, window);
    }
  }

  /** At the exact rate some window starts just after a half day and ends just before one. */
  lemma BreaksByCrossing(limit: nat, window: nat, g: nat, i0: nat, j: nat)
    requires window >= 1 && g >= 1 && limit == window + g
    requires limit % (2 * g) != 0 && i0 == (limit - 1) / (2 * g) && j == (limit - 1) % (2 * g)
    ensures Breaks(Layout(window * (2 * g), limit * (2 * g), i0 + j * limit), limit, window)
  {
    var m := 2 * g;
    CrossingIndex(limit, m, i0, j);
    CrossingRange(limit, window, m, i0, j);
    MulAssoc(2, g, limit);
    CrossingSpan(limit, window, g, m, i0, j);
    MulAssoc(limit, m, window);
    MulAssoc(window, m, limit);
  }

  lemma CrossingRange(limit: nat, window: nat, m: nat, i0: nat, j: nat)
    requires limit >= 1 && window >= 1 && m >= 2 && i0 < limit && j + 1 < m
    ensures window * m >= 2 && limit * m >= 2
    ensures 0 <= i0 + j * limit && i0 + j * limit + limit < limit * m
  {
    MulGap(m, window);
    MulGap(m, limit);
    MulSteps(j, m, limit);
    MulSign(j, limit);
  }

  lemma CrossingSpan(limit: nat, window: nat, g: nat, m: nat, i0: nat, j: nat)
    requires g >= 1 && limit == window + g && limit * m == 2 * (g * limit)
    requires m * i0 + j == limit - 1 && limit * m >= 2
    ensures RoundHalfEven((i0 + j * limit + limit) * (window * m - 1), limit * m - 1)
         == RoundHalfEven((i0 + j * limit) * (window * m - 1), limit * m - 1) + window - 1
  {
    MulSub(limit, 1, g);
    MulSign(g, limit - 1);
    PositionUp(limit, window, g, m, i0, j, g * (limit - 1));
    MulAdd(j, 1, limit);
    PositionDown(limit, window, g, m, i0, j + 1, g * limit);
    MulAdd(j, 1, window);
  }

  lemma CrossingIndex(limit: nat, m: nat, i0: nat, j: nat)
    requires limit >= 1 && m >= 2 && limit % m != 0
    requires i0 == (limit - 1) / m && j == (limit - 1) % m
    ensures m * i0 + j == limit - 1
    ensures j + 1 < m && i0 < limit
  {
    DivMod(limit - 1, m);
    LastResidue(limit, m, i0);
    QuotientBelow(limit - 1, m, i0);
  }

  lemma LastResidue(limit: nat, m: nat, q: nat)
    requires m >= 2
    ensures limit - 1 == q * m + (m - 1) ==> limit % m == 0
  {
    MulAdd(q, 1, m);
    if limit == (q + 1) * m {
      DivModUnique(limit, m, q + 1, 0);
    }
  }

  lemma QuotientBelow(a: nat, m: nat, q: nat)
    requires m >= 1 && q * m <= a
    ensures q <= a
  {
    if q >= 1 {
      MulGap(m, q);
    }
  }

  /** With an odd window some touch ties up to an even day and its partner ties down. */
  lemma BreaksByTie(h: nat, g: nat, limit: nat, window: nat)
    requires h >= 1 && g >= 1
    requires limit == 2 * h * g && window == (2 * h - 1) * g && window % 2 == 1
    ensures Breaks(Layout((2 * h - 1) * (g + 2) + 1, 2 * h * (g + 2) + 1, if h % 2 == 0 then h else 3 * h), limit, window)
  {
    var v := if h % 2 == 0 then 1 else 3;
    var t := g + 2;
    MulGap(2 * h, t);
    MulGap(2 * h - 1, t);
    TieRate(h, g, t, limit, window);
    MulAdd(g, 2, 2 * h);
    TieSpan(h, v, t, limit, window);
  }

  lemma TieSpan(h: nat, v: nat, t: nat, limit: nat, window: nat)
    requires h >= 1 && t >= 1 && v == (if h % 2 == 0 then 1 else 3) && window % 2 == 1
    requires limit * ((2 * h - 1) * t) == window * (2 * h * t)
    ensures 2 * h * t > 0
    ensures RoundHalfEven((h * v + limit) * ((2 * h - 1) * t), 2 * h * t)
         == RoundHalfEven(h * v * ((2 * h - 1) * t), 2 * h * t) + window - 1
  {
    var d, n, i, z := (2 * h - 1) * t, 2 * h * t, h * v, v * (2 * h - 1);
    MulGap(2 * h, t);
    TiePosition(h, v, t, d, n, i);
    MulAdd(i, limit, d);
    TieBoth(i * d, limit * d, n, z, window);
  }

  lemma TieBoth(a: int, y: int, n: int, z: int, window: nat)
    requires n > 0 && 2 * a == z * n && y == window * n && (z + 1) % 4 == 0 && window % 2 == 1
    ensures RoundHalfEven(a + y, n) == RoundHalfEven(a, n) + window - 1
  {
    var r := (z + 1) / 2;
    MulAdd(z, 2 * window, n);
    MulAssoc(2, window, n);
    TieUp(a, n, r);
    TieDown(a + y, n, r + window - 1);
  }

  lemma TieUp(a: int, n: int, r: int)
    requires n > 0 && 2 * a == (2 * r - 1) * n && r % 2 == 0
    ensures RoundHalfEven(a, n) == r
  {
    MulSub(2 * r, 1, n);
    MulAssoc(2, r, n);
    RoundEquals(a, n, r);
  }

  lemma TieDown(a: int, n: int, r: int)
    requires n > 0 && 2 * a == (2 * r + 1) * n && r % 2 == 0
    ensures RoundHalfEven(a, n) == r
  {
    MulAdd(2 * r, 1, n);
    MulAssoc(2, r, n);
    RoundEquals(a, n, r);
  }

  lemma TieRate(h: nat, g: nat, t: nat, limit: nat, window: nat)
    requires h >= 1 && limit == 2 * h * g && window == (2 * h - 1) * g
    ensures limit * ((2 * h - 1) * t) == window * (2 * h * t)
    ensures (2 * h * t + 1) * window <= ((2 * h - 1) * t + 1) * limit
  {
    var p, q := 2 * h, 2 * h - 1;
    assert (p * g) * (q * t) == (q * g) * (p * t);
    MulAdd(p * t, 1, window);
    MulAdd(q * t, 1, limit);
    MulSub(p, 1, g);
  }

  lemma TiePosition(h: nat, v: nat, t: nat, d: int, n: int, i: int)
    requires h >= 1 && v == (if h % 2 == 0 then 1 else 3)
    requires d == (2 * h - 1) * t && n == 2 * h * t && i == h * v
    ensures 2 * (i * d) == (v * (2 * h - 1)) * n
    ensures (v * (2 * h - 1) + 1) % 4 == 0
  {
    assert i * d == h * v * (2 * h - 1) * t;
    assert (v * (2 * h - 1)) * n == v * (2 * h - 1) * (2 * h * t);
    if h % 2 == 0 {
      assert 2 * h - 1 == 4 * (h / 2) - 1;
    } else {
      assert 2 * h - 1 == 4 * (h / 2) + 1;
    }
  }

  /** The spacing holds on every date range exactly for the honoured caps. */
  lemma HonouredIsExact(limit: nat, window: nat)
    requires limit >= 1 && window >= 1
    ensures Honoured(limit, window) <==>
      (forall days: nat, count: nat {:trigger Spaced(days, count, limit, window)} ::
        days >= 1 && Fits(days, count, limit, window) ==> Spaced(days, count, limit, window))
  {
    if Honoured(limit, window) {
      forall days: nat, count: nat | days >= 1 && Fits(days, count, limit, window)
        ensures Spaced(days, count, limit, window)
      {
        SpacedWhenHonoured(days, count, limit, window);
      }
    } else {
      var w := Breaking(limit, window);
      BreakingBreaks(limit, window);
      assert Fits(w.days, w.count, limit, window);
      assert !Spaced(w.days, w.count, limit, window);
    }
  }
}
