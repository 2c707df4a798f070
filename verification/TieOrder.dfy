/**
 Exactly when the order of ties shows in a soft warning. In its audience's sorted list a touch has
 some touches near before it, some at its own instant, and some near after it; its slice reaches
 2 * cap neighbours each way from wherever the order of ties puts it.
 */
module TieOrder {
  import opened Sequences
  import opened Instants
  import opened Touchpoints
  import opened FrequencyWarnings
  import opened WarningOrder

  // ---------------------------------------------------------------------------
  // The condition
  // ---------------------------------------------------------------------------

  /** How many touches are less than the window before an instant, at it, and less than the window after it. */
  datatype Around = Around(before: nat, tied: nat, later: nat)

  function AroundOf(times: seq<int>, at: int, window: int): (n: Around) {
    Around(InWindow(times, at - window + 1, window - 1), InWindow(times, at, 1), InWindow(times, at + 1, window - 1))
  }

  /** The same for a touch, itself included, among its audience's touches. */
  function AroundTouch(touches: seq<Touch>, t: Touch, window: int): (n: Around) {
    AroundOf(AudienceTimes(touches, t.audience), t.at, window)
  }

  /** No tie, or neither side ever truncated, or both sides always truncated. */
  predicate TiesDoNotShow(n: Around, cap: nat) {
    || n.tied == 1
    || (n.before + n.tied - 1 <= 2 * cap && n.later + n.tied - 1 <= 2 * cap)
    || (n.before >= 2 * cap && n.later >= 2 * cap)
  }

  predicate OrderFree(touches: seq<Touch>, t: Touch, cap: nat, window: int) {
    window <= 0 || TiesDoNotShow(AroundTouch(touches, t, window), cap)
  }

  /** Wherever the touch stands in whatever listing of the same touches, the pass says the same of it. */
  ghost predicate SameInEveryOrder(touches: seq<Touch>, i: nat, cap: nat, window: int)
    requires i < |touches|
  {
    forall b, j :: IsReordering(touches, i, b, j) ==> WarningOf(b, j, cap, window) == WarningOf(touches, i, cap, window)
  }

  ghost predicate IsReordering(touches: seq<Touch>, i: nat, b: seq<Touch>, j: int)
    requires i < |touches|
  {
    multiset(b) == multiset(touches) && 0 <= j < |b| && b[j] == touches[i]
  }

  // ---------------------------------------------------------------------------
  // Cutting a sorted list
  // ---------------------------------------------------------------------------

  /** How many sorted instants lie before `x`. */
  function Cut(s: seq<int>, x: int): (c: nat)
    requires Sorted(s)
    ensures c <= |s|
    ensures forall k :: 0 <= k < c ==> s[k] < x
    ensures forall k :: c <= k < |s| ==> s[k] >= x
  {
    if s == [] || s[|s| - 1] < x then |s| else Cut(s[..|s| - 1], x)
  }

  lemma CutOrder(s: seq<int>, x: int, y: int)
    requires Sorted(s) && x <= y
    ensures Cut(s, x) <= Cut(s, y)
  {
  }

  /** A window holds what lies between its two cuts, in the whole list and in any slice of it. */
  lemma WindowOfSlice(s: seq<int>, p: nat, q: nat, lo: nat, hi: nat, start: int, width: int)
    requires p <= lo <= hi <= q <= |s|
    requires forall k :: p <= k < q ==> (start <= s[k] < start + width <==> lo <= k < hi)
    ensures InWindow(s[p..q], start, width) == hi - lo
  {
    SliceHead(s, p, lo, q, start, width);
    SliceHead(s, lo, hi, q, start, width);
    InWindowZero(s[p..lo], start, width);
    InWindowAll(s[lo..hi], start, width);
    InWindowZero(s[hi..q], start, width);
  }

  lemma WindowOfCuts(s: seq<int>, start: int, width: int)
    requires Sorted(s) && width >= 0
    ensures Cut(s, start) <= Cut(s, start + width)
    ensures InWindow(s, start, width) == Cut(s, start + width) - Cut(s, start)
  {
    CutOrder(s, start, start + width);
    assert s[0..|s|] == s;
    WindowOfSlice(s, 0, |s|, Cut(s, start), Cut(s, start + width), start, width);
  }

  // ---------------------------------------------------------------------------
  // The count of a slice, in closed form
  // ---------------------------------------------------------------------------

  function Least(x: int, y: int): int { if x <= y then x else y }

  /** The count for a touch that `e` tied touches precede. */
  function CountAtTie(n: Around, cap: nat, e: int): int {
    1 + Least(n.before + e, 2 * cap) + Least(n.later + n.tied - 1 - e, 2 * cap)
  }

  /** Ranks `lo` to `hi` are near rank `r`, and those from `mid` on for `n.tied` are at its instant. */
  ghost predicate Laid(s: seq<int>, r: nat, window: int, n: Around, mid: nat) {
    && n.before <= mid <= r < mid + n.tied && mid + n.tied + n.later <= |s|
    && (forall k :: mid <= k < mid + n.tied ==> s[k] == s[r])
    && (forall k :: 0 <= k < |s| ==> (s[r] - window < s[k] < s[r] + window <==> mid - n.before <= k < mid + n.tied + n.later))
  }

  lemma CutsAround(s: seq<int>, r: nat, window: int) returns (mid: nat)
    requires Sorted(s) && r < |s| && window > 0
    ensures Laid(s, r, window, AroundOf(s, s[r], window), mid)
  {
    var t := s[r];
    WindowOfCuts(s, t - window + 1, window - 1);
    WindowOfCuts(s, t, 1);
    WindowOfCuts(s, t + 1, window - 1);
    mid := Cut(s, t);
  }

  lemma SliceCountIs(s: seq<int>, r: nat, cap: nat, window: int, lo: nat, hi: nat)
    requires r < |s| && window > 0 && lo <= r < hi <= |s|
    requires forall k :: 0 <= k < |s| ==> (s[r] - window < s[k] < s[r] + window <==> lo <= k < hi)
    ensures SliceCount(s, r, cap, window) == 1 + Least(r - lo, 2 * cap) + Least(hi - 1 - r, 2 * cap)
  {
    var p, q := SliceStart(r, cap), SliceEnd(|s|, r, cap);
    var from, to := if p < lo then lo else p, if hi < q then hi else q;
    WindowOfSlice(s, p, q, from, to, s[r] - window + 1, 2 * window - 1);
  }

  /** Among the tied ranks, what the pass counts depends on how many of them come first. */
  lemma CountAtRank(s: seq<int>, r: nat, cap: nat, window: int, n: Around, mid: nat, k: nat)
    requires r < |s| && window > 0 && Laid(s, r, window, n, mid) && mid <= k < mid + n.tied
    ensures SliceCount(s, k, cap, window) == CountAtTie(n, cap, k - mid)
  {
    SliceCountIs(s, k, cap, window, mid - n.before, mid + n.tied + n.later);
  }

  lemma SameForEveryTie(n: Around, cap: nat, e: nat, f: nat)
    requires TiesDoNotShow(n, cap) && e < n.tied && f < n.tied
    ensures CountAtTie(n, cap, e) == CountAtTie(n, cap, f)
  {
  }

  /** Otherwise the count changes at the first or at the last tie, so some tie differs from any given one. */
  lemma SomeTieDiffers(n: Around, cap: nat, e: nat) returns (f: nat)
    requires !TiesDoNotShow(n, cap) && e < n.tied
    ensures f < n.tied && CountAtTie(n, cap, f) != CountAtTie(n, cap, e)
  {
    var c := CountAtTie(n, cap, e);
    if CountAtTie(n, cap, 0) != c {
      f := 0;
    } else if CountAtTie(n, cap, 1) != c {
      f := 1;
    } else if CountAtTie(n, cap, n.tied - 2) != c {
      f := n.tied - 2;
    } else {
      f := n.tied - 1;
    }
  }

  /** Two ranks at one instant whose slices hold different numbers get different warnings. */
  lemma DifferentCounts(s: seq<int>, r: nat, k: nat, cap: nat, window: int)
    requires Sorted(s) && r < |s| && k < |s| && s[k] == s[r]
    requires SliceCount(s, r, cap, window) != SliceCount(s, k, cap, window)
    ensures SliceWarning(s, r, cap, window) != SliceWarning(s, k, cap, window)
  {
    SliceIsEnough(s, r, cap, window);
    SliceIsEnough(s, k, cap, window);
  }

  /** Where ties do show, some tied rank gets a different warning. */
  lemma DifferentRank(s: seq<int>, r: nat, cap: nat, window: int) returns (k: nat)
    requires Sorted(s) && r < |s| && window > 0 && !TiesDoNotShow(AroundOf(s, s[r], window), cap)
    ensures k < |s| && s[k] == s[r] && SliceWarning(s, k, cap, window) != SliceWarning(s, r, cap, window)
  {
    var n := AroundOf(s, s[r], window);
    var mid := CutsAround(s, r, window);
    var f := SomeTieDiffers(n, cap, r - mid);
    k := mid + f;
    CountAtRank(s, r, cap, window, n, mid, r);
    CountAtRank(s, r, cap, window, n, mid, k);
    DifferentCounts(s, r, k, cap, window);
  }

  lemma CountOfRank(s: seq<int>, r: nat, cap: nat, window: int, n: Around) returns (e: nat)
    requires Sorted(s) && r < |s| && window > 0 && n == AroundOf(s, s[r], window)
    ensures e < n.tied && SliceCount(s, r, cap, window) == CountAtTie(n, cap, e)
  {
    var mid := CutsAround(s, r, window);
    CountAtRank(s, r, cap, window, n, mid, r);
    e := r - mid;
  }

  /** Where they do not, the count depends on the three numbers alone. */
  lemma SameRank(s: seq<int>, r: nat, t: seq<int>, q: nat, cap: nat, window: int, n: Around)
    requires Sorted(s) && r < |s| && Sorted(t) && q < |t| && window > 0
    requires n == AroundOf(s, s[r], window) && n == AroundOf(t, t[q], window) && TiesDoNotShow(n, cap)
    ensures SliceCount(s, r, cap, window) == SliceCount(t, q, cap, window)
  {
    var e := CountOfRank(s, r, cap, window, n);
    var f := CountOfRank(t, q, cap, window, n);
    SameForEveryTie(n, cap, e, f);
  }

  // ---------------------------------------------------------------------------
  // Touches
  // ---------------------------------------------------------------------------

  function SortedTimes(touches: seq<Touch>, audience: int): (s: seq<int>) {
    TimesAt(touches, Visit(touches, audience))
  }

  lemma AroundPermutes(x: seq<int>, y: seq<int>, at: int, window: int)
    requires multiset(x) == multiset(y)
    ensures AroundOf(x, at, window) == AroundOf(y, at, window)
  {
    InWindowPermutes(x, y, at - window + 1, window - 1);
    InWindowPermutes(x, y, at, 1);
    InWindowPermutes(x, y, at + 1, window - 1);
  }

  lemma AroundSorted(touches: seq<Touch>, t: Touch, window: int)
    ensures AroundOf(SortedTimes(touches, t.audience), t.at, window) == AroundTouch(touches, t, window)
  {
    VisitTimes(touches, t.audience);
    AroundPermutes(SortedTimes(touches, t.audience), AudienceTimes(touches, t.audience), t.at, window);
  }

  lemma AroundReordered(a: seq<Touch>, b: seq<Touch>, t: Touch, window: int)
    requires multiset(a) == multiset(b)
    ensures AroundTouch(a, t, window) == AroundTouch(b, t, window)
  {
    SelectPermutes(a, b, ToAudience(t.audience));
    AroundPermutes(AudienceTimes(a, t.audience), AudienceTimes(b, t.audience), t.at, window);
  }

  /** Where touch `i` stands among its audience. */
  lemma RankOf(touches: seq<Touch>, i: nat, cap: nat, window: int) returns (r: nat)
    requires i < |touches|
    ensures var s := SortedTimes(touches, touches[i].audience);
      && Sorted(s) && r < |s| && s[r] == touches[i].at
      && WarningOf(touches, i, cap, window) == SliceWarning(s, r, cap, window)
  {
    VisitedOnce(touches, touches[i].audience);
    VisitIsSorted(touches, touches[i].audience);
    r := RankIn(Visit(touches, touches[i].audience), i);
  }

  /** The touch visited at a rank. */
  lemma TouchAt(touches: seq<Touch>, audience: int, r: nat, cap: nat, window: int) returns (j: nat)
    requires r < |SortedTimes(touches, audience)|
    ensures j < |touches| && touches[j].audience == audience && touches[j].at == SortedTimes(touches, audience)[r]
    ensures WarningOf(touches, j, cap, window) == SliceWarning(SortedTimes(touches, audience), r, cap, window)
  {
    j := Visit(touches, audience)[r];
    RankOfVisited(touches, audience, r, cap, window);
  }

  /** Where ties do show, some touch tied with this one gets a different warning. */
  lemma DifferentTie(touches: seq<Touch>, i: nat, cap: nat, window: int) returns (j: nat)
    requires i < |touches| && !OrderFree(touches, touches[i], cap, window)
    ensures j < |touches| && touches[j].audience == touches[i].audience && touches[j].at == touches[i].at
    ensures WarningOf(touches, j, cap, window) != WarningOf(touches, i, cap, window)
  {
    var a := touches[i].audience;
    var r := RankOf(touches, i, cap, window);
    AroundSorted(touches, touches[i], window);
    var k := DifferentRank(SortedTimes(touches, a), r, cap, window);
    j := TouchAt(touches, a, k, cap, window);
  }

  lemma SameWhenOrderFree(a: seq<Touch>, b: seq<Touch>, i: nat, j: nat, cap: nat, window: int)
    requires i < |a| && IsReordering(a, i, b, j) && window > 0 && OrderFree(a, a[i], cap, window)
    ensures WarningOf(b, j, cap, window) == WarningOf(a, i, cap, window)
  {
    var r := RankOf(a, i, cap, window);
    var q := RankOf(b, j, cap, window);
    AroundSorted(a, a[i], window);
    AroundSorted(b, b[j], window);
    AroundReordered(a, b, a[i], window);
    SameRank(SortedTimes(a, a[i].audience), r, SortedTimes(b, b[j].audience), q, cap, window, AroundTouch(a, a[i], window));
  }

  lemma SameWithoutWindow(a: seq<Touch>, b: seq<Touch>, i: nat, j: nat, cap: nat, window: int)
    requires i < |a| && IsReordering(a, i, b, j) && window <= 0
    ensures WarningOf(b, j, cap, window) == WarningOf(a, i, cap, window)
  {
    NothingNear(AudienceTimes(a, a[i].audience), a[i].at, window);
    OrderKeepsFlags(a, b, i, j, cap, window);
  }

  lemma NothingNear(times: seq<int>, at: int, window: int)
    requires window <= 0
    ensures Near(times, at, window) == 0
  {
    InWindowZero(times, at - window + 1, 2 * window - 1);
  }

  lemma SameIfOrderFree(a: seq<Touch>, b: seq<Touch>, i: nat, j: nat, cap: nat, window: int)
    requires i < |a| && IsReordering(a, i, b, j) && OrderFree(a, a[i], cap, window)
    ensures WarningOf(b, j, cap, window) == WarningOf(a, i, cap, window)
  {
    if window > 0 {
      SameWhenOrderFree(a, b, i, j, cap, window);
    } else {
      SameWithoutWindow(a, b, i, j, cap, window);
    }
  }

  lemma SomeOrderDiffers(touches: seq<Touch>, i: nat, cap: nat, window: int) returns (b: seq<Touch>, j: nat)
    requires i < |touches| && !OrderFree(touches, touches[i], cap, window)
    ensures IsReordering(touches, i, b, j) && WarningOf(b, j, cap, window) != WarningOf(touches, i, cap, window)
  {
    j := DifferentTie(touches, i, cap, window);
    b := touches[i := touches[j]][j := touches[i]];
    SwapKeepsWarnings(touches, b, i, j, cap, window);
  }

  /**
   A touch's warning is the same in every order of the same touches if and only if it is tied with
   no other touch, or neither side of its slice is ever truncated, or both sides always are.
   */
  lemma SameInEveryOrderIff(touches: seq<Touch>, i: nat, cap: nat, window: int)
    requires i < |touches|
    ensures SameInEveryOrder(touches, i, cap, window) <==> OrderFree(touches, touches[i], cap, window)
  {
    if OrderFree(touches, touches[i], cap, window) {
      forall b, j | IsReordering(touches, i, b, j) ensures WarningOf(b, j, cap, window) == WarningOf(touches, i, cap, window) {
        SameIfOrderFree(touches, b, i, j, cap, window);
      }
    } else {
      var b, j := SomeOrderDiffers(touches, i, cap, window);
    }
  }
}
