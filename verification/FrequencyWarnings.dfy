/**
 `detect_frequency_warnings`: an in-place pass that looks at 2 * cap neighbours on each side of
 a touch in its audience's sorted list, proved to flag exactly what a scan of the whole
 audience would flag.
 */
module FrequencyWarnings {
  import opened Sequences
  import opened Instants
  import opened Touchpoints

  const DEFAULT_CAP: nat := 3
  const DEFAULT_WINDOW := 7 * DAY

  // ---------------------------------------------------------------------------
  // The naive reading
  // ---------------------------------------------------------------------------

  /** How many instants lie strictly less than `window` away from `at`. */
  function Near(times: seq<int>, at: int, window: int): (n: nat) {
    InWindow(times, at - window + 1, 2 * window - 1)
  }

  /** How many touches of its audience, itself included, are near touch `t`. */
  function Nearby(touches: seq<Touch>, t: Touch, window: int): (n: nat) {
    Near(AudienceTimes(touches, t.audience), t.at, window)
  }

  /** What a full scan allows a warning to be: present when more than `cap` touches are near,
      and with their exact number up to 2 * cap + 1, beyond which the number may be low. */
  ghost predicate Agrees(w: Option<Warning>, full: nat, cap: nat, window: int) {
    && (w.Some? <==> full > cap)
    && (w.Some? ==>
          && w.value.capPerDays == window / DAY && w.value.limit == cap
          && w.value.countInWindow <= full
          && (w.value.countInWindow == full || w.value.countInWindow > 2 * cap))
  }

  // ---------------------------------------------------------------------------
  // The truncated slice
  // ---------------------------------------------------------------------------

  function SliceStart(r: nat, cap: nat): nat { if r < 2 * cap then 0 else r - 2 * cap }

  function SliceEnd(n: nat, r: nat, cap: nat): nat { if r + 2 * cap + 1 < n then r + 2 * cap + 1 else n }

  function SliceCount(s: seq<int>, r: nat, cap: nat, window: int): (n: nat)
    requires r < |s|
  {
    Near(s[SliceStart(r, cap)..SliceEnd(|s|, r, cap)], s[r], window)
  }

  function SliceWarning(s: seq<int>, r: nat, cap: nat, window: int): (w: Option<Warning>)
    requires r < |s|
  {
    var n := SliceCount(s, r, cap, window);
    if n > cap then Some(Warning(window / DAY, cap, n)) else None
  }

  /** In a sorted list the touches near one are contiguous around it, so a slice that misses
      some is itself full. */
  lemma SliceIsEnough(s: seq<int>, r: nat, cap: nat, window: int)
    requires Sorted(s) && r < |s|
    ensures var full, slice := Near(s, s[r], window), SliceCount(s, r, cap, window);
      slice <= full && (slice == full || slice > 2 * cap)
  {
    var lo, hi := SliceStart(r, cap), SliceEnd(|s|, r, cap);
    var start, width := s[r] - window + 1, 2 * window - 1;
    SplitAround(s, lo, hi, start, width);
    if window <= 0 {
      InWindowZero(s, start, width);
    } else if InWindow(s[..lo], start, width) > 0 {
      LeftFull(s, lo, r, hi, start, width);
    } else if InWindow(s[hi..], start, width) > 0 {
      RightFull(s, lo, r, hi, start, width);
    }
  }

  lemma SplitAround(s: seq<int>, lo: nat, hi: nat, start: int, width: int)
    requires lo <= hi <= |s|
    ensures InWindow(s, start, width)
         == InWindow(s[..lo], start, width) + InWindow(s[lo..hi], start, width) + InWindow(s[hi..], start, width)
  {
    InWindowSplit(s, hi, start, width);
    InWindowSplit(s[..hi], lo, start, width);
    assert s[..hi][..lo] == s[..lo];
  }

  lemma LeftFull(s: seq<int>, lo: nat, r: nat, hi: nat, start: int, width: int)
    requires Sorted(s) && lo <= r < hi <= |s| && s[r] < start + width
    requires InWindow(s[..lo], start, width) > 0
    ensures InWindow(s[lo..hi], start, width) >= r + 1 - lo
  {
    var k := InWindowFirst(s[..lo], start, width);
    assert s[..lo][k] == s[k] <= s[lo];
    SliceHead(s, lo, r + 1, hi, start, width);
    InWindowSlice(s, lo, r + 1, start, width);
  }

  lemma RightFull(s: seq<int>, lo: nat, r: nat, hi: nat, start: int, width: int)
    requires Sorted(s) && lo <= r < hi <= |s| && start <= s[r]
    requires InWindow(s[hi..], start, width) > 0
    ensures InWindow(s[lo..hi], start, width) >= hi - r
  {
    var k := InWindowFirst(s[hi..], start, width);
    assert s[hi - 1] <= s[hi + k] < start + width;
    SliceHead(s, lo, r, hi, start, width);
    InWindowSlice(s, r, hi, start, width);
  }

  lemma SliceHead(s: seq<int>, lo: nat, mid: nat, hi: nat, start: int, width: int)
    requires lo <= mid <= hi <= |s|
    ensures InWindow(s[lo..hi], start, width) == InWindow(s[lo..mid], start, width) + InWindow(s[mid..hi], start, width)
  {
    assert s[lo..hi] == s[lo..mid] + s[mid..hi];
    InWindowAppend(s[lo..mid], s[mid..hi], start, width);
  }

  // ---------------------------------------------------------------------------
  // Grouping and sorting by audience
  // ---------------------------------------------------------------------------

  /** The rows of an audience among the first `n`, in list order. */
  function Rows(touches: seq<Touch>, audience: int, n: nat): (r: seq<int>)
    requires n <= |touches|
  {
    Indices(touches, ToAudience(audience), n)
  }

  function Ats(touches: seq<Touch>): (r: seq<int>)
    ensures |r| == |touches|
  {
    seq(|touches|, i requires 0 <= i < |touches| => touches[i].at)
  }

  function TimeKey(ats: seq<int>): int -> SortKey {
    i => if 0 <= i < |ats| then (ats[i], 0) else (0, 0)
  }

  /** An audience's rows in the order the pass visits them. */
  function Visit(touches: seq<Touch>, audience: int): (r: seq<int>)
    ensures forall k :: 0 <= k < |r| ==> 0 <= r[k] < |touches| && touches[r[k]].audience == audience
  {
    var rows := Rows(touches, audience, |touches|);
    var r := SortBy(rows, TimeKey(Ats(touches)));
    IndicesMembers(touches, ToAudience(audience), |touches|);
    SameMembers(r, rows);
    assert forall k :: 0 <= k < |r| ==> r[k] in rows;
    r
  }

  function AtOf(ats: seq<int>): int -> int {
    i => if 0 <= i < |ats| then ats[i] else 0
  }

  function TimesAt(touches: seq<Touch>, rows: seq<int>): (r: seq<int>) {
    Map(rows, AtOf(Ats(touches)))
  }

  /** Visiting order changes nothing a full scan can see, and it is sorted. */
  lemma VisitTimes(touches: seq<Touch>, audience: int)
    ensures Sorted(TimesAt(touches, Visit(touches, audience)))
    ensures multiset(TimesAt(touches, Visit(touches, audience))) == multiset(AudienceTimes(touches, audience))
  {
    VisitIsSorted(touches, audience);
    SelectByIndices(touches, ToAudience(audience), AtOf(Ats(touches)), |touches|);
    MapPermutes(Visit(touches, audience), Rows(touches, audience, |touches|), AtOf(Ats(touches)));
    assert touches[..|touches|] == touches;
  }

  lemma VisitIsSorted(touches: seq<Touch>, audience: int)
    ensures Sorted(TimesAt(touches, Visit(touches, audience)))
  {
    var visit := Visit(touches, audience);
    forall i, j | 0 <= i < j < |visit| ensures touches[visit[i]].at <= touches[visit[j]].at {
      assert Leq(TimeKey(Ats(touches))(visit[i]), TimeKey(Ats(touches))(visit[j]));
    }
  }

  // ---------------------------------------------------------------------------
  // The pass
  // ---------------------------------------------------------------------------

  /** The warning the pass gives the touch it visits at rank `r` of its audience. */
  function WarningAt(touches: seq<Touch>, audience: int, r: nat, cap: nat, window: int): (w: Option<Warning>)
    requires r < |Visit(touches, audience)|
  {
    SliceWarning(TimesAt(touches, Visit(touches, audience)), r, cap, window)
  }

  lemma WarningAgrees(touches: seq<Touch>, audience: int, r: nat, cap: nat, window: int)
    requires r < |Visit(touches, audience)|
    ensures var t := touches[Visit(touches, audience)[r]];
      Agrees(WarningAt(touches, audience, r, cap, window), Nearby(touches, t, window), cap, window)
  {
    var s := TimesAt(touches, Visit(touches, audience));
    VisitIsSorted(touches, audience);
    SliceIsEnough(s, r, cap, window);
    FullCountIsNearby(touches, audience, r, window);
  }

  lemma FullCountIsNearby(touches: seq<Touch>, audience: int, r: nat, window: int)
    requires r < |Visit(touches, audience)|
    ensures var s := TimesAt(touches, Visit(touches, audience));
      Near(s, s[r], window) == Nearby(touches, touches[Visit(touches, audience)[r]], window)
  {
    var s := TimesAt(touches, Visit(touches, audience));
    VisitTimes(touches, audience);
    NearPermutes(s, AudienceTimes(touches, audience), s[r], window);
  }

  lemma NearPermutes(a: seq<int>, b: seq<int>, at: int, window: int)
    requires multiset(a) == multiset(b)
    ensures Near(a, at, window) == Near(b, at, window)
  {
    InWindowPermutes(a, b, at - window + 1, 2 * window - 1);
  }

  /** Every row is visited exactly once, under its own audience. */
  lemma VisitedOnce(touches: seq<Touch>, audience: int)
    ensures forall i :: 0 <= i < |touches| && touches[i].audience == audience ==> i in Visit(touches, audience)
    ensures Distinct(Visit(touches, audience))
  {
    var rows, visit := Rows(touches, audience, |touches|), Visit(touches, audience);
    IndicesMembers(touches, ToAudience(audience), |touches|);
    DistinctPermutes(rows, visit);
    SameMembers(rows, visit);
  }

  function RankIn(order: seq<int>, i: int): (r: nat)
    requires i in order
    ensures r < |order| && order[r] == i
  {
    if order[|order| - 1] == i then |order| - 1 else RankIn(order[..|order| - 1], i)
  }

  function WarningOf(touches: seq<Touch>, i: nat, cap: nat, window: int): (w: Option<Warning>)
    requires i < |touches|
  {
    var a := touches[i].audience;
    VisitedOnce(touches, a);
    WarningAt(touches, a, RankIn(Visit(touches, a), i), cap, window)
  }

  /** The truncated pass and the full scan agree on every touch. */
  lemma WarningOfAgrees(touches: seq<Touch>, i: nat, cap: nat, window: int)
    requires i < |touches|
    ensures Agrees(WarningOf(touches, i, cap, window), Nearby(touches, touches[i], window), cap, window)
  {
    var a := touches[i].audience;
    VisitedOnce(touches, a);
    WarningAgrees(touches, a, RankIn(Visit(touches, a), i), cap, window);
  }

  /** The list after the pass. */
  function Warned(touches: seq<Touch>, cap: nat, window: int): (r: seq<Touch>)
    ensures |r| == |touches|
  {
    seq(|touches|, i requires 0 <= i < |touches| => touches[i].(warning := WarningOf(touches, i, cap, window)))
  }

  ghost predicate SameSchedule(a: seq<Touch>, b: seq<Touch>) {
    |a| == |b| && forall i :: 0 <= i < |a| ==> a[i].audience == b[i].audience && a[i].at == b[i].at
  }

  lemma {:induction false} SameRows(a: seq<Touch>, b: seq<Touch>, audience: int, n: nat)
    requires SameSchedule(a, b) && n <= |a|
    ensures Rows(a, audience, n) == Rows(b, audience, n)
  {
    if n > 0 {
      SameRows(a, b, audience, n - 1);
    }
  }

  lemma SameWarnings(a: seq<Touch>, b: seq<Touch>, i: nat, cap: nat, window: int)
    requires SameSchedule(a, b) && i < |a|
    ensures WarningOf(a, i, cap, window) == WarningOf(b, i, cap, window)
  {
    var audience := a[i].audience;
    SameRows(a, b, audience, |a|);
    assert Ats(a) == Ats(b);
    assert Visit(a, audience) == Visit(b, audience);
    assert TimesAt(a, Visit(a, audience)) == TimesAt(b, Visit(b, audience));
  }

  /** The pass reads the schedule, never the warnings already there. */
  lemma WarnedReadsSchedule(a: seq<Touch>, b: seq<Touch>, cap: nat, window: int)
    requires |a| == |b|
    requires forall i :: 0 <= i < |a| ==> a[i].(warning := None) == b[i].(warning := None)
    ensures Warned(a, cap, window) == Warned(b, cap, window)
  {
    forall i | 0 <= i < |a| ensures Warned(a, cap, window)[i] == Warned(b, cap, window)[i] {
      assert a[i].(warning := None) == b[i].(warning := None);
      assert SameSchedule(a, b);
      SameWarnings(a, b, i, cap, window);
    }
  }

  /** Running the pass again changes nothing. */
  lemma WarnedIsIdempotent(touches: seq<Touch>, cap: nat, window: int)
    ensures Warned(Warned(touches, cap, window), cap, window) == Warned(touches, cap, window)
  {
    WarnedReadsSchedule(Warned(touches, cap, window), touches, cap, window);
  }

  lemma WarnedAgrees(touches: seq<Touch>, cap: nat, window: int)
    ensures forall i :: 0 <= i < |touches| ==>
      Agrees(Warned(touches, cap, window)[i].warning, Nearby(touches, touches[i], window), cap, window)
    ensures forall i :: 0 <= i < |touches| ==> Warned(touches, cap, window)[i].(warning := None) == touches[i].(warning := None)
  {
    forall i | 0 <= i < |touches|
      ensures Agrees(Warned(touches, cap, window)[i].warning, Nearby(touches, touches[i], window), cap, window)
    {
      WarningOfAgrees(touches, i, cap, window);
    }
  }

  // ---------------------------------------------------------------------------
  // The pass, in place
  // ---------------------------------------------------------------------------

  method CountNear(times: seq<int>, at: int, window: int) returns (n: nat)
    ensures n == Near(times, at, window)
  {
    n := 0;
    for i := 0 to |times|
      invariant n == Near(times[..i], at, window)
    {
      assert times[..i + 1][..i] == times[..i];
      var gap := if times[i] >= at then times[i] - at else at - times[i];
      if gap < window {
        n := n + 1;
      }
    }
    assert times[..|times|] == times;
  }

  method DetectFrequencyWarnings(tps: array<Touch>, cap: nat, window: int)
    modifies tps
    ensures tps[..] == Warned(old(tps[..]), cap, window)
    ensures forall i :: 0 <= i < tps.Length ==>
      Agrees(tps[i].warning, Nearby(old(tps[..]), old(tps[i]), window), cap, window)
  {
    ghost var before := tps[..];
    ClearWarnings(tps);
    WarnedReadsSchedule(tps[..], before, cap, window);
    WarnAudiences(tps, cap, window);
    WarnedAgrees(before, cap, window);
  }

  method ClearWarnings(tps: array<Touch>)
    modifies tps
    ensures forall k :: 0 <= k < tps.Length ==> tps[k] == old(tps[k]).(warning := None)
  {
    for i := 0 to tps.Length
      invariant forall k :: 0 <= k < i ==> tps[k] == old(tps[k]).(warning := None)
      invariant forall k :: i <= k < tps.Length ==> tps[k] == old(tps[k])
    {
      tps[i] := tps[i].(warning := None);
    }
  }

  method WarnAudiences(tps: array<Touch>, cap: nat, window: int)
    requires forall i :: 0 <= i < tps.Length ==> tps[i].warning == None
    modifies tps
    ensures tps[..] == Warned(old(tps[..]), cap, window)
  {
    var touches := tps[..];
    var rowsOf := GroupByAudience(touches);
    var todo: set<int> := rowsOf.Keys;
    ghost var want := Warned(touches, cap, window);
    while todo != {}
      invariant todo <= rowsOf.Keys
      invariant forall i :: 0 <= i < tps.Length ==> tps[i] == if touches[i].audience in todo then touches[i] else want[i]
      decreases |todo|
    {
      var a := PickOne(todo);
      WarnAudience(tps, touches, a, rowsOf[a], cap, window);
      todo := todo - {a};
    }
  }

  method GroupByAudience(touches: seq<Touch>) returns (rowsOf: map<int, seq<int>>)
    ensures forall i :: 0 <= i < |touches| ==> touches[i].audience in rowsOf
    ensures forall a :: a in rowsOf ==> rowsOf[a] == Rows(touches, a, |touches|)
  {
    rowsOf := map[];
    for n := 0 to |touches|
      invariant forall i :: 0 <= i < n ==> touches[i].audience in rowsOf
      invariant forall a :: a in rowsOf ==> rowsOf[a] == Rows(touches, a, n)
    {
      var a := touches[n].audience;
      if a !in rowsOf {
        IndicesEmpty(touches, ToAudience(a), n);
      }
      rowsOf := rowsOf[a := (if a in rowsOf then rowsOf[a] else []) + [n]];
    }
  }

  ghost predicate WrittenAt(touches: seq<Touch>, a: int, cap: nat, window: int, i: nat, r: nat)
    requires i < |touches|
  {
    && r < |Visit(touches, a)| && Visit(touches, a)[r] == i
    && Warned(touches, cap, window)[i] == touches[i].(warning := WarningAt(touches, a, r, cap, window))
  }

  /** Rank by rank is the same as row by row. */
  lemma WarnedByRank(touches: seq<Touch>, a: int, cap: nat, window: int)
    ensures forall i :: 0 <= i < |touches| && touches[i].audience == a ==>
      exists r: nat :: WrittenAt(touches, a, cap, window, i, r)
  {
    VisitedOnce(touches, a);
    forall i | 0 <= i < |touches| && touches[i].audience == a
      ensures exists r: nat :: WrittenAt(touches, a, cap, window, i, r)
    {
      assert WrittenAt(touches, a, cap, window, i, RankIn(Visit(touches, a), i));
    }
  }

  /** One audience: sort its rows, then write a warning on each row whose slice is over the cap. */
  method WarnAudience(tps: array<Touch>, touches: seq<Touch>, a: int, rows: seq<int>, cap: nat, window: int)
    requires tps.Length == |touches| && rows == Rows(touches, a, |touches|)
    requires forall i :: 0 <= i < |touches| ==> touches[i].warning == None
    requires forall i :: 0 <= i < |touches| && touches[i].audience == a ==> tps[i] == touches[i]
    modifies tps
    ensures forall i :: 0 <= i < |touches| ==>
      tps[i] == if touches[i].audience == a then Warned(touches, cap, window)[i] else old(tps[i])
  {
    var order := SortBy(rows, TimeKey(Ats(touches)));
    assert order == Visit(touches, a);
    var ws := SliceWarnings(TimesAt(touches, order), cap, window);
    VisitedOnce(touches, a);
    WriteWarnings(tps, order, ws);
    WarnedByRank(touches, a, cap, window);
    forall i | 0 <= i < |touches| && touches[i].audience == a ensures tps[i] == Warned(touches, cap, window)[i] {
      var r: nat :| WrittenAt(touches, a, cap, window, i, r);
      assert order[r] == i;
    }
  }

  method SliceWarnings(times: seq<int>, cap: nat, window: int) returns (ws: seq<Option<Warning>>)
    ensures |ws| == |times|
    ensures forall r :: 0 <= r < |times| ==> ws[r] == SliceWarning(times, r, cap, window)
  {
    ws := [];
    for r := 0 to |times|
      invariant |ws| == r
      invariant forall k :: 0 <= k < r ==> ws[k] == SliceWarning(times, k, cap, window)
    {
      var n := CountNear(times[SliceStart(r, cap)..SliceEnd(|times|, r, cap)], times[r], window);
      ws := ws + [if n > cap then Some(Warning(window / DAY, cap, n)) else None];
    }
  }

  method WriteWarnings(tps: array<Touch>, order: seq<int>, ws: seq<Option<Warning>>)
    requires |ws| == |order| && Distinct(order)
    requires forall k :: 0 <= k < |order| ==> 0 <= order[k] < tps.Length && tps[order[k]].warning == None
    modifies tps
    ensures forall k :: 0 <= k < |order| ==> tps[order[k]] == old(tps[order[k]]).(warning := ws[k])
    ensures forall i :: 0 <= i < tps.Length && i !in order ==> tps[i] == old(tps[i])
  {
    for r := 0 to |order|
      invariant forall k :: 0 <= k < r ==> tps[order[k]] == old(tps[order[k]]).(warning := ws[k])
      invariant forall k :: r <= k < |order| ==> tps[order[k]] == old(tps[order[k]])
      invariant forall i :: 0 <= i < tps.Length && i !in order ==> tps[i] == old(tps[i])
    {
      if ws[r].Some? {
        tps[order[r]] := tps[order[r]].(warning := ws[r]);
      }
    }
  }
}
