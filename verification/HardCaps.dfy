/**
 `enforce_hard_caps`: an anchored sliding-window scan, proved against the naive reading of
 a cap: no half-open window of its length, wherever it starts, holds more than `limit`
 touches of its platform.
 */
module HardCaps {
  import opened Sequences
  import opened Touchpoints

  datatype Violation = Violation(platform: string, per: Per, limit: int, observed: nat, windowStart: int)

  ghost predicate Crowded(times: seq<int>, width: int, limit: int) {
    exists start: int :: InWindow(times, start, width) > limit
  }

  ghost predicate Breached(touches: seq<Touch>, cap: Cap) {
    WellFormed(cap) && Crowded(Times(touches, cap.platform), Window(cap), cap.limit.value)
  }

  ghost predicate MeetsCaps(touches: seq<Touch>, caps: seq<Cap>) {
    forall k :: 0 <= k < |caps| ==> !Breached(touches, caps[k])
  }

  /** The report for a breached cap: the earliest touch whose window is overfull, and how many
      touches that window really holds. */
  ghost predicate IsReport(v: Violation, touches: seq<Touch>, cap: Cap)
    requires WellFormed(cap)
  {
    var times := Times(touches, cap.platform);
    && v.platform == cap.platform && v.per == cap.per && v.limit == cap.limit.value
    && v.windowStart in times
    && v.observed == InWindow(times, v.windowStart, Window(cap))
    && v.observed > v.limit
    && forall t :: t in times && t < v.windowStart ==> InWindow(times, t, Window(cap)) <= v.limit
  }

  /** One report per breached cap, in the caps' order, and nothing else. */
  ghost predicate Reports(vs: seq<Violation>, touches: seq<Touch>, caps: seq<Cap>) {
    if caps == [] then vs == []
    else
      var n := |caps| - 1;
      if Breached(touches, caps[n]) then
        vs != [] && IsReport(vs[|vs| - 1], touches, caps[n]) && Reports(vs[..|vs| - 1], touches, caps[..n])
      else Reports(vs, touches, caps[..n])
  }

  lemma {:induction false} NoReportsIffMet(vs: seq<Violation>, touches: seq<Touch>, caps: seq<Cap>)
    requires Reports(vs, touches, caps)
    ensures vs == [] <==> MeetsCaps(touches, caps)
  {
    if caps != [] {
      var n := |caps| - 1;
      assert forall k :: 0 <= k < n ==> caps[..n][k] == caps[k];
      if !Breached(touches, caps[n]) {
        NoReportsIffMet(vs, touches, caps[..n]);
      }
    }
  }

  /** Any overfull window can be slid right to start on a touch, so anchors are enough. */
  lemma CrowdedAtATouch(times: seq<int>, width: int, limit: int) returns (k: nat)
    requires limit >= 0 && Crowded(times, width, limit)
    ensures k < |times| && InWindow(times, times[k], width) > limit
  {
    var start :| InWindow(times, start, width) > limit;
    k := InWindowFirst(times, start, width);
    InWindowSlides(times, start, times[k], width);
  }

  /** What the inner loop counts for anchor `i`: the touches from `i` on, up to the first too late. */
  function Scan(s: seq<int>, i: nat, width: int): (n: nat)
    requires i < |s|
  {
    InWindow(s[i..], s[i], width)
  }

  method ScanAnchor(s: seq<int>, i: nat, width: int) returns (count: nat)
    requires Sorted(s) && i < |s| && width > 0
    ensures count == Scan(s, i, width)
  {
    count := 1;
    var j := i + 1;
    while j < |s| && s[j] - s[i] < width
      invariant i < j <= |s|
      invariant count == j - i
      invariant forall k :: i <= k < j ==> s[i] <= s[k] < s[i] + width
    {
      count := count + 1;
      j := j + 1;
    }
    InWindowHead(s[i..], j - i, s[i], width);
  }

  /** Among equal touches the leftmost one's scan is the true count of their window. */
  lemma {:induction false} LeftmostScan(s: seq<int>, i: nat, width: int) returns (k: nat)
    requires Sorted(s) && i < |s|
    ensures k <= i && s[k] == s[i]
    ensures InWindow(s, s[i], width) == Scan(s, k, width)
  {
    if i > 0 && s[i - 1] == s[i] {
      k := LeftmostScan(s, i - 1, width);
    } else {
      k := i;
      InWindowDropBefore(s, i, s[i], width);
    }
  }

  lemma ScanIsPart(s: seq<int>, i: nat, width: int)
    requires i < |s|
    ensures Scan(s, i, width) <= InWindow(s, s[i], width)
  {
    InWindowSplit(s, i, s[i], width);
  }

  /** The first anchor that overflows has no equal touch before it, so its count is the true one. */
  lemma FirstOverflowIsTrueCount(s: seq<int>, i: nat, width: int, limit: int)
    requires Sorted(s) && i < |s|
    requires Scan(s, i, width) > limit
    requires forall k :: 0 <= k < i ==> Scan(s, k, width) <= limit
    ensures InWindow(s, s[i], width) == Scan(s, i, width)
  {
    ScanIsPart(s, i, width);
    var k := LeftmostScan(s, i, width);
    assert k == i;
  }

  /** Before the first overflowing anchor every window on a touch is within the limit. */
  lemma EarlierAnchors(s: seq<int>, i: nat, width: int, limit: int)
    requires Sorted(s) && i < |s|
    requires forall k :: 0 <= k < i ==> Scan(s, k, width) <= limit
    ensures forall t :: t in s && t < s[i] ==> InWindow(s, t, width) <= limit
  {
    forall t | t in s && t < s[i] ensures InWindow(s, t, width) <= limit {
      var j :| 0 <= j < |s| && s[j] == t;
      var k := LeftmostScan(s, j, width);
    }
  }

  /** If no anchor overflows then no window does. */
  lemma NoOverflowNoCrowd(s: seq<int>, width: int, limit: int)
    requires Sorted(s) && limit >= 0
    requires forall k :: 0 <= k < |s| ==> Scan(s, k, width) <= limit
    ensures !Crowded(s, width, limit)
  {
    if Crowded(s, width, limit) {
      var i := CrowdedAtATouch(s, width, limit);
      var k := LeftmostScan(s, i, width);
    }
  }

  method CheckCap(touches: seq<Touch>, cap: Cap) returns (v: Option<Violation>)
    requires WellFormed(cap)
    ensures v.Some? <==> Breached(touches, cap)
    ensures v.Some? ==> IsReport(v.value, touches, cap)
  {
    var width, limit := Window(cap), cap.limit.value;
    ghost var times := Times(touches, cap.platform);
    var matching := SortBy(Times(touches, cap.platform), (t: int) => (t, 0));
    SortedKeys(matching);
    SameWindows(times, matching);
    SameCrowds(times, matching, width, limit);
    if |matching| <= limit {
      return None;
    }
    var i := 0;
    while i < |matching|
      invariant 0 <= i <= |matching|
      invariant forall k :: 0 <= k < i ==> Scan(matching, k, width) <= limit
    {
      var count := ScanAnchor(matching, i, width);
      if count > limit {
        FirstOverflowIsTrueCount(matching, i, width, limit);
        EarlierAnchors(matching, i, width, limit);
        assert matching[i] in multiset(matching);
        v := Some(Violation(cap.platform, cap.per, limit, count, matching[i]));
        return;
      }
      i := i + 1;
    }
    NoOverflowNoCrowd(matching, width, limit);
    v := None;
  }

  lemma SortedKeys(s: seq<int>)
    requires SortedBy(s, (t: int) => (t, 0))
    ensures Sorted(s)
  {
    var key := (t: int) => (t, 0);
    forall i, j | 0 <= i < j < |s| ensures s[i] <= s[j] {
      assert Leq(key(s[i]), key(s[j]));
    }
  }

  lemma SameWindows(a: seq<int>, b: seq<int>)
    requires multiset(a) == multiset(b)
    ensures forall start, width :: InWindow(a, start, width) == InWindow(b, start, width)
    ensures forall t :: t in a <==> t in b
  {
    forall start, width ensures InWindow(a, start, width) == InWindow(b, start, width) {
      InWindowPermutes(a, b, start, width);
    }
    SameMembers(a, b);
  }

  method EnforceHardCaps(touches: seq<Touch>, caps: seq<Cap>) returns (violations: seq<Violation>)
    ensures Reports(violations, touches, caps)
    ensures violations == [] <==> MeetsCaps(touches, caps)
  {
    violations := [];
    if caps == [] || touches == [] {
      NothingToBreach(touches, caps);
    } else {
      for k := 0 to |caps|
        invariant Reports(violations, touches, caps[..k])
      {
        var cap := caps[k];
        assert caps[..k + 1][..k] == caps[..k];
        if WellFormed(cap) {
          var v := CheckCap(touches, cap);
          if v.Some? {
            violations := violations + [v.value];
          }
        }
      }
      assert caps[..|caps|] == caps;
    }
    NoReportsIffMet(violations, touches, caps);
  }

  lemma {:induction false} NothingToBreach(touches: seq<Touch>, caps: seq<Cap>)
    requires caps == [] || touches == []
    ensures Reports([], touches, caps)
  {
    if caps != [] {
      NothingToBreach(touches, caps[..|caps| - 1]);
      assert forall start, width :: InWindow([], start, width) == 0;
      assert Times([], caps[|caps| - 1].platform) == [];
    }
  }

  /** Whether a calendar meets its caps does not depend on the order it is listed in. */
  lemma MeetsCapsPermutes(a: seq<Touch>, b: seq<Touch>, caps: seq<Cap>)
    requires multiset(a) == multiset(b)
    ensures MeetsCaps(a, caps) <==> MeetsCaps(b, caps)
  {
    forall k | 0 <= k < |caps| ensures Breached(a, caps[k]) <==> Breached(b, caps[k]) {
      SameBreach(a, b, caps[k]);
    }
  }

  /** Nor do the reports. */
  lemma {:induction false} ReportsPermute(vs: seq<Violation>, a: seq<Touch>, b: seq<Touch>, caps: seq<Cap>)
    requires multiset(a) == multiset(b) && Reports(vs, a, caps)
    ensures Reports(vs, b, caps)
  {
    if caps != [] {
      var n := |caps| - 1;
      SameBreach(a, b, caps[n]);
      if Breached(a, caps[n]) {
        ReportsPermute(vs[..|vs| - 1], a, b, caps[..n]);
        SameReport(vs[|vs| - 1], a, b, caps[n]);
      } else {
        ReportsPermute(vs, a, b, caps[..n]);
      }
    }
  }

  lemma SameBreach(a: seq<Touch>, b: seq<Touch>, cap: Cap)
    requires multiset(a) == multiset(b)
    ensures Breached(a, cap) <==> Breached(b, cap)
  {
    SelectPermutes(a, b, OnPlatform(cap.platform));
    if WellFormed(cap) {
      SameCrowds(Times(a, cap.platform), Times(b, cap.platform), Window(cap), cap.limit.value);
    }
  }

  lemma SameReport(v: Violation, a: seq<Touch>, b: seq<Touch>, cap: Cap)
    requires multiset(a) == multiset(b) && WellFormed(cap) && IsReport(v, a, cap)
    ensures IsReport(v, b, cap)
  {
    SelectPermutes(a, b, OnPlatform(cap.platform));
    SameWindows(Times(a, cap.platform), Times(b, cap.platform));
  }

  lemma SameCrowds(a: seq<int>, b: seq<int>, width: int, limit: int)
    requires multiset(a) == multiset(b)
    ensures Crowded(a, width, limit) <==> Crowded(b, width, limit)
  {
    SameWindows(a, b);
    if Crowded(a, width, limit) {
      var start :| InWindow(a, start, width) > limit;
      assert InWindow(b, start, width) > limit;
    }
    if Crowded(b, width, limit) {
      var start :| InWindow(b, start, width) > limit;
      assert InWindow(a, start, width) > limit;
    }
  }
}
