/**
 How far the soft warnings depend on the order touches are listed in: never for a flag, and for a
 count only when more than 2 * cap + 1 touches are near.
 */
module WarningOrder {
  import opened Sequences
  import opened Instants
  import opened Touchpoints
  import opened FrequencyWarnings

  /** What is near a touch does not depend on the order the calendar is read in. */
  lemma NearbyPermutes(a: seq<Touch>, b: seq<Touch>, t: Touch, window: int)
    requires multiset(a) == multiset(b)
    ensures Nearby(a, t, window) == Nearby(b, t, window)
  {
    SelectPermutes(a, b, ToAudience(t.audience));
    NearPermutes(AudienceTimes(a, t.audience), AudienceTimes(b, t.audience), t.at, window);
  }

  /**
   Listing the same touches in another order changes no flag, and no count either as long as at
   most 2 * cap + 1 touches are near.
   */
  lemma OrderKeepsFlags(a: seq<Touch>, b: seq<Touch>, i: nat, j: nat, cap: nat, window: int)
    requires multiset(a) == multiset(b) && i < |a| && j < |b| && a[i] == b[j]
    ensures WarningOf(a, i, cap, window).Some? <==> WarningOf(b, j, cap, window).Some?
    ensures Nearby(a, a[i], window) <= 2 * cap + 1 ==> WarningOf(a, i, cap, window) == WarningOf(b, j, cap, window)
  {
    WarningOfAgrees(a, i, cap, window);
    WarningOfAgrees(b, j, cap, window);
    NearbyPermutes(a, b, a[i], window);
    AgreeingWarnings(WarningOf(a, i, cap, window), WarningOf(b, j, cap, window), Nearby(a, a[i], window), cap, window);
  }

  lemma AgreeingWarnings(v: Option<Warning>, w: Option<Warning>, full: nat, cap: nat, window: int)
    requires Agrees(v, full, cap, window) && Agrees(w, full, cap, window)
    ensures v.Some? <==> w.Some?
    ensures full <= 2 * cap + 1 ==> v == w
  {
  }

  /** Touches of one audience at one instant, told apart by their positions. */
  function Pile(n: nat): (r: seq<Touch>) {
    seq(n, i => Touch("email", 0, 0, i, false, None))
  }

  lemma {:induction false} AllIndices(touches: seq<Touch>, audience: int, n: nat)
    requires n <= |touches| && forall i :: 0 <= i < |touches| ==> touches[i].audience == audience
    ensures |Rows(touches, audience, n)| == n
  {
    if n > 0 { AllIndices(touches, audience, n - 1); }
  }

  /** Of 2 * cap + 2 equal instants the first one's slice misses one, the second one's none. */
  lemma FlatSlices(s: seq<int>, cap: nat, window: int)
    requires cap >= 1 && window >= 1 && |s| == 2 * cap + 2 && forall k :: 0 <= k < |s| ==> s[k] == 0
    ensures SliceWarning(s, 0, cap, window) == Some(Warning(window / DAY, cap, 2 * cap + 1))
    ensures SliceWarning(s, 1, cap, window) == Some(Warning(window / DAY, cap, 2 * cap + 2))
  {
    InWindowAll(s[0..2 * cap + 1], 1 - window, 2 * window - 1);
    InWindowAll(s[0..2 * cap + 2], 1 - window, 2 * window - 1);
  }

  lemma PileTimes(n: nat)
    ensures var s := TimesAt(Pile(n), Visit(Pile(n), 0));
      |s| == n && forall k :: 0 <= k < n ==> s[k] == 0
  {
    AllIndices(Pile(n), 0, n);
  }

  lemma PileCounts(cap: nat, window: int)
    requires cap >= 1 && window >= 1
    ensures var a := Pile(2 * cap + 2);
      && |Visit(a, 0)| == 2 * cap + 2
      && WarningAt(a, 0, 0, cap, window) == Some(Warning(window / DAY, cap, 2 * cap + 1))
      && WarningAt(a, 0, 1, cap, window) == Some(Warning(window / DAY, cap, 2 * cap + 2))
  {
    PileTimes(2 * cap + 2);
    FlatSlices(TimesAt(Pile(2 * cap + 2), Visit(Pile(2 * cap + 2), 0)), cap, window);
  }

  lemma SwapPermutes<T>(s: seq<T>, i: nat, j: nat)
    requires i < |s| && j < |s|
    ensures multiset(s[i := s[j]][j := s[i]]) == multiset(s)
  {
  }

  lemma RankOfVisited(touches: seq<Touch>, audience: int, r: nat, cap: nat, window: int)
    requires r < |Visit(touches, audience)|
    ensures WarningOf(touches, Visit(touches, audience)[r], cap, window) == WarningAt(touches, audience, r, cap, window)
  {
    VisitedOnce(touches, audience);
    assert RankIn(Visit(touches, audience), Visit(touches, audience)[r]) == r;
  }

  lemma SwapKeepsSchedule(a: seq<Touch>, i: nat, j: nat)
    requires i < |a| && j < |a| && a[i].audience == a[j].audience && a[i].at == a[j].at
    ensures SameSchedule(a, a[i := a[j]][j := a[i]])
  {
  }

  lemma PileWarnings(cap: nat, window: int) returns (i: nat, j: nat)
    requires cap >= 1 && window >= 1
    ensures i < |Pile(2 * cap + 2)| && WarningOf(Pile(2 * cap + 2), i, cap, window) == Some(Warning(window / DAY, cap, 2 * cap + 1))
    ensures j < |Pile(2 * cap + 2)| && WarningOf(Pile(2 * cap + 2), j, cap, window) == Some(Warning(window / DAY, cap, 2 * cap + 2))
  {
    var a := Pile(2 * cap + 2);
    PileCounts(cap, window);
    RankOfVisited(a, 0, 0, cap, window);
    RankOfVisited(a, 0, 1, cap, window);
    i, j := Visit(a, 0)[0], Visit(a, 0)[1];
  }

  lemma SwapKeepsWarnings(a: seq<Touch>, b: seq<Touch>, i: nat, j: nat, cap: nat, window: int)
    requires i < |a| && j < |a| && a[i].audience == a[j].audience && a[i].at == a[j].at && b == a[i := a[j]][j := a[i]]
    ensures multiset(b) == multiset(a) && b[j] == a[i] && WarningOf(b, j, cap, window) == WarningOf(a, j, cap, window)
  {
    SwapPermutes(a, i, j);
    SwapKeepsSchedule(a, i, j);
    SameWarnings(a, b, j, cap, window);
  }

  /** Beyond 2 * cap + 1 the order of ties shows: the same touch in the same pile, two counts. */
  lemma TieOrderMatters(cap: nat, window: int) returns (a: seq<Touch>, b: seq<Touch>, i: nat, j: nat)
    requires cap >= 1 && window >= 1
    ensures multiset(a) == multiset(b) && Distinct(a) && i < |a| && j < |b| && a[i] == b[j]
    ensures WarningOf(a, i, cap, window) == Some(Warning(window / DAY, cap, 2 * cap + 1))
    ensures WarningOf(b, j, cap, window) == Some(Warning(window / DAY, cap, 2 * cap + 2))
  {
    a := Pile(2 * cap + 2);
    i, j := PileWarnings(cap, window);
    PileIsTied(2 * cap + 2, i, j);
    b := a[i := a[j]][j := a[i]];
    SwapKeepsWarnings(a, b, i, j, cap, window);
  }

  lemma PileIsTied(n: nat, i: nat, j: nat)
    requires i < n && j < n
    ensures Distinct(Pile(n)) && |Pile(n)| == n
    ensures Pile(n)[i].audience == Pile(n)[j].audience && Pile(n)[i].at == Pile(n)[j].at
  {
  }
}
