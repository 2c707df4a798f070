/**
 What the caps and the warnings count, by sets of positions: touches of a platform in a window,
 touches of an audience near another, and the same for the rows of a stored calendar.
 */
module CountingLaws {
  import opened Sequences
  import opened Touchpoints
  import opened HardCaps
  import opened FrequencyWarnings
  import opened TouchpointTable
  import opened StrategyStore

  // ---------------------------------------------------------------------------
  // A list of touches
  // ---------------------------------------------------------------------------

  /** The positions of touches on a platform in [start, start + width). */
  function Touching(touches: seq<Touch>, platform: string, start: int, width: int): (r: set<int>) {
    set i | 0 <= i < |touches| && touches[i].platform == platform && start <= touches[i].at < start + width
  }

  function Hits(touches: seq<Touch>, platform: string, start: int, width: int): int -> bool {
    (i: int) => 0 <= i < |touches| && touches[i].platform == platform && start <= touches[i].at < start + width
  }

  lemma TimesLast(touches: seq<Touch>, t: Touch, platform: string, start: int, width: int)
    ensures InWindow(Times(touches + [t], platform), start, width)
         == InWindow(Times(touches, platform), start, width) + if t.platform == platform && start <= t.at < start + width then 1 else 0
  {
    assert (touches + [t])[..|touches|] == touches;
    InWindowAppend(Times(touches, platform), Pick(OnPlatform(platform)(t)), start, width);
    OneInWindow(t.at, start, width);
  }

  lemma TimesNext(touches: seq<Touch>, n: nat, platform: string, start: int, width: int)
    requires n < |touches|
    ensures var t := touches[n];
      InWindow(Times(touches[..n + 1], platform), start, width) == InWindow(Times(touches[..n], platform), start, width)
        + if t.platform == platform && start <= t.at < start + width then 1 else 0
  {
    assert touches[..n + 1] == touches[..n] + [touches[n]];
    TimesLast(touches[..n], touches[n], platform, start, width);
  }

  function WindowCount(touches: seq<Touch>, platform: string, start: int, width: int): int -> int {
    (n: int) => if 0 <= n <= |touches| then InWindow(Times(touches[..n], platform), start, width) else 0
  }

  lemma WindowTally(touches: seq<Touch>, platform: string, start: int, width: int)
    ensures InWindow(Times(touches, platform), start, width) == Tally(|touches|, Hits(touches, platform, start, width))
  {
    var count, hit := WindowCount(touches, platform, start, width), Hits(touches, platform, start, width);
    forall k | 0 <= k < |touches| ensures GrowsAt(k, count, hit) {
      TimesNext(touches, k, platform, start, width);
    }
    CountIsTally(|touches|, count, hit);
    assert touches[..|touches|] == touches;
  }

  lemma WindowCounts(touches: seq<Touch>, platform: string, start: int, width: int)
    ensures InWindow(Times(touches, platform), start, width) == |Touching(touches, platform, start, width)|
  {
    WindowTally(touches, platform, start, width);
    TallyIsSize(|touches|, Hits(touches, platform, start, width), Touching(touches, platform, start, width));
  }

  lemma OneInWindow(t: int, start: int, width: int)
    ensures InWindow([t], start, width) == if start <= t < start + width then 1 else 0
  {
    assert [t][..0] == [];
  }

  predicate IsPeriod(per: Per, days: int) {
    (per == Day && days == 1) || (per == Week && days == 7) || (per == Month && days == 30)
  }

  /** More touches on the cap's platform than its limit in a window of its period, in seconds. */
  ghost predicate Overfull(touches: seq<Touch>, cap: Cap, days: int, start: int) {
    && IsPeriod(cap.per, days) && cap.limit.Some?
    && 0 < cap.limit.value < |Touching(touches, cap.platform, start, days * 86400)|
  }

  /** A cap is breached exactly when some window is overfull; one without a platform, a known period or a
      positive limit never is. */
  lemma BreachedIff(touches: seq<Touch>, cap: Cap)
    ensures Breached(touches, cap) <==> cap.platform != "" && exists days, start :: Overfull(touches, cap, days, start)
  {
    if WellFormed(cap) {
      BreachedWindow(touches, cap);
    }
  }

  lemma BreachedWindow(touches: seq<Touch>, cap: Cap)
    requires WellFormed(cap)
    ensures Breached(touches, cap) <==> exists days, start :: Overfull(touches, cap, days, start)
  {
    assert touches[..|touches|] == touches;
    var days := WindowDays(cap.per);
    forall start ensures InWindow(Times(touches, cap.platform), start, Window(cap)) == |Touching(touches, cap.platform, start, days * 86400)| {
      WindowCounts(touches, cap.platform, start, days * 86400);
    }
    if Breached(touches, cap) {
      var start :| InWindow(Times(touches, cap.platform), start, Window(cap)) > cap.limit.value;
      assert Overfull(touches, cap, days, start);
    }
    if exists d, start :: Overfull(touches, cap, d, start) {
      var d, start :| Overfull(touches, cap, d, start);
      assert InWindow(Times(touches, cap.platform), start, Window(cap)) > cap.limit.value;
    }
  }

  /** The positions of touches of an audience less than `window` from `at`. */
  function Neighbours(touches: seq<Touch>, audience: int, at: int, window: int): (r: set<int>) {
    set i | 0 <= i < |touches| && touches[i].audience == audience && touches[i].at - at < window && at - touches[i].at < window
  }

  function IsClose(touches: seq<Touch>, audience: int, at: int, window: int): int -> bool {
    (i: int) => 0 <= i < |touches| && touches[i].audience == audience && touches[i].at - at < window && at - touches[i].at < window
  }

  lemma NearLast(touches: seq<Touch>, t: Touch, audience: int, at: int, window: int)
    ensures Near(AudienceTimes(touches + [t], audience), at, window) == Near(AudienceTimes(touches, audience), at, window)
      + if t.audience == audience && t.at - at < window && at - t.at < window then 1 else 0
  {
    assert (touches + [t])[..|touches|] == touches;
    InWindowAppend(AudienceTimes(touches, audience), Pick(ToAudience(audience)(t)), at - window + 1, 2 * window - 1);
    OneInWindow(t.at, at - window + 1, 2 * window - 1);
  }

  lemma AudienceNext(touches: seq<Touch>, n: nat, audience: int, at: int, window: int)
    requires n < |touches|
    ensures var t := touches[n];
      Near(AudienceTimes(touches[..n + 1], audience), at, window) == Near(AudienceTimes(touches[..n], audience), at, window)
        + if t.audience == audience && t.at - at < window && at - t.at < window then 1 else 0
  {
    assert touches[..n + 1] == touches[..n] + [touches[n]];
    NearLast(touches[..n], touches[n], audience, at, window);
  }

  function CloseCount(touches: seq<Touch>, audience: int, at: int, window: int): int -> int {
    (n: int) => if 0 <= n <= |touches| then Near(AudienceTimes(touches[..n], audience), at, window) else 0
  }

  lemma NearTally(touches: seq<Touch>, audience: int, at: int, window: int)
    ensures Near(AudienceTimes(touches, audience), at, window) == Tally(|touches|, IsClose(touches, audience, at, window))
  {
    var count, hit := CloseCount(touches, audience, at, window), IsClose(touches, audience, at, window);
    forall k | 0 <= k < |touches| ensures GrowsAt(k, count, hit) {
      AudienceNext(touches, k, audience, at, window);
    }
    CountIsTally(|touches|, count, hit);
    assert touches[..|touches|] == touches;
  }

  lemma NearCounts(touches: seq<Touch>, audience: int, at: int, window: int)
    ensures Near(AudienceTimes(touches, audience), at, window) == |Neighbours(touches, audience, at, window)|
  {
    NearTally(touches, audience, at, window);
    TallyIsSize(|touches|, IsClose(touches, audience, at, window), Neighbours(touches, audience, at, window));
  }

  /** What the detector writes, against the positions it is about. */
  lemma WarnedIff(touches: seq<Touch>, i: nat, cap: nat, window: int)
    requires i < |touches|
    ensures Warned(touches, cap, window)[i].warning.Some? <==> |Neighbours(touches, touches[i].audience, touches[i].at, window)| > cap
  {
    assert touches[..|touches|] == touches;
    NearCounts(touches, touches[i].audience, touches[i].at, window);
    WarnedAgrees(touches, cap, window);
  }

  // ---------------------------------------------------------------------------
  // The stored calendar
  // ---------------------------------------------------------------------------

  /** The rows of a proposal that are on a platform in [start, start + width). */
  function RowHits(rows: seq<Row>, p: int, platform: string, start: int, width: int): (r: set<int>) {
    set i | 0 <= i < |rows| && rows[i].proposal == p && rows[i].touch.platform == platform && start <= rows[i].touch.at < start + width
  }

  function RowHit(rows: seq<Row>, p: int, platform: string, start: int, width: int): int -> bool {
    (i: int) => 0 <= i < |rows| && rows[i].proposal == p && rows[i].touch.platform == platform && start <= rows[i].touch.at < start + width
  }

  lemma CalendarNext(rows: seq<Row>, n: nat, p: int)
    requires n < |rows|
    ensures CalendarOf(rows[..n + 1], p) == if rows[n].proposal == p then CalendarOf(rows[..n], p) + [rows[n].touch.(warning := None)] else CalendarOf(rows[..n], p)
  {
    assert rows[..n + 1][..n] == rows[..n];
    CalendarLast(rows[..n + 1], p);
  }

  lemma WindowNext(rows: seq<Row>, n: nat, p: int, platform: string, start: int, width: int)
    requires n < |rows|
    ensures var t := rows[n].touch;
      InWindow(Times(CalendarOf(rows[..n + 1], p), platform), start, width) == InWindow(Times(CalendarOf(rows[..n], p), platform), start, width)
        + if rows[n].proposal == p && t.platform == platform && start <= t.at < start + width then 1 else 0
  {
    CalendarNext(rows, n, p);
    TimesLast(CalendarOf(rows[..n], p), rows[n].touch.(warning := None), platform, start, width);
  }

  function RowWindowCount(rows: seq<Row>, p: int, platform: string, start: int, width: int): int -> int {
    (n: int) => if 0 <= n <= |rows| then InWindow(Times(CalendarOf(rows[..n], p), platform), start, width) else 0
  }

  lemma RowWindowTally(rows: seq<Row>, p: int, platform: string, start: int, width: int)
    ensures InWindow(Times(CalendarOf(rows, p), platform), start, width) == Tally(|rows|, RowHit(rows, p, platform, start, width))
  {
    var count, hit := RowWindowCount(rows, p, platform, start, width), RowHit(rows, p, platform, start, width);
    RowWindowEnds(rows, p, platform, start, width);
    forall k | 0 <= k < |rows| ensures GrowsAt(k, count, hit) {
      RowWindowNext(rows, p, platform, start, width, k);
    }
    CountIsTally(|rows|, count, hit);
  }

  lemma RowWindowEnds(rows: seq<Row>, p: int, platform: string, start: int, width: int)
    ensures RowWindowCount(rows, p, platform, start, width)(0) == 0
    ensures RowWindowCount(rows, p, platform, start, width)(|rows|) == InWindow(Times(CalendarOf(rows, p), platform), start, width)
  {
    assert CalendarOf(rows[..0], p) == [];
    assert rows[..|rows|] == rows;
  }

  lemma RowWindowNext(rows: seq<Row>, p: int, platform: string, start: int, width: int, k: nat)
    requires k < |rows|
    ensures GrowsAt(k, RowWindowCount(rows, p, platform, start, width), RowHit(rows, p, platform, start, width))
  {
    WindowNext(rows, k, p, platform, start, width);
  }

  lemma RowWindowCounts(rows: seq<Row>, p: int, platform: string, start: int, width: int)
    ensures InWindow(Times(CalendarOf(rows, p), platform), start, width) == |RowHits(rows, p, platform, start, width)|
  {
    RowWindowTally(rows, p, platform, start, width);
    TallyIsSize(|rows|, RowHit(rows, p, platform, start, width), RowHits(rows, p, platform, start, width));
  }

  /** In a legal store no window of a cap's period holds more of a proposal's rows than the cap allows. */
  lemma LegalRowsFit(proposals: Proposals, rows: seq<Row>, caps: seq<Cap>, p: int, k: nat, days: int, start: int)
    requires Legal(proposals, rows, caps) && p in proposals && k < |caps|
    requires caps[k].platform != "" && caps[k].limit.Some? && caps[k].limit.value > 0 && IsPeriod(caps[k].per, days)
    ensures |RowHits(rows, p, caps[k].platform, start, days * 86400)| <= caps[k].limit.value
  {
    assert rows[..|rows|] == rows;
    RowWindowCounts(rows, p, caps[k].platform, start, days * 86400);
    assert !Breached(CalendarOf(rows, p), caps[k]);
    assert WellFormed(caps[k]) && Window(caps[k]) == days * 86400;
  }

  /** The rows of a proposal and an audience less than seven days from `at`. */
  function RowsNear(rows: seq<Row>, p: int, audience: int, at: int): (r: set<int>) {
    set i | 0 <= i < |rows| && rows[i].proposal == p && rows[i].touch.audience == audience && -604800 < rows[i].touch.at - at < 604800
  }

  function RowClose(rows: seq<Row>, p: int, audience: int, at: int): int -> bool {
    (i: int) => 0 <= i < |rows| && rows[i].proposal == p && rows[i].touch.audience == audience && -604800 < rows[i].touch.at - at < 604800
  }

  lemma NearNext(rows: seq<Row>, n: nat, p: int, audience: int, at: int)
    requires n < |rows|
    ensures var t := rows[n].touch;
      Near(AudienceTimes(CalendarOf(rows[..n + 1], p), audience), at, DEFAULT_WINDOW) == Near(AudienceTimes(CalendarOf(rows[..n], p), audience), at, DEFAULT_WINDOW)
        + if rows[n].proposal == p && t.audience == audience && -604800 < t.at - at < 604800 then 1 else 0
  {
    CalendarNext(rows, n, p);
    NearLast(CalendarOf(rows[..n], p), rows[n].touch.(warning := None), audience, at, DEFAULT_WINDOW);
  }

  function RowCloseCount(rows: seq<Row>, p: int, audience: int, at: int): int -> int {
    (n: int) => if 0 <= n <= |rows| then Near(AudienceTimes(CalendarOf(rows[..n], p), audience), at, DEFAULT_WINDOW) else 0
  }

  lemma RowNearTally(rows: seq<Row>, p: int, audience: int, at: int)
    ensures Near(AudienceTimes(CalendarOf(rows, p), audience), at, DEFAULT_WINDOW) == Tally(|rows|, RowClose(rows, p, audience, at))
  {
    var count, hit := RowCloseCount(rows, p, audience, at), RowClose(rows, p, audience, at);
    RowCloseEnds(rows, p, audience, at);
    forall k | 0 <= k < |rows| ensures GrowsAt(k, count, hit) {
      RowCloseNext(rows, p, audience, at, k);
    }
    CountIsTally(|rows|, count, hit);
  }

  lemma RowCloseEnds(rows: seq<Row>, p: int, audience: int, at: int)
    ensures RowCloseCount(rows, p, audience, at)(0) == 0
    ensures RowCloseCount(rows, p, audience, at)(|rows|) == Near(AudienceTimes(CalendarOf(rows, p), audience), at, DEFAULT_WINDOW)
  {
    assert CalendarOf(rows[..0], p) == [];
    assert rows[..|rows|] == rows;
  }

  lemma RowCloseNext(rows: seq<Row>, p: int, audience: int, at: int, k: nat)
    requires k < |rows|
    ensures GrowsAt(k, RowCloseCount(rows, p, audience, at), RowClose(rows, p, audience, at))
  {
    NearNext(rows, k, p, audience, at);
  }

  lemma RowNearCounts(rows: seq<Row>, p: int, audience: int, at: int)
    ensures Near(AudienceTimes(CalendarOf(rows, p), audience), at, DEFAULT_WINDOW) == |RowsNear(rows, p, audience, at)|
  {
    RowNearTally(rows, p, audience, at);
    TallyIsSize(|rows|, RowClose(rows, p, audience, at), RowsNear(rows, p, audience, at));
  }

  /** In a legal store a row carries a warning exactly when more than three rows of its proposal and audience,
      itself included, lie less than seven days from it. */
  lemma LegalWarningIff(proposals: Proposals, rows: seq<Row>, caps: seq<Cap>, i: nat)
    requires Legal(proposals, rows, caps) && i < |rows|
    ensures rows[i].touch.warning.Some? <==> |RowsNear(rows, rows[i].proposal, rows[i].touch.audience, rows[i].touch.at)| > 3
  {
    assert rows[..|rows|] == rows;
    LegalWarnings(proposals, rows, caps, i);
    RowNearCounts(rows, rows[i].proposal, rows[i].touch.audience, rows[i].touch.at);
  }
}
