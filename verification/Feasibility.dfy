/**
 When the generated calendar passes its own hard-cap check, and exactly which caps can make
 it fail.
 */
module Feasibility {
  import opened Rounding
  import opened Spacing
  import opened Sequences
  import opened Instants
  import opened Touchpoints
  import opened HardCaps
  import opened Calendar

  predicate DistinctPlatforms(channels: seq<Channel>) {
    forall i, j :: 0 <= i < j < |channels| && Active(channels[i]) && Active(channels[j]) ==>
      channels[i].platform != channels[j].platform
  }

  predicate OneCapEach(caps: seq<Cap>) {
    forall i, j :: 0 <= i < j < |caps| && WellFormed(caps[i]) && WellFormed(caps[j]) ==>
      caps[i].platform != caps[j].platform
  }

  predicate AtMostAll(pct: Percent) {
    pct.num <= 100 * pct.den
  }

  predicate CapHonoured(cap: Cap)
    requires WellFormed(cap)
  {
    Honoured(cap.limit.value, WindowDays(cap.per))
  }

  /** A channel that cannot break its cap: an allocation of at most 100%, or a cap within reach. */
  predicate Safe(ch: Channel, caps: seq<Cap>)
    requires Active(ch)
  {
    AtMostAll(ch.pct.value) ||
    forall k :: 0 <= k < |caps| && WellFormed(caps[k]) && caps[k].platform == ch.platform ==> CapHonoured(caps[k])
  }

  // ---------------------------------------------------------------------------
  // From spacing in days to windows in seconds
  // ---------------------------------------------------------------------------

  function DayTimes(start: int, days: nat, count: nat): (r: seq<int>)
    requires days >= 1
    ensures |r| == count
  {
    seq(count, i requires 0 <= i < count => At(start, Offset(i, days, count)))
  }

  lemma DayTimesSorted(start: int, days: nat, count: nat)
    requires days >= 1
    ensures Sorted(DayTimes(start, days, count))
  {
    forall i, j | 0 <= i < j < count
      ensures DayTimes(start, days, count)[i] <= DayTimes(start, days, count)[j]
    {
      OffsetMonotone(i, j, days, count);
    }
  }

  lemma SpacedIsNotCrowded(start: int, days: nat, count: nat, limit: nat, window: nat)
    requires days >= 1 && Spaced(days, count, limit, window)
    ensures !Crowded(DayTimes(start, days, count), window * DAY, limit)
  {
    var s := DayTimes(start, days, count);
    DayTimesSorted(start, days, count);
    if Crowded(s, window * DAY, limit) {
      var from :| InWindow(s, from, window * DAY) > limit;
      var i := WindowHoldsRun(s, from, window * DAY, limit);
      SpanInSeconds(start, days, count, limit, window, i);
    }
  }

  lemma SpanInSeconds(start: int, days: nat, count: nat, limit: nat, window: nat, i: nat)
    requires days >= 1 && Spaced(days, count, limit, window) && i + limit < count
    ensures DayTimes(start, days, count)[i + limit] - DayTimes(start, days, count)[i] >= window * DAY
  {
    assert Offset(i + limit, days, count) - Offset(i, days, count) >= window;
  }

  lemma BrokenIsCrowded(start: int, days: nat, count: nat, limit: nat, window: nat, i: nat)
    requires days >= 1 && i + limit < count
    requires Offset(i + limit, days, count) - Offset(i, days, count) < window
    ensures Crowded(DayTimes(start, days, count), window * DAY, limit)
  {
    var s := DayTimes(start, days, count);
    DayTimesSorted(start, days, count);
    assert s[i + limit] - s[i] < window * DAY;
    RunFillsWindow(s, i, limit, window * DAY);
    assert InWindow(s, s[i], window * DAY) > limit;
  }

  lemma RunFillsWindow(s: seq<int>, i: nat, k: nat, width: int)
    requires Sorted(s) && i + k < |s| && s[i + k] - s[i] < width
    ensures InWindow(s, s[i], width) > k
  {
    InWindowSplit(s, i + k + 1, s[i], width);
    InWindowSplit(s[..i + k + 1], i, s[i], width);
    assert s[..i + k + 1][i..] == s[i..i + k + 1];
    InWindowSlice(s, i, i + k + 1, s[i], width);
  }

  // ---------------------------------------------------------------------------
  // The touches of one platform in a plan
  // ---------------------------------------------------------------------------

  /** The instants a channel contributes to a platform. */
  function ChannelTimes(ch: Channel, caps: seq<Cap>, start: int, end: int, platform: string): (r: seq<int>)
  {
    if Active(ch) && ch.platform == platform then
      DayTimes(start, Days(start, end), TouchCount(ch.pct.value, CapFor(caps, platform), Days(start, end)))
    else []
  }

  lemma {:induction false} TimesOfUniform(touches: seq<Touch>, times: seq<int>, own: string, platform: string)
    requires |touches| == |times|
    requires forall i :: 0 <= i < |touches| ==> touches[i].platform == own && touches[i].at == times[i]
    ensures Times(touches, platform) == if own == platform then times else []
  {
    if touches != [] {
      var n := |touches| - 1;
      TimesOfUniform(touches[..n], times[..n], own, platform);
      if own == platform {
        assert Times(touches, platform) == times[..n] + [times[n]];
      }
    }
  }

  lemma TimesOfChannel(ch: Channel, caps: seq<Cap>, start: int, end: int, audience: int, position: int, platform: string)
    ensures Times(ChannelTouches(ch, caps, start, end, audience, position), platform)
         == ChannelTimes(ch, caps, start, end, platform)
  {
    if Active(ch) {
      var n := TouchCount(ch.pct.value, CapFor(caps, ch.platform), Days(start, end));
      TimesOfUniform(ChannelTouches(ch, caps, start, end, audience, position), DayTimes(start, Days(start, end), n), ch.platform, platform);
    }
  }

  /** The last active channel on a platform, or -1. */
  function ChannelFor(channels: seq<Channel>, platform: string): (i: int)
    ensures -1 <= i < |channels|
    ensures i >= 0 ==> Active(channels[i]) && channels[i].platform == platform
    ensures forall j :: i < j < |channels| && Active(channels[j]) ==> channels[j].platform != platform
  {
    if channels == [] then -1
    else if Active(channels[|channels| - 1]) && channels[|channels| - 1].platform == platform then |channels| - 1
    else ChannelFor(channels[..|channels| - 1], platform)
  }

  /** With distinct platforms a plan's touches of a platform come from a single channel. */
  lemma {:induction false} TimesOfPlan(channels: seq<Channel>, caps: seq<Cap>, start: int, end: int, audience: int, platform: string)
    requires DistinctPlatforms(channels)
    ensures var i := ChannelFor(channels, platform);
      Times(Plan(channels, caps, start, end, audience), platform)
        == if i < 0 then [] else ChannelTimes(channels[i], caps, start, end, platform)
  {
    if channels != [] {
      var n := |channels| - 1;
      TimesOfPlan(channels[..n], caps, start, end, audience, platform);
      TimesOfPlanStep(channels, caps, start, end, audience, platform);
      if Active(channels[n]) && channels[n].platform == platform {
        assert ChannelFor(channels[..n], platform) == -1;
      }
    }
  }

  lemma TimesOfPlanStep(channels: seq<Channel>, caps: seq<Cap>, start: int, end: int, audience: int, platform: string)
    requires channels != []
    ensures var n := |channels| - 1;
      Times(Plan(channels, caps, start, end, audience), platform)
        == Times(Plan(channels[..n], caps, start, end, audience), platform)
         + ChannelTimes(channels[n], caps, start, end, platform)
  {
    var n := |channels| - 1;
    var before := Plan(channels[..n], caps, start, end, audience);
    TimesOfChannel(channels[n], caps, start, end, audience, |before|, platform);
    SelectAppend(before, ChannelTouches(channels[n], caps, start, end, audience, |before|), OnPlatform(platform));
  }

  // ---------------------------------------------------------------------------
  // The count laid down under a cap
  // ---------------------------------------------------------------------------

  lemma {:induction false} CapForIsListed(caps: seq<Cap>, platform: string, k: nat) returns (j: nat)
    requires k < |caps| && caps[k].platform == platform
    ensures k <= j < |caps| && caps[j].platform == platform && CapFor(caps, platform) == Some(caps[j])
  {
    var n := |caps| - 1;
    if caps[n].platform == platform {
      j := n;
    } else {
      j := CapForIsListed(caps[..n], platform, k);
    }
  }

  /** Either the consulted cap is the well-formed one, or a malformed one leaves a single touch. */
  lemma CountUnderCap(pct: Percent, caps: seq<Cap>, k: nat, days: nat)
    requires OneCapEach(caps) && k < |caps| && WellFormed(caps[k]) && days >= 1
    ensures var n := TouchCount(pct, CapFor(caps, caps[k].platform), days);
      n == 1 || (n <= WeeklyCount(pct, days) && Fits(days, n, caps[k].limit.value, WindowDays(caps[k].per)))
  {
    var j := CapForIsListed(caps, caps[k].platform, k);
    if WellFormed(caps[j]) {
      assert caps[j] == caps[k];
      FitsBelowQuotient(TouchCount(pct, Some(caps[k]), days), days, caps[k].limit.value, WindowDays(caps[k].per));
    }
  }

  lemma FitsBelowQuotient(n: nat, days: nat, limit: nat, window: nat)
    requires window >= 1 && n <= Max(1, days * limit / window)
    ensures Fits(days, n, limit, window)
  {
    if n >= 2 {
      DivMod(days * limit, window);
      MulSteps(n, days * limit / window, window);
    }
  }

  /** At most 100% means at most one touch a week, rounded: more than seven days apart. */
  lemma WeeklyCountIsSparse(pct: Percent, days: nat)
    requires AtMostAll(pct) && days >= 1 && WeeklyCount(pct, days) >= 2
    ensures 7 * (WeeklyCount(pct, days) - 1) < days - 1
  {
    var n, den := WeeklyCount(pct, days), pct.den;
    RoundIsNearest(pct.num * days, 700 * den);
    MulSub(100 * den, pct.num, days);
    MulSign(100 * den - pct.num, days);
    MulAssoc(n, 700, den);
    MulAssoc(100, den, days);
    SparseByOrder(n, den, days, n * den, den * days);
  }

  lemma SparseByOrder(n: nat, den: Positive, days: nat, nDen: int, denDays: int)
    requires nDen == n * den && denDays == den * days
    requires 2 * (700 * nDen) - 700 * den <= 2 * (100 * denDays)
    ensures 7 * (n - 1) < days - 1
  {
    assert (14 * n - 7 - 2 * days) * den == 14 * nDen - 7 * den - 2 * denDays;
    MulGap(14 * n - 7 - 2 * days, den);
  }

  lemma SparseIsRoomy(days: nat, n: nat, limit: nat, per: Per)
    requires !per.OtherPer? && limit >= 1 && days >= 1
    requires n >= 2 ==> 7 * (n - 1) < days - 1
    requires Fits(days, n, limit, WindowDays(per))
    ensures Spaced(days, n, limit, WindowDays(per))
  {
    if per == Month && limit < 5 {
      SpacedWhenHonoured(days, n, limit, 30);
    } else if n >= 2 {
      var least := if per == Month then 5 else 1;
      MulSub(limit, least, days - 1);
      MulSign(limit - least, days - 1);
      assert limit * (days - 1) > WindowDays(per) * (n - 1);
      SpacedWhenRoomy(days, n, limit, WindowDays(per));
    } else {
      SpacedWhenRoomy(days, n, limit, WindowDays(per));
    }
  }

  lemma ChannelIsSpaced(ch: Channel, caps: seq<Cap>, k: nat, days: nat)
    requires Active(ch) && Safe(ch, caps) && OneCapEach(caps) && days >= 1
    requires k < |caps| && WellFormed(caps[k]) && caps[k].platform == ch.platform
    ensures Spaced(days, TouchCount(ch.pct.value, CapFor(caps, ch.platform), days), caps[k].limit.value, WindowDays(caps[k].per))
  {
    var limit, window := caps[k].limit.value, WindowDays(caps[k].per);
    var n := TouchCount(ch.pct.value, CapFor(caps, ch.platform), days);
    CountUnderCap(ch.pct.value, caps, k, days);
    if AtMostAll(ch.pct.value) {
      if n >= 2 { WeeklyCountIsSparse(ch.pct.value, days); }
      SparseIsRoomy(days, n, limit, caps[k].per);
    } else {
      SpacedWhenHonoured(days, n, limit, window);
    }
  }

  /** The generator never trips its own check: distinct platforms, one cap each, and every
      channel either at most 100% or under a cap that is always within reach. */
  lemma PlanMeetsCaps(channels: seq<Channel>, caps: seq<Cap>, start: int, end: int, audience: int)
    requires DistinctPlatforms(channels) && OneCapEach(caps)
    requires forall i :: 0 <= i < |channels| && Active(channels[i]) ==> Safe(channels[i], caps)
    ensures MeetsCaps(Plan(channels, caps, start, end, audience), caps)
  {
    forall k | 0 <= k < |caps| ensures !Breached(Plan(channels, caps, start, end, audience), caps[k]) {
      if WellFormed(caps[k]) {
        var days, limit, window := Days(start, end), caps[k].limit.value, WindowDays(caps[k].per);
        var times := Times(Plan(channels, caps, start, end, audience), caps[k].platform);
        TimesOfPlan(channels, caps, start, end, audience, caps[k].platform);
        var i := ChannelFor(channels, caps[k].platform);
        if i < 0 {
          assert forall from, width :: InWindow(times, from, width) == 0;
        } else {
          ChannelIsSpaced(channels[i], caps, k, days);
          SpacedIsNotCrowded(start, days, |times|, limit, window);
        }
      }
    }
  }

  // ---------------------------------------------------------------------------
  // The caps that are not within reach
  // ---------------------------------------------------------------------------

  /** An allocation, in whole percent, that drives the count to the breaking layout's. */
  function BreakingPercent(limit: nat, window: nat): (pct: int)
    requires window >= 1 && !Honoured(limit, window)
  {
    if limit == 2 * window then (if window == 1 then 1225 else 1330)
    else 700 * Breaking(limit, window).count
  }

  /** Away from twice the window the breaking layout is the largest the cap lets through. */
  lemma BreakingIsMaximal(limit: nat, window: nat)
    requires window >= 1 && !Honoured(limit, window) && limit != 2 * window
    ensures var w := Breaking(limit, window); w.days * limit - w.count * window < window
  {
    var g := limit - window;
    if limit % (2 * g) != 0 {
      MulAssoc(window, 2 * g, limit);
      MulAssoc(limit, 2 * g, window);
    } else {
      var h := limit / (2 * g);
      HalfPeriod(limit, window, g, h);
      TieRate(h, g, g + 2, limit, window);
      MulAdd((2 * h - 1) * (g + 2), 1, limit);
      MulAdd(2 * h * (g + 2), 1, window);
      MulGap(2 * h - 1, g);
    }
  }

  lemma BreakingCount(cap: Cap)
    requires WellFormed(cap) && !CapHonoured(cap)
    ensures var w := Breaking(cap.limit.value, WindowDays(cap.per));
      w.days >= 1 && w.count == TouchCount(Percent(BreakingPercent(cap.limit.value, WindowDays(cap.per)), 1), Some(cap), w.days)
  {
    var limit, window := cap.limit.value, WindowDays(cap.per);
    var w := Breaking(limit, window);
    BreakingBreaks(limit, window);
    if limit == 2 * window {
      TwiceTheWindow(cap);
    } else {
      BreakingIsMaximal(limit, window);
      CountAtMaximum(cap, w.days, w.count);
    }
  }

  lemma CountAtMaximum(cap: Cap, days: nat, count: nat)
    requires WellFormed(cap) && days >= 1 && count >= 1
    requires count * WindowDays(cap.per) <= days * cap.limit.value < count * WindowDays(cap.per) + WindowDays(cap.per)
    ensures TouchCount(Percent(700 * count, 1), Some(cap), days) == count
  {
    var window, room := WindowDays(cap.per), days * cap.limit.value;
    DivModUnique(room, window, count, room - count * window);
    assert MaxTouchesForCap(cap, days) == count;
    MulAssoc(700, count, days);
    RoundMultiple(700 * count * days, 700, count * days);
    assert WeeklyCount(Percent(700 * count, 1), days) == count * days;
    MulGap(days, count);
  }

  /** At twice an odd window the count must stop one short of the cap's maximum. */
  lemma TwiceTheWindow(cap: Cap)
    requires WellFormed(cap) && !CapHonoured(cap) && cap.limit.value == 2 * WindowDays(cap.per)
    ensures var w := Breaking(cap.limit.value, WindowDays(cap.per));
      w.days >= 1 && w.count == TouchCount(Percent(BreakingPercent(cap.limit.value, WindowDays(cap.per)), 1), Some(cap), w.days)
  {
    if cap.per == Day {
      assert Breaking(2, 1) == Layout(4, 7, 3);
      RoundMultiple(4900, 700, 7);
    } else if cap.per == Week {
      assert Breaking(14, 7) == Layout(10, 19, 3);
      RoundMultiple(13300, 700, 19);
    }
  }

  /** Any other cap is broken by a one-channel proposal over some dates. */
  lemma UnhonouredCapIsBreached(cap: Cap, start: int, audience: int)
    requires WellFormed(cap) && !CapHonoured(cap)
    ensures var w := Breaking(cap.limit.value, WindowDays(cap.per));
      var ch := Channel(cap.platform, Some(Percent(BreakingPercent(cap.limit.value, WindowDays(cap.per)), 1)));
      !MeetsCaps(Plan([ch], [cap], start, start + w.days - 1, audience), [cap])
  {
    var limit, window := cap.limit.value, WindowDays(cap.per);
    var w, pct := Breaking(limit, window), BreakingPercent(limit, window);
    BreakingBreaks(limit, window);
    BreakingCount(cap);
    BreakingPercentPositive(cap);
    BreachedBySingle(cap, Percent(pct, 1), start, w.days, w.count, w.first, audience);
  }

  lemma BreachedBySingle(cap: Cap, pct: Percent, start: int, days: nat, count: nat, i: nat, audience: int)
    requires WellFormed(cap) && pct.num > 0 && days >= 1 && count == TouchCount(pct, Some(cap), days)
    requires i + cap.limit.value < count
    requires Offset(i + cap.limit.value, days, count) - Offset(i, days, count) < WindowDays(cap.per)
    ensures !MeetsCaps(Plan([Channel(cap.platform, Some(pct))], [cap], start, start + days - 1, audience), [cap])
  {
    TimesOfSingle(cap, pct, start, days, count, audience);
    BrokenIsCrowded(start, days, count, cap.limit.value, WindowDays(cap.per), i);
    assert Breached(Plan([Channel(cap.platform, Some(pct))], [cap], start, start + days - 1, audience), [cap][0]);
  }

  lemma BreakingPercentPositive(cap: Cap)
    requires WellFormed(cap) && !CapHonoured(cap)
    ensures BreakingPercent(cap.limit.value, WindowDays(cap.per)) > 0
  {
    BreakingBreaks(cap.limit.value, WindowDays(cap.per));
  }

  lemma TimesOfSingle(cap: Cap, pct: Percent, start: int, days: nat, count: nat, audience: int)
    requires WellFormed(cap) && pct.num > 0 && days >= 1 && count == TouchCount(pct, Some(cap), days)
    ensures Times(Plan([Channel(cap.platform, Some(pct))], [cap], start, start + days - 1, audience), cap.platform)
         == DayTimes(start, days, count)
  {
    var ch := Channel(cap.platform, Some(pct));
    TimesOfPlan([ch], [cap], start, start + days - 1, audience, cap.platform);
    SingleChannel(cap, pct, start, days, count);
  }

  lemma SingleChannel(cap: Cap, pct: Percent, start: int, days: nat, count: nat)
    requires WellFormed(cap) && pct.num > 0 && days >= 1 && count == TouchCount(pct, Some(cap), days)
    ensures var ch := Channel(cap.platform, Some(pct));
      ChannelFor([ch], cap.platform) == 0
      && ChannelTimes(ch, [cap], start, start + days - 1, cap.platform) == DayTimes(start, days, count)
  {
    assert CapFor([cap], cap.platform) == Some(cap);
  }

  /** A cap can never make a one-channel calendar fail exactly when it is honoured. */
  lemma NeverRaisesIffHonoured(cap: Cap)
    requires WellFormed(cap)
    ensures CapHonoured(cap) <==>
      forall pct: Percent, start: int, end: int, audience: int ::
        MeetsCaps(Plan([Channel(cap.platform, Some(pct))], [cap], start, end, audience), [cap])
  {
    if CapHonoured(cap) {
      forall pct: Percent, start: int, end: int, audience: int
        ensures MeetsCaps(Plan([Channel(cap.platform, Some(pct))], [cap], start, end, audience), [cap])
      {
        PlanMeetsCaps([Channel(cap.platform, Some(pct))], [cap], start, end, audience);
      }
    } else {
      UnhonouredCapIsBreached(cap, 0, 0);
    }
  }

  // ---------------------------------------------------------------------------
  // Why platforms must be distinct and capped once
  // ---------------------------------------------------------------------------

  const HALF_EMAIL := Channel("email", Some(Percent(50, 1)))
  const ALL_EMAIL := Channel("email", Some(Percent(100, 1)))
  const DAILY := Cap("email", Day, Some(1))
  const TWO_CAPS := [Cap("email", Month, Some(1)), Cap("email", Week, Some(7))]

  lemma OneTouchEach()
    ensures ChannelTimes(HALF_EMAIL, [DAILY], 0, 0, "email") == [At(0, 0)]
  {
    assert CapFor([DAILY], "email") == Some(DAILY);
    assert TouchCount(Percent(50, 1), Some(DAILY), 1) == 1;
    assert DayTimes(0, 1, 1) == [At(0, Offset(0, 1, 1))];
  }

  /** Two channels on one platform, half each, on a one-day campaign: both touch it that day. */
  lemma RepeatedPlatformBreaks()
    ensures AtMostAll(HALF_EMAIL.pct.value) && WellFormed(DAILY) && CapHonoured(DAILY)
    ensures !MeetsCaps(Plan([HALF_EMAIL, HALF_EMAIL], [DAILY], 0, 0, 0), [DAILY])
  {
    var both, one := [HALF_EMAIL, HALF_EMAIL], [HALF_EMAIL];
    assert both[..1] == one && one[..0] == [];
    TimesOfPlanStep(both, [DAILY], 0, 0, 0, "email");
    TimesOfPlanStep(one, [DAILY], 0, 0, 0, "email");
    OneTouchEach();
    var t := At(0, 0);
    assert [] + [t] + [t] == [t] + [t];
    assert Times(Plan(both, [DAILY], 0, 0, 0), "email") == [t] + [t];
    TwiceIsCrowded(t);
    assert Breached(Plan(both, [DAILY], 0, 0, 0), [DAILY][0]);
  }

  lemma TwiceIsCrowded(t: int)
    ensures Crowded([t] + [t], DAY, 1)
  {
    InWindowAll([t] + [t], t, DAY);
    assert InWindow([t] + [t], t, DAY) > 1;
  }

  lemma TwoTouches()
    ensures ChannelTimes(ALL_EMAIL, TWO_CAPS, 0, 13, "email") == DayTimes(0, 14, 2)
  {
    assert CapFor(TWO_CAPS, "email") == Some(TWO_CAPS[1]);
    assert WeeklyCount(Percent(100, 1), 14) == 2;
  }

  /** Two caps on one platform: only the last is consulted, so the first can be broken. */
  lemma SecondCapBreaks()
    ensures AtMostAll(ALL_EMAIL.pct.value)
    ensures forall k :: 0 <= k < |TWO_CAPS| ==> WellFormed(TWO_CAPS[k]) && CapHonoured(TWO_CAPS[k])
    ensures !MeetsCaps(Plan([ALL_EMAIL], TWO_CAPS, 0, 13, 0), TWO_CAPS)
  {
    assert [ALL_EMAIL][..0] == [];
    TimesOfPlanStep([ALL_EMAIL], TWO_CAPS, 0, 13, 0, "email");
    TwoTouches();
    assert [] + DayTimes(0, 14, 2) == DayTimes(0, 14, 2);
    assert Times(Plan([ALL_EMAIL], TWO_CAPS, 0, 13, 0), "email") == DayTimes(0, 14, 2);
    OffsetEnds(14, 2);
    BrokenIsCrowded(0, 14, 2, 1, 30, 0);
    assert Breached(Plan([ALL_EMAIL], TWO_CAPS, 0, 13, 0), TWO_CAPS[0]);
  }

  /** The per-day and per-week caps within reach are those up to one a day; per month also 32, 36, 40 and 60. */
  lemma HonouredCaps(cap: Cap)
    requires WellFormed(cap)
    ensures cap.per == Day ==> (CapHonoured(cap) <==> cap.limit.value <= 1)
    ensures cap.per == Week ==> (CapHonoured(cap) <==> cap.limit.value <= 7)
    ensures cap.per == Month ==> (CapHonoured(cap) <==> cap.limit.value <= 30 || cap.limit.value in {32, 36, 40, 60})
  {
    if cap.per == Month && cap.limit.value > 30 {
      var limit := cap.limit.value;
      var g := limit - 30;
      DivMod(limit, 2 * g);
      MonthQuotient(g, limit / (2 * g), limit % (2 * g));
    } else if !cap.per.Month? && cap.limit.value > WindowDays(cap.per) {
      assert WindowDays(cap.per) % 2 == 1;
    }
  }

  lemma MonthQuotient(g: nat, q: nat, rem: nat)
    requires g >= 1 && g + 30 == q * (2 * g) + rem && rem < 2 * g
    ensures rem == 0 <==> g in {2, 6, 10, 30}
  {
    if g > 30 {
      MulGap(q, 2 * g);
    } else {
      assert g == 1 || g == 2 || g == 3 || g == 4 || g == 5 || g == 6 || g == 7 || g == 8 || g == 9 || g == 10
          || g == 11 || g == 12 || g == 13 || g == 14 || g == 15 || g == 16 || g == 17 || g == 18 || g == 19 || g == 20
          || g == 21 || g == 22 || g == 23 || g == 24 || g == 25 || g == 26 || g == 27 || g == 28 || g == 29 || g == 30;
    }
  }
}
