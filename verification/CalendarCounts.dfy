/**
 How many touches a generated calendar has, where and when, in the terms of the allocation, the
 dates and the cap alone.
 */
module CalendarCounts {
  import opened Rounding
  import opened Spacing
  import opened Sequences
  import opened Instants
  import opened Touchpoints
  import opened Calendar
  import opened Feasibility

  /** The only active channel on its platform. */
  ghost predicate AloneOn(channels: seq<Channel>, i: nat) {
    && i < |channels| && Active(channels[i])
    && forall j :: 0 <= j < |channels| && j != i && Active(channels[j]) ==> channels[j].platform != channels[i].platform
  }

  /** `k` is the last cap that names the platform. */
  ghost predicate LastCap(caps: seq<Cap>, platform: string, k: nat) {
    && k < |caps| && caps[k].platform == platform
    && forall j :: k < j < |caps| ==> caps[j].platform != platform
  }

  ghost predicate NoCap(caps: seq<Cap>, platform: string) {
    forall j :: 0 <= j < |caps| ==> caps[j].platform != platform
  }

  /** `n` is `w`, but at least 1. */
  predicate AtLeastOne(n: int, w: int) {
    n == if w >= 1 then w else 1
  }

  /** The most touches that fit into the campaign at the cap's rate. */
  predicate IsRoom(m: int, days: nat, cap: Cap)
    requires HasRate(cap)
  {
    m * WindowDays(cap.per) <= days * cap.limit.value < (m + 1) * WindowDays(cap.per)
  }

  /** `n` touches for an allocation of `pct` over `days`: one a week at 100%, rounded to the nearest and
      at ties to the even number, at least one, no more than the cap's rate lets in, one under a malformed cap. */
  ghost predicate RightCount(n: int, pct: Percent, days: nat, caps: seq<Cap>, platform: string) {
    && (NoCap(caps, platform) ==> exists w :: Nearest(pct.num * days, 700 * pct.den, w) && AtLeastOne(n, w))
    && forall k: nat :: LastCap(caps, platform, k) ==> RightUnderCap(n, pct, days, caps[k])
  }

  ghost predicate RightUnderCap(n: int, pct: Percent, days: nat, cap: Cap) {
    if HasRate(cap) then
      exists w, m :: Nearest(pct.num * days, 700 * pct.den, w) && IsRoom(m, days, cap) && AtLeastOne(n, if w < m then w else m)
    else n == 1
  }

  lemma {:induction false} CapForNone(caps: seq<Cap>, platform: string)
    ensures CapFor(caps, platform).None? <==> NoCap(caps, platform)
  {
    if caps != [] {
      var n := |caps| - 1;
      CapForNone(caps[..n], platform);
      assert forall j :: 0 <= j < n ==> caps[..n][j] == caps[j];
    }
  }

  lemma {:induction false} CapForIsLast(caps: seq<Cap>, platform: string, k: nat)
    requires LastCap(caps, platform, k)
    ensures CapFor(caps, platform) == Some(caps[k])
  {
    var n := |caps| - 1;
    if k < n {
      assert LastCap(caps[..n], platform, k);
      CapForIsLast(caps[..n], platform, k);
    }
  }

  lemma WeeklyCountIsNearest(pct: Percent, days: nat) returns (w: int)
    ensures Nearest(pct.num * days, 700 * pct.den, w) && AtLeastOne(WeeklyCount(pct, days), w)
  {
    w := RoundHalfEven(pct.num * days, 700 * pct.den);
    RoundIsNearest(pct.num * days, 700 * pct.den);
  }

  lemma MaxTouchesIsRoom(cap: Cap, days: nat) returns (m: int)
    requires HasRate(cap)
    ensures IsRoom(m, days, cap) && AtLeastOne(MaxTouchesForCap(cap, days), m)
  {
    m := days * cap.limit.value / WindowDays(cap.per);
    DivMod(days * cap.limit.value, WindowDays(cap.per));
    MulAdd(m, 1, WindowDays(cap.per));
  }

  lemma CountUnderLastCap(pct: Percent, days: nat, cap: Cap)
    ensures RightUnderCap(TouchCount(pct, Some(cap), days), pct, days, cap)
  {
    var w := WeeklyCountIsNearest(pct, days);
    if HasRate(cap) {
      var m := MaxTouchesIsRoom(cap, days);
    }
  }

  lemma TouchCountIsRight(pct: Percent, days: nat, caps: seq<Cap>, platform: string)
    ensures RightCount(TouchCount(pct, CapFor(caps, platform), days), pct, days, caps, platform)
  {
    CapForNone(caps, platform);
    var w := WeeklyCountIsNearest(pct, days);
    forall k: nat | LastCap(caps, platform, k) ensures RightUnderCap(TouchCount(pct, CapFor(caps, platform), days), pct, days, caps[k]) {
      CapForIsLast(caps, platform, k);
      CountUnderLastCap(pct, days, caps[k]);
    }
  }

  lemma {:induction false} TimesOfAlone(channels: seq<Channel>, caps: seq<Cap>, start: int, end: int, audience: int, i: nat)
    requires AloneOn(channels, i)
    ensures Times(Plan(channels, caps, start, end, audience), channels[i].platform)
         == ChannelTimes(channels[i], caps, start, end, channels[i].platform)
  {
    var n, platform := |channels| - 1, channels[i].platform;
    TimesOfPlanStep(channels, caps, start, end, audience, platform);
    if i == n {
      NoneBefore(channels[..n], caps, start, end, audience, platform);
    } else {
      AloneInPrefix(channels, i);
      TimesOfAlone(channels[..n], caps, start, end, audience, i);
      NotItsTimes(channels[n], caps, start, end, platform);
    }
  }

  lemma AloneInPrefix(channels: seq<Channel>, i: nat)
    requires AloneOn(channels, i) && i < |channels| - 1
    ensures AloneOn(channels[..|channels| - 1], i)
  {
  }

  lemma NotItsTimes(ch: Channel, caps: seq<Cap>, start: int, end: int, platform: string)
    requires Active(ch) ==> ch.platform != platform
    ensures ChannelTimes(ch, caps, start, end, platform) == []
  {
  }

  lemma {:induction false} NoneBefore(channels: seq<Channel>, caps: seq<Cap>, start: int, end: int, audience: int, platform: string)
    requires forall j :: 0 <= j < |channels| && Active(channels[j]) ==> channels[j].platform != platform
    ensures Times(Plan(channels, caps, start, end, audience), platform) == []
  {
    if channels != [] {
      var n := |channels| - 1;
      NoneBefore(channels[..n], caps, start, end, audience, platform);
      TimesOfPlanStep(channels, caps, start, end, audience, platform);
      NotItsTimes(channels[n], caps, start, end, platform);
    }
  }

  /** The calendar of a proposal, in whatever order it is listed, has the right number of touches on a
      platform that one active channel names. */
  lemma PlatformHasRightCount(touches: seq<Touch>, channels: seq<Channel>, caps: seq<Cap>, start: int, end: int, audience: int, i: nat)
    requires AloneOn(channels, i) && multiset(touches) == multiset(Plan(channels, caps, start, end, audience))
    ensures RightCount(|Times(touches, channels[i].platform)|, channels[i].pct.value, if start <= end then end - start + 1 else 1, caps, channels[i].platform)
  {
    var platform := channels[i].platform;
    SelectPermutes(touches, Plan(channels, caps, start, end, audience), OnPlatform(platform));
    TimesOfAlone(channels, caps, start, end, audience, i);
    SameSize(Times(touches, platform), ChannelTimes(channels[i], caps, start, end, platform));
    TouchCountIsRight(channels[i].pct.value, Days(start, end), caps, platform);
  }

  lemma SameSize<T>(a: seq<T>, b: seq<T>)
    requires multiset(a) == multiset(b)
    ensures |a| == |b|
  {
    assert |multiset(a)| == |a| && |multiset(b)| == |b|;
  }

  /** A channel with a name and a positive percentage that can be read. */
  predicate Funded(ch: Channel, platform: string) {
    ch.Channel? && ch.platform == platform && platform != "" && ch.pct.Some? && ch.pct.value.num > 0
  }

  /** A calendar touches exactly the platforms that a channel funds. */
  lemma {:induction false} ScheduledIff(channels: seq<Channel>, caps: seq<Cap>, start: int, end: int, audience: int, platform: string)
    ensures Times(Plan(channels, caps, start, end, audience), platform) != [] <==> exists i :: 0 <= i < |channels| && Funded(channels[i], platform)
  {
    if channels != [] {
      var n := |channels| - 1;
      ScheduledIff(channels[..n], caps, start, end, audience, platform);
      TimesOfPlanStep(channels, caps, start, end, audience, platform);
      assert forall i :: 0 <= i < n ==> channels[..n][i] == channels[i];
      assert ChannelTimes(channels[n], caps, start, end, platform) != [] <==> Funded(channels[n], platform);
    }
  }

  /** A single touch stands in the middle of the campaign. */
  lemma SingleTouchIsCentral(days: nat)
    requires days >= 1
    ensures 2 * Offset(0, days, 1) <= days < 2 * Offset(0, days, 1) + 2
  {
  }

  /** Each of several touches stands on the day nearest its exact place. */
  lemma OffsetIsNearest(i: nat, days: nat, count: nat)
    requires days >= 1 && count >= 2 && i < count
    ensures Nearest(i * (days - 1), count - 1, Offset(i, days, count))
  {
    RoundIsNearest(i * (days - 1), count - 1);
  }

  /** Touches are laid down in the proposal's order, numbered from 0, untouched by hand, at nine o'clock,
      on the platforms of active channels. */
  lemma {:induction false} PlanContents(channels: seq<Channel>, caps: seq<Cap>, start: int, end: int, audience: int, p: nat)
    requires p < |Plan(channels, caps, start, end, audience)|
    ensures var t := Plan(channels, caps, start, end, audience)[p];
      && t.position == p && t.audience == audience && !t.humanOverride && t.warning == None
      && t.at % DAY == 9 * 3600 && start <= t.at / DAY <= (if start <= end then end else start)
      && exists i :: 0 <= i < |channels| && Active(channels[i]) && channels[i].platform == t.platform
  {
    var n := |channels| - 1;
    var before := Plan(channels[..n], caps, start, end, audience);
    if p < |before| {
      PlanContents(channels[..n], caps, start, end, audience, p);
      var i :| 0 <= i < n && Active(channels[..n][i]) && channels[..n][i].platform == before[p].platform;
      assert channels[i] == channels[..n][i];
    } else {
      var ch := channels[n];
      var count := TouchCount(ch.pct.value, CapFor(caps, ch.platform), Days(start, end));
      PlannedOnDay(p - |before|, count, start, end, ch.platform, audience, |before|);
    }
  }

  lemma PlannedOnDay(i: nat, count: nat, start: int, end: int, platform: string, audience: int, position: int)
    requires i < count
    ensures var t := PlannedTouch(i, count, start, end, platform, audience, position);
      t.at % DAY == 9 * 3600 && start <= t.at / DAY <= start + Days(start, end) - 1
  {
    var offset := Offset(i, Days(start, end), count);
    OffsetInRange(i, Days(start, end), count);
    DivModUnique((start + offset) * DAY + NINE_O_CLOCK, DAY, start + offset, NINE_O_CLOCK);
  }
}
