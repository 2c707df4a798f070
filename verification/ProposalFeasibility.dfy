/**
 Exactly which proposals can never make `generate_calendar` raise, whatever their allocations and
 dates: any list of platforms, repeated or not, under any caps of which at most one for each
 platform is well formed.
 */
module ProposalFeasibility {
  import opened Rounding
  import opened Spacing
  import opened Sequences
  import opened Instants
  import opened Touchpoints
  import opened HardCaps
  import opened Calendar
  import opened Feasibility

  /** The channels name these platforms in this order, with any allocations. */
  ghost predicate Allocates(channels: seq<Channel>, platforms: seq<string>) {
    |channels| == |platforms| && forall i :: 0 <= i < |channels| ==> channels[i].Channel? && channels[i].platform == platforms[i]
  }

  ghost predicate NeverRaises(platforms: seq<string>, caps: seq<Cap>) {
    forall channels, start, end, audience :: Allocates(channels, platforms) ==>
      MeetsCaps(Plan(channels, caps, start, end, audience), caps)
  }

  function Named(platforms: seq<string>, platform: string): (m: nat) {
    multiset(platforms)[platform]
  }

  /** A well-formed cap that the generator consults allows one channel, and must be honoured; behind a
      malformed one each channel gets a single touch. */
  predicate CapIsSafe(cap: Cap, caps: seq<Cap>, platforms: seq<string>)
    requires WellFormed(cap)
  {
    var m := Named(platforms, cap.platform);
    if CapFor(caps, cap.platform) == Some(cap) then m == 0 || (m == 1 && CapHonoured(cap)) else m <= cap.limit.value
  }

  ghost predicate AllSafe(platforms: seq<string>, caps: seq<Cap>) {
    forall k :: 0 <= k < |caps| && WellFormed(caps[k]) ==> CapIsSafe(caps[k], caps, platforms)
  }

  // ---------------------------------------------------------------------------
  // The touches of one platform
  // ---------------------------------------------------------------------------

  lemma NamedLast(platforms: seq<string>, platform: string)
    requires platforms != []
    ensures var n := |platforms| - 1;
      Named(platforms, platform) == Named(platforms[..n], platform) + if platforms[n] == platform then 1 else 0
  {
    CountLast(platforms, platform);
  }

  lemma AllocatesLast(channels: seq<Channel>, platforms: seq<string>)
    requires Allocates(channels, platforms) && channels != []
    ensures Allocates(channels[..|channels| - 1], platforms[..|channels| - 1])
  {
  }

  /** Where each channel contributes at most one touch, there are at most as many as channels. */
  lemma {:induction false} FewTimes(channels: seq<Channel>, platforms: seq<string>, caps: seq<Cap>, start: int, end: int, audience: int, platform: string)
    requires Allocates(channels, platforms)
    requires forall i :: 0 <= i < |channels| ==> |ChannelTimes(channels[i], caps, start, end, platform)| <= 1
    ensures |Times(Plan(channels, caps, start, end, audience), platform)| <= Named(platforms, platform)
  {
    if channels != [] {
      var n := |channels| - 1;
      AllocatesLast(channels, platforms);
      FewTimes(channels[..n], platforms[..n], caps, start, end, audience, platform);
      TimesOfPlanStep(channels, caps, start, end, audience, platform);
      NamedLast(platforms, platform);
    }
  }

  lemma NoTimes(channels: seq<Channel>, platforms: seq<string>, caps: seq<Cap>, start: int, end: int, audience: int, platform: string)
    requires Allocates(channels, platforms) && Named(platforms, platform) == 0
    ensures Times(Plan(channels, caps, start, end, audience), platform) == []
  {
    forall i | 0 <= i < |channels| ensures ChannelTimes(channels[i], caps, start, end, platform) == [] {
      assert platforms[i] in multiset(platforms);
    }
    FewTimes(channels, platforms, caps, start, end, audience, platform);
  }

  /** A platform named once has one channel's touches. */
  lemma {:induction false} TimesOfOne(channels: seq<Channel>, platforms: seq<string>, caps: seq<Cap>, start: int, end: int, audience: int, platform: string)
    returns (i: nat)
    requires Allocates(channels, platforms) && Named(platforms, platform) == 1
    ensures i < |channels| && platforms[i] == platform
    ensures Times(Plan(channels, caps, start, end, audience), platform) == ChannelTimes(channels[i], caps, start, end, platform)
  {
    var n := |channels| - 1;
    assert platforms != [];
    AllocatesLast(channels, platforms);
    NamedLast(platforms, platform);
    if platforms[n] == platform {
      i := n;
      NoTimes(channels[..n], platforms[..n], caps, start, end, audience, platform);
      OnlyLast(channels, caps, start, end, audience, platform);
    } else {
      i := TimesOfOne(channels[..n], platforms[..n], caps, start, end, audience, platform);
      NotLast(channels, caps, start, end, audience, platform);
    }
  }

  lemma OnlyLast(channels: seq<Channel>, caps: seq<Cap>, start: int, end: int, audience: int, platform: string)
    requires channels != [] && Times(Plan(channels[..|channels| - 1], caps, start, end, audience), platform) == []
    ensures Times(Plan(channels, caps, start, end, audience), platform) == ChannelTimes(channels[|channels| - 1], caps, start, end, platform)
  {
    TimesOfPlanStep(channels, caps, start, end, audience, platform);
  }

  lemma NotLast(channels: seq<Channel>, caps: seq<Cap>, start: int, end: int, audience: int, platform: string)
    requires channels != [] && channels[|channels| - 1].Channel? && channels[|channels| - 1].platform != platform
    ensures Times(Plan(channels, caps, start, end, audience), platform) == Times(Plan(channels[..|channels| - 1], caps, start, end, audience), platform)
  {
    TimesOfPlanStep(channels, caps, start, end, audience, platform);
  }

  // ---------------------------------------------------------------------------
  // Safe proposals
  // ---------------------------------------------------------------------------

  lemma ShortIsNotCrowded(times: seq<int>, width: int, limit: int)
    requires |times| <= limit
    ensures !Crowded(times, width, limit)
  {
  }

  /** The consulted cap is the well-formed one, or it is malformed and every channel gets one touch. */
  lemma ConsultedCap(caps: seq<Cap>, k: nat)
    requires OneCapEach(caps) && k < |caps| && WellFormed(caps[k])
    ensures CapFor(caps, caps[k].platform).Some?
    ensures CapFor(caps, caps[k].platform) == Some(caps[k]) || !HasRate(CapFor(caps, caps[k].platform).value)
  {
    var j := CapForIsListed(caps, caps[k].platform, k);
    if HasRate(caps[j]) {
      assert WellFormed(caps[j]);
      assert j == k;
    }
  }

  lemma SingleTouchEach(ch: Channel, caps: seq<Cap>, start: int, end: int, platform: string)
    requires CapFor(caps, platform).Some? && !HasRate(CapFor(caps, platform).value)
    ensures |ChannelTimes(ch, caps, start, end, platform)| <= 1
  {
  }

  lemma HonouredChannel(ch: Channel, caps: seq<Cap>, k: nat, start: int, end: int)
    requires OneCapEach(caps) && k < |caps| && WellFormed(caps[k]) && CapHonoured(caps[k])
    ensures !Crowded(ChannelTimes(ch, caps, start, end, caps[k].platform), Window(caps[k]), caps[k].limit.value)
  {
    var days, limit, window := Days(start, end), caps[k].limit.value, WindowDays(caps[k].per);
    if Active(ch) && ch.platform == caps[k].platform {
      ChannelIsSpaced(ch, caps, k, days);
      SpacedIsNotCrowded(start, days, TouchCount(ch.pct.value, CapFor(caps, ch.platform), days), limit, window);
    } else {
      ShortIsNotCrowded([], Window(caps[k]), limit);
    }
  }

  lemma SafeCapIsMet(channels: seq<Channel>, platforms: seq<string>, caps: seq<Cap>, k: nat, start: int, end: int, audience: int)
    requires OneCapEach(caps) && Allocates(channels, platforms)
    requires k < |caps| && WellFormed(caps[k]) && CapIsSafe(caps[k], caps, platforms)
    ensures !Breached(Plan(channels, caps, start, end, audience), caps[k])
  {
    var cap := caps[k];
    var times := Times(Plan(channels, caps, start, end, audience), cap.platform);
    ConsultedCap(caps, k);
    if CapFor(caps, cap.platform) != Some(cap) {
      forall i | 0 <= i < |channels| ensures |ChannelTimes(channels[i], caps, start, end, cap.platform)| <= 1 {
        SingleTouchEach(channels[i], caps, start, end, cap.platform);
      }
      FewTimes(channels, platforms, caps, start, end, audience, cap.platform);
      ShortIsNotCrowded(times, Window(cap), cap.limit.value);
    } else if Named(platforms, cap.platform) == 0 {
      NoTimes(channels, platforms, caps, start, end, audience, cap.platform);
      ShortIsNotCrowded(times, Window(cap), cap.limit.value);
    } else {
      var i := TimesOfOne(channels, platforms, caps, start, end, audience, cap.platform);
      HonouredChannel(channels[i], caps, k, start, end);
    }
  }

  // ---------------------------------------------------------------------------
  // Unsafe proposals
  // ---------------------------------------------------------------------------

  /** Every platform with the same allocation. */
  function Uniform(platforms: seq<string>, pct: Percent): (channels: seq<Channel>) {
    seq(|platforms|, i requires 0 <= i < |platforms| => Channel(platforms[i], Some(pct)))
  }

  ghost predicate Within(times: seq<int>, from: int, to: int) {
    forall i :: 0 <= i < |times| ==> from <= times[i] < to
  }

  /** Each channel on the platform contributes `n` touches between two instants. */
  lemma {:induction false} ManyTimes(platforms: seq<string>, pct: Percent, caps: seq<Cap>, start: int, end: int, platform: string, n: nat, from: int, to: int)
    requires platform != "" && pct.num > 0
    requires var own := ChannelTimes(Channel(platform, Some(pct)), caps, start, end, platform); |own| == n && Within(own, from, to)
    ensures var times := Times(Plan(Uniform(platforms, pct), caps, start, end, 0), platform);
      |times| == Named(platforms, platform) * n && Within(times, from, to)
  {
    if platforms != [] {
      var last := |platforms| - 1;
      ManyTimes(platforms[..last], pct, caps, start, end, platform, n, from, to);
      UniformStep(platforms, pct, caps, start, end, platform);
      NamedLast(platforms, platform);
      MulAdd(Named(platforms[..last], platform), 1, n);
    }
  }

  lemma UniformStep(platforms: seq<string>, pct: Percent, caps: seq<Cap>, start: int, end: int, platform: string)
    requires platforms != []
    ensures var last := |platforms| - 1;
      Times(Plan(Uniform(platforms, pct), caps, start, end, 0), platform)
        == Times(Plan(Uniform(platforms[..last], pct), caps, start, end, 0), platform)
         + if platforms[last] == platform then ChannelTimes(Channel(platform, Some(pct)), caps, start, end, platform) else []
  {
    var last := |platforms| - 1;
    assert Uniform(platforms, pct)[..last] == Uniform(platforms[..last], pct);
    TimesOfPlanStep(Uniform(platforms, pct), caps, start, end, 0, platform);
  }

  lemma FullWindowIsCrowded(times: seq<int>, from: int, width: int, limit: int)
    requires Within(times, from, from + width) && |times| > limit
    ensures Crowded(times, width, limit)
  {
    InWindowAll(times, from, width);
    assert InWindow(times, from, width) > limit;
  }

  /** If every channel on a cap's platform puts `n` touches in one window and that is too many, the cap is breached. */
  lemma TooMany(platforms: seq<string>, pct: Percent, caps: seq<Cap>, end: int, cap: Cap, n: nat, from: int)
    requires WellFormed(cap) && pct.num > 0 && Named(platforms, cap.platform) * n > cap.limit.value
    requires var own := ChannelTimes(Channel(cap.platform, Some(pct)), caps, 0, end, cap.platform);
      |own| == n && Within(own, from, from + Window(cap))
    ensures Breached(Plan(Uniform(platforms, pct), caps, 0, end, 0), cap)
  {
    ManyTimes(platforms, pct, caps, 0, end, cap.platform, n, from, from + Window(cap));
    FullWindowIsCrowded(Times(Plan(Uniform(platforms, pct), caps, 0, end, 0), cap.platform), from, Window(cap), cap.limit.value);
  }

  /** One window of days at the full rate: the cap's limit, all of it within the window. */
  lemma FullCount(caps: seq<Cap>, cap: Cap)
    requires WellFormed(cap) && CapFor(caps, cap.platform) == Some(cap)
    ensures var own := ChannelTimes(Channel(cap.platform, Some(Percent(700 * cap.limit.value, 1))), caps, 0, WindowDays(cap.per) - 1, cap.platform);
      |own| == cap.limit.value && Within(own, At(0, 0), At(0, 0) + Window(cap))
  {
    CountAtMaximum(cap, WindowDays(cap.per), cap.limit.value);
    CampaignTimes(WindowDays(cap.per), cap.limit.value);
  }

  lemma TwoChannelsBreak(platforms: seq<string>, caps: seq<Cap>, cap: Cap)
    requires WellFormed(cap) && CapFor(caps, cap.platform) == Some(cap) && Named(platforms, cap.platform) >= 2
    ensures Breached(Plan(Uniform(platforms, Percent(700 * cap.limit.value, 1)), caps, 0, WindowDays(cap.per) - 1, 0), cap)
  {
    FullCount(caps, cap);
    TwiceIsMore(Named(platforms, cap.platform), cap.limit.value);
    TooMany(platforms, Percent(700 * cap.limit.value, 1), caps, WindowDays(cap.per) - 1, cap, cap.limit.value, At(0, 0));
  }

  lemma TwiceIsMore(m: int, n: int)
    requires m >= 2 && n >= 1
    ensures m * n > n
  {
    MulSub(m, 2, n);
    MulSign(m - 2, n);
  }

  lemma CampaignTimes(days: nat, count: nat)
    requires days >= 1
    ensures Within(DayTimes(0, days, count), At(0, 0), At(0, 0) + days * DAY)
  {
    forall i | 0 <= i < count ensures At(0, 0) <= DayTimes(0, days, count)[i] < At(0, 0) + days * DAY {
      OffsetInRange(i, days, count);
    }
  }

  lemma LayoutBreaks(platforms: seq<string>, caps: seq<Cap>, cap: Cap, pct: Percent, w: Layout)
    requires WellFormed(cap) && CapFor(caps, cap.platform) == Some(cap) && Named(platforms, cap.platform) == 1
    requires DrivesTo(cap, pct, w)
    ensures Breached(Plan(Uniform(platforms, pct), caps, 0, w.days - 1, 0), cap)
  {
    OneUniform(platforms, caps, cap, pct, w.days, w.count);
    LayoutIsCrowded(w, cap.limit.value, WindowDays(cap.per));
    CrowdedIsBreached(Plan(Uniform(platforms, pct), caps, 0, w.days - 1, 0), cap, DayTimes(0, w.days, w.count));
  }

  lemma CrowdedIsBreached(touches: seq<Touch>, cap: Cap, times: seq<int>)
    requires WellFormed(cap) && Times(touches, cap.platform) == times && Crowded(times, WindowDays(cap.per) * DAY, cap.limit.value)
    ensures Breached(touches, cap)
  {
  }

  lemma LayoutIsCrowded(w: Layout, limit: nat, window: nat)
    requires Breaks(w, limit, window)
    ensures Crowded(DayTimes(0, w.days, w.count), window * DAY, limit)
  {
    BrokenIsCrowded(0, w.days, w.count, limit, window, w.first);
  }

  /** The allocation gives the layout's count, and the layout breaks the cap. */
  ghost predicate DrivesTo(cap: Cap, pct: Percent, w: Layout)
    requires WellFormed(cap)
  {
    pct.num > 0 && w.days >= 1 && Breaks(w, cap.limit.value, WindowDays(cap.per)) && w.count == TouchCount(pct, Some(cap), w.days)
  }

  lemma OneUniform(platforms: seq<string>, caps: seq<Cap>, cap: Cap, pct: Percent, days: nat, count: nat)
    requires WellFormed(cap) && CapFor(caps, cap.platform) == Some(cap)
    requires Named(platforms, cap.platform) == 1 && pct.num > 0 && days >= 1 && count == TouchCount(pct, Some(cap), days)
    ensures Times(Plan(Uniform(platforms, pct), caps, 0, days - 1, 0), cap.platform) == DayTimes(0, days, count)
  {
    var i := TimesOfOne(Uniform(platforms, pct), platforms, caps, 0, days - 1, 0, cap.platform);
  }

  lemma BreakingLayout(cap: Cap) returns (pct: Percent, w: Layout)
    requires WellFormed(cap) && !CapHonoured(cap)
    ensures DrivesTo(cap, pct, w)
  {
    w := Breaking(cap.limit.value, WindowDays(cap.per));
    pct := Percent(BreakingPercent(cap.limit.value, WindowDays(cap.per)), 1);
    BreakingBreaks(cap.limit.value, WindowDays(cap.per));
    BreakingCount(cap);
    BreakingPercentPositive(cap);
  }

  lemma OneChannelBreaks(platforms: seq<string>, caps: seq<Cap>, cap: Cap) returns (pct: Percent, end: int)
    requires WellFormed(cap) && CapFor(caps, cap.platform) == Some(cap)
    requires Named(platforms, cap.platform) == 1 && !CapHonoured(cap)
    ensures Breached(Plan(Uniform(platforms, pct), caps, 0, end, 0), cap)
  {
    var w;
    pct, w := BreakingLayout(cap);
    end := w.days - 1;
    LayoutBreaks(platforms, caps, cap, pct, w);
  }

  lemma OneTouchOnTheDay(caps: seq<Cap>, cap: Cap)
    requires WellFormed(cap) && CapFor(caps, cap.platform).Some? && !HasRate(CapFor(caps, cap.platform).value)
    ensures var own := ChannelTimes(Channel(cap.platform, Some(Percent(1, 1))), caps, 0, 0, cap.platform);
      |own| == 1 && Within(own, At(0, 0), At(0, 0) + Window(cap))
  {
    assert TouchCount(Percent(1, 1), CapFor(caps, cap.platform), 1) == 1;
    CampaignTimes(1, 1);
  }

  lemma ManySinglesBreak(platforms: seq<string>, caps: seq<Cap>, cap: Cap)
    requires WellFormed(cap) && CapFor(caps, cap.platform).Some? && !HasRate(CapFor(caps, cap.platform).value)
    requires Named(platforms, cap.platform) > cap.limit.value
    ensures Breached(Plan(Uniform(platforms, Percent(1, 1)), caps, 0, 0, 0), cap)
  {
    OneTouchOnTheDay(caps, cap);
    TooMany(platforms, Percent(1, 1), caps, 0, cap, 1, At(0, 0));
  }

  lemma UnsafeRaises(platforms: seq<string>, caps: seq<Cap>, k: nat)
    requires OneCapEach(caps) && k < |caps| && WellFormed(caps[k]) && !CapIsSafe(caps[k], caps, platforms)
    ensures !NeverRaises(platforms, caps)
  {
    var cap := caps[k];
    ConsultedCap(caps, k);
    if CapFor(caps, cap.platform) != Some(cap) {
      ManySinglesBreak(platforms, caps, cap);
      Raises(platforms, Percent(1, 1), caps, 0, k);
    } else if Named(platforms, cap.platform) >= 2 {
      TwoChannelsBreak(platforms, caps, cap);
      Raises(platforms, Percent(700 * cap.limit.value, 1), caps, WindowDays(cap.per) - 1, k);
    } else {
      var pct, end := OneChannelBreaks(platforms, caps, cap);
      Raises(platforms, pct, caps, end, k);
    }
  }

  lemma Raises(platforms: seq<string>, pct: Percent, caps: seq<Cap>, end: int, k: nat)
    requires k < |caps| && Breached(Plan(Uniform(platforms, pct), caps, 0, end, 0), caps[k])
    ensures !NeverRaises(platforms, caps)
  {
    assert Allocates(Uniform(platforms, pct), platforms);
    assert !MeetsCaps(Plan(Uniform(platforms, pct), caps, 0, end, 0), caps);
  }

  /**
   A proposal on these platforms can never make the calendar raise, whatever its allocations and
   dates, if and only if every well-formed cap is safe: consulted, it must be honoured and its
   platform named at most once; behind a malformed cap, its platform may be named up to its limit.
   */
  lemma NeverRaisesIffSafe(platforms: seq<string>, caps: seq<Cap>)
    requires OneCapEach(caps)
    ensures NeverRaises(platforms, caps) <==> AllSafe(platforms, caps)
  {
    if AllSafe(platforms, caps) {
      forall channels, start, end, audience | Allocates(channels, platforms)
        ensures MeetsCaps(Plan(channels, caps, start, end, audience), caps)
      {
        forall k | 0 <= k < |caps| ensures !Breached(Plan(channels, caps, start, end, audience), caps[k]) {
          if WellFormed(caps[k]) {
            SafeCapIsMet(channels, platforms, caps, k, start, end, audience);
          }
        }
      }
    } else {
      var k :| 0 <= k < |caps| && WellFormed(caps[k]) && !CapIsSafe(caps[k], caps, platforms);
      UnsafeRaises(platforms, caps, k);
    }
  }
}
