/**
 `generate_calendar`: sizes each channel, spreads its touches, sorts the result and checks
 the tenant's hard caps. With distinct platforms and one well-formed cap for each, that check
 never fails for allocations of at most 100%, and for larger ones only if a cap is not `Honoured`.
 */
module Calendar {
  import opened Rounding
  import opened Spacing
  import opened Sequences
  import opened Instants
  import opened Touchpoints
  import opened HardCaps

  type Positive = x: int | x > 0 witness 1

  /** An allocation percentage, num/den percent. */
  datatype Percent = Percent(num: int, den: Positive)

  /** A row of the proposal's channel list; names are trimmed and lower-case, and a
      percentage that does not parse is None. */
  datatype Channel = NotAnObject | Channel(platform: string, pct: Option<Percent>)

  datatype Generated = Laid(touches: seq<Touch>) | Raised(violations: seq<Violation>)

  /** Only rows with a name and a positive allocation are scheduled. */
  predicate Active(ch: Channel) {
    ch.Channel? && ch.platform != "" && ch.pct.Some? && ch.pct.value.num > 0
  }

  function Max(a: int, b: int): int { if a >= b then a else b }

  function Min(a: int, b: int): int { if a <= b then a else b }

  /** Campaign length; a reversed date range counts as one day. */
  function Days(start: int, end: int): (d: nat)
    ensures d >= 1
  {
    Max(1, end - start + 1)
  }

  /** One touch per week at 100%, rounded, and at least one. */
  function WeeklyCount(pct: Percent, days: nat): (n: nat)
    ensures n >= 1
  {
    Max(1, RoundHalfEven(pct.num * days, 700 * pct.den))
  }

  function MaxTouchesForCap(cap: Cap, days: nat): (n: nat) {
    if !HasRate(cap) then 0
    else Max(1, days * cap.limit.value / WindowDays(cap.per))
  }

  function TouchCount(pct: Percent, cap: Option<Cap>, days: nat): (n: nat)
    ensures n >= 1
  {
    var n := WeeklyCount(pct, days);
    if cap.Some? then Max(1, Min(n, MaxTouchesForCap(cap.value, days))) else n
  }

  /** The cap the generator consults for a platform: the last one listed. */
  function CapFor(caps: seq<Cap>, platform: string): Option<Cap>
  {
    if caps == [] then None
    else if caps[|caps| - 1].platform == platform then Some(caps[|caps| - 1])
    else CapFor(caps[..|caps| - 1], platform)
  }

  method IndexHardCaps(caps: seq<Cap>) returns (index: map<string, Cap>)
    ensures forall p :: p in index <==> p != "" && CapFor(caps, p).Some?
    ensures forall p :: p in index ==> CapFor(caps, p) == Some(index[p])
  {
    index := map[];
    for k := 0 to |caps|
      invariant forall p :: p in index <==> p != "" && CapFor(caps[..k], p).Some?
      invariant forall p :: p in index ==> CapFor(caps[..k], p) == Some(index[p])
    {
      assert caps[..k + 1][..k] == caps[..k];
      if caps[k].platform != "" {
        index := index[caps[k].platform := caps[k]];
      }
    }
    assert caps[..|caps|] == caps;
  }

  function At(start: int, offset: int): int {
    (start + offset) * DAY + NINE_O_CLOCK
  }

  function PlannedTouch(i: nat, count: nat, start: int, end: int, platform: string, audience: int, position: int): Touch
    requires i < count
  {
    Touch(platform, audience, At(start, Offset(i, Days(start, end), count)), position + i, false, None)
  }

  /** On one of the campaign's days. */
  predicate OnCampaignDay(t: Touch, start: int, end: int) {
    At(start, 0) <= t.at <= At(start, Days(start, end) - 1)
  }

  lemma PlannedOnCampaignDay(i: nat, count: nat, start: int, end: int, platform: string, audience: int, position: int)
    requires i < count
    ensures OnCampaignDay(PlannedTouch(i, count, start, end, platform, audience, position), start, end)
  {
    OffsetInRange(i, Days(start, end), count);
  }

  /** Neighbouring touches are the floor or the ceiling of the exact step apart, in days. */
  predicate EvenGap(a: Touch, b: Touch, days: nat, count: nat)
    requires count >= 2
  {
    var step := (days - 1) / (count - 1);
    step * DAY <= b.at - a.at <= (if (days - 1) % (count - 1) == 0 then step else step + 1) * DAY
  }

  lemma PlannedGap(i: nat, count: nat, start: int, end: int, platform: string, audience: int, position: int)
    requires i + 1 < count
    ensures EvenGap(PlannedTouch(i, count, start, end, platform, audience, position),
                    PlannedTouch(i + 1, count, start, end, platform, audience, position), Days(start, end), count)
  {
    OffsetGap(i, Days(start, end), count);
  }

  method Distribute(count: nat, start: int, end: int, platform: string, audience: int, position: int) returns (out: seq<Touch>)
    ensures |out| == count
    ensures forall i :: 0 <= i < count ==> out[i] == PlannedTouch(i, count, start, end, platform, audience, position)
    ensures count >= 2 ==> out[0].at == At(start, 0) && out[count - 1].at == At(start, Days(start, end) - 1)
    ensures forall i :: 0 <= i < count - 1 ==> EvenGap(out[i], out[i + 1], Days(start, end), count)
    ensures forall i :: 0 <= i < count ==> OnCampaignDay(out[i], start, end)
  {
    var days := Days(start, end);
    var offsets: seq<int> := [];
    if count == 1 {
      offsets := [days / 2];
    } else {
      for i := 0 to count
        invariant |offsets| == i
        invariant forall k :: 0 <= k < i ==> offsets[k] == Offset(k, days, count)
      {
        offsets := offsets + [RoundHalfEven(i * (days - 1), count - 1)];
      }
    }
    out := [];
    for i := 0 to count
      invariant |out| == i
      invariant forall k :: 0 <= k < i ==> out[k] == PlannedTouch(k, count, start, end, platform, audience, position)
    {
      out := out + [Touch(platform, audience, At(start, offsets[i]), position + i, false, None)];
    }
    forall i | 0 <= i < count ensures OnCampaignDay(out[i], start, end) {
      PlannedOnCampaignDay(i, count, start, end, platform, audience, position);
    }
    if count >= 2 {
      OffsetEnds(days, count);
      forall i | 0 <= i < count - 1 ensures EvenGap(out[i], out[i + 1], days, count) {
        PlannedGap(i, count, start, end, platform, audience, position);
      }
    }
  }

  function ChannelTouches(ch: Channel, caps: seq<Cap>, start: int, end: int, audience: int, position: int): (r: seq<Touch>)
  {
    if !Active(ch) then []
    else
      var n := TouchCount(ch.pct.value, CapFor(caps, ch.platform), Days(start, end));
      seq(n, i requires 0 <= i < n => PlannedTouch(i, n, start, end, ch.platform, audience, position))
  }

  /** The touches laid down for a proposal, channel by channel, positions running on. */
  function Plan(channels: seq<Channel>, caps: seq<Cap>, start: int, end: int, audience: int): (r: seq<Touch>)
  {
    if channels == [] then []
    else
      var before := Plan(channels[..|channels| - 1], caps, start, end, audience);
      before + ChannelTouches(channels[|channels| - 1], caps, start, end, audience, |before|)
  }

  lemma ChannelIsFresh(ch: Channel, caps: seq<Cap>, start: int, end: int, audience: int, position: int)
    ensures forall t :: t in ChannelTouches(ch, caps, start, end, audience, position) ==>
      t.audience == audience && t.warning == None && OnCampaignDay(t, start, end)
  {
    if Active(ch) {
      var n := TouchCount(ch.pct.value, CapFor(caps, ch.platform), Days(start, end));
      forall i | 0 <= i < n ensures OnCampaignDay(PlannedTouch(i, n, start, end, ch.platform, audience, position), start, end) {
        PlannedOnCampaignDay(i, n, start, end, ch.platform, audience, position);
      }
    }
  }

  lemma {:induction false} PlanIsFresh(channels: seq<Channel>, caps: seq<Cap>, start: int, end: int, audience: int)
    ensures forall t :: t in Plan(channels, caps, start, end, audience) ==>
      t.audience == audience && t.warning == None && OnCampaignDay(t, start, end)
  {
    if channels != [] {
      PlanIsFresh(channels[..|channels| - 1], caps, start, end, audience);
      ChannelIsFresh(channels[|channels| - 1], caps, start, end, audience, |Plan(channels[..|channels| - 1], caps, start, end, audience)|);
    }
  }

  const BY_TIME_THEN_POSITION := (t: Touch) => (t.at, t.position)

  method GenerateCalendar(channels: seq<Channel>, start: int, end: int, audience: int, caps: seq<Cap>) returns (r: Generated)
    ensures r.Laid? <==> MeetsCaps(Plan(channels, caps, start, end, audience), caps)
    ensures r.Laid? ==> multiset(r.touches) == multiset(Plan(channels, caps, start, end, audience))
    ensures r.Laid? ==> SortedBy(r.touches, BY_TIME_THEN_POSITION) && MeetsCaps(r.touches, caps)
    ensures r.Laid? ==> forall k :: 0 <= k < |r.touches| ==>
      r.touches[k].audience == audience && r.touches[k].warning == None && OnCampaignDay(r.touches[k], start, end)
    ensures r.Raised? ==> r.violations != [] && Reports(r.violations, Plan(channels, caps, start, end, audience), caps)
  {
    var capByPlatform := IndexHardCaps(caps);
    var out: seq<Touch> := [];
    var cursor := 0;
    var days := Days(start, end);
    for k := 0 to |channels|
      invariant out == Plan(channels[..k], caps, start, end, audience)
      invariant cursor == |out|
    {
      var ch := channels[k];
      assert channels[..k + 1][..k] == channels[..k];
      if Active(ch) {
        var count := WeeklyCount(ch.pct.value, days);
        if ch.platform in capByPlatform {
          count := Min(count, MaxTouchesForCap(capByPlatform[ch.platform], days));
        }
        count := Max(1, count);
        var touches := Distribute(count, start, end, ch.platform, audience, cursor);
        assert touches == ChannelTouches(ch, caps, start, end, audience, cursor);
        cursor := cursor + |touches|;
        out := out + touches;
      }
    }
    assert channels[..|channels|] == channels;
    var sorted := SortBy(out, BY_TIME_THEN_POSITION);
    MeetsCapsPermutes(sorted, out, caps);
    PlanIsFresh(channels, caps, start, end, audience);
    SameMembers(sorted, out);
    var violations := EnforceHardCaps(sorted, caps);
    ReportsPermute(violations, sorted, out, caps);
    r := if violations == [] then Laid(sorted) else Raised(violations);
  }
}
