/**
 The values the calendar works on: planned touches, soft warnings, tenant hard caps and
 the channel rows of a strategy proposal.
 */
module Touchpoints {
  import opened Sequences
  import opened Instants

  const NINE_O_CLOCK := 9 * 3600

  datatype Warning = Warning(capPerDays: int, limit: nat, countInWindow: nat)

  datatype Touch = Touch(
    platform: string,
    audience: int,
    at: int,
    position: int,
    humanOverride: bool,
    warning: Option<Warning>)

  datatype Per = Day | Week | Month | OtherPer

  /** A hard-cap row as stored: its `per` may be unknown and its limit not a number. */
  datatype Cap = Cap(platform: string, per: Per, limit: Option<int>)

  function WindowDays(per: Per): (d: nat)
    requires !per.OtherPer?
    ensures d >= 1
  {
    match per
    case Day => 1
    case Week => 7
    case Month => 30
  }

  predicate HasRate(cap: Cap) {
    !cap.per.OtherPer? && cap.limit.Some? && cap.limit.value > 0
  }

  predicate WellFormed(cap: Cap) {
    cap.platform != "" && HasRate(cap)
  }

  function Window(cap: Cap): (w: int)
    requires WellFormed(cap)
    ensures w > 0
  {
    WindowDays(cap.per) * DAY
  }

  function OnPlatform(platform: string): Touch -> Option<int> {
    (t: Touch) => if t.platform == platform then Some(t.at) else None
  }

  function ToAudience(audience: int): Touch -> Option<int> {
    (t: Touch) => if t.audience == audience then Some(t.at) else None
  }

  /** The instants at which a platform is touched, in list order. */
  function Times(touches: seq<Touch>, platform: string): (r: seq<int>) {
    Select(touches, OnPlatform(platform))
  }

  /** The instants at which an audience is touched, in list order. */
  function AudienceTimes(touches: seq<Touch>, audience: int): (r: seq<int>) {
    Select(touches, ToAudience(audience))
  }
}
