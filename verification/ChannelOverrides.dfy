/**
 Human overrides on the channels of a proposal: each names a platform and may set its percentage;
 one that cannot be applied refuses them all.
 */
module ChannelOverrides {
  import opened Sequences
  import opened Calendar

  datatype PctChange = Keep | Set(pct: Option<Percent>)

  /** `readableAmount` is false for an amount that is given and is not a number. */
  datatype ChannelOverride = ChannelOverride(platform: string, pct: PctChange, readableAmount: bool)

  predicate On(ch: Channel, platform: string) {
    ch.Channel? && ch.platform == platform
  }

  /** The last channel on a platform, or -1: what the index by platform keeps. */
  function IndexOf(channels: seq<Channel>, platform: string): (i: int)
    ensures -1 <= i < |channels|
    ensures i >= 0 ==> On(channels[i], platform)
    ensures forall k :: i < k < |channels| ==> !On(channels[k], platform)
  {
    if channels == [] then -1
    else if On(channels[|channels| - 1], platform) then |channels| - 1
    else IndexOf(channels[..|channels| - 1], platform)
  }

  predicate Applies(channels: seq<Channel>, o: ChannelOverride) {
    IndexOf(channels, o.platform) >= 0 && o.readableAmount
  }

  function PatchOne(channels: seq<Channel>, o: ChannelOverride): (r: seq<Channel>)
    requires Applies(channels, o)
  {
    if o.pct.Keep? then channels
    else
      var i := IndexOf(channels, o.platform);
      channels[i := channels[i].(pct := o.pct.pct)]
  }

  function Patched(channels: seq<Channel>, overrides: seq<ChannelOverride>): (r: Option<seq<Channel>>) {
    if overrides == [] then Some(channels)
    else
      var before, o := Patched(channels, overrides[..|overrides| - 1]), overrides[|overrides| - 1];
      if before.None? || !Applies(before.value, o) then None else Some(PatchOne(before.value, o))
  }

  method PatchChannels(channels: seq<Channel>, overrides: seq<ChannelOverride>) returns (r: Option<seq<Channel>>)
    ensures r == Patched(channels, overrides)
  {
    var patched := channels;
    for n := 0 to |overrides|
      invariant Patched(channels, overrides[..n]) == Some(patched)
    {
      assert overrides[..n + 1][..n] == overrides[..n];
      var i := IndexOf(patched, overrides[n].platform);
      if i < 0 || !overrides[n].readableAmount {
        RefusesAll(channels, overrides, n + 1);
        return None;
      }
      if overrides[n].pct.Set? {
        patched := patched[i := patched[i].(pct := overrides[n].pct.pct)];
      }
    }
    assert overrides[..|overrides|] == overrides;
    r := Some(patched);
  }

  lemma {:induction false} RefusesAll(channels: seq<Channel>, overrides: seq<ChannelOverride>, n: nat)
    requires n <= |overrides| && Patched(channels, overrides[..n]).None?
    ensures Patched(channels, overrides).None?
    decreases |overrides| - n
  {
    if n < |overrides| {
      assert overrides[..n + 1][..n] == overrides[..n];
      RefusesAll(channels, overrides, n + 1);
    } else {
      assert overrides[..n] == overrides;
    }
  }

  /** The percentage the overrides leave a platform with: the last one that sets it wins. */
  function PctAfter(overrides: seq<ChannelOverride>, platform: string, pct: Option<Percent>): (r: Option<Percent>) {
    if overrides == [] then pct
    else
      var o := overrides[|overrides| - 1];
      if o.platform == platform && o.pct.Set? then o.pct.pct else PctAfter(overrides[..|overrides| - 1], platform, pct)
  }

  /** `after` is `before` with the percentages of the last channel on each platform overridden, and nothing else. */
  ghost predicate Overridden(before: seq<Channel>, after: seq<Channel>, overrides: seq<ChannelOverride>) {
    && |after| == |before|
    && forall i :: 0 <= i < |before| ==> OverriddenAt(before, after[i], overrides, i)
  }

  predicate OverriddenAt(before: seq<Channel>, ch: Channel, overrides: seq<ChannelOverride>, i: nat)
    requires i < |before|
  {
    ch == if before[i].Channel? && IndexOf(before, before[i].platform) == i
          then before[i].(pct := PctAfter(overrides, before[i].platform, before[i].pct))
          else before[i]
  }

  lemma {:induction false} SameIndex(a: seq<Channel>, b: seq<Channel>, platform: string)
    requires |a| == |b| && forall i :: 0 <= i < |a| ==> (On(a[i], platform) <==> On(b[i], platform))
    ensures IndexOf(a, platform) == IndexOf(b, platform)
  {
    if a != [] { SameIndex(a[..|a| - 1], b[..|b| - 1], platform); }
  }

  lemma OverriddenIndex(before: seq<Channel>, after: seq<Channel>, overrides: seq<ChannelOverride>, platform: string)
    requires Overridden(before, after, overrides)
    ensures IndexOf(after, platform) == IndexOf(before, platform)
  {
    forall i | 0 <= i < |before| ensures On(after[i], platform) <==> On(before[i], platform) {
      assert OverriddenAt(before, after[i], overrides, i);
    }
    SameIndex(after, before, platform);
  }

  /** A channel on the override's platform is there, and its amount can be read. */
  ghost predicate Fits(channels: seq<Channel>, o: ChannelOverride) {
    o.readableAmount && exists i :: 0 <= i < |channels| && channels[i].Channel? && channels[i].platform == o.platform
  }

  lemma FitsIff(channels: seq<Channel>, o: ChannelOverride)
    ensures Applies(channels, o) <==> Fits(channels, o)
  {
    var i := IndexOf(channels, o.platform);
    if i >= 0 {
      assert On(channels[i], o.platform);
    }
  }

  /** Overrides are applied exactly when each names a platform of the proposal and has a readable amount,
      and then they change exactly what they name. */
  lemma {:induction false} PatchedIff(channels: seq<Channel>, overrides: seq<ChannelOverride>)
    ensures Patched(channels, overrides).Some? <==> forall j :: 0 <= j < |overrides| ==> Fits(channels, overrides[j])
    ensures Patched(channels, overrides).Some? ==> Overridden(channels, Patched(channels, overrides).value, overrides)
  {
    if overrides != [] {
      var n := |overrides| - 1;
      PatchedIff(channels, overrides[..n]);
      assert forall j :: 0 <= j < n ==> overrides[..n][j] == overrides[j];
      var before := Patched(channels, overrides[..n]);
      FitsIff(channels, overrides[n]);
      if before.Some? {
        OverriddenIndex(channels, before.value, overrides[..n], overrides[n].platform);
        if Applies(channels, overrides[n]) {
          PatchOneOverrides(channels, before.value, overrides);
        }
      }
    }
  }

  lemma PatchOneOverrides(channels: seq<Channel>, before: seq<Channel>, overrides: seq<ChannelOverride>)
    requires overrides != [] && Overridden(channels, before, overrides[..|overrides| - 1])
    requires Applies(before, overrides[|overrides| - 1]) && IndexOf(before, overrides[|overrides| - 1].platform) == IndexOf(channels, overrides[|overrides| - 1].platform)
    ensures Overridden(channels, PatchOne(before, overrides[|overrides| - 1]), overrides)
  {
    var after := PatchOne(before, overrides[|overrides| - 1]);
    forall i | 0 <= i < |channels| ensures OverriddenAt(channels, after[i], overrides, i) {
      assert OverriddenAt(channels, before[i], overrides[..|overrides| - 1], i);
    }
  }
}
