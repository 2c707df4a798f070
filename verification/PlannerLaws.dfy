/**
 Which violations the plan validator reports, and how often: for every kind and everything a
 violation can be about, in the terms of the plan itself.
 */
module PlannerLaws {
  import opened Sequences
  import opened Planner

  /** How often a list of violations holds one of this kind about this subject. */
  function Reported(vs: seq<Violation>, kind: Kind, at: Subject): (n: int) {
    SumBy(vs, Is(kind, at))
  }

  function Is(kind: Kind, at: Subject): Violation -> int {
    (v: Violation) => if v == Violation(kind, at) then 1 else 0
  }

  function Once(b: bool): nat { if b then 1 else 0 }

  // ---------------------------------------------------------------------------
  // What can be wrong with an element of the channel list
  // ---------------------------------------------------------------------------

  predicate NamedAs(e: Entry, platform: string) {
    e.Entry? && platform != "" && e.key == Some(platform)
  }

  predicate IsNamed(e: Entry) {
    e.Entry? && e.key.Some? && e.key.value != ""
  }

  /** An earlier element names the same platform. */
  ghost predicate Repeats(channels: seq<Entry>, i: nat)
    requires i < |channels|
  {
    exists j :: 0 <= j < i && IsNamed(channels[i]) && NamedAs(channels[j], channels[i].key.value)
  }

  /** Named, available, not forbidden, and for the first time. */
  predicate Admitted(e: Entry, repeats: bool, ctx: Context) {
    IsNamed(e) && e.key.value in ctx.available && e.key.value !in ctx.forbidden && !repeats
  }

  predicate Counted(e: Entry, repeats: bool, ctx: Context) {
    Admitted(e, repeats, ctx) && e.pct.Some? && e.amount.Some?
  }

  /** How often the element `e`, whose platform may be a repeated one, commits a violation of this kind. */
  function Expected(e: Entry, repeats: bool, ctx: Context, kind: Kind): (n: nat) {
    match kind
    case Shape => Once(!IsNamed(e) || (Admitted(e, repeats, ctx) && (e.pct.None? || e.amount.None?)))
    case ForbiddenChannel => Once(IsNamed(e) && e.key.value in ctx.forbidden)
    case UnknownChannel => Once(IsNamed(e) && e.key.value !in ctx.forbidden && e.key.value !in ctx.available)
    case DuplicateChannel => Once(IsNamed(e) && e.key.value !in ctx.forbidden && e.key.value in ctx.available && repeats)
    case OutOfRange =>
      if Counted(e, repeats, ctx) then Once(e.pct.value < 0.0 || e.pct.value > 100.0) + Once(e.amount.value < 0.0) else 0
    case AmountMismatch => Once(Counted(e, repeats, ctx) && Misstated(e, ctx))
    case MissingRationale => Once(Counted(e, repeats, ctx) && !e.rationale)
    case _ => 0
  }

  predicate Misstated(e: Entry, ctx: Context)
    requires Numeric(e)
  {
    Off(e.amount.value, PercentOf(ctx.budget, e.pct.value))
  }

  function PercentOf(whole: real, pct: real): real {
    whole * pct / 100.0
  }

  /** More than half a unit from the amount that is due, in whole cents. */
  predicate Off(amount: real, due: real) {
    amount - ToCents(due) > 0.5 || ToCents(due) - amount > 0.5
  }

  lemma {:induction false} SeenIff(channels: seq<Entry>, ctx: Context, platform: string)
    ensures platform in Seen(channels, ctx) <==>
      platform in ctx.available && platform !in ctx.forbidden && exists j :: 0 <= j < |channels| && NamedAs(channels[j], platform)
  {
    if channels != [] {
      var n := |channels| - 1;
      SeenIff(channels[..n], ctx, platform);
      assert forall j :: 0 <= j < n ==> channels[..n][j] == channels[j];
      var e := channels[n];
      if NamedAs(e, platform) {
        assert Name(e) == platform;
      }
    }
  }

  lemma SeenBefore(channels: seq<Entry>, i: nat, ctx: Context)
    requires i < |channels| && IsNamed(channels[i]) && channels[i].key.value in ctx.available && channels[i].key.value !in ctx.forbidden
    ensures channels[i].key.value in Seen(channels[..i], ctx) <==> Repeats(channels, i)
  {
    SeenIff(channels[..i], ctx, channels[i].key.value);
    assert forall j :: 0 <= j < i ==> channels[..i][j] == channels[j];
  }

  lemma OneCount(v: Violation, k: Kind, a: Subject)
    ensures Reported([v], k, a) == Once(v == Violation(k, a))
  {
    SumSingle(v, Is(k, a));
  }

  lemma IfCount(broken: bool, kind: Kind, at: Subject, k: Kind, a: Subject)
    ensures Reported(If(broken, kind, at), k, a) == Once(broken && k == kind && a == at)
  {
    OneCount(Violation(kind, at), k, a);
  }

  lemma ReportedOfFour(x: seq<Violation>, y: seq<Violation>, z: seq<Violation>, u: seq<Violation>, k: Kind, a: Subject)
    ensures Reported(x + y + z + u, k, a) == Reported(x, k, a) + Reported(y, k, a) + Reported(z, k, a) + Reported(u, k, a)
  {
    SumAppend(x, y, Is(k, a));
    SumAppend(x + y, z, Is(k, a));
    SumAppend(x + y + z, u, Is(k, a));
  }

  /** How often four checks of an element, two of them of one kind, report something. */
  function OfFour(low: bool, negative: bool, off: bool, silent: bool, k: Kind): (n: nat) {
    match k
    case OutOfRange => Once(low) + Once(negative)
    case AmountMismatch => Once(off)
    case MissingRationale => Once(silent)
    case _ => 0
  }

  lemma FourIfs(low: bool, negative: bool, off: bool, silent: bool, at: Subject, k: Kind, a: Subject)
    ensures Reported(If(low, OutOfRange, at) + If(negative, OutOfRange, at) + If(off, AmountMismatch, at) + If(silent, MissingRationale, at), k, a)
         == if a == at then OfFour(low, negative, off, silent, k) else 0
  {
    ReportedOfFour(If(low, OutOfRange, at), If(negative, OutOfRange, at), If(off, AmountMismatch, at), If(silent, MissingRationale, at), k, a);
    IfCount(low, OutOfRange, at, k, a);
    IfCount(negative, OutOfRange, at, k, a);
    IfCount(off, AmountMismatch, at, k, a);
    IfCount(silent, MissingRationale, at, k, a);
  }

  lemma NumberCount(e: Entry, i: nat, ctx: Context, k: Kind, a: Subject)
    requires Numeric(e)
    ensures Reported(NumberFaults(e, i, ctx), k, a) == if a == Element(i)
      then OfFour(e.pct.value < 0.0 || e.pct.value > 100.0, e.amount.value < 0.0, !Matches(e, ctx.budget), !e.rationale, k) else 0
  {
    FourIfs(e.pct.value < 0.0 || e.pct.value > 100.0, e.amount.value < 0.0, !Matches(e, ctx.budget), !e.rationale, Element(i), k, a);
  }

  /** `seen` holds the element's platform, an allowed one, exactly when it repeats an earlier one. */
  predicate Remembers(e: Entry, seen: set<string>, repeats: bool, ctx: Context) {
    IsNamed(e) && e.key.value in ctx.available && e.key.value !in ctx.forbidden ==> (e.key.value in seen <==> repeats)
  }

  /** The one fault of an element that does not get as far as its numbers. */
  function OneFault(e: Entry, repeats: bool, ctx: Context): (k: Kind) {
    if !IsNamed(e) then Shape
    else if e.key.value in ctx.forbidden then ForbiddenChannel
    else if e.key.value !in ctx.available then UnknownChannel
    else if repeats then DuplicateChannel
    else Shape
  }

  lemma FaultsOfUncounted(e: Entry, i: nat, seen: set<string>, repeats: bool, ctx: Context)
    requires Remembers(e, seen, repeats, ctx) && !Counted(e, repeats, ctx)
    ensures EntryFaults(e, i, seen, ctx) == [Violation(OneFault(e, repeats, ctx), Element(i))]
  {
    if !IsNamed(e) {
      assert e.NotAnObject? || Name(e) == "";
    } else {
      assert Name(e) == e.key.value;
      assert Name(e) in AllowedPlatforms(ctx) <==> Name(e) in ctx.available && Name(e) !in ctx.forbidden;
    }
  }

  lemma FaultsOfCounted(e: Entry, i: nat, seen: set<string>, repeats: bool, ctx: Context)
    requires Remembers(e, seen, repeats, ctx) && Counted(e, repeats, ctx)
    ensures EntryFaults(e, i, seen, ctx) == NumberFaults(e, i, ctx)
  {
  }

  lemma ExpectedOfUncounted(e: Entry, repeats: bool, ctx: Context, k: Kind)
    requires !Counted(e, repeats, ctx)
    ensures Expected(e, repeats, ctx, k) == Once(k == OneFault(e, repeats, ctx))
  {
  }

  lemma ExpectedOfCounted(e: Entry, repeats: bool, ctx: Context, k: Kind)
    requires Counted(e, repeats, ctx)
    ensures Expected(e, repeats, ctx, k)
         == OfFour(e.pct.value < 0.0 || e.pct.value > 100.0, e.amount.value < 0.0, !Matches(e, ctx.budget), !e.rationale, k)
  {
    OffIff(e, ctx);
  }

  lemma EntryCount(e: Entry, i: nat, seen: set<string>, repeats: bool, ctx: Context, k: Kind, a: Subject)
    requires Remembers(e, seen, repeats, ctx)
    ensures Reported(EntryFaults(e, i, seen, ctx), k, a) == if a == Element(i) then Expected(e, repeats, ctx, k) else 0
  {
    if Counted(e, repeats, ctx) {
      FaultsOfCounted(e, i, seen, repeats, ctx);
      ExpectedOfCounted(e, repeats, ctx, k);
      NumberCount(e, i, ctx, k, a);
    } else {
      FaultsOfUncounted(e, i, seen, repeats, ctx);
      ExpectedOfUncounted(e, repeats, ctx, k);
      OneCount(Violation(OneFault(e, repeats, ctx), Element(i)), k, a);
    }
  }

  lemma OffIff(e: Entry, ctx: Context)
    requires Numeric(e)
    ensures Matches(e, ctx.budget) <==> !Misstated(e, ctx)
  {
    assert Share(ctx.budget, e.pct.value) == PercentOf(ctx.budget, e.pct.value);
    OffOf(e.amount.value, PercentOf(ctx.budget, e.pct.value));
  }

  lemma OffOf(amount: real, due: real)
    ensures Abs(amount - ToCents(due)) <= AMOUNT_TOLERANCE <==> !Off(amount, due)
  {
  }

  lemma {:induction false} ChannelCount(channels: seq<Entry>, ctx: Context, n: nat, k: Kind, a: Subject)
    requires n <= |channels|
    ensures Reported(ChannelFaults(channels[..n], ctx), k, a)
         == if a.Element? && a.i < n then Expected(channels[a.i], Repeats(channels, a.i), ctx, k) else 0
  {
    if n > 0 {
      ChannelCount(channels, ctx, n - 1, k, a);
      ChannelNext(channels, ctx, n - 1, k, a);
    }
  }

  lemma ChannelNext(channels: seq<Entry>, ctx: Context, n: nat, k: Kind, a: Subject)
    requires n < |channels|
    ensures Reported(ChannelFaults(channels[..n + 1], ctx), k, a)
         == Reported(ChannelFaults(channels[..n], ctx), k, a) + if a == Element(n) then Expected(channels[n], Repeats(channels, n), ctx, k) else 0
  {
    var seen := Seen(channels[..n], ctx);
    FaultsNext(channels, ctx, n);
    SumAppend(ChannelFaults(channels[..n], ctx), EntryFaults(channels[n], n, seen, ctx), Is(k, a));
    RemembersEarlier(channels, n, ctx);
    EntryCount(channels[n], n, seen, Repeats(channels, n), ctx, k, a);
  }

  lemma FaultsNext(channels: seq<Entry>, ctx: Context, n: nat)
    requires n < |channels|
    ensures ChannelFaults(channels[..n + 1], ctx) == ChannelFaults(channels[..n], ctx) + EntryFaults(channels[n], n, Seen(channels[..n], ctx), ctx)
  {
    assert channels[..n + 1][..n] == channels[..n];
  }

  lemma RemembersEarlier(channels: seq<Entry>, i: nat, ctx: Context)
    requires i < |channels|
    ensures Remembers(channels[i], Seen(channels[..i], ctx), Repeats(channels, i), ctx)
  {
    var e := channels[i];
    if IsNamed(e) && e.key.value in ctx.available && e.key.value !in ctx.forbidden {
      SeenBefore(channels, i, ctx);
    }
  }

  // ---------------------------------------------------------------------------
  // The sum, the overrides and the KPIs
  // ---------------------------------------------------------------------------

  /** The percentages of the first `n` elements that count. */
  ghost function CountedSum(channels: seq<Entry>, ctx: Context, n: nat): (r: real)
    requires n <= |channels|
  {
    if n == 0 then 0.0 else CountedSum(channels, ctx, n - 1) + if Counted(channels[n - 1], Repeats(channels, n - 1), ctx) then channels[n - 1].pct.value else 0.0
  }

  lemma {:induction false} CountedPctIs(channels: seq<Entry>, ctx: Context, n: nat)
    requires n <= |channels|
    ensures CountedPct(channels[..n], ctx) == CountedSum(channels, ctx, n)
  {
    if n > 0 {
      CountedPctIs(channels, ctx, n - 1);
      assert channels[..n][..n - 1] == channels[..n - 1];
      var e := channels[n - 1];
      if IsNamed(e) && e.key.value in ctx.available && e.key.value !in ctx.forbidden {
        SeenBefore(channels, n - 1, ctx);
      }
    }
  }

  /** `e` is the first element on the override's platform. */
  ghost predicate FirstOn(channels: seq<Entry>, platform: string, i: nat) {
    && i < |channels| && channels[i].Entry? && Name(channels[i]) == platform
    && forall j :: 0 <= j < i ==> !(channels[j].Entry? && Name(channels[j]) == platform)
  }

  ghost predicate NoneOn(channels: seq<Entry>, platform: string) {
    forall j :: 0 <= j < |channels| ==> !(channels[j].Entry? && Name(channels[j]) == platform)
  }

  lemma {:induction false} FirstMatchIs(channels: seq<Entry>, platform: string, i: nat)
    requires FirstOn(channels, platform, i)
    ensures FirstMatch(channels, platform) == Some(channels[i])
  {
    if i > 0 {
      assert channels[1..][i - 1] == channels[i];
      assert forall j :: 0 <= j < i - 1 ==> channels[1..][j] == channels[j + 1];
      FirstMatchIs(channels[1..], platform, i - 1);
    }
  }

  ghost function ExpectedPin(channels: seq<Entry>, ov: Override, kind: Kind): (n: nat) {
    match kind
    case MissingOverride => Once(NoneOn(channels, ov.platform))
    case OverrideDrift => Once(exists i: nat :: FirstOn(channels, ov.platform, i) && channels[i].pct.Some? && Drifts(channels[i].pct.value, ov.pct))
    case OverrideUnflagged => Once(exists i: nat :: FirstOn(channels, ov.platform, i) && channels[i].pct.Some? && !channels[i].flagged)
    case _ => 0
  }

  /** The same read off the one element that matters. */
  function PinOf(e: Entry, ov: Override, kind: Kind): (n: nat)
    requires e.Entry?
  {
    if e.pct.None? then 0
    else if kind == OverrideDrift then Once(Drifts(e.pct.value, ov.pct))
    else if kind == OverrideUnflagged then Once(!e.flagged)
    else 0
  }

  lemma ExpectedPinIs(channels: seq<Entry>, ov: Override, k: Kind, i: nat)
    requires FirstOn(channels, ov.platform, i)
    ensures ExpectedPin(channels, ov, k) == PinOf(channels[i], ov, k)
  {
    OnlyFirst(channels, ov.platform, i);
  }

  lemma PinOfCount(channels: seq<Entry>, ov: Override, j: nat, k: Kind, a: Subject, i: nat)
    requires FirstOn(channels, ov.platform, i) && FirstMatch(channels, ov.platform) == Some(channels[i])
    ensures Reported(OverrideFaults(channels, ov, j), k, a) == if a == Pin(j) then PinOf(channels[i], ov, k) else 0
  {
    var e := channels[i];
    if e.pct.Some? {
      var drifts := Abs(e.pct.value - ov.pct) > PCT_TOLERANCE;
      DriftIff(e.pct.value, ov.pct);
      TwoIfs(drifts, !e.flagged, Pin(j), k, a);
      assert OverrideFaults(channels, ov, j) == If(drifts, OverrideDrift, Pin(j)) + If(!e.flagged, OverrideUnflagged, Pin(j));
    } else {
      assert OverrideFaults(channels, ov, j) == [];
    }
  }

  predicate Drifts(pct: real, asked: real) {
    pct - asked > 1.0 || asked - pct > 1.0
  }

  lemma SomeFirst(channels: seq<Entry>, platform: string) returns (i: nat)
    requires !NoneOn(channels, platform)
    ensures FirstOn(channels, platform, i)
  {
    i := 0;
    while !(channels[i].Entry? && Name(channels[i]) == platform)
      invariant i < |channels| && forall j :: 0 <= j < i ==> !(channels[j].Entry? && Name(channels[j]) == platform)
      decreases |channels| - i
    {
      i := i + 1;
    }
  }

  lemma PinCount(channels: seq<Entry>, ov: Override, j: nat, k: Kind, a: Subject)
    ensures Reported(OverrideFaults(channels, ov, j), k, a) == if a == Pin(j) then ExpectedPin(channels, ov, k) else 0
  {
    if NoneOn(channels, ov.platform) {
      OneCount(Violation(MissingOverride, Pin(j)), k, a);
      assert forall i: nat :: !FirstOn(channels, ov.platform, i);
    } else {
      var i := SomeFirst(channels, ov.platform);
      FirstMatchIs(channels, ov.platform, i);
      ExpectedPinIs(channels, ov, k, i);
      PinOfCount(channels, ov, j, k, a, i);
    }
  }

  lemma DriftIff(pct: real, asked: real)
    ensures Abs(pct - asked) > PCT_TOLERANCE <==> Drifts(pct, asked)
  {
  }

  lemma TwoIfs(drifts: bool, unflagged: bool, at: Subject, k: Kind, a: Subject)
    ensures Reported(If(drifts, OverrideDrift, at) + If(unflagged, OverrideUnflagged, at), k, a)
         == if a != at then 0 else if k == OverrideDrift then Once(drifts) else if k == OverrideUnflagged then Once(unflagged) else 0
  {
    SumAppend(If(drifts, OverrideDrift, at), If(unflagged, OverrideUnflagged, at), Is(k, a));
    IfCount(drifts, OverrideDrift, at, k, a);
    IfCount(unflagged, OverrideUnflagged, at, k, a);
  }

  lemma OnlyFirst(channels: seq<Entry>, platform: string, i: nat)
    requires FirstOn(channels, platform, i)
    ensures forall j: nat :: FirstOn(channels, platform, j) ==> j == i
  {
  }

  lemma {:induction false} PinsCount(channels: seq<Entry>, overrides: seq<Override>, k: Kind, a: Subject)
    ensures Reported(AllOverrideFaults(channels, overrides), k, a)
         == if a.Pin? && a.j < |overrides| then ExpectedPin(channels, overrides[a.j], k) else 0
  {
    if overrides != [] {
      PinsCount(channels, overrides[..|overrides| - 1], k, a);
      PinsNext(channels, overrides, k, a);
    }
  }

  lemma PinsNext(channels: seq<Entry>, overrides: seq<Override>, k: Kind, a: Subject)
    requires overrides != []
    ensures var n := |overrides| - 1;
      Reported(AllOverrideFaults(channels, overrides), k, a)
        == Reported(AllOverrideFaults(channels, overrides[..n]), k, a) + if a == Pin(n) then ExpectedPin(channels, overrides[n], k) else 0
  {
    var n := |overrides| - 1;
    SumAppend(AllOverrideFaults(channels, overrides[..n]), OverrideFaults(channels, overrides[n], n), Is(k, a));
    PinCount(channels, overrides[n], n, k, a);
  }

  function ExpectedTargets(kpis: Kpis, kind: Kind): (n: nat) {
    match kind
    case Shape => if kpis.Primary? then Once(!kpis.metric) + Once(!kpis.target) else 1
    case MissingRationale => Once(kpis.Primary? && !kpis.rationale)
    case _ => 0
  }

  lemma TargetsCount(kpis: Kpis, k: Kind, a: Subject)
    ensures Reported(KpiFaults(kpis), k, a) == if a == Targets then ExpectedTargets(kpis, k) else 0
  {
    if kpis.Primary? {
      var x, y, z := If(!kpis.metric, Shape, Targets), If(!kpis.target, Shape, Targets), If(!kpis.rationale, MissingRationale, Targets);
      SumAppend(x, y, Is(k, a));
      SumAppend(x + y, z, Is(k, a));
      IfCount(!kpis.metric, Shape, Targets, k, a);
      IfCount(!kpis.target, Shape, Targets, k, a);
      IfCount(!kpis.rationale, MissingRationale, Targets, k, a);
    } else {
      OneCount(Violation(Shape, Targets), k, a);
    }
  }

  // ---------------------------------------------------------------------------
  // Every violation
  // ---------------------------------------------------------------------------

  ghost function ExpectedViolations(p: Payload, ctx: Context, kind: Kind, at: Subject): (n: nat) {
    if p.NoChannels? || p.channels == [] then Once(kind == Shape && at == Whole)
    else match at
    case Element(i) => if i < |p.channels| then Expected(p.channels[i], Repeats(p.channels, i), ctx, kind) else 0
    case Whole => Once(kind == AllocationSum && Drifts(CountedSum(p.channels, ctx, |p.channels|), 100.0))
    case Pin(j) => if j < |ctx.overrides| then ExpectedPin(p.channels, ctx.overrides[j], kind) else 0
    case Targets => ExpectedTargets(p.kpis, kind)
  }

  /** The validator reports every kind of violation about everything exactly as often as the plan commits it. */
  lemma ViolationsAreExpected(p: Payload, ctx: Context, kind: Kind, at: Subject)
    ensures Reported(Violations(p, ctx), kind, at) == ExpectedViolations(p, ctx, kind, at)
  {
    if p.NoChannels? || p.channels == [] {
      OneCount(Violation(Shape, Whole), kind, at);
    } else {
      var over := Abs(CountedPct(p.channels, ctx) - 100.0) > PCT_TOLERANCE;
      ReportedOfFour(ChannelFaults(p.channels, ctx), If(over, AllocationSum, Whole), AllOverrideFaults(p.channels, ctx.overrides), KpiFaults(p.kpis), kind, at);
      ChannelCount(p.channels, ctx, |p.channels|, kind, at);
      PinsCount(p.channels, ctx.overrides, kind, at);
      TargetsCount(p.kpis, kind, at);
      IfCount(over, AllocationSum, Whole, kind, at);
      CountedPctIs(p.channels, ctx, |p.channels|);
      assert p.channels[..|p.channels|] == p.channels;
      DriftIff(CountedPct(p.channels, ctx), 100.0);
    }
  }
}
