/**
 The strategy planner: validating a proposed channel mix, keeping the best of a few attempts,
 and carrying human overrides from one version to the next. Percentages and amounts are exact
 reals; platform names are already lower-case.
 */
module Planner {
  import opened Sequences

  const MAX_RETRIES := 2
  const PCT_TOLERANCE := 1.0
  const AMOUNT_TOLERANCE := 0.5

  /** One element of the model's `channels` list; `key` is its platform, if it has one. */
  datatype Entry =
    | NotAnObject
    | Entry(key: Option<string>, pct: Option<real>, amount: Option<real>, rationale: bool, flagged: bool)

  /** The platform, empty when there is none. */
  function Name(e: Entry): string {
    if e.Entry? && e.key.Some? then e.key.value else ""
  }

  datatype Kpis = NoKpis | NoPrimary | Primary(metric: bool, target: bool, rationale: bool)

  /** `NoChannels`: the `channels` value is not a list. */
  datatype Payload = NoChannels | Payload(channels: seq<Entry>, kpis: Kpis)

  datatype Override = Override(platform: string, pct: real)

  datatype Context = Context(budget: real, available: seq<string>, forbidden: seq<string>, overrides: seq<Override>)

  datatype Kind =
    | Shape | ForbiddenChannel | UnknownChannel | DuplicateChannel | OutOfRange | AmountMismatch
    | MissingRationale | AllocationSum | MissingOverride | OverrideDrift | OverrideUnflagged

  /** What a violation is about: an element of the channel list, the list as a whole, an override, or the KPIs. */
  datatype Subject = Element(i: nat) | Whole | Pin(j: nat) | Targets

  datatype Violation = Violation(kind: Kind, at: Subject)

  function AllowedPlatforms(ctx: Context): (r: set<string>) {
    set p | p in ctx.available && p !in ctx.forbidden
  }

  function Abs(x: real): (r: real) {
    if x < 0.0 then -x else x
  }

  /** To the nearest hundredth, halves away from zero. */
  function ToCents(x: real): (r: real) {
    if x >= 0.0 then (x * 100.0 + 0.5).Floor as real / 100.0 else -((-x * 100.0 + 0.5).Floor as real / 100.0)
  }

  lemma CentsAreNear(x: real)
    ensures Abs(ToCents(x) - x) <= 0.005
  {
  }

  /** Nearest hundredth, halves away from zero: `n` cents for everything from half a cent below to half a cent above. */
  lemma CentsHalfUp(x: real) returns (n: int)
    ensures ToCents(x) * 100.0 == n as real
    ensures x >= 0.0 ==> n as real - 0.5 <= x * 100.0 < n as real + 0.5
    ensures x < 0.0 ==> n as real - 0.5 < x * 100.0 <= n as real + 0.5
  {
    n := if x >= 0.0 then (x * 100.0 + 0.5).Floor else -((-x * 100.0 + 0.5).Floor);
  }

  function Share(budget: real, pct: real): (r: real) {
    budget * pct / 100.0
  }

  // ---------------------------------------------------------------------------
  // The validator
  // ---------------------------------------------------------------------------

  predicate Numeric(e: Entry) {
    e.Entry? && e.pct.Some? && e.amount.Some?
  }

  predicate Matches(e: Entry, budget: real)
    requires Numeric(e)
  {
    Abs(e.amount.value - ToCents(Share(budget, e.pct.value))) <= AMOUNT_TOLERANCE
  }

  function If(broken: bool, kind: Kind, at: Subject): (r: seq<Violation>) {
    if broken then [Violation(kind, at)] else []
  }

  /** The element's platform is one the plan may use, and new. */
  predicate Listed(e: Entry, seen: set<string>, ctx: Context) {
    e.Entry? && Name(e) != "" && Name(e) in AllowedPlatforms(ctx) && Name(e) !in seen
  }

  function NumberFaults(e: Entry, i: nat, ctx: Context): (r: seq<Violation>)
    requires Numeric(e)
  {
    If(e.pct.value < 0.0 || e.pct.value > 100.0, OutOfRange, Element(i)) + If(e.amount.value < 0.0, OutOfRange, Element(i))
    + If(!Matches(e, ctx.budget), AmountMismatch, Element(i)) + If(!e.rationale, MissingRationale, Element(i))
  }

  function EntryFaults(e: Entry, i: nat, seen: set<string>, ctx: Context): (r: seq<Violation>) {
    if e.NotAnObject? || Name(e) == "" then [Violation(Shape, Element(i))]
    else if Name(e) in ctx.forbidden then [Violation(ForbiddenChannel, Element(i))]
    else if Name(e) !in AllowedPlatforms(ctx) then [Violation(UnknownChannel, Element(i))]
    else if Name(e) in seen then [Violation(DuplicateChannel, Element(i))]
    else if !Numeric(e) then [Violation(Shape, Element(i))]
    else NumberFaults(e, i, ctx)
  }

  function Seen(channels: seq<Entry>, ctx: Context): (r: set<string>) {
    if channels == [] then {}
    else
      var before, e := Seen(channels[..|channels| - 1], ctx), channels[|channels| - 1];
      before + if Listed(e, before, ctx) then {Name(e)} else {}
  }

  /** The percentages the loop adds up. */
  function CountedPct(channels: seq<Entry>, ctx: Context): (r: real) {
    if channels == [] then 0.0
    else
      var before, e := channels[..|channels| - 1], channels[|channels| - 1];
      CountedPct(before, ctx) + if Listed(e, Seen(before, ctx), ctx) && Numeric(e) then e.pct.value else 0.0
  }

  function ChannelFaults(channels: seq<Entry>, ctx: Context): (r: seq<Violation>) {
    if channels == [] then []
    else
      var n := |channels| - 1;
      ChannelFaults(channels[..n], ctx) + EntryFaults(channels[n], n, Seen(channels[..n], ctx), ctx)
  }

  function FirstMatch(channels: seq<Entry>, platform: string): (r: Option<Entry>)
    ensures r.None? <==> forall i :: 0 <= i < |channels| ==> !(channels[i].Entry? && Name(channels[i]) == platform)
    ensures r.Some? ==> r.value in channels && r.value.Entry? && Name(r.value) == platform
  {
    if channels == [] then None
    else if channels[0].Entry? && Name(channels[0]) == platform then Some(channels[0])
    else FirstMatch(channels[1..], platform)
  }

  function OverrideFaults(channels: seq<Entry>, ov: Override, j: nat): (r: seq<Violation>) {
    match FirstMatch(channels, ov.platform)
    case None => [Violation(MissingOverride, Pin(j))]
    case Some(e) =>
      if e.pct.None? then []
      else If(Abs(e.pct.value - ov.pct) > PCT_TOLERANCE, OverrideDrift, Pin(j)) + If(!e.flagged, OverrideUnflagged, Pin(j))
  }

  function AllOverrideFaults(channels: seq<Entry>, overrides: seq<Override>): (r: seq<Violation>) {
    if overrides == [] then []
    else
      var n := |overrides| - 1;
      AllOverrideFaults(channels, overrides[..n]) + OverrideFaults(channels, overrides[n], n)
  }

  function KpiFaults(kpis: Kpis): (r: seq<Violation>) {
    match kpis
    case NoKpis => [Violation(Shape, Targets)]
    case NoPrimary => [Violation(Shape, Targets)]
    case Primary(metric, target, rationale) =>
      If(!metric, Shape, Targets) + If(!target, Shape, Targets) + If(!rationale, MissingRationale, Targets)
  }

  function Violations(p: Payload, ctx: Context): (r: seq<Violation>) {
    if p.NoChannels? || p.channels == [] then [Violation(Shape, Whole)]
    else
      ChannelFaults(p.channels, ctx) + If(Abs(CountedPct(p.channels, ctx) - 100.0) > PCT_TOLERANCE, AllocationSum, Whole)
      + AllOverrideFaults(p.channels, ctx.overrides) + KpiFaults(p.kpis)
  }

  /** The body of the channel loop: what it reports, and whether it goes on to the totals. */
  method CheckEntry(e: Entry, i: nat, seen: set<string>, ctx: Context) returns (faults: seq<Violation>, listed: bool, counted: bool)
    ensures faults == EntryFaults(e, i, seen, ctx)
    ensures listed == Listed(e, seen, ctx) && counted == (listed && Numeric(e))
  {
    faults, listed, counted := [], false, false;
    if e.NotAnObject? || Name(e) == "" { return [Violation(Shape, Element(i))], false, false; }
    if Name(e) in ctx.forbidden { return [Violation(ForbiddenChannel, Element(i))], false, false; }
    if Name(e) !in AllowedPlatforms(ctx) { return [Violation(UnknownChannel, Element(i))], false, false; }
    if Name(e) in seen { return [Violation(DuplicateChannel, Element(i))], false, false; }
    listed := true;
    if e.pct.None? || e.amount.None? { return [Violation(Shape, Element(i))], true, false; }
    counted := true;
    var pct, amount := e.pct.value, e.amount.value;
    if pct < 0.0 || pct > 100.0 { faults := faults + [Violation(OutOfRange, Element(i))]; }
    if amount < 0.0 { faults := faults + [Violation(OutOfRange, Element(i))]; }
    if Abs(amount - ToCents(Share(ctx.budget, pct))) > AMOUNT_TOLERANCE { faults := faults + [Violation(AmountMismatch, Element(i))]; }
    if !e.rationale { faults := faults + [Violation(MissingRationale, Element(i))]; }
  }

  method CheckOverrides(channels: seq<Entry>, overrides: seq<Override>) returns (faults: seq<Violation>)
    ensures faults == AllOverrideFaults(channels, overrides)
  {
    faults := [];
    for j := 0 to |overrides|
      invariant faults == AllOverrideFaults(channels, overrides[..j])
    {
      assert overrides[..j + 1][..j] == overrides[..j];
      var here := CheckOverride(channels, overrides[j], j);
      faults := faults + here;
    }
    assert overrides[..|overrides|] == overrides;
  }

  /** The body of that loop. */
  method CheckOverride(channels: seq<Entry>, ov: Override, j: nat) returns (faults: seq<Violation>)
    ensures faults == OverrideFaults(channels, ov, j)
  {
    faults := [];
    var found := FirstMatch(channels, ov.platform);
    if found.None? { return [Violation(MissingOverride, Pin(j))]; }
    if found.value.pct.None? { return; }
    if Abs(found.value.pct.value - ov.pct) > PCT_TOLERANCE {
      faults := faults + [Violation(OverrideDrift, Pin(j))];
    }
    if !found.value.flagged {
      faults := faults + [Violation(OverrideUnflagged, Pin(j))];
    }
  }

  method CheckChannels(channels: seq<Entry>, ctx: Context) returns (faults: seq<Violation>, totalPct: real)
    ensures faults == ChannelFaults(channels, ctx) && totalPct == CountedPct(channels, ctx)
  {
    faults := [];
    var seen := {};
    totalPct := 0.0;
    for i := 0 to |channels|
      invariant faults == ChannelFaults(channels[..i], ctx)
      invariant seen == Seen(channels[..i], ctx) && totalPct == CountedPct(channels[..i], ctx)
    {
      assert channels[..i + 1][..i] == channels[..i];
      var here, listed, counted := CheckEntry(channels[i], i, seen, ctx);
      faults := faults + here;
      if listed { seen := seen + {Name(channels[i])}; }
      if counted { totalPct := totalPct + channels[i].pct.value; }
    }
    assert channels[..|channels|] == channels;
  }

  method Validate(payload: Payload, ctx: Context) returns (violations: seq<Violation>)
    ensures violations == Violations(payload, ctx)
  {
    if payload.NoChannels? || payload.channels == [] { return [Violation(Shape, Whole)]; }
    var channelFaults, totalPct := CheckChannels(payload.channels, ctx);
    var sumFaults := If(Abs(totalPct - 100.0) > PCT_TOLERANCE, AllocationSum, Whole);
    var overrideFaults := CheckOverrides(payload.channels, ctx.overrides);
    violations := channelFaults + sumFaults + overrideFaults + KpiFaults(payload.kpis);
  }

  // ---------------------------------------------------------------------------
  // What a plan without violations is
  // ---------------------------------------------------------------------------

  predicate GoodEntry(e: Entry, ctx: Context) {
    && Numeric(e) && Name(e) != "" && Name(e) in ctx.available && Name(e) !in ctx.forbidden
    && 0.0 <= e.pct.value <= 100.0 && e.amount.value >= 0.0 && Matches(e, ctx.budget) && e.rationale
  }

  function TotalPct(channels: seq<Entry>): (r: real) {
    if channels == [] then 0.0
    else
      var e := channels[|channels| - 1];
      TotalPct(channels[..|channels| - 1]) + if Numeric(e) then e.pct.value else 0.0
  }

  function TotalAmount(channels: seq<Entry>): (r: real) {
    if channels == [] then 0.0
    else
      var e := channels[|channels| - 1];
      TotalAmount(channels[..|channels| - 1]) + if Numeric(e) then e.amount.value else 0.0
  }

  predicate SamePlatform(a: Entry, b: Entry) {
    a.Entry? && b.Entry? && Name(a) == Name(b)
  }

  ghost predicate GoodChannels(channels: seq<Entry>, ctx: Context) {
    && (forall i :: 0 <= i < |channels| ==> GoodEntry(channels[i], ctx))
    && (forall i, j :: 0 <= i < j < |channels| ==> !SamePlatform(channels[i], channels[j]))
  }

  /** The override's platform is in the plan, flagged, within a point of what was asked. */
  ghost predicate Honours(channels: seq<Entry>, ov: Override) {
    exists i :: 0 <= i < |channels| && HonouredBy(channels[i], ov)
  }

  predicate HonouredBy(e: Entry, ov: Override) {
    Numeric(e) && Name(e) == ov.platform && e.flagged && Abs(e.pct.value - ov.pct) <= PCT_TOLERANCE
  }

  ghost predicate IsValidPlan(p: Payload, ctx: Context) {
    && p.Payload? && p.channels != [] && GoodChannels(p.channels, ctx)
    && Abs(TotalPct(p.channels) - 100.0) <= PCT_TOLERANCE
    && AllHonoured(p.channels, ctx.overrides)
    && p.kpis == Primary(true, true, true)
  }

  ghost predicate Names(channels: seq<Entry>, platform: string) {
    exists i :: 0 <= i < |channels| && channels[i].Entry? && Name(channels[i]) == platform
  }

  lemma NamesLast(channels: seq<Entry>, platform: string)
    requires channels != []
    ensures var n := |channels| - 1;
      Names(channels, platform) <==> Names(channels[..n], platform) || (channels[n].Entry? && Name(channels[n]) == platform)
  {
    var n := |channels| - 1;
    assert forall i :: 0 <= i < n ==> channels[..n][i] == channels[i];
  }

  lemma GoodLast(channels: seq<Entry>, ctx: Context)
    requires channels != []
    ensures var n := |channels| - 1;
      GoodChannels(channels, ctx) <==>
      GoodChannels(channels[..n], ctx) && GoodEntry(channels[n], ctx) && !Names(channels[..n], Name(channels[n]))
  {
    var n := |channels| - 1;
    assert forall i :: 0 <= i < n ==> channels[..n][i] == channels[i];
  }

  lemma {:induction false} SeenIsNamed(channels: seq<Entry>, ctx: Context)
    requires GoodChannels(channels, ctx)
    ensures forall p :: p in Seen(channels, ctx) <==> Names(channels, p)
    ensures CountedPct(channels, ctx) == TotalPct(channels)
  {
    if channels != [] {
      GoodLast(channels, ctx);
      SeenIsNamed(channels[..|channels| - 1], ctx);
      forall p ensures p in Seen(channels, ctx) <==> Names(channels, p) {
        NamesLast(channels, p);
      }
    }
  }

  lemma {:induction false} NoChannelFaultsIff(channels: seq<Entry>, ctx: Context)
    ensures ChannelFaults(channels, ctx) == [] <==> GoodChannels(channels, ctx)
  {
    if channels != [] {
      var n := |channels| - 1;
      NoChannelFaultsIff(channels[..n], ctx);
      GoodLast(channels, ctx);
      if GoodChannels(channels[..n], ctx) {
        SeenIsNamed(channels[..n], ctx);
        NoEntryFaultsIff(channels[n], n, Seen(channels[..n], ctx), ctx);
      }
    }
  }

  lemma NoEntryFaultsIff(e: Entry, i: nat, seen: set<string>, ctx: Context)
    ensures EntryFaults(e, i, seen, ctx) == [] <==> GoodEntry(e, ctx) && Name(e) !in seen
  {
  }

  ghost predicate AllHonoured(channels: seq<Entry>, overrides: seq<Override>) {
    forall j :: 0 <= j < |overrides| ==> Honours(channels, overrides[j])
  }

  lemma AllHonouredLast(channels: seq<Entry>, overrides: seq<Override>)
    requires overrides != []
    ensures var n := |overrides| - 1;
      AllHonoured(channels, overrides) <==> AllHonoured(channels, overrides[..n]) && Honours(channels, overrides[n])
  {
    var n := |overrides| - 1;
    assert forall j :: 0 <= j < n ==> overrides[..n][j] == overrides[j];
  }

  lemma {:induction false} NoOverrideFaultsIff(channels: seq<Entry>, ctx: Context, overrides: seq<Override>)
    requires GoodChannels(channels, ctx)
    ensures AllOverrideFaults(channels, overrides) == [] <==> AllHonoured(channels, overrides)
  {
    if overrides != [] {
      var n := |overrides| - 1;
      NoOverrideFaultsIff(channels, ctx, overrides[..n]);
      HonouredIff(channels, ctx, overrides[n], n);
      AllHonouredLast(channels, overrides);
    }
  }

  lemma HonouredIff(channels: seq<Entry>, ctx: Context, ov: Override, j: nat)
    requires GoodChannels(channels, ctx)
    ensures OverrideFaults(channels, ov, j) == [] <==> Honours(channels, ov)
  {
    var found := FirstMatch(channels, ov.platform);
    if found.Some? {
      var k :| 0 <= k < |channels| && channels[k] == found.value;
      forall i | 0 <= i < |channels| && HonouredBy(channels[i], ov) ensures i == k {
        assert SamePlatform(channels[i], channels[k]);
      }
    }
  }

  /** The validator's verdict, clause by clause and in both directions. */
  lemma NoViolationsIff(p: Payload, ctx: Context)
    ensures Violations(p, ctx) == [] <==> IsValidPlan(p, ctx)
  {
    if p.Payload? && p.channels != [] {
      NoChannelFaultsIff(p.channels, ctx);
      if GoodChannels(p.channels, ctx) {
        SeenIsNamed(p.channels, ctx);
        NoOverrideFaultsIff(p.channels, ctx, ctx.overrides);
      }
    }
  }

  // ---------------------------------------------------------------------------
  // Spend
  // ---------------------------------------------------------------------------

  lemma ShareAdds(budget: real, x: real, y: real)
    ensures Share(budget, x + y) == Share(budget, x) + Share(budget, y)
  {
  }

  /** Each channel is off by at most half a unit and half a cent. */
  lemma {:induction false} SpendFollowsShares(channels: seq<Entry>, budget: real)
    requires forall i :: 0 <= i < |channels| ==> Numeric(channels[i]) && Matches(channels[i], budget)
    ensures Abs(TotalAmount(channels) - Share(budget, TotalPct(channels))) <= 0.505 * |channels| as real
  {
    if channels != [] {
      var n := |channels| - 1;
      var e := channels[n];
      SpendFollowsShares(channels[..n], budget);
      ShareAdds(budget, TotalPct(channels[..n]), e.pct.value);
      CentsAreNear(Share(budget, e.pct.value));
    }
  }

  lemma ShareOfHundred(budget: real, pct: real)
    requires budget >= 0.0 && Abs(pct - 100.0) <= 1.0
    ensures Abs(Share(budget, pct) - budget) <= budget / 100.0
  {
    ShareAdds(budget, 100.0, pct - 100.0);
    if pct >= 100.0 {
      assert budget * (pct - 100.0) <= budget * 1.0;
    } else {
      assert budget * (100.0 - pct) <= budget * 1.0;
      assert Share(budget, pct - 100.0) == -Share(budget, 100.0 - pct);
    }
  }

  /** A plan without violations spends the budget, to within one percent and 0.505 a channel. */
  lemma SpendIsNearBudget(p: Payload, ctx: Context)
    requires Violations(p, ctx) == [] && ctx.budget > 0.0
    ensures p.Payload?
    ensures Abs(TotalAmount(p.channels) - ctx.budget) <= ctx.budget / 100.0 + 0.505 * |p.channels| as real
    ensures |p.channels| <= |AllowedPlatforms(ctx)|
  {
    NoViolationsIff(p, ctx);
    SpendFollowsShares(p.channels, ctx.budget);
    ShareOfHundred(ctx.budget, TotalPct(p.channels));
    PlatformsFit(p.channels, ctx, AllowedPlatforms(ctx));
  }

  lemma {:induction false} PlatformsFit(channels: seq<Entry>, ctx: Context, room: set<string>)
    requires GoodChannels(channels, ctx) && forall i :: 0 <= i < |channels| ==> Name(channels[i]) in room
    ensures |channels| <= |room|
  {
    if channels != [] {
      var n := |channels| - 1;
      forall i | 0 <= i < n ensures Name(channels[i]) in room - {Name(channels[n])} {
        assert !SamePlatform(channels[i], channels[n]);
      }
      PlatformsFit(channels[..n], ctx, room - {Name(channels[n])});
    }
  }

  // ---------------------------------------------------------------------------
  // The best of at most three attempts
  // ---------------------------------------------------------------------------

  datatype PlannerResult = Failed | Planned(payload: Payload, warnings: seq<Violation>, attempts: nat)

  /** What the model answers at each attempt; `None` when the answer is not a JSON object. */
  type Model = nat -> Option<Payload>

  predicate Ready(ctx: Context) {
    ctx.available != [] && ctx.budget > 0.0 && AllowedPlatforms(ctx) != {}
  }

  /** The log holds the violations of the first attempts, each but the last of which had some. */
  ghost predicate Logged(model: Model, ctx: Context, log: seq<seq<Violation>>) {
    && |log| <= 3
    && (forall k :: 0 <= k < |log| ==> LoggedAt(model, ctx, log, k))
    && (forall k :: 0 <= k < |log| - 1 ==> log[k] != [])
  }

  ghost predicate LoggedAt(model: Model, ctx: Context, log: seq<seq<Violation>>, k: nat) {
    k < |log| && model(k).Some? && log[k] == Violations(model(k).value, ctx)
  }

  lemma LogGrows(model: Model, ctx: Context, log: seq<seq<Violation>>)
    requires Logged(model, ctx, log) && |log| <= MAX_RETRIES && model(|log|).Some?
    requires forall k :: 0 <= k < |log| ==> log[k] != []
    ensures Logged(model, ctx, log + [Violations(model(|log|).value, ctx)])
  {
    var longer := log + [Violations(model(|log|).value, ctx)];
    forall k | 0 <= k < |longer| ensures LoggedAt(model, ctx, longer, k) {
      if k < |log| { assert LoggedAt(model, ctx, log, k); }
    }
  }

  /** One call of the model, its answer judged and logged. */
  method Attempt(ctx: Context, model: Model, n: nat, ghost log: seq<seq<Violation>>) returns (payload: Payload, violations: seq<Violation>)
    requires Logged(model, ctx, log) && |log| == n <= MAX_RETRIES && model(n).Some?
    requires forall k :: 0 <= k < n ==> log[k] != []
    ensures model(n) == Some(payload) && Logged(model, ctx, log + [violations])
  {
    payload := model(n).value;
    violations := Validate(payload, ctx);
    LogGrows(model, ctx, log);
  }

  /** Attempt `k` is the earliest with the fewest violations. */
  ghost predicate EarliestBest(log: seq<seq<Violation>>, k: nat) {
    && k < |log|
    && (forall i :: 0 <= i < k ==> |log[i]| > |log[k]|)
    && (forall i :: k <= i < |log| ==> |log[i]| >= |log[k]|)
  }

  /** The loop ends with a clean attempt, or after the last one allowed. */
  ghost predicate Finished(log: seq<seq<Violation>>) {
    log != [] && (log[|log| - 1] == [] || |log| == 3)
  }

  /** The result is the earliest attempt with the fewest violations, with its own violations. */
  ghost predicate BestOf(model: Model, ctx: Context, r: PlannerResult, log: seq<seq<Violation>>, k: nat) {
    && r.Planned? && Logged(model, ctx, log) && Finished(log) && r.attempts == |log|
    && EarliestBest(log, k) && model(k) == Some(r.payload) && r.warnings == log[k]
  }

  /** After attempts that all had violations, an answer that cannot be read. */
  ghost predicate Stuck(model: Model, ctx: Context, log: seq<seq<Violation>>) {
    && Logged(model, ctx, log) && |log| < 3 && (forall k :: 0 <= k < |log| ==> log[k] != [])
    && model(|log|).None?
  }

  lemma LogsAgree(model: Model, ctx: Context, a: seq<seq<Violation>>, b: seq<seq<Violation>>, k: nat)
    requires Logged(model, ctx, a) && Logged(model, ctx, b) && k < |a| && k < |b|
    ensures a[k] == b[k]
  {
    assert LoggedAt(model, ctx, a, k) && LoggedAt(model, ctx, b, k);
  }

  lemma UnreadableEndsLog(model: Model, ctx: Context, log: seq<seq<Violation>>, n: nat)
    requires Logged(model, ctx, log) && model(n).None?
    ensures |log| <= n
  {
    assert n < |log| ==> LoggedAt(model, ctx, log, n);
  }

  lemma FinishedIsNotStuck(model: Model, ctx: Context, log: seq<seq<Violation>>)
    requires Logged(model, ctx, log) && Finished(log)
    ensures !exists other :: Stuck(model, ctx, other)
  {
    forall other ensures !Stuck(model, ctx, other) {
      if Stuck(model, ctx, other) {
        UnreadableEndsLog(model, ctx, log, |other|);
        LogsAgree(model, ctx, log, other, |log| - 1);
      }
    }
  }

  method Propose(ctx: Context, model: Model) returns (r: PlannerResult)
    ensures r.Planned? ==> Ready(ctx) && exists log, k :: BestOf(model, ctx, r, log, k)
    ensures r.Failed? <==> !Ready(ctx) || exists log :: Stuck(model, ctx, log)
  {
    if ctx.available == [] || ctx.budget <= 0.0 { return Failed; }
    var allowed := AllowedPlatforms(ctx);
    if allowed == {} { return Failed; }
    ghost var log: seq<seq<Violation>>, best: nat := [], 0;
    var bestPayload, bestViolations := NoChannels, [];
    for n := 0 to MAX_RETRIES + 1
      invariant |log| == n && Logged(model, ctx, log) && forall k :: 0 <= k < n ==> log[k] != []
      invariant n > 0 ==> EarliestBest(log, best) && model(best) == Some(bestPayload) && bestViolations == log[best]
    {
      if model(n).None? {
        assert Stuck(model, ctx, log);
        return Failed;
      }
      var payload, violations := Attempt(ctx, model, n, log);
      log := log + [violations];
      if violations == [] {
        r := Planned(payload, [], n + 1);
        assert BestOf(model, ctx, r, log, n);
        FinishedIsNotStuck(model, ctx, log);
        return;
      }
      if n == 0 || |violations| < |bestViolations| {
        best, bestPayload, bestViolations := n, payload, violations;
      }
    }
    r := Planned(bestPayload, bestViolations, MAX_RETRIES + 1);
    assert BestOf(model, ctx, r, log, best);
    FinishedIsNotStuck(model, ctx, log);
  }

  // ---------------------------------------------------------------------------
  // Overrides over many versions
  // ---------------------------------------------------------------------------

  function Carried(): Entry -> Option<Override> {
    (e: Entry) => if Numeric(e) && e.flagged && e.key.Some? then Some(Override(e.key.value, e.pct.value)) else None
  }

  method CarryOverrides(latest: Option<Payload>) returns (overrides: seq<Override>)
    ensures overrides == if latest.Some? && latest.value.Payload? then Select(latest.value.channels, Carried()) else []
    ensures forall ov :: ov in overrides <==> latest.Some? && Pins(latest.value, ov.platform, ov.pct)
  {
    overrides := [];
    if latest.None? || latest.value.NoChannels? { return; }
    var channels := latest.value.channels;
    for n := 0 to |channels|
      invariant overrides == Select(channels[..n], Carried())
    {
      assert channels[..n + 1][..n] == channels[..n];
      var e := channels[n];
      if e.NotAnObject? || !e.flagged { continue; }
      if e.key.Some? && e.pct.Some? && e.amount.Some? {
        overrides := overrides + [Override(e.key.value, e.pct.value)];
      }
    }
    assert channels[..|channels|] == channels;
    forall ov ensures ov in overrides <==> Pins(latest.value, ov.platform, ov.pct) {
      CarriedIff(latest.value, ov);
    }
  }

  /** The plan asks for `platform` by a human's decision, at `pct`. */
  ghost predicate Pins(p: Payload, platform: string, pct: real) {
    p.Payload? && exists i :: 0 <= i < |p.channels| && PinnedBy(p.channels[i], platform, pct)
  }

  predicate PinnedBy(e: Entry, platform: string, pct: real) {
    Numeric(e) && e.flagged && e.key == Some(platform) && e.pct.value == pct
  }

  /** Each plan was made without violations from the overrides of the one before it. */
  ghost predicate Replans(plans: seq<Payload>, contexts: seq<Context>) {
    && |contexts| == |plans|
    && forall k :: 0 < k < |plans| ==> ReplannedFrom(plans[k - 1], plans[k], contexts[k])
  }

  ghost predicate ReplannedFrom(before: Payload, after: Payload, ctx: Context) {
    && ctx.overrides == (if before.Payload? then Select(before.channels, Carried()) else [])
    && Violations(after, ctx) == []
  }

  lemma {:induction false} PinsAreCarried(channels: seq<Entry>, i: nat)
    requires i < |channels| && Numeric(channels[i]) && channels[i].flagged && channels[i].key.Some?
    ensures Override(channels[i].key.value, channels[i].pct.value) in Select(channels, Carried())
  {
    var n := |channels| - 1;
    if i < n {
      PinsAreCarried(channels[..n], i);
    }
  }

  lemma {:induction false} CarriedArePins(channels: seq<Entry>, ov: Override) returns (i: nat)
    requires ov in Select(channels, Carried())
    ensures i < |channels| && PinnedBy(channels[i], ov.platform, ov.pct)
  {
    var n := |channels| - 1;
    if Carried()(channels[n]) == Some(ov) {
      i := n;
    } else {
      i := CarriedArePins(channels[..n], ov);
    }
  }

  /** Exactly what the plan pins is carried over. */
  lemma CarriedIff(p: Payload, ov: Override)
    requires p.Payload?
    ensures ov in Select(p.channels, Carried()) <==> Pins(p, ov.platform, ov.pct)
  {
    if ov in Select(p.channels, Carried()) {
      var i := CarriedArePins(p.channels, ov);
    }
    if Pins(p, ov.platform, ov.pct) {
      var i :| 0 <= i < |p.channels| && PinnedBy(p.channels[i], ov.platform, ov.pct);
      PinsAreCarried(p.channels, i);
    }
  }

  lemma ReplanKeepsPin(before: Payload, after: Payload, ctx: Context, platform: string, pct: real) returns (now: real)
    requires ReplannedFrom(before, after, ctx) && Pins(before, platform, pct)
    ensures Pins(after, platform, now) && Abs(now - pct) <= 1.0
  {
    CarriedIff(before, Override(platform, pct));
    now := OverrideIsPinned(after, ctx, Override(platform, pct));
  }

  lemma OverrideIsPinned(p: Payload, ctx: Context, ov: Override) returns (now: real)
    requires Violations(p, ctx) == [] && ov in ctx.overrides
    ensures Pins(p, ov.platform, now) && Abs(now - ov.pct) <= 1.0
  {
    NoViolationsIff(p, ctx);
    var k := HonouringEntry(p.channels, ctx.overrides, ov);
    now := p.channels[k].pct.value;
    assert GoodEntry(p.channels[k], ctx);
    assert PinnedBy(p.channels[k], ov.platform, now);
  }

  lemma HonouringEntry(channels: seq<Entry>, overrides: seq<Override>, ov: Override) returns (k: nat)
    requires AllHonoured(channels, overrides) && ov in overrides
    ensures k < |channels| && HonouredBy(channels[k], ov)
  {
    var j :| 0 <= j < |overrides| && overrides[j] == ov;
    assert Honours(channels, overrides[j]);
    k :| 0 <= k < |channels| && HonouredBy(channels[k], ov);
  }

  /** After k clean re-plans an override is still there and flagged, at most k points from where it began. */
  lemma {:induction false} OverridesDriftSlowly(plans: seq<Payload>, contexts: seq<Context>, k: nat, platform: string, pct: real)
    returns (now: real)
    requires Replans(plans, contexts) && k < |plans| && Pins(plans[0], platform, pct)
    ensures Pins(plans[k], platform, now) && Abs(now - pct) <= k as real
  {
    if k == 0 {
      now := pct;
    } else {
      var before := OverridesDriftSlowly(plans, contexts, k - 1, platform, pct);
      now := ReplanKeepsPin(plans[k - 1], plans[k], contexts[k], platform, before);
    }
  }

  function Sliding(j: real): (r: Payload) {
    Payload([Entry(Some("email"), Some(j), Some(j), true, true), Entry(Some("social"), Some(100.0 - j), Some(100.0 - j), true, false)],
            Primary(true, true, true))
  }

  function SlidingContext(j: real): (r: Context) {
    Context(100.0, ["email", "social"], [], [Override("email", j - 1.0)])
  }

  lemma SlidingIsValid(j: real)
    requires 1.0 <= j <= 100.0
    ensures IsValidPlan(Sliding(j), SlidingContext(j))
  {
    var p, ctx := Sliding(j), SlidingContext(j);
    CentsAreNear(Share(100.0, j));
    CentsAreNear(Share(100.0, 100.0 - j));
    assert GoodEntry(p.channels[0], ctx) && GoodEntry(p.channels[1], ctx);
    assert p.channels[..1] == [p.channels[0]];
    assert TotalPct(p.channels[..1]) == j;
    assert HonouredBy(p.channels[0], ctx.overrides[0]);
  }

  lemma SlidingCarries(j: real)
    ensures Select(Sliding(j).channels, Carried()) == [Override("email", j)]
  {
    var channels := Sliding(j).channels;
    assert channels[..1] == [channels[0]];
    SelectSingle(channels[0], Carried());
  }

  lemma SlidingIsClean(j: real)
    requires 1.0 <= j <= 100.0
    ensures ReplannedFrom(Sliding(j - 1.0), Sliding(j), SlidingContext(j))
  {
    SlidingIsValid(j);
    NoViolationsIff(Sliding(j), SlidingContext(j));
    SlidingCarries(j - 1.0);
  }

  lemma SlidingPins(j: real)
    ensures Pins(Sliding(j), "email", j)
  {
    assert PinnedBy(Sliding(j).channels[0], "email", j);
  }

  ghost function SlidingPlans(n: nat): (r: seq<Payload>) {
    seq(n, j requires 0 <= j => Sliding(j as real))
  }

  ghost function SlidingContexts(n: nat): (r: seq<Context>) {
    seq(n, j requires 0 <= j => SlidingContext(j as real))
  }

  lemma SlidingReplanned(n: nat, j: nat)
    requires 0 < j < n <= 101
    ensures ReplannedFrom(SlidingPlans(n)[j - 1], SlidingPlans(n)[j], SlidingContexts(n)[j])
  {
    SlidingAt(n, j);
    SlidingAt(n, j - 1);
    SlidingIsClean(j as real);
  }

  lemma SlidingAt(n: nat, j: nat)
    requires j < n
    ensures SlidingPlans(n)[j] == Sliding(j as real) && SlidingContexts(n)[j] == SlidingContext(j as real)
  {
  }

  lemma SlidingReplans(n: nat)
    requires n <= 101
    ensures Replans(SlidingPlans(n), SlidingContexts(n))
  {
    forall j | 0 < j < n ensures ReplannedFrom(SlidingPlans(n)[j - 1], SlidingPlans(n)[j], SlidingContexts(n)[j]) {
      SlidingReplanned(n, j);
    }
  }

  /** The bound is reached: a point a version, up to a hundred versions. */
  lemma DriftIsTight(k: nat) returns (plans: seq<Payload>, contexts: seq<Context>)
    requires k <= 100
    ensures |plans| == k + 1 && Replans(plans, contexts)
    ensures Pins(plans[0], "email", 0.0) && Pins(plans[k], "email", k as real)
  {
    plans, contexts := SlidingPlans(k + 1), SlidingContexts(k + 1);
    SlidingReplans(k + 1);
    SlidingPins(0.0);
    SlidingPins(k as real);
  }
}
