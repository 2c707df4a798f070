/**
 The budget-shift recommendation: its sizing over exact reals, the rounding of the two new
 amounts to cents, and its application to the channel budgets.
 */
module BudgetShift {
  import opened Sequences
  import opened Rounding

  const DEFAULT_PCT := 0.3
  const FLOOR_PCT := 0.1
  const CEILING_PCT := 0.5
  const MIN_RATIO := 1.2
  const MAX_UPLIFT := 9.9999

  datatype Metric = Metric(channel: int, name: string, spend: real, clicks: nat, conversions: nat, minDailySpend: Option<real>)

  datatype Outcome = Conversion | Click

  /** A proposed move from the channel with the dearest outcomes to the one with the cheapest. */
  datatype Shift = Shift(laggard: Metric, leader: Metric, laggardAmount: real, leaderAmount: real, amount: real, uplift: real, clamped: bool)

  function Outcomes(outcome: Outcome): Metric -> int {
    (m: Metric) => if outcome == Conversion then m.conversions else m.clicks
  }

  predicate IsEligible(m: Metric, outcome: Outcome) {
    m.spend > 0.0 && Outcomes(outcome)(m) > 0
  }

  function CostPerOutcome(m: Metric, outcome: Outcome): (r: real)
    ensures IsEligible(m, outcome) ==> r > 0.0
  {
    if m.spend <= 0.0 || Outcomes(outcome)(m) <= 0 then 0.0 else m.spend / Outcomes(outcome)(m) as real
  }

  // ---------------------------------------------------------------------------
  // Leader and laggard
  // ---------------------------------------------------------------------------

  ghost predicate SortedByCost(s: seq<Metric>, outcome: Outcome) {
    forall i, j :: 0 <= i < j < |s| ==> CostPerOutcome(s[i], outcome) <= CostPerOutcome(s[j], outcome)
  }

  /** After every element that does not cost more. */
  function InsertByCost(s: seq<Metric>, m: Metric, outcome: Outcome): (r: seq<Metric>)
    requires SortedByCost(s, outcome)
    ensures multiset(r) == multiset(s) + multiset{m} && |r| == |s| + 1
    ensures SortedByCost(r, outcome)
  {
    if s == [] || CostPerOutcome(s[|s| - 1], outcome) <= CostPerOutcome(m, outcome) then s + [m]
    else
      var n := |s| - 1;
      var rest := InsertByCost(s[..n], m, outcome);
      assert s == s[..n] + [s[n]];
      AllBelow(rest, s[..n], m, s[n], outcome);
      rest + [s[n]]
  }

  lemma AllBelow(rest: seq<Metric>, s: seq<Metric>, m: Metric, last: Metric, outcome: Outcome)
    requires multiset(rest) == multiset(s) + multiset{m}
    requires CostPerOutcome(m, outcome) <= CostPerOutcome(last, outcome)
    requires forall i :: 0 <= i < |s| ==> CostPerOutcome(s[i], outcome) <= CostPerOutcome(last, outcome)
    ensures forall i :: 0 <= i < |rest| ==> CostPerOutcome(rest[i], outcome) <= CostPerOutcome(last, outcome)
  {
    forall i | 0 <= i < |rest| ensures CostPerOutcome(rest[i], outcome) <= CostPerOutcome(last, outcome) {
      assert rest[i] in multiset(rest);
      assert rest[i] == m || rest[i] in s;
    }
  }

  function SortByCost(s: seq<Metric>, outcome: Outcome): (r: seq<Metric>)
    ensures multiset(r) == multiset(s) && |r| == |s|
    ensures SortedByCost(r, outcome)
  {
    if s == [] then []
    else
      assert s == s[..|s| - 1] + [s[|s| - 1]];
      InsertByCost(SortByCost(s[..|s| - 1], outcome), s[|s| - 1], outcome)
  }

  function TotalConversions(metrics: seq<Metric>): (r: int) {
    SumBy(metrics, Outcomes(Conversion))
  }

  function ChosenOutcome(metrics: seq<Metric>): Outcome {
    if TotalConversions(metrics) > 0 then Conversion else Click
  }

  function KeepEligible(outcome: Outcome): Metric -> Option<Metric> {
    (m: Metric) => if IsEligible(m, outcome) then Some(m) else None
  }

  function Ranked(metrics: seq<Metric>): (r: seq<Metric>) {
    SortByCost(Select(metrics, KeepEligible(ChosenOutcome(metrics))), ChosenOutcome(metrics))
  }

  // ---------------------------------------------------------------------------
  // The size of the shift
  // ---------------------------------------------------------------------------

  function Max(x: real, y: real): real {
    if x < y then y else x
  }

  predicate IsClamped(alloc: real, minSpend: Option<real>) {
    minSpend.Some? && minSpend.value > 0.0 && alloc - minSpend.value < alloc * DEFAULT_PCT
  }

  function Sized(alloc: real, minSpend: Option<real>): (r: real) {
    if IsClamped(alloc, minSpend) then Max(alloc - minSpend.value, 0.0) else alloc * DEFAULT_PCT
  }

  function Capped(alloc: real, amount: real): (r: real)
    requires alloc > 0.0
  {
    if amount / alloc > CEILING_PCT then alloc * CEILING_PCT else amount
  }

  /** The extra outcomes the moved money buys, relative to all outcomes, within the column's range. */
  function Uplift(amount: real, leaderCost: real, laggardCost: real, current: int): (r: real)
    requires leaderCost > 0.0 && laggardCost > 0.0
  {
    var raw := if current > 0 then (amount / leaderCost - amount / laggardCost) / current as real else 0.0;
    if raw > MAX_UPLIFT then MAX_UPLIFT else if raw < 0.0 then 0.0 else raw
  }

  /** An allocation without a readable amount is `None`. */
  type Allocations = map<string, Option<real>>

  function AmountOr0(a: Option<real>): real {
    if a.Some? then a.value else 0.0
  }

  /** The shift between two ranked channels, if there is room for one. */
  function ShiftBetween(leader: Metric, laggard: Metric, outcome: Outcome, current: int, allocations: Allocations): (r: Option<Shift>)
    requires IsEligible(leader, outcome) && IsEligible(laggard, outcome)
  {
    var leaderCost, laggardCost := CostPerOutcome(leader, outcome), CostPerOutcome(laggard, outcome);
    if laggardCost / leaderCost < MIN_RATIO then None
    else if laggard.name !in allocations || leader.name !in allocations then None
    else if allocations[laggard.name].None? || allocations[laggard.name].value <= 0.0 then None
    else
      var alloc := allocations[laggard.name].value;
      var sized := Sized(alloc, laggard.minDailySpend);
      if sized / alloc < FLOOR_PCT then None
      else
        var amount := Capped(alloc, sized);
        Some(Shift(laggard, leader, alloc, AmountOr0(allocations[leader.name]), amount,
          Uplift(amount, leaderCost, laggardCost, current), IsClamped(alloc, laggard.minDailySpend)))
  }

  function Proposed(metrics: seq<Metric>, allocations: Allocations): (r: Option<Shift>) {
    var outcome, ranked := ChosenOutcome(metrics), Ranked(metrics);
    if |metrics| < 2 || |ranked| < 2 then None
    else
      RankedAreEligible(metrics);
      ShiftBetween(ranked[0], ranked[|ranked| - 1], outcome, SumBy(metrics, Outcomes(outcome)), allocations)
  }

  lemma {:induction false} SelectedAreEligible(metrics: seq<Metric>, outcome: Outcome)
    ensures forall m :: m in Select(metrics, KeepEligible(outcome)) <==> m in metrics && IsEligible(m, outcome)
  {
    if metrics != [] {
      SelectedAreEligible(metrics[..|metrics| - 1], outcome);
    }
  }

  lemma RankedAreEligible(metrics: seq<Metric>)
    ensures forall i :: 0 <= i < |Ranked(metrics)| ==> Ranked(metrics)[i] in metrics && IsEligible(Ranked(metrics)[i], ChosenOutcome(metrics))
    ensures forall m :: m in metrics && IsEligible(m, ChosenOutcome(metrics)) ==> m in Ranked(metrics)
  {
    var outcome := ChosenOutcome(metrics);
    SelectedAreEligible(metrics, outcome);
    SameMembers(Ranked(metrics), Select(metrics, KeepEligible(outcome)));
  }

  method CountConversions(metrics: seq<Metric>) returns (total: int)
    ensures total == TotalConversions(metrics)
  {
    total := 0;
    for n := 0 to |metrics|
      invariant total == SumBy(metrics[..n], Outcomes(Conversion))
    {
      assert metrics[..n + 1][..n] == metrics[..n];
      total := total + metrics[n].conversions;
    }
    assert metrics[..|metrics|] == metrics;
  }

  method FilterEligible(metrics: seq<Metric>, outcome: Outcome) returns (eligible: seq<Metric>)
    ensures eligible == Select(metrics, KeepEligible(outcome))
  {
    eligible := [];
    for n := 0 to |metrics|
      invariant eligible == Select(metrics[..n], KeepEligible(outcome))
    {
      assert metrics[..n + 1][..n] == metrics[..n];
      if IsEligible(metrics[n], outcome) { eligible := eligible + [metrics[n]]; }
    }
    assert metrics[..|metrics|] == metrics;
  }

  /** The eligible channels by cost, for the outcome the campaign has data on. */
  method RankEligible(metrics: seq<Metric>) returns (outcome: Outcome, ranked: seq<Metric>)
    ensures outcome == ChosenOutcome(metrics) && ranked == Ranked(metrics)
  {
    var total := CountConversions(metrics);
    outcome := if total > 0 then Conversion else Click;
    var eligible := FilterEligible(metrics, outcome);
    ranked := SortByCost(eligible, outcome);
  }

  lemma EndsAreEligible(metrics: seq<Metric>)
    requires |Ranked(metrics)| >= 2
    ensures IsEligible(Ranked(metrics)[0], ChosenOutcome(metrics))
    ensures IsEligible(Ranked(metrics)[|Ranked(metrics)| - 1], ChosenOutcome(metrics))
  {
    RankedAreEligible(metrics);
  }

  method TryBudgetShift(metrics: seq<Metric>, allocations: Allocations) returns (r: Option<Shift>)
    ensures r == Proposed(metrics, allocations)
  {
    if |metrics| < 2 { return None; }
    var outcome, eligible := RankEligible(metrics);
    if |eligible| < 2 { return None; }
    EndsAreEligible(metrics);
    var leader, laggard := eligible[0], eligible[|eligible| - 1];
    r := SizeShift(leader, laggard, outcome, SumBy(metrics, Outcomes(outcome)), allocations);
  }

  /** The clamps, one after the other. */
  method SizeShift(leader: Metric, laggard: Metric, outcome: Outcome, current: int, allocations: Allocations) returns (r: Option<Shift>)
    requires IsEligible(leader, outcome) && IsEligible(laggard, outcome)
    ensures r == ShiftBetween(leader, laggard, outcome, current, allocations)
  {
    var leaderCost, laggardCost := CostPerOutcome(leader, outcome), CostPerOutcome(laggard, outcome);
    if laggardCost / leaderCost < MIN_RATIO { return None; }
    if laggard.name !in allocations || leader.name !in allocations { return None; }
    if allocations[laggard.name].None? || allocations[laggard.name].value <= 0.0 { return None; }
    var alloc := allocations[laggard.name].value;
    var amount, clamped := alloc * DEFAULT_PCT, false;
    if laggard.minDailySpend.Some? && laggard.minDailySpend.value > 0.0 {
      var maxShift := alloc - laggard.minDailySpend.value;
      if maxShift < amount {
        amount, clamped := Max(maxShift, 0.0), true;
      }
    }
    var pct := amount / alloc;
    if pct < FLOOR_PCT { return None; }
    if pct > CEILING_PCT { amount := alloc * CEILING_PCT; }
    var uplift := Uplift(amount, leaderCost, laggardCost, current);
    r := Some(Shift(laggard, leader, alloc, AmountOr0(allocations[leader.name]), amount, uplift, clamped));
  }

  // ---------------------------------------------------------------------------
  // What an emitted shift is
  // ---------------------------------------------------------------------------

  lemma Quotient(x: real, y: real, c: real)
    requires y > 0.0
    ensures x / y < c <==> x < c * y
    ensures x / y > c <==> x > c * y
  {
    assert x == x / y * y;
    if x / y < c { assert (c - x / y) * y > 0.0; }
    if x / y >= c { assert (x / y - c) * y >= 0.0; }
    if x / y > c { assert (x / y - c) * y > 0.0; }
    if x / y <= c { assert (c - x / y) * y >= 0.0; }
  }

  /** There is room: after a tenth is taken away, the laggard's positive floor is still met. */
  predicate HasRoom(alloc: real, minSpend: Option<real>) {
    minSpend.Some? && minSpend.value > 0.0 ==> alloc - minSpend.value >= 0.1 * alloc
  }

  lemma SizedInBand(alloc: real, minSpend: Option<real>)
    requires alloc > 0.0
    ensures Sized(alloc, minSpend) / alloc >= FLOOR_PCT <==> HasRoom(alloc, minSpend)
    ensures Capped(alloc, Sized(alloc, minSpend)) == Sized(alloc, minSpend) <= 0.3 * alloc
    ensures HasRoom(alloc, minSpend) ==> Sized(alloc, minSpend) >= 0.1 * alloc
    ensures HasRoom(alloc, minSpend) && minSpend.Some? && minSpend.value > 0.0 ==> alloc - Sized(alloc, minSpend) >= minSpend.value
  {
    Quotient(Sized(alloc, minSpend), alloc, FLOOR_PCT);
    Quotient(Sized(alloc, minSpend), alloc, CEILING_PCT);
  }

  /** Moving money to the cheaper channel never predicts a loss. */
  lemma UpliftIsPositive(amount: real, leaderCost: real, laggardCost: real, current: int)
    requires amount > 0.0 && 0.0 < leaderCost < laggardCost && current > 0
    ensures 0.0 < Uplift(amount, leaderCost, laggardCost, current) <= MAX_UPLIFT
  {
    var more, fewer := amount / leaderCost, amount / laggardCost;
    assert more * leaderCost == amount == fewer * laggardCost;
    assert more > fewer by {
      Quotient(amount, laggardCost, more);
      assert more > 0.0 by { Quotient(amount, leaderCost, 0.0); }
      assert more * (laggardCost - leaderCost) > 0.0;
    }
    Quotient(more - fewer, current as real, 0.0);
  }

  /** `gained` outcomes for the amount at one cost and `lost` at the other; their difference, per outcome, is the uplift. */
  ghost predicate IsGain(uplift: real, amount: real, leaderCost: real, laggardCost: real, current: int, gained: real, lost: real) {
    && gained * leaderCost == amount && lost * laggardCost == amount
    && (uplift < 9.9999 ==> uplift * current as real == gained - lost)
    && (uplift == 9.9999 ==> gained - lost >= 9.9999 * current as real)
  }

  /** The uplift is what the moved money gains at the leader less what it loses at the laggard, per outcome of the
      campaign, up to the ceiling. */
  lemma UpliftIsGain(amount: real, leaderCost: real, laggardCost: real, current: int) returns (gained: real, lost: real)
    requires amount > 0.0 && 0.0 < leaderCost < laggardCost && current > 0
    ensures IsGain(Uplift(amount, leaderCost, laggardCost, current), amount, leaderCost, laggardCost, current, gained, lost)
  {
    gained, lost := amount / leaderCost, amount / laggardCost;
    UpliftIsPositive(amount, leaderCost, laggardCost, current);
    var raw := (gained - lost) / current as real;
    assert raw * current as real == gained - lost;
    Quotient(gained - lost, current as real, 9.9999);
  }

  /** Conversions count if there are any, clicks if there are none. */
  lemma OutcomeIff(metrics: seq<Metric>)
    ensures ChosenOutcome(metrics) == Conversion <==> exists m :: m in metrics && m.conversions > 0
  {
    if m :| m in metrics && m.conversions > 0 {
      var k :| 0 <= k < |metrics| && metrics[k] == m;
      SumWithout(metrics, k, Outcomes(Conversion));
      SumNonNegative(metrics[..k] + metrics[k + 1..], Outcomes(Conversion));
    } else {
      NoConversions(metrics);
    }
  }

  lemma {:induction false} NoConversions(metrics: seq<Metric>)
    requires forall m :: m in metrics ==> m.conversions == 0
    ensures TotalConversions(metrics) == 0
  {
    if metrics != [] { NoConversions(metrics[..|metrics| - 1]); }
  }

  /** An eligible channel spends, has outcomes, and its cost is the one divided by the other. */
  lemma CostIs(m: Metric, outcome: Outcome)
    ensures IsEligible(m, outcome) <==> m.spend > 0.0 && (if outcome == Conversion then m.conversions else m.clicks) > 0
    ensures IsEligible(m, outcome) ==> CostPerOutcome(m, outcome) * (if outcome == Conversion then m.conversions else m.clicks) as real == m.spend
  {
  }

  lemma EmittedCosts(metrics: seq<Metric>, allocations: Allocations)
    requires Proposed(metrics, allocations).Some?
    ensures var s, outcome := Proposed(metrics, allocations).value, ChosenOutcome(metrics);
      var current := SumBy(metrics, Outcomes(outcome));
      && 0.0 < CostPerOutcome(s.leader, outcome) < CostPerOutcome(s.laggard, outcome) && s.amount > 0.0 && current > 0
      && s.uplift == Uplift(s.amount, CostPerOutcome(s.leader, outcome), CostPerOutcome(s.laggard, outcome), current)
  {
    var s := Proposed(metrics, allocations).value;
    EndsAreEligible(metrics);
    ShiftIffRoom(metrics, allocations);
    SizedInBand(s.laggardAmount, s.laggard.minDailySpend);
    RankedAreEligible(metrics);
    SomeOutcomes(metrics, Ranked(metrics)[0]);
  }

  /** The uplift of an emitted shift, from the channels' own costs and all outcomes of the campaign. */
  lemma EmittedUplift(metrics: seq<Metric>, allocations: Allocations) returns (gained: real, lost: real)
    requires Proposed(metrics, allocations).Some?
    ensures var s, outcome := Proposed(metrics, allocations).value, ChosenOutcome(metrics);
      IsGain(s.uplift, s.amount, CostPerOutcome(s.leader, outcome), CostPerOutcome(s.laggard, outcome), SumBy(metrics, Outcomes(outcome)), gained, lost)
  {
    var s, outcome := Proposed(metrics, allocations).value, ChosenOutcome(metrics);
    EmittedCosts(metrics, allocations);
    gained, lost := UpliftIsGain(s.amount, CostPerOutcome(s.leader, outcome), CostPerOutcome(s.laggard, outcome), SumBy(metrics, Outcomes(outcome)));
  }

  /** Exactly when there is a shift, for any metrics and allocations. */
  ghost predicate CanShift(metrics: seq<Metric>, allocations: Allocations) {
    var outcome, ranked := ChosenOutcome(metrics), Ranked(metrics);
    |ranked| >= 2 &&
    var leader, laggard := ranked[0], ranked[|ranked| - 1];
    && CostPerOutcome(laggard, outcome) >= 1.2 * CostPerOutcome(leader, outcome)
    && leader.name in allocations && laggard.name in allocations
    && AmountOr0(allocations[laggard.name]) > 0.0
    && HasRoom(allocations[laggard.name].value, laggard.minDailySpend)
  }

  /** What every emitted shift promises. */
  ghost predicate SoundShift(s: Shift, metrics: seq<Metric>, allocations: Allocations) {
    var outcome := ChosenOutcome(metrics);
    && s.leader in metrics && s.laggard in metrics && IsEligible(s.leader, outcome) && IsEligible(s.laggard, outcome)
    && (forall m :: m in metrics && IsEligible(m, outcome) ==>
          CostPerOutcome(s.leader, outcome) <= CostPerOutcome(m, outcome) <= CostPerOutcome(s.laggard, outcome))
    && s.laggard.name in allocations && allocations[s.laggard.name] == Some(s.laggardAmount)
    && s.leader.name in allocations && s.leaderAmount == AmountOr0(allocations[s.leader.name])
    && 0.1 * s.laggardAmount <= s.amount <= 0.3 * s.laggardAmount && s.laggardAmount > 0.0
    && (s.laggard.minDailySpend.Some? && s.laggard.minDailySpend.value > 0.0 ==>
          s.laggardAmount - s.amount >= s.laggard.minDailySpend.value)
    && (s.amount < 0.3 * s.laggardAmount ==> s.clamped && s.laggard.minDailySpend == Some(s.laggardAmount - s.amount))
    && 0.0 < s.uplift <= 9.9999
  }

  lemma RankedEnds(metrics: seq<Metric>, m: Metric)
    requires Ranked(metrics) != [] && m in metrics && IsEligible(m, ChosenOutcome(metrics))
    ensures var ranked, outcome := Ranked(metrics), ChosenOutcome(metrics);
      CostPerOutcome(ranked[0], outcome) <= CostPerOutcome(m, outcome) <= CostPerOutcome(ranked[|ranked| - 1], outcome)
  {
    RankedAreEligible(metrics);
    var k :| 0 <= k < |Ranked(metrics)| && Ranked(metrics)[k] == m;
  }

  lemma SomeOutcomes(metrics: seq<Metric>, m: Metric)
    requires m in metrics && IsEligible(m, ChosenOutcome(metrics))
    ensures SumBy(metrics, Outcomes(ChosenOutcome(metrics))) > 0
  {
    var f := Outcomes(ChosenOutcome(metrics));
    var k :| 0 <= k < |metrics| && metrics[k] == m;
    SumWithout(metrics, k, f);
    SumNonNegative(metrics[..k] + metrics[k + 1..], f);
  }

  /** The shift between two given channels: when there is one, and what it is then. */
  lemma ShiftBetweenIff(leader: Metric, laggard: Metric, outcome: Outcome, current: int, allocations: Allocations)
    requires IsEligible(leader, outcome) && IsEligible(laggard, outcome)
    ensures ShiftBetween(leader, laggard, outcome, current, allocations).Some? <==>
      && CostPerOutcome(laggard, outcome) >= MIN_RATIO * CostPerOutcome(leader, outcome)
      && leader.name in allocations && laggard.name in allocations
      && AmountOr0(allocations[laggard.name]) > 0.0
      && HasRoom(allocations[laggard.name].value, laggard.minDailySpend)
  {
    Quotient(CostPerOutcome(laggard, outcome), CostPerOutcome(leader, outcome), MIN_RATIO);
    if laggard.name in allocations && AmountOr0(allocations[laggard.name]) > 0.0 {
      SizedInBand(allocations[laggard.name].value, laggard.minDailySpend);
    }
  }

  lemma ShiftIffRoom(metrics: seq<Metric>, allocations: Allocations)
    ensures Proposed(metrics, allocations).Some? <==> CanShift(metrics, allocations)
  {
    var outcome, ranked := ChosenOutcome(metrics), Ranked(metrics);
    RankedAreEligible(metrics);
    if |ranked| >= 2 {
      ShiftBetweenIff(ranked[0], ranked[|ranked| - 1], outcome, SumBy(metrics, Outcomes(outcome)), allocations);
    }
  }

  lemma ShiftIsSound(metrics: seq<Metric>, allocations: Allocations)
    ensures var r := Proposed(metrics, allocations); r.Some? ==> SoundShift(r.value, metrics, allocations)
  {
    var r, outcome, ranked := Proposed(metrics, allocations), ChosenOutcome(metrics), Ranked(metrics);
    if r.Some? {
      RankedAreEligible(metrics);
      ShiftIffRoom(metrics, allocations);
      forall m | m in metrics && IsEligible(m, outcome)
        ensures CostPerOutcome(r.value.leader, outcome) <= CostPerOutcome(m, outcome) <= CostPerOutcome(r.value.laggard, outcome)
      {
        RankedEnds(metrics, m);
      }
      SizedInBand(r.value.laggardAmount, r.value.laggard.minDailySpend);
      SomeOutcomes(metrics, ranked[0]);
      UpliftIsPositive(r.value.amount, CostPerOutcome(r.value.leader, outcome), CostPerOutcome(r.value.laggard, outcome),
        SumBy(metrics, Outcomes(outcome)));
    }
  }

  // ---------------------------------------------------------------------------
  // Cents
  // ---------------------------------------------------------------------------

  /** The nearest integer, the even one at a half. */
  function NearestCent(x: real): (r: int) {
    var q := x.Floor;
    if x - q as real < 0.5 then q
    else if x - q as real > 0.5 then q + 1
    else if q % 2 == 0 then q
    else q + 1
  }

  predicate IsTie(x: real) {
    x - x.Floor as real == 0.5
  }

  lemma FloorOf(x: real, q: int)
    requires q as real <= x < q as real + 1.0
    ensures x.Floor == q
  {
  }

  lemma NearestOf(x: real, q: int)
    requires q as real - 0.5 < x < q as real + 0.5
    ensures NearestCent(x) == q
  {
    if x >= q as real { FloorOf(x, q); } else { FloorOf(x, q - 1); }
  }

  /** On fractions this is the calendar's rounding. */
  lemma NearestIsHalfEven(a: int, b: int)
    requires b > 0
    ensures NearestCent(a as real / b as real) == RoundHalfEven(a, b)
  {
    var x, q, r := a as real / b as real, a / b, a % b;
    DivMod(a, b);
    assert a == q * b + r;
    assert a as real == q as real * b as real + r as real;
    FractionOf(a as real, b as real, q as real, r as real);
    FloorOf(x, q);
  }

  lemma FractionOf(a: real, b: real, q: real, r: real)
    requires b > 0.0 && a == q * b + r && 0.0 <= r < b
    ensures 0.0 <= a / b - q < 1.0
    ensures (a / b - q < 0.5 <==> 2.0 * r < b) && (a / b - q > 0.5 <==> 2.0 * r > b)
  {
    assert a / b - q == r / b;
    Quotient(r, b, 0.0);
    Quotient(r, b, 0.5);
    Quotient(r, b, 1.0);
  }

  lemma NearestAtTie(x: real, q: int)
    requires x == q as real + 0.5
    ensures NearestCent(x) == if q % 2 == 0 then q else q + 1
  {
    FloorOf(x, q);
  }

  /**
   Moving `p` between two whole amounts and rounding both results keeps their sum exactly when
   `p` is not half-way between two integers or the sum is even; otherwise it is off by one.
   */
  lemma RoundedSum(a: int, b: int, p: real)
    ensures var sum := NearestCent(a as real - p) + NearestCent(b as real + p);
      && (sum == a + b <==> !IsTie(p) || (a + b) % 2 == 0)
      && a + b - 1 <= sum <= a + b + 1
  {
    if IsTie(p) {
      SumAtTie(a, b, p, p.Floor);
    } else {
      SumBetween(a, b, p, p.Floor);
    }
  }

  lemma SumAtTie(a: int, b: int, p: real, q: int)
    requires p == q as real + 0.5
    ensures var sum := NearestCent(a as real - p) + NearestCent(b as real + p);
      (sum == a + b <==> (a + b) % 2 == 0) && a + b - 1 <= sum <= a + b + 1
  {
    NearestAtTie(a as real - p, a - q - 1);
    NearestAtTie(b as real + p, b + q);
  }

  lemma SumBetween(a: int, b: int, p: real, q: int)
    requires q as real <= p < q as real + 1.0 && p != q as real + 0.5
    ensures NearestCent(a as real - p) + NearestCent(b as real + p) == a + b
  {
    var k := if p < q as real + 0.5 then q else q + 1;
    NearestOf(a as real - p, a - k);
    NearestOf(b as real + p, b + k);
  }

  /** The two rounded amounts of a proposal, in cents. */
  function NewLaggard(s: Shift): int {
    NearestCent((s.laggardAmount - s.amount) * 100.0)
  }

  function NewLeader(s: Shift): int {
    NearestCent((s.leaderAmount + s.amount) * 100.0)
  }

  ghost predicate InCents(amount: real, cents: int) {
    amount * 100.0 == cents as real
  }

  lemma ShiftConservesIff(s: Shift, a: int, b: int)
    requires InCents(s.laggardAmount, a) && InCents(s.leaderAmount, b)
    ensures NewLaggard(s) + NewLeader(s) == a + b <==> !IsTie(s.amount * 100.0) || (a + b) % 2 == 0
    ensures a + b - 1 <= NewLaggard(s) + NewLeader(s) <= a + b + 1
  {
    RoundedSum(a, b, s.amount * 100.0);
  }

  /** For the default size the condition can be read off the two allocations. */
  lemma DefaultShiftConservesIff(s: Shift, a: int, b: int)
    requires InCents(s.laggardAmount, a) && InCents(s.leaderAmount, b) && s.amount == s.laggardAmount * DEFAULT_PCT
    ensures NewLaggard(s) + NewLeader(s) == a + b <==> a % 10 != 5 || b % 2 == 1
  {
    ShiftConservesIff(s, a, b);
    ThirtyPercentTie(a);
    ThirtyPercentInCents(s.laggardAmount, a);
    OddAtFive(a, b, IsTie(s.amount * 100.0), NewLaggard(s) + NewLeader(s));
  }

  lemma OddAtFive(a: int, b: int, tie: bool, sum: int)
    requires tie <==> a % 10 == 5
    requires sum == a + b <==> !tie || (a + b) % 2 == 0
    ensures sum == a + b <==> a % 10 != 5 || b % 2 == 1
  {
    if a % 10 == 5 {
      OddPlus(5 * (a / 10) + 2, b);
      assert a == 2 * (5 * (a / 10) + 2) + 1;
    }
  }

  lemma OddPlus(k: int, b: int)
    ensures (2 * k + 1 + b) % 2 == 0 <==> b % 2 == 1
  {
  }

  lemma ThirtyPercentInCents(amount: real, a: int)
    requires InCents(amount, a)
    ensures amount * DEFAULT_PCT * 100.0 == a as real * 0.3
  {
  }

  lemma ThirtyPercentTie(a: int)
    ensures IsTie(a as real * 0.3) <==> a % 10 == 5
  {
    var q, r := a / 10, a % 10;
    assert a as real * 0.3 == (3 * q) as real + r as real * 0.3;
    var carry := if r < 4 then 0 else if r < 7 then 1 else 2;
    FloorOf(a as real * 0.3, 3 * q + carry);
  }

  lemma TieOfDifference(a: int, x: real)
    ensures IsTie(a as real - x) <==> IsTie(x)
  {
    var q := x.Floor;
    if x == q as real {
      FloorOf(a as real - x, a - q);
    } else {
      FloorOf(a as real - x, a - q - 1);
    }
  }

  /** For a shift clamped to a minimum spend, the tie is a half-cent in that minimum. */
  lemma ClampedShiftConservesIff(s: Shift, a: int, b: int, floor: real)
    requires InCents(s.laggardAmount, a) && InCents(s.leaderAmount, b) && s.amount == s.laggardAmount - floor
    ensures NewLaggard(s) + NewLeader(s) == a + b <==> !IsTie(floor * 100.0) || (a + b) % 2 == 0
  {
    ShiftConservesIff(s, a, b);
    TieOfDifference(a, floor * 100.0);
    assert s.amount * 100.0 == a as real - floor * 100.0;
  }

  /** How an emitted shift was sized. */
  lemma EmittedAmount(metrics: seq<Metric>, allocations: Allocations)
    requires Proposed(metrics, allocations).Some?
    ensures var s := Proposed(metrics, allocations).value;
      && (s.clamped ==> s.laggard.minDailySpend.Some? && s.amount == s.laggardAmount - s.laggard.minDailySpend.value)
      && (!s.clamped ==> s.amount == s.laggardAmount * DEFAULT_PCT)
  {
    var s := Proposed(metrics, allocations).value;
    RankedAreEligible(metrics);
    ShiftIsSound(metrics, allocations);
    SizedInBand(s.laggardAmount, s.laggard.minDailySpend);
  }

  /** Read off the inputs: the minimum spend if it clamps the shift, the two allocations if not. */
  lemma EmittedShiftConservesIff(metrics: seq<Metric>, allocations: Allocations, a: int, b: int)
    requires Proposed(metrics, allocations).Some?
    requires InCents(Proposed(metrics, allocations).value.laggardAmount, a) && InCents(Proposed(metrics, allocations).value.leaderAmount, b)
    ensures var s := Proposed(metrics, allocations).value;
      && (s.clamped <==> IsClamped(s.laggardAmount, s.laggard.minDailySpend))
      && (NewLaggard(s) + NewLeader(s) == a + b <==>
            if s.clamped then !IsTie(s.laggard.minDailySpend.value * 100.0) || (a + b) % 2 == 0
            else a % 10 != 5 || b % 2 == 1)
  {
    var s := Proposed(metrics, allocations).value;
    EmittedAmount(metrics, allocations);
    if s.clamped {
      ClampedShiftConservesIff(s, a, b, s.laggard.minDailySpend.value);
    } else {
      DefaultShiftConservesIff(s, a, b);
    }
  }

  // ---------------------------------------------------------------------------
  // Applying it
  // ---------------------------------------------------------------------------

  datatype BudgetKey = BudgetKey(campaign: int, channel: int)

  /** Amounts in cents. */
  datatype Budget = Budget(planned: int, spent: int)

  type Budgets = map<BudgetKey, Budget>

  /** One side of a stored proposal; both parts may be missing. */
  datatype Side = Side(channel: Option<int>, newAmount: Option<int>)

  datatype Status = Pending | Applied | Rejected

  datatype Recommendation = Recommendation(campaign: int, isBudgetShift: bool, source: Side, target: Side, status: Status)

  function Recommend(campaign: int, s: Shift): (r: Recommendation) {
    Recommendation(campaign, true, Side(Some(s.laggard.channel), Some(NewLaggard(s))), Side(Some(s.leader.channel), Some(NewLeader(s))), Pending)
  }

  function Allocate(budgets: Budgets, key: BudgetKey, cents: int): (r: Budgets) {
    budgets[key := Budget(cents, if key in budgets then budgets[key].spent else 0)]
  }

  function CentsOr0(a: Option<int>): int {
    if a.Some? then a.value else 0
  }

  function ApplyShift(budgets: Budgets, rec: Recommendation): (r: Budgets) {
    if !rec.isBudgetShift || rec.source.channel.None? || rec.target.channel.None? then budgets
    else
      var moved := Allocate(budgets, BudgetKey(rec.campaign, rec.source.channel.value), CentsOr0(rec.source.newAmount));
      Allocate(moved, BudgetKey(rec.campaign, rec.target.channel.value), CentsOr0(rec.target.newAmount))
  }

  datatype Reply = NotFound | Conflict | Done

  datatype Board = Board(recs: map<int, Recommendation>, budgets: Budgets)

  datatype Step = Accept(id: int) | Reject(id: int)

  function Next(b: Board, step: Step): (r: Board) {
    if step.id !in b.recs || b.recs[step.id].status != Pending then b
    else match step {
      case Accept(id) => Board(b.recs[id := b.recs[id].(status := Applied)], ApplyShift(b.budgets, b.recs[id]))
      case Reject(id) => Board(b.recs[id := b.recs[id].(status := Rejected)], b.budgets)
    }
  }

  function Execute(b: Board, steps: seq<Step>): (r: Board) {
    if steps == [] then b else Next(Execute(b, steps[..|steps| - 1]), steps[|steps| - 1])
  }

  class Recommendations {
    var recs: map<int, Recommendation>
    var budgets: Budgets

    ghost function Abs(): (b: Board)
      reads this
    {
      Board(recs, budgets)
    }

    constructor (recs: map<int, Recommendation>, budgets: Budgets)
      ensures Abs() == Board(recs, budgets)
    {
      this.recs, this.budgets := recs, budgets;
    }

    method AcceptRecommendation(id: int) returns (reply: Reply)
      modifies this
      ensures Abs() == Next(old(Abs()), Accept(id))
      ensures reply != Done ==> recs == old(recs) && budgets == old(budgets)
      ensures reply == Done ==> id in old(recs) && recs == old(recs)[id := old(recs)[id].(status := Applied)]
      ensures reply == Done ==> budgets == if old(recs)[id].isBudgetShift then ApplyShift(old(budgets), old(recs)[id]) else old(budgets)
      ensures reply == if id !in old(recs) then NotFound else if old(recs)[id].status != Pending then Conflict else Done
    {
      if id !in recs { return NotFound; }
      if recs[id].status != Pending { return Conflict; }
      if recs[id].isBudgetShift { ApplyBudgetShift(recs[id]); }
      recs := recs[id := recs[id].(status := Applied)];
      reply := Done;
    }

    method ApplyBudgetShift(rec: Recommendation)
      requires rec.isBudgetShift
      modifies this
      ensures budgets == ApplyShift(old(budgets), rec) && recs == old(recs)
    {
      if rec.source.channel.None? || rec.target.channel.None? { return; }
      var rows := [(rec.source.channel.value, CentsOr0(rec.source.newAmount)), (rec.target.channel.value, CentsOr0(rec.target.newAmount))];
      ghost var source := BudgetKey(rec.campaign, rec.source.channel.value);
      for n := 0 to 2
        invariant recs == old(recs)
        invariant n == 0 ==> budgets == old(budgets)
        invariant n == 1 ==> budgets == Allocate(old(budgets), source, CentsOr0(rec.source.newAmount))
        invariant n == 2 ==> budgets == ApplyShift(old(budgets), rec)
      {
        budgets := Allocate(budgets, BudgetKey(rec.campaign, rows[n].0), rows[n].1);
      }
    }

    method RejectRecommendation(id: int) returns (reply: Reply)
      modifies this
      ensures Abs() == Next(old(Abs()), Reject(id))
      ensures budgets == old(budgets)
      ensures reply != Done ==> recs == old(recs)
      ensures reply == Done ==> id in old(recs) && recs == old(recs)[id := old(recs)[id].(status := Rejected)]
      ensures reply == if id !in old(recs) then NotFound else if old(recs)[id].status != Pending then Conflict else Done
    {
      if id !in recs { return NotFound; }
      if recs[id].status != Pending { return Conflict; }
      recs := recs[id := recs[id].(status := Rejected)];
      reply := Done;
    }
  }

  /** Applying a shift again changes nothing. */
  lemma ApplyIsIdempotent(budgets: Budgets, rec: Recommendation)
    ensures ApplyShift(ApplyShift(budgets, rec), rec) == ApplyShift(budgets, rec)
  {
  }

  /** Money spent is never rewritten, and only the two named channels' allocations are. */
  lemma ApplyTouchesOnlyTwo(budgets: Budgets, rec: Recommendation, key: BudgetKey)
    requires key in budgets
    ensures var r := ApplyShift(budgets, rec);
      && key in r && r[key].spent == budgets[key].spent
      && (r[key].planned != budgets[key].planned ==>
            key.campaign == rec.campaign && Some(key.channel) in {rec.source.channel, rec.target.channel})
  {
  }

  /** A decided recommendation stays decided, so no run applies one twice. */
  lemma {:induction false} DecidedOnce(b: Board, steps: seq<Step>, n: nat, id: int)
    requires n <= |steps| && id in Execute(b, steps[..n]).recs && Execute(b, steps[..n]).recs[id].status != Pending
    ensures id in Execute(b, steps).recs && Execute(b, steps).recs[id] == Execute(b, steps[..n]).recs[id]
    decreases |steps| - n
  {
    if n < |steps| {
      assert steps[..n + 1][..n] == steps[..n];
      DecidedOnce(b, steps, n + 1, id);
    } else {
      assert steps[..n] == steps;
    }
  }

  /** Each of two different channels gets its own new amount, and keeps what it spent. */
  lemma ApplyWritesOwnAmounts(budgets: Budgets, rec: Recommendation)
    requires rec.isBudgetShift && rec.source.channel.Some? && rec.target.channel.Some? && rec.source.channel != rec.target.channel
    ensures var r := ApplyShift(budgets, rec);
      var source, target := BudgetKey(rec.campaign, rec.source.channel.value), BudgetKey(rec.campaign, rec.target.channel.value);
      && source in r && r[source].planned == (if rec.source.newAmount.Some? then rec.source.newAmount.value else 0)
      && target in r && r[target].planned == (if rec.target.newAmount.Some? then rec.target.newAmount.value else 0)
      && r[source].spent == (if source in budgets then budgets[source].spent else 0)
      && r[target].spent == (if target in budgets then budgets[target].spent else 0)
      && r.Keys == budgets.Keys + {source, target}
  {
  }

  /** A recommendation without both channels, or of another kind, moves no money. */
  lemma ApplyNeedsBothChannels(budgets: Budgets, rec: Recommendation)
    requires !rec.isBudgetShift || rec.source.channel.None? || rec.target.channel.None?
    ensures ApplyShift(budgets, rec) == budgets
  {
  }

  lemma NearestBounds(x: real, a: int)
    ensures NearestCent(x) as real - 0.5 <= x <= NearestCent(x) as real + 0.5
    ensures x <= a as real ==> NearestCent(x) <= a
    ensures a as real <= x ==> a <= NearestCent(x)
  {
  }

  /** The laggard's row falls by the amount moved and the leader's rises by it, each to within half a cent. */
  lemma ShiftMovesMoney(metrics: seq<Metric>, allocations: Allocations, campaign: int, budgets: Budgets, a: int, b: int)
    requires Proposed(metrics, allocations).Some?
    requires var s := Proposed(metrics, allocations).value;
      s.laggard.channel != s.leader.channel && InCents(s.laggardAmount, a) && InCents(s.leaderAmount, b)
    ensures var s := Proposed(metrics, allocations).value;
      var r := ApplyShift(budgets, Recommend(campaign, s));
      var source, target, cents := BudgetKey(campaign, s.laggard.channel), BudgetKey(campaign, s.leader.channel), s.amount * 100.0;
      && source in r && target in r && r[source].planned <= a && b <= r[target].planned
      && r[source].planned as real - 0.5 <= a as real - cents <= r[source].planned as real + 0.5
      && r[target].planned as real - 0.5 <= b as real + cents <= r[target].planned as real + 0.5
  {
    var s := Proposed(metrics, allocations).value;
    ShiftIsSound(metrics, allocations);
    ApplyWritesOwnAmounts(budgets, Recommend(campaign, s));
    MovedCents(s, a, b);
  }

  lemma MovedCents(s: Shift, a: int, b: int)
    requires InCents(s.laggardAmount, a) && InCents(s.leaderAmount, b) && s.amount >= 0.0
    ensures NewLaggard(s) <= a && b <= NewLeader(s)
    ensures NewLaggard(s) as real - 0.5 <= a as real - s.amount * 100.0 <= NewLaggard(s) as real + 0.5
    ensures NewLeader(s) as real - 0.5 <= b as real + s.amount * 100.0 <= NewLeader(s) as real + 0.5
  {
    NearestBounds(a as real - s.amount * 100.0, a);
    NearestBounds(b as real + s.amount * 100.0, b);
    assert (s.laggardAmount - s.amount) * 100.0 == a as real - s.amount * 100.0;
    assert (s.leaderAmount + s.amount) * 100.0 == b as real + s.amount * 100.0;
  }

  /** The first decision on a pending recommendation is the last: accepted it is applied, rejected it is rejected. */
  lemma FirstDecisionWins(b: Board, steps: seq<Step>, n: nat)
    requires n < |steps| && steps[n].id in Execute(b, steps[..n]).recs && Execute(b, steps[..n]).recs[steps[n].id].status == Pending
    ensures var id := steps[n].id;
      id in Execute(b, steps).recs && Execute(b, steps).recs[id].status == if steps[n].Accept? then Applied else Rejected
  {
    assert steps[..n + 1][..n] == steps[..n];
    DecidedOnce(b, steps, n + 1, steps[n].id);
  }

  /** Money moves only at the acceptance of a pending recommendation. */
  lemma MoneyMovesOnlyOnAccept(b: Board, step: Step)
    requires Next(b, step).budgets != b.budgets
    ensures step.Accept? && step.id in b.recs && b.recs[step.id].status == Pending
    ensures Next(b, step).budgets == ApplyShift(b.budgets, b.recs[step.id])
  {
  }

  /**
   From metrics to budgets: applying an emitted shift to rows that hold the planned whole-cent
   amounts keeps the two channels' total exactly when the amount is no half-cent tie or the
   total is even, and is never off by more than a cent.
   */
  lemma ShiftThenApply(metrics: seq<Metric>, allocations: Allocations, campaign: int, budgets: Budgets, a: int, b: int)
    requires Proposed(metrics, allocations).Some?
    requires var s := Proposed(metrics, allocations).value;
      s.laggard.channel != s.leader.channel && InCents(s.laggardAmount, a) && InCents(s.leaderAmount, b)
    ensures var s := Proposed(metrics, allocations).value;
      var r := ApplyShift(budgets, Recommend(campaign, s));
      var source, target := BudgetKey(campaign, s.laggard.channel), BudgetKey(campaign, s.leader.channel);
      && source in r && target in r
      && (r[source].planned + r[target].planned == a + b <==> !IsTie(s.amount * 100.0) || (a + b) % 2 == 0)
      && a + b - 1 <= r[source].planned + r[target].planned <= a + b + 1
  {
    ShiftConservesIff(Proposed(metrics, allocations).value, a, b);
  }

  // ---------------------------------------------------------------------------
  // A shift that gains a cent
  // ---------------------------------------------------------------------------

  const CHEAP := Metric(1, "email", 1.0, 0, 10, None)
  const DEAR := Metric(2, "social", 10.0, 0, 1, None)

  lemma TwoRanked()
    ensures ChosenOutcome([CHEAP, DEAR]) == Conversion && Ranked([CHEAP, DEAR]) == [CHEAP, DEAR]
  {
    var metrics, f := [CHEAP, DEAR], KeepEligible(Conversion);
    assert metrics[..1] == [CHEAP];
    SumSingle(CHEAP, Outcomes(Conversion));
    assert TotalConversions(metrics) == 11;
    SelectSingle(CHEAP, f);
    assert Select(metrics, f) == metrics;
    var ranked := SortByCost(metrics, Conversion);
    SameMembers(ranked, metrics);
    assert ranked[0] in metrics && ranked[1] in metrics && CHEAP in ranked && DEAR in ranked;
  }

  const PLANNED: Allocations := map["social" := Some(100.05), "email" := Some(100.0)]

  lemma TieBetween(current: int)
    requires IsEligible(CHEAP, Conversion) && IsEligible(DEAR, Conversion)
    ensures var r := ShiftBetween(CHEAP, DEAR, Conversion, current, PLANNED);
      r.Some? && r.value.laggard == DEAR && r.value.leader == CHEAP
      && r.value.laggardAmount == 100.05 && r.value.leaderAmount == 100.0 && r.value.amount == 30.015
  {
    ShiftBetweenIff(CHEAP, DEAR, Conversion, current, PLANNED);
    SizedInBand(100.05, None);
  }

  lemma TieIsProposed()
    ensures var r := Proposed([CHEAP, DEAR], PLANNED);
      r.Some? && r.value.laggard == DEAR && r.value.leader == CHEAP
      && r.value.laggardAmount == 100.05 && r.value.leaderAmount == 100.0 && r.value.amount == 30.015
  {
    TwoRanked();
    TieBetween(SumBy([CHEAP, DEAR], Outcomes(Conversion)));
  }

  /** 100.05 and 100.00 planned, 30.015 moved: both new amounts round up and a cent appears. */
  lemma ShiftCanGainACent()
    ensures Proposed([CHEAP, DEAR], PLANNED).Some?
    ensures var budgets := ApplyShift(map[], Recommend(7, Proposed([CHEAP, DEAR], PLANNED).value));
      && BudgetKey(7, 1) in budgets && BudgetKey(7, 2) in budgets
      && budgets[BudgetKey(7, 1)].planned + budgets[BudgetKey(7, 2)].planned == 10005 + 10000 + 1
  {
    TieIsProposed();
    NearestAtTie((100.05 - 30.015) * 100.0, 7003);
    NearestAtTie((100.0 + 30.015) * 100.0, 13001);
  }
}
