/**
 What the approval gates decide, in the terms of the asset, its campaign and the limits recorded
 with it, and what a batch therefore reports and writes for every position of the request.
 */
module ApprovalLaws {
  import opened Sequences
  import opened BatchApproval

  // ---------------------------------------------------------------------------
  // The gates
  // ---------------------------------------------------------------------------

  /** The limits are in the campaign's currency; without one they are in dollars. */
  predicate SameCurrency(s: Snapshot, c: Campaign) {
    s.currency == Some(c.currency) || (s.currency == None && c.currency == "USD")
  }

  /** The budget is above a limit that can be read. */
  predicate Above(budget: real, limit: Amount) {
    match limit
    case Amount(x) => budget > x
    case _ => false
  }

  predicate OverThreshold(a: Asset, c: Campaign) {
    SameCurrency(a.snapshot, c) && Above(c.budget, a.snapshot.adminAbove)
  }

  /** Without a cap every budget above zero is over it. */
  predicate OverCap(a: Asset, c: Campaign) {
    SameCurrency(a.snapshot, c) && (Above(c.budget, a.snapshot.autoCap) || (a.snapshot.autoCap == Missing && c.budget > 0.0))
  }

  lemma ThresholdIff(a: Asset, c: Campaign)
    ensures NeedsAdmin(a, c) <==> OverThreshold(a, c)
    ensures ExceedsAutoCap(a, c) <==> OverCap(a, c)
  {
  }

  predicate Awaiting(a: Asset) {
    a.status in {PendingApproval, Rejected}
  }

  /** The asset and its campaign exist, it awaits a decision and compliance has not blocked it. */
  predicate Approvable(assets: Assets, campaigns: Campaigns, id: int) {
    id in assets && assets[id].campaign in campaigns && Awaiting(assets[id]) && !assets[id].blocked
  }

  /** The single endpoint's answers. */
  lemma SingleIff(assets: Assets, campaigns: Campaigns, isAdmin: bool, id: int)
    ensures Single(assets, campaigns, isAdmin, id) == Http404 <==> !(id in assets && assets[id].campaign in campaigns)
    ensures Single(assets, campaigns, isAdmin, id) == Http409 <==>
      id in assets && assets[id].campaign in campaigns && !Awaiting(assets[id])
    ensures Single(assets, campaigns, isAdmin, id) == Http422 <==>
      id in assets && assets[id].campaign in campaigns && Awaiting(assets[id]) && assets[id].blocked
    ensures Single(assets, campaigns, isAdmin, id) == Http403 <==>
      Approvable(assets, campaigns, id) && !isAdmin && OverThreshold(assets[id], campaigns[assets[id].campaign])
    ensures Single(assets, campaigns, isAdmin, id) == Created <==>
      Approvable(assets, campaigns, id) && (isAdmin || !OverThreshold(assets[id], campaigns[assets[id].campaign]))
  {
    if Approvable(assets, campaigns, id) {
      ThresholdIff(assets[id], campaigns[assets[id].campaign]);
    }
  }

  /** The batch's reasons. */
  lemma GateIff(assets: Assets, campaigns: Campaigns, isAdmin: bool, id: int)
    ensures Gate(assets, campaigns, isAdmin, id) == Some(NotFound) <==> id !in assets
    ensures Gate(assets, campaigns, isAdmin, id) == Some(CampaignNotFound) <==> id in assets && assets[id].campaign !in campaigns
    ensures forall s :: Gate(assets, campaigns, isAdmin, id) == Some(WrongStatus(s)) <==>
      id in assets && assets[id].campaign in campaigns && assets[id].status == s && s != PendingApproval && s != Rejected
    ensures Gate(assets, campaigns, isAdmin, id) == Some(ComplianceBlocked) <==>
      id in assets && assets[id].campaign in campaigns && Awaiting(assets[id]) && assets[id].blocked
    ensures Gate(assets, campaigns, isAdmin, id) == Some(AboveAutoCap) <==>
      Approvable(assets, campaigns, id) && OverCap(assets[id], campaigns[assets[id].campaign])
    ensures Gate(assets, campaigns, isAdmin, id) == Some(RequiresAdmin) <==>
      && Approvable(assets, campaigns, id) && !OverCap(assets[id], campaigns[assets[id].campaign])
      && !isAdmin && OverThreshold(assets[id], campaigns[assets[id].campaign])
    ensures Gate(assets, campaigns, isAdmin, id) == None <==> Passes(assets, campaigns, isAdmin, id)
  {
    if Approvable(assets, campaigns, id) {
      ThresholdIff(assets[id], campaigns[assets[id].campaign]);
    }
  }

  predicate Passes(assets: Assets, campaigns: Campaigns, isAdmin: bool, id: int) {
    && Approvable(assets, campaigns, id) && !OverCap(assets[id], campaigns[assets[id].campaign])
    && (isAdmin || !OverThreshold(assets[id], campaigns[assets[id].campaign]))
  }

  // ---------------------------------------------------------------------------
  // A whole batch
  // ---------------------------------------------------------------------------

  /** One of the first `n` positions asks for this id and its write succeeds. */
  ghost predicate WrittenBefore(writeFails: nat -> bool, ids: seq<int>, n: nat, id: int)
    requires n <= |ids|
  {
    exists m :: 0 <= m < n && ids[m] == id && !writeFails(m)
  }

  lemma WrittenNext(writeFails: nat -> bool, ids: seq<int>, n: nat, id: int)
    requires n < |ids|
    ensures WrittenBefore(writeFails, ids, n + 1, id) <==> WrittenBefore(writeFails, ids, n, id) || (ids[n] == id && !writeFails(n))
  {
  }

  /** The asset after the first `n` positions of a real run. */
  ghost predicate StandsAs(assets: Assets, now: Assets, passes: bool, written: bool, id: int) {
    && (id in now <==> id in assets)
    && (id in assets ==> now[id] == if passes && written then assets[id].(status := Approved) else assets[id])
  }

  /** A real run approves an asset exactly when it passes the gates at the start and one of its writes succeeds. */
  lemma {:induction false} RealRunWrites(assets: Assets, campaigns: Campaigns, isAdmin: bool, writeFails: nat -> bool, ids: seq<int>, n: nat, id: int)
    requires n <= |ids|
    ensures StandsAs(assets, RunBatch(assets, campaigns, isAdmin, false, writeFails, ids[..n]).assets,
      Passes(assets, campaigns, isAdmin, id), WrittenBefore(writeFails, ids, n, id), id)
  {
    if n > 0 {
      var m := n - 1;
      assert ids[..n][..m] == ids[..m];
      RealRunWrites(assets, campaigns, isAdmin, writeFails, ids, m, id);
      WrittenNext(writeFails, ids, m, id);
      var before := RunBatch(assets, campaigns, isAdmin, false, writeFails, ids[..m]);
      StepWrites(assets, campaigns, isAdmin, before, writeFails(m), ids[m], WrittenBefore(writeFails, ids, m, id), id);
    }
  }

  lemma StepWrites(assets: Assets, campaigns: Campaigns, isAdmin: bool, o: Outcome, fails: bool, next: int, written: bool, id: int)
    requires StandsAs(assets, o.assets, Passes(assets, campaigns, isAdmin, id), written, id)
    ensures StandsAs(assets, Process(o, campaigns, isAdmin, false, fails, next).assets,
      Passes(assets, campaigns, isAdmin, id), written || (next == id && !fails), id)
  {
    GateIff(o.assets, campaigns, isAdmin, next);
  }

  /** What becomes of the `n`-th id of a batch: refused, or `None` when approved. */
  ghost function Verdict(assets: Assets, campaigns: Campaigns, isAdmin: bool, dryRun: bool, writeFails: nat -> bool, ids: seq<int>, n: nat): (r: Option<Reason>)
    requires n < |ids|
  {
    if !Passes(assets, campaigns, isAdmin, ids[n]) then Gate(assets, campaigns, isAdmin, ids[n])
    else if dryRun then None
    else if WrittenBefore(writeFails, ids, n, ids[n]) then Some(WrongStatus(Approved))
    else if writeFails(n) then Some(WriteFailed)
    else None
  }

  ghost function ApprovedOf(ids: seq<int>, verdicts: seq<Option<Reason>>): (r: seq<int>)
    requires |verdicts| == |ids|
  {
    if ids == [] then []
    else
      var n := |ids| - 1;
      ApprovedOf(ids[..n], verdicts[..n]) + if verdicts[n].None? then [ids[n]] else []
  }

  ghost function ExcludedOf(ids: seq<int>, verdicts: seq<Option<Reason>>): (r: seq<Exclusion>)
    requires |verdicts| == |ids|
  {
    if ids == [] then []
    else
      var n := |ids| - 1;
      ExcludedOf(ids[..n], verdicts[..n]) + if verdicts[n].Some? then [Exclusion(ids[n], verdicts[n].value)] else []
  }

  ghost predicate AreVerdicts(
    assets: Assets, campaigns: Campaigns, isAdmin: bool, dryRun: bool, writeFails: nat -> bool, ids: seq<int>, verdicts: seq<Option<Reason>>)
  {
    && |verdicts| == |ids|
    && forall n :: 0 <= n < |ids| ==> verdicts[n] == Verdict(assets, campaigns, isAdmin, dryRun, writeFails, ids, n)
  }

  /** The report of a dry or real run, position by position and in the request's order. */
  lemma {:induction false} ReportIs(
    assets: Assets, campaigns: Campaigns, isAdmin: bool, dryRun: bool, writeFails: nat -> bool, ids: seq<int>, verdicts: seq<Option<Reason>>)
    requires AreVerdicts(assets, campaigns, isAdmin, dryRun, writeFails, ids, verdicts)
    ensures var r := RunBatch(assets, campaigns, isAdmin, dryRun, writeFails, ids).report;
      r.approved == ApprovedOf(ids, verdicts) && r.excluded == ExcludedOf(ids, verdicts)
  {
    if ids != [] {
      var n := |ids| - 1;
      VerdictsOfPrefix(assets, campaigns, isAdmin, dryRun, writeFails, ids, verdicts);
      ReportIs(assets, campaigns, isAdmin, dryRun, writeFails, ids[..n], verdicts[..n]);
      StepVerdict(assets, campaigns, isAdmin, dryRun, writeFails, ids, n);
    }
  }

  lemma VerdictsOfPrefix(
    assets: Assets, campaigns: Campaigns, isAdmin: bool, dryRun: bool, writeFails: nat -> bool, ids: seq<int>, verdicts: seq<Option<Reason>>)
    requires AreVerdicts(assets, campaigns, isAdmin, dryRun, writeFails, ids, verdicts) && ids != []
    ensures AreVerdicts(assets, campaigns, isAdmin, dryRun, writeFails, ids[..|ids| - 1], verdicts[..|ids| - 1])
  {
    var m := |ids| - 1;
    forall n | 0 <= n < m ensures verdicts[..m][n] == Verdict(assets, campaigns, isAdmin, dryRun, writeFails, ids[..m], n) {
      assert forall k :: 0 <= k < m ==> ids[..m][k] == ids[k];
      assert WrittenBefore(writeFails, ids[..m], n, ids[n]) <==> WrittenBefore(writeFails, ids, n, ids[n]);
    }
  }

  /** What one more position adds to the report. */
  ghost predicate Adds(r: Report, s: Report, id: int, verdict: Option<Reason>) {
    && s.approved == r.approved + (if verdict.None? then [id] else [])
    && s.excluded == r.excluded + if verdict.Some? then [Exclusion(id, verdict.value)] else []
  }

  lemma StepVerdict(assets: Assets, campaigns: Campaigns, isAdmin: bool, dryRun: bool, writeFails: nat -> bool, ids: seq<int>, n: nat)
    requires n < |ids|
    ensures var before := RunBatch(assets, campaigns, isAdmin, dryRun, writeFails, ids[..n]);
      Adds(before.report, Process(before, campaigns, isAdmin, dryRun, writeFails(n), ids[n]).report, ids[n],
        Verdict(assets, campaigns, isAdmin, dryRun, writeFails, ids, n))
  {
    var now := RunBatch(assets, campaigns, isAdmin, dryRun, writeFails, ids[..n]).assets;
    if dryRun {
      DryRunChangesNothing(assets, campaigns, isAdmin, writeFails, ids[..n]);
      GateIff(assets, campaigns, isAdmin, ids[n]);
    } else {
      RealRunWrites(assets, campaigns, isAdmin, writeFails, ids, n, ids[n]);
      GateNow(assets, now, campaigns, isAdmin, WrittenBefore(writeFails, ids, n, ids[n]), ids[n]);
    }
  }

  lemma GateNow(assets: Assets, now: Assets, campaigns: Campaigns, isAdmin: bool, written: bool, id: int)
    requires StandsAs(assets, now, Passes(assets, campaigns, isAdmin, id), written, id)
    ensures Gate(now, campaigns, isAdmin, id)
         == if Passes(assets, campaigns, isAdmin, id) && written then Some(WrongStatus(Approved)) else Gate(assets, campaigns, isAdmin, id)
    ensures Gate(assets, campaigns, isAdmin, id).None? <==> Passes(assets, campaigns, isAdmin, id)
  {
    GateIff(assets, campaigns, isAdmin, id);
    GateIff(now, campaigns, isAdmin, id);
  }

  /** The ids the summary is about: the approved ones and those whose write failed, in the request's order. */
  ghost function PassedOf(ids: seq<int>, verdicts: seq<Option<Reason>>): (r: seq<int>)
    requires |verdicts| == |ids|
  {
    if ids == [] then []
    else
      var n := |ids| - 1;
      PassedOf(ids[..n], verdicts[..n]) + if verdicts[n] in {None, Some(WriteFailed)} then [ids[n]] else []
  }

  lemma {:induction false} SummaryIsAbout(
    assets: Assets, campaigns: Campaigns, isAdmin: bool, dryRun: bool, writeFails: nat -> bool, ids: seq<int>, verdicts: seq<Option<Reason>>)
    requires AreVerdicts(assets, campaigns, isAdmin, dryRun, writeFails, ids, verdicts)
    ensures Passing(assets, campaigns, isAdmin, dryRun, writeFails, ids) == PassedOf(ids, verdicts)
  {
    if ids != [] {
      var n := |ids| - 1;
      VerdictsOfPrefix(assets, campaigns, isAdmin, dryRun, writeFails, ids, verdicts);
      SummaryIsAbout(assets, campaigns, isAdmin, dryRun, writeFails, ids[..n], verdicts[..n]);
      StepPasses(assets, campaigns, isAdmin, dryRun, writeFails, ids, n);
    }
  }

  lemma StepPasses(assets: Assets, campaigns: Campaigns, isAdmin: bool, dryRun: bool, writeFails: nat -> bool, ids: seq<int>, n: nat)
    requires n < |ids|
    ensures Gate(RunBatch(assets, campaigns, isAdmin, dryRun, writeFails, ids[..n]).assets, campaigns, isAdmin, ids[n]).None?
       <==> Verdict(assets, campaigns, isAdmin, dryRun, writeFails, ids, n) in {None, Some(WriteFailed)}
  {
    var now := RunBatch(assets, campaigns, isAdmin, dryRun, writeFails, ids[..n]).assets;
    GateIsNotFailure(assets, campaigns, isAdmin, ids[n]);
    GateIff(assets, campaigns, isAdmin, ids[n]);
    if dryRun {
      DryRunChangesNothing(assets, campaigns, isAdmin, writeFails, ids[..n]);
    } else {
      RealRunWrites(assets, campaigns, isAdmin, writeFails, ids, n, ids[n]);
      GateNow(assets, now, campaigns, isAdmin, WrittenBefore(writeFails, ids, n, ids[n]), ids[n]);
    }
  }
}
