/**
 Approving assets one by one and in batches: the gates, the batch loop with its savepoints, and
 the dry run that should tell what the real run will do.
 */
module BatchApproval {
  import opened Sequences

  /** `Other` stands for every status that is not one of the three. */
  datatype Status = PendingApproval | Rejected | Approved | Other

  datatype Amount = Missing | Unreadable | Amount(value: real)

  /** What was true of the tenant's limits when the asset was submitted. */
  datatype Snapshot = Snapshot(adminAbove: Amount, autoCap: Amount, currency: Option<string>)

  datatype Asset = Asset(
    campaign: int, status: Status, blocked: bool, snapshot: Snapshot, platform: Option<string>, kind: string,
    content: string, fields: map<string, string>)

  datatype Stage = ApprovalPending | ReadyToLaunch | OtherStage

  datatype Campaign = Campaign(budget: real, currency: string, stage: Stage)

  /** What a reviewer changes while approving; nothing, unless given. */
  datatype Edits = Edits(content: Option<string>, fields: map<string, string>)

  type Assets = map<int, Asset>
  type Campaigns = map<int, Campaign>

  datatype Reason = NotFound | CampaignNotFound | WrongStatus(status: Status) | ComplianceBlocked | AboveAutoCap | RequiresAdmin | WriteFailed

  datatype Exclusion = Exclusion(id: int, reason: Reason)

  /** What a batch reports; `exposed` are the campaigns whose budgets it adds up. */
  datatype Report = Report(approved: seq<int>, excluded: seq<Exclusion>, counts: map<string, int>, exposed: set<int>, currency: Option<string>)

  datatype Outcome = Outcome(assets: Assets, report: Report)

  // ---------------------------------------------------------------------------
  // The gates
  // ---------------------------------------------------------------------------

  function CurrencyOf(s: Snapshot): string {
    if s.currency.Some? then s.currency.value else "USD"
  }

  predicate NeedsAdmin(a: Asset, c: Campaign) {
    && a.snapshot.adminAbove.Amount? && CurrencyOf(a.snapshot) == c.currency
    && c.budget > a.snapshot.adminAbove.value
  }

  /** A missing cap is a cap of zero. */
  predicate ExceedsAutoCap(a: Asset, c: Campaign) {
    && CurrencyOf(a.snapshot) == c.currency && !a.snapshot.autoCap.Unreadable?
    && c.budget > if a.snapshot.autoCap.Missing? then 0.0 else a.snapshot.autoCap.value
  }

  predicate Open(a: Asset) {
    a.status == PendingApproval || a.status == Rejected
  }

  function Gate(assets: Assets, campaigns: Campaigns, isAdmin: bool, id: int): (r: Option<Reason>) {
    if id !in assets then Some(NotFound)
    else
      var a := assets[id];
      if a.campaign !in campaigns then Some(CampaignNotFound)
      else if !Open(a) then Some(WrongStatus(a.status))
      else if a.blocked then Some(ComplianceBlocked)
      else if ExceedsAutoCap(a, campaigns[a.campaign]) then Some(AboveAutoCap)
      else if NeedsAdmin(a, campaigns[a.campaign]) && !isAdmin then Some(RequiresAdmin)
      else None
  }

  datatype SingleReply = Created | Http404 | Http409 | Http422 | Http403

  /** The answer of the single-asset endpoint. */
  function Single(assets: Assets, campaigns: Campaigns, isAdmin: bool, id: int): (r: SingleReply) {
    if id !in assets || assets[id].campaign !in campaigns then Http404
    else if !Open(assets[id]) then Http409
    else if assets[id].blocked then Http422
    else if NeedsAdmin(assets[id], campaigns[assets[id].campaign]) && !isAdmin then Http403
    else Created
  }

  function Approve(assets: Assets, id: int): (r: Assets)
    requires id in assets
  {
    assets[id := assets[id].(status := Approved)]
  }

  function Edited(a: Asset, edits: Edits): (r: Asset) {
    a.(content := if edits.content.Some? then edits.content.value else a.content, fields := a.fields + edits.fields)
  }

  /** The state machine's guard on `start_launch`, whatever it asks of the campaign's assets. */
  type Guard = (Assets, int) -> bool

  predicate Launches(assets: Assets, campaigns: Campaigns, guard: Guard, c: int)
    requires c in campaigns
  {
    campaigns[c].stage == ApprovalPending && guard(assets, c)
  }

  /** The campaigns among `cs` that wait for approval and pass the guard move on. */
  function LaunchAll(assets: Assets, campaigns: Campaigns, guard: Guard, cs: set<int>): (r: Campaigns) {
    map c | c in campaigns ::
      if c in cs && Launches(assets, campaigns, guard, c) then campaigns[c].(stage := ReadyToLaunch) else campaigns[c]
  }

  function PlatformOf(a: Asset): string {
    if a.platform.Some? then a.platform.value else a.kind
  }

  // ---------------------------------------------------------------------------
  // The batch
  // ---------------------------------------------------------------------------

  function Bump(counts: map<string, int>, platform: string): (r: map<string, int>) {
    counts[platform := (if platform in counts then counts[platform] else 0) + 1]
  }

  /** What the loop notes about an asset that passed every gate. */
  function Note(r: Report, a: Asset, c: Campaign): (s: Report) {
    r.(counts := Bump(r.counts, PlatformOf(a)), exposed := r.exposed + {a.campaign},
       currency := if r.currency.Some? then r.currency else Some(c.currency))
  }

  function Exclude(r: Report, id: int, reason: Reason): Report {
    r.(excluded := r.excluded + [Exclusion(id, reason)])
  }

  function Process(o: Outcome, campaigns: Campaigns, isAdmin: bool, dryRun: bool, writeFails: bool, id: int): (r: Outcome) {
    match Gate(o.assets, campaigns, isAdmin, id)
    case Some(reason) => o.(report := Exclude(o.report, id, reason))
    case None =>
      var noted := Note(o.report, o.assets[id], campaigns[o.assets[id].campaign]);
      if dryRun then o.(report := noted.(approved := noted.approved + [id]))
      else if writeFails then o.(report := Exclude(noted, id, WriteFailed))
      else Outcome(Approve(o.assets, id), noted.(approved := noted.approved + [id]))
  }

  const EMPTY := Report([], [], map[], {}, None)

  /** `writeFails(n)` says whether the write for the n-th id fails. */
  function RunBatch(assets: Assets, campaigns: Campaigns, isAdmin: bool, dryRun: bool, writeFails: nat -> bool, ids: seq<int>): (r: Outcome) {
    if ids == [] then Outcome(assets, EMPTY)
    else
      var n := |ids| - 1;
      Process(RunBatch(assets, campaigns, isAdmin, dryRun, writeFails, ids[..n]), campaigns, isAdmin, dryRun, writeFails(n), ids[n])
  }

  class Desk {
    const guard: Guard
    var campaigns: Campaigns
    var assets: Assets

    constructor (assets: Assets, campaigns: Campaigns, guard: Guard)
      ensures this.assets == assets && this.campaigns == campaigns && this.guard == guard
    {
      this.assets, this.campaigns, this.guard := assets, campaigns, guard;
    }

    /** One asset through the gates of the single endpoint, with the reviewer's edits. */
    method ApproveAsset(id: int, isAdmin: bool, edits: Edits) returns (reply: SingleReply, withEdits: bool)
      modifies this
      ensures reply == Single(old(assets), old(campaigns), isAdmin, id)
      ensures reply != Created ==> assets == old(assets) && campaigns == old(campaigns)
      ensures reply == Created ==>
        && assets == old(assets)[id := old(assets)[id].(
             content := if edits.content.Some? then edits.content.value else old(assets)[id].content,
             fields := old(assets)[id].fields + edits.fields, status := Approved)]
        && campaigns == LaunchAll(assets, old(campaigns), guard, {old(assets)[id].campaign})
        && withEdits == (edits != Edits(None, map[]))
    {
      withEdits := false;
      if id !in assets || assets[id].campaign !in campaigns { return Http404, false; }
      if !Open(assets[id]) { return Http409, false; }
      if assets[id].blocked { return Http422, false; }
      if NeedsAdmin(assets[id], campaigns[assets[id].campaign]) && !isAdmin { return Http403, false; }
      withEdits := edits.content.Some? || edits.fields != map[];
      if withEdits {
        assets := assets[id := Edited(assets[id], edits)];
      }
      assert Edited(old(assets)[id], Edits(None, map[])) == old(assets)[id];
      assets := Approve(assets, id);
      Advance({assets[id].campaign});
      reply := Created;
    }

    /** `_maybe_advance_to_ready_to_launch`, for each campaign of a set in any order. */
    method Advance(cs: set<int>)
      modifies this`campaigns
      ensures campaigns == LaunchAll(assets, old(campaigns), guard, cs)
      ensures campaigns.Keys == old(campaigns).Keys
      ensures forall c :: c in campaigns ==>
        campaigns[c] == if c in cs && old(campaigns)[c].stage == ApprovalPending && guard(assets, c)
          then Campaign(old(campaigns)[c].budget, old(campaigns)[c].currency, ReadyToLaunch) else old(campaigns)[c]
    {
      var todo := cs;
      while todo != {}
        invariant todo <= cs && campaigns.Keys == old(campaigns).Keys
        invariant forall c :: c in campaigns ==>
          campaigns[c] == if c in cs && c !in todo && Launches(assets, old(campaigns), guard, c) then old(campaigns)[c].(stage := ReadyToLaunch) else old(campaigns)[c]
        decreases |todo|
      {
        var c := PickOne(todo);
        if c in campaigns && campaigns[c].stage == ApprovalPending && guard(assets, c) {
          campaigns := campaigns[c := campaigns[c].(stage := ReadyToLaunch)];
        }
        todo := todo - {c};
      }
      SameMap(campaigns, LaunchAll(assets, old(campaigns), guard, cs));
    }

    method BatchApprove(ids: seq<int>, isAdmin: bool, dryRun: bool, writeFails: nat -> bool) returns (report: Report)
      modifies this
      ensures Outcome(assets, report) == RunBatch(old(assets), old(campaigns), isAdmin, dryRun, writeFails, ids)
      ensures campaigns == if dryRun then old(campaigns) else LaunchAll(assets, old(campaigns), guard, report.exposed)
    {
      report := EMPTY;
      for n := 0 to |ids|
        invariant campaigns == old(campaigns)
        invariant Outcome(assets, report) == RunBatch(old(assets), campaigns, isAdmin, dryRun, writeFails, ids[..n])
      {
        assert ids[..n + 1][..n] == ids[..n];
        var id := ids[n];
        var gate := Gate(assets, campaigns, isAdmin, id);
        if gate.Some? {
          report := Exclude(report, id, gate.value);
          continue;
        }
        report := Note(report, assets[id], campaigns[assets[id].campaign]);
        if dryRun {
          report := report.(approved := report.approved + [id]);
          continue;
        }
        if writeFails(n) {
          report := Exclude(report, id, WriteFailed);
          continue;
        }
        assets := Approve(assets, id);
        report := report.(approved := report.approved + [id]);
      }
      assert ids[..|ids|] == ids;
      if !dryRun {
        Advance(report.exposed);
      }
    }
  }

  // ---------------------------------------------------------------------------
  // Every batch
  // ---------------------------------------------------------------------------

  function IdOf(): Exclusion -> int {
    (e: Exclusion) => e.id
  }

  /** The request answered by a report. */
  ghost function Answered(r: Report): multiset<int> {
    multiset(r.approved) + multiset(Map(r.excluded, IdOf()))
  }

  lemma ExcludeAnswers(r: Report, id: int, reason: Reason)
    ensures Answered(Exclude(r, id, reason)) == Answered(r) + multiset{id}
  {
    assert Map(r.excluded + [Exclusion(id, reason)], IdOf()) == Map(r.excluded, IdOf()) + [id];
  }

  lemma ProcessAnswers(o: Outcome, campaigns: Campaigns, isAdmin: bool, dryRun: bool, writeFails: bool, id: int)
    ensures Answered(Process(o, campaigns, isAdmin, dryRun, writeFails, id).report) == Answered(o.report) + multiset{id}
  {
    var gate := Gate(o.assets, campaigns, isAdmin, id);
    if gate.Some? {
      ExcludeAnswers(o.report, id, gate.value);
    } else if !dryRun && writeFails {
      ExcludeAnswers(Note(o.report, o.assets[id], campaigns[o.assets[id].campaign]), id, WriteFailed);
    }
  }

  /** Approved and excluded ids together are the request, each as often as it was asked for. */
  lemma {:induction false} BatchPartitions(assets: Assets, campaigns: Campaigns, isAdmin: bool, dryRun: bool, writeFails: nat -> bool, ids: seq<int>)
    ensures var r := RunBatch(assets, campaigns, isAdmin, dryRun, writeFails, ids).report;
      multiset(r.approved) + multiset(Map(r.excluded, IdOf())) == multiset(ids)
  {
    if ids != [] {
      var n := |ids| - 1;
      BatchPartitions(assets, campaigns, isAdmin, dryRun, writeFails, ids[..n]);
      assert ids == ids[..n] + [ids[n]];
      ProcessAnswers(RunBatch(assets, campaigns, isAdmin, dryRun, writeFails, ids[..n]), campaigns, isAdmin, dryRun, writeFails(n), ids[n]);
    }
  }

  ghost predicate Histogram(counts: map<string, int>, platforms: seq<string>) {
    && (forall p :: p in counts <==> p in platforms)
    && (forall p :: p in counts ==> counts[p] == multiset(platforms)[p])
  }

  lemma BumpHistogram(counts: map<string, int>, platforms: seq<string>, p: string)
    requires Histogram(counts, platforms)
    ensures Histogram(Bump(counts, p), platforms + [p])
  {
  }

  ghost function TotalCount(counts: map<string, int>): (r: int) {
    if counts.Keys == {} then 0
    else
      var p :| p in counts.Keys;
      counts[p] + TotalCount(counts - {p})
  }

  lemma {:induction false} HistogramTotal(counts: map<string, int>, platforms: seq<string>)
    requires Histogram(counts, platforms)
    ensures TotalCount(counts) == |platforms|
    decreases |counts.Keys|
  {
    if counts.Keys == {} {
      HeadIsMember(platforms);
    } else {
      var p :| p in counts.Keys && TotalCount(counts) == counts[p] + TotalCount(counts - {p});
      HistogramWithout(counts, platforms, p);
      assert |(counts - {p}).Keys| < |counts.Keys| by { assert (counts - {p}).Keys == counts.Keys - {p}; }
      HistogramTotal(counts - {p}, Excluding(platforms, p));
      ExcludingCounts(platforms, p, p);
    }
  }

  lemma HeadIsMember(platforms: seq<string>)
    ensures platforms != [] ==> platforms[0] in platforms
  {
  }

  lemma HistogramWithout(counts: map<string, int>, platforms: seq<string>, p: string)
    requires Histogram(counts, platforms)
    ensures Histogram(counts - {p}, Excluding(platforms, p))
  {
    forall q ensures q in counts - {p} <==> q in Excluding(platforms, p)
      ensures q in counts - {p} ==> (counts - {p})[q] == multiset(Excluding(platforms, p))[q]
    {
      ExcludingCounts(platforms, p, q);
      assert q in Excluding(platforms, p) <==> q in multiset(Excluding(platforms, p));
      assert q in platforms <==> q in multiset(platforms);
    }
  }

  function Failed(): Exclusion -> Option<int> {
    (e: Exclusion) => if e.reason == WriteFailed then Some(e.id) else None
  }

  /** The ids that passed every gate and whose write failed. */
  function FailedIds(excluded: seq<Exclusion>): (r: seq<int>) {
    Select(excluded, Failed())
  }

  function PlatformIn(assets: Assets): int -> string {
    (id: int) => if id !in assets then "" else if assets[id].platform.Some? then assets[id].platform.value else assets[id].kind
  }

  predicate Known(assets: Assets, campaigns: Campaigns, id: int) {
    id in assets && assets[id].campaign in campaigns
  }

  ghost predicate Exposes(assets: Assets, passed: seq<int>, c: int) {
    exists i :: 0 <= i < |passed| && passed[i] in assets && assets[passed[i]].campaign == c
  }

  /** A report's summary is about the ids that passed the gates: one count for each on its platform,
      their campaigns, and the first one's currency. */
  ghost predicate Describes(r: Report, passed: seq<int>, assets: Assets, campaigns: Campaigns) {
    && Accounts(r, passed)
    && AllKnown(passed, assets, campaigns)
    && Histogram(r.counts, Map(passed, PlatformIn(assets)))
    && ExposesAll(r, passed, assets)
    && r.currency == FirstCurrency(passed, assets, campaigns)
  }

  ghost predicate Accounts(r: Report, passed: seq<int>) {
    multiset(passed) == multiset(r.approved) + multiset(FailedIds(r.excluded))
  }

  ghost predicate AllKnown(passed: seq<int>, assets: Assets, campaigns: Campaigns) {
    forall i :: 0 <= i < |passed| ==> Known(assets, campaigns, passed[i])
  }

  ghost predicate ExposesAll(r: Report, passed: seq<int>, assets: Assets) {
    forall c :: c in r.exposed <==> Exposes(assets, passed, c)
  }

  function FirstCurrency(passed: seq<int>, assets: Assets, campaigns: Campaigns): (r: Option<string>) {
    if passed == [] || !Known(assets, campaigns, passed[0]) then None
    else Some(campaigns[assets[passed[0]].campaign].currency)
  }

  lemma ExposesLast(assets: Assets, passed: seq<int>, id: int, c: int)
    requires id in assets
    ensures Exposes(assets, passed + [id], c) <==> Exposes(assets, passed, c) || assets[id].campaign == c
  {
    var longer := passed + [id];
    assert longer[|passed|] == id && forall i :: 0 <= i < |passed| ==> longer[i] == passed[i];
  }

  /** Noting an asset and then approving it, or recording its failed write. */
  lemma NoteDescribes(r: Report, passed: seq<int>, assets: Assets, campaigns: Campaigns, id: int, a: Asset, s: Report)
    requires Describes(r, passed, assets, campaigns) && Known(assets, campaigns, id)
    requires a.campaign == assets[id].campaign && PlatformOf(a) == PlatformOf(assets[id])
    requires var noted := Note(r, a, campaigns[a.campaign]);
      s == noted.(approved := noted.approved + [id]) || s == Exclude(noted, id, WriteFailed)
    ensures Describes(s, passed + [id], assets, campaigns)
  {
    NoteCounts(r.counts, passed, assets, id);
    NoteExposes(r, passed, assets, id, s);
    FailedLast(r.excluded, Exclusion(id, WriteFailed));
    MultisetLast(passed, r.approved, FailedIds(r.excluded), id);
    NoteCurrency(passed, assets, campaigns, id);
  }

  lemma NoteCounts(counts: map<string, int>, passed: seq<int>, assets: Assets, id: int)
    requires id in assets && Histogram(counts, Map(passed, PlatformIn(assets)))
    ensures Histogram(Bump(counts, PlatformOf(assets[id])), Map(passed + [id], PlatformIn(assets)))
  {
    BumpHistogram(counts, Map(passed, PlatformIn(assets)), PlatformOf(assets[id]));
    assert Map(passed + [id], PlatformIn(assets)) == Map(passed, PlatformIn(assets)) + [PlatformOf(assets[id])];
  }

  lemma NoteExposes(r: Report, passed: seq<int>, assets: Assets, id: int, s: Report)
    requires id in assets && ExposesAll(r, passed, assets) && s.exposed == r.exposed + {assets[id].campaign}
    ensures ExposesAll(s, passed + [id], assets)
  {
    forall c ensures c in s.exposed <==> Exposes(assets, passed + [id], c) {
      ExposesLast(assets, passed, id, c);
    }
  }

  lemma NoteCurrency(passed: seq<int>, assets: Assets, campaigns: Campaigns, id: int)
    requires AllKnown(passed, assets, campaigns) && Known(assets, campaigns, id)
    ensures AllKnown(passed + [id], assets, campaigns)
    ensures FirstCurrency(passed + [id], assets, campaigns)
         == if FirstCurrency(passed, assets, campaigns).Some? then FirstCurrency(passed, assets, campaigns)
            else Some(campaigns[assets[id].campaign].currency)
  {
    if passed != [] {
      assert (passed + [id])[0] == passed[0];
    }
  }

  lemma FailedLast(excluded: seq<Exclusion>, e: Exclusion)
    ensures FailedIds(excluded + [e]) == FailedIds(excluded) + if e.reason == WriteFailed then [e.id] else []
  {
    assert (excluded + [e])[..|excluded|] == excluded;
  }

  lemma MultisetLast(passed: seq<int>, approved: seq<int>, failed: seq<int>, id: int)
    requires multiset(passed) == multiset(approved) + multiset(failed)
    ensures multiset(passed + [id]) == multiset(approved + [id]) + multiset(failed)
    ensures multiset(passed + [id]) == multiset(approved) + multiset(failed + [id])
  {
  }

  /** A batch changes nothing of an asset but its status. */
  lemma {:induction false} OnlyStatusChanges(assets: Assets, campaigns: Campaigns, isAdmin: bool, dryRun: bool, writeFails: nat -> bool, ids: seq<int>, id: int)
    ensures var now := RunBatch(assets, campaigns, isAdmin, dryRun, writeFails, ids).assets;
      (id in now <==> id in assets) && (id in assets ==> now[id] == assets[id] || now[id] == assets[id].(status := Approved))
  {
    if ids != [] {
      OnlyStatusChanges(assets, campaigns, isAdmin, dryRun, writeFails, ids[..|ids| - 1], id);
    }
  }

  /** The ids that pass the gates when their turn comes, in the request's order. */
  function Passing(assets: Assets, campaigns: Campaigns, isAdmin: bool, dryRun: bool, writeFails: nat -> bool, ids: seq<int>): (r: seq<int>) {
    if ids == [] then []
    else
      var n := |ids| - 1;
      var now := RunBatch(assets, campaigns, isAdmin, dryRun, writeFails, ids[..n]).assets;
      Passing(assets, campaigns, isAdmin, dryRun, writeFails, ids[..n]) + if Gate(now, campaigns, isAdmin, ids[n]).None? then [ids[n]] else []
  }

  /** What the summary of any batch, dry or real, is about. */
  lemma {:induction false} SummaryDescribes(assets: Assets, campaigns: Campaigns, isAdmin: bool, dryRun: bool, writeFails: nat -> bool, ids: seq<int>)
    ensures Describes(RunBatch(assets, campaigns, isAdmin, dryRun, writeFails, ids).report,
      Passing(assets, campaigns, isAdmin, dryRun, writeFails, ids), assets, campaigns)
  {
    if ids == [] {
      NothingDescribes(assets, campaigns);
    } else {
      var n := |ids| - 1;
      SummaryDescribes(assets, campaigns, isAdmin, dryRun, writeFails, ids[..n]);
      SummaryStep(assets, campaigns, isAdmin, dryRun, writeFails, ids, RunBatch(assets, campaigns, isAdmin, dryRun, writeFails, ids[..n]),
        Passing(assets, campaigns, isAdmin, dryRun, writeFails, ids[..n]));
    }
  }

  lemma SummaryStep(
    assets: Assets, campaigns: Campaigns, isAdmin: bool, dryRun: bool, writeFails: nat -> bool, ids: seq<int>, before: Outcome, passed: seq<int>)
    requires ids != [] && before == RunBatch(assets, campaigns, isAdmin, dryRun, writeFails, ids[..|ids| - 1])
    requires passed == Passing(assets, campaigns, isAdmin, dryRun, writeFails, ids[..|ids| - 1])
    requires Describes(before.report, passed, assets, campaigns)
    ensures Describes(RunBatch(assets, campaigns, isAdmin, dryRun, writeFails, ids).report,
      Passing(assets, campaigns, isAdmin, dryRun, writeFails, ids), assets, campaigns)
  {
    var n := |ids| - 1;
    OnlyStatusChanges(assets, campaigns, isAdmin, dryRun, writeFails, ids[..n], ids[n]);
    ProcessDescribes(before, passed, assets, campaigns, isAdmin, dryRun, writeFails(n), ids[n]);
    PassingLast(assets, campaigns, isAdmin, dryRun, writeFails, ids);
  }

  lemma PassingLast(assets: Assets, campaigns: Campaigns, isAdmin: bool, dryRun: bool, writeFails: nat -> bool, ids: seq<int>)
    requires ids != []
    ensures var n := |ids| - 1;
      var before, passed := RunBatch(assets, campaigns, isAdmin, dryRun, writeFails, ids[..n]), Passing(assets, campaigns, isAdmin, dryRun, writeFails, ids[..n]);
      && RunBatch(assets, campaigns, isAdmin, dryRun, writeFails, ids) == Process(before, campaigns, isAdmin, dryRun, writeFails(n), ids[n])
      && Passing(assets, campaigns, isAdmin, dryRun, writeFails, ids) == if Gate(before.assets, campaigns, isAdmin, ids[n]).None? then passed + [ids[n]] else passed
  {
  }

  lemma NothingDescribes(assets: Assets, campaigns: Campaigns)
    ensures Describes(EMPTY, [], assets, campaigns)
  {
  }

  lemma ProcessDescribes(
    o: Outcome, passed: seq<int>, assets: Assets, campaigns: Campaigns, isAdmin: bool, dryRun: bool, writeFails: bool, id: int)
    requires Describes(o.report, passed, assets, campaigns) && (id in o.assets ==> id in assets)
    requires id in o.assets ==> o.assets[id] == assets[id] || o.assets[id] == assets[id].(status := Approved)
    ensures Describes(Process(o, campaigns, isAdmin, dryRun, writeFails, id).report,
      if Gate(o.assets, campaigns, isAdmin, id).None? then passed + [id] else passed, assets, campaigns)
  {
    var gate := Gate(o.assets, campaigns, isAdmin, id);
    if gate.None? {
      NoteDescribes(o.report, passed, assets, campaigns, id, o.assets[id], Process(o, campaigns, isAdmin, dryRun, writeFails, id).report);
    } else {
      GateIsNotFailure(o.assets, campaigns, isAdmin, id);
      ExcludeDescribes(o.report, passed, assets, campaigns, id, gate.value);
    }
  }

  lemma ExcludeDescribes(r: Report, passed: seq<int>, assets: Assets, campaigns: Campaigns, id: int, reason: Reason)
    requires Describes(r, passed, assets, campaigns) && reason != WriteFailed
    ensures Describes(Exclude(r, id, reason), passed, assets, campaigns)
  {
    FailedLast(r.excluded, Exclusion(id, reason));
  }

  lemma GateIsNotFailure(assets: Assets, campaigns: Campaigns, isAdmin: bool, id: int)
    ensures Gate(assets, campaigns, isAdmin, id) != Some(WriteFailed)
  {
  }

  /** Added up, the channel counts give the approved assets and the failed writes. */
  lemma CountsAddUp(assets: Assets, campaigns: Campaigns, isAdmin: bool, dryRun: bool, writeFails: nat -> bool, ids: seq<int>)
    ensures var r := RunBatch(assets, campaigns, isAdmin, dryRun, writeFails, ids).report;
      TotalCount(r.counts) == |r.approved| + |FailedIds(r.excluded)|
  {
    var r := RunBatch(assets, campaigns, isAdmin, dryRun, writeFails, ids).report;
    var passed := Passing(assets, campaigns, isAdmin, dryRun, writeFails, ids);
    SummaryDescribes(assets, campaigns, isAdmin, dryRun, writeFails, ids);
    HistogramTotal(r.counts, Map(passed, PlatformIn(assets)));
    assert |passed| == |multiset(passed)| == |multiset(r.approved)| + |multiset(FailedIds(r.excluded))|;
  }

  // ---------------------------------------------------------------------------
  // Batch and single endpoint
  // ---------------------------------------------------------------------------

  /** The batch's gates are the single endpoint's and the auto-approval cap. */
  lemma GateIsSingle(assets: Assets, campaigns: Campaigns, isAdmin: bool, id: int)
    ensures Gate(assets, campaigns, isAdmin, id).None? <==>
      Single(assets, campaigns, isAdmin, id) == Created && !ExceedsAutoCap(assets[id], campaigns[assets[id].campaign])
  {
  }

  /** Approving the ids one by one through the single endpoint; `None` if it ever refuses. */
  function ApproveSingly(assets: Assets, campaigns: Campaigns, isAdmin: bool, ids: seq<int>): (r: Option<Assets>) {
    if ids == [] then Some(assets)
    else
      var before := ApproveSingly(assets, campaigns, isAdmin, ids[..|ids| - 1]);
      var id := ids[|ids| - 1];
      if before.Some? && Single(before.value, campaigns, isAdmin, id) == Created then Some(Approve(before.value, id)) else None
  }

  /** A real run, whatever writes fail, does what approving its approved ids one by one would do. */
  lemma {:induction false} BatchIsSingles(assets: Assets, campaigns: Campaigns, isAdmin: bool, writeFails: nat -> bool, ids: seq<int>)
    ensures var o := RunBatch(assets, campaigns, isAdmin, false, writeFails, ids);
      ApproveSingly(assets, campaigns, isAdmin, o.report.approved) == Some(o.assets)
  {
    if ids != [] {
      var n := |ids| - 1;
      BatchIsSingles(assets, campaigns, isAdmin, writeFails, ids[..n]);
      var before := RunBatch(assets, campaigns, isAdmin, false, writeFails, ids[..n]);
      GateIsSingle(before.assets, campaigns, isAdmin, ids[n]);
      assert (before.report.approved + [ids[n]])[..|before.report.approved|] == before.report.approved;
    }
  }

  // ---------------------------------------------------------------------------
  // Dry run and real run
  // ---------------------------------------------------------------------------

  ghost predicate NoFailure(writeFails: nat -> bool) {
    forall n :: !writeFails(n)
  }

  lemma {:induction false} DryRunChangesNothing(assets: Assets, campaigns: Campaigns, isAdmin: bool, writeFails: nat -> bool, ids: seq<int>)
    ensures RunBatch(assets, campaigns, isAdmin, true, writeFails, ids).assets == assets
  {
    if ids != [] {
      DryRunChangesNothing(assets, campaigns, isAdmin, writeFails, ids[..|ids| - 1]);
    }
  }

  /** In a real run an id passes as it would have at the start, unless it was approved before. */
  lemma {:induction false} RealGate(assets: Assets, campaigns: Campaigns, isAdmin: bool, writeFails: nat -> bool, ids: seq<int>, id: int)
    requires NoFailure(writeFails)
    ensures var now, start := RunBatch(assets, campaigns, isAdmin, false, writeFails, ids).assets, Gate(assets, campaigns, isAdmin, id);
      && Gate(now, campaigns, isAdmin, id) == (if id in ids && start.None? then Some(WrongStatus(Approved)) else start)
      && (id !in ids && id in assets ==> id in now && now[id] == assets[id])
  {
    if ids != [] {
      var n := |ids| - 1;
      RealGate(assets, campaigns, isAdmin, writeFails, ids[..n], id);
      RealGate(assets, campaigns, isAdmin, writeFails, ids[..n], ids[n]);
      assert id in ids <==> id in ids[..n] || id == ids[n];
    }
  }

  /** Some id that passes the gates is asked for twice. */
  ghost predicate RepeatsApprovable(assets: Assets, campaigns: Campaigns, isAdmin: bool, ids: seq<int>) {
    exists i, j :: 0 <= i < j < |ids| && ids[i] == ids[j] && Gate(assets, campaigns, isAdmin, ids[i]).None?
  }

  lemma RepeatsLast(assets: Assets, campaigns: Campaigns, isAdmin: bool, ids: seq<int>)
    requires ids != []
    ensures var n := |ids| - 1;
      RepeatsApprovable(assets, campaigns, isAdmin, ids) <==>
      RepeatsApprovable(assets, campaigns, isAdmin, ids[..n]) || (ids[n] in ids[..n] && Gate(assets, campaigns, isAdmin, ids[n]).None?)
  {
    var n := |ids| - 1;
    assert forall i :: 0 <= i < n ==> ids[..n][i] == ids[i];
    if ids[n] in ids[..n] {
      var i :| 0 <= i < n && ids[..n][i] == ids[n];
      assert ids[i] == ids[n];
    }
  }

  lemma {:induction false} CompareRuns(assets: Assets, campaigns: Campaigns, isAdmin: bool, writeFails: nat -> bool, ids: seq<int>)
    requires NoFailure(writeFails)
    ensures var dry, live := RunBatch(assets, campaigns, isAdmin, true, writeFails, ids).report, RunBatch(assets, campaigns, isAdmin, false, writeFails, ids).report;
      && |live.approved| <= |dry.approved|
      && (RepeatsApprovable(assets, campaigns, isAdmin, ids) ==> |live.approved| < |dry.approved|)
      && (!RepeatsApprovable(assets, campaigns, isAdmin, ids) ==> live == dry)
  {
    if ids != [] {
      var n := |ids| - 1;
      CompareRuns(assets, campaigns, isAdmin, writeFails, ids[..n]);
      DryRunChangesNothing(assets, campaigns, isAdmin, writeFails, ids[..n]);
      RealGate(assets, campaigns, isAdmin, writeFails, ids[..n], ids[n]);
      RepeatsLast(assets, campaigns, isAdmin, ids);
    }
  }

  /**
   With no write failure, the dry run reports exactly what the real run will: same approved ids,
   same exclusions with reasons, same summary; that is, exactly when no id that passes the gates is
   asked for twice.
   */
  lemma DryRunIsExactIff(assets: Assets, campaigns: Campaigns, isAdmin: bool, writeFails: nat -> bool, ids: seq<int>)
    requires NoFailure(writeFails)
    ensures RunBatch(assets, campaigns, isAdmin, true, writeFails, ids).report == RunBatch(assets, campaigns, isAdmin, false, writeFails, ids).report
       <==> !RepeatsApprovable(assets, campaigns, isAdmin, ids)
  {
    CompareRuns(assets, campaigns, isAdmin, writeFails, ids);
  }

  /** A request that names a pending asset twice: the dry run promises two approvals. */
  lemma RepeatedIdMisleads() returns (assets: Assets, campaigns: Campaigns, ids: seq<int>)
    ensures RunBatch(assets, campaigns, false, true, (n: nat) => false, ids).report != RunBatch(assets, campaigns, false, false, (n: nat) => false, ids).report
  {
    var asset := Asset(1, PendingApproval, false, Snapshot(Missing, Amount(100.0), None), None, "email", "", map[]);
    assets, campaigns, ids := map[7 := asset], map[1 := Campaign(50.0, "USD", ApprovalPending)], [7, 7];
    assert Gate(assets, campaigns, false, ids[0]).None? && ids[0] == ids[1];
    DryRunIsExactIff(assets, campaigns, false, (n: nat) => false, ids);
  }
}
