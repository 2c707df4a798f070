/**
 The stored calendar: proposals and touchpoint rows of one tenant, changed by proposing,
 overriding, accepting and dragging. Every API step keeps the store legal, and one that fails
 leaves it untouched.
 */
module StrategyStore {
  import opened Sequences
  import opened Touchpoints
  import opened HardCaps
  import opened Calendar
  import opened FrequencyWarnings
  import opened TouchpointTable
  import opened ChannelOverrides

  /** `objective` says whether the campaign states one. */
  datatype Campaign = Campaign(start: int, end: int, objective: bool, audience: Option<int>)

  datatype Proposal = Proposal(campaign: int, version: nat, channels: seq<Channel>, accepted: bool)

  type Proposals = map<int, Proposal>

  datatype Reply =
    | Done | NotFound | Conflict | PreconditionFailed | PlannerFailed | Unprocessable | SeedFailed
    | CapViolation(violations: seq<Violation>)

  /** A request to propose carries what the planner answers, `None` when it raises. */
  datatype Request =
    | Propose(id: int, campaign: int, planned: Option<seq<Channel>>)
    | PatchOverrides(id: int, overrides: seq<ChannelOverride>)
    | Accept(id: int)
    | Drag(touchpoint: int, at: int, humanOverride: bool)

  // ---------------------------------------------------------------------------
  // What a legal store looks like
  // ---------------------------------------------------------------------------

  ghost predicate OneAccepted(proposals: Proposals) {
    forall p, q :: p in proposals && q in proposals && p != q && proposals[p].accepted && proposals[q].accepted ==>
      proposals[p].campaign != proposals[q].campaign
  }

  ghost predicate VersionsDistinct(proposals: Proposals) {
    forall p, q :: p in proposals && q in proposals && p != q && proposals[p].campaign == proposals[q].campaign ==>
      proposals[p].version != proposals[q].version
  }

  ghost predicate RowsAccepted(proposals: Proposals, rows: seq<Row>) {
    forall i :: 0 <= i < |rows| ==> rows[i].proposal in proposals && proposals[rows[i].proposal].accepted
  }

  ghost predicate CapsMet(proposals: Proposals, rows: seq<Row>, caps: seq<Cap>) {
    forall p :: p in proposals ==> MeetsCaps(CalendarOf(rows, p), caps)
  }

  /** Every proposal's stored warnings are what a recomputation writes. */
  ghost predicate WarningsCurrent(rows: seq<Row>) {
    forall p :: Recomputed(rows, p)
  }

  ghost predicate Legal(proposals: Proposals, rows: seq<Row>, caps: seq<Cap>) {
    && OneAccepted(proposals)
    && VersionsDistinct(proposals)
    && RowsAccepted(proposals, rows)
    && CapsMet(proposals, rows, caps)
    && WarningsCurrent(rows)
  }

  /** `v` is one above the campaign's highest version, or 1. */
  ghost predicate IsNextVersion(proposals: Proposals, campaign: int, v: nat) {
    && (forall q :: q in proposals && proposals[q].campaign == campaign ==> proposals[q].version < v)
    && (v == 1 || exists q :: q in proposals && proposals[q].campaign == campaign && proposals[q].version + 1 == v)
  }

  // ---------------------------------------------------------------------------
  // Accepting
  // ---------------------------------------------------------------------------

  /** Flags after accepting `p`: it is accepted and its campaign's other proposals are not. */
  function Promote(proposals: Proposals, p: int): (r: Proposals)
    requires p in proposals
  {
    map q | q in proposals ::
      if q == p then proposals[q].(accepted := true)
      else if proposals[q].campaign == proposals[p].campaign then proposals[q].(accepted := false)
      else proposals[q]
  }

  /** `p` is accepted, its campaign's other proposals are not, and nothing else has changed. */
  ghost predicate OnlyWinner(before: Proposals, after: Proposals, p: int)
    requires p in before
  {
    && after.Keys == before.Keys
    && forall q :: q in before ==> after[q] == Proposal(before[q].campaign, before[q].version, before[q].channels,
         q == p || (before[q].accepted && before[q].campaign != before[p].campaign))
  }

  function Rivals(proposals: Proposals, p: int): (r: set<int>)
    requires p in proposals
  {
    set q | q in proposals && q != p && proposals[q].campaign == proposals[p].campaign
  }

  /** The rows inserted for a plan: its touches in order, with the warnings detected on them. */
  ghost predicate SeededFrom(seeded: seq<Row>, p: int, planned: seq<Touch>) {
    && |seeded| == |planned|
    && (forall i :: 0 <= i < |planned| ==> seeded[i].proposal == p && planned[i].warning == None)
    && (forall i, j :: 0 <= i < j < |planned| ==> planned[i].at <= planned[j].at)
    && Map(seeded, TouchOf()) == Warned(planned, DEFAULT_CAP, DEFAULT_WINDOW)
  }

  lemma SeededTouch(seeded: seq<Row>, p: int, planned: seq<Touch>, i: nat)
    requires SeededFrom(seeded, p, planned) && i < |seeded|
    ensures FreshOf()(seeded[i]) == planned[i]
  {
    assert Map(seeded, TouchOf())[i] == Warned(planned, DEFAULT_CAP, DEFAULT_WINDOW)[i];
  }

  lemma SeededByRows(seeded: seq<Row>, p: int, planned: seq<Touch>, warned: seq<Touch>)
    requires SortedBy(planned, BY_TIME_THEN_POSITION) && forall k :: 0 <= k < |planned| ==> planned[k].warning == None
    requires warned == Warned(planned, DEFAULT_CAP, DEFAULT_WINDOW) && |seeded| == |warned|
    requires forall i :: 0 <= i < |seeded| ==> seeded[i].proposal == p && seeded[i].touch == warned[i]
    ensures SeededFrom(seeded, p, planned)
  {
    assert Map(seeded, TouchOf()) == warned;
    forall i, j | 0 <= i < j < |planned| ensures planned[i].at <= planned[j].at {
      assert Leq(BY_TIME_THEN_POSITION(planned[i]), BY_TIME_THEN_POSITION(planned[j]));
    }
  }

  lemma SeededCalendar(seeded: seq<Row>, p: int, planned: seq<Touch>)
    requires SeededFrom(seeded, p, planned)
    ensures Map(seeded, FreshOf()) == planned
  {
    forall i | 0 <= i < |seeded| ensures FreshOf()(seeded[i]) == planned[i] {
      SeededTouch(seeded, p, planned, i);
    }
  }

  lemma SeededRecomputed(rows: seq<Row>, p: int, seeded: seq<Row>, planned: seq<Touch>)
    requires SeededFrom(seeded, p, planned) && RowsOf(rows, p) == seeded
    ensures Recomputed(rows, p)
  {
    SeededCalendar(seeded, p, planned);
    forall i, j | 0 <= i < j < |seeded| ensures seeded[i].touch.at <= seeded[j].touch.at {
      SeededTouch(seeded, p, planned, i);
      SeededTouch(seeded, p, planned, j);
    }
    assert IsListing(rows, p, seeded) && AsDetected(seeded);
  }

  /** After the accept's writes: the seeded rows for `p`, none for its rivals, the old ones for everybody else. */
  lemma RowsAfterAccept(proposals: Proposals, rows: seq<Row>, p: int, seeded: seq<Row>, q: int)
    requires p in proposals && !proposals[p].accepted && RowsAccepted(proposals, rows)
    requires forall i :: 0 <= i < |seeded| ==> seeded[i].proposal == p
    ensures RowsOf(Without(rows, Rivals(proposals, p)) + seeded, q)
         == if q == p then seeded else if q in Rivals(proposals, p) then [] else RowsOf(rows, q)
  {
    RowsOfWithout(rows, Rivals(proposals, p), q);
    RowsOfOne(seeded, p, q);
    RowsOfAppend(Without(rows, Rivals(proposals, p)), seeded, q);
    if q == p {
      SelectNothing(rows, OfProposal(p));
    }
  }

  lemma EmptyMeetsCaps(caps: seq<Cap>)
    ensures MeetsCaps([], caps)
  {
    NothingToBreach([], caps);
    NoReportsIffMet([], [], caps);
  }

  /** Accepting keeps the store legal. */
  lemma AcceptIsLegal(proposals: Proposals, rows: seq<Row>, caps: seq<Cap>, p: int, seeded: seq<Row>, planned: seq<Touch>)
    requires Legal(proposals, rows, caps) && p in proposals && !proposals[p].accepted
    requires SeededFrom(seeded, p, planned) && MeetsCaps(planned, caps)
    ensures Legal(Promote(proposals, p), Without(rows, Rivals(proposals, p)) + seeded, caps)
  {
    PromoteKeepsFlags(proposals, p);
    AcceptedRows(proposals, rows, p, seeded);
    AcceptedCaps(proposals, rows, caps, p, seeded, planned);
    AcceptedWarnings(proposals, rows, p, seeded, planned);
  }

  lemma PromoteKeepsFlags(proposals: Proposals, p: int)
    requires OneAccepted(proposals) && VersionsDistinct(proposals) && p in proposals
    ensures OneAccepted(Promote(proposals, p)) && VersionsDistinct(Promote(proposals, p))
  {
  }

  lemma AcceptedRows(proposals: Proposals, rows: seq<Row>, p: int, seeded: seq<Row>)
    requires RowsAccepted(proposals, rows) && p in proposals && !proposals[p].accepted
    requires forall i :: 0 <= i < |seeded| ==> seeded[i].proposal == p
    ensures RowsAccepted(Promote(proposals, p), Without(rows, Rivals(proposals, p)) + seeded)
  {
    var kept := Without(rows, Rivals(proposals, p));
    WithoutMembers(rows, Rivals(proposals, p));
    forall k | 0 <= k < |kept| ensures kept[k].proposal in Promote(proposals, p) && Promote(proposals, p)[kept[k].proposal].accepted {
      assert kept[k] in rows;
    }
  }

  lemma AcceptedCaps(proposals: Proposals, rows: seq<Row>, caps: seq<Cap>, p: int, seeded: seq<Row>, planned: seq<Touch>)
    requires RowsAccepted(proposals, rows) && CapsMet(proposals, rows, caps)
    requires p in proposals && !proposals[p].accepted
    requires SeededFrom(seeded, p, planned) && MeetsCaps(planned, caps)
    ensures CapsMet(Promote(proposals, p), Without(rows, Rivals(proposals, p)) + seeded, caps)
  {
    EmptyMeetsCaps(caps);
    SeededCalendar(seeded, p, planned);
    forall q | q in proposals ensures MeetsCaps(CalendarOf(Without(rows, Rivals(proposals, p)) + seeded, q), caps) {
      RowsAfterAccept(proposals, rows, p, seeded, q);
    }
  }

  lemma AcceptedWarnings(proposals: Proposals, rows: seq<Row>, p: int, seeded: seq<Row>, planned: seq<Touch>)
    requires RowsAccepted(proposals, rows) && WarningsCurrent(rows)
    requires p in proposals && !proposals[p].accepted
    requires SeededFrom(seeded, p, planned)
    ensures WarningsCurrent(Without(rows, Rivals(proposals, p)) + seeded)
  {
    var after := Without(rows, Rivals(proposals, p)) + seeded;
    forall q ensures Recomputed(after, q) {
      RowsAfterAccept(proposals, rows, p, seeded, q);
      if q == p {
        SeededRecomputed(after, p, seeded, planned);
      } else if q in Rivals(proposals, p) {
        NoRowsRecomputed(after, q);
      } else {
        SameRowsRecomputed(after, rows, q);
      }
    }
  }

  /** Only the accepted proposal's rows are new, and only its rivals' rows are gone. */
  ghost predicate OthersKept(proposals: Proposals, before: seq<Row>, after: seq<Row>, p: int)
    requires p in proposals
  {
    forall q :: q != p ==>
      RowsOf(after, q) == if q in proposals && proposals[q].campaign == proposals[p].campaign then [] else RowsOf(before, q)
  }

  lemma AcceptEffects(
    proposals: Proposals, rows: seq<Row>, caps: seq<Cap>, p: int, seeded: seq<Row>, planned: seq<Touch>,
    newProposals: Proposals, newRows: seq<Row>)
    requires Legal(proposals, rows, caps) && p in proposals && !proposals[p].accepted
    requires SeededFrom(seeded, p, planned) && MeetsCaps(planned, caps)
    requires newProposals == Promote(proposals, p) && newRows == Without(rows, Rivals(proposals, p)) + seeded
    ensures Legal(newProposals, newRows, caps) && CalendarOf(newRows, p) == planned && OthersKept(proposals, rows, newRows, p)
  {
    AcceptIsLegal(proposals, rows, caps, p, seeded, planned);
    SeededCalendar(seeded, p, planned);
    forall q ensures RowsOf(newRows, q) == if q == p then seeded else if q in Rivals(proposals, p) then [] else RowsOf(rows, q) {
      RowsAfterAccept(proposals, rows, p, seeded, q);
    }
  }

  // ---------------------------------------------------------------------------
  // Dragging
  // ---------------------------------------------------------------------------

  /** Moving a touch within the caps and recomputing its calendar's warnings keeps the store legal. */
  lemma DragIsLegal(proposals: Proposals, rows: seq<Row>, caps: seq<Cap>, k: nat, touch: Touch, after: seq<Row>)
    requires Legal(proposals, rows, caps) && k < |rows|
    requires SameButWarnings(after, Overwrite(rows, k, touch))
    requires MeetsCaps(CalendarOf(Overwrite(rows, k, touch), rows[k].proposal), caps)
    requires forall i :: 0 <= i < |rows| && rows[i].proposal != rows[k].proposal ==> after[i] == rows[i]
    requires Recomputed(after, rows[k].proposal)
    ensures Legal(proposals, after, caps)
  {
    forall i | 0 <= i < |after| ensures after[i].proposal == rows[i].proposal {
      assert SameButWarning(after[i], Overwrite(rows, k, touch)[i]);
    }
    forall q ensures Recomputed(after, q) && (q in proposals ==> MeetsCaps(CalendarOf(after, q), caps)) {
      if q == rows[k].proposal {
        CalendarIgnoresWarnings(after, Overwrite(rows, k, touch), q);
      } else {
        RowsOfUntouched(after, rows, q);
        SameRowsRecomputed(after, rows, q);
      }
    }
  }

  /** `after` is `before` with row `k`, the named touchpoint, moved, and its own calendar's warnings recomputed. */
  ghost predicate Moved(before: seq<Row>, after: seq<Row>, touchpoint: int, k: nat, at: int, humanOverride: bool) {
    && k < |before| && before[k].id == touchpoint && |after| == |before|
    && (forall i :: 0 <= i < |before| && before[i].proposal != before[k].proposal ==> after[i] == before[i])
    && (forall i :: 0 <= i < |before| ==> StaysOrMoves(before[i], after[i], i == k, at, humanOverride))
  }

  /** Everything but the warning is kept, except for the time and the flag of the row that moves. */
  predicate StaysOrMoves(row: Row, after: Row, moves: bool, at: int, humanOverride: bool) {
    var t, u := row.touch, after.touch;
    && after.id == row.id && after.proposal == row.proposal
    && u.platform == t.platform && u.audience == t.audience && u.position == t.position
    && u.at == (if moves then at else t.at)
    && u.humanOverride == if moves then humanOverride else t.humanOverride
  }

  lemma MovedIs(before: seq<Row>, after: seq<Row>, touchpoint: int, k: nat, at: int, humanOverride: bool)
    requires k < |before| && before[k].id == touchpoint
    requires SameButWarnings(after, Overwrite(before, k, before[k].touch.(at := at, humanOverride := humanOverride)))
    requires forall i :: 0 <= i < |before| && before[i].proposal != before[k].proposal ==> after[i] == before[i]
    ensures Moved(before, after, touchpoint, k, at, humanOverride)
  {
    forall i | 0 <= i < |before| ensures StaysOrMoves(before[i], after[i], i == k, at, humanOverride) {
      assert SameButWarning(after[i], Overwrite(before, k, before[k].touch.(at := at, humanOverride := humanOverride))[i]);
    }
  }

  /** Moving row `k` would break a cap, and these are the exact reports. */
  ghost predicate MoveBreaks(rows: seq<Row>, caps: seq<Cap>, touchpoint: int, k: nat, at: int, humanOverride: bool, vs: seq<Violation>) {
    && k < |rows| && rows[k].id == touchpoint
    && var t := rows[k].touch;
       var moved := Row(touchpoint, rows[k].proposal, Touch(t.platform, t.audience, at, t.position, humanOverride, t.warning));
       var calendar := CalendarOf(rows[k := moved], rows[k].proposal);
       !MeetsCaps(calendar, caps) && vs != [] && Reports(vs, calendar, caps)
  }

  lemma DragKeepsIds(rows: seq<Row>, k: nat, touch: Touch, after: seq<Row>, next: int)
    requires k < |rows| && IdsBelow(rows, next) && SameButWarnings(after, Overwrite(rows, k, touch))
    ensures IdsBelow(after, next)
  {
    forall i | 0 <= i < |rows| ensures after[i].id == rows[i].id {
      assert SameButWarning(after[i], Overwrite(rows, k, touch)[i]);
    }
  }

  // ---------------------------------------------------------------------------
  // The store
  // ---------------------------------------------------------------------------

  /** The plan generated for a proposal, in its campaign's dates. */
  function PlanFor(proposal: Proposal, campaign: Campaign, caps: seq<Cap>): (r: seq<Touch>)
    requires campaign.audience.Some?
  {
    Plan(proposal.channels, caps, campaign.start, campaign.end, campaign.audience.value)
  }

  /** The campaign is there and has an audience. */
  predicate CanPlan(proposal: Proposal, campaigns: map<int, Campaign>) {
    proposal.campaign in campaigns && campaigns[proposal.campaign].audience.Some?
  }

  /** The calendar planned for a proposal fits under the tenant's caps. */
  ghost predicate Plannable(proposal: Proposal, campaigns: map<int, Campaign>, caps: seq<Cap>) {
    CanPlan(proposal, campaigns) && MeetsCaps(PlanFor(proposal, campaigns[proposal.campaign], caps), caps)
  }

  class Store {
    const campaigns: map<int, Campaign>
    const activeChannels: nat
    const caps: seq<Cap>
    var proposals: Proposals
    var rows: seq<Row>
    var nextId: int

    ghost predicate Valid()
      reads this
    {
      Legal(proposals, rows, caps) && IdsBelow(rows, nextId)
    }

    constructor (campaigns: map<int, Campaign>, activeChannels: nat, caps: seq<Cap>)
      ensures Valid() && proposals == map[] && rows == []
      ensures this.caps == caps && this.campaigns == campaigns && this.activeChannels == activeChannels
    {
      this.campaigns, this.activeChannels, this.caps := campaigns, activeChannels, caps;
      proposals, rows, nextId := map[], [], 0;
      new;
      forall p ensures Recomputed([], p) {
        NoRowsRecomputed([], p);
      }
    }

    method NextVersion(campaign: int) returns (v: nat)
      ensures IsNextVersion(proposals, campaign, v)
    {
      v := 1;
      var todo := proposals.Keys;
      while todo != {}
        invariant todo <= proposals.Keys
        invariant forall q :: q in proposals && q !in todo && proposals[q].campaign == campaign ==> proposals[q].version < v
        invariant v == 1 || exists q :: q in proposals && proposals[q].campaign == campaign && proposals[q].version + 1 == v
        decreases |todo|
      {
        var q := PickOne(todo);
        if proposals[q].campaign == campaign && proposals[q].version >= v {
          v := proposals[q].version + 1;
        }
        todo := todo - {q};
      }
    }

    /** `assert_preconditions`: an objective, an audience and an active channel. */
    predicate Proposable(campaign: int)
      requires campaign in campaigns
    {
      campaigns[campaign].objective && campaigns[campaign].audience.Some? && activeChannels > 0
    }

    /** A new version, not accepted; proposal ids are fresh primary keys. */
    method Propose(id: int, campaign: int, planned: Option<seq<Channel>>) returns (reply: Reply)
      requires Valid() && id !in proposals
      modifies this`proposals
      ensures Valid()
      ensures reply == if campaign !in campaigns then NotFound else if !(campaigns[campaign].objective && campaigns[campaign].audience.Some? && activeChannels > 0) then PreconditionFailed
                       else if planned.None? then PlannerFailed else Done
      ensures reply != Done ==> proposals == old(proposals)
      ensures reply == Done ==> id in proposals && proposals == old(proposals)[id := proposals[id]]
      ensures reply == Done ==>
        && IsNextVersion(old(proposals), campaign, proposals[id].version)
        && proposals[id] == Proposal(campaign, proposals[id].version, planned.value, false)
    {
      if campaign !in campaigns { return NotFound; }
      if !Proposable(campaign) { return PreconditionFailed; }
      if planned.None? { return PlannerFailed; }
      var v := NextVersion(campaign);
      EmptyMeetsCaps(caps);
      SelectNothing(rows, OfProposal(id));
      proposals := proposals[id := Proposal(campaign, v, planned.value, false)];
      reply := Done;
    }

    /** Overrides rewrite the channels of a proposal that is not accepted, all of them or none. */
    method PatchOverrides(id: int, overrides: seq<ChannelOverride>) returns (reply: Reply)
      requires Valid()
      modifies this`proposals
      ensures Valid()
      ensures reply == if id !in old(proposals) then NotFound else if old(proposals)[id].accepted then Conflict
                       else if exists j :: 0 <= j < |overrides| && !Fits(old(proposals)[id].channels, overrides[j]) then Unprocessable else Done
      ensures reply != Done ==> proposals == old(proposals)
      ensures reply == Done ==>
        && id in proposals && proposals == old(proposals)[id := old(proposals)[id].(channels := proposals[id].channels)]
        && Overridden(old(proposals)[id].channels, proposals[id].channels, overrides)
    {
      if id !in proposals { return NotFound; }
      if proposals[id].accepted { return Conflict; }
      var channels := PatchChannels(proposals[id].channels, overrides);
      PatchedIff(proposals[id].channels, overrides);
      if channels.None? { return Unprocessable; }
      proposals := proposals[id := proposals[id].(channels := channels.value)];
      reply := Done;
    }

    method Accept(id: int) returns (reply: Reply)
      requires Valid()
      modifies this
      ensures Valid()
      ensures reply != Done ==> proposals == old(proposals) && rows == old(rows)
      ensures reply == Done <==>
        id in old(proposals) && (old(proposals)[id].accepted || Plannable(old(proposals)[id], campaigns, caps))
      ensures reply == Done && old(proposals)[id].accepted ==> proposals == old(proposals) && rows == old(rows)
      ensures reply == Done && !old(proposals)[id].accepted ==>
        && OnlyWinner(old(proposals), proposals, id) && OthersKept(old(proposals), old(rows), rows, id)
        && CanPlan(old(proposals)[id], campaigns)
        && var campaign := campaigns[old(proposals)[id].campaign];
           multiset(CalendarOf(rows, id)) == multiset(Plan(old(proposals)[id].channels, caps, campaign.start, campaign.end, campaign.audience.value))
      ensures reply == NotFound <==> id !in old(proposals) || (!old(proposals)[id].accepted && old(proposals)[id].campaign !in campaigns)
      ensures reply == SeedFailed <==>
        && id in old(proposals) && !old(proposals)[id].accepted
        && old(proposals)[id].campaign in campaigns && campaigns[old(proposals)[id].campaign].audience == None
      ensures reply in {Done, NotFound, SeedFailed} || reply.CapViolation?
      ensures reply.CapViolation? ==>
        && id in proposals && CanPlan(proposals[id], campaigns)
        && reply.violations != [] && Reports(reply.violations, PlanFor(proposals[id], campaigns[proposals[id].campaign], caps), caps)
    {
      if id !in proposals { return NotFound; }
      var proposal := proposals[id];
      if proposal.accepted { return Done; }
      if proposal.campaign !in campaigns { return NotFound; }
      var campaign := campaigns[proposal.campaign];
      var seed, seeded, planned := SeedCalendar(id, proposal, campaign);
      if seed != Done { return seed; }
      Supersede(id, seeded, planned);
      reply := Done;
    }

    /** The accept transaction's writes: flags, deletion of the rivals' rows, insertion of the new ones. */
    method Supersede(id: int, seeded: seq<Row>, ghost planned: seq<Touch>)
      requires Valid() && id in proposals && !proposals[id].accepted
      requires SeededFrom(seeded, id, planned) && MeetsCaps(planned, caps)
      requires forall i :: 0 <= i < |seeded| ==> seeded[i].id == nextId + i
      modifies this
      ensures Valid() && CalendarOf(rows, id) == planned
      ensures proposals == Promote(old(proposals), id) && OnlyWinner(old(proposals), proposals, id)
      ensures OthersKept(old(proposals), old(rows), rows, id)
    {
      var newProposals, newRows := Promote(proposals, id), Without(rows, Rivals(proposals, id)) + seeded;
      AcceptEffects(proposals, rows, caps, id, seeded, planned, newProposals, newRows);
      WithoutKeepsIds(rows, Rivals(proposals, id), nextId);
      NewIds(Without(rows, Rivals(proposals, id)), seeded, nextId);
      Commit(newProposals, newRows, nextId + |seeded|);
    }

    /** A transaction's writes become visible together. */
    method Commit(newProposals: Proposals, newRows: seq<Row>, newId: int)
      requires Legal(newProposals, newRows, caps) && IdsBelow(newRows, newId)
      modifies this
      ensures Valid() && proposals == newProposals && rows == newRows && nextId == newId
    {
      proposals, rows, nextId := newProposals, newRows, newId;
    }

    /** The rows `seed_calendar` adds for a proposal, or why it cannot. */
    method SeedCalendar(id: int, proposal: Proposal, campaign: Campaign)
      returns (reply: Reply, seeded: seq<Row>, ghost planned: seq<Touch>)
      ensures reply == Done || reply == SeedFailed || reply.CapViolation?
      ensures reply == SeedFailed <==> campaign.audience.None?
      ensures reply == Done <==> campaign.audience.Some? && MeetsCaps(PlanFor(proposal, campaign, caps), caps)
      ensures reply.CapViolation? ==> campaign.audience.Some? && reply.violations != [] && Reports(reply.violations, PlanFor(proposal, campaign, caps), caps)
      ensures reply == Done ==>
        && SeededFrom(seeded, id, planned) && (forall i :: 0 <= i < |seeded| ==> seeded[i].id == nextId + i)
        && MeetsCaps(planned, caps) && multiset(planned) == multiset(PlanFor(proposal, campaign, caps))
    {
      seeded, planned := [], [];
      if campaign.audience.None? { return SeedFailed, [], []; }
      var laid := GenerateCalendar(proposal.channels, campaign.start, campaign.end, campaign.audience.value, caps);
      if laid.Raised? { return CapViolation(laid.violations), [], []; }
      planned := laid.touches;
      seeded := InsertRows(id, laid.touches);
      reply := Done;
    }

    method InsertRows(id: int, touches: seq<Touch>) returns (seeded: seq<Row>)
      requires SortedBy(touches, BY_TIME_THEN_POSITION) && forall k :: 0 <= k < |touches| ==> touches[k].warning == None
      ensures SeededFrom(seeded, id, touches) && forall i :: 0 <= i < |seeded| ==> seeded[i].id == nextId + i
    {
      var warned := DetectOn(touches);
      seeded := [];
      for n := 0 to |warned|
        invariant |seeded| == n
        invariant forall i :: 0 <= i < n ==> seeded[i] == Row(nextId + i, id, warned[i])
      {
        seeded := seeded + [Row(nextId + n, id, warned[n])];
      }
      SeededByRows(seeded, id, touches, warned);
    }

    method FindRow(touchpoint: int) returns (k: nat)
      ensures k <= |rows|
      ensures k < |rows| ==> rows[k].id == touchpoint
      ensures k == |rows| ==> forall i :: 0 <= i < |rows| ==> rows[i].id != touchpoint
    {
      k := 0;
      while k < |rows| && rows[k].id != touchpoint
        invariant k <= |rows|
        invariant forall i :: 0 <= i < k ==> rows[i].id != touchpoint
      {
        k := k + 1;
      }
    }

    /** Row ids are distinct, so at most one `k` can be meant. */
    method Drag(touchpoint: int, at: int, humanOverride: bool) returns (reply: Reply)
      requires Valid()
      modifies this
      ensures Valid() && proposals == old(proposals)
      ensures reply != Done ==> rows == old(rows)
      ensures reply == NotFound <==> forall i :: 0 <= i < |old(rows)| ==> old(rows)[i].id != touchpoint
      ensures reply == Done ==> exists k: nat :: Moved(old(rows), rows, touchpoint, k, at, humanOverride)
      ensures reply.CapViolation? ==> exists k: nat :: MoveBreaks(old(rows), caps, touchpoint, k, at, humanOverride, reply.violations)
      ensures reply.Done? || reply.NotFound? || reply.CapViolation?
    {
      var k := FindRow(touchpoint);
      if k == |rows| { return NotFound; }
      var p, touch := rows[k].proposal, rows[k].touch.(at := at, humanOverride := humanOverride);
      var moved := Overwrite(rows, k, touch);
      var violations := CheckMove(moved, p, caps);
      if violations != [] {
        assert MoveBreaks(rows, caps, touchpoint, k, at, humanOverride, violations);
        return CapViolation(violations);
      }
      var after := ReEvaluateWarnings(moved, p);
      DragIsLegal(proposals, rows, caps, k, touch, after);
      DragKeepsIds(rows, k, touch, after, nextId);
      MovedIs(rows, after, touchpoint, k, at, humanOverride);
      Commit(proposals, after, nextId);
      reply := Done;
    }

    /** One API request; a primary-key clash on a new proposal is refused by the database. */
    method Serve(request: Request) returns (reply: Reply)
      requires Valid()
      modifies this
      ensures Valid()
      ensures reply != Done ==> proposals == old(proposals) && rows == old(rows)
      ensures !request.Accept? && !request.Drag? ==> rows == old(rows)
      ensures request.Propose? ==> (reply == Done <==>
        request.id !in old(proposals) && request.campaign in campaigns && Proposable(request.campaign) && request.planned.Some?)
      ensures request.PatchOverrides? ==> (reply == Done <==>
        && request.id in old(proposals) && !old(proposals)[request.id].accepted
        && forall j :: 0 <= j < |request.overrides| ==> Fits(old(proposals)[request.id].channels, request.overrides[j]))
      ensures request.Accept? ==> (reply == Done <==>
        request.id in old(proposals) && (old(proposals)[request.id].accepted || Plannable(old(proposals)[request.id], campaigns, caps)))
      ensures request.Accept? && reply == Done ==>
        request.id in old(proposals) && OnlyWinner(old(proposals), proposals, request.id)
      ensures request.Drag? && reply == Done ==>
        proposals == old(proposals) && exists k: nat :: Moved(old(rows), rows, request.touchpoint, k, request.at, request.humanOverride)
    {
      match request
      case Propose(id, campaign, planned) =>
        if id in proposals { return Conflict; }
        reply := Propose(id, campaign, planned);
      case PatchOverrides(id, overrides) =>
        reply := PatchOverrides(id, overrides);
      case Accept(id) =>
        reply := Accept(id);
      case Drag(touchpoint, at, humanOverride) =>
        reply := Drag(touchpoint, at, humanOverride);
    }
  }

  /** Any run of requests against an empty store ends, and passes, only through legal states. */
  method ServeAll(campaigns: map<int, Campaign>, activeChannels: nat, caps: seq<Cap>, requests: seq<Request>)
    returns (proposals: Proposals, rows: seq<Row>)
    ensures Legal(proposals, rows, caps)
  {
    var store := new Store(campaigns, activeChannels, caps);
    for k := 0 to |requests|
      invariant store.Valid() && store.caps == caps
    {
      var reply := store.Serve(requests[k]);
    }
    proposals, rows := store.proposals, store.rows;
  }

  /** What legality means for a reader of the table. */
  lemma LegalWarnings(proposals: Proposals, rows: seq<Row>, caps: seq<Cap>, i: nat)
    requires Legal(proposals, rows, caps) && i < |rows|
    ensures Agrees(rows[i].touch.warning, NearRow(rows, rows[i]), DEFAULT_CAP, DEFAULT_WINDOW)
  {
    StoredWarningAgrees(rows, i);
  }
}
