/**
 The distribution agent's methods, step by step over mutable tables, each proved to perform
 exactly one `Apply` of the state machine.
 */
module Distributor {
  import opened Sequences
  import opened Instants
  import opened Dispatch
  import opened DispatchSafety

  /** What a dispatch reports: who was sent to, and why the others were not. */
  datatype Summary = Summary(sent: nat, suppressed: nat, rejected: nat, skipped: nat, deduped: nat, audienceSize: nat)

  datatype Reply = PreconditionFailed | CampaignPaused | ProviderDown | AccessRevoked | Dispatched(summary: Summary)

  function Emails(members: seq<Member>): (r: set<string>) {
    set m | m in members :: m.email
  }

  /** What a social task answers, by what it meets first. */
  function SocialReply(s: State, asset: int, post: Post): (r: Reply) {
    if asset !in s.assets || s.assets[asset].status != Scheduled || s.assets[asset].kind != Social then PreconditionFailed
    else if post.channel.None? || s.assets[asset].campaign !in s.campaigns then PreconditionFailed
    else if s.campaigns[s.assets[asset].campaign] == Paused then CampaignPaused
    else if !post.configured || post.raised then PreconditionFailed
    else if post.revoked then AccessRevoked
    else Dispatched(Summary(1, 0, 0, 0, 0, 1))
  }

  class Agent {
    const cap: Option<FrequencyCap>
    var assets: map<int, Asset>
    var campaigns: map<int, CampaignStatus>
    var attempts: Table
    var clock: int

    ghost function Abs(): (s: State)
      reads this
    {
      State(assets, campaigns, attempts, clock)
    }

    constructor (cap: Option<FrequencyCap>, assets: map<int, Asset>, campaigns: map<int, CampaignStatus>, clock: int)
      ensures this.cap == cap && Abs() == State(assets, campaigns, map[], clock)
      ensures Positive(cap) ==> Inv(Abs(), cap)
    {
      this.cap, this.assets, this.campaigns, this.attempts, this.clock := cap, assets, campaigns, map[], clock;
    }

    /** `_existing_attempts`: addresses this asset was already sent to. */
    method ExistingAttempts(asset: int) returns (r: set<string>)
      ensures forall e :: e in r <==> exists k :: k in attempts && k.asset == asset && attempts[k].status == Sent && attempts[k].recipient == e
    {
      r := set k | k in attempts && k.asset == asset && attempts[k].status == Sent :: attempts[k].recipient;
    }

    /** `_recent_sent_recipients`: candidates with a `sent` row in the last 24 hours. */
    method RecentSentRecipients(candidates: set<string>, at: int) returns (r: set<string>)
      ensures r == set e | e in candidates && SentSince(attempts, e, at - DAY) != {}
    {
      r := set e | e in candidates && SentSince(attempts, e, at - DAY) != {};
    }

    /** `_capped_recipients`: candidates that have used up the window's sends. */
    method CappedRecipients(candidates: set<string>, at: int) returns (r: set<string>)
      ensures r == set e | e in candidates && Capped(attempts, cap, e, at)
    {
      if cap.None? {
        r := {};
        assert r == set e | e in candidates && Capped(attempts, cap, e, at);
      } else {
        r := set e | e in candidates && |SentSince(attempts, e, at - cap.value.windowDays * DAY)| >= cap.value.maxSends;
      }
    }

    /** Sorts the members into the three lists, in audience order. */
    method Triage(asset: int, mail: Mail) returns (toSend: seq<string>, deduped: nat, capped: seq<string>)
      ensures toSend == Batch(attempts, cap, asset, mail)
      ensures capped == Select(mail.members, Chosen(attempts, cap, asset, mail, OverCap))
      ensures deduped == |Select(mail.members, Chosen(attempts, cap, asset, mail, Dedup))|
    {
      var candidates := Emails(mail.members);
      var existing := ExistingAttempts(asset);
      var recent := RecentSentRecipients(candidates, mail.dedupAt);
      var over := CappedRecipients(candidates, mail.capAt);
      forall i | 0 <= i < |mail.members|
        ensures FromSets(mail.members[i].email, existing, recent, over) == Judge(attempts, cap, asset, mail, mail.members[i].email)
      {
        assert mail.members[i].email in candidates;
      }
      toSend, deduped, capped := Sort(mail.members, existing, recent, over);
      SameChoice(mail.members, attempts, cap, asset, mail, existing, recent, over, Send);
      SameChoice(mail.members, attempts, cap, asset, mail, existing, recent, over, OverCap);
      SameChoice(mail.members, attempts, cap, asset, mail, existing, recent, over, Dedup);
    }

    /** The dispatch task. Its writes reach the tables only when it runs to the end. */
    method DispatchEmail(asset: int, mail: Mail) returns (reply: Reply)
      requires clock <= mail.dedupAt <= mail.capAt <= mail.sendAt
      modifies this
      ensures Abs() == Apply(old(Abs()), cap, Op.DispatchEmail(asset, mail))
      ensures reply.Dispatched? <==> Delivers(old(Abs()), cap, asset, mail)
      ensures reply.Dispatched? ==> Accounted(reply.summary, old(attempts), cap, asset, mail)
      ensures reply == CampaignPaused <==>
        && asset in old(assets) && old(assets)[asset].status == Scheduled
        && old(assets)[asset].campaign in old(campaigns) && old(campaigns)[old(assets)[asset].campaign] == Paused
      ensures reply == ProviderDown <==>
        && asset in old(assets) && old(assets)[asset].status == Scheduled && old(assets)[asset].kind == Email
        && old(assets)[asset].campaign in old(campaigns) && old(campaigns)[old(assets)[asset].campaign] != Paused
        && mail.connected && mail.hasAudience && mail.provider.Unreachable? && Batch(old(attempts), cap, asset, mail) != []
      ensures !reply.AccessRevoked?
    {
      if asset !in assets || assets[asset].status != Scheduled || assets[asset].campaign !in campaigns {
        return PreconditionFailed;
      }
      var campaign := assets[asset].campaign;
      if campaigns[campaign] == Paused { return CampaignPaused; }
      if assets[asset].kind != Email || !mail.connected || !mail.hasAudience { return PreconditionFailed; }
      var toSend, deduped, capped := Triage(asset, mail);
      if toSend != [] && mail.provider.Unreachable? { return ProviderDown; }
      var summary := Deliver(asset, mail, toSend, deduped, capped);
      reply := Dispatched(summary);
    }

    /** The task's writes, once everything it checks is in order and the provider has answered. */
    method Deliver(asset: int, mail: Mail, toSend: seq<string>, deduped: nat, capped: seq<string>) returns (summary: Summary)
      requires Delivers(Abs(), cap, asset, mail) && toSend == Batch(attempts, cap, asset, mail)
      requires capped == Select(mail.members, Chosen(attempts, cap, asset, mail, OverCap))
      requires deduped == |Select(mail.members, Chosen(attempts, cap, asset, mail, Dedup))|
      modifies this
      ensures Abs() == AfterEmail(old(Abs()), cap, asset, mail)
      ensures Accounted(summary, old(attempts), cap, asset, mail)
    {
      var campaign := assets[asset].campaign;
      var table, sent, suppressed, rejected := Record(attempts, asset, mail, toSend, capped);
      attempts := table;
      assets := assets[asset := assets[asset].(status := Published)];
      if campaigns[campaign] == ReadyToLaunch && mail.goesLive {
        campaigns := campaigns[campaign := Live];
      }
      clock := mail.sendAt;
      summary := Summary(sent, suppressed, rejected, |capped|, deduped, |mail.members|);
      VerdictsPartition(mail.members, old(attempts), cap, asset, mail);
    }

    method DispatchSocial(asset: int, post: Post) returns (reply: Reply)
      requires clock <= post.at
      modifies this
      ensures Abs() == Apply(old(Abs()), cap, Op.DispatchSocial(asset, post))
      ensures reply == SocialReply(old(Abs()), asset, post)
    {
      if asset !in assets || assets[asset].status != Scheduled || assets[asset].kind != Social || post.channel.None?
        || assets[asset].campaign !in campaigns {
        return PreconditionFailed;
      }
      var a := assets[asset];
      if campaigns[a.campaign] == Paused { return CampaignPaused; }
      if !post.configured || post.raised { return PreconditionFailed; }
      clock := post.at;
      if post.revoked {
        campaigns := campaigns[a.campaign := Paused];
        assets := assets[asset := a.(status := Failed)];
        return AccessRevoked;
      }
      attempts := Upsert(attempts, ToChannel(asset, post.channel.value), Attempt(post.page, Sent, Some(post.at), 1, ""));
      assets := assets[asset := a.(status := Published)];
      if campaigns[a.campaign] == ReadyToLaunch && post.goesLive {
        campaigns := campaigns[a.campaign := Live];
      }
      reply := Dispatched(Summary(1, 0, 0, 0, 0, 1));
    }

    /** `schedule_approved_assets`: every approved asset of the campaign gets its slot. */
    method Schedule(c: int, at: int, touchpoints: map<int, int>) returns (scheduled: set<int>)
      requires clock <= at
      modifies this
      ensures Abs() == Apply(old(Abs()), cap, Op.Schedule(c, at, touchpoints))
      ensures scheduled == set a | a in old(assets) && old(assets)[a].campaign == c && old(assets)[a].status == Approved
    {
      assets, scheduled := AssignSlots(assets, c, at, touchpoints);
      clock := at;
    }

    method Pause(c: int)
      modifies this
      ensures Abs() == Apply(old(Abs()), cap, Op.Pause(c))
    {
      if c in campaigns && campaigns[c] != Paused {
        campaigns := campaigns[c := Paused];
      }
      assert c in campaigns ==> old(campaigns)[c := Paused] == campaigns;
    }

    /** The `resume` transition with `resume_distribution_for_campaign`: elapsed slots fail. */
    method Resume(c: int, at: int) returns (requeued: nat, elapsed: nat)
      requires clock <= at
      modifies this
      ensures Abs() == Apply(old(Abs()), cap, Op.Resume(c, at))
      ensures c in old(campaigns) && old(campaigns)[c] == Paused ==>
        && elapsed == |set a | a in old(assets) && Elapsed(old(assets)[a], c, at)|
        && requeued == |set a | a in old(assets) && Requeued(old(assets)[a], c, at)|
      ensures !(c in old(campaigns) && old(campaigns)[c] == Paused) ==> requeued == elapsed == 0
    {
      requeued, elapsed := 0, 0;
      if c !in campaigns || campaigns[c] != Paused { return; }
      campaigns := campaigns[c := Live];
      clock := at;
      requeued := CountRequeued(assets, c, at);
      assets, elapsed := FailElapsed(assets, c, at);
    }
  }

  method AssignSlots(before: map<int, Asset>, c: int, at: int, touchpoints: map<int, int>)
    returns (after: map<int, Asset>, scheduled: set<int>)
    ensures after == ScheduleAll(before, c, at, touchpoints)
    ensures scheduled == set a | a in before && before[a].campaign == c && before[a].status == Approved
  {
    var todo := before.Keys;
    after, scheduled := before, {};
    while todo != {}
      invariant todo <= before.Keys && after.Keys == before.Keys
      invariant forall a :: a in before ==>
        after[a] == if a in todo then before[a] else ScheduledAsset(before[a], c, at, touchpoints)
      invariant scheduled == set a | a in before && a !in todo && before[a].campaign == c && before[a].status == Approved
      decreases |todo|
    {
      var a := PickOne(todo);
      if after[a].campaign == c && after[a].status == Approved {
        after := after[a := ScheduledAsset(after[a], c, at, touchpoints)];
        scheduled := scheduled + {a};
      }
      todo := todo - {a};
    }
    SameMap(after, ScheduleAll(before, c, at, touchpoints));
  }

  /** Still scheduled, its slot not passed, and of a kind that has a dispatcher. */
  predicate Requeued(a: Asset, c: int, at: int) {
    && a.campaign == c && a.status == Scheduled && (a.kind == Email || a.kind == Social)
    && (a.slot.Some? ==> a.slot.value >= at)
  }

  method CountRequeued(assets: map<int, Asset>, c: int, at: int) returns (n: nat)
    ensures n == |set a | a in assets && Requeued(assets[a], c, at)|
  {
    var todo := assets.Keys;
    ghost var done: set<int> := {};
    n := 0;
    while todo != {}
      invariant todo <= assets.Keys
      invariant done == set a | a in assets && a !in todo && Requeued(assets[a], c, at)
      invariant n == |done|
      decreases |todo|
    {
      var a := PickOne(todo);
      if Requeued(assets[a], c, at) {
        n := n + 1;
        done := done + {a};
      }
      todo := todo - {a};
    }
    assert done == set a | a in assets && Requeued(assets[a], c, at);
  }

  method FailElapsed(before: map<int, Asset>, c: int, at: int) returns (after: map<int, Asset>, elapsed: nat)
    ensures after == ResumeAll(before, c, at)
    ensures elapsed == |set a | a in before && Elapsed(before[a], c, at)|
  {
    var todo := before.Keys;
    ghost var failed: set<int> := {};
    after, elapsed := before, 0;
    while todo != {}
      invariant todo <= before.Keys && after.Keys == before.Keys
      invariant forall a :: a in before ==> after[a] == if a in todo then before[a] else ResumedAsset(before[a], c, at)
      invariant failed == set a | a in before && a !in todo && Elapsed(before[a], c, at)
      invariant elapsed == |failed|
      decreases |todo|
    {
      var a := PickOne(todo);
      if Elapsed(after[a], c, at) {
        after := after[a := after[a].(status := Failed)];
        elapsed := elapsed + 1;
        failed := failed + {a};
      }
      todo := todo - {a};
    }
    assert failed == set a | a in before && Elapsed(before[a], c, at);
    SameMap(after, ResumeAll(before, c, at));
  }

  /** The loop's decision, from the three sets read before it. */
  function FromSets(email: string, existing: set<string>, recent: set<string>, over: set<string>): Verdict {
    if email == "" then NoAddress
    else if email in existing || email in recent then Dedup
    else if email in over then OverCap
    else Send
  }

  function ChosenFromSets(existing: set<string>, recent: set<string>, over: set<string>, v: Verdict): Member -> Option<string> {
    (m: Member) => if FromSets(m.email, existing, recent, over) == v then Some(m.email) else None
  }

  lemma {:induction false} SameChoice(
    members: seq<Member>, table: Table, cap: Option<FrequencyCap>, asset: int, mail: Mail,
    existing: set<string>, recent: set<string>, over: set<string>, v: Verdict)
    requires forall i :: 0 <= i < |members| ==>
      FromSets(members[i].email, existing, recent, over) == Judge(table, cap, asset, mail, members[i].email)
    ensures Select(members, ChosenFromSets(existing, recent, over, v)) == Select(members, Chosen(table, cap, asset, mail, v))
  {
    if members != [] {
      SameChoice(members[..|members| - 1], table, cap, asset, mail, existing, recent, over, v);
    }
  }

  method Sort(members: seq<Member>, existing: set<string>, recent: set<string>, over: set<string>)
    returns (toSend: seq<string>, deduped: nat, capped: seq<string>)
    ensures toSend == Select(members, ChosenFromSets(existing, recent, over, Send))
    ensures capped == Select(members, ChosenFromSets(existing, recent, over, OverCap))
    ensures deduped == |Select(members, ChosenFromSets(existing, recent, over, Dedup))|
  {
    toSend, deduped, capped := [], 0, [];
    for n := 0 to |members|
      invariant toSend == Select(members[..n], ChosenFromSets(existing, recent, over, Send))
      invariant capped == Select(members[..n], ChosenFromSets(existing, recent, over, OverCap))
      invariant deduped == |Select(members[..n], ChosenFromSets(existing, recent, over, Dedup))|
    {
      var email := members[n].email;
      assert members[..n + 1][..n] == members[..n];
      if email == "" {
      } else if email in existing || email in recent {
        deduped := deduped + 1;
      } else if email in over {
        capped := capped + [email];
      } else {
        toSend := toSend + [email];
      }
    }
    assert members[..|members|] == members;
  }

  lemma {:induction false} UpsertAllAppend(table: Table, a: seq<Entry>, b: seq<Entry>)
    ensures UpsertAll(table, a + b) == UpsertAll(UpsertAll(table, a), b)
  {
    if b == [] {
      assert a + b == a;
    } else {
      UpsertAllAppend(table, a, b[..|b| - 1]);
      assert (a + b)[..|a + b| - 1] == a + b[..|b| - 1];
    }
  }

  method RecordSkips(before: Table, asset: int, capped: seq<string>) returns (table: Table)
    ensures table == UpsertAll(before, SkipEntries(asset, capped))
  {
    table := before;
    ghost var entries := SkipEntries(asset, capped);
    for n := 0 to |capped|
      invariant table == UpsertAll(before, entries[..n])
    {
      NextEntry(before, entries, n);
      table := Upsert(table, ToRecipient(asset, capped[n]), Attempt(capped[n], Skipped, None, 1, "frequency_cap"));
    }
    assert entries[..|capped|] == entries;
  }

  /** The addresses the provider accepted. */
  function Accepted(mail: Mail): string -> Option<string>
    requires mail.provider.Answer?
  {
    (e: string) => if e in mail.provider.accepted then Some(e) else None
  }

  /** Not accepted, and refused for being on the suppression list. */
  function OnSuppressionList(mail: Mail): string -> Option<string>
    requires mail.provider.Answer?
  {
    (e: string) =>
      if e !in mail.provider.accepted && e in mail.provider.rejected && mail.provider.rejected[e] == "suppressed" then Some(e) else None
  }

  /** The row for one acknowledged, refused or unanswered address. */
  method Outcome(asset: int, mail: Mail, email: string) returns (row: Attempt)
    requires mail.provider.Answer?
    ensures row == SendEntry(asset, mail, email).row
    ensures row.status == Sent <==> email in mail.provider.accepted
    ensures row.status == Suppressed <==> OnSuppressionList(mail)(email).Some?
  {
    if email in mail.provider.accepted {
      row := Attempt(email, Sent, Some(mail.sendAt), 1, "");
    } else if email in mail.provider.rejected {
      var reason := mail.provider.rejected[email];
      row := Attempt(email, if reason == "suppressed" then Suppressed else Rejected, None, 1, reason);
    } else {
      row := Attempt(email, NotAcknowledged, None, 1, "no_provider_acknowledgement");
    }
  }

  lemma NextEntry(table: Table, entries: seq<Entry>, n: nat)
    requires n < |entries|
    ensures UpsertAll(table, entries[..n + 1]) == Upsert(UpsertAll(table, entries[..n]), entries[n].key, entries[n].row)
  {
    assert entries[..n + 1][..n] == entries[..n];
  }

  lemma NextAccepted(emails: seq<string>, mail: Mail, n: nat)
    requires n < |emails| && mail.provider.Answer?
    ensures |Select(emails[..n + 1], Accepted(mail))|
         == |Select(emails[..n], Accepted(mail))| + if emails[n] in mail.provider.accepted then 1 else 0
    ensures |Select(emails[..n + 1], OnSuppressionList(mail))|
         == |Select(emails[..n], OnSuppressionList(mail))| + if OnSuppressionList(mail)(emails[n]).Some? then 1 else 0
  {
    assert emails[..n + 1][..n] == emails[..n];
  }

  method RecordSends(before: Table, asset: int, mail: Mail, toSend: seq<string>)
    returns (table: Table, sent: nat, suppressed: nat, rejected: nat)
    requires toSend != [] ==> mail.provider.Answer?
    ensures table == UpsertAll(before, SendEntries(asset, mail, toSend))
    ensures sent + suppressed + rejected == |toSend|
    ensures toSend != [] ==> sent == |Select(toSend, Accepted(mail))| && suppressed == |Select(toSend, OnSuppressionList(mail))|
  {
    table, sent, suppressed, rejected := before, 0, 0, 0;
    ghost var entries := SendEntries(asset, mail, toSend);
    for n := 0 to |toSend|
      invariant table == UpsertAll(before, entries[..n])
      invariant sent + suppressed + rejected == n
      invariant toSend != [] ==> sent == |Select(toSend[..n], Accepted(mail))|
      invariant toSend != [] ==> suppressed == |Select(toSend[..n], OnSuppressionList(mail))|
    {
      NextEntry(before, entries, n);
      NextAccepted(toSend, mail, n);
      var row := Outcome(asset, mail, toSend[n]);
      if row.status == Sent {
        sent := sent + 1;
      } else if row.status == Suppressed {
        suppressed := suppressed + 1;
      } else {
        rejected := rejected + 1;
      }
      table := Upsert(table, ToRecipient(asset, toSend[n]), row);
    }
    assert entries[..|toSend|] == entries && toSend[..|toSend|] == toSend;
  }

  /** Writes the skipped rows, then one row per address handed to the provider. */
  method Record(before: Table, asset: int, mail: Mail, toSend: seq<string>, capped: seq<string>)
    returns (table: Table, sent: nat, suppressed: nat, rejected: nat)
    requires toSend != [] ==> mail.provider.Answer?
    ensures table == UpsertAll(before, SkipEntries(asset, capped) + SendEntries(asset, mail, toSend))
    ensures sent + suppressed + rejected == |toSend|
    ensures toSend != [] ==> sent == |Select(toSend, Accepted(mail))| && suppressed == |Select(toSend, OnSuppressionList(mail))|
  {
    var skipped := RecordSkips(before, asset, capped);
    table, sent, suppressed, rejected := RecordSends(skipped, asset, mail, toSend);
    UpsertAllAppend(before, SkipEntries(asset, capped), SendEntries(asset, mail, toSend));
  }

  /** Every member is accounted for once: sent, suppressed, rejected, skipped, deduped or without an address. */
  ghost predicate Accounted(r: Summary, table: Table, cap: Option<FrequencyCap>, asset: int, mail: Mail) {
    var chosen := (v: Verdict) => Select(mail.members, Chosen(table, cap, asset, mail, v));
    && r.sent + r.suppressed + r.rejected == |chosen(Send)|
    && r.skipped == |chosen(OverCap)| && r.deduped == |chosen(Dedup)|
    && r.audienceSize == r.sent + r.suppressed + r.rejected + r.skipped + r.deduped + |chosen(NoAddress)|
    && (chosen(Send) != [] ==>
          && mail.provider.Answer? && r.sent == |Select(chosen(Send), Accepted(mail))|
          && r.suppressed == |Select(chosen(Send), OnSuppressionList(mail))|)
  }

  lemma {:induction false} VerdictsPartition(members: seq<Member>, table: Table, cap: Option<FrequencyCap>, asset: int, mail: Mail)
    ensures |members| == |Select(members, Chosen(table, cap, asset, mail, Send))| + |Select(members, Chosen(table, cap, asset, mail, OverCap))|
      + |Select(members, Chosen(table, cap, asset, mail, Dedup))| + |Select(members, Chosen(table, cap, asset, mail, NoAddress))|
  {
    if members != [] {
      VerdictsPartition(members[..|members| - 1], table, cap, asset, mail);
      OneVerdict(members[|members| - 1], table, cap, asset, mail);
    }
  }

  lemma OneVerdict(m: Member, table: Table, cap: Option<FrequencyCap>, asset: int, mail: Mail)
    ensures |Pick(Chosen(table, cap, asset, mail, Send)(m))| + |Pick(Chosen(table, cap, asset, mail, OverCap)(m))|
      + |Pick(Chosen(table, cap, asset, mail, Dedup)(m))| + |Pick(Chosen(table, cap, asset, mail, NoAddress)(m))| == 1
  {
    var v := Judge(table, cap, asset, mail, m.email);
    assert v == Send || v == OverCap || v == Dedup || v == NoAddress;
  }
}
