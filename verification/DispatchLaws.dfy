/**
 What the steps of the dispatch machine do to the tables, stated on the tables: a paused campaign
 sends nothing until it is resumed, and scheduling, dispatching, pausing and resuming leave exactly
 the rows, statuses and slots that the audience, the provider and the clock call for.
 */
module DispatchLaws {
  import opened Sequences
  import opened Instants
  import opened Dispatch
  import opened DispatchSafety
  import opened SentCounts

  // ---------------------------------------------------------------------------
  // A paused campaign
  // ---------------------------------------------------------------------------

  /** `r` has the assets of `s`, each in its campaign. */
  ghost predicate SameCampaigns(s: State, r: State) {
    r.assets.Keys == s.assets.Keys && forall a :: a in s.assets ==> r.assets[a].campaign == s.assets[a].campaign
  }

  /** From `s` to `r` campaign `c` got no attempt row, and none of its assets was published. */
  ghost predicate SilentFor(s: State, r: State, c: int) {
    && SameCampaigns(s, r)
    && (forall k :: k in r.attempts && k !in s.attempts ==> k.asset in s.assets && s.assets[k.asset].campaign != c)
    && (forall a :: a in s.assets && s.assets[a].campaign == c && r.assets[a].status == Published ==> s.assets[a].status == Published)
  }

  ghost predicate IsPaused(s: State, c: int) {
    c in s.campaigns && s.campaigns[c] == Paused
  }

  lemma EmailSilent(s: State, cap: Option<FrequencyCap>, a: int, mail: Mail, c: int)
    requires IsPaused(s, c) && Delivers(s, cap, a, mail)
    ensures SilentFor(s, AfterEmail(s, cap, a, mail), c) && IsPaused(AfterEmail(s, cap, a, mail), c)
  {
    var r := AfterEmail(s, cap, a, mail);
    forall k | k in r.attempts && k !in s.attempts ensures k.asset in s.assets && s.assets[k.asset].campaign != c {
      NewSentRow(s, cap, a, mail, k);
    }
  }

  lemma SocialSilent(s: State, a: int, post: Post, c: int)
    requires IsPaused(s, c) && Posts(s, a, post)
    ensures SilentFor(s, AfterSocial(s, a, post), c) && IsPaused(AfterSocial(s, a, post), c)
  {
  }

  lemma QuietSilent(s: State, cap: Option<FrequencyCap>, op: Op, c: int)
    requires IsPaused(s, c) && !op.DispatchEmail? && !op.DispatchSocial? && !(op.Resume? && op.campaign == c)
    ensures SilentFor(s, Apply(s, cap, op), c) && IsPaused(Apply(s, cap, op), c)
  {
  }

  lemma PausedStep(s: State, cap: Option<FrequencyCap>, op: Op, c: int)
    requires IsPaused(s, c) && !(op.Resume? && op.campaign == c)
    ensures SilentFor(s, Apply(s, cap, op), c) && IsPaused(Apply(s, cap, op), c)
  {
    if op.DispatchEmail? {
      if Delivers(s, cap, op.asset, op.mail) { EmailSilent(s, cap, op.asset, op.mail, c); }
    } else if op.DispatchSocial? {
      if Posts(s, op.asset, op.post) { SocialSilent(s, op.asset, op.post, c); }
    } else {
      QuietSilent(s, cap, op, c);
    }
  }

  lemma SilentTransitive(s: State, t: State, r: State, c: int)
    requires SilentFor(s, t, c) && SilentFor(t, r, c)
    ensures SilentFor(s, r, c)
  {
  }

  lemma {:induction false} PausedRun(s: State, cap: Option<FrequencyCap>, ops: seq<Op>, n: nat, c: int)
    requires n <= |ops| && IsPaused(Execute(s, cap, ops[..n]), c)
    requires forall i :: n <= i < |ops| ==> !(ops[i].Resume? && ops[i].campaign == c)
    ensures SilentFor(Execute(s, cap, ops[..n]), Execute(s, cap, ops), c) && IsPaused(Execute(s, cap, ops), c)
    decreases |ops| - n
  {
    if n < |ops| {
      assert ops[..n + 1][..n] == ops[..n];
      PausedStep(Execute(s, cap, ops[..n]), cap, ops[n], c);
      PausedRun(s, cap, ops, n + 1, c);
      SilentTransitive(Execute(s, cap, ops[..n]), Execute(s, cap, ops[..n + 1]), Execute(s, cap, ops), c);
    } else {
      assert ops[..n] == ops;
    }
  }

  /**
   Over any run in which campaign `c` is paused at step `n` and not resumed after it, the campaign
   ends paused, none of its assets gets an attempt row after that step, and none is published.
   */
  lemma PausedSendsNothing(s: State, cap: Option<FrequencyCap>, ops: seq<Op>, n: nat, c: int)
    requires n < |ops| && ops[n] == Pause(c) && c in Execute(s, cap, ops[..n]).campaigns
    requires forall i :: n < i < |ops| ==> !(ops[i].Resume? && ops[i].campaign == c)
    ensures IsPaused(Execute(s, cap, ops), c)
    ensures SilentFor(Execute(s, cap, ops[..n]), Execute(s, cap, ops), c)
  {
    assert ops[..n + 1][..n] == ops[..n];
    var before, after := Execute(s, cap, ops[..n]), Execute(s, cap, ops[..n + 1]);
    assert IsPaused(after, c) && SilentFor(before, after, c);
    PausedRun(s, cap, ops, n + 1, c);
    SilentTransitive(before, after, Execute(s, cap, ops), c);
  }

  /** A pause changes the one status; assets and rows stay. */
  lemma PauseOutcome(s: State, cap: Option<FrequencyCap>, c: int)
    ensures var r := Apply(s, cap, Pause(c));
      && r.assets == s.assets && r.attempts == s.attempts && r.clock == s.clock && r.campaigns.Keys == s.campaigns.Keys
      && forall d :: d in s.campaigns ==> r.campaigns[d] == if d == c then Paused else s.campaigns[d]
  {
  }

  predicate SlotPassed(a: Asset, c: int, at: int) {
    a.campaign == c && a.status == Scheduled && a.slot.Some? && a.slot.value < at
  }

  /** Resuming a paused campaign sets it live and fails exactly its scheduled assets whose slot has passed. */
  lemma ResumeOutcome(s: State, cap: Option<FrequencyCap>, c: int, at: int)
    requires IsPaused(s, c) && s.clock <= at
    ensures var r := Apply(s, cap, Resume(c, at));
      && r.attempts == s.attempts && r.clock == at && r.campaigns.Keys == s.campaigns.Keys && r.assets.Keys == s.assets.Keys
      && (forall d :: d in s.campaigns ==> r.campaigns[d] == if d == c then Live else s.campaigns[d])
      && forall a :: a in s.assets ==> r.assets[a] == if SlotPassed(s.assets[a], c, at) then s.assets[a].(status := Failed) else s.assets[a]
  {
  }

  // ---------------------------------------------------------------------------
  // Scheduling
  // ---------------------------------------------------------------------------

  /** The slot of a scheduled asset: its touchpoint's time unless that is past, else the slot it had, else now. */
  ghost predicate RightSlot(before: Asset, slot: int, at: int, touchpoints: map<int, int>) {
    if before.touchpoint.Some? && before.touchpoint.value in touchpoints then
      && slot >= at && slot >= touchpoints[before.touchpoint.value]
      && (slot == at || slot == touchpoints[before.touchpoint.value])
    else if before.slot.Some? then slot == before.slot.value
    else slot == at
  }

  /** Approved assets of the campaign are scheduled in the right slot; nothing else of any asset changes. */
  ghost predicate RightlyScheduled(before: Asset, after: Asset, c: int, at: int, touchpoints: map<int, int>) {
    if before.campaign == c && before.status == Approved then
      && after.slot.Some? && RightSlot(before, after.slot.value, at, touchpoints)
      && after == before.(status := Scheduled, slot := after.slot)
    else after == before
  }

  lemma ScheduleOutcome(s: State, cap: Option<FrequencyCap>, c: int, at: int, touchpoints: map<int, int>)
    requires s.clock <= at
    ensures var r := Apply(s, cap, Schedule(c, at, touchpoints));
      && r.attempts == s.attempts && r.campaigns == s.campaigns && r.clock == at && r.assets.Keys == s.assets.Keys
      && forall a :: a in s.assets ==> RightlyScheduled(s.assets[a], r.assets[a], c, at, touchpoints)
  {
  }

  // ---------------------------------------------------------------------------
  // Email
  // ---------------------------------------------------------------------------

  ghost predicate IsAddressee(mail: Mail, email: string) {
    email != "" && exists i :: 0 <= i < |mail.members| && mail.members[i].email == email
  }

  /** Some row was sent to the address at or after `since`. */
  ghost predicate SentLately(table: Table, email: string, since: int) {
    exists k :: k in table && table[k].recipient == email && IsSent(table[k]) && table[k].sentAt.value >= since
  }

  /** What the provider's answer makes of an address it was handed. */
  ghost predicate AsAnswered(row: Attempt, email: string, provider: Provider, at: int) {
    && provider.Answer? && row.recipient == email
    && (row.status == Sent <==> email in provider.accepted)
    && (row.status == Suppressed <==> email !in provider.accepted && email in provider.rejected && provider.rejected[email] == "suppressed")
    && (row.status == Rejected <==> email !in provider.accepted && email in provider.rejected && provider.rejected[email] != "suppressed")
    && (row.status == NotAcknowledged <==> email !in provider.accepted && email !in provider.rejected)
    && row.sentAt == (if email in provider.accepted then Some(at) else None)
    && row.lastError == (if email in provider.accepted then "" else if email in provider.rejected then provider.rejected[email] else "no_provider_acknowledgement")
  }

  /** The cap's window already holds the maximum for this address. */
  ghost predicate UsedUp(table: Table, cap: Option<FrequencyCap>, email: string, at: int) {
    cap.Some? && |SentSince(table, email, at - cap.value.windowDays * DAY)| >= cap.value.maxSends
  }

  ghost predicate SkippedRow(row: Attempt, email: string) {
    row.recipient == email && row.status == Skipped && row.sentAt == None && row.lastError == "frequency_cap"
  }

  /** The row an address has after the dispatch, or none. */
  ghost predicate RightRow(s: State, cap: Option<FrequencyCap>, asset: int, mail: Mail, after: Table, email: string) {
    var k := ToRecipient(asset, email);
    var written := IsAddressee(mail, email) && !SentLately(s.attempts, email, mail.dedupAt - DAY);
    && (k in after <==> written)
    && (written && UsedUp(s.attempts, cap, email, mail.capAt) ==> SkippedRow(after[k], email))
    && (written && !UsedUp(s.attempts, cap, email, mail.capAt) ==> AsAnswered(after[k], email, mail.provider, mail.sendAt))
  }

  lemma {:induction false} UpsertAllError(table: Table, entries: seq<Entry>, k: Key, error: string)
    requires k !in table && k in UpsertAll(table, entries)
    requires forall i :: 0 <= i < |entries| && entries[i].key == k ==> entries[i].row.lastError == error
    ensures UpsertAll(table, entries)[k].lastError == error
  {
    var n := |entries| - 1;
    if k in UpsertAll(table, entries[..n]) {
      UpsertAllError(table, entries[..n], k, error);
    }
  }

  /** An asset about to be dispatched has no rows yet. */
  lemma NoRowsYet(s: State, cap: Option<FrequencyCap>, asset: int, mail: Mail)
    requires RowsOfPublished(s) && Delivers(s, cap, asset, mail)
    ensures NoRows(s.attempts, asset)
  {
  }

  lemma SentLatelyIff(table: Table, email: string, since: int)
    ensures SentLately(table, email, since) <==> SentSince(table, email, since) != {}
  {
    if SentLately(table, email, since) {
      var k :| k in table && table[k].recipient == email && IsSent(table[k]) && table[k].sentAt.value >= since;
      assert k in SentSince(table, email, since);
    }
    if SentSince(table, email, since) != {} {
      var k :| k in SentSince(table, email, since);
    }
  }

  lemma JudgedAs(s: State, cap: Option<FrequencyCap>, asset: int, mail: Mail, email: string)
    requires NoRows(s.attempts, asset) && email != ""
    ensures var lately, used := SentLately(s.attempts, email, mail.dedupAt - DAY), UsedUp(s.attempts, cap, email, mail.capAt);
      Judge(s.attempts, cap, asset, mail, email) == if lately then Dedup else if used then OverCap else Send
  {
    SentLatelyIff(s.attempts, email, mail.dedupAt - DAY);
  }

  /** The addresses with a verdict, as a list. */
  lemma ChosenIff(mail: Mail, table: Table, cap: Option<FrequencyCap>, asset: int, v: Verdict, email: string)
    ensures email in Select(mail.members, Chosen(table, cap, asset, mail, v))
       <==> Judge(table, cap, asset, mail, email) == v && exists i :: 0 <= i < |mail.members| && mail.members[i].email == email
  {
    var f := Chosen(table, cap, asset, mail, v);
    SelectContains(mail.members, f, email);
    forall i | 0 <= i < |mail.members|
      ensures f(mail.members[i]) == Some(email) <==> mail.members[i].email == email && Judge(table, cap, asset, mail, email) == v
    {
    }
  }

  /** A row is there exactly for the addresses that were sent to or skipped. */
  lemma RowThereIff(s: State, cap: Option<FrequencyCap>, asset: int, mail: Mail, email: string)
    requires NoRows(s.attempts, asset) && Delivers(s, cap, asset, mail)
    ensures ToRecipient(asset, email) in AfterEmail(s, cap, asset, mail).attempts
       <==> email in Select(mail.members, Chosen(s.attempts, cap, asset, mail, OverCap)) || email in Batch(s.attempts, cap, asset, mail)
  {
    var over, batch := Select(mail.members, Chosen(s.attempts, cap, asset, mail, OverCap)), Batch(s.attempts, cap, asset, mail);
    var entries, k := EntriesFor(s, cap, asset, mail), ToRecipient(asset, email);
    if k in UpsertAll(s.attempts, entries) {
      var i := UpsertAllAdds(s.attempts, entries, k);
      EntryAt(s, cap, asset, mail, i);
    }
    if email in over {
      var i :| 0 <= i < |over| && over[i] == email;
      WrittenAt(s, cap, asset, mail, i);
    } else if email in batch {
      var i :| 0 <= i < |batch| && batch[i] == email;
      WrittenAt(s, cap, asset, mail, |over| + i);
    }
  }

  lemma WrittenAt(s: State, cap: Option<FrequencyCap>, asset: int, mail: Mail, i: nat)
    requires Delivers(s, cap, asset, mail) && i < |EntriesFor(s, cap, asset, mail)|
    ensures EntriesFor(s, cap, asset, mail)[i].key in AfterEmail(s, cap, asset, mail).attempts
    ensures var over, batch := Select(mail.members, Chosen(s.attempts, cap, asset, mail, OverCap)), Batch(s.attempts, cap, asset, mail);
      && |EntriesFor(s, cap, asset, mail)| == |over| + |batch|
      && EntriesFor(s, cap, asset, mail)[i].key == ToRecipient(asset, if i < |over| then over[i] else batch[i - |over|])
  {
    UpsertAllHas(s.attempts, EntriesFor(s, cap, asset, mail), i);
    EntryAt(s, cap, asset, mail, i);
  }

  /** What the row says: the same for every entry of the address. */
  lemma RowSays(s: State, cap: Option<FrequencyCap>, asset: int, mail: Mail, email: string)
    requires NoRows(s.attempts, asset) && Delivers(s, cap, asset, mail)
    requires ToRecipient(asset, email) in AfterEmail(s, cap, asset, mail).attempts
    ensures var row := AfterEmail(s, cap, asset, mail).attempts[ToRecipient(asset, email)];
      && (Judge(s.attempts, cap, asset, mail, email) == OverCap ==> SkippedRow(row, email))
      && (Judge(s.attempts, cap, asset, mail, email) == Send ==> AsAnswered(row, email, mail.provider, mail.sendAt))
  {
    var entries, k := EntriesFor(s, cap, asset, mail), ToRecipient(asset, email);
    var i := UpsertAllAdds(s.attempts, entries, k);
    EntrySays(s, cap, asset, mail, i);
    forall j | 0 <= j < |entries| && entries[j].key == k ensures entries[j].row.lastError == entries[i].row.lastError {
      EntrySays(s, cap, asset, mail, j);
    }
    UpsertAllError(s.attempts, entries, k, entries[i].row.lastError);
  }

  lemma EntrySays(s: State, cap: Option<FrequencyCap>, asset: int, mail: Mail, i: nat)
    requires Delivers(s, cap, asset, mail) && i < |EntriesFor(s, cap, asset, mail)|
    ensures var e := EntriesFor(s, cap, asset, mail)[i];
      && e.key == ToRecipient(asset, e.row.recipient)
      && Judge(s.attempts, cap, asset, mail, e.row.recipient) in {OverCap, Send}
      && (Judge(s.attempts, cap, asset, mail, e.row.recipient) == OverCap ==> SkippedRow(e.row, e.row.recipient))
      && (Judge(s.attempts, cap, asset, mail, e.row.recipient) == Send ==> AsAnswered(e.row, e.row.recipient, mail.provider, mail.sendAt))
  {
    var over := Select(mail.members, Chosen(s.attempts, cap, asset, mail, OverCap));
    EntryAt(s, cap, asset, mail, i);
    if i >= |over| {
      BatchVerdict(s.attempts, cap, asset, mail, i - |over|);
    }
  }

  function AtKey(k: Key): Entry -> int {
    (e: Entry) => if e.key == k then 1 else 0
  }

  function SameEmail(email: string): string -> int {
    (e: string) => if e == email then 1 else 0
  }

  function WithEmail(email: string): Member -> int {
    (m: Member) => if m.email == email then 1 else 0
  }

  /** A row is tried once for each of its entries, unless the first try is already sent. */
  lemma {:induction false} UpsertAllTries(table: Table, entries: seq<Entry>, k: Key, sent: bool)
    requires k !in table
    requires forall i :: 0 <= i < |entries| && entries[i].key == k ==> entries[i].row.attemptCount == 1 && (entries[i].row.status == Sent <==> sent)
    ensures k !in UpsertAll(table, entries) ==> SumBy(entries, AtKey(k)) == 0
    ensures k in UpsertAll(table, entries) ==>
      && (UpsertAll(table, entries)[k].status == Sent <==> sent)
      && UpsertAll(table, entries)[k].attemptCount == if sent then 1 else SumBy(entries, AtKey(k))
  {
    if entries != [] {
      UpsertAllTries(table, entries[..|entries| - 1], k, sent);
    }
  }

  lemma {:induction false} EntriesByEmail(entries: seq<Entry>, emails: seq<string>, asset: int, email: string)
    requires |entries| == |emails| && forall i :: 0 <= i < |entries| ==> entries[i].key == ToRecipient(asset, emails[i])
    ensures SumBy(entries, AtKey(ToRecipient(asset, email))) == SumBy(emails, SameEmail(email))
  {
    if entries != [] {
      EntriesByEmail(entries[..|entries| - 1], emails[..|emails| - 1], asset, email);
    }
  }

  lemma {:induction false} ChosenTimes(members: seq<Member>, table: Table, cap: Option<FrequencyCap>, asset: int, mail: Mail, v: Verdict, email: string)
    ensures SumBy(Select(members, Chosen(table, cap, asset, mail, v)), SameEmail(email))
         == if Judge(table, cap, asset, mail, email) == v then SumBy(members, WithEmail(email)) else 0
  {
    if members != [] {
      var n := |members| - 1;
      ChosenTimes(members[..n], table, cap, asset, mail, v, email);
      var last := Pick(Chosen(table, cap, asset, mail, v)(members[n]));
      SumAppend(Select(members[..n], Chosen(table, cap, asset, mail, v)), last, SameEmail(email));
      if last != [] { SumSingle(members[n].email, SameEmail(email)); }
    }
  }

  lemma EntriesPerMember(s: State, cap: Option<FrequencyCap>, asset: int, mail: Mail, email: string)
    requires Delivers(s, cap, asset, mail) && Judge(s.attempts, cap, asset, mail, email) in {OverCap, Send}
    ensures SumBy(EntriesFor(s, cap, asset, mail), AtKey(ToRecipient(asset, email))) == SumBy(mail.members, WithEmail(email))
  {
    var over, batch := Select(mail.members, Chosen(s.attempts, cap, asset, mail, OverCap)), Batch(s.attempts, cap, asset, mail);
    var skips, sends := SkipEntries(asset, over), SendEntries(asset, mail, batch);
    SumAppend(skips, sends, AtKey(ToRecipient(asset, email)));
    EntriesByEmail(skips, over, asset, email);
    EntriesByEmail(sends, batch, asset, email);
    ChosenTimes(mail.members, s.attempts, cap, asset, mail, OverCap, email);
    ChosenTimes(mail.members, s.attempts, cap, asset, mail, Send, email);
  }

  /** A sent row counts one try; any other counts one for each member with its address. */
  lemma RowTries(s: State, cap: Option<FrequencyCap>, asset: int, mail: Mail, email: string)
    requires RowsOfPublished(s) && Delivers(s, cap, asset, mail)
    requires ToRecipient(asset, email) in AfterEmail(s, cap, asset, mail).attempts
    ensures var row := AfterEmail(s, cap, asset, mail).attempts[ToRecipient(asset, email)];
      row.attemptCount == if row.status == Sent then 1 else SumBy(mail.members, WithEmail(email))
  {
    NoRowsYet(s, cap, asset, mail);
    var entries, k := EntriesFor(s, cap, asset, mail), ToRecipient(asset, email);
    var i := UpsertAllAdds(s.attempts, entries, k);
    EntrySays(s, cap, asset, mail, i);
    forall j | 0 <= j < |entries| && entries[j].key == k
      ensures entries[j].row.attemptCount == 1 && (entries[j].row.status == Sent <==> entries[i].row.status == Sent)
    {
      EntrySays(s, cap, asset, mail, j);
      EntryAt(s, cap, asset, mail, j);
    }
    UpsertAllTries(s.attempts, entries, k, entries[i].row.status == Sent);
    EntriesPerMember(s, cap, asset, mail, email);
  }

  /** Every address ends up with exactly the row it should. */
  lemma EmailRow(s: State, cap: Option<FrequencyCap>, asset: int, mail: Mail, email: string)
    requires RowsOfPublished(s) && Delivers(s, cap, asset, mail)
    ensures RightRow(s, cap, asset, mail, AfterEmail(s, cap, asset, mail).attempts, email)
  {
    NoRowsYet(s, cap, asset, mail);
    RowThereIff(s, cap, asset, mail, email);
    ChosenIff(mail, s.attempts, cap, asset, OverCap, email);
    ChosenIff(mail, s.attempts, cap, asset, Send, email);
    if email != "" {
      JudgedAs(s, cap, asset, mail, email);
    }
    if ToRecipient(asset, email) in AfterEmail(s, cap, asset, mail).attempts {
      RowSays(s, cap, asset, mail, email);
    }
  }

  ghost predicate OtherRowsKept(before: Table, after: Table, asset: int) {
    forall k: Key :: !(k.ToRecipient? && k.asset == asset) ==> (k in after <==> k in before) && (k in before ==> after[k] == before[k])
  }

  /** All that an email dispatch does. */
  lemma EmailOutcome(s: State, cap: Option<FrequencyCap>, asset: int, mail: Mail)
    requires RowsOfPublished(s) && Delivers(s, cap, asset, mail)
    ensures var r := Apply(s, cap, Op.DispatchEmail(asset, mail));
      && (forall email :: RightRow(s, cap, asset, mail, r.attempts, email)) && OtherRowsKept(s.attempts, r.attempts, asset)
      && r.assets == s.assets[asset := s.assets[asset].(status := Published)] && r.clock == mail.sendAt
      && r.campaigns == (if mail.goesLive && s.campaigns[s.assets[asset].campaign] == ReadyToLaunch
                         then s.campaigns[s.assets[asset].campaign := Live] else s.campaigns)
  {
    var r := AfterEmail(s, cap, asset, mail);
    forall email ensures RightRow(s, cap, asset, mail, r.attempts, email) {
      EmailRow(s, cap, asset, mail, email);
    }
    EmailKeepsRows(s, cap, asset, mail);
    forall k | k in r.attempts && k !in s.attempts ensures k.ToRecipient? && k.asset == asset {
      NewSentRow(s, cap, asset, mail, k);
    }
  }

  /** All that a social dispatch does: a sent row for the page, or, when access was revoked, a pause. */
  lemma SocialOutcome(s: State, cap: Option<FrequencyCap>, asset: int, post: Post)
    requires RowsOfPublished(s) && Posts(s, asset, post)
    ensures var r, c := Apply(s, cap, Op.DispatchSocial(asset, post)), s.assets[asset].campaign;
      && r.clock == post.at
      && r.assets == s.assets[asset := s.assets[asset].(status := if post.revoked then Failed else Published)]
      && r.attempts == (if post.revoked then s.attempts
                        else s.attempts[ToChannel(asset, post.channel.value) := Attempt(post.page, Sent, Some(post.at), 1, "")])
      && r.campaigns == (if post.revoked then s.campaigns[c := Paused]
                         else if post.goesLive && s.campaigns[c] == ReadyToLaunch then s.campaigns[c := Live] else s.campaigns)
  {
  }

  /** A task has an effect exactly when its asset is a scheduled email of a known campaign that is not
      paused, the integration and the audience are there, and the provider, if needed, answers. */
  lemma EmailTakesEffectIff(s: State, cap: Option<FrequencyCap>, asset: int, mail: Mail)
    requires s.clock <= mail.dedupAt <= mail.capAt <= mail.sendAt
    ensures Apply(s, cap, Op.DispatchEmail(asset, mail)) != s <==>
      && asset in s.assets && s.assets[asset].status == Scheduled && s.assets[asset].kind == Email
      && s.assets[asset].campaign in s.campaigns && s.campaigns[s.assets[asset].campaign] != Paused
      && mail.connected && mail.hasAudience && (mail.provider.Answer? || Batch(s.attempts, cap, asset, mail) == [])
  {
    if Delivers(s, cap, asset, mail) {
      assert Apply(s, cap, Op.DispatchEmail(asset, mail)).assets[asset].status == Published;
    }
  }

  lemma SocialTakesEffectIff(s: State, cap: Option<FrequencyCap>, asset: int, post: Post)
    requires s.clock <= post.at
    ensures Apply(s, cap, Op.DispatchSocial(asset, post)) != s <==>
      && asset in s.assets && s.assets[asset].status == Scheduled && s.assets[asset].kind == Social
      && s.assets[asset].campaign in s.campaigns && s.campaigns[s.assets[asset].campaign] != Paused
      && post.channel.Some? && post.configured && !post.raised
  {
    if Posts(s, asset, post) {
      assert Apply(s, cap, Op.DispatchSocial(asset, post)).assets[asset].status in {Published, Failed};
    }
  }
}
