/**
 The distribution agent as a state machine over one tenant's tables: scheduling, email and
 social dispatch with the `dispatch_attempt` upsert, the 24-hour dedup net, the rolling
 frequency cap, pause and resume. Each step is one transaction; a step that raises rolls back.
 */
module Dispatch {
  import opened Sequences
  import opened Instants

  datatype Kind = Email | Social | OtherKind

  /** `InProduction` stands for every status before approval. */
  datatype AssetStatus = InProduction | Approved | Scheduled | Published | Failed | Archived

  datatype CampaignStatus = ReadyToLaunch | Live | Paused | OtherStatus

  datatype Asset = Asset(campaign: int, kind: Kind, status: AssetStatus, touchpoint: Option<int>, slot: Option<int>)

  /** The idempotency key: one row per asset and recipient, or per asset and channel. */
  datatype Key = ToRecipient(asset: int, email: string) | ToChannel(asset: int, channel: int)

  datatype AttemptStatus = Sent | Suppressed | Rejected | NotAcknowledged | Skipped

  datatype Attempt = Attempt(recipient: string, status: AttemptStatus, sentAt: Option<int>, attemptCount: nat, lastError: string)

  type Table = map<Key, Attempt>

  /** A tenant's enabled cap: both numbers are positive by the table's own checks. */
  datatype FrequencyCap = FrequencyCap(maxSends: int, windowDays: int)

  datatype State = State(assets: map<int, Asset>, campaigns: map<int, CampaignStatus>, attempts: Table, clock: int)

  /** Addresses are trimmed and lower-case; a member without one has the empty string. */
  datatype Member = Member(externalId: string, email: string)

  datatype Provider = Unreachable | Answer(accepted: set<string>, rejected: map<string, string>)

  /** What one email task meets: the members left by the A/B filter, the three clock readings, and
      what the provider and the go-live guard answer. */
  datatype Mail = Mail(
    connected: bool, hasAudience: bool, members: seq<Member>,
    dedupAt: int, capAt: int, sendAt: int, provider: Provider, goesLive: bool)

  datatype Post = Post(channel: Option<int>, page: string, configured: bool, revoked: bool, raised: bool, at: int, goesLive: bool)

  datatype Op =
    | Approve(asset: int)
    | Archive(asset: int)
    | Schedule(campaign: int, at: int, touchpoints: map<int, int>)
    | DispatchEmail(asset: int, mail: Mail)
    | DispatchSocial(asset: int, post: Post)
    | Pause(campaign: int)
    | Resume(campaign: int, at: int)

  // ---------------------------------------------------------------------------
  // The attempt table
  // ---------------------------------------------------------------------------

  predicate IsSent(row: Attempt) {
    row.status == Sent && row.sentAt.Some?
  }

  /** Insert, or on conflict count another try unless the row is already `sent`. */
  function Upsert(table: Table, key: Key, row: Attempt): (r: Table) {
    if key !in table then table[key := row]
    else if table[key].status == Sent then table
    else table[key := table[key].(attemptCount := table[key].attemptCount + 1, lastError := row.lastError)]
  }

  datatype Entry = Entry(key: Key, row: Attempt)

  function UpsertAll(table: Table, entries: seq<Entry>): (r: Table) {
    if entries == [] then table
    else
      var n := |entries| - 1;
      Upsert(UpsertAll(table, entries[..n]), entries[n].key, entries[n].row)
  }

  /** The rows a `sent_at >= since` query finds for a recipient, on any channel. */
  function SentSince(table: Table, recipient: string, since: int): (r: set<Key>) {
    set k | k in table && table[k].recipient == recipient && IsSent(table[k]) && table[k].sentAt.value >= since
  }

  predicate Recent(table: Table, asset: int, email: string, at: int) {
    || (exists k :: k in table && k.asset == asset && table[k].status == Sent && table[k].recipient == email)
    || SentSince(table, email, at - DAY) != {}
  }

  predicate Capped(table: Table, cap: Option<FrequencyCap>, email: string, at: int) {
    cap.Some? && |SentSince(table, email, at - cap.value.windowDays * DAY)| >= cap.value.maxSends
  }

  // ---------------------------------------------------------------------------
  // Email dispatch
  // ---------------------------------------------------------------------------

  datatype Verdict = NoAddress | Dedup | OverCap | Send

  function Judge(table: Table, cap: Option<FrequencyCap>, asset: int, mail: Mail, email: string): Verdict {
    if email == "" then NoAddress
    else if Recent(table, asset, email, mail.dedupAt) then Dedup
    else if Capped(table, cap, email, mail.capAt) then OverCap
    else Send
  }

  function Chosen(table: Table, cap: Option<FrequencyCap>, asset: int, mail: Mail, verdict: Verdict): Member -> Option<string> {
    (m: Member) => if Judge(table, cap, asset, mail, m.email) == verdict then Some(m.email) else None
  }

  /** The addresses handed to the provider, in audience order. */
  function Batch(table: Table, cap: Option<FrequencyCap>, asset: int, mail: Mail): (r: seq<string>) {
    Select(mail.members, Chosen(table, cap, asset, mail, Send))
  }

  function SkipEntry(asset: int, email: string): Entry {
    Entry(ToRecipient(asset, email), Attempt(email, Skipped, None, 1, "frequency_cap"))
  }

  function SendEntry(asset: int, mail: Mail, email: string): Entry
    requires mail.provider.Answer?
  {
    Entry(ToRecipient(asset, email),
      if email in mail.provider.accepted then Attempt(email, Sent, Some(mail.sendAt), 1, "")
      else if email in mail.provider.rejected then
        var reason := mail.provider.rejected[email];
        Attempt(email, if reason == "suppressed" then Suppressed else Rejected, None, 1, reason)
      else Attempt(email, NotAcknowledged, None, 1, "no_provider_acknowledgement"))
  }

  function SkipEntries(asset: int, emails: seq<string>): (r: seq<Entry>) {
    seq(|emails|, i requires 0 <= i < |emails| => SkipEntry(asset, emails[i]))
  }

  function SendEntries(asset: int, mail: Mail, emails: seq<string>): (r: seq<Entry>)
    requires emails != [] ==> mail.provider.Answer?
  {
    seq(|emails|, i requires 0 <= i < |emails| => SendEntry(asset, mail, emails[i]))
  }

  predicate InOrder(s: State, mail: Mail) {
    s.clock <= mail.dedupAt <= mail.capAt <= mail.sendAt
  }

  /** The task runs to the end: nothing it checks fails and the provider, if called, answers. */
  predicate Delivers(s: State, cap: Option<FrequencyCap>, asset: int, mail: Mail) {
    && InOrder(s, mail)
    && asset in s.assets && s.assets[asset].status == Scheduled
    && s.assets[asset].campaign in s.campaigns && s.campaigns[s.assets[asset].campaign] != Paused
    && s.assets[asset].kind == Email
    && mail.connected && mail.hasAudience
    && (Batch(s.attempts, cap, asset, mail) != [] ==> mail.provider.Answer?)
  }

  function AfterEmail(s: State, cap: Option<FrequencyCap>, asset: int, mail: Mail): (r: State)
    requires Delivers(s, cap, asset, mail)
  {
    var skips := SkipEntries(asset, Select(mail.members, Chosen(s.attempts, cap, asset, mail, OverCap)));
    var sends := SendEntries(asset, mail, Batch(s.attempts, cap, asset, mail));
    State(
      s.assets[asset := s.assets[asset].(status := Published)],
      MaybeLive(s.campaigns, s.assets[asset].campaign, mail.goesLive),
      UpsertAll(s.attempts, skips + sends),
      mail.sendAt)
  }

  function MaybeLive(campaigns: map<int, CampaignStatus>, c: int, goesLive: bool): map<int, CampaignStatus> {
    if goesLive && c in campaigns && campaigns[c] == ReadyToLaunch then campaigns[c := Live] else campaigns
  }

  // ---------------------------------------------------------------------------
  // The other steps
  // ---------------------------------------------------------------------------

  function ScheduledAsset(a: Asset, c: int, at: int, touchpoints: map<int, int>): Asset {
    if a.campaign != c || a.status != Approved then a
    else
      var slot :=
        if a.touchpoint.Some? && a.touchpoint.value in touchpoints then
          (if touchpoints[a.touchpoint.value] >= at then touchpoints[a.touchpoint.value] else at)
        else if a.slot.Some? then a.slot.value else at;
      a.(status := Scheduled, slot := Some(slot))
  }

  function ScheduleAll(assets: map<int, Asset>, c: int, at: int, touchpoints: map<int, int>): (r: map<int, Asset>) {
    map a | a in assets :: ScheduledAsset(assets[a], c, at, touchpoints)
  }

  predicate Elapsed(a: Asset, c: int, at: int) {
    a.campaign == c && a.status == Scheduled && a.slot.Some? && a.slot.value < at
  }

  function ResumedAsset(a: Asset, c: int, at: int): Asset {
    if Elapsed(a, c, at) then a.(status := Failed) else a
  }

  function ResumeAll(assets: map<int, Asset>, c: int, at: int): (r: map<int, Asset>) {
    map a | a in assets :: ResumedAsset(assets[a], c, at)
  }

  predicate Posts(s: State, asset: int, post: Post) {
    && s.clock <= post.at
    && asset in s.assets && s.assets[asset].status == Scheduled && s.assets[asset].kind == Social
    && post.channel.Some?
    && s.assets[asset].campaign in s.campaigns && s.campaigns[s.assets[asset].campaign] != Paused
    && post.configured && !post.raised
  }

  function AfterSocial(s: State, asset: int, post: Post): (r: State)
    requires Posts(s, asset, post)
  {
    var a := s.assets[asset];
    if post.revoked then
      s.(assets := s.assets[asset := a.(status := Failed)], campaigns := s.campaigns[a.campaign := Paused], clock := post.at)
    else
      State(
        s.assets[asset := a.(status := Published)],
        MaybeLive(s.campaigns, a.campaign, post.goesLive),
        Upsert(s.attempts, ToChannel(asset, post.channel.value), Attempt(post.page, Sent, Some(post.at), 1, "")),
        post.at)
  }

  /** One transaction; whatever raises, or would run the clock backwards, changes nothing. */
  function Apply(s: State, cap: Option<FrequencyCap>, op: Op): (r: State) {
    match op
    case Approve(a) =>
      if a in s.assets && s.assets[a].status == InProduction then s.(assets := s.assets[a := s.assets[a].(status := Approved)]) else s
    case Archive(a) =>
      if a in s.assets && s.assets[a].status != Published then s.(assets := s.assets[a := s.assets[a].(status := Archived)]) else s
    case Schedule(c, at, touchpoints) =>
      if at < s.clock then s
      else s.(assets := ScheduleAll(s.assets, c, at, touchpoints), clock := at)
    case DispatchEmail(a, mail) =>
      if Delivers(s, cap, a, mail) then AfterEmail(s, cap, a, mail) else s
    case DispatchSocial(a, post) =>
      if Posts(s, a, post) then AfterSocial(s, a, post) else s
    case Pause(c) =>
      if c in s.campaigns then s.(campaigns := s.campaigns[c := Paused]) else s
    case Resume(c, at) =>
      if at < s.clock || c !in s.campaigns || s.campaigns[c] != Paused then s
      else s.(assets := ResumeAll(s.assets, c, at), campaigns := s.campaigns[c := Live], clock := at)
  }

  function Execute(s: State, cap: Option<FrequencyCap>, ops: seq<Op>): (r: State) {
    if ops == [] then s else Apply(Execute(s, cap, ops[..|ops| - 1]), cap, ops[|ops| - 1])
  }
}
