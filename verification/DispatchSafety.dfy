/**
 What every run of the distribution agent keeps: the frequency cap, the 24-hour net, one dispatch
 per asset, immutable attempt rows, and no send after an elapsed slot.
 */
module DispatchSafety {
  import opened Sequences
  import opened Instants
  import opened Dispatch

  // ---------------------------------------------------------------------------
  // The invariant
  // ---------------------------------------------------------------------------

  /** The email `sent` rows of a recipient in the closed window [from, from + width]. */
  function EmailSent(table: Table, email: string, from: int, width: int): (r: set<Key>) {
    set k | k in table && k.ToRecipient? && k.email == email && IsSent(table[k]) && from <= table[k].sentAt.value <= from + width
  }

  ghost predicate RowsOfPublished(s: State) {
    forall k :: k in s.attempts ==> k.asset in s.assets && s.assets[k.asset].status == Published
  }

  ghost predicate RowsStamped(s: State) {
    forall k :: k in s.attempts ==>
      && (k.ToRecipient? ==> s.attempts[k].recipient == k.email)
      && (s.attempts[k].status == Sent ==> s.attempts[k].sentAt.Some? && s.attempts[k].sentAt.value <= s.clock)
  }

  /** Two different email `sent` rows of one address, the second not earlier. */
  ghost predicate InTurn(table: Table, j: Key, k: Key) {
    && j in table && k in table && j != k && j.ToRecipient? && k.ToRecipient? && j.email == k.email
    && IsSent(table[j]) && IsSent(table[k]) && table[j].sentAt.value <= table[k].sentAt.value
  }

  /** Any two emails to one address are more than 24 hours apart. */
  ghost predicate DayApart(table: Table) {
    forall j, k :: InTurn(table, j, k) ==> table[k].sentAt.value - table[j].sentAt.value > DAY
  }

  /** No closed window of the cap's length holds more than its maximum of emails to one address. */
  ghost predicate CapHeld(table: Table, cap: FrequencyCap) {
    forall email, from :: |EmailSent(table, email, from, cap.windowDays * DAY)| <= cap.maxSends
  }

  ghost predicate Inv(s: State, cap: Option<FrequencyCap>) {
    && RowsOfPublished(s)
    && RowsStamped(s)
    && DayApart(s.attempts)
    && (cap.Some? ==> CapHeld(s.attempts, cap.value))
  }

  ghost predicate Positive(cap: Option<FrequencyCap>) {
    cap.Some? ==> cap.value.maxSends > 0 && cap.value.windowDays > 0
  }

  // ---------------------------------------------------------------------------
  // Upserting the rows of an asset that has none
  // ---------------------------------------------------------------------------

  ghost predicate NoRows(table: Table, asset: int) {
    forall k :: k in table ==> k.asset != asset
  }

  ghost predicate EntriesOf(entries: seq<Entry>, asset: int) {
    forall i :: 0 <= i < |entries| ==>
      entries[i].key == ToRecipient(asset, entries[i].row.recipient)
  }

  /** The row stored under `k` carries the status and stamp of one of the entries. */
  ghost predicate FromEntry(row: Attempt, k: Key, entries: seq<Entry>, i: nat) {
    && i < |entries| && entries[i].key == k
    && row.status == entries[i].row.status && row.sentAt == entries[i].row.sentAt && row.recipient == entries[i].row.recipient
  }

  lemma {:induction false} UpsertAllKeeps(table: Table, entries: seq<Entry>, asset: int)
    requires NoRows(table, asset) && EntriesOf(entries, asset)
    ensures forall k :: k in table ==> k in UpsertAll(table, entries) && UpsertAll(table, entries)[k] == table[k]
  {
    if entries != [] {
      UpsertAllKeeps(table, entries[..|entries| - 1], asset);
    }
  }

  lemma {:induction false} UpsertAllAdds(table: Table, entries: seq<Entry>, k: Key) returns (i: nat)
    requires k !in table && k in UpsertAll(table, entries)
    ensures FromEntry(UpsertAll(table, entries)[k], k, entries, i)
  {
    var n := |entries| - 1;
    if k in UpsertAll(table, entries[..n]) {
      i := UpsertAllAdds(table, entries[..n], k);
    } else {
      i := n;
    }
  }

  // ---------------------------------------------------------------------------
  // An email dispatch
  // ---------------------------------------------------------------------------

  function EntriesFor(s: State, cap: Option<FrequencyCap>, asset: int, mail: Mail): (r: seq<Entry>)
    requires Delivers(s, cap, asset, mail)
  {
    SkipEntries(asset, Select(mail.members, Chosen(s.attempts, cap, asset, mail, OverCap)))
    + SendEntries(asset, mail, Batch(s.attempts, cap, asset, mail))
  }

  lemma {:induction false} ChosenVerdict(members: seq<Member>, table: Table, cap: Option<FrequencyCap>, asset: int, mail: Mail, v: Verdict, i: nat)
    requires i < |Select(members, Chosen(table, cap, asset, mail, v))|
    ensures Judge(table, cap, asset, mail, Select(members, Chosen(table, cap, asset, mail, v))[i]) == v
  {
    var n, f := |members| - 1, Chosen(table, cap, asset, mail, v);
    if i < |Select(members[..n], f)| {
      ChosenVerdict(members[..n], table, cap, asset, mail, v, i);
    }
  }

  /** A `sent` row appears only for an address the dispatch judged sendable, stamped at its send time. */
  lemma NewSentRow(s: State, cap: Option<FrequencyCap>, asset: int, mail: Mail, k: Key)
    requires Delivers(s, cap, asset, mail) && k !in s.attempts && k in AfterEmail(s, cap, asset, mail).attempts
    ensures var row := AfterEmail(s, cap, asset, mail).attempts[k];
      && k == ToRecipient(asset, row.recipient)
      && (row.status == Sent ==> row.sentAt == Some(mail.sendAt) && Judge(s.attempts, cap, asset, mail, row.recipient) == Send)
  {
    var i := UpsertAllAdds(s.attempts, EntriesFor(s, cap, asset, mail), k);
    EntryIsSound(s, cap, asset, mail, i);
  }

  lemma EntryIsSound(s: State, cap: Option<FrequencyCap>, asset: int, mail: Mail, i: nat)
    requires Delivers(s, cap, asset, mail) && i < |EntriesFor(s, cap, asset, mail)|
    ensures var e := EntriesFor(s, cap, asset, mail)[i];
      && e.key == ToRecipient(asset, e.row.recipient)
      && (e.row.status == Sent ==> e.row.sentAt == Some(mail.sendAt) && Judge(s.attempts, cap, asset, mail, e.row.recipient) == Send)
  {
    var over := Select(mail.members, Chosen(s.attempts, cap, asset, mail, OverCap));
    var batch := Batch(s.attempts, cap, asset, mail);
    if i < |over| {
      assert EntriesFor(s, cap, asset, mail)[i] == SkipEntry(asset, over[i]);
    } else {
      var email := batch[i - |over|];
      assert EntriesFor(s, cap, asset, mail)[i] == SendEntry(asset, mail, email);
      BatchVerdict(s.attempts, cap, asset, mail, i - |over|);
      SendEntryIsSound(asset, mail, email);
    }
  }

  lemma BatchVerdict(table: Table, cap: Option<FrequencyCap>, asset: int, mail: Mail, i: nat)
    requires i < |Batch(table, cap, asset, mail)|
    ensures Judge(table, cap, asset, mail, Batch(table, cap, asset, mail)[i]) == Send
  {
    ChosenVerdict(mail.members, table, cap, asset, mail, Send, i);
  }

  lemma SendEntryIsSound(asset: int, mail: Mail, email: string)
    requires mail.provider.Answer?
    ensures var e := SendEntry(asset, mail, email);
      e.key == ToRecipient(asset, email) && e.row.recipient == email && (e.row.status == Sent ==> e.row.sentAt == Some(mail.sendAt))
  {
  }

  lemma EmailKeepsRows(s: State, cap: Option<FrequencyCap>, asset: int, mail: Mail)
    requires RowsOfPublished(s) && Delivers(s, cap, asset, mail)
    ensures var t := AfterEmail(s, cap, asset, mail).attempts;
      forall k :: k in s.attempts ==> k in t && t[k] == s.attempts[k]
  {
    var entries := EntriesFor(s, cap, asset, mail);
    forall i | 0 <= i < |entries| ensures entries[i].key == ToRecipient(asset, entries[i].row.recipient) {
      EntryIsSound(s, cap, asset, mail, i);
    }
    UpsertAllKeeps(s.attempts, entries, asset);
  }

  lemma EmailKeepsDayApart(s: State, cap: Option<FrequencyCap>, asset: int, mail: Mail)
    requires Inv(s, cap) && Delivers(s, cap, asset, mail)
    ensures DayApart(AfterEmail(s, cap, asset, mail).attempts)
  {
    var t := AfterEmail(s, cap, asset, mail).attempts;
    EmailKeepsRows(s, cap, asset, mail);
    forall j, k | InTurn(t, j, k) ensures t[k].sentAt.value - t[j].sentAt.value > DAY {
      if k !in s.attempts {
        NewSentRow(s, cap, asset, mail, k);
        if j !in s.attempts {
          NewSentRow(s, cap, asset, mail, j);
        } else {
          NotRecent(s, cap, asset, mail, k.email, j);
        }
      } else if j !in s.attempts {
        NewSentRow(s, cap, asset, mail, j);
        NotRecent(s, cap, asset, mail, j.email, k);
      }
    }
  }

  /** What the dedup query rules out for an address it lets through. */
  lemma NotRecent(s: State, cap: Option<FrequencyCap>, asset: int, mail: Mail, email: string, j: Key)
    requires RowsStamped(s) && Judge(s.attempts, cap, asset, mail, email) == Send
    requires j in s.attempts && IsSent(s.attempts[j]) && s.attempts[j].recipient == email
    ensures s.attempts[j].sentAt.value < mail.dedupAt - DAY
  {
    assert j !in SentSince(s.attempts, email, mail.dedupAt - DAY);
  }

  lemma {:induction false} SubsetSize<T>(a: set<T>, b: set<T>)
    requires a <= b
    ensures |a| <= |b|
  {
    if a != {} {
      var x :| x in a;
      SubsetSize(a - {x}, b - {x});
    }
  }

  lemma EmailKeepsCap(s: State, cap: FrequencyCap, asset: int, mail: Mail)
    requires Inv(s, Some(cap)) && Delivers(s, Some(cap), asset, mail) && cap.maxSends > 0
    ensures CapHeld(AfterEmail(s, Some(cap), asset, mail).attempts, cap)
  {
    var t, width := AfterEmail(s, Some(cap), asset, mail).attempts, cap.windowDays * DAY;
    forall email, from ensures |EmailSent(t, email, from, width)| <= cap.maxSends {
      WindowAfterEmail(s, cap, asset, mail, email, from);
    }
  }

  /** A window gains at most the new row, and then everything else in it was seen by the cap query. */
  lemma WindowAfterEmail(s: State, cap: FrequencyCap, asset: int, mail: Mail, email: string, from: int)
    requires Inv(s, Some(cap)) && Delivers(s, Some(cap), asset, mail) && cap.maxSends > 0
    ensures |EmailSent(AfterEmail(s, Some(cap), asset, mail).attempts, email, from, cap.windowDays * DAY)| <= cap.maxSends
  {
    var t, width := AfterEmail(s, Some(cap), asset, mail).attempts, cap.windowDays * DAY;
    var now, before := EmailSent(t, email, from, width), EmailSent(s.attempts, email, from, width);
    var added := ToRecipient(asset, email);
    GainsAtMostOne(s, Some(cap), asset, mail, email, from, width);
    if added in now {
      NewRowHasRoom(s, cap, asset, mail, email, from);
      SizeWithout(now, added);
      SubsetSize(now - {added}, before);
    } else {
      assert now - {added} == now;
      SubsetSize(now, before);
    }
  }

  lemma SizeWithout<T>(a: set<T>, x: T)
    requires x in a
    ensures |a| == |a - {x}| + 1
  {
  }

  /** A row is only added to a window whose earlier rows leave room for it. */
  lemma NewRowHasRoom(s: State, cap: FrequencyCap, asset: int, mail: Mail, email: string, from: int)
    requires Inv(s, Some(cap)) && Delivers(s, Some(cap), asset, mail)
    requires ToRecipient(asset, email) !in s.attempts
    requires ToRecipient(asset, email) in EmailSent(AfterEmail(s, Some(cap), asset, mail).attempts, email, from, cap.windowDays * DAY)
    ensures |EmailSent(s.attempts, email, from, cap.windowDays * DAY)| < cap.maxSends
  {
    var width := cap.windowDays * DAY;
    NewSentRow(s, Some(cap), asset, mail, ToRecipient(asset, email));
    SeenByCapQuery(s, email, from, width, mail.capAt);
    SubsetSize(EmailSent(s.attempts, email, from, width), SentSince(s.attempts, email, mail.capAt - width));
  }

  lemma GainsAtMostOne(s: State, cap: Option<FrequencyCap>, asset: int, mail: Mail, email: string, from: int, width: int)
    requires RowsOfPublished(s) && Delivers(s, cap, asset, mail)
    ensures ToRecipient(asset, email) !in s.attempts
    ensures EmailSent(AfterEmail(s, cap, asset, mail).attempts, email, from, width) - {ToRecipient(asset, email)}
         <= EmailSent(s.attempts, email, from, width)
  {
    var t := AfterEmail(s, cap, asset, mail).attempts;
    EmailKeepsRows(s, cap, asset, mail);
    forall k | k in EmailSent(t, email, from, width) && k != ToRecipient(asset, email)
      ensures k in EmailSent(s.attempts, email, from, width)
    {
      if k !in s.attempts {
        NewSentRow(s, cap, asset, mail, k);
      }
    }
  }

  lemma SeenByCapQuery(s: State, email: string, from: int, width: int, at: int)
    requires RowsStamped(s) && at - width <= from
    ensures EmailSent(s.attempts, email, from, width) <= SentSince(s.attempts, email, at - width)
  {
  }

  lemma EmailKeepsInv(s: State, cap: Option<FrequencyCap>, asset: int, mail: Mail)
    requires Inv(s, cap) && Positive(cap) && Delivers(s, cap, asset, mail)
    ensures Inv(AfterEmail(s, cap, asset, mail), cap)
  {
    var r := AfterEmail(s, cap, asset, mail);
    EmailKeepsRows(s, cap, asset, mail);
    forall k | k in r.attempts && k !in s.attempts
      ensures k == ToRecipient(asset, r.attempts[k].recipient)
      ensures r.attempts[k].status == Sent ==> r.attempts[k].sentAt == Some(mail.sendAt)
    {
      NewSentRow(s, cap, asset, mail, k);
    }
    EmailKeepsDayApart(s, cap, asset, mail);
    if cap.Some? {
      EmailKeepsCap(s, cap.value, asset, mail);
    }
  }

  // ---------------------------------------------------------------------------
  // The other steps leave the email rows alone
  // ---------------------------------------------------------------------------

  lemma SocialKeepsInv(s: State, cap: Option<FrequencyCap>, asset: int, post: Post)
    requires Inv(s, cap) && Posts(s, asset, post)
    ensures Inv(AfterSocial(s, asset, post), cap)
  {
    var r := AfterSocial(s, asset, post);
    forall j, k | InTurn(r.attempts, j, k) ensures InTurn(s.attempts, j, k) {
    }
    if cap.Some? {
      forall email, from
        ensures |EmailSent(r.attempts, email, from, cap.value.windowDays * DAY)| <= cap.value.maxSends
      {
        assert EmailSent(r.attempts, email, from, cap.value.windowDays * DAY)
            == EmailSent(s.attempts, email, from, cap.value.windowDays * DAY);
      }
    }
  }

  lemma ApplyKeepsInv(s: State, cap: Option<FrequencyCap>, op: Op)
    requires Inv(s, cap) && Positive(cap)
    ensures Inv(Apply(s, cap, op), cap)
  {
    match op
    case DispatchEmail(a, mail) =>
      if Delivers(s, cap, a, mail) { EmailKeepsInv(s, cap, a, mail); }
    case DispatchSocial(a, post) =>
      if Posts(s, a, post) { SocialKeepsInv(s, cap, a, post); }
    case Approve(_) =>
    case Archive(_) =>
    case Schedule(_, _, _) =>
    case Pause(_) =>
    case Resume(_, _) =>
  }

  /** The cap and the 24-hour net hold after every run, from any state in which they hold. */
  lemma {:induction false} RunKeepsInv(s: State, cap: Option<FrequencyCap>, ops: seq<Op>)
    requires Inv(s, cap) && Positive(cap)
    ensures Inv(Execute(s, cap, ops), cap)
  {
    if ops != [] {
      RunKeepsInv(s, cap, ops[..|ops| - 1]);
      ApplyKeepsInv(Execute(s, cap, ops[..|ops| - 1]), cap, ops[|ops| - 1]);
    }
  }

  // ---------------------------------------------------------------------------
  // What never changes back
  // ---------------------------------------------------------------------------

  predicate Retired(status: AssetStatus) {
    status == Published || status == Failed || status == Archived
  }

  /** `r` is a later state than `s`: rows are immutable, retired assets stay retired, time moves on. */
  ghost predicate Later(s: State, r: State) {
    && s.clock <= r.clock
    && (forall k :: k in s.attempts ==> k in r.attempts && r.attempts[k] == s.attempts[k])
    && (forall a :: a in s.assets ==> a in r.assets)
    && (forall a :: a in s.assets && Retired(s.assets[a].status) ==> Retired(r.assets[a].status))
    && (forall a :: a in s.assets && Retired(s.assets[a].status) ==>
          (r.assets[a].status == Published <==> s.assets[a].status == Published))
  }

  lemma EmailIsLater(s: State, cap: Option<FrequencyCap>, a: int, mail: Mail)
    requires RowsOfPublished(s) && Delivers(s, cap, a, mail)
    ensures Later(s, AfterEmail(s, cap, a, mail))
  {
    EmailKeepsRows(s, cap, a, mail);
  }

  lemma SocialIsLater(s: State, a: int, post: Post)
    requires RowsOfPublished(s) && Posts(s, a, post)
    ensures Later(s, AfterSocial(s, a, post))
  {
  }

  lemma QuietIsLater(s: State, cap: Option<FrequencyCap>, op: Op)
    requires RowsOfPublished(s) && !op.DispatchEmail? && !op.DispatchSocial?
    ensures Later(s, Apply(s, cap, op))
  {
  }

  lemma ApplyIsLater(s: State, cap: Option<FrequencyCap>, op: Op)
    requires RowsOfPublished(s)
    ensures Later(s, Apply(s, cap, op))
  {
    if op.DispatchEmail? {
      if Delivers(s, cap, op.asset, op.mail) { EmailIsLater(s, cap, op.asset, op.mail); }
    } else if op.DispatchSocial? {
      if Posts(s, op.asset, op.post) { SocialIsLater(s, op.asset, op.post); }
    } else {
      QuietIsLater(s, cap, op);
    }
  }

  lemma {:induction false} RunIsLater(s: State, cap: Option<FrequencyCap>, ops: seq<Op>, n: nat)
    requires Inv(s, cap) && Positive(cap) && n <= |ops|
    ensures Later(Execute(s, cap, ops[..n]), Execute(s, cap, ops))
    decreases |ops| - n
  {
    if n < |ops| {
      RunKeepsInv(s, cap, ops[..n]);
      ApplyIsLater(Execute(s, cap, ops[..n]), cap, ops[n]);
      assert ops[..n + 1][..n] == ops[..n];
      RunIsLater(s, cap, ops, n + 1);
    } else {
      assert ops[..n] == ops;
    }
  }

  /** Step `n` of a run really dispatches the email asset `a`. */
  ghost predicate DispatchesAt(s: State, cap: Option<FrequencyCap>, ops: seq<Op>, n: nat, a: int) {
    && n < |ops| && ops[n].DispatchEmail? && ops[n].asset == a
    && Delivers(Execute(s, cap, ops[..n]), cap, a, ops[n].mail)
  }

  /** However many duplicate tasks are queued, an asset is dispatched by email at most once. */
  lemma DispatchedOnce(s: State, cap: Option<FrequencyCap>, ops: seq<Op>, m: nat, n: nat, a: int)
    requires Inv(s, cap) && Positive(cap) && DispatchesAt(s, cap, ops, m, a) && DispatchesAt(s, cap, ops, n, a)
    ensures m == n
  {
    if m < n {
      PublishedByDispatch(s, cap, ops, m, n, a);
    } else if n < m {
      PublishedByDispatch(s, cap, ops, n, m, a);
    }
  }

  lemma PublishedByDispatch(s: State, cap: Option<FrequencyCap>, ops: seq<Op>, m: nat, n: nat, a: int)
    requires Inv(s, cap) && Positive(cap) && DispatchesAt(s, cap, ops, m, a) && m < n <= |ops|
    ensures var r := Execute(s, cap, ops[..n]); a in r.assets && r.assets[a].status == Published
  {
    assert ops[..n][..m + 1] == ops[..m + 1] && ops[..m + 1][..m] == ops[..m];
    RunIsLater(s, cap, ops[..n], m + 1);
  }

  /** An asset whose slot passed during a pause never gets an attempt row after the resume. */
  lemma ElapsedIsNeverSent(s: State, cap: Option<FrequencyCap>, ops: seq<Op>, n: nat, a: int, c: int, at: int)
    requires Inv(s, cap) && Positive(cap) && n < |ops| && ops[n] == Resume(c, at)
    requires var r := Execute(s, cap, ops[..n]);
      c in r.campaigns && r.campaigns[c] == Paused && r.clock <= at && a in r.assets && Elapsed(r.assets[a], c, at)
    ensures NoRows(Execute(s, cap, ops).attempts, a)
  {
    assert ops[..n + 1][..n] == ops[..n];
    assert Execute(s, cap, ops[..n + 1]).assets[a].status == Failed;
    RunIsLater(s, cap, ops, n + 1);
    RunKeepsInv(s, cap, ops);
  }

  /** A row, once written, is never changed by anything that follows. */
  lemma RowsAreImmutable(s: State, cap: Option<FrequencyCap>, ops: seq<Op>, n: nat, k: Key)
    requires Inv(s, cap) && Positive(cap) && n <= |ops| && k in Execute(s, cap, ops[..n]).attempts
    ensures k in Execute(s, cap, ops).attempts
    ensures Execute(s, cap, ops).attempts[k] == Execute(s, cap, ops[..n]).attempts[k]
  {
    RunIsLater(s, cap, ops, n);
  }

  // ---------------------------------------------------------------------------
  // One batch
  // ---------------------------------------------------------------------------

  /** Two members of the audience share a sendable address. */
  ghost predicate SharedAddress(table: Table, cap: Option<FrequencyCap>, asset: int, mail: Mail, i: nat, j: nat) {
    && i < j < |mail.members| && mail.members[i].email == mail.members[j].email
    && Judge(table, cap, asset, mail, mail.members[i].email) == Send
  }

  ghost predicate NoRepeats<S, T>(s: seq<S>, f: S -> Option<T>) {
    forall i, j :: 0 <= i < j < |s| && f(s[i]).Some? ==> f(s[i]) != f(s[j])
  }

  lemma NoRepeatsAppend<S, T>(s: seq<S>, x: S, f: S -> Option<T>)
    ensures NoRepeats(s + [x], f) <==>
      NoRepeats(s, f) && (f(x).Some? ==> forall i :: 0 <= i < |s| ==> f(s[i]) != f(x))
  {
    var t := s + [x];
    assert forall i :: 0 <= i < |s| ==> t[i] == s[i];
    if NoRepeats(t, f) {
      forall i, j | 0 <= i < j < |s| && f(s[i]).Some? ensures f(s[i]) != f(s[j]) {
        assert f(t[i]) != f(t[j]);
      }
      forall i | 0 <= i < |s| && f(x).Some? ensures f(s[i]) != f(x) {
        assert t[|s|] == x;
        assert f(t[i]).Some? ==> f(t[i]) != f(t[|s|]);
      }
    }
  }

  lemma {:induction false} SelectDistinct<S, T>(s: seq<S>, f: S -> Option<T>)
    ensures Distinct(Select(s, f)) <==> NoRepeats(s, f)
  {
    if s != [] {
      var n := |s| - 1;
      SelectDistinct(s[..n], f);
      NoRepeatsAppend(s[..n], s[n], f);
      assert s == s[..n] + [s[n]];
      if f(s[n]).Some? {
        var x := f(s[n]).value;
        SelectContains(s[..n], f, x);
        DistinctAppend(Select(s[..n], f), x);
        assert Select(s, f) == Select(s[..n], f) + [x];
        assert Distinct(Select(s, f)) <==> NoRepeats(s[..n] + [s[n]], f);
      } else {
        assert Select(s, f) == Select(s[..n], f);
      }
    }
  }

  lemma {:induction false} SelectContains<S, T>(s: seq<S>, f: S -> Option<T>, x: T)
    ensures x !in Select(s, f) <==> forall i :: 0 <= i < |s| ==> f(s[i]) != Some(x)
  {
    if s != [] {
      var n := |s| - 1;
      SelectContains(s[..n], f, x);
      assert forall i :: 0 <= i < n ==> s[..n][i] == s[i];
      if f(s[n]) != Some(x) && x !in Select(s[..n], f) {
        assert forall i :: 0 <= i < |s| ==> f(s[i]) != Some(x);
      }
    }
  }

  lemma DistinctAppend<T>(s: seq<T>, x: T)
    ensures Distinct(s + [x]) <==> Distinct(s) && x !in s
  {
    if Distinct(s + [x]) {
      forall i, j | 0 <= i < j < |s| ensures s[i] != s[j] {
        assert (s + [x])[i] != (s + [x])[j];
      }
      forall i | 0 <= i < |s| ensures s[i] != x {
        assert (s + [x])[i] != (s + [x])[|s|];
      }
    }
  }

  /** The provider is handed an address twice exactly when two members share one: the table then
      holds a single row for both. */
  lemma BatchIsDistinctIff(table: Table, cap: Option<FrequencyCap>, asset: int, mail: Mail)
    ensures Distinct(Batch(table, cap, asset, mail)) <==> !exists i: nat, j: nat :: SharedAddress(table, cap, asset, mail, i, j)
  {
    var f := Chosen(table, cap, asset, mail, Send);
    SelectDistinct(mail.members, f);
    forall i, j | 0 <= i < j < |mail.members|
      ensures SharedAddress(table, cap, asset, mail, i, j) <==> f(mail.members[i]).Some? && f(mail.members[i]) == f(mail.members[j])
    {
    }
  }
}
