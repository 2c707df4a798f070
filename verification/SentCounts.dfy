/**
 What the dispatch summary's `sent` counts: one per address handed to the provider and accepted,
 which is one per new row exactly when no accepted address is shared by two members.
 */
module SentCounts {
  import opened Sequences
  import opened Instants
  import opened Dispatch
  import opened DispatchSafety
  import opened Distributor

  /** The `sent` rows a dispatch adds. */
  function NewSent(before: Table, after: Table): (r: set<Key>) {
    set k | k in after && k !in before && after[k].status == Sent
  }

  function ToSet<T>(s: seq<T>): (r: set<T>) {
    set x | x in s
  }

  lemma {:induction false} ToSetSize<T>(s: seq<T>)
    ensures |ToSet(s)| <= |s| && (|ToSet(s)| == |s| <==> Distinct(s))
  {
    if s != [] {
      var n := |s| - 1;
      ToSetSize(s[..n]);
      DistinctAppend(s[..n], s[n]);
      assert s == s[..n] + [s[n]];
      assert ToSet(s) == ToSet(s[..n]) + {s[n]};
    } else {
      assert ToSet(s) == {};
    }
  }

  lemma {:induction false} UpsertAllHas(table: Table, entries: seq<Entry>, i: nat)
    requires i < |entries|
    ensures entries[i].key in UpsertAll(table, entries)
  {
    var n := |entries| - 1;
    if i < n {
      UpsertAllHas(table, entries[..n], i);
    }
  }

  /** Capped addresses first, then the batch. */
  lemma EntryAt(s: State, cap: Option<FrequencyCap>, asset: int, mail: Mail, i: nat)
    requires Delivers(s, cap, asset, mail) && i < |EntriesFor(s, cap, asset, mail)|
    ensures var over, batch := Select(mail.members, Chosen(s.attempts, cap, asset, mail, OverCap)), Batch(s.attempts, cap, asset, mail);
      var e := EntriesFor(s, cap, asset, mail)[i];
      && |EntriesFor(s, cap, asset, mail)| == |over| + |batch|
      && (i < |over| ==> e == SkipEntry(asset, over[i]) && Judge(s.attempts, cap, asset, mail, over[i]) == OverCap)
      && (i >= |over| ==> mail.provider.Answer? && e == SendEntry(asset, mail, batch[i - |over|]))
  {
    var over := Select(mail.members, Chosen(s.attempts, cap, asset, mail, OverCap));
    if i < |over| {
      ChosenVerdict(mail.members, s.attempts, cap, asset, mail, OverCap, i);
    }
  }

  /** A new `sent` row is one of the batch's accepted addresses. */
  lemma NewSentIsAccepted(s: State, cap: Option<FrequencyCap>, asset: int, mail: Mail, k: Key)
    requires Delivers(s, cap, asset, mail) && k in NewSent(s.attempts, AfterEmail(s, cap, asset, mail).attempts)
    ensures k.ToRecipient? && k.asset == asset && k.email in Batch(s.attempts, cap, asset, mail)
    ensures mail.provider.Answer? && k.email in mail.provider.accepted
  {
    var i := UpsertAllAdds(s.attempts, EntriesFor(s, cap, asset, mail), k);
    EntryAt(s, cap, asset, mail, i);
  }

  lemma AcceptedIsNewSent(s: State, cap: Option<FrequencyCap>, asset: int, mail: Mail, email: string)
    requires RowsOfPublished(s) && Delivers(s, cap, asset, mail) && mail.provider.Answer?
    requires email in Batch(s.attempts, cap, asset, mail) && email in mail.provider.accepted
    ensures ToRecipient(asset, email) in NewSent(s.attempts, AfterEmail(s, cap, asset, mail).attempts)
  {
    var over := Select(mail.members, Chosen(s.attempts, cap, asset, mail, OverCap));
    var batch, entries, k := Batch(s.attempts, cap, asset, mail), EntriesFor(s, cap, asset, mail), ToRecipient(asset, email);
    var j :| 0 <= j < |batch| && batch[j] == email;
    EntryAt(s, cap, asset, mail, |over| + j);
    UpsertAllHas(s.attempts, entries, |over| + j);
    var i := UpsertAllAdds(s.attempts, entries, k);
    BatchVerdict(s.attempts, cap, asset, mail, j);
    EntryAt(s, cap, asset, mail, i);
  }

  function SentTo(asset: int): string -> Key {
    (e: string) => ToRecipient(asset, e)
  }

  lemma {:induction false} AcceptedMembers(emails: seq<string>, mail: Mail)
    requires mail.provider.Answer?
    ensures forall e :: e in Select(emails, Accepted(mail)) <==> e in emails && e in mail.provider.accepted
  {
    if emails != [] { AcceptedMembers(emails[..|emails| - 1], mail); }
  }

  lemma NewSentKeys(s: State, cap: Option<FrequencyCap>, asset: int, mail: Mail)
    requires RowsOfPublished(s) && Delivers(s, cap, asset, mail) && mail.provider.Answer?
    ensures NewSent(s.attempts, AfterEmail(s, cap, asset, mail).attempts)
         == ToSet(Map(Select(Batch(s.attempts, cap, asset, mail), Accepted(mail)), SentTo(asset)))
  {
    var batch, added := Batch(s.attempts, cap, asset, mail), NewSent(s.attempts, AfterEmail(s, cap, asset, mail).attempts);
    var emails := Select(batch, Accepted(mail));
    var keys := Map(emails, SentTo(asset));
    AcceptedMembers(batch, mail);
    forall k | k in added ensures k in keys {
      NewSentIsAccepted(s, cap, asset, mail, k);
      var i :| 0 <= i < |emails| && emails[i] == k.email;
      assert keys[i] == k;
    }
    forall k | k in keys ensures k in added {
      var i :| 0 <= i < |keys| && keys[i] == k;
      assert emails[i] in emails;
      AcceptedIsNewSent(s, cap, asset, mail, emails[i]);
    }
  }

  lemma DistinctKeys(emails: seq<string>, asset: int)
    ensures Distinct(Map(emails, SentTo(asset))) <==> Distinct(emails)
  {
    var keys := Map(emails, SentTo(asset));
    forall i, j | 0 <= i < j < |emails| ensures keys[i] != keys[j] <==> emails[i] != emails[j] {
    }
  }

  function Then<S, T, U>(f: S -> Option<T>, g: T -> Option<U>): S -> Option<U> {
    (x: S) => if f(x).Some? then g(f(x).value) else None
  }

  lemma {:induction false} SelectThen<S, T, U>(s: seq<S>, f: S -> Option<T>, g: T -> Option<U>)
    ensures Select(Select(s, f), g) == Select(s, Then(f, g))
  {
    if s != [] {
      var n := |s| - 1;
      SelectThen(s[..n], f, g);
      if f(s[n]).Some? {
        SelectAppend(Select(s[..n], f), [f(s[n]).value], g);
        SelectSingle(f(s[n]).value, g);
      } else {
        assert Select(s, f) == Select(s[..n], f);
      }
    }
  }

  /** Two members share an address that is sent to and accepted. */
  ghost predicate SharedAccepted(table: Table, cap: Option<FrequencyCap>, asset: int, mail: Mail, i: nat, j: nat) {
    && SharedAddress(table, cap, asset, mail, i, j)
    && mail.provider.Answer? && mail.members[i].email in mail.provider.accepted
  }

  lemma AcceptedDistinctIff(table: Table, cap: Option<FrequencyCap>, asset: int, mail: Mail)
    requires mail.provider.Answer?
    ensures Distinct(Select(Batch(table, cap, asset, mail), Accepted(mail)))
       <==> !exists i: nat, j: nat :: SharedAccepted(table, cap, asset, mail, i, j)
  {
    var f := Then(Chosen(table, cap, asset, mail, Send), Accepted(mail));
    SelectThen(mail.members, Chosen(table, cap, asset, mail, Send), Accepted(mail));
    SelectDistinct(mail.members, f);
    RepeatsIff(table, cap, asset, mail);
  }

  lemma RepeatsIff(table: Table, cap: Option<FrequencyCap>, asset: int, mail: Mail)
    requires mail.provider.Answer?
    ensures NoRepeats(mail.members, Then(Chosen(table, cap, asset, mail, Send), Accepted(mail)))
       <==> !exists i: nat, j: nat :: SharedAccepted(table, cap, asset, mail, i, j)
  {
    var f := Then(Chosen(table, cap, asset, mail, Send), Accepted(mail));
    forall i, j | 0 <= i < j < |mail.members|
      ensures SharedAccepted(table, cap, asset, mail, i, j) <==> f(mail.members[i]).Some? && f(mail.members[i]) == f(mail.members[j])
    {
      SharedAt(table, cap, asset, mail, i, j);
    }
  }

  lemma SharedAt(table: Table, cap: Option<FrequencyCap>, asset: int, mail: Mail, i: nat, j: nat)
    requires mail.provider.Answer? && i < j < |mail.members|
    ensures var f := Then(Chosen(table, cap, asset, mail, Send), Accepted(mail));
      SharedAccepted(table, cap, asset, mail, i, j) <==> f(mail.members[i]).Some? && f(mail.members[i]) == f(mail.members[j])
  {
  }

  /**
   The reported number of sends is never below the number of new `sent` rows, and equals it if and
   only if no two members share an address that the provider accepts.
   */
  lemma SentCountIff(s: State, cap: Option<FrequencyCap>, asset: int, mail: Mail, r: Summary)
    requires RowsOfPublished(s) && Delivers(s, cap, asset, mail) && Accounted(r, s.attempts, cap, asset, mail)
    ensures var added := NewSent(s.attempts, AfterEmail(s, cap, asset, mail).attempts);
      && |added| <= r.sent
      && (r.sent == |added| <==> !exists i: nat, j: nat :: SharedAccepted(s.attempts, cap, asset, mail, i, j))
  {
    var batch := Batch(s.attempts, cap, asset, mail);
    if mail.provider.Answer? {
      var emails := Select(batch, Accepted(mail));
      NewSentKeys(s, cap, asset, mail);
      ToSetSize(Map(emails, SentTo(asset)));
      DistinctKeys(emails, asset);
      AcceptedDistinctIff(s.attempts, cap, asset, mail);
      if batch == [] { assert emails == []; }
    } else {
      NothingSent(s, cap, asset, mail);
    }
  }

  lemma NothingSent(s: State, cap: Option<FrequencyCap>, asset: int, mail: Mail)
    requires Delivers(s, cap, asset, mail) && !mail.provider.Answer?
    ensures NewSent(s.attempts, AfterEmail(s, cap, asset, mail).attempts) == {}
  {
    forall k ensures k !in NewSent(s.attempts, AfterEmail(s, cap, asset, mail).attempts) {
      if k in NewSent(s.attempts, AfterEmail(s, cap, asset, mail).attempts) {
        NewSentIsAccepted(s, cap, asset, mail, k);
      }
    }
  }

  /** One asset launched from an empty table. */
  function Launched(): State {
    State(map[1 := Asset(1, Email, Scheduled, None, Some(0))], map[1 := Live], map[], 0)
  }

  lemma LaunchedIsReached()
    ensures Launched() == Execute(State(map[1 := Asset(1, Email, Approved, None, None)], map[1 := Live], map[], 0), None, [Op.Schedule(1, 0, map[])])
  {
    var start := State(map[1 := Asset(1, Email, Approved, None, None)], map[1 := Live], map[], 0);
    assert [Op.Schedule(1, 0, map[])][..0] == [];
    assert ScheduleAll(start.assets, 1, 0, map[]) == Launched().assets;
  }

  function SharedMail(): Mail {
    Mail(true, true, [Member("", "a@x"), Member("", "a@x")], 0, 0, 0, Answer({"a@x"}, map[]), false)
  }

  lemma SharedBatch()
    ensures Batch(map[], None, 1, SharedMail()) == ["a@x", "a@x"]
    ensures Select(["a@x", "a@x"], Accepted(SharedMail())) == ["a@x", "a@x"]
  {
    var m, f, g := Member("", "a@x"), Chosen(map[], None, 1, SharedMail(), Send), Accepted(SharedMail());
    assert SentSince(map[], "a@x", -DAY) == {};
    assert f(m) == Some("a@x");
    assert [m, m][..1] == [m] && ["a@x", "a@x"][..1] == ["a@x"];
    SelectSingle(m, f);
    SelectSingle("a@x", g);
  }

  /** Two members with one address: it is handed over twice and counted twice, for a single row. */
  lemma SharedAddressCountsTwice(r: Summary)
    requires Accounted(r, Launched().attempts, None, 1, SharedMail())
    ensures Delivers(Launched(), None, 1, SharedMail())
    ensures r.sent == 2 && |NewSent(Launched().attempts, AfterEmail(Launched(), None, 1, SharedMail()).attempts)| == 1
  {
    SharedBatch();
    LaunchedDelivers();
    NewSentKeys(Launched(), None, 1, SharedMail());
    OneKey("a@x");
  }

  lemma LaunchedDelivers()
    ensures Delivers(Launched(), None, 1, SharedMail()) && RowsOfPublished(Launched())
  {
  }

  lemma OneKey(email: string)
    ensures |ToSet(Map([email, email], SentTo(1)))| == 1
  {
    assert Map([email, email], SentTo(1)) == [ToRecipient(1, email), ToRecipient(1, email)];
    assert ToSet([ToRecipient(1, email), ToRecipient(1, email)]) == {ToRecipient(1, email)};
  }
}
