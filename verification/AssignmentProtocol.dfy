/**
 Assigning variants under races: every worker's call is a read, a computation, an
 insert-on-conflict and a re-read, interleaved with other workers and with edits of the split.
 */
module AssignmentProtocol {
  import opened Sequences
  import opened Assignment
  import Dispatch

  datatype TestId = TestId(tenant: int, test: int)

  datatype Key = Key(id: TestId, recipient: string)

  type Hash = Key -> nat
  type Tests = map<TestId, RawSplit>
  type Rows = map<Key, int>

  /** How far a call has come. */
  datatype Call = Reading(key: Key) | Computing(key: Key) | Inserting(key: Key, variant: int) | Rereading(key: Key)

  datatype Returned = Returned(key: Key, variant: int)

  datatype State = State(tests: Tests, rows: Rows, calls: map<int, Call>, returned: seq<Returned>)

  datatype Step = Start(worker: int, key: Key) | Advance(worker: int) | EditSplit(id: TestId, raw: RawSplit) | DropTest(id: TestId)

  /** The variant a test in its present form gives a recipient. */
  function Computed(tests: Tests, hash: Hash, key: Key): (r: Result<int>) {
    if key.id !in tests || Coerced(tests[key.id]).Misconfigured? then Misconfigured
    else PickVariant(Coerced(tests[key.id]).value, hash(key))
  }

  function InsertOnConflict(rows: Rows, key: Key, variant: int): (r: Rows) {
    if key in rows then rows else rows[key := variant]
  }

  function Finish(s: State, worker: int, key: Key, variant: int): State {
    s.(calls := s.calls - {worker}, returned := s.returned + [Returned(key, variant)])
  }

  /** One statement of one call, or one edit. A call that raises just ends. */
  function Next(s: State, hash: Hash, step: Step): (r: State) {
    match step
    case Start(w, key) => if w in s.calls then s else s.(calls := s.calls[w := Reading(key)])
    case Advance(w) => if w in s.calls then Continue(s, hash, w) else s
    case EditSplit(id, raw) => s.(tests := s.tests[id := raw])
    case DropTest(id) => s.(tests := s.tests - {id})
  }

  function Continue(s: State, hash: Hash, w: int): (r: State)
    requires w in s.calls
  {
    match s.calls[w]
    case Reading(key) =>
      if key in s.rows then Finish(s, w, key, s.rows[key]) else s.(calls := s.calls[w := Computing(key)])
    case Computing(key) =>
      (match Computed(s.tests, hash, key)
       case Ok(v) => s.(calls := s.calls[w := Inserting(key, v)])
       case Misconfigured => s.(calls := s.calls - {w}))
    case Inserting(key, v) =>
      s.(rows := InsertOnConflict(s.rows, key, v), calls := s.calls[w := Rereading(key)])
    case Rereading(key) =>
      if key in s.rows then Finish(s, w, key, s.rows[key]) else s.(calls := s.calls - {w})
  }

  function Execute(s: State, hash: Hash, steps: seq<Step>): (r: State) {
    if steps == [] then s else Next(Execute(s, hash, steps[..|steps| - 1]), hash, steps[|steps| - 1])
  }

  function Initial(tests: Tests): State {
    State(tests, map[], map[], [])
  }

  // ---------------------------------------------------------------------------
  // Every completed call for a key returns its row
  // ---------------------------------------------------------------------------

  ghost predicate Inv(s: State) {
    && (forall i :: 0 <= i < |s.returned| ==> Holds(s.rows, s.returned[i].key, s.returned[i].variant))
    && (forall w :: w in s.calls && s.calls[w].Rereading? ==> s.calls[w].key in s.rows)
  }

  predicate Holds(rows: Rows, key: Key, variant: int) {
    key in rows && rows[key] == variant
  }

  ghost predicate RowsKept(before: Rows, after: Rows) {
    forall k, v :: Holds(before, k, v) ==> Holds(after, k, v)
  }

  lemma NextKeepsInv(s: State, hash: Hash, step: Step)
    requires Inv(s)
    ensures Inv(Next(s, hash, step)) && RowsKept(s.rows, Next(s, hash, step).rows)
  {
    if step.Advance? && step.worker in s.calls {
      ContinueKeepsInv(s, hash, step.worker);
    }
  }

  lemma ContinueKeepsInv(s: State, hash: Hash, w: int)
    requires Inv(s) && w in s.calls
    ensures Inv(Continue(s, hash, w)) && RowsKept(s.rows, Continue(s, hash, w).rows)
  {
  }

  lemma {:induction false} RunKeepsInv(s: State, hash: Hash, steps: seq<Step>)
    requires Inv(s)
    ensures Inv(Execute(s, hash, steps))
  {
    if steps != [] {
      RunKeepsInv(s, hash, steps[..|steps| - 1]);
      NextKeepsInv(Execute(s, hash, steps[..|steps| - 1]), hash, steps[|steps| - 1]);
    }
  }

  /** In every interleaving, two completed calls for one recipient of one test return the same variant. */
  lemma CompletedCallsAgree(tests: Tests, hash: Hash, steps: seq<Step>, i: nat, j: nat)
    requires var s := Execute(Initial(tests), hash, steps);
      i < |s.returned| && j < |s.returned| && s.returned[i].key == s.returned[j].key
    ensures var s := Execute(Initial(tests), hash, steps); s.returned[i].variant == s.returned[j].variant
  {
    RunKeepsInv(Initial(tests), hash, steps);
  }

  /** A row, once there, never changes. */
  lemma {:induction false} RowNeverChanges(s: State, hash: Hash, steps: seq<Step>, n: nat)
    requires Inv(s) && n <= |steps|
    ensures RowsKept(Execute(s, hash, steps[..n]).rows, Execute(s, hash, steps).rows)
    decreases |steps| - n
  {
    if n < |steps| {
      RunKeepsInv(s, hash, steps[..n]);
      NextKeepsInv(Execute(s, hash, steps[..n]), hash, steps[n]);
      assert steps[..n + 1][..n] == steps[..n];
      RowNeverChanges(s, hash, steps, n + 1);
    } else {
      assert steps[..n] == steps;
    }
  }

  ghost predicate GivenAfter(tests: Tests, hash: Hash, past: seq<Step>, key: Key, variant: int) {
    Computed(Execute(Initial(tests), hash, past).tests, hash, key) == Ok(variant)
  }

  /** At some moment of the run the test in force gave the key this variant. */
  ghost predicate GivenDuring(tests: Tests, hash: Hash, steps: seq<Step>, key: Key, variant: int) {
    exists past :: past <= steps && GivenAfter(tests, hash, past, key, variant)
  }

  /** Every row, stored or about to be, comes from `given`. */
  ghost predicate SourcedFrom(s: State, given: (Key, int) -> bool) {
    && (forall k :: k in s.rows ==> given(k, s.rows[k]))
    && (forall w :: w in s.calls && s.calls[w].Inserting? ==> given(s.calls[w].key, s.calls[w].variant))
  }

  lemma NextIsSourced(s: State, hash: Hash, step: Step, given: (Key, int) -> bool)
    requires SourcedFrom(s, given)
    requires forall k, v :: Computed(s.tests, hash, k) == Ok(v) ==> given(k, v)
    ensures SourcedFrom(Next(s, hash, step), given)
  {
    if step.Advance? && step.worker in s.calls {
      ContinueIsSourced(s, hash, step.worker, given);
    }
  }

  lemma ContinueIsSourced(s: State, hash: Hash, w: int, given: (Key, int) -> bool)
    requires SourcedFrom(s, given) && w in s.calls
    requires forall k, v :: Computed(s.tests, hash, k) == Ok(v) ==> given(k, v)
    ensures SourcedFrom(Continue(s, hash, w), given)
  {
  }

  lemma GivenLater(tests: Tests, hash: Hash, steps: seq<Step>, n: nat, key: Key, variant: int)
    requires n <= |steps| && GivenDuring(tests, hash, steps[..n], key, variant)
    ensures GivenDuring(tests, hash, steps, key, variant)
  {
    var past :| past <= steps[..n] && GivenAfter(tests, hash, past, key, variant);
    assert past <= steps;
  }

  /** A row holds what the hash gave under a split that really was in force, never anything else. */
  lemma {:induction false} EveryRowIsSourced(tests: Tests, hash: Hash, steps: seq<Step>, given: (Key, int) -> bool)
    requires forall k, v :: GivenDuring(tests, hash, steps, k, v) ==> given(k, v)
    ensures SourcedFrom(Execute(Initial(tests), hash, steps), given)
  {
    if steps != [] {
      var n := |steps| - 1;
      var s := Execute(Initial(tests), hash, steps[..n]);
      forall k, v | GivenDuring(tests, hash, steps[..n], k, v) ensures given(k, v) {
        GivenLater(tests, hash, steps, n, k, v);
      }
      EveryRowIsSourced(tests, hash, steps[..n], given);
      forall k, v | Computed(s.tests, hash, k) == Ok(v) ensures given(k, v) {
        assert GivenAfter(tests, hash, steps[..n], k, v);
      }
      NextIsSourced(s, hash, steps[n], given);
    }
  }

  // ---------------------------------------------------------------------------
  // A call that meets no other, and the audience filter
  // ---------------------------------------------------------------------------

  /** What a call running alone returns. */
  function AssignedTo(rows: Rows, tests: Tests, hash: Hash, key: Key): (r: Result<int>) {
    if key in rows then Ok(rows[key]) else Computed(tests, hash, key)
  }

  function AfterAssign(rows: Rows, tests: Tests, hash: Hash, key: Key): (r: Rows) {
    match AssignedTo(rows, tests, hash, key)
    case Ok(v) => InsertOnConflict(rows, key, v)
    case Misconfigured => rows
  }

  /** The steps of one call, run without interference, are the serial assignment. */
  lemma SoloCall(s: State, hash: Hash, w: int, key: Key)
    requires w !in s.calls
    ensures
      var r := Next(Next(Next(Next(Next(s, hash, Start(w, key)), hash, Advance(w)), hash, Advance(w)), hash, Advance(w)), hash, Advance(w));
      && r.rows == AfterAssign(s.rows, s.tests, hash, key)
      && r.returned == s.returned + match AssignedTo(s.rows, s.tests, hash, key) {
        case Ok(v) => [Returned(key, v)]
        case Misconfigured => []
      }
  {
    var read := Next(Next(s, hash, Start(w, key)), hash, Advance(w));
    if key in s.rows {
      assert w !in read.calls;
    } else {
      assert read.calls[w] == Computing(key) && read.rows == s.rows && read.tests == s.tests;
      SoloInsert(read, hash, w, key);
    }
  }

  lemma SoloInsert(s: State, hash: Hash, w: int, key: Key)
    requires w in s.calls && s.calls[w] == Computing(key) && key !in s.rows
    ensures
      var r := Next(Next(Next(s, hash, Advance(w)), hash, Advance(w)), hash, Advance(w));
      && r.rows == AfterAssign(s.rows, s.tests, hash, key)
      && r.returned == s.returned + match Computed(s.tests, hash, key) {
        case Ok(v) => [Returned(key, v)]
        case Misconfigured => []
      }
  {
    var computed := Next(s, hash, Advance(w));
    if Computed(s.tests, hash, key).Misconfigured? {
      assert w !in computed.calls;
    }
  }

  type Member = Dispatch.Member

  function KeyOf(id: TestId, m: Member): Key {
    Key(id, m.externalId)
  }

  predicate Keeps(rows: Rows, tests: Tests, hash: Hash, id: TestId, asset: int, m: Member) {
    m.externalId == "" || AssignedTo(rows, tests, hash, KeyOf(id, m)) in {Misconfigured, Ok(asset)}
  }

  function Keeping(rows: Rows, tests: Tests, hash: Hash, id: TestId, asset: int): Member -> Option<Member> {
    (m: Member) => if Keeps(rows, tests, hash, id, asset, m) then Some(m) else None
  }

  /** The rows after a dispatch has asked for every member's variant. */
  function AfterFilter(rows: Rows, tests: Tests, hash: Hash, id: TestId, members: seq<Member>): (r: Rows) {
    if members == [] then rows
    else
      var before := AfterFilter(rows, tests, hash, id, members[..|members| - 1]);
      var m := members[|members| - 1];
      if m.externalId == "" then before else AfterAssign(before, tests, hash, KeyOf(id, m))
  }

  /** Asking for some members' variants changes nobody's answer. */
  lemma {:induction false} FilterKeepsAnswers(rows: Rows, tests: Tests, hash: Hash, id: TestId, members: seq<Member>, key: Key)
    ensures AssignedTo(AfterFilter(rows, tests, hash, id, members), tests, hash, key) == AssignedTo(rows, tests, hash, key)
    ensures forall v :: Holds(rows, key, v) ==> Holds(AfterFilter(rows, tests, hash, id, members), key, v)
  {
    if members != [] {
      FilterKeepsAnswers(rows, tests, hash, id, members[..|members| - 1], key);
    }
  }

  class Assignments {
    const hash: Hash
    var tests: Tests
    var rows: Rows

    constructor (hash: Hash, tests: Tests)
      ensures this.hash == hash && this.tests == tests && rows == map[]
    {
      this.hash, this.tests, this.rows := hash, tests, map[];
    }

    method AssignVariant(key: Key) returns (r: Result<int>)
      modifies this
      ensures r == AssignedTo(old(rows), old(tests), hash, key)
      ensures rows == AfterAssign(old(rows), old(tests), hash, key) && tests == old(tests)
      ensures r.Ok? ==> Holds(rows, key, r.value)
    {
      if key in rows { return Ok(rows[key]); }
      if key.id !in tests { return Misconfigured; }
      var split := CoerceSplit(tests[key.id]);
      if split.Misconfigured? { return Misconfigured; }
      var picked := PickVariantIndex(split.value, hash(key));
      if picked.Misconfigured? { return Misconfigured; }
      rows := InsertOnConflict(rows, key, picked.value);
      r := Ok(rows[key]);
    }

    /** Keeps, in audience order, the members that see this asset. */
    method FilterAudience(id: Option<TestId>, asset: int, members: seq<Member>) returns (kept: seq<Member>)
      modifies this
      ensures tests == old(tests)
      ensures id.None? ==> kept == members && rows == old(rows)
      ensures id.Some? ==>
        && kept == Select(members, Keeping(old(rows), old(tests), hash, id.value, asset))
        && rows == AfterFilter(old(rows), old(tests), hash, id.value, members)
    {
      if id.None? { return members; }
      kept := [];
      for n := 0 to |members|
        invariant tests == old(tests)
        invariant rows == AfterFilter(old(rows), tests, hash, id.value, members[..n])
        invariant kept == Select(members[..n], Keeping(old(rows), tests, hash, id.value, asset))
      {
        assert members[..n + 1][..n] == members[..n];
        var member := members[n];
        if member.externalId == "" {
          kept := kept + [member];
        } else {
          FilterKeepsAnswers(old(rows), tests, hash, id.value, members[..n], KeyOf(id.value, member));
          var answer := AssignVariant(KeyOf(id.value, member));
          if answer == Misconfigured || answer.value == asset {
            kept := kept + [member];
          }
        }
      }
      assert members[..|members|] == members;
    }
  }

  // ---------------------------------------------------------------------------
  // Sibling dispatches
  // ---------------------------------------------------------------------------

  /** One dispatch of a variant, with the split and the audience as it finds them. */
  datatype Sibling = Sibling(asset: int, tests: Tests, members: seq<Member>)

  function AfterSiblings(rows: Rows, hash: Hash, id: TestId, ds: seq<Sibling>): (r: Rows) {
    if ds == [] then rows
    else
      var d := ds[|ds| - 1];
      AfterFilter(AfterSiblings(rows, hash, id, ds[..|ds| - 1]), d.tests, hash, id, d.members)
  }

  /** The member is in the `i`-th dispatch's audience and left in by its filter. */
  ghost predicate KeptAt(rows: Rows, hash: Hash, id: TestId, ds: seq<Sibling>, i: nat, m: Member)
    requires i < |ds|
  {
    m in ds[i].members && Keeps(AfterSiblings(rows, hash, id, ds[..i]), ds[i].tests, hash, id, ds[i].asset, m)
  }

  ghost predicate WellConfigured(tests: Tests, id: TestId) {
    id in tests && DistinctRaw(tests[id]) && Coerced(tests[id]).Ok? && Coerced(tests[id]).value != []
  }

  lemma WellConfiguredAnswers(rows: Rows, tests: Tests, hash: Hash, key: Key)
    requires WellConfigured(tests, key.id)
    ensures AssignedTo(rows, tests, hash, key).Ok?
  {
    CoercedIsUsable(tests[key.id], hash(key));
  }

  lemma {:induction false} FilterStores(rows: Rows, tests: Tests, hash: Hash, id: TestId, members: seq<Member>, m: Member)
    requires WellConfigured(tests, id) && m in members && m.externalId != ""
    ensures AssignedTo(rows, tests, hash, KeyOf(id, m)).Ok?
    ensures Holds(AfterFilter(rows, tests, hash, id, members), KeyOf(id, m), AssignedTo(rows, tests, hash, KeyOf(id, m)).value)
  {
    WellConfiguredAnswers(rows, tests, hash, KeyOf(id, m));
    var n := |members| - 1;
    FilterKeepsAnswers(rows, tests, hash, id, members[..n], KeyOf(id, m));
    if members[n] != m {
      assert m in members[..n];
      FilterStores(rows, tests, hash, id, members[..n], m);
    }
  }

  lemma {:induction false} SiblingsKeepRows(rows: Rows, hash: Hash, id: TestId, ds: seq<Sibling>, i: nat, key: Key, v: int)
    requires i <= |ds| && Holds(AfterSiblings(rows, hash, id, ds[..i]), key, v)
    ensures Holds(AfterSiblings(rows, hash, id, ds), key, v)
    decreases |ds| - i
  {
    if i < |ds| {
      assert ds[..i + 1][..i] == ds[..i];
      FilterKeepsAnswers(AfterSiblings(rows, hash, id, ds[..i]), ds[i].tests, hash, id, ds[i].members, key);
      SiblingsKeepRows(rows, hash, id, ds, i + 1, key, v);
    } else {
      assert ds[..i] == ds;
    }
  }

  /** A dispatch of a well-configured test keeps a member exactly when the member's row, once all is done, names its asset. */
  lemma KeptIffAssigned(rows: Rows, hash: Hash, id: TestId, ds: seq<Sibling>, i: nat, m: Member)
    requires i < |ds| && WellConfigured(ds[i].tests, id) && m in ds[i].members && m.externalId != ""
    ensures KeyOf(id, m) in AfterSiblings(rows, hash, id, ds)
    ensures KeptAt(rows, hash, id, ds, i, m) <==> Holds(AfterSiblings(rows, hash, id, ds), KeyOf(id, m), ds[i].asset)
  {
    var before := AfterSiblings(rows, hash, id, ds[..i]);
    FilterStores(before, ds[i].tests, hash, id, ds[i].members, m);
    assert ds[..i + 1][..i] == ds[..i];
    SiblingsKeepRows(rows, hash, id, ds, i + 1, KeyOf(id, m), AssignedTo(before, ds[i].tests, hash, KeyOf(id, m)).value);
  }

  /** However the split is edited between dispatches, no member is kept by two different variants. */
  lemma KeptByAtMostOne(rows: Rows, hash: Hash, id: TestId, ds: seq<Sibling>, i: nat, j: nat, m: Member)
    requires i < |ds| && j < |ds| && m.externalId != ""
    requires WellConfigured(ds[i].tests, id) && WellConfigured(ds[j].tests, id)
    requires KeptAt(rows, hash, id, ds, i, m) && KeptAt(rows, hash, id, ds, j, m)
    ensures ds[i].asset == ds[j].asset
  {
    KeptIffAssigned(rows, hash, id, ds, i, m);
    KeptIffAssigned(rows, hash, id, ds, j, m);
  }

  ghost predicate Offers(tests: Tests, id: TestId, v: int)
    requires WellConfigured(tests, id)
  {
    exists k :: 0 <= k < |Coerced(tests[id]).value| && Coerced(tests[id]).value[k].variant == v
  }

  ghost predicate AllReach(ds: seq<Sibling>, tests: Tests, m: Member) {
    forall j :: 0 <= j < |ds| ==> ds[j].tests == tests && m in ds[j].members
  }

  ghost predicate DistinctAssets(ds: seq<Sibling>) {
    forall j, k :: 0 <= j < k < |ds| ==> ds[j].asset != ds[k].asset
  }

  ghost predicate DispatchedAs(ds: seq<Sibling>, v: int) {
    exists j :: 0 <= j < |ds| && ds[j].asset == v
  }

  ghost predicate KeptBySome(rows: Rows, hash: Hash, id: TestId, ds: seq<Sibling>, m: Member) {
    exists i :: 0 <= i < |ds| && KeptAt(rows, hash, id, ds, i, m)
  }

  /** Under a fixed split, each dispatch keeps the member exactly when it is of the variant the member has or gets. */
  lemma KeptIffAnswered(rows: Rows, tests: Tests, hash: Hash, id: TestId, ds: seq<Sibling>, m: Member, j: nat)
    requires WellConfigured(tests, id) && m.externalId != "" && AllReach(ds, tests, m) && j < |ds|
    ensures KeptAt(rows, hash, id, ds, j, m) <==> AssignedTo(rows, tests, hash, KeyOf(id, m)) == Ok(ds[j].asset)
  {
    SiblingsGive(rows, tests, hash, id, ds, KeyOf(id, m), j);
    WellConfiguredAnswers(rows, tests, hash, KeyOf(id, m));
  }

  /**
   Dispatching different variants of a fixed split, whatever rows are already there: a member is
   reached if and only if the variant it has, or gets, is among them, and never twice.
   */
  lemma KeptOnceIff(rows: Rows, tests: Tests, hash: Hash, id: TestId, ds: seq<Sibling>, m: Member)
    requires WellConfigured(tests, id) && m.externalId != "" && AllReach(ds, tests, m) && DistinctAssets(ds)
    ensures AssignedTo(rows, tests, hash, KeyOf(id, m)).Ok?
    ensures KeptBySome(rows, hash, id, ds, m) <==> DispatchedAs(ds, AssignedTo(rows, tests, hash, KeyOf(id, m)).value)
    ensures forall i, j :: 0 <= i < |ds| && 0 <= j < |ds| && KeptAt(rows, hash, id, ds, i, m) && KeptAt(rows, hash, id, ds, j, m) ==> i == j
  {
    WellConfiguredAnswers(rows, tests, hash, KeyOf(id, m));
    var v := AssignedTo(rows, tests, hash, KeyOf(id, m)).value;
    forall j | 0 <= j < |ds| ensures KeptAt(rows, hash, id, ds, j, m) <==> ds[j].asset == v {
      KeptIffAnswered(rows, tests, hash, id, ds, m, j);
    }
  }

  /** So dispatching every variant of the split reaches every member exactly once, unless it holds a row of some other split. */
  lemma KeptByExactlyOne(rows: Rows, tests: Tests, hash: Hash, id: TestId, ds: seq<Sibling>, m: Member) returns (i: nat)
    requires WellConfigured(tests, id) && m.externalId != "" && AllReach(ds, tests, m) && DistinctAssets(ds)
    requires forall v :: Offers(tests, id, v) ==> DispatchedAs(ds, v)
    requires KeyOf(id, m) in rows ==> DispatchedAs(ds, rows[KeyOf(id, m)])
    ensures i < |ds| && KeptAt(rows, hash, id, ds, i, m)
    ensures forall j :: 0 <= j < |ds| && KeptAt(rows, hash, id, ds, j, m) ==> j == i
  {
    PickedIsOffered(tests, hash, KeyOf(id, m));
    KeptOnceIff(rows, tests, hash, id, ds, m);
    assert KeptBySome(rows, hash, id, ds, m);
    i :| 0 <= i < |ds| && KeptAt(rows, hash, id, ds, i, m);
  }

  lemma PickedIsOffered(tests: Tests, hash: Hash, key: Key)
    requires WellConfigured(tests, key.id)
    ensures Computed(tests, hash, key).Ok? && Offers(tests, key.id, Computed(tests, hash, key).value)
  {
    var split := Coerced(tests[key.id]).value;
    CoercedIsUsable(tests[key.id], hash(key));
    SameMembers(SortedShares(split), split);
    var v := Computed(tests, hash, key).value;
    var i :| 0 <= i < |SortedShares(split)| && SortedShares(split)[i].variant == v;
    assert SortedShares(split)[i] in split;
  }

  lemma {:induction false} SiblingsGive(rows: Rows, tests: Tests, hash: Hash, id: TestId, ds: seq<Sibling>, key: Key, n: nat)
    requires n <= |ds| && forall j :: 0 <= j < |ds| ==> ds[j].tests == tests
    ensures AssignedTo(AfterSiblings(rows, hash, id, ds[..n]), tests, hash, key) == AssignedTo(rows, tests, hash, key)
  {
    if n > 0 {
      SiblingsGive(rows, tests, hash, id, ds, key, n - 1);
      assert ds[..n][..n - 1] == ds[..n - 1];
      FilterKeepsAnswers(AfterSiblings(rows, hash, id, ds[..n - 1]), tests, hash, id, ds[n - 1].members, key);
    }
  }

  // ---------------------------------------------------------------------------
  // Traffic, and members the test does not concern
  // ---------------------------------------------------------------------------

  /** Every recipient hashes to `h`. */
  function Always(h: nat): Hash {
    (k: Key) => h
  }

  /** The hash values below `n` that send the recipient to variant `v`. */
  function HashesTo(tests: Tests, key: Key, v: int, n: nat): (r: set<int>) {
    set h | 0 <= h < n && Computed(tests, Always(h), key) == Ok(v)
  }

  function GoesTo(split: Split, v: int): int -> bool {
    (h: int) => h >= 0 && PickVariant(split, h) == Ok(v)
  }

  function BucketCount(split: Split, v: int): int -> int {
    (n: int) => if n >= 0 then Buckets(split, v, n) else 0
  }

  lemma BucketsAreTally(split: Split, v: int, n: nat)
    ensures Buckets(split, v, n) == Tally(n, GoesTo(split, v))
  {
    var count, hit := BucketCount(split, v), GoesTo(split, v);
    forall k | 0 <= k < n ensures GrowsAt(k, count, hit) {
      BucketsNext(split, v, k);
    }
    CountIsTally(n, count, hit);
  }

  lemma BucketsNext(split: Split, v: int, n: nat)
    ensures Buckets(split, v, n + 1) == Buckets(split, v, n) + if GoesTo(split, v)(n) then 1 else 0
  {
  }

  lemma HashesAreBuckets(tests: Tests, key: Key, v: int, n: nat)
    requires key.id in tests && Coerced(tests[key.id]).Ok?
    ensures |HashesTo(tests, key, v, n)| == Buckets(Coerced(tests[key.id]).value, v, n)
  {
    var split := Coerced(tests[key.id]).value;
    forall h ensures h in HashesTo(tests, key, v, n) <==> 0 <= h < n && GoesTo(split, v)(h) {
      if 0 <= h < n {
        ComputedAt(tests, key, h);
      }
    }
    TallyIsSize(n, GoesTo(split, v), HashesTo(tests, key, v, n));
    BucketsAreTally(split, v, n);
  }

  lemma ComputedAt(tests: Tests, key: Key, h: nat)
    requires key.id in tests && Coerced(tests[key.id]).Ok?
    ensures Computed(tests, Always(h), key) == PickVariant(Coerced(tests[key.id]).value, h)
  {
  }

  /** Traffic follows the stored split: among as many hash values as its positive weights add up to,
      exactly the stored weight sends a recipient to each variant. */
  lemma TrafficFollowsSplit(tests: Tests, key: Key, v: int)
    requires key.id in tests && DistinctRaw(tests[key.id]) && AllNumbers(tests[key.id]) && StoredTotal(tests[key.id]) > 0
    ensures forall w :: Stores(tests[key.id], v, w) ==> |HashesTo(tests, key, v, StoredTotal(tests[key.id]))| == w
    ensures StoresNothing(tests[key.id], v) ==> HashesTo(tests, key, v, StoredTotal(tests[key.id])) == {}
  {
    StoredShares(tests[key.id], v);
    HashesAreBuckets(tests, key, v, StoredTotal(tests[key.id]));
  }

  /** When a recipient cannot be given a variant: no row and no test, no readable split, or no positive weight in it. */
  lemma NoAnswerIff(rows: Rows, tests: Tests, hash: Hash, key: Key)
    requires key.id in tests ==> DistinctRaw(tests[key.id])
    ensures AssignedTo(rows, tests, hash, key).Misconfigured? <==>
      key !in rows && (key.id !in tests || !AllNumbers(tests[key.id]) || forall v :: StoresNothing(tests[key.id], v))
  {
    if key !in rows && key.id in tests && AllNumbers(tests[key.id]) {
      CoercedIsUsable(tests[key.id], hash(key));
      EmptyIffNothingStored(tests[key.id]);
    }
  }

  lemma EmptyIffNothingStored(raw: RawSplit)
    requires AllNumbers(raw)
    ensures Coerced(raw).value == [] <==> forall v :: StoresNothing(raw, v)
  {
    if i :| 0 <= i < |raw.shares| && raw.shares[i].weight.value > 0 {
      var v, w := raw.shares[i].variant, raw.shares[i].weight.value;
      assert raw.shares[i] == RawShare(v, Number(w));
      assert Stores(raw, v, w) && !StoresNothing(raw, v);
      KeptShare(raw.shares, i);
    } else {
      SelectNothing(raw.shares, Positive());
      forall s | s in raw.shares ensures s.weight.Number? && s.weight.value <= 0 {
        var i :| 0 <= i < |raw.shares| && raw.shares[i] == s;
      }
      assert forall v, w :: w > 0 ==> RawShare(v, Number(w)) !in raw.shares;
    }
  }

  lemma {:induction false} KeptShare(shares: seq<RawShare>, i: nat)
    requires i < |shares| && Positive()(shares[i]).Some?
    ensures Select(shares, Positive()) != []
  {
    if i < |shares| - 1 { KeptShare(shares[..|shares| - 1], i); }
  }

  lemma {:induction false} SelectMembers(members: seq<Member>, f: Member -> Option<Member>, m: Member)
    requires forall x :: f(x).Some? ==> f(x).value == x
    ensures m in Select(members, f) <==> m in members && f(m).Some?
  {
    if members != [] { SelectMembers(members[..|members| - 1], f, m); }
  }

  /** Who is left in an asset's audience: members without an id, members of a test that cannot answer, and
      those whose variant it is. */
  lemma KeptIff(rows: Rows, tests: Tests, hash: Hash, id: TestId, asset: int, members: seq<Member>, m: Member)
    ensures m in Select(members, Keeping(rows, tests, hash, id, asset)) <==>
      && m in members
      && (|| m.externalId == ""
          || AssignedTo(rows, tests, hash, Key(id, m.externalId)).Misconfigured?
          || AssignedTo(rows, tests, hash, Key(id, m.externalId)) == Ok(asset))
  {
    SelectMembers(members, Keeping(rows, tests, hash, id, asset), m);
  }
}
