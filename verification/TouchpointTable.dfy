/**
 The touchpoint table: the rows of each proposal's calendar, the warnings stored with them, and
 what recomputing those warnings means when the database may return ties in any order.
 */
module TouchpointTable {
  import opened Sequences
  import opened Touchpoints
  import opened HardCaps
  import opened FrequencyWarnings
  import opened WarningOrder
  import opened TieOrder

  datatype Row = Row(id: int, proposal: int, touch: Touch)

  function OfProposal(p: int): Row -> Option<Row> {
    (row: Row) => if row.proposal == p then Some(row) else None
  }

  function TouchOf(): Row -> Touch {
    (row: Row) => row.touch
  }

  function FreshOf(): Row -> Touch {
    (row: Row) => row.touch.(warning := None)
  }

  function RowsOf(rows: seq<Row>, p: int): (r: seq<Row>) {
    Select(rows, OfProposal(p))
  }

  /** A proposal's touches, freshly read: the warnings stored with them are not part of it. */
  function CalendarOf(rows: seq<Row>, p: int): (r: seq<Touch>) {
    Map(RowsOf(rows, p), FreshOf())
  }

  lemma {:induction false} RowsOfMembers(rows: seq<Row>, p: int)
    ensures forall row :: row in RowsOf(rows, p) <==> row in rows && row.proposal == p
  {
    if rows != [] { RowsOfMembers(rows[..|rows| - 1], p); }
  }

  lemma RowsOfAppend(a: seq<Row>, b: seq<Row>, p: int)
    ensures RowsOf(a + b, p) == RowsOf(a, p) + RowsOf(b, p)
  {
    SelectAppend(a, b, OfProposal(p));
  }

  // ---------------------------------------------------------------------------
  // Deleting and moving rows
  // ---------------------------------------------------------------------------

  function Alive(dead: set<int>): Row -> Option<Row> {
    (row: Row) => if row.proposal in dead then None else Some(row)
  }

  /** Rows that survive `DELETE ... WHERE proposal_id IN dead`. */
  function Without(rows: seq<Row>, dead: set<int>): (r: seq<Row>) {
    Select(rows, Alive(dead))
  }

  lemma {:induction false} RowsOfWithout(rows: seq<Row>, dead: set<int>, p: int)
    ensures RowsOf(Without(rows, dead), p) == if p in dead then [] else RowsOf(rows, p)
  {
    if rows != [] {
      var n := |rows| - 1;
      RowsOfWithout(rows[..n], dead, p);
      RowsOfAppend(Without(rows[..n], dead), Pick(Alive(dead)(rows[n])), p);
      SelectSingle(rows[n], OfProposal(p));
    }
  }

  lemma {:induction false} WithoutMembers(rows: seq<Row>, dead: set<int>)
    ensures forall row :: row in Without(rows, dead) ==> row in rows && row.proposal !in dead
  {
    if rows != [] { WithoutMembers(rows[..|rows| - 1], dead); }
  }

  lemma {:induction false} RowsOfOne(seeded: seq<Row>, p: int, q: int)
    requires forall i :: 0 <= i < |seeded| ==> seeded[i].proposal == p
    ensures RowsOf(seeded, q) == if q == p then seeded else []
  {
    if seeded != [] {
      var n := |seeded| - 1;
      RowsOfOne(seeded[..n], p, q);
      assert seeded == seeded[..n] + [seeded[n]];
    }
  }

  /** Row ids are distinct and below the next one to be given. */
  ghost predicate IdsBelow(rows: seq<Row>, next: int) {
    && (forall i, j :: 0 <= i < j < |rows| ==> rows[i].id != rows[j].id)
    && (forall i :: 0 <= i < |rows| ==> rows[i].id < next)
  }

  lemma {:induction false} WithoutKeepsIds(rows: seq<Row>, dead: set<int>, next: int)
    requires IdsBelow(rows, next)
    ensures IdsBelow(Without(rows, dead), next)
  {
    if rows != [] {
      var n := |rows| - 1;
      WithoutKeepsIds(rows[..n], dead, next);
      WithoutMembers(rows[..n], dead);
      var kept := Without(rows[..n], dead);
      forall i | 0 <= i < |kept| ensures kept[i].id != rows[n].id {
        assert kept[i] in rows[..n];
      }
    }
  }

  lemma NewIds(kept: seq<Row>, seeded: seq<Row>, next: int)
    requires IdsBelow(kept, next) && forall i :: 0 <= i < |seeded| ==> seeded[i].id == next + i
    ensures IdsBelow(kept + seeded, next + |seeded|)
  {
  }

  /** Writes a touch over row `k`, keeping its id and proposal. */
  function Overwrite(rows: seq<Row>, k: nat, touch: Touch): (r: seq<Row>)
    requires k < |rows|
  {
    rows[k := rows[k].(touch := touch)]
  }

  predicate SameButWarning(a: Row, b: Row) {
    a.id == b.id && a.proposal == b.proposal && a.touch.(warning := None) == b.touch.(warning := None)
  }

  ghost predicate SameButWarnings(a: seq<Row>, b: seq<Row>) {
    |a| == |b| && forall i :: 0 <= i < |a| ==> SameButWarning(a[i], b[i])
  }

  lemma {:induction false} CalendarIgnoresWarnings(a: seq<Row>, b: seq<Row>, p: int)
    requires SameButWarnings(a, b)
    ensures CalendarOf(a, p) == CalendarOf(b, p)
  {
    if a != [] {
      var n := |a| - 1;
      CalendarIgnoresWarnings(a[..n], b[..n], p);
      assert SameButWarning(a[n], b[n]);
      CalendarLast(a, p);
      CalendarLast(b, p);
    }
  }

  lemma CalendarLast(rows: seq<Row>, p: int)
    requires rows != []
    ensures var n := |rows| - 1;
      CalendarOf(rows, p) == CalendarOf(rows[..n], p) + if rows[n].proposal == p then [FreshOf()(rows[n])] else []
  {
    var n := |rows| - 1;
    if rows[n].proposal == p {
      assert RowsOf(rows, p) == RowsOf(rows[..n], p) + [rows[n]];
    } else {
      assert RowsOf(rows, p) == RowsOf(rows[..n], p);
    }
  }

  /** Rows of a proposal that is not touched. */
  lemma RowsOfUntouched(a: seq<Row>, b: seq<Row>, p: int)
    requires |a| == |b| && forall i :: 0 <= i < |a| ==> a[i] == b[i] || (a[i].proposal != p && b[i].proposal != p)
    ensures RowsOf(a, p) == RowsOf(b, p)
  {
    SelectAgrees(a, b, OfProposal(p));
  }

  // ---------------------------------------------------------------------------
  // Recomputed warnings
  // ---------------------------------------------------------------------------

  /** A proposal's rows by time, ties in an order the database chose. */
  ghost predicate IsListing(rows: seq<Row>, p: int, listing: seq<Row>) {
    && multiset(listing) == multiset(RowsOf(rows, p))
    && forall i, j :: 0 <= i < j < |listing| ==> listing[i].touch.at <= listing[j].touch.at
  }

  /** The stored warnings are exactly what the detector writes when it reads the rows in this order. */
  ghost predicate AsDetected(listing: seq<Row>) {
    Map(listing, TouchOf()) == Warned(Map(listing, FreshOf()), DEFAULT_CAP, DEFAULT_WINDOW)
  }

  ghost predicate Recomputed(rows: seq<Row>, p: int) {
    exists listing :: IsListing(rows, p, listing) && AsDetected(listing)
  }

  lemma NoRowsRecomputed(rows: seq<Row>, p: int)
    requires RowsOf(rows, p) == []
    ensures Recomputed(rows, p)
  {
    assert IsListing(rows, p, []) && AsDetected([]);
  }

  lemma SameRowsRecomputed(a: seq<Row>, b: seq<Row>, p: int)
    requires RowsOf(a, p) == RowsOf(b, p) && Recomputed(b, p)
    ensures Recomputed(a, p)
  {
    var listing :| IsListing(b, p, listing) && AsDetected(listing);
    assert IsListing(a, p, listing);
  }

  lemma ListingReadsCalendar(rows: seq<Row>, p: int, listing: seq<Row>)
    requires IsListing(rows, p, listing)
    ensures multiset(Map(listing, FreshOf())) == multiset(CalendarOf(rows, p))
  {
    MapPermutes(listing, RowsOf(rows, p), FreshOf());
  }

  /** What the pass gives row `k` of a listing. */
  function Detected(listing: seq<Row>, k: nat): (w: Option<Warning>)
    requires k < |listing|
  {
    WarningOf(Map(listing, FreshOf()), k, DEFAULT_CAP, DEFAULT_WINDOW)
  }

  lemma StoredIsDetected(listing: seq<Row>, k: nat)
    requires AsDetected(listing) && k < |listing|
    ensures listing[k].touch.warning == Detected(listing, k)
  {
    assert Map(listing, TouchOf())[k] == Warned(Map(listing, FreshOf()), DEFAULT_CAP, DEFAULT_WINDOW)[k];
  }

  function NearRow(rows: seq<Row>, row: Row): (n: nat) {
    Nearby(CalendarOf(rows, row.proposal), FreshOf()(row), DEFAULT_WINDOW)
  }

  /**
   Recomputing recomputed warnings, with the ties in whatever other order, changes no flag, and
   changes nothing at all where at most 2 * cap + 1 touches are near.
   */
  lemma RecomputationIsStable(rows: seq<Row>, p: int, listing: seq<Row>, k: nat)
    requires Recomputed(rows, p) && IsListing(rows, p, listing) && k < |listing|
    ensures listing[k].touch.warning.Some? <==> Detected(listing, k).Some?
    ensures NearRow(rows, listing[k]) <= 2 * DEFAULT_CAP + 1 ==> listing[k].touch.warning == Detected(listing, k)
  {
    var stored :| IsListing(rows, p, stored) && AsDetected(stored);
    var i := IndexIn(listing, stored, k);
    StoredIsDetected(stored, i);
    var a, b := Map(stored, FreshOf()), Map(listing, FreshOf());
    ListingReadsCalendar(rows, p, stored);
    ListingReadsCalendar(rows, p, listing);
    ListedBelongs(rows, p, listing, k);
    NearbyPermutes(a, CalendarOf(rows, p), a[i], DEFAULT_WINDOW);
    OrderKeepsFlags(a, b, i, k, DEFAULT_CAP, DEFAULT_WINDOW);
  }

  ghost predicate ListedAt(rows: seq<Row>, p: int, listing: seq<Row>, k: int, row: Row) {
    IsListing(rows, p, listing) && 0 <= k < |listing| && listing[k] == row
  }

  /** Whatever order the database returns ties in, recomputing gives this row the warning it has. */
  ghost predicate StableRow(rows: seq<Row>, p: int, row: Row) {
    forall listing, k :: ListedAt(rows, p, listing, k, row) ==> Detected(listing, k) == row.touch.warning
  }

  predicate OrderFreeRow(rows: seq<Row>, p: int, row: Row) {
    OrderFree(CalendarOf(rows, p), FreshOf()(row), DEFAULT_CAP, DEFAULT_WINDOW)
  }

  lemma OrderFreeListing(rows: seq<Row>, p: int, listing: seq<Row>, k: nat)
    requires IsListing(rows, p, listing) && k < |listing|
    ensures OrderFreeRow(rows, p, listing[k])
       <==> OrderFree(Map(listing, FreshOf()), Map(listing, FreshOf())[k], DEFAULT_CAP, DEFAULT_WINDOW)
  {
    ListingReadsCalendar(rows, p, listing);
    AroundReordered(Map(listing, FreshOf()), CalendarOf(rows, p), FreshOf()(listing[k]), DEFAULT_WINDOW);
  }

  /** Exchanging two tied rows of a listing gives a listing again. */
  lemma SwapTies(rows: seq<Row>, p: int, listing: seq<Row>, i: nat, j: nat) returns (swapped: seq<Row>)
    requires IsListing(rows, p, listing) && i < |listing| && j < |listing| && listing[i].touch.at == listing[j].touch.at
    ensures ListedAt(rows, p, swapped, j, listing[i])
    ensures var a := Map(listing, FreshOf()); Map(swapped, FreshOf()) == a[i := a[j]][j := a[i]]
  {
    swapped := listing[i := listing[j]][j := listing[i]];
    SwapPermutes(listing, i, j);
    forall x, y | 0 <= x < y < |swapped| ensures swapped[x].touch.at <= swapped[y].touch.at {
      assert swapped[x].touch.at == listing[x].touch.at && swapped[y].touch.at == listing[y].touch.at;
    }
  }

  lemma UnstableRow(rows: seq<Row>, p: int, stored: seq<Row>, i: nat) returns (listing: seq<Row>, j: nat)
    requires IsListing(rows, p, stored) && AsDetected(stored) && i < |stored| && !OrderFreeRow(rows, p, stored[i])
    ensures ListedAt(rows, p, listing, j, stored[i]) && Detected(listing, j) != stored[i].touch.warning
  {
    var a := Map(stored, FreshOf());
    OrderFreeListing(rows, p, stored, i);
    j := DifferentTie(a, i, DEFAULT_CAP, DEFAULT_WINDOW);
    listing := SwapTies(rows, p, stored, i, j);
    SwapKeepsWarnings(a, Map(listing, FreshOf()), i, j, DEFAULT_CAP, DEFAULT_WINDOW);
    StoredIsDetected(stored, i);
  }

  lemma StableAt(rows: seq<Row>, p: int, stored: seq<Row>, i: nat, listing: seq<Row>, k: nat)
    requires IsListing(rows, p, stored) && AsDetected(stored) && i < |stored| && OrderFreeRow(rows, p, stored[i])
    requires ListedAt(rows, p, listing, k, stored[i])
    ensures Detected(listing, k) == stored[i].touch.warning
  {
    StoredIsDetected(stored, i);
    OrderFreeListing(rows, p, stored, i);
    ListingReadsCalendar(rows, p, stored);
    ListingReadsCalendar(rows, p, listing);
    SameIfOrderFree(Map(stored, FreshOf()), Map(listing, FreshOf()), i, k, DEFAULT_CAP, DEFAULT_WINDOW);
  }

  /** Recomputing leaves a recomputed warning alone in every order of ties if and only if the ties do not show. */
  lemma RecomputationIsStableIff(rows: seq<Row>, p: int, row: Row)
    requires Recomputed(rows, p) && row in RowsOf(rows, p)
    ensures StableRow(rows, p, row) <==> OrderFreeRow(rows, p, row)
  {
    var stored, i := StoredListing(rows, p, row);
    if OrderFreeRow(rows, p, row) {
      OrderFreeIsStable(rows, p, stored, i);
    } else {
      var listing, j := UnstableRow(rows, p, stored, i);
    }
  }

  lemma OrderFreeIsStable(rows: seq<Row>, p: int, stored: seq<Row>, i: nat)
    requires IsListing(rows, p, stored) && AsDetected(stored) && i < |stored| && OrderFreeRow(rows, p, stored[i])
    ensures StableRow(rows, p, stored[i])
  {
    forall listing, k | ListedAt(rows, p, listing, k, stored[i]) ensures Detected(listing, k) == stored[i].touch.warning {
      StableAt(rows, p, stored, i, listing, k);
    }
  }

  lemma StoredListing(rows: seq<Row>, p: int, row: Row) returns (stored: seq<Row>, i: nat)
    requires Recomputed(rows, p) && row in RowsOf(rows, p)
    ensures IsListing(rows, p, stored) && AsDetected(stored) && i < |stored| && stored[i] == row
  {
    stored :| IsListing(rows, p, stored) && AsDetected(stored);
    SameMembers(stored, RowsOf(rows, p));
    i :| 0 <= i < |stored| && stored[i] == row;
  }

  lemma IndexIn(a: seq<Row>, b: seq<Row>, k: nat) returns (i: nat)
    requires multiset(a) == multiset(b) && k < |a|
    ensures i < |b| && b[i] == a[k]
  {
    SameMembers(a, b);
    assert a[k] in b;
    i :| 0 <= i < |b| && b[i] == a[k];
  }

  lemma ListedBelongs(rows: seq<Row>, p: int, listing: seq<Row>, k: nat)
    requires IsListing(rows, p, listing) && k < |listing|
    ensures listing[k] in rows && listing[k].proposal == p
  {
    SameMembers(listing, RowsOf(rows, p));
    RowsOfMembers(rows, p);
    assert listing[k] in RowsOf(rows, p);
  }

  /** So a stored warning is there exactly when a scan of the whole calendar finds more than the cap near. */
  lemma StoredWarningAgrees(rows: seq<Row>, i: nat)
    requires i < |rows| && Recomputed(rows, rows[i].proposal)
    ensures Agrees(rows[i].touch.warning, NearRow(rows, rows[i]), DEFAULT_CAP, DEFAULT_WINDOW)
  {
    var p := rows[i].proposal;
    var listing :| IsListing(rows, p, listing) && AsDetected(listing);
    RowsOfMembers(rows, p);
    SameMembers(listing, RowsOf(rows, p));
    assert rows[i] in listing;
    var k :| 0 <= k < |listing| && listing[k] == rows[i];
    StoredIsDetected(listing, k);
    var planned := Map(listing, FreshOf());
    WarningOfAgrees(planned, k, DEFAULT_CAP, DEFAULT_WINDOW);
    ListingReadsCalendar(rows, p, listing);
    NearbyPermutes(planned, CalendarOf(rows, p), planned[k], DEFAULT_WINDOW);
  }

  // ---------------------------------------------------------------------------
  // Reading and writing the table
  // ---------------------------------------------------------------------------

  /** A query result: where the proposal's rows are, in an order the database chose. */
  ghost predicate IsQueryOrder(rows: seq<Row>, p: int, order: seq<int>) {
    multiset(order) == multiset(Indices(rows, OfProposal(p), |rows|))
  }

  function RowAt(rows: seq<Row>): int -> Row {
    i => if 0 <= i < |rows| then rows[i] else Row(0, 0, Touch("", 0, 0, 0, false, None))
  }

  function Read(rows: seq<Row>, order: seq<int>): (r: seq<Row>) {
    Map(order, RowAt(rows))
  }

  lemma QueryReadsRows(rows: seq<Row>, p: int, order: seq<int>)
    requires IsQueryOrder(rows, p, order)
    ensures multiset(Read(rows, order)) == multiset(RowsOf(rows, p))
    ensures multiset(Map(Read(rows, order), FreshOf())) == multiset(CalendarOf(rows, p))
    ensures forall i :: i in order <==> 0 <= i < |rows| && rows[i].proposal == p
    ensures Distinct(order)
  {
    var all := Indices(rows, OfProposal(p), |rows|);
    MapPermutes(order, all, RowAt(rows));
    SelectByIndices(rows, OfProposal(p), RowAt(rows), |rows|);
    assert rows[..|rows|] == rows;
    MapPermutes(Read(rows, order), RowsOf(rows, p), FreshOf());
    IndicesMembers(rows, OfProposal(p), |rows|);
    SameMembers(order, all);
    DistinctPermutes(all, order);
  }

  /** The order rows come back in is the database's choice; callers may rely only on the contract. */
  method Query(rows: seq<Row>, p: int) returns (order: seq<int>)
    ensures IsQueryOrder(rows, p, order)
  {
    order := Indices(rows, OfProposal(p), |rows|);
  }

  ghost predicate ByTime(rows: seq<Row>, order: seq<int>) {
    forall i, j :: 0 <= i < j < |order| ==> RowAt(rows)(order[i]).touch.at <= RowAt(rows)(order[j]).touch.at
  }

  function AtKey(rows: seq<Row>): int -> SortKey {
    i => (RowAt(rows)(i).touch.at, 0)
  }

  /** The same with `ORDER BY scheduled_at`. */
  method QueryByTime(rows: seq<Row>, p: int) returns (order: seq<int>)
    ensures IsQueryOrder(rows, p, order) && ByTime(rows, order)
  {
    var any := Query(rows, p);
    order := SortBy(any, AtKey(rows));
    forall i, j | 0 <= i < j < |order| ensures RowAt(rows)(order[i]).touch.at <= RowAt(rows)(order[j]).touch.at {
      assert Leq(AtKey(rows)(order[i]), AtKey(rows)(order[j]));
    }
  }

  method DetectOn(planned: seq<Touch>) returns (warned: seq<Touch>)
    ensures warned == Warned(planned, DEFAULT_CAP, DEFAULT_WINDOW)
  {
    var tps := new Touch[|planned|](k requires 0 <= k < |planned| => planned[k]);
    assert tps[..] == planned;
    DetectFrequencyWarnings(tps, DEFAULT_CAP, DEFAULT_WINDOW);
    warned := tps[..];
  }

  /** `re_evaluate_warnings`: detect on freshly built touches, then copy each warning back. */
  method ReEvaluateWarnings(rows: seq<Row>, p: int) returns (after: seq<Row>)
    ensures SameButWarnings(after, rows)
    ensures forall i :: 0 <= i < |rows| && rows[i].proposal != p ==> after[i] == rows[i]
    ensures Recomputed(after, p)
  {
    var order := QueryByTime(rows, p);
    QueryReadsRows(rows, p, order);
    var planned := Map(Read(rows, order), FreshOf());
    var warned := DetectOn(planned);
    assert forall k :: 0 <= k < |order| ==> order[k] in order;
    after := CopyWarnings(rows, order, warned);
    CopiedIsRecomputed(rows, p, order, warned, after);
  }

  method CopyWarnings(rows: seq<Row>, order: seq<int>, warned: seq<Touch>) returns (after: seq<Row>)
    requires |order| == |warned| && Distinct(order)
    requires forall k :: 0 <= k < |order| ==> 0 <= order[k] < |rows|
    ensures SameButWarnings(after, rows)
    ensures forall k :: 0 <= k < |order| ==> after[order[k]].touch == rows[order[k]].touch.(warning := warned[k].warning)
    ensures forall i :: 0 <= i < |rows| && i !in order ==> after[i] == rows[i]
  {
    after := rows;
    for n := 0 to |order|
      invariant SameButWarnings(after, rows)
      invariant forall k :: 0 <= k < n ==> after[order[k]].touch == rows[order[k]].touch.(warning := warned[k].warning)
      invariant forall k :: n <= k < |order| ==> after[order[k]] == rows[order[k]]
      invariant forall i :: 0 <= i < |rows| && i !in order ==> after[i] == rows[i]
    {
      after := Overwrite(after, order[n], after[order[n]].touch.(warning := warned[n].warning));
    }
  }

  /** Reading the table again in the order of the pass shows what the pass wrote. */
  lemma CopiedIsRecomputed(rows: seq<Row>, p: int, order: seq<int>, warned: seq<Touch>, after: seq<Row>)
    requires IsQueryOrder(rows, p, order) && ByTime(rows, order) && SameButWarnings(after, rows)
    requires forall k :: 0 <= k < |order| ==> 0 <= order[k] < |rows|
    requires warned == Warned(Map(Read(rows, order), FreshOf()), DEFAULT_CAP, DEFAULT_WINDOW)
    requires forall k :: 0 <= k < |order| ==> after[order[k]].touch == rows[order[k]].touch.(warning := warned[k].warning)
    ensures Recomputed(after, p)
  {
    var listing := Read(after, order);
    SameIndices(after, rows, p, |rows|);
    QueryReadsRows(after, p, order);
    forall k | 0 <= k < |order| ensures SameButWarning(listing[k], Read(rows, order)[k]) {
      assert SameButWarning(after[order[k]], rows[order[k]]);
    }
    assert Map(listing, FreshOf()) == Map(Read(rows, order), FreshOf());
    ListingByTime(rows, after, order);
    CopiedAsDetected(rows, order, warned, after);
  }

  lemma ListingByTime(rows: seq<Row>, after: seq<Row>, order: seq<int>)
    requires ByTime(rows, order) && SameButWarnings(after, rows)
    requires forall k :: 0 <= k < |order| ==> 0 <= order[k] < |rows|
    ensures forall i, j :: 0 <= i < j < |order| ==> Read(after, order)[i].touch.at <= Read(after, order)[j].touch.at
  {
    forall k | 0 <= k < |order| ensures Read(after, order)[k].touch.at == RowAt(rows)(order[k]).touch.at {
      assert SameButWarning(after[order[k]], rows[order[k]]);
    }
  }

  lemma CopiedAsDetected(rows: seq<Row>, order: seq<int>, warned: seq<Touch>, after: seq<Row>)
    requires |after| == |rows| && |warned| == |order| && forall k :: 0 <= k < |order| ==> 0 <= order[k] < |rows|
    requires warned == Warned(Map(Read(rows, order), FreshOf()), DEFAULT_CAP, DEFAULT_WINDOW)
    requires Map(Read(after, order), FreshOf()) == Map(Read(rows, order), FreshOf())
    requires forall k :: 0 <= k < |order| ==> after[order[k]].touch == rows[order[k]].touch.(warning := warned[k].warning)
    ensures AsDetected(Read(after, order))
  {
    var planned, stored := Map(Read(rows, order), FreshOf()), Map(Read(after, order), TouchOf());
    forall k | 0 <= k < |order| ensures stored[k] == warned[k] {
      assert planned[k] == rows[order[k]].touch.(warning := None);
    }
  }

  lemma {:induction false} SameIndices(a: seq<Row>, b: seq<Row>, p: int, n: nat)
    requires SameButWarnings(a, b) && n <= |a|
    ensures Indices(a, OfProposal(p), n) == Indices(b, OfProposal(p), n)
  {
    if n > 0 {
      SameIndices(a, b, p, n - 1);
      assert SameButWarning(a[n - 1], b[n - 1]);
    }
  }

  /** The drag endpoint's check of the candidate calendar. */
  method CheckMove(moved: seq<Row>, p: int, caps: seq<Cap>) returns (violations: seq<Violation>)
    ensures violations == [] <==> MeetsCaps(CalendarOf(moved, p), caps)
    ensures Reports(violations, CalendarOf(moved, p), caps)
  {
    var order := Query(moved, p);
    QueryReadsRows(moved, p, order);
    var planned := Map(Read(moved, order), FreshOf());
    MeetsCapsPermutes(planned, CalendarOf(moved, p), caps);
    violations := EnforceHardCaps(planned, caps);
    ReportsPermute(violations, planned, CalendarOf(moved, p), caps);
  }
}
