/** The transaction search of one day pairs the two transactions of a related group: the loop
    fills a lookup and rewrites its entries in place, the plan joins a pair table back. */
module AdminPairing {
  import opened Prelude
  import opened Relational
  import opened LedgerControls
  import opened MergeStore

  datatype AdminRow = AdminRow(date: int, tx: string, wallet: string, related: Option<string>, paired: Option<string>)

  // ----- Groups and pairs ------------------------------------------------------------------

  /** The transactions of a related group on a day. */
  function Members(base: seq<AdminRow>, d: int, r: string): set<string> {
    set e | e in base && e.date == d && e.related == Some(r) :: e.tx
  }

  /** Group r consists of t and p. */
  predicate PairOf(base: seq<AdminRow>, d: int, r: string, t: string, p: string) {
    r != "" && t != p && Members(base, d, r) == {t, p}
  }

  ghost predicate Paired(base: seq<AdminRow>, d: int, t: string, p: string) {
    exists r :: PairOf(base, d, r, t, p)
  }

  /** No transaction is in two groups of two on one day. */
  ghost predicate NoDoublePairing(base: seq<AdminRow>) {
    forall d, t, r, p, q, s :: PairOf(base, d, r, t, p) && PairOf(base, d, q, t, s) ==> r == q
  }

  /** Each transaction carries at most one related id a day. */
  ghost predicate OneRelatedId(base: seq<AdminRow>) {
    forall e, f | e in base && f in base && e.date == f.date && e.tx == f.tx && e.related.Some? && f.related.Some? ::
        e.related == f.related
  }

  lemma {:induction false} OneRelatedIdPairsOnce(base: seq<AdminRow>)
    requires OneRelatedId(base)
    ensures NoDoublePairing(base)
  {
  }

  /** Pairing is symmetric and never pairs a transaction with itself; without double pairing the
      partner is unique. */
  lemma {:induction false} PairingIsAnInvolution(base: seq<AdminRow>, d: int, t: string, p: string, q: string)
    requires Paired(base, d, t, p)
    ensures Paired(base, d, p, t) && t != p
    ensures NoDoublePairing(base) && Paired(base, d, t, q) ==> p == q
  {
    var r :| PairOf(base, d, r, t, p);
    assert PairOf(base, d, r, p, t);
    if NoDoublePairing(base) && Paired(base, d, t, q) {
      var s :| PairOf(base, d, s, t, q);
      assert {t, p} == {t, q};
      assert q in {t, p} && p in {t, q};
    }
  }

  // ----- The loop -----------------------------------------------------------------------------

  predicate Listed(r: LedgerRecord, d: int) {
    EventKst(r) == Some(d) && Truthy(r.txId) && Truthy(r.walletId)
  }

  /** The entries of the day before pairing. */
  function DayEntries(ledger: seq<LedgerRecord>, d: int): seq<AdminRow> {
    if ledger == [] then []
    else
      var r := ledger[|ledger|-1];
      DayEntries(ledger[..|ledger|-1], d)
      + if Listed(r, d) then [AdminRow(d, r.txId.value, r.walletId.value, r.relatedId, None)] else []
  }

  function IdSet(ids: seq<string>): set<string> {
    set t | t in ids
  }

  ghost predicate GroupsOf(base: seq<AdminRow>, d: int, order: seq<string>, groups: map<string, seq<string>>) {
    && Ordered(order, groups)
    && (forall r | r in groups :: r != "" && IdSet(groups[r]) == Members(base, d, r))
    && (forall r | r != "" && Members(base, d, r) != {} :: r in groups)
  }

  lemma {:induction false} MembersStep(base: seq<AdminRow>, e: AdminRow, d: int, r: string)
    ensures Members(base + [e], d, r) == Members(base, d, r) + if e.date == d && e.related == Some(r) then {e.tx}
            else {}
  {
  }

  /** Adding an entry with a related id adds its transaction to that id's group. */
  lemma {:induction false} GroupsStep(base: seq<AdminRow>, e: AdminRow, d: int, order: seq<string>,
                                      groups: map<string, seq<string>>)
    requires GroupsOf(base, d, order, groups) && e.date == d
    ensures !Truthy(e.related) ==> GroupsOf(base + [e], d, order, groups)
    ensures Truthy(e.related) && e.related.value !in groups ==>
              GroupsOf(base + [e], d, order + [e.related.value], groups[e.related.value := [e.tx]])
    ensures Truthy(e.related) && e.related.value in groups ==>
              GroupsOf(base + [e], d, order, groups[e.related.value := groups[e.related.value] + [e.tx]])
  {
    forall r
      ensures Members(base + [e], d, r) == Members(base, d, r) + if e.related == Some(r) then {e.tx} else {}
    {
      MembersStep(base, e, d, r);
    }
    if Truthy(e.related) {
      var key := e.related.value;
      if key in groups {
        assert IdSet(groups[key] + [e.tx]) == IdSet(groups[key]) + {e.tx};
      } else {
        assert Members(base, d, key) == {} && IdSet([e.tx]) == {e.tx};
      }
    }
  }

  method CollectGroups(ledger: seq<LedgerRecord>, targetDate: int)
    returns (entries: seq<AdminRow>, order: seq<string>, groups: map<string, seq<string>>)
    ensures entries == DayEntries(ledger, targetDate)
    ensures GroupsOf(entries, targetDate, order, groups)
  {
    entries, order, groups := [], [], map[];
    for i := 0 to |ledger|
      invariant entries == DayEntries(ledger[..i], targetDate)
      invariant GroupsOf(entries, targetDate, order, groups)
    {
      assert ledger[..i+1][..i] == ledger[..i];
      var record := ledger[i];
      if EventKst(record) != Some(targetDate) || !Truthy(record.txId) || !Truthy(record.walletId) {
        continue;
      }
      var e := AdminRow(targetDate, record.txId.value, record.walletId.value, record.relatedId, None);
      GroupsStep(entries, e, targetDate, order, groups);
      if Truthy(record.relatedId) {
        var key := record.relatedId.value;
        ghost var before := groups;
        if key !in groups {
          order := order + [key];
          groups := groups[key := []];
        }
        groups := groups[key := groups[key] + [e.tx]];
        assert [] + [e.tx] == [e.tx];
        assert groups == before[key := if key in before then before[key] + [e.tx] else [e.tx]];
      }
      entries := entries + [e];
    }
    assert ledger[..|ledger|] == ledger;
  }

  /** list(dict.fromkeys(ids)): the distinct ids in order of first occurrence. */
  method Distinct(ids: seq<string>) returns (unique: seq<string>)
    ensures forall i, j | 0 <= i < j < |unique| :: unique[i] != unique[j]
    ensures forall t :: t in unique <==> t in ids
  {
    unique := [];
    for i := 0 to |ids|
      invariant forall i, j | 0 <= i < j < |unique| :: unique[i] != unique[j]
      invariant forall t :: t in unique <==> t in ids[..i]
    {
      assert ids[..i+1] == ids[..i] + [ids[i]];
      if ids[i] !in unique {
        unique := unique + [ids[i]];
      }
    }
    assert ids[..|ids|] == ids;
  }

  /** A lookup of partners: every answer is a pair, every paired transaction has an answer. */
  ghost predicate PairLookup(base: seq<AdminRow>, d: int, lookup: map<string, string>) {
    && (forall t | t in lookup :: Paired(base, d, t, lookup[t]))
    && (forall r, t, p | PairOf(base, d, r, t, p) :: t in lookup)
  }

  method BuildLookup(ghost base: seq<AdminRow>, d: int, order: seq<string>, groups: map<string, seq<string>>)
    returns (lookup: map<string, string>)
    requires GroupsOf(base, d, order, groups)
    ensures PairLookup(base, d, lookup)
  {
    lookup := map[];
    for i := 0 to |order|
      invariant forall t | t in lookup :: Paired(base, d, t, lookup[t])
      invariant forall k, t, p | 0 <= k < i && PairOf(base, d, order[k], t, p) :: t in lookup
    {
      assert order[i] in order;
      var unique := Distinct(groups[order[i]]);
      assert IdSet(unique) == Members(base, d, order[i]);
      forall t, p | PairOf(base, d, order[i], t, p)
        ensures |unique| == 2
      {
        PairSetHasTwo(unique, t, p);
      }
      if |unique| == 2 {
        assert IdSet(unique) == {unique[0], unique[1]};
        assert PairOf(base, d, order[i], unique[0], unique[1]) && PairOf(base, d, order[i], unique[1], unique[0]);
        lookup := lookup[unique[0] := unique[1]];
        lookup := lookup[unique[1] := unique[0]];
      }
    }
    forall r, t, p | PairOf(base, d, r, t, p)
      ensures t in lookup
    {
      assert t in Members(base, d, r);
      var k :| 0 <= k < |order| && order[k] == r;
    }
  }

  lemma {:induction false} PairSetHasTwo(unique: seq<string>, t: string, p: string)
    requires forall i, j | 0 <= i < j < |unique| :: unique[i] != unique[j]
    requires t != p && IdSet(unique) == {t, p}
    ensures |unique| == 2
  {
    assert t in IdSet(unique) && p in IdSet(unique);
    var i :| 0 <= i < |unique| && unique[i] == t;
    var j :| 0 <= j < |unique| && unique[j] == p;
    if |unique| > 2 {
      OnlyTwoPlaces(unique, t, p, i, j, 0);
      OnlyTwoPlaces(unique, t, p, i, j, 1);
      OnlyTwoPlaces(unique, t, p, i, j, 2);
    }
  }

  lemma {:induction false} OnlyTwoPlaces(unique: seq<string>, t: string, p: string, i: nat, j: nat, k: nat)
    requires forall a, b | 0 <= a < b < |unique| :: unique[a] != unique[b]
    requires IdSet(unique) == {t, p}
    requires i < |unique| && j < |unique| && k < |unique| && unique[i] == t && unique[j] == p
    ensures k == i || k == j
  {
    assert unique[k] in IdSet(unique);
    assert unique[k] in {t, p};
  }

  /** Entry after pairing against entry before. */
  ghost predicate WithPartner(base: seq<AdminRow>, before: AdminRow, after: AdminRow) {
    && after == before.(paired := after.paired)
    && (after.paired.Some? ==> Paired(base, before.date, before.tx, after.paired.value))
    && (after.paired.None? ==> forall p :: !Paired(base, before.date, before.tx, p))
  }

  /** An entry with the lookup's answer attached. */
  function Answered(lookup: map<string, string>, e: AdminRow): AdminRow {
    if e.tx in lookup then e.(paired := Some(lookup[e.tx])) else e
  }

  lemma {:induction false} AnswerIsPartner(base: seq<AdminRow>, d: int, lookup: map<string, string>, e: AdminRow)
    requires PairLookup(base, d, lookup) && e.date == d && e.paired.None?
    ensures WithPartner(base, e, Answered(lookup, e))
  {
    forall p | Paired(base, d, e.tx, p)
      ensures e.tx in lookup
    {
      var r :| PairOf(base, d, r, e.tx, p);
    }
  }

  /** The last loop rewrites the entries in place. */
  method AttachPartners(entries: array<AdminRow>, ghost d: int, lookup: map<string, string>)
    requires PairLookup(entries[..], d, lookup)
    requires forall i | 0 <= i < entries.Length :: entries[i].date == d && entries[i].paired.None?
    modifies entries
    ensures forall i | 0 <= i < entries.Length :: WithPartner(old(entries[..]), old(entries[i]), entries[i])
  {
    ghost var base := entries[..];
    forall k | 0 <= k < |base|
      ensures WithPartner(base, base[k], Answered(lookup, base[k]))
    {
      AnswerIsPartner(base, d, lookup, base[k]);
    }
    AnswerInPlace(entries, lookup);
    assert forall k | 0 <= k < entries.Length :: entries[k] == Answered(lookup, base[k]);
  }

  method AnswerInPlace(entries: array<AdminRow>, lookup: map<string, string>)
    modifies entries
    ensures forall i | 0 <= i < entries.Length :: entries[i] == Answered(lookup, old(entries[i]))
  {
    for i := 0 to entries.Length
      invariant forall k | 0 <= k < i :: entries[k] == Answered(lookup, old(entries[k]))
      invariant forall k | i <= k < entries.Length :: entries[k] == old(entries[k])
    {
      var tx := entries[i].tx;
      if tx in lookup {
        entries[i] := entries[i].(paired := Some(lookup[tx]));
      }
    }
  }

  method BuildAdminTxSearch(ledger: seq<LedgerRecord>, targetDate: int) returns (entries: array<AdminRow>)
    ensures fresh(entries) && entries.Length == |DayEntries(ledger, targetDate)|
    ensures forall i | 0 <= i < entries.Length ::
            WithPartner(DayEntries(ledger, targetDate), DayEntries(ledger, targetDate)[i], entries[i])
  {
    var list, order, groups := CollectGroups(ledger, targetDate);
    var lookup := BuildLookup(list, targetDate, order, groups);
    entries := new AdminRow[|list|](i requires 0 <= i < |list| => list[i]);
    assert entries[..] == list;
    DayEntriesAre(ledger, targetDate);
    AttachPartners(entries, targetDate, lookup);
  }

  lemma {:induction false} DayEntriesAre(ledger: seq<LedgerRecord>, d: int)
    ensures forall i | 0 <= i < |DayEntries(ledger, d)| ::
            DayEntries(ledger, d)[i].date == d && DayEntries(ledger, d)[i].paired.None?
  {
    if ledger != [] {
      DayEntriesAre(ledger[..|ledger|-1], d);
    }
  }

  // ----- The plan -------------------------------------------------------------------------------

  /** The plan leaves out a related id of spaces alone, which the loop takes for a group. */
  predicate PlanPairOf(base: seq<AdminRow>, d: int, r: string, t: string, p: string) {
    NonBlank(Some(r)) && PairOf(base, d, r, t, p)
  }

  ghost predicate PlanPaired(base: seq<AdminRow>, d: int, t: string, p: string) {
    exists r :: PlanPairOf(base, d, r, t, p)
  }

  /** No transaction is in two groups of two that the plan collects for one day. */
  ghost predicate NoDoublePlanPairing(base: seq<AdminRow>) {
    forall d, t, r, p, q, s :: PlanPairOf(base, d, r, t, p) && PlanPairOf(base, d, q, t, s) ==> r == q
  }

  datatype PairGroup = PairGroup(date: int, related: string, left: string, right: string)

  /** The groups of two the plan may collect, in any order, members in any order. */
  ghost predicate PairGroups(base: seq<AdminRow>, groups: seq<PairGroup>) {
    && (forall i, j | 0 <= i < j < |groups| ::
        groups[i].date != groups[j].date || groups[i].related != groups[j].related)
    && (forall g | g in groups :: PlanPairOf(base, g.date, g.related, g.left, g.right))
    && (forall d, r, t, p | PlanPairOf(base, d, r, t, p) :: exists g :: g in groups && g.date == d && g.related == r)
  }

  function GroupKey(): AdminRow -> (int, Option<string>) { (e: AdminRow) => (e.date, e.related) }

  /** The groups among the first n keys. */
  ghost predicate GroupsAmong(base: seq<AdminRow>, ks: seq<(int, Option<string>)>, groups: seq<PairGroup>) {
    && (forall i, j | 0 <= i < j < |groups| ::
        groups[i].date != groups[j].date || groups[i].related != groups[j].related)
    && (forall g | g in groups :: PlanPairOf(base, g.date, g.related, g.left, g.right)
                                  && (g.date, Some(g.related)) in ks)
    && (forall d, r, t, p | PlanPairOf(base, d, r, t, p) && (d, Some(r)) in ks :: HasGroupOf(groups, d, r))
  }

  ghost predicate HasGroupOf(groups: seq<PairGroup>, d: int, r: string) {
    exists g :: g in groups && g.date == d && g.related == r
  }

  lemma {:induction false} GroupsAmongStep(base: seq<AdminRow>, ks: seq<(int, Option<string>)>,
                                           k: (int, Option<string>), groups: seq<PairGroup>)
    returns (more: seq<PairGroup>)
    requires GroupsAmong(base, ks, groups) && k !in ks
    ensures GroupsAmong(base, ks + [k], more)
  {
    more := groups;
    if k.1.Some? {
      var d, r := k.0, k.1.value;
      if t, p :| PlanPairOf(base, d, r, t, p) {
        more := groups + [PairGroup(d, r, t, p)];
        assert more[|groups|] in more;
      }
      forall e, q, t, p | PlanPairOf(base, e, q, t, p) && (e, Some(q)) in ks + [k]
        ensures HasGroupOf(more, e, q)
      {
        if (e, Some(q)) in ks {
          assert HasGroupOf(groups, e, q);
          var g :| g in groups && g.date == e && g.related == q;
          assert g in more;
        }
      }
    }
  }

  lemma {:induction false} GroupsAmongExist(base: seq<AdminRow>, ks: seq<(int, Option<string>)>)
    returns (groups: seq<PairGroup>)
    requires forall i, j | 0 <= i < j < |ks| :: ks[i] != ks[j]
    ensures GroupsAmong(base, ks, groups)
  {
    if ks == [] {
      groups := [];
    } else {
      groups := GroupsAmongExist(base, ks[..|ks|-1]);
      assert ks == ks[..|ks|-1] + [ks[|ks|-1]];
      groups := GroupsAmongStep(base, ks[..|ks|-1], ks[|ks|-1], groups);
    }
  }

  /** The grouping always has an output. */
  lemma {:induction false} PairGroupsExist(base: seq<AdminRow>) returns (groups: seq<PairGroup>)
    ensures PairGroups(base, groups)
  {
    var ks := KeysListed(base, GroupKey());
    groups := GroupsAmongExist(base, ks);
    forall d, r, t, p | PlanPairOf(base, d, r, t, p)
      ensures exists g :: g in groups && g.date == d && g.related == r
    {
      assert t in Members(base, d, r);
      var e :| e in base && e.date == d && e.related == Some(r) && e.tx == t;
      assert HasKey(base, GroupKey(), (d, Some(r)));
      assert HasGroupOf(groups, d, r);
    }
  }

  datatype PairRow = PairRow(date: int, tx: string, partner: string)

  /** Both directions of every group, as a union. */
  function PairRows(groups: seq<PairGroup>): seq<PairRow> {
    seq(|groups|, i requires 0 <= i < |groups| => PairRow(groups[i].date, groups[i].left, groups[i].right))
    + seq(|groups|, i requires 0 <= i < |groups| => PairRow(groups[i].date, groups[i].right, groups[i].left))
  }

  function OnTx(): (AdminRow, PairRow) -> bool { (e: AdminRow, p: PairRow) => e.date == p.date && e.tx == p.tx }

  function AdminPlan(base: seq<AdminRow>, groups: seq<PairGroup>): seq<AdminRow> {
    var joined := LeftJoin(base, PairRows(groups), OnTx());
    seq(|joined|, i requires 0 <= i < |joined| =>
      joined[i].0.(paired := if joined[i].1.Some? then Some(joined[i].1.value.partner) else None))
  }

  /** Row n of the pair table comes from group n, or, mirrored, from group n - |groups|. */
  lemma {:induction false} PairRowIs(base: seq<AdminRow>, groups: seq<PairGroup>, n: nat) returns (i: nat)
    requires PairGroups(base, groups) && n < |PairRows(groups)|
    ensures i < |groups| && (n == i || n == |groups| + i)
    ensures var row := PairRows(groups)[n];
            row.date == groups[i].date && PlanPairOf(base, row.date, groups[i].related, row.tx, row.partner)
  {
    i := if n < |groups| then n else n - |groups|;
    assert groups[i] in groups;
    assert {groups[i].left, groups[i].right} == {groups[i].right, groups[i].left};
  }

  /** Two pair rows for one transaction come from two groups of two that share it. */
  lemma {:induction false} TwoPairRowsAreTwoGroups(base: seq<AdminRow>, groups: seq<PairGroup>, a: nat, b: nat)
    requires PairGroups(base, groups) && a < b < |PairRows(groups)|
    requires PairRows(groups)[a].date == PairRows(groups)[b].date && PairRows(groups)[a].tx == PairRows(groups)[b].tx
    ensures !NoDoublePlanPairing(base)
  {
    var i := PairRowIs(base, groups, a);
    var j := PairRowIs(base, groups, b);
    assert groups[i] in groups && groups[j] in groups;
    assert i != j;
    assert groups[i].related != groups[j].related;
  }

  /** The join back duplicates no entry exactly when no transaction is in two groups of two. */
  lemma {:induction false} PairJoinKeepsCountIff(base: seq<AdminRow>, groups: seq<PairGroup>)
    requires PairGroups(base, groups)
    ensures |AdminPlan(base, groups)| == |base| <==> NoDoublePlanPairing(base)
  {
    var rows := PairRows(groups);
    LeftJoinKeepsCountIff(base, rows, OnTx());
    if NoDoublePlanPairing(base) {
      forall a, b | 0 <= a < b < |rows|
        ensures rows[a].date != rows[b].date || rows[a].tx != rows[b].tx
      {
        if rows[a].date == rows[b].date && rows[a].tx == rows[b].tx {
          TwoPairRowsAreTwoGroups(base, groups, a, b);
        }
      }
      assert forall k | 0 <= k < |base| :: Unambiguous(base[k], rows, OnTx());
    } else {
      var d, t, r, p, q, s :| PlanPairOf(base, d, r, t, p) && PlanPairOf(base, d, q, t, s) && r != q;
      DoublePairingIsAmbiguous(base, groups, d, t, r, p, q, s);
    }
  }

  lemma {:induction false} TwoMatches<X, Y>(x: X, ys: seq<Y>, on: (X, Y) -> bool, a: nat, b: nat)
    requires a < |ys| && b < |ys| && a != b && on(x, ys[a]) && on(x, ys[b])
    ensures !Unambiguous(x, ys, on)
  {
  }

  lemma {:induction false} DoublePairingIsAmbiguous(base: seq<AdminRow>, groups: seq<PairGroup>, d: int, t: string,
                                                    r: string, p: string, q: string, s: string)
    requires PairGroups(base, groups)
    requires PlanPairOf(base, d, r, t, p) && PlanPairOf(base, d, q, t, s) && r != q
    ensures !AtMostOneMatch(base, PairRows(groups), OnTx())
  {
    var rows := PairRows(groups);
    assert t in Members(base, d, r);
    var e :| e in base && e.date == d && e.related == Some(r) && e.tx == t;
    var k :| 0 <= k < |base| && base[k] == e;
    var a, i := RowOfGroup(base, groups, d, r, t, p);
    var b, j := RowOfGroup(base, groups, d, q, t, s);
    assert a != b;
    TwoMatches(base[k], rows, OnTx(), a, b);
  }

  /** The pair row that names t first, and the group it comes from. */
  lemma {:induction false} RowOfGroup(base: seq<AdminRow>, groups: seq<PairGroup>, d: int, r: string, t: string,
                                      p: string)
    returns (n: nat, i: nat)
    requires PairGroups(base, groups) && PlanPairOf(base, d, r, t, p)
    ensures i < |groups| && groups[i].related == r && (n == i || n == |groups| + i)
    ensures n < |PairRows(groups)| && PairRows(groups)[n].date == d && PairRows(groups)[n].tx == t
            && PairRows(groups)[n].partner == p
  {
    var g :| g in groups && g.date == d && g.related == r;
    i :| 0 <= i < |groups| && groups[i] == g;
    assert {g.left, g.right} == {t, p};
    assert g.left in {t, p} && g.right in {t, p} && t in {g.left, g.right};
    n := if g.left == t then i else |groups| + i;
  }

  /** Entry after the plan's pairing against entry before. */
  ghost predicate WithPlanPartner(base: seq<AdminRow>, before: AdminRow, after: AdminRow) {
    && after == before.(paired := after.paired)
    && (after.paired.Some? ==> PlanPaired(base, before.date, before.tx, after.paired.value))
    && (after.paired.None? ==> forall p :: !PlanPaired(base, before.date, before.tx, p))
  }

  lemma {:induction false} PlanPartnerIsUnique(base: seq<AdminRow>, d: int, t: string, p: string, q: string)
    requires NoDoublePlanPairing(base) && PlanPaired(base, d, t, p) && PlanPaired(base, d, t, q)
    ensures p == q
  {
    var r :| PlanPairOf(base, d, r, t, p);
    var s :| PlanPairOf(base, d, s, t, q);
    assert {t, p} == {t, q};
    assert q in {t, p} && p in {t, q};
  }

  /** Where the plan pairs no transaction twice, every entry gets the partner the plan's groups name,
      if they name one. */
  lemma {:induction false} PlanEntryIsAttached(base: seq<AdminRow>, groups: seq<PairGroup>, i: nat)
    requires PairGroups(base, groups) && NoDoublePlanPairing(base) && i < |base|
    ensures |AdminPlan(base, groups)| == |base| && WithPlanPartner(base, base[i], AdminPlan(base, groups)[i])
  {
    var rows, d, t := PairRows(groups), base[i].date, base[i].tx;
    PairJoinKeepsCountIff(base, groups);
    LeftJoinKeepsCountIff(base, rows, OnTx());
    LeftJoinIsLookup(base, rows, OnTx(), i);
    var found := LeftJoin(base, rows, OnTx())[i].1;
    forall p | PlanPaired(base, d, t, p)
      ensures found.Some?
    {
      var r :| PlanPairOf(base, d, r, t, p);
      var n, g := RowOfGroup(base, groups, d, r, t, p);
      assert OnTx()(base[i], rows[n]) && rows[n] in rows;
    }
    if found.Some? {
      var n :| 0 <= n < |rows| && rows[n] == found.value;
      var g := PairRowIs(base, groups, n);
      assert PlanPaired(base, d, t, found.value.partner);
    }
  }

  // ----- All target dates at once -------------------------------------------------------------------

  predicate PlanListed(r: LedgerRecord, dates: set<int>) {
    EventKst(r).Some? && EventKst(r).value in dates && NonBlank(r.txId) && NonBlank(r.walletId)
  }

  /** On any text, the plan lists what the loop lists on a target date, less the records whose transaction or
      wallet id is spaces alone. */
  lemma {:induction false} PlanListsIff(r: LedgerRecord, dates: set<int>)
    ensures PlanListed(r, dates)
            <==> exists d :: d in dates && Listed(r, d) && HoldsInk(r.txId) && HoldsInk(r.walletId)
  {
    BlankMeans(r.txId);
    BlankMeans(r.walletId);
    if PlanListed(r, dates) {
      assert Listed(r, EventKst(r).value);
    }
  }

  /** The plan's entries for a set of dates, before pairing. */
  function PlanEntries(ledger: seq<LedgerRecord>, dates: set<int>): seq<AdminRow> {
    if ledger == [] then []
    else
      var r := ledger[|ledger|-1];
      PlanEntries(ledger[..|ledger|-1], dates)
      + if PlanListed(r, dates) then [AdminRow(EventKst(r).value, r.txId.value, r.walletId.value, r.relatedId, None)]
          else []
  }

  function OnDay(d: int): AdminRow -> bool { (e: AdminRow) => e.date == d }

  lemma {:induction false} DayOfPlanEntries(ledger: seq<LedgerRecord>, dates: set<int>, d: int)
    requires d in dates && forall i | 0 <= i < |ledger| :: Clean(ledger[i].txId) && Clean(ledger[i].walletId)
    ensures Filter(PlanEntries(ledger, dates), OnDay(d)) == DayEntries(ledger, d)
  {
    if ledger != [] {
      var front, r := ledger[..|ledger|-1], ledger[|ledger|-1];
      DayOfPlanEntries(front, dates, d);
      CleanTextHasOneNotionOfMissing(r.txId);
      CleanTextHasOneNotionOfMissing(r.walletId);
      if PlanListed(r, dates) {
        var e := AdminRow(EventKst(r).value, r.txId.value, r.walletId.value, r.relatedId, None);
        FilterStep(PlanEntries(front, dates), e, OnDay(d));
      } else {
        assert PlanEntries(ledger, dates) == PlanEntries(front, dates) && !Listed(r, d);
      }
    }
  }

  /** The plan's partner of a transaction, where it has one. */
  ghost function Partner(base: seq<AdminRow>, d: int, t: string): Option<string> {
    if p :| PlanPaired(base, d, t, p) then Some(p) else None
  }

  ghost function Attached(base: seq<AdminRow>, entries: seq<AdminRow>): seq<AdminRow> {
    if entries == [] then []
    else
      var e := entries[|entries|-1];
      Attached(base, entries[..|entries|-1]) + [e.(paired := Partner(base, e.date, e.tx))]
  }

  lemma {:induction false} AttachedIs(base: seq<AdminRow>, entries: seq<AdminRow>, rows: seq<AdminRow>)
    requires NoDoublePlanPairing(base) && |rows| == |entries|
    requires forall i | 0 <= i < |rows| :: WithPlanPartner(base, entries[i], rows[i])
    ensures rows == Attached(base, entries)
  {
    if entries != [] {
      var n := |entries| - 1;
      AttachedIs(base, entries[..n], rows[..n]);
      var (d, t) := (entries[n].date, entries[n].tx);
      if rows[n].paired.Some? && Partner(base, d, t).Some? {
        PlanPartnerIsUnique(base, d, t, rows[n].paired.value, Partner(base, d, t).value);
      }
      assert rows == rows[..n] + [rows[n]];
    }
  }

  lemma {:induction false} FilterOfAttached(base: seq<AdminRow>, entries: seq<AdminRow>, d: int)
    ensures Filter(Attached(base, entries), OnDay(d)) == Attached(base, Filter(entries, OnDay(d)))
  {
    if entries != [] {
      var front, e := entries[..|entries|-1], entries[|entries|-1];
      FilterOfAttached(base, front, d);
      FilterStep(Attached(base, front), e.(paired := Partner(base, e.date, e.tx)), OnDay(d));
      if e.date == d {
        assert (Filter(front, OnDay(d)) + [e])[..|Filter(front, OnDay(d))|] == Filter(front, OnDay(d));
      }
    }
  }

  /** Groups of a day depend on the entries of that day alone. */
  lemma {:induction false} DaysPairIndependently(base: seq<AdminRow>, d: int, r: string, t: string, p: string)
    ensures PairOf(base, d, r, t, p) <==> PairOf(Filter(base, OnDay(d)), d, r, t, p)
  {
    assert Members(base, d, r) == Members(Filter(base, OnDay(d)), d, r);
  }

  lemma {:induction false} PlanIsAttached(base: seq<AdminRow>, groups: seq<PairGroup>)
    requires PairGroups(base, groups) && NoDoublePlanPairing(base)
    ensures AdminPlan(base, groups) == Attached(base, base)
  {
    PairJoinKeepsCountIff(base, groups);
    forall i | 0 <= i < |base|
      ensures WithPlanPartner(base, base[i], AdminPlan(base, groups)[i])
    {
      PlanEntryIsAttached(base, groups, i);
    }
    AttachedIs(base, base, AdminPlan(base, groups));
  }

  /** No group of two of the day has a related id of spaces alone. */
  ghost predicate EveryPairIsNamed(day: seq<AdminRow>, d: int) {
    forall r, t, p | PairOf(day, d, r, t, p) :: NonBlank(Some(r))
  }

  /** Where every pair of the day is named, the loop's partners are the plan's. */
  lemma {:induction false} NamedPairsAgree(base: seq<AdminRow>, day: seq<AdminRow>, d: int, before: AdminRow,
                                           after: AdminRow)
    requires day == Filter(base, OnDay(d)) && EveryPairIsNamed(day, d)
    requires before.date == d && WithPartner(day, before, after)
    ensures WithPlanPartner(base, before, after)
  {
    forall r, p
      ensures PairOf(day, d, r, before.tx, p) <==> PlanPairOf(base, d, r, before.tx, p)
    {
      DaysPairIndependently(base, d, r, before.tx, p);
    }
    if after.paired.Some? {
      var r :| PairOf(day, d, r, before.tx, after.paired.value);
      assert PlanPairOf(base, d, r, before.tx, after.paired.value);
    }
    forall p | PlanPaired(base, d, before.tx, p)
      ensures Paired(day, d, before.tx, p)
    {
      var r :| PlanPairOf(base, d, r, before.tx, p);
      assert PairOf(day, d, r, before.tx, p);
    }
  }

  /** An unnamed pair shows: the loop gives its transaction a partner, no row of the plan does. */
  lemma {:induction false} UnnamedPairSeparates(base: seq<AdminRow>, groups: seq<PairGroup>, day: seq<AdminRow>, d: int,
                                                looped: seq<AdminRow>, r: string, t: string, p: string)
    returns (i: nat)
    requires PairGroups(base, groups) && NoDoublePairing(base) && day == Filter(base, OnDay(d))
    requires |looped| == |day| && forall j | 0 <= j < |looped| :: WithPartner(day, day[j], looped[j])
    requires PairOf(day, d, r, t, p) && !NonBlank(Some(r))
    ensures i < |looped| && looped[i] !in AdminPlan(base, groups)
  {
    assert t in Members(day, d, r);
    i :| 0 <= i < |day| && day[i].date == d && day[i].tx == t;
    assert Paired(day, d, t, p);
    if looped[i] in AdminPlan(base, groups) {
      PairJoinKeepsCountIff(base, groups);
      var k :| 0 <= k < |AdminPlan(base, groups)| && AdminPlan(base, groups)[k] == looped[i];
      PlanEntryIsAttached(base, groups, k);
      var q :| PlanPairOf(base, d, q, t, looped[i].paired.value);
      assert PairOf(base, d, q, t, looped[i].paired.value);
      DaysPairIndependently(base, d, r, t, p);
    }
  }

  /** Refinement: on clean transaction and wallet ids, where no transaction is in two groups of two,
      the plan's table, in whatever order the engine returns it, holds for a target date exactly the
      entries the loop returns, partners included, if and only if no group of two of that day has a
      related id of spaces alone. */
  lemma {:induction false} AdminPlanRefinesLoopIff(ledger: seq<LedgerRecord>, dates: set<int>, groups: seq<PairGroup>,
                                                   d: int, looped: seq<AdminRow>, out: seq<AdminRow>)
    requires d in dates && forall i | 0 <= i < |ledger| :: Clean(ledger[i].txId) && Clean(ledger[i].walletId)
    requires PairGroups(PlanEntries(ledger, dates), groups) && NoDoublePairing(PlanEntries(ledger, dates))
    requires SameBag(out, AdminPlan(PlanEntries(ledger, dates), groups))
    requires |looped| == |DayEntries(ledger, d)|
    requires forall i | 0 <= i < |looped| :: WithPartner(DayEntries(ledger, d), DayEntries(ledger, d)[i], looped[i])
    ensures SameBag(Filter(out, OnDay(d)), looped) <==> EveryPairIsNamed(DayEntries(ledger, d), d)
  {
    var base, day := PlanEntries(ledger, dates), DayEntries(ledger, d);
    DayOfPlanEntries(ledger, dates, d);
    DayEntriesAre(ledger, d);
    FilterOfBag(out, AdminPlan(base, groups), OnDay(d));
    if EveryPairIsNamed(day, d) {
      PlanIsAttached(base, groups);
      FilterOfAttached(base, base, d);
      forall i | 0 <= i < |looped|
        ensures WithPlanPartner(base, day[i], looped[i])
      {
        NamedPairsAgree(base, day, d, day[i], looped[i]);
      }
      AttachedIs(base, day, looped);
    } else {
      var r, t, p :| PairOf(day, d, r, t, p) && !NonBlank(Some(r));
      var i := UnnamedPairSeparates(base, groups, day, d, looped, r, t, p);
      if SameBag(Filter(out, OnDay(d)), looped) {
        FilteredIsHeld(out, AdminPlan(base, groups), OnDay(d), looped, looped[i]);
      }
    }
  }

  // ----- Repeating the write ---------------------------------------------------------------------

  function AdminMergeKey(): KeyOf<AdminRow, (int, string)> { (e: AdminRow) => Some((e.date, e.tx)) }

  function DayRow(d: int): LedgerRecord -> Option<AdminRow> {
    (r: LedgerRecord) => if Listed(r, d) then Some(AdminRow(d, r.txId.value, r.walletId.value, r.relatedId, None))
        else None
  }

  lemma {:induction false} DayEntriesAreCollected(ledger: seq<LedgerRecord>, d: int)
    ensures DayEntries(ledger, d) == Collect(ledger, DayRow(d))
  {
    if ledger != [] {
      DayEntriesAreCollected(ledger[..|ledger|-1], d);
    }
  }

  /** No two listed records of the day share a transaction id. */
  predicate OneEntryPerTx(ledger: seq<LedgerRecord>, d: int) {
    forall i, j | 0 <= i < j < |ledger| && Listed(ledger[i], d) && Listed(ledger[j], d) ::
        ledger[i].txId != ledger[j].txId
  }

  /** The search table is keyed by (date, tx) while Silver keys its entries by (tx, wallet). So the
      day's write can be repeated exactly when no two listed records of the day share a
      transaction; otherwise the first write stores twins and the next one is refused. */
  lemma {:induction false} SearchWriteRepeatsIff(table: Option<seq<AdminRow>>, ledger: seq<LedgerRecord>, d: int,
                                                 out: seq<AdminRow>)
    requires |out| == |DayEntries(ledger, d)|
    requires forall i | 0 <= i < |out| :: WithPartner(DayEntries(ledger, d), DayEntries(ledger, d)[i], out[i])
    ensures Keyed(out, AdminMergeKey()) <==> OneEntryPerTx(ledger, d)
    ensures MergeStore.Merge(out, out, AdminMergeKey(), false).Ok? <==> OneEntryPerTx(ledger, d)
    ensures WriteTo(table, out, AdminMergeKey(), false).Ok? ==>
              (WriteTo(WriteTo(table, out, AdminMergeKey(), false).value, out, AdminMergeKey(), false).Ok?
               <==> OneEntryPerTx(ledger, d))
  {
    DayEntriesAreCollected(ledger, d);
    CollectedUniqueIff(ledger, DayRow(d), AdminMergeKey());
    SameKeysSameUniqueness(out, DayEntries(ledger, d), AdminMergeKey());
    DayKeysAreTxIds(ledger, d);
    WriteAgainIff(None, out, AdminMergeKey());
    if WriteTo(table, out, AdminMergeKey(), false).Ok? {
      WriteAgainIff(table, out, AdminMergeKey());
    }
  }

  lemma {:induction false} DayKeysAreTxIds(ledger: seq<LedgerRecord>, d: int)
    ensures DistinctSources(ledger, DayRow(d), AdminMergeKey()) <==> OneEntryPerTx(ledger, d)
  {
    forall i, j | 0 <= i < |ledger| && 0 <= j < |ledger| && Listed(ledger[i], d) && Listed(ledger[j], d)
      ensures AdminMergeKey()(DayRow(d)(ledger[i]).value) == AdminMergeKey()(DayRow(d)(ledger[j]).value)
              <==> ledger[i].txId == ledger[j].txId
    {
    }
  }

  // ----- Repeating the plan's write ----------------------------------------------------------------

  function PlanDayRow(dates: set<int>): LedgerRecord -> Option<AdminRow> {
    (r: LedgerRecord) =>
      if PlanListed(r, dates) then Some(AdminRow(EventKst(r).value, r.txId.value, r.walletId.value, r.relatedId, None))
          else None
  }

  lemma {:induction false} PlanEntriesAreCollected(ledger: seq<LedgerRecord>, dates: set<int>)
    ensures PlanEntries(ledger, dates) == Collect(ledger, PlanDayRow(dates))
  {
    if ledger != [] {
      PlanEntriesAreCollected(ledger[..|ledger|-1], dates);
    }
  }

  predicate OneRowPerTx(ledger: seq<LedgerRecord>, dates: set<int>) {
    forall i, j | 0 <= i < j < |ledger| && PlanListed(ledger[i], dates) && PlanListed(ledger[j], dates)
                  && EventKst(ledger[i]) == EventKst(ledger[j]) :: ledger[i].txId != ledger[j].txId
  }

  lemma {:induction false} PlanKeysAreTxIds(ledger: seq<LedgerRecord>, dates: set<int>)
    ensures UniqueKeys(PlanEntries(ledger, dates), AdminMergeKey()) <==> OneRowPerTx(ledger, dates)
  {
    PlanEntriesAreCollected(ledger, dates);
    CollectedUniqueIff(ledger, PlanDayRow(dates), AdminMergeKey());
    forall i, j | 0 <= i < |ledger| && 0 <= j < |ledger| && PlanListed(ledger[i], dates) && PlanListed(ledger[j], dates)
      ensures AdminMergeKey()(PlanDayRow(dates)(ledger[i]).value) == AdminMergeKey()(PlanDayRow(dates)(ledger[j]).value)
              <==> EventKst(ledger[i]) == EventKst(ledger[j]) && ledger[i].txId == ledger[j].txId
    {
    }
  }

  /** Joining the pair table back keeps unique keys unique, and shared keys shared. */
  lemma {:induction false} PlanKeepsUniqueness(base: seq<AdminRow>, groups: seq<PairGroup>)
    requires PairGroups(base, groups)
    ensures UniqueKeys(AdminPlan(base, groups), AdminMergeKey()) <==> UniqueKeys(base, AdminMergeKey())
  {
    var key, rows := AdminMergeKey(), PairRows(groups);
    if UniqueKeys(base, key) {
      UniqueTxPairsOnce(base);
      PairJoinKeepsCountIff(base, groups);
      LeftJoinKeepsCountIff(base, rows, OnTx());
      forall i | 0 <= i < |base|
        ensures key(AdminPlan(base, groups)[i]) == key(base[i])
      {
        LeftJoinIsLookup(base, rows, OnTx(), i);
      }
      SameKeysSameUniqueness(AdminPlan(base, groups), base, key);
    } else {
      var i, j :| 0 <= i < j < |base| && key(base[i]) == key(base[j]);
      var a, b := LeftJoinKeepsOrder(base, rows, OnTx(), i, j);
      assert key(AdminPlan(base, groups)[a]) == key(AdminPlan(base, groups)[b]);
    }
  }

  lemma {:induction false} UniqueTxPairsOnce(base: seq<AdminRow>)
    requires UniqueKeys(base, AdminMergeKey())
    ensures NoDoublePairing(base)
  {
    forall e, f | e in base && f in base && e.date == f.date && e.tx == f.tx && e.related.Some? && f.related.Some?
      ensures e.related == f.related
    {
      var i :| 0 <= i < |base| && base[i] == e;
      var j :| 0 <= j < |base| && base[j] == f;
      assert AdminMergeKey()(base[i]) == AdminMergeKey()(base[j]);
    }
    OneRelatedIdPairsOnce(base);
  }

  /** The same for the plan, over all target dates, for every ledger and every pair table the engine
      may collect: its table is keyed, and its write can be repeated, exactly when no two listed
      records of one day share a transaction. */
  lemma {:induction false} PlanSearchWriteRepeatsIff(table: Option<seq<AdminRow>>, ledger: seq<LedgerRecord>,
                                                     dates: set<int>, groups: seq<PairGroup>)
    requires PairGroups(PlanEntries(ledger, dates), groups)
    ensures var out := AdminPlan(PlanEntries(ledger, dates), groups);
            && (Keyed(out, AdminMergeKey()) <==> OneRowPerTx(ledger, dates))
            && (MergeStore.Merge(out, out, AdminMergeKey(), false).Ok? <==> OneRowPerTx(ledger, dates))
            && (WriteTo(table, out, AdminMergeKey(), false).Ok? ==>
                  (WriteTo(WriteTo(table, out, AdminMergeKey(), false).value, out, AdminMergeKey(), false).Ok?
                   <==> OneRowPerTx(ledger, dates)))
  {
    var out := AdminPlan(PlanEntries(ledger, dates), groups);
    PlanKeysAreTxIds(ledger, dates);
    PlanKeepsUniqueness(PlanEntries(ledger, dates), groups);
    WriteAgainIff(None, out, AdminMergeKey());
    if WriteTo(table, out, AdminMergeKey(), false).Ok? {
      WriteAgainIff(table, out, AdminMergeKey());
    }
  }

  /** Silver does accept such records: two wallets of one transaction are two Silver keys. */
  lemma {:induction false} TwoWalletsDefeatTheMerge(d: int, tx: string, w1: string, w2: string)
    requires w1 != w2 && tx != "" && w1 != "" && w2 != ""
    ensures var r := LedgerRecord(Some(tx), Some(w1), None, None, None, None, None, Some(d), None);
            !OneEntryPerTx([r, r.(walletId := Some(w2))], d)
  {
    var r := LedgerRecord(Some(tx), Some(w1), None, None, None, None, None, Some(d), None);
    var ledger := [r, r.(walletId := Some(w2))];
    assert Listed(ledger[0], d) && Listed(ledger[1], d) && ledger[0].txId == ledger[1].txId;
  }
}
