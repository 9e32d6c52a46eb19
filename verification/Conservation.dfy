/** Conservation across days. Silver signs every entry with one table, Gold counts supply
    with another; reconciliation watches balances against the first, the supply control
    watches them against the second. This module ties the two together: how the supply
    difference moves from one day to the next, for Silver-produced entries. */
module Conservation {
  import opened Prelude
  import opened KstTime
  import opened SilverControls
  import opened LedgerControls

  // ----- The two sign tables ---------------------------------------------------------

  /** Entry types that move value between wallets without creating or destroying it. */
  function TransferSign(t: EntryType): int {
    match t
    case PAYMENT => -1
    case RECEIVE => 1
    case REFUND_OUT => -1
    case REFUND_IN => 1
    case _ => 0
  }

  /** Silver's sign is Gold's supply sign plus the transfer sign: an entry either changes
      supply, or moves value, or (HOLD, RELEASE) does neither. */
  lemma {:induction false} SignTablesSplit(t: EntryType)
    ensures EntryTypeSign(t).Some? ==>
              && EntryTypeSign(t).value == (if SupplySign(t).Some? then SupplySign(t).value else 0) + TransferSign(t)
              && (SupplySign(t).None? || TransferSign(t) == 0)
    ensures SupplySign(t).Some? ==> EntryTypeSign(t) == SupplySign(t)
  {
  }

  // ----- Silver-produced ledgers ---------------------------------------------------------

  /** What Silver guarantees of an accepted entry. */
  predicate FromSilver(e: SilverEntry) {
    && e.walletId != "" && EntryTypeSign(e.entryType).Some? && e.amount > 0
    && e.amountSigned == EntryTypeSign(e.entryType).value * e.amount
    && e.eventDateKst == DateKst(e.eventTime)
  }

  lemma {:induction false} AcceptedEntriesAreFromSilver(r: RawLedger, allowed: Allowlists, lookup: map<string, string>)
    ensures Verdict(r, allowed, lookup).Ok? ==> FromSilver(Verdict(r, allowed, lookup).value)
  {
  }

  function Rows(entries: seq<SilverEntry>): (rows: seq<LedgerRecord>)
    ensures |rows| == |entries|
    ensures forall i | 0 <= i < |entries| :: rows[i] == LedgerRow(entries[i])
  {
    seq(|entries|, i requires 0 <= i < |entries| => LedgerRow(entries[i]))
  }

  ghost predicate AllFromSilver(entries: seq<SilverEntry>) {
    forall i | 0 <= i < |entries| :: FromSilver(entries[i])
  }

  // ----- The quantities of one day -----------------------------------------------------------

  function SupplyOn(d: int): LedgerRecord -> int {
    (r: LedgerRecord) => if EventKst(r) == Some(d) then SupplyAmount(r) else 0
  }

  function SignedOn(d: int): LedgerRecord -> int {
    (r: LedgerRecord) => if EventKst(r) == Some(d) && r.amountSigned.Some? then r.amountSigned.value else 0
  }

  function TransferOn(d: int): LedgerRecord -> int {
    (r: LedgerRecord) =>
      if EventKst(r) == Some(d) && r.entryType.Some? && r.amount.Some?
          then TransferSign(r.entryType.value) * r.amount.value else 0
  }

  function OrphanOn(users: set<string>, d: int): LedgerRecord -> int {
    (r: LedgerRecord) => if r.walletId.Some? && r.walletId.value in users then 0 else SignedOn(d)(r)
  }

  function KnownOn(users: set<string>, d: int): LedgerRecord -> int {
    (r: LedgerRecord) => if r.walletId.Some? && r.walletId.value in users then SignedOn(d)(r) else 0
  }

  /** Transfers of the day that have no counterpart. */
  function TransferImbalance(ledger: seq<LedgerRecord>, d: int): int {
    SumBy(ledger, TransferOn(d))
  }

  /** Flow of the day into wallets without a snapshot. */
  function OrphanFlow(s: seq<WalletRecord>, ledger: seq<LedgerRecord>, d: int): int {
    SumBy(ledger, OrphanOn(Users(s, d), d))
  }

  /** What appeared between yesterday's last snapshots and today's first ones. */
  ghost function CarryGap(s: seq<WalletRecord>, d: int): int {
    SumSet(Users(s, d), StartBalance(s, d)) - WalletTotal(s, d - 1)
  }

  /** The signed drift of one user: change of balance minus net flow. */
  function Drift(s: seq<WalletRecord>, ledger: seq<LedgerRecord>, d: int): string -> int {
    (u: string) => EndBalance(s, d)(u) - StartBalance(s, d)(u) - NetFlow(ledger, u, d)
  }

  ghost function TotalDrift(s: seq<WalletRecord>, ledger: seq<LedgerRecord>, d: int): int {
    SumSet(Users(s, d), Drift(s, ledger, d))
  }

  // ----- One day to the next ---------------------------------------------------------------------

  lemma {:induction false} SupplyOfOneDay(ledger: seq<LedgerRecord>, d: int)
    ensures IssuedSupply(ledger, d) == IssuedSupply(ledger, d - 1) + SumBy(ledger, SupplyOn(d))
  {
    SumByAdd(ledger, SupplyTerm(d - 1), SupplyOn(d), SupplyTerm(d));
  }

  lemma {:induction false} SignedIsSupplyPlusTransfer(entries: seq<SilverEntry>, d: int)
    requires AllFromSilver(entries)
    ensures SumBy(Rows(entries), SignedOn(d)) == SumBy(Rows(entries), SupplyOn(d)) + TransferImbalance(Rows(entries), d)
  {
    var ledger := Rows(entries);
    forall r | r in ledger
      ensures SignedOn(d)(r) == SupplyOn(d)(r) + TransferOn(d)(r)
    {
      var i :| 0 <= i < |entries| && r == LedgerRow(entries[i]);
      SignTablesSplit(entries[i].entryType);
    }
    SumByAdd(ledger, SupplyOn(d), TransferOn(d), SignedOn(d));
  }

  function FlowInto(ledger: seq<LedgerRecord>, d: int): string -> int {
    (u: string) => NetFlow(ledger, u, d)
  }

  /** All signed amounts of the day are the net flows of the snapshotted users plus the orphan flow. */
  lemma {:induction false} FlowsPartitionSigned(entries: seq<SilverEntry>, users: set<string>, d: int)
    requires AllFromSilver(entries)
    ensures SumBy(Rows(entries), SignedOn(d))
            == SumSet(users, FlowInto(Rows(entries), d)) + SumBy(Rows(entries), OrphanOn(users, d))
  {
    var ledger := Rows(entries);
    var column := (u: string) => NetTerm(u, d);
    var line := (r: LedgerRecord) => (u: string) => NetTerm(u, d)(r);
    forall r | r in ledger
      ensures KnownOn(users, d)(r) == SumSet(users, line(r))
    {
      var i :| 0 <= i < |entries| && r == LedgerRow(entries[i]);
      assert FromSilver(entries[i]);
      var w := entries[i].walletId;
      SumSetPoint(users, w, line(r));
      assert line(r)(w) == SignedOn(d)(r);
    }
    SumOfGroups(ledger, users, column, line, FlowInto(ledger, d), KnownOn(users, d));
    SumByAdd(ledger, KnownOn(users, d), OrphanOn(users, d), SignedOn(d));
  }

  lemma {:induction false} BalancesOfOneDay(s: seq<WalletRecord>, ledger: seq<LedgerRecord>, d: int)
    ensures WalletTotal(s, d) == SumSet(Users(s, d), StartBalance(s, d)) + SumSet(Users(s, d), FlowInto(ledger, d))
            + TotalDrift(s, ledger, d)
  {
    var users := Users(s, d);
    var moved := (u: string) => NetFlow(ledger, u, d) + Drift(s, ledger, d)(u);
    SumSetAdd(users, FlowInto(ledger, d), Drift(s, ledger, d), moved);
    SumSetAdd(users, StartBalance(s, d), moved, EndBalance(s, d));
  }

  /** The exact daily law, for every ledger Silver can produce and every set of snapshots:
      today's supply difference is yesterday's, less the drift reconciliation measures, less
      unbalanced transfers and the carry-over gap, plus flow into unsnapshotted wallets. */
  lemma {:induction false} SupplyDifferenceMoves(s: seq<WalletRecord>, entries: seq<SilverEntry>, d: int)
    requires AllFromSilver(entries)
    ensures DiffAmount(s, Rows(entries), d)
            == DiffAmount(s, Rows(entries), d - 1) - TotalDrift(s, Rows(entries), d)
               - TransferImbalance(Rows(entries), d) + OrphanFlow(s, Rows(entries), d) - CarryGap(s, d)
  {
    SupplyOfOneDay(Rows(entries), d);
    SignedIsSupplyPlusTransfer(entries, d);
    FlowsPartitionSigned(entries, Users(s, d), d);
    BalancesOfOneDay(s, Rows(entries), d);
  }

  // ----- Closed days ----------------------------------------------------------------------------

  function AmountOf(t: EntryType, d: int): LedgerRecord -> int {
    (r: LedgerRecord) => if EventKst(r) == Some(d) && r.entryType == Some(t) && r.amount.Some? then r.amount.value
        else 0
  }

  /** Every payment is received and every refund paid out is paid in. */
  predicate TransfersBalanced(ledger: seq<LedgerRecord>, d: int) {
    && SumBy(ledger, AmountOf(PAYMENT, d)) == SumBy(ledger, AmountOf(RECEIVE, d))
    && SumBy(ledger, AmountOf(REFUND_OUT, d)) == SumBy(ledger, AmountOf(REFUND_IN, d))
  }

  /** A day on which balances carry over, every active wallet is snapshotted, and transfers
      balance. */
  ghost predicate ClosedDay(s: seq<WalletRecord>, entries: seq<SilverEntry>, d: int) {
    && Users(s, d) == Users(s, d - 1)
    && (forall u | u in Users(s, d) :: StartBalance(s, d)(u) == EndBalance(s, d - 1)(u))
    && (forall i | 0 <= i < |entries| && entries[i].eventDateKst == d :: entries[i].walletId in Users(s, d))
    && TransfersBalanced(Rows(entries), d)
  }

  lemma {:induction false} BalancedTransfersCancel(ledger: seq<LedgerRecord>, d: int)
    ensures TransferImbalance(ledger, d)
            == SumBy(ledger, AmountOf(RECEIVE, d)) - SumBy(ledger, AmountOf(PAYMENT, d))
               + SumBy(ledger, AmountOf(REFUND_IN, d)) - SumBy(ledger, AmountOf(REFUND_OUT, d))
  {
    if ledger != [] {
      BalancedTransfersCancel(ledger[..|ledger|-1], d);
    }
  }

  lemma {:induction false} NoOrphans(entries: seq<SilverEntry>, users: set<string>, d: int)
    requires forall i | 0 <= i < |entries| && entries[i].eventDateKst == d :: entries[i].walletId in users
    ensures SumBy(Rows(entries), OrphanOn(users, d)) == 0
  {
    forall r | r in Rows(entries)
      ensures OrphanOn(users, d)(r) == 0
    {
      var i :| 0 <= i < |entries| && r == LedgerRow(entries[i]);
      assert EventKst(r) == Some(entries[i].eventDateKst);
      assert r.walletId.value !in users ==> SignedOn(d)(r) == 0;
    }
    SumOfZeros(Rows(entries), OrphanOn(users, d));
  }

  /** On a closed day the difference moves by the drift alone. */
  lemma {:induction false} ClosedDayMovesByDrift(s: seq<WalletRecord>, entries: seq<SilverEntry>, d: int)
    requires AllFromSilver(entries) && ClosedDay(s, entries, d)
    ensures DiffAmount(s, Rows(entries), d) == DiffAmount(s, Rows(entries), d - 1) - TotalDrift(s, Rows(entries), d)
  {
    var ledger := Rows(entries);
    SupplyDifferenceMoves(s, entries, d);
    BalancedTransfersCancel(ledger, d);
    SumSetExt(Users(s, d), StartBalance(s, d), EndBalance(s, d - 1));
    NoOrphans(entries, Users(s, d), d);
  }

  // ----- Whole runs of days -----------------------------------------------------------------------

  ghost predicate ClosedRun(s: seq<WalletRecord>, entries: seq<SilverEntry>, first: int, n: nat) {
    forall d | first < d <= first + n :: ClosedDay(s, entries, d)
  }

  ghost function DriftOver(s: seq<WalletRecord>, ledger: seq<LedgerRecord>, first: int, n: nat): int {
    if n == 0 then 0 else DriftOver(s, ledger, first, n - 1) + TotalDrift(s, ledger, first + n)
  }

  /** Conservation over a run: the difference at the end is the difference at the start less
      all the drift in between. */
  lemma {:induction false} DifferenceIsAccumulatedDrift(s: seq<WalletRecord>, entries: seq<SilverEntry>, first: int,
                                                        n: nat)
    requires AllFromSilver(entries) && ClosedRun(s, entries, first, n)
    ensures DiffAmount(s, Rows(entries), first + n)
            == DiffAmount(s, Rows(entries), first) - DriftOver(s, Rows(entries), first, n)
  {
    if n > 0 {
      DifferenceIsAccumulatedDrift(s, entries, first, n - 1);
      ClosedDayMovesByDrift(s, entries, first + n);
    }
  }

  /** Started in balance, supply and wallets stay equal through a closed run exactly when no day's
      drifts add up to anything. */
  lemma {:induction false} SupplyStaysBalancedIff(s: seq<WalletRecord>, entries: seq<SilverEntry>, first: int, n: nat)
    requires AllFromSilver(entries) && ClosedRun(s, entries, first, n)
    requires DiffAmount(s, Rows(entries), first) == 0
    ensures (forall d | first < d <= first + n :: DiffAmount(s, Rows(entries), d) == 0)
            <==> forall d | first < d <= first + n :: TotalDrift(s, Rows(entries), d) == 0
  {
    if n > 0 {
      SupplyStaysBalancedIff(s, entries, first, n - 1);
      ClosedDayMovesByDrift(s, entries, first + n);
      if n == 1 {
        assert DiffAmount(s, Rows(entries), first + n - 1) == 0;
      }
    }
  }

  // ----- From the published rows --------------------------------------------------------------------

  /** The published drift of a user is the size of the signed drift. */
  lemma {:induction false} PublishedDrift(s: seq<WalletRecord>, ledger: seq<LedgerRecord>, d: int, tag: Option<string>,
                                          rows: seq<ReconRow>, u: string)
    returns (row: ReconRow)
    requires ReconRowsOf(s, ledger, d, tag, rows) && u in Users(s, d)
    ensures row in rows && row.userId == u && row.driftAbs == Abs(Drift(s, ledger, d)(u))
  {
    assert HasUser(rows, u);
    row :| row in rows && row.userId == u;
    assert LoopRow(s, ledger, d, tag, row.userId, row);
    var b := BoundsFor(s, u, d).value;
    assert EndBalance(s, d)(u) == b.endBalance && StartBalance(s, d)(u) == b.startBalance;
    assert Drift(s, ledger, d)(u) == b.endBalance - b.startBalance - NetFlow(ledger, u, d);
  }

  /** When every published row of every day shows zero drift, whatever the days' tags, a zero supply difference stays
      zero through the whole closed run. */
  lemma {:induction false} ZeroDriftKeepsZeroDifference(s: seq<WalletRecord>, entries: seq<SilverEntry>, first: int,
                                                        n: nat, published: map<int, seq<ReconRow>>,
                                                        tags: int -> Option<string>)
    requires AllFromSilver(entries) && ClosedRun(s, entries, first, n)
    requires DiffAmount(s, Rows(entries), first) == 0
    requires forall d | first < d <= first + n ::
               d in published && ReconRowsOf(s, Rows(entries), d, tags(d), published[d])
               && forall row | row in published[d] :: row.driftAbs == 0
    ensures forall d | first < d <= first + n :: DiffAmount(s, Rows(entries), d) == 0
  {
    forall d | first < d <= first + n
      ensures TotalDrift(s, Rows(entries), d) == 0
    {
      forall u | u in Users(s, d)
        ensures Drift(s, Rows(entries), d)(u) == 0
      {
        var row := PublishedDrift(s, Rows(entries), d, tags(d), published[d], u);
      }
      SumSetPointwiseZero(Users(s, d), Drift(s, Rows(entries), d));
    }
    SupplyStaysBalancedIff(s, entries, first, n);
  }

  function AbsDrift(s: seq<WalletRecord>, ledger: seq<LedgerRecord>, d: int): string -> int {
    (u: string) => Abs(Drift(s, ledger, d)(u))
  }

  lemma {:induction false} SumSetAbs(ks: set<string>, f: string -> int, g: string -> int)
    requires forall k | k in ks :: g(k) == Abs(f(k))
    ensures Abs(SumSet(ks, f)) <= SumSet(ks, g)
    decreases ks
  {
    if ks != {} {
      var k :| k in ks;
      SumSetRemove(ks, k, f);
      SumSetRemove(ks, k, g);
      SumSetAbs(ks - {k}, f, g);
    }
  }

  /** In one closed day the supply difference cannot move by more than the drift published. */
  lemma {:induction false} DifferenceMovesAtMostPublishedDrift(s: seq<WalletRecord>, entries: seq<SilverEntry>, d: int)
    requires AllFromSilver(entries) && ClosedDay(s, entries, d)
    ensures Abs(DiffAmount(s, Rows(entries), d) - DiffAmount(s, Rows(entries), d - 1))
            <= SumSet(Users(s, d), AbsDrift(s, Rows(entries), d))
  {
    ClosedDayMovesByDrift(s, entries, d);
    SumSetAbs(Users(s, d), Drift(s, Rows(entries), d), AbsDrift(s, Rows(entries), d));
  }
}
