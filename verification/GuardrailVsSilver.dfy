/** The early warning against the hard stop: what Silver accepts, Guardrail does not count as
    a contract violation, so Guardrail cannot be alarmed by records Silver lets through. */
module GuardrailVsSilver {
  import opened Prelude
  import opened SilverControls
  import opened Guardrail

  function AsNumField(n: Option<int>): NumField {
    if n.Some? then Num(n.value) else NotANumber
  }

  function LedgerFields(r: RawLedger): Bronze {
    TransactionLedger(r.txId, r.walletId, r.typ, AsNumField(r.amount))
  }

  function WalletFields(r: RawWallet): Bronze {
    UserWallet(r.userId, AsNumField(r.balance), AsNumField(r.frozenAmount))
  }

  /** A ledger record Silver accepts meets the Guardrail contract exactly when its `type` column
      and both identifiers hold visible text; Silver alone also reads `entry_type` and takes
      whitespace for text. */
  lemma {:induction false} AcceptedEntryMeetsContractIff(r: RawLedger, allowed: Allowlists, lookup: map<string, string>)
    requires Verdict(r, allowed, lookup).Ok?
    ensures MeetsContract(LedgerFields(r), allowed) <==> Present(r.txId) && Present(r.walletId) && PresentType(r.typ)
  {
  }

  lemma {:induction false} AcceptedWalletMeetsContractIff(r: RawWallet, allowed: Allowlists)
    requires WalletVerdict(r).Ok?
    ensures MeetsContract(WalletFields(r), allowed) <==> Present(r.userId)
  {
  }

  /** The entry type is held in `type`, and no text is whitespace alone. */
  predicate Conventional(r: RawLedger) {
    CleanRecord(r) && (TruthyType(r.typ) || !TruthyType(r.entryType))
  }

  lemma {:induction false} AcceptedConventionalEntryMeetsContract(r: RawLedger, allowed: Allowlists,
                                                                  lookup: map<string, string>)
    requires Conventional(r) && Verdict(r, allowed, lookup).Ok?
    ensures MeetsContract(LedgerFields(r), allowed)
  {
  }

  /** The events Guardrail sees for a list of records. */
  ghost predicate SameLedger(events: seq<Event>, records: seq<RawLedger>) {
    |events| == |records| && forall i | 0 <= i < |records| :: events[i].fields == LedgerFields(records[i])
  }

  ghost predicate SameWallets(events: seq<Event>, records: seq<RawWallet>) {
    |events| == |records| && forall i | 0 <= i < |records| :: events[i].fields == WalletFields(records[i])
  }

  lemma {:induction false} LedgerViolationsAreQuarantined(events: seq<Event>, records: seq<RawLedger>,
                                                          allowed: Allowlists, lookup: map<string, string>,
                                                          valid: seq<SilverEntry>,
                                                          bad: seq<BadRecord<RawLedger, Reason>>)
    requires SameLedger(events, records) && Split(records, Verdicts(allowed, lookup), valid, bad)
    requires forall i | 0 <= i < |records| :: Conventional(records[i])
    ensures 0 <= SumBy(events, Violates(allowed)) <= |bad|
  {
    if records != [] {
      var n := |records| - 1;
      assert events[n].fields == LedgerFields(records[n]);
      if Verdict(records[n], allowed, lookup).Ok? {
        AcceptedConventionalEntryMeetsContract(records[n], allowed, lookup);
        assert Violates(allowed)(events[n]) == 0;
        LedgerViolationsAreQuarantined(events[..n], records[..n], allowed, lookup, valid[..|valid|-1], bad);
      } else {
        LedgerViolationsAreQuarantined(events[..n], records[..n], allowed, lookup, valid, bad[..|bad|-1]);
      }
    }
  }

  lemma {:induction false} WalletViolationsAreQuarantined(events: seq<Event>, records: seq<RawWallet>,
                                                          allowed: Allowlists, valid: seq<SilverSnapshot>,
                                                          bad: seq<BadRecord<RawWallet, WalletReason>>)
    requires SameWallets(events, records) && Split(records, WalletVerdicts(), valid, bad)
    requires forall i | 0 <= i < |records| :: Clean(records[i].userId)
    ensures 0 <= SumBy(events, Violates(allowed)) <= |bad|
  {
    if records != [] {
      var n := |records| - 1;
      if WalletVerdict(records[n]).Ok? {
        CleanTextHasOneNotionOfMissing(records[n].userId);
        AcceptedWalletMeetsContractIff(records[n], allowed);
        WalletViolationsAreQuarantined(events[..n], records[..n], allowed, valid[..|valid|-1], bad);
      } else {
        WalletViolationsAreQuarantined(events[..n], records[..n], allowed, valid, bad[..|bad|-1]);
      }
    }
  }

  lemma {:induction false} RatesOrdered(violations: nat, bad: nat, total: nat)
    requires violations <= bad <= total
    ensures Rate(violations, total) <= BadRecordsRate(total - bad, bad)
  {
  }

  /** On the same ledger records Guardrail's rate is at most Silver's; if it exceeds Silver's fail
      threshold, Silver stops the run. */
  lemma {:induction false} GuardrailAlarmStopsSilver(events: seq<Event>, records: seq<RawLedger>, allowed: Allowlists,
                                                     lookup: map<string, string>, valid: seq<SilverEntry>,
                                                     bad: seq<BadRecord<RawLedger, Reason>>, threshold: Option<real>)
    requires SameLedger(events, records) && Split(records, Verdicts(allowed, lookup), valid, bad)
    requires forall i | 0 <= i < |records| :: Conventional(records[i])
    ensures Rate(SumBy(events, Violates(allowed)), |events|) <= BadRecordsRate(|valid|, |bad|)
    ensures threshold.Some? && Rate(SumBy(events, Violates(allowed)), |events|) > threshold.value
            ==> EnforceBadRecordsRate(|valid|, |bad|, threshold).Err?
  {
    LedgerViolationsAreQuarantined(events, records, allowed, lookup, valid, bad);
    SplitAccountsForEveryRecord(records, Verdicts(allowed, lookup), valid, bad);
    RatesOrdered(SumBy(events, Violates(allowed)), |bad|, |records|);
  }

  lemma {:induction false} GuardrailWalletAlarmStopsSilver(events: seq<Event>, records: seq<RawWallet>,
                                                           allowed: Allowlists, valid: seq<SilverSnapshot>,
                                                           bad: seq<BadRecord<RawWallet, WalletReason>>,
                                                           threshold: Option<real>)
    requires SameWallets(events, records) && Split(records, WalletVerdicts(), valid, bad)
    requires forall i | 0 <= i < |records| :: Clean(records[i].userId)
    ensures Rate(SumBy(events, Violates(allowed)), |events|) <= BadRecordsRate(|valid|, |bad|)
    ensures threshold.Some? && Rate(SumBy(events, Violates(allowed)), |events|) > threshold.value
            ==> EnforceBadRecordsRate(|valid|, |bad|, threshold).Err?
  {
    WalletViolationsAreQuarantined(events, records, allowed, valid, bad);
    SplitAccountsForEveryRecord(records, WalletVerdicts(), valid, bad);
    RatesOrdered(SumBy(events, Violates(allowed)), |bad|, |records|);
  }
}
