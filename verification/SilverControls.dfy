/** Silver classification of raw ledger and wallet records: the record loop, which stops at
    the first failing check, and its relational twin, a when-chain evaluated over a left
    join with the order-status lookup. */
module SilverControls {
  import opened Prelude
  import opened Relational
  import opened KstTime

  /** The text of an entry type: one of the ten known names, or any other text. */
  datatype EntryType = CHARGE | WITHDRAW | PAYMENT | RECEIVE | REFUND_OUT | REFUND_IN | HOLD | RELEASE | MINT | BURN
                     | Other(text: string)

  predicate TruthyType(t: Option<EntryType>) {
    t.Some? && t.value != Other("")
  }

  predicate NonBlankType(t: Option<EntryType>) {
    t.Some? && (t.value.Other? ==> !Trimmed(t.value.text))
  }

  predicate CleanType(t: Option<EntryType>) {
    t.Some? && t.value.Other? ==> Clean(Some(t.value.text))
  }

  function EntryTypeSign(t: EntryType): Option<int> {
    match t
    case CHARGE => Some(1)
    case WITHDRAW => Some(-1)
    case PAYMENT => Some(-1)
    case RECEIVE => Some(1)
    case REFUND_OUT => Some(-1)
    case REFUND_IN => Some(1)
    case HOLD => Some(0)
    case RELEASE => Some(0)
    case MINT => Some(1)
    case BURN => Some(-1)
    case Other(_) => None
  }

  /** A raw timestamp field: absent or empty, present but unreadable, or an instant. */
  datatype TsField = Missing | Garbled | At(t: int)

  function ParseTs(f: TsField): Option<int> {
    if f.At? then Some(f.t) else None
  }

  datatype RawLedger = RawLedger(
    txId: Option<string>, walletId: Option<string>, typ: Option<EntryType>, entryType: Option<EntryType>,
    amount: Option<int>, relatedId: Option<string>, relatedType: Option<string>, status: Option<string>,
    createdAt: TsField, eventTime: TsField)

  datatype SilverEntry = SilverEntry(
    txId: string, walletId: string, eventTime: int, eventDateKst: int, entryType: EntryType,
    amount: int, amountSigned: int, relatedId: Option<string>, relatedType: Option<string>,
    status: Option<string>, createdAt: Option<int>)

  datatype Reason = MissingTxOrWallet | MissingEntryType | InvalidEntryType | InvalidAmount
                  | NonPositiveAmount | AmountSignedUnavailable | MissingEventTime | InvalidStatus

  /** The documented order of the checks. */
  function CheckOrder(reason: Reason): nat {
    match reason
    case MissingTxOrWallet => 0
    case MissingEntryType => 1
    case InvalidEntryType => 2
    case InvalidAmount => 3
    case NonPositiveAmount => 4
    case AmountSignedUnavailable => 5
    case MissingEventTime => 6
    case InvalidStatus => 7
  }

  datatype Allowlists = Allowlists(entryTypes: Option<set<EntryType>>, statuses: Option<set<string>>)
  {
    /** An allowlist from a rule is absent rather than empty. */
    predicate FromRules() {
      (entryTypes.Some? ==> entryTypes.value != {}) && (statuses.Some? ==> statuses.value != {})
    }
  }

  function ResolveAllowedValues<T(==)>(values: Option<seq<T>>): (r: Option<set<T>>)
    ensures r.Some? ==> r.value != {}
    ensures r.Some? <==> values.Some? && values.value != []
    ensures r.Some? ==> (forall v | v in r.value :: v in values.value) && (forall v | v in values.value :: v in r.value)
  {
    if values.None? || values.value == [] then None
    else
      var allowed := set v | v in values.value;
      assert values.value[0] in allowed;
      Some(allowed)
  }

  function DeriveAmountSigned(entryType: Option<EntryType>, amount: Option<int>): Option<int> {
    if !TruthyType(entryType) || EntryTypeSign(entryType.value).None? || amount.None? then None
    else Some(Abs(amount.value) * EntryTypeSign(entryType.value).value)
  }

  // ----- The loop's reading of a record --------------------------------------------

  function LoopEntryType(r: RawLedger): Option<EntryType> {
    if TruthyType(r.typ) then r.typ else r.entryType
  }

  /** `created_at or event_time`, then parsed: a garbled created_at is not replaced. */
  function LoopEventTime(r: RawLedger): Option<int> {
    ParseTs(if r.createdAt.Missing? then r.eventTime else r.createdAt)
  }

  function LoopStatus(r: RawLedger, lookup: map<string, string>): Option<string> {
    if r.relatedId.Some? && r.relatedId.value in lookup then Some(lookup[r.relatedId.value]) else r.status
  }

  /** Check by check, in isolation, whether the record fails it. */
  predicate LoopFails(reason: Reason, r: RawLedger, allowed: Allowlists, status: Option<string>) {
    match reason
    case MissingTxOrWallet => !Truthy(r.txId) || !Truthy(r.walletId)
    case MissingEntryType => !TruthyType(LoopEntryType(r))
    case InvalidEntryType => allowed.entryTypes.Some? && LoopEntryType(r).Some?
        && LoopEntryType(r).value !in allowed.entryTypes.value
    case InvalidAmount => r.amount.None?
    case NonPositiveAmount => r.amount.Some? && r.amount.value <= 0
    case AmountSignedUnavailable => DeriveAmountSigned(LoopEntryType(r), r.amount).None?
    case MissingEventTime => LoopEventTime(r).None?
    case InvalidStatus => allowed.statuses.Some? && status.Some? && status.value !in allowed.statuses.value
  }

  function FirstFailure(r: RawLedger, allowed: Allowlists, status: Option<string>): Option<Reason> {
    if LoopFails(MissingTxOrWallet, r, allowed, status) then Some(MissingTxOrWallet)
    else if LoopFails(MissingEntryType, r, allowed, status) then Some(MissingEntryType)
    else if LoopFails(InvalidEntryType, r, allowed, status) then Some(InvalidEntryType)
    else if LoopFails(InvalidAmount, r, allowed, status) then Some(InvalidAmount)
    else if LoopFails(NonPositiveAmount, r, allowed, status) then Some(NonPositiveAmount)
    else if LoopFails(AmountSignedUnavailable, r, allowed, status) then Some(AmountSignedUnavailable)
    else if LoopFails(MissingEventTime, r, allowed, status) then Some(MissingEventTime)
    else if LoopFails(InvalidStatus, r, allowed, status) then Some(InvalidStatus)
    else None
  }

  /** The reported reason is the failing check that comes first in the documented order, and a
      record is accepted exactly when it fails none. */
  lemma {:induction false} FirstFailureIsFirst(r: RawLedger, allowed: Allowlists, status: Option<string>,
                                               reason: Reason)
    ensures FirstFailure(r, allowed, status) == Some(reason)
            <==> LoopFails(reason, r, allowed, status)
                 && forall q: Reason :: CheckOrder(q) < CheckOrder(reason) ==> !LoopFails(q, r, allowed, status)
    ensures FirstFailure(r, allowed, status) == None ==> !LoopFails(reason, r, allowed, status)
  {
  }

  /** The accepted form of a record that fails no check. Every accepted entry is positive,
      carries its type's sign, and is dated by its own event time. */
  function Accept(r: RawLedger, allowed: Allowlists, status: Option<string>): (e: SilverEntry)
    requires FirstFailure(r, allowed, status).None?
    ensures e.txId != "" && e.walletId != "" && EntryTypeSign(e.entryType).Some?
    ensures e.amount > 0 && e.amountSigned == EntryTypeSign(e.entryType).value * e.amount
    ensures e.eventDateKst == DateKst(e.eventTime)
    ensures allowed.entryTypes.Some? ==> e.entryType in allowed.entryTypes.value
    ensures allowed.statuses.Some? && e.status.Some? ==> e.status.value in allowed.statuses.value
  {
    var eventTime := LoopEventTime(r).value;
    SilverEntry(r.txId.value, r.walletId.value, eventTime, DateKst(eventTime), LoopEntryType(r).value,
                r.amount.value, DeriveAmountSigned(LoopEntryType(r), r.amount).value, r.relatedId, r.relatedType,
                status, ParseTs(r.createdAt))
  }

  /** The verdict on one record: accepted, or quarantined with the first failing reason. */
  function Verdict(r: RawLedger, allowed: Allowlists, lookup: map<string, string>): Result<SilverEntry, Reason> {
    var status := LoopStatus(r, lookup);
    var f := FirstFailure(r, allowed, status);
    if f.Some? then Err(f.value) else Ok(Accept(r, allowed, status))
  }

  // ----- The loop --------------------------------------------------------------------

  datatype BadRecord<R, W> = BadRecord(record: R, reason: W)

  /** Where each record ends up: `valid` and `bad` split `records` in input order by verdict. */
  ghost predicate Split<R, E, W>(records: seq<R>, verdict: R -> Result<E, W>, valid: seq<E>, bad: seq<BadRecord<R, W>>)
  {
    if records == [] then valid == [] && bad == []
    else
      var front, r := records[..|records|-1], records[|records|-1];
      match verdict(r)
      case Ok(e) => valid != [] && valid[|valid|-1] == e && Split(front, verdict, valid[..|valid|-1], bad)
      case Err(reason) =>
        bad != [] && bad[|bad|-1] == BadRecord(r, reason) && Split(front, verdict, valid, bad[..|bad|-1])
  }

  function Verdicts(allowed: Allowlists, lookup: map<string, string>): RawLedger -> Result<SilverEntry, Reason> {
    r => Verdict(r, allowed, lookup)
  }

  lemma {:induction false} SplitExtend<R, E, W>(records: seq<R>, verdict: R -> Result<E, W>, valid: seq<E>,
                                                bad: seq<BadRecord<R, W>>, r: R)
    requires Split(records, verdict, valid, bad)
    ensures verdict(r).Ok? ==> Split(records + [r], verdict, valid + [verdict(r).value], bad)
    ensures verdict(r).Err? ==> Split(records + [r], verdict, valid, bad + [BadRecord(r, verdict(r).error)])
  {
  }

  /** Each record goes to exactly one side, so nothing is lost or invented. */
  lemma {:induction false} SplitAccountsForEveryRecord<R, E, W>(records: seq<R>, verdict: R -> Result<E, W>,
                                                                valid: seq<E>, bad: seq<BadRecord<R, W>>)
    requires Split(records, verdict, valid, bad)
    ensures |valid| + |bad| == |records|
    ensures forall b | b in bad :: b.record in records && verdict(b.record) == Err(b.reason)
    ensures forall e | e in valid :: exists r :: r in records && verdict(r) == Ok(e)
    ensures forall r | r in records && verdict(r).Ok? :: verdict(r).value in valid
    ensures forall r | r in records && verdict(r).Err? :: BadRecord(r, verdict(r).error) in bad
  {
    if records != [] {
      var front, r := records[..|records|-1], records[|records|-1];
      assert records == front + [r];
      if verdict(r).Ok? {
        SplitAccountsForEveryRecord(front, verdict, valid[..|valid|-1], bad);
        assert valid == valid[..|valid|-1] + [valid[|valid|-1]];
      } else {
        SplitAccountsForEveryRecord(front, verdict, valid, bad[..|bad|-1]);
        assert bad == bad[..|bad|-1] + [bad[|bad|-1]];
      }
    }
  }

  /** A split is determined by its input. */
  lemma {:induction false} SplitUnique<R, E, W>(records: seq<R>, verdict: R -> Result<E, W>, v1: seq<E>,
                                                b1: seq<BadRecord<R, W>>, v2: seq<E>, b2: seq<BadRecord<R, W>>)
    requires Split(records, verdict, v1, b1) && Split(records, verdict, v2, b2)
    ensures v1 == v2 && b1 == b2
  {
    if records != [] {
      var front, r := records[..|records|-1], records[|records|-1];
      if verdict(r).Ok? {
        SplitUnique(front, verdict, v1[..|v1|-1], b1, v2[..|v2|-1], b2);
        assert v1 == v1[..|v1|-1] + [v1[|v1|-1]] && v2 == v2[..|v2|-1] + [v2[|v2|-1]];
      } else {
        SplitUnique(front, verdict, v1, b1[..|b1|-1], v2, b2[..|b2|-1]);
        assert b1 == b1[..|b1|-1] + [b1[|b1|-1]] && b2 == b2[..|b2|-1] + [b2[|b2|-1]];
      }
    }
  }

  /** The checks of one turn of the loop, in the order they are made. */
  method CheckEntry(r: RawLedger, allowed: Allowlists, lookup: map<string, string>)
    returns (v: Result<SilverEntry, Reason>)
    ensures v == Verdict(r, allowed, lookup)
  {
    var entryType := if TruthyType(r.typ) then r.typ else r.entryType;
    if !Truthy(r.txId) || !Truthy(r.walletId) {
      return Err(MissingTxOrWallet);
    }
    if !TruthyType(entryType) {
      return Err(MissingEntryType);
    }
    if allowed.entryTypes.Some? && entryType.value !in allowed.entryTypes.value {
      return Err(InvalidEntryType);
    }
    if r.amount.None? {
      return Err(InvalidAmount);
    }
    if r.amount.value <= 0 {
      return Err(NonPositiveAmount);
    }
    var amountSigned := DeriveAmountSigned(entryType, r.amount);
    if amountSigned.None? {
      return Err(AmountSignedUnavailable);
    }
    var eventTime := ParseTs(if r.createdAt.Missing? then r.eventTime else r.createdAt);
    if eventTime.None? {
      return Err(MissingEventTime);
    }
    var status := r.status;
    if r.relatedId.Some? && r.relatedId.value in lookup {
      status := Some(lookup[r.relatedId.value]);
    }
    if allowed.statuses.Some? && status.Some? {
      if status.value !in allowed.statuses.value {
        return Err(InvalidStatus);
      }
    }
    return Ok(SilverEntry(r.txId.value, r.walletId.value, eventTime.value, DateKst(eventTime.value), entryType.value,
                          r.amount.value, amountSigned.value, r.relatedId, r.relatedType, status,
                          ParseTs(r.createdAt)));
  }

  method TransformLedgerEntries(records: seq<RawLedger>, allowed: Allowlists, lookup: map<string, string>)
    returns (valid: seq<SilverEntry>, bad: seq<BadRecord<RawLedger, Reason>>)
    ensures Split(records, Verdicts(allowed, lookup), valid, bad)
  {
    valid, bad := [], [];
    for i := 0 to |records|
      invariant Split(records[..i], Verdicts(allowed, lookup), valid, bad)
    {
      SplitExtend(records[..i], Verdicts(allowed, lookup), valid, bad, records[i]);
      assert records[..i+1] == records[..i] + [records[i]];
      var verdict := CheckEntry(records[i], allowed, lookup);
      match verdict
      case Ok(entry) => valid := valid + [entry];
      case Err(reason) => bad := bad + [BadRecord(records[i], reason)];
    }
    assert records[..|records|] == records;
  }

  // ----- The order-status lookup -------------------------------------------------------

  datatype PaymentOrder = PaymentOrder(orderId: Option<string>, status: Option<string>, createdAt: Option<int>,
      ingestedAt: Option<int>)

  predicate Names(o: PaymentOrder, id: string) {
    o.orderId == Some(id) && o.status.Some?
  }

  /** The status of the last payment row that names the order and has a status. */
  function LastStatus(orders: seq<PaymentOrder>, id: string): Option<string> {
    if orders == [] then None
    else if Names(orders[|orders|-1], id) then orders[|orders|-1].status
    else LastStatus(orders[..|orders|-1], id)
  }

  /** It is the status of some naming row after which no row names the order. */
  lemma {:induction false} LastStatusIs(orders: seq<PaymentOrder>, id: string) returns (i: int)
    ensures -1 <= i < |orders| && forall j | i < j < |orders| :: !Names(orders[j], id)
    ensures if i < 0 then LastStatus(orders, id) == None
            else Names(orders[i], id) && LastStatus(orders, id) == orders[i].status
  {
    if orders == [] || Names(orders[|orders|-1], id) {
      i := |orders| - 1;
    } else {
      var front := orders[..|orders|-1];
      i := LastStatusIs(front, id);
      assert forall j | 0 <= j < |front| :: front[j] == orders[j];
    }
  }

  /** The loop's lookup keeps, per order, the status seen last. */
  method BuildStatusLookup(orders: seq<PaymentOrder>) returns (lookup: map<string, string>)
    ensures forall id :: (if id in lookup then Some(lookup[id]) else None) == LastStatus(orders, id)
  {
    lookup := map[];
    for n := 0 to |orders|
      invariant forall id :: (if id in lookup then Some(lookup[id]) else None) == LastStatus(orders[..n], id)
    {
      assert orders[..n+1][..n] == orders[..n];
      if orders[n].orderId.None? || orders[n].status.None? {
        continue;
      }
      lookup := lookup[orders[n].orderId.value := orders[n].status.value];
    }
    assert orders[..|orders|] == orders;
  }

  datatype LookupRow = LookupRow(orderId: string, status: string, createdAt: Option<int>, ingestedAt: Option<int>)

  /** Descending with nulls last: whether a sorts strictly before b. */
  predicate LaterTs(a: Option<int>, b: Option<int>) {
    a.Some? && (b.None? || a.value > b.value)
  }

  predicate LookupBefore(a: LookupRow, b: LookupRow) {
    || LaterTs(a.createdAt, b.createdAt)
    || (a.createdAt == b.createdAt && LaterTs(a.ingestedAt, b.ingestedAt))
    || (a.createdAt == b.createdAt && a.ingestedAt == b.ingestedAt && StringLess(b.status, a.status))
  }

  function OrderIdOf(): LookupRow -> string { (r: LookupRow) => r.orderId }

  function LookupBase(orders: seq<PaymentOrder>): seq<LookupRow> {
    if orders == [] then []
    else
      var o := orders[|orders|-1];
      LookupBase(orders[..|orders|-1])
      + if o.orderId.Some? && o.status.Some? then [LookupRow(o.orderId.value, o.status.value, o.createdAt,
          o.ingestedAt)] else []
  }

  /** Any lookup table the plan may build: one latest row per order. */
  ghost predicate StatusLookupTable(orders: seq<PaymentOrder>, table: seq<LookupRow>) {
    RowNumberOne(LookupBase(orders), OrderIdOf(), (a: LookupRow, b: LookupRow) => LookupBefore(a, b), table)
  }

  function TableAsMap(table: seq<LookupRow>): map<string, string> {
    if table == [] then map[]
    else TableAsMap(table[..|table|-1])[table[|table|-1].orderId := table[|table|-1].status]
  }

  lemma {:induction false} TableAsMapIs(table: seq<LookupRow>)
    requires DistinctKeys(table, OrderIdOf())
    ensures forall id :: id in TableAsMap(table) <==> exists row :: row in table && row.orderId == id
    ensures forall row | row in table ::
            row.orderId in TableAsMap(table) && TableAsMap(table)[row.orderId] == row.status
  {
    if table != [] {
      var front, last := table[..|table|-1], table[|table|-1];
      forall i, j | 0 <= i < j < |front|
        ensures OrderIdOf()(front[i]) != OrderIdOf()(front[j])
      {
        assert OrderIdOf()(table[i]) != OrderIdOf()(table[j]);
      }
      TableAsMapIs(front);
      assert table == front + [last];
      forall row | row in front
        ensures row.orderId != last.orderId
      {
        var i :| 0 <= i < |front| && front[i] == row;
        assert OrderIdOf()(table[i]) != OrderIdOf()(table[|table|-1]);
      }
    }
  }

  lemma {:induction false} LookupBaseIs(orders: seq<PaymentOrder>, row: LookupRow)
    ensures row in LookupBase(orders)
            <==> PaymentOrder(Some(row.orderId), Some(row.status), row.createdAt, row.ingestedAt) in orders
  {
    if orders != [] {
      var front, o := orders[..|orders|-1], orders[|orders|-1];
      LookupBaseIs(front, row);
      assert orders == front + [o];
    }
  }

  /** The row of an order is one of its payment rows, and none of its payment rows with a status is newer: by
      creation, then ingestion, a missing time being oldest, and then by status. */
  lemma {:induction false} LookupHoldsTheLatest(orders: seq<PaymentOrder>, table: seq<LookupRow>, row: LookupRow,
                                                o: PaymentOrder)
    requires StatusLookupTable(orders, table) && row in table && o in orders && Names(o, row.orderId)
    ensures PaymentOrder(Some(row.orderId), Some(row.status), row.createdAt, row.ingestedAt) in orders
    ensures o.createdAt.Some? ==> row.createdAt.Some? && o.createdAt.value <= row.createdAt.value
    ensures o.createdAt == row.createdAt && o.ingestedAt.Some? ==>
              row.ingestedAt.Some? && o.ingestedAt.value <= row.ingestedAt.value
    ensures o.createdAt == row.createdAt && o.ingestedAt == row.ingestedAt ==> !StringLess(row.status, o.status.value)
  {
    var other := LookupRow(row.orderId, o.status.value, o.createdAt, o.ingestedAt);
    assert o == PaymentOrder(Some(other.orderId), Some(other.status), other.createdAt, other.ingestedAt);
    LookupBaseIs(orders, row);
    LookupBaseIs(orders, other);
    assert !LookupBefore(other, row);
  }

  /** Every order with a status has a row, and whatever the engine returns, the same one answers. */
  lemma {:induction false} LookupIsDetermined(orders: seq<PaymentOrder>, table: seq<LookupRow>, other: seq<LookupRow>,
                                              o: PaymentOrder)
    requires StatusLookupTable(orders, table) && StatusLookupTable(orders, other)
    requires o in orders && o.orderId.Some? && o.status.Some?
    ensures var id := o.orderId.value;
            id in TableAsMap(table) && id in TableAsMap(other) && TableAsMap(table)[id] == TableAsMap(other)[id]
  {
    var row := LookupRowOf(orders, table, o);
    var row' := LookupRowOf(orders, other, o);
    var left := PaymentOrder(Some(row.orderId), Some(row.status), row.createdAt, row.ingestedAt);
    var right := PaymentOrder(Some(row'.orderId), Some(row'.status), row'.createdAt, row'.ingestedAt);
    LookupHoldsTheLatest(orders, table, row, o);
    LookupHoldsTheLatest(orders, other, row', o);
    LookupHoldsTheLatest(orders, table, row, right);
    LookupHoldsTheLatest(orders, other, row', left);
    TextOrderIsTotal(row.status, row'.status);
  }

  lemma {:induction false} LookupRowOf(orders: seq<PaymentOrder>, table: seq<LookupRow>, o: PaymentOrder)
    returns (row: LookupRow)
    requires StatusLookupTable(orders, table) && o in orders && o.orderId.Some? && o.status.Some?
    ensures row in table && row.orderId == o.orderId.value
    ensures row.orderId in TableAsMap(table) && TableAsMap(table)[row.orderId] == row.status
  {
    var base := LookupRow(o.orderId.value, o.status.value, o.createdAt, o.ingestedAt);
    assert o == PaymentOrder(Some(base.orderId), Some(base.status), base.createdAt, base.ingestedAt);
    LookupBaseIs(orders, base);
    assert HasKey(table, OrderIdOf(), OrderIdOf()(base));
    row :| row in table && OrderIdOf()(row) == o.orderId.value;
    TableAsMapIs(table);
  }

  // ----- The when-chain plan -------------------------------------------------------------

  function NullIfBlank(s: Option<string>): Option<string> {
    if NonBlank(s) then s else None
  }

  function PlanEntryType(r: RawLedger): Option<EntryType> {
    if NonBlankType(r.typ) then r.typ
    else if NonBlankType(r.entryType) then r.entryType
    else None
  }

  /** `coalesce(created_at, event_time)` after the casts: a garbled created_at is null. */
  function PlanEventTime(r: RawLedger): Option<int> {
    if r.createdAt.At? then Some(r.createdAt.t) else ParseTs(r.eventTime)
  }

  function PlanStatus(r: RawLedger, matched: Option<LookupRow>): Option<string> {
    if matched.Some? then Some(matched.value.status) else r.status
  }

  function WhenChain(r: RawLedger, allowed: Allowlists, matched: Option<LookupRow>): Option<Reason> {
    var entryType := PlanEntryType(r);
    var status := PlanStatus(r, matched);
    if NullIfBlank(r.txId).None? || NullIfBlank(r.walletId).None? then Some(MissingTxOrWallet)
    else if entryType.None? then Some(MissingEntryType)
    else if allowed.entryTypes.Some? && allowed.entryTypes.value != {}
        && entryType.value !in allowed.entryTypes.value then Some(InvalidEntryType)
    else if r.amount.None? then Some(InvalidAmount)
    else if r.amount.value <= 0 then Some(NonPositiveAmount)
    else if EntryTypeSign(entryType.value).None? then Some(AmountSignedUnavailable)
    else if PlanEventTime(r).None? then Some(MissingEventTime)
    else if allowed.statuses.Some? && allowed.statuses.value != {} && status.Some?
        && status.value !in allowed.statuses.value then Some(InvalidStatus)
    else None
  }

  function PlanVerdict(row: (RawLedger, Option<LookupRow>), allowed: Allowlists): Result<SilverEntry, Reason> {
    var (r, matched) := row;
    var reason := WhenChain(r, allowed, matched);
    if reason.Some? then Err(reason.value)
    else
      var t := PlanEventTime(r).value;
      var entryType := PlanEntryType(r).value;
      Ok(SilverEntry(r.txId.value, r.walletId.value, t, DateKst(t), entryType, r.amount.value,
                     Abs(r.amount.value) * EntryTypeSign(entryType).value, r.relatedId, r.relatedType,
                     PlanStatus(r, matched), ParseTs(r.createdAt)))
  }

  predicate TypeHoldsInk(t: Option<EntryType>) {
    t.Some? && (t.value.Other? ==> HoldsInk(Some(t.value.text)))
  }

  /** The when-chain's first two tests, on any text: an identifier of spaces alone is missing, and so is a type
      when both columns hold spaces alone; `type` is read before `entry_type`. */
  lemma {:induction false} PlanMissing(r: RawLedger, allowed: Allowlists, matched: Option<LookupRow>)
    ensures WhenChain(r, allowed, matched) == Some(MissingTxOrWallet) <==> !HoldsInk(r.txId) || !HoldsInk(r.walletId)
    ensures WhenChain(r, allowed, matched) == Some(MissingEntryType)
            <==> HoldsInk(r.txId) && HoldsInk(r.walletId) && !TypeHoldsInk(r.typ) && !TypeHoldsInk(r.entryType)
    ensures PlanVerdict((r, matched), allowed).Ok? ==>
              Some(PlanVerdict((r, matched), allowed).value.entryType)
              == if TypeHoldsInk(r.typ) then r.typ else r.entryType
  {
  }

  predicate JoinsOrder(r: RawLedger, row: LookupRow) {
    r.relatedId == Some(row.orderId)
  }

  function OnRelatedId(): (RawLedger, LookupRow) -> bool { (r: RawLedger, row: LookupRow) => JoinsOrder(r, row) }

  /** The plan's two outputs over the joined rows. */
  ghost predicate PlanOutputs(records: seq<RawLedger>, table: seq<LookupRow>, allowed: Allowlists,
                              valid: seq<SilverEntry>, bad: seq<BadRecord<RawLedger, Reason>>)
  {
    var joined := LeftJoin(records, table, OnRelatedId());
    PlanSplit(joined, allowed, valid, bad)
  }

  ghost predicate PlanSplit(joined: seq<(RawLedger, Option<LookupRow>)>, allowed: Allowlists, valid: seq<SilverEntry>,
                            bad: seq<BadRecord<RawLedger, Reason>>)
  {
    if joined == [] then valid == [] && bad == []
    else
      var front, row := joined[..|joined|-1], joined[|joined|-1];
      match PlanVerdict(row, allowed)
      case Ok(e) => valid != [] && valid[|valid|-1] == e && PlanSplit(front, allowed, valid[..|valid|-1], bad)
      case Err(reason) =>
        bad != [] && bad[|bad|-1] == BadRecord(row.0, reason) && PlanSplit(front, allowed, valid, bad[..|bad|-1])
  }

  // ----- Agreement --------------------------------------------------------------------------

  predicate CleanRecord(r: RawLedger) {
    Clean(r.txId) && Clean(r.walletId) && CleanType(r.typ) && CleanType(r.entryType)
  }

  /** The record passes every check that comes before the event-time check. */
  predicate ReachesTimeCheck(r: RawLedger, allowed: Allowlists) {
    && !LoopFails(MissingTxOrWallet, r, allowed, None) && !LoopFails(MissingEntryType, r, allowed, None)
    && !LoopFails(InvalidEntryType, r, allowed, None) && !LoopFails(InvalidAmount, r, allowed, None)
    && !LoopFails(NonPositiveAmount, r, allowed, None) && !LoopFails(AmountSignedUnavailable, r, allowed, None)
  }

  /** The lookup row a joined record carries is the map's answer for it. */
  predicate CarriesLookup(r: RawLedger, matched: Option<LookupRow>, lookup: map<string, string>) {
    match matched
    case Some(row) => JoinsOrder(r, row) && row.orderId in lookup && lookup[row.orderId] == row.status
    case None => r.relatedId.Some? ==> r.relatedId.value !in lookup
  }

  /** On clean text the two forms give one record the same verdict, except exactly when its
      created_at is unreadable, its event_time is readable, and it gets as far as the
      event-time check: the loop then quarantines it and the plan falls back to event_time. */
  lemma {:induction false} VerdictsAgreeIff(r: RawLedger, allowed: Allowlists, matched: Option<LookupRow>,
                                            lookup: map<string, string>)
    requires CleanRecord(r) && allowed.FromRules() && CarriesLookup(r, matched, lookup)
    ensures Verdict(r, allowed, lookup) == PlanVerdict((r, matched), allowed)
            <==> !(r.createdAt.Garbled? && r.eventTime.At? && ReachesTimeCheck(r, allowed))
  {
    var st := LoopStatus(r, lookup);
    assert st == PlanStatus(r, matched);
    TypesAgree(r);
    if LoopEventTime(r) == PlanEventTime(r) {
      SameTimeSameReason(r, allowed, matched, st);
    } else {
      GarbledTimeSeparates(r, allowed, matched, st);
    }
  }

  lemma {:induction false} TypesAgree(r: RawLedger)
    requires CleanRecord(r)
    ensures TruthyType(LoopEntryType(r)) <==> PlanEntryType(r).Some?
    ensures TruthyType(LoopEntryType(r)) ==> LoopEntryType(r) == PlanEntryType(r)
  {
  }

  lemma {:induction false} SameTimeSameReason(r: RawLedger, allowed: Allowlists, matched: Option<LookupRow>,
                                              st: Option<string>)
    requires CleanRecord(r) && allowed.FromRules() && st == PlanStatus(r, matched)
             && LoopEventTime(r) == PlanEventTime(r)
    ensures FirstFailure(r, allowed, st) == WhenChain(r, allowed, matched)
  {
    TypesAgree(r);
    CleanTextHasOneNotionOfMissing(r.txId);
    CleanTextHasOneNotionOfMissing(r.walletId);
  }

  lemma {:induction false} GarbledTimeSeparates(r: RawLedger, allowed: Allowlists, matched: Option<LookupRow>,
                                                st: Option<string>)
    requires CleanRecord(r) && allowed.FromRules() && st == PlanStatus(r, matched)
             && LoopEventTime(r) != PlanEventTime(r)
    ensures r.createdAt.Garbled? && r.eventTime.At?
    ensures FirstFailure(r, allowed, st) == WhenChain(r, allowed, matched) <==> !ReachesTimeCheck(r, allowed)
    ensures FirstFailure(r, allowed, st).Some?
  {
    TypesAgree(r);
    CleanTextHasOneNotionOfMissing(r.txId);
    CleanTextHasOneNotionOfMissing(r.walletId);
  }

  predicate Comparable(r: RawLedger, allowed: Allowlists) {
    CleanRecord(r) && !(r.createdAt.Garbled? && r.eventTime.At? && ReachesTimeCheck(r, allowed))
  }

  /** The lookup table has one row per order, so joining it keeps every record once and
      attaches the map's answer. */
  lemma {:induction false} StatusJoinIsLookup(records: seq<RawLedger>, orders: seq<PaymentOrder>, table: seq<LookupRow>,
                                              i: nat)
    requires StatusLookupTable(orders, table) && i < |records|
    ensures var joined := LeftJoin(records, table, OnRelatedId());
            |joined| == |records| && joined[i].0 == records[i]
                && CarriesLookup(records[i], joined[i].1, TableAsMap(table))
  {
    forall k | 0 <= k < |records|
      ensures Unambiguous(records[k], table, OnRelatedId())
    {
      forall a, b | 0 <= a < b < |table|
        ensures !(OnRelatedId()(records[k], table[a]) && OnRelatedId()(records[k], table[b]))
      {
        assert OrderIdOf()(table[a]) != OrderIdOf()(table[b]);
      }
    }
    LeftJoinIsLookup(records, table, OnRelatedId(), i);
    TableAsMapIs(table);
  }

  lemma {:induction false} SplitsAgree(records: seq<RawLedger>, joined: seq<(RawLedger, Option<LookupRow>)>,
                                       allowed: Allowlists, lookup: map<string, string>, valid: seq<SilverEntry>,
                                       bad: seq<BadRecord<RawLedger, Reason>>)
    requires |joined| == |records|
    requires forall i | 0 <= i < |records| ::
             joined[i].0 == records[i] && CarriesLookup(records[i], joined[i].1, lookup)
    requires forall i | 0 <= i < |records| :: Comparable(records[i], allowed)
    requires allowed.FromRules() && PlanSplit(joined, allowed, valid, bad)
    ensures Split(records, Verdicts(allowed, lookup), valid, bad)
  {
    if records != [] {
      var n := |records| - 1;
      VerdictsAgreeIff(records[n], allowed, joined[n].1, lookup);
      if PlanVerdict(joined[n], allowed).Ok? {
        SplitsAgree(records[..n], joined[..n], allowed, lookup, valid[..|valid|-1], bad);
      } else {
        SplitsAgree(records[..n], joined[..n], allowed, lookup, valid, bad[..|bad|-1]);
      }
    }
  }

  /** Refinement: with the same status lookup, whatever the plan outputs is what the loop
      outputs, record for record. */
  lemma {:induction false} PlanRefinesLoop(records: seq<RawLedger>, orders: seq<PaymentOrder>, table: seq<LookupRow>,
                                           allowed: Allowlists, valid: seq<SilverEntry>,
                                           bad: seq<BadRecord<RawLedger, Reason>>)
    requires StatusLookupTable(orders, table) && allowed.FromRules()
    requires forall r | r in records :: Comparable(r, allowed)
    requires PlanOutputs(records, table, allowed, valid, bad)
    ensures Split(records, Verdicts(allowed, TableAsMap(table)), valid, bad)
    ensures |valid| + |bad| == |records|
  {
    var joined := LeftJoin(records, table, OnRelatedId());
    forall i | 0 <= i < |records|
      ensures |joined| == |records| && joined[i].0 == records[i]
              && CarriesLookup(records[i], joined[i].1, TableAsMap(table))
      ensures Comparable(records[i], allowed)
    {
      StatusJoinIsLookup(records, orders, table, i);
    }
    if records == [] { assert joined == []; }
    SplitsAgree(records, joined, allowed, TableAsMap(table), valid, bad);
    SplitAccountsForEveryRecord(records, Verdicts(allowed, TableAsMap(table)), valid, bad);
  }

  lemma {:induction false} LookupOrderIsStrict()
    ensures StrictOrder((a: LookupRow, b: LookupRow) => LookupBefore(a, b))
  {
    forall a: LookupRow
      ensures !LookupBefore(a, a)
    {
      TextOrderIsTotal(a.status, a.status);
    }
    forall a: LookupRow, b: LookupRow, c: LookupRow | LookupBefore(a, b) && LookupBefore(b, c)
      ensures LookupBefore(a, c)
    {
      if StringLess(b.status, a.status) && StringLess(c.status, b.status) {
        TextOrderIsTransitive(c.status, b.status, a.status);
      }
    }
  }

  lemma {:induction false} PlanSplitExists(joined: seq<(RawLedger, Option<LookupRow>)>, allowed: Allowlists)
    returns (valid: seq<SilverEntry>, bad: seq<BadRecord<RawLedger, Reason>>)
    ensures PlanSplit(joined, allowed, valid, bad)
  {
    if joined == [] {
      valid, bad := [], [];
    } else {
      var row := joined[|joined|-1];
      valid, bad := PlanSplitExists(joined[..|joined|-1], allowed);
      match PlanVerdict(row, allowed)
      case Ok(e) => valid := valid + [e];
      case Err(reason) => bad := bad + [BadRecord(row.0, reason)];
    }
  }

  /** The plan always has an execution: a lookup table and two outputs. */
  lemma {:induction false} PlanOutputsExist(records: seq<RawLedger>, orders: seq<PaymentOrder>, allowed: Allowlists)
    returns (table: seq<LookupRow>, valid: seq<SilverEntry>, bad: seq<BadRecord<RawLedger, Reason>>)
    ensures StatusLookupTable(orders, table) && PlanOutputs(records, table, allowed, valid, bad)
  {
    LookupOrderIsStrict();
    table := RowNumberOneExists(LookupBase(orders), OrderIdOf(), (a: LookupRow, b: LookupRow) => LookupBefore(a, b));
    valid, bad := PlanSplitExists(LeftJoin(records, table, OnRelatedId()), allowed);
  }

  // ----- Wallet snapshots --------------------------------------------------------------------

  datatype RawWallet = RawWallet(
    userId: Option<string>, balance: Option<int>, frozenAmount: Option<int>,
    updatedAt: TsField, sourceExtractedAt: TsField, ingestedAt: TsField)

  datatype SilverSnapshot = SilverSnapshot(
    snapshotTs: int, snapshotDateKst: int, userId: string, balanceAvailable: int, balanceFrozen: int,
    balanceTotal: int, sourceUpdatedAt: Option<int>)

  datatype WalletReason = MissingUserId | InvalidBalance | NegativeBalance | MissingSnapshotTs

  function SnapshotTs(r: RawWallet): Option<int> {
    if r.sourceExtractedAt.At? then Some(r.sourceExtractedAt.t) else ParseTs(r.ingestedAt)
  }

  function WalletVerdict(r: RawWallet): (v: Result<SilverSnapshot, WalletReason>)
    ensures v.Ok? ==>
              && v.value.userId != ""
              && v.value.balanceTotal == v.value.balanceAvailable + v.value.balanceFrozen
              && v.value.balanceTotal >= v.value.balanceAvailable >= 0
              && v.value.snapshotDateKst == DateKst(v.value.snapshotTs)
  {
    if !Truthy(r.userId) then Err(MissingUserId)
    else if r.balance.None? || r.frozenAmount.None? then Err(InvalidBalance)
    else if r.balance.value < 0 || r.frozenAmount.value < 0 then Err(NegativeBalance)
    else if SnapshotTs(r).None? then Err(MissingSnapshotTs)
    else
      var t := SnapshotTs(r).value;
      Ok(SilverSnapshot(t, DateKst(t), r.userId.value, r.balance.value, r.frozenAmount.value,
                        r.balance.value + r.frozenAmount.value, ParseTs(r.updatedAt)))
  }

  function WalletVerdicts(): RawWallet -> Result<SilverSnapshot, WalletReason> {
    (r: RawWallet) => WalletVerdict(r)
  }

  method TransformWalletSnapshots(records: seq<RawWallet>)
    returns (valid: seq<SilverSnapshot>, bad: seq<BadRecord<RawWallet, WalletReason>>)
    ensures Split(records, WalletVerdicts(), valid, bad)
  {
    valid, bad := [], [];
    for i := 0 to |records|
      invariant Split(records[..i], WalletVerdicts(), valid, bad)
    {
      var r := records[i];
      SplitExtend(records[..i], WalletVerdicts(), valid, bad, r);
      assert records[..i+1] == records[..i] + [r];
      if !Truthy(r.userId) {
        bad := bad + [BadRecord(r, MissingUserId)];
        continue;
      }
      if r.balance.None? || r.frozenAmount.None? {
        bad := bad + [BadRecord(r, InvalidBalance)];
        continue;
      }
      if r.balance.value < 0 || r.frozenAmount.value < 0 {
        bad := bad + [BadRecord(r, NegativeBalance)];
        continue;
      }
      var snapshotTs := if r.sourceExtractedAt.At? then Some(r.sourceExtractedAt.t) else ParseTs(r.ingestedAt);
      if snapshotTs.None? {
        bad := bad + [BadRecord(r, MissingSnapshotTs)];
        continue;
      }
      var balanceTotal := r.balance.value + r.frozenAmount.value;
      valid := valid + [SilverSnapshot(snapshotTs.value, DateKst(snapshotTs.value), r.userId.value, r.balance.value,
                                       r.frozenAmount.value, balanceTotal, ParseTs(r.updatedAt))];
    }
    assert records[..|records|] == records;
  }

  /** The wallet plan's when-chain; its first test trims, the loop's does not. */
  function WalletPlanVerdict(r: RawWallet): Result<SilverSnapshot, WalletReason> {
    if NullIfBlank(r.userId).None? then Err(MissingUserId)
    else if r.balance.None? || r.frozenAmount.None? then Err(InvalidBalance)
    else if r.balance.value < 0 || r.frozenAmount.value < 0 then Err(NegativeBalance)
    else
      var snapshotTs := if ParseTs(r.sourceExtractedAt).Some? then ParseTs(r.sourceExtractedAt)
          else ParseTs(r.ingestedAt);
      if snapshotTs.None? then Err(MissingSnapshotTs)
      else Ok(SilverSnapshot(snapshotTs.value, DateKst(snapshotTs.value), r.userId.value, r.balance.value,
          r.frozenAmount.value,
                             r.balance.value + r.frozenAmount.value, ParseTs(r.updatedAt)))
  }

  /** The two wallet forms differ exactly on a user id made of spaces alone. */
  lemma {:induction false} WalletVerdictsAgreeIff(r: RawWallet)
    ensures WalletVerdict(r) == WalletPlanVerdict(r)
            <==> !(Truthy(r.userId) && Trimmed(r.userId.value))
  {
  }

  // ----- Bad-record rate ---------------------------------------------------------------------

  function BadRecordsRate(validCount: nat, badCount: nat): real {
    if validCount + badCount == 0 then 0.0 else badCount as real / (validCount + badCount) as real
  }

  /** The run stops when the rate exceeds the threshold; equality is tolerated. */
  function EnforceBadRecordsRate(validCount: nat, badCount: nat, threshold: Option<real>): Result<real, real> {
    var rate := BadRecordsRate(validCount, badCount);
    if threshold.Some? && rate > threshold.value then Err(rate) else Ok(rate)
  }

  /** In counts: without a threshold everything is tolerated; a run without records needs a threshold that is
      not negative; otherwise the bad records are at most that share of all records. */
  predicate Tolerated(validCount: nat, badCount: nat, threshold: Option<real>) {
    threshold.Some? ==>
      if validCount + badCount == 0 then threshold.value >= 0.0
      else badCount as real <= threshold.value * (validCount + badCount) as real
  }

  /** The run goes on exactly when the bad records are tolerated; without bad records, exactly when the
      threshold is not negative. */
  lemma {:induction false} GoesOnIffTolerated(validCount: nat, badCount: nat, threshold: Option<real>)
    ensures EnforceBadRecordsRate(validCount, badCount, threshold).Ok? <==> Tolerated(validCount, badCount, threshold)
    ensures badCount == 0 && threshold.Some? ==>
              (Tolerated(validCount, badCount, threshold) <==> threshold.value >= 0.0)
  {
    if threshold.Some? && validCount + badCount != 0 {
      var whole, level := (validCount + badCount) as real, threshold.value;
      QuotientAtMost(badCount as real, whole, level);
      if level < 0.0 {
        assert level * whole < 0.0;
      } else {
        assert level * whole >= 0.0;
      }
    }
  }
}
