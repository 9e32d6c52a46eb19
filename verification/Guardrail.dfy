/** The Guardrail metrics of one window of one source: duplicate rate, freshness, contract
    violations and consecutive empty windows, as record loops and as aggregates, and the
    status derived from them. */
module Guardrail {
  import opened Prelude
  import opened SilverControls
  import opened LedgerControls

  // ----- Records -------------------------------------------------------------------------

  /** A numeric field: absent or blank, present but no number, or a number. */
  datatype NumField = Absent | NotANumber | Num(n: int)

  function ParseDecimal(f: NumField): Option<int> {
    if f.Num? then Some(f.n) else None
  }

  /** The fields the contract of a source looks at. */
  datatype Bronze =
    | UserWallet(userId: Option<string>, balance: NumField, frozenAmount: NumField)
    | TransactionLedger(txId: Option<string>, walletId: Option<string>, typ: Option<EntryType>, amount: NumField)
    | PaymentOrderRaw(orderId: Option<string>, amount: NumField, status: Option<string>)

  /** An event of a source: its contract fields, its duplicate-key values, its timestamps. */
  datatype Event = Event(fields: Bronze, key: seq<Option<string>>, stamps: seq<Option<int>>)

  // ----- Missing values -------------------------------------------------------------------

  /** The loops' test strips all whitespace, the plans' test trims spaces. */
  predicate Present(s: Option<string>) {
    s.Some? && !Stripped(s.value)
  }

  predicate PresentType(t: Option<EntryType>) {
    t.Some? && (t.value.Other? ==> !Stripped(t.value.text))
  }

  predicate CleanFields(b: Bronze) {
    match b
    case UserWallet(u, _, _) => Clean(u)
    case TransactionLedger(t, w, typ, _) => Clean(t) && Clean(w) && CleanType(typ)
    case PaymentOrderRaw(o, _, _) => Clean(o)
  }

  predicate CleanEvent(e: Event) {
    CleanFields(e.fields) && forall i | 0 <= i < |e.key| :: Clean(e.key[i])
  }

  lemma {:induction false} CleanPresence(s: Option<string>)
    requires Clean(s)
    ensures Present(s) <==> NonBlank(s)
  {
  }

  // ----- Contract -------------------------------------------------------------------------

  predicate MeetsContract(b: Bronze, allowed: Allowlists) {
    match b
    case UserWallet(u, balance, frozen) =>
      Present(u) && !balance.Absent? && !frozen.Absent?
      && balance.Num? && frozen.Num? && balance.n >= 0 && frozen.n >= 0
    case TransactionLedger(tx, w, typ, amount) =>
      Present(tx) && Present(w) && PresentType(typ) && !amount.Absent?
      && amount.Num? && amount.n > 0
      && (allowed.entryTypes.Some? ==> typ.value in allowed.entryTypes.value)
    case PaymentOrderRaw(o, amount, status) =>
      Present(o) && !amount.Absent? && amount.Num? && amount.n > 0
      && (allowed.statuses.Some? && status.Some? ==> status.value in allowed.statuses.value)
  }

  /** The plan's validity expression, null counting as not valid. */
  predicate ValidExpr(b: Bronze, allowed: Allowlists) {
    match b
    case UserWallet(u, balance, frozen) =>
      var (b, f) := (ParseDecimal(balance), ParseDecimal(frozen));
      NonBlank(u) && b.Some? && f.Some? && b.value >= 0 && f.value >= 0
    case TransactionLedger(tx, w, typ, amount) =>
      var a := ParseDecimal(amount);
      NonBlank(tx) && NonBlank(w) && NonBlankType(typ) && a.Some? && a.value > 0
      && (allowed.entryTypes.None? || typ.value in allowed.entryTypes.value)
    case PaymentOrderRaw(o, amount, status) =>
      var a := ParseDecimal(amount);
      NonBlank(o) && a.Some? && a.value > 0
      && (allowed.statuses.None? || status.None? || status.value in allowed.statuses.value)
  }

  lemma {:induction false} ContractFormsAgree(b: Bronze, allowed: Allowlists)
    requires CleanFields(b)
    ensures MeetsContract(b, allowed) <==> ValidExpr(b, allowed)
  {
  }

  /** On any text, the validity expression asks for a character that is not a space in every identifier and in
      the type, and the record check for one that is no whitespace: the check is the expression and the absence
      of texts of whitespace alone. */
  lemma {:induction false} ContractFormsDifferBy(b: Bronze, allowed: Allowlists)
    ensures ValidExpr(b, allowed) ==>
              match b
              case UserWallet(u, _, _) => HoldsInk(u)
              case TransactionLedger(tx, w, typ, _) => HoldsInk(tx) && HoldsInk(w) && TypeHoldsInk(typ)
              case PaymentOrderRaw(o, _, _) => HoldsInk(o)
    ensures MeetsContract(b, allowed)
            <==> ValidExpr(b, allowed)
                 && match b
                    case UserWallet(u, _, _) => !Stripped(u.value)
                    case TransactionLedger(tx, w, typ, _) =>
                      !Stripped(tx.value) && !Stripped(w.value) && PresentType(typ)
                    case PaymentOrderRaw(o, _, _) => !Stripped(o.value)
  {
  }

  // ----- The loops ---------------------------------------------------------------------------

  predicate CompleteKey(key: seq<Option<string>>) {
    forall i | 0 <= i < |key| :: Present(key[i])
  }

  function HasCompleteKey(): Event -> bool { (e: Event) => CompleteKey(e.key) }

  function KeySet(events: seq<Event>): set<seq<Option<string>>> {
    set e | e in events :: e.key
  }

  function CompleteEvents(events: seq<Event>): seq<Event> {
    Filter(events, HasCompleteKey())
  }

  function SeenKeys(events: seq<Event>): set<seq<Option<string>>> {
    if events == [] then {}
    else SeenKeys(events[..|events|-1]) + if CompleteKey(events[|events|-1].key) then {events[|events|-1].key} else {}
  }

  function CompleteCount(events: seq<Event>): nat {
    if events == [] then 0
    else CompleteCount(events[..|events|-1]) + if CompleteKey(events[|events|-1].key) then 1 else 0
  }

  lemma {:induction false} SeenKeysAreTheCompleteKeys(events: seq<Event>)
    ensures SeenKeys(events) == KeySet(CompleteEvents(events))
    ensures CompleteCount(events) == |CompleteEvents(events)|
  {
    if events != [] {
      SeenKeysAreTheCompleteKeys(events[..|events|-1]);
    }
  }

  /** Seen-set duplicates are the complete keys beyond their distinct values. */
  method CountDuplicates(events: seq<Event>) returns (duplicates: nat, total: nat)
    ensures total == |CompleteEvents(events)|
    ensures duplicates == total - |KeySet(CompleteEvents(events))|
  {
    var seen: set<seq<Option<string>>> := {};
    duplicates, total := 0, 0;
    for i := 0 to |events|
      invariant total == CompleteCount(events[..i]) && seen == SeenKeys(events[..i])
      invariant duplicates == total - |seen|
    {
      assert events[..i+1][..i] == events[..i];
      var key := events[i].key;
      if !CompleteKey(key) {
        continue;
      }
      total := total + 1;
      if key in seen {
        duplicates := duplicates + 1;
      } else {
        seen := seen + {key};
      }
    }
    assert events[..|events|] == events;
    SeenKeysAreTheCompleteKeys(events);
  }

  /** m is the greatest timestamp of any field of any event; None when there is none. */
  ghost predicate IsGreatest(events: seq<Event>, m: Option<int>) {
    && (m.Some? ==> exists e :: e in events && m in e.stamps)
    && (forall e, t | e in events && t in e.stamps && t.Some? :: m.Some? && t.value <= m.value)
  }

  lemma {:induction false} GreatestUnique(events: seq<Event>, m1: Option<int>, m2: Option<int>)
    requires IsGreatest(events, m1) && IsGreatest(events, m2)
    ensures m1 == m2
  {
  }

  method MaxTimestamp(events: seq<Event>) returns (maxTs: Option<int>)
    ensures IsGreatest(events, maxTs)
  {
    maxTs := None;
    for i := 0 to |events|
      invariant IsGreatest(events[..i], maxTs)
    {
      var stamps := events[i].stamps;
      ghost var before := maxTs;
      for f := 0 to |stamps|
        invariant maxTs.Some? ==> maxTs == before || maxTs in stamps[..f]
        invariant before.Some? ==> maxTs.Some? && before.value <= maxTs.value
        invariant forall t | t in stamps[..f] && t.Some? :: maxTs.Some? && t.value <= maxTs.value
      {
        var ts := stamps[f];
        if ts.None? {
          continue;
        }
        if maxTs.None? || ts.value > maxTs.value {
          maxTs := ts;
        }
      }
      assert stamps[..|stamps|] == stamps;
      assert events[..i+1] == events[..i] + [events[i]];
    }
    assert events[..|events|] == events;
  }

  function Violates(allowed: Allowlists): Event -> int {
    (e: Event) => if MeetsContract(e.fields, allowed) then 0 else 1
  }

  method CountBadRecords(events: seq<Event>, allowed: Allowlists) returns (bad: nat, total: nat)
    ensures total == |events| && bad == SumBy(events, Violates(allowed)) <= total
  {
    bad, total := 0, 0;
    for i := 0 to |events|
      invariant total == i && bad == SumBy(events[..i], Violates(allowed)) <= total
    {
      SumByStep(events, i, Violates(allowed));
      total := total + 1;
      if !MeetsContract(events[i].fields, allowed) {
        bad := bad + 1;
      }
    }
    assert events[..|events|] == events;
  }

  // ----- The aggregates -----------------------------------------------------------------------

  function HasNonBlankKey(): Event -> bool {
    (e: Event) => forall i | 0 <= i < |e.key| :: NonBlank(e.key[i])
  }

  /** The plan counts an event as keyed when every key column holds a character that is not a space. */
  lemma {:induction false} PlanKeyedMeans(e: Event)
    ensures HasNonBlankKey()(e) <==> forall i | 0 <= i < |e.key| :: HoldsInk(e.key[i])
  {
    forall i | 0 <= i < |e.key|
      ensures NonBlank(e.key[i]) <==> HoldsInk(e.key[i])
    {
      BlankMeans(e.key[i]);
    }
  }

  /** `max(field)` over a column. */
  ghost predicate IsColumnMax(events: seq<Event>, f: nat, m: Option<int>) {
    && (m.Some? ==> exists e :: e in events && f < |e.stamps| && e.stamps[f] == m)
    && (forall e | e in events && f < |e.stamps| && e.stamps[f].Some? :: m.Some? && e.stamps[f].value <= m.value)
  }

  /** m is the greatest of the values that are not null; None when all are. */
  ghost predicate IsMaxOf(maxima: seq<Option<int>>, m: Option<int>) {
    && (m.Some? ==> m in maxima)
    && (forall t | t in maxima && t.Some? :: m.Some? && t.value <= m.value)
  }

  /** The plan's loop over the collected column maxima. */
  method MaxOfColumns(maxima: seq<Option<int>>) returns (maxTs: Option<int>)
    ensures IsMaxOf(maxima, maxTs)
  {
    maxTs := None;
    for f := 0 to |maxima|
      invariant IsMaxOf(maxima[..f], maxTs)
    {
      assert maxima[..f+1] == maxima[..f] + [maxima[f]];
      if maxima[f].None? {
        continue;
      }
      if maxTs.None? || maxima[f].value > maxTs.value {
        maxTs := maxima[f];
      }
    }
    assert maxima[..|maxima|] == maxima;
  }

  /** Every event of a frame has the frame's timestamp columns. */
  predicate SameColumns(events: seq<Event>, n: nat) {
    forall e | e in events :: |e.stamps| == n
  }

  /** The maximum of the column maxima is the maximum of all timestamps. */
  lemma {:induction false} ColumnMaximaAgree(events: seq<Event>, maxima: seq<Option<int>>, m: Option<int>)
    requires SameColumns(events, |maxima|)
    requires forall f | 0 <= f < |maxima| :: IsColumnMax(events, f, maxima[f])
    requires IsMaxOf(maxima, m)
    ensures IsGreatest(events, m)
  {
    if m.Some? {
      var f :| 0 <= f < |maxima| && maxima[f] == m;
      assert IsColumnMax(events, f, maxima[f]);
    }
    forall e, t | e in events && t in e.stamps && t.Some?
      ensures m.Some? && t.value <= m.value
    {
      var f :| 0 <= f < |e.stamps| && e.stamps[f] == t;
      assert IsColumnMax(events, f, maxima[f]);
      assert maxima[f] in maxima;
    }
  }

  function ValidFlag(allowed: Allowlists): Event -> int {
    (e: Event) => if ValidExpr(e.fields, allowed) then 1 else 0
  }

  // ----- Metrics and status ---------------------------------------------------------------------

  datatype Metrics = Metrics(eventCount: nat, duplicates: int, keyed: nat, maxTs: Option<int>, bad: int)

  /** The metrics any execution of the aggregate form computes, `maxima` being the collected column
      maxima. */
  ghost predicate PlanMetrics(events: seq<Event>, maxima: seq<Option<int>>, allowed: Allowlists, m: Metrics) {
    var keyed := Filter(events, HasNonBlankKey());
    && (forall f | 0 <= f < |maxima| :: IsColumnMax(events, f, maxima[f]))
    && IsMaxOf(maxima, m.maxTs)
    && m.eventCount == |events|
    && m.keyed == |keyed|
    && m.duplicates == |keyed| - |KeySet(keyed)|
    && m.bad == (var invalid := |events| - SumBy(events, ValidFlag(allowed)); if invalid > 0 then invalid else 0)
  }

  ghost predicate LoopMetrics(events: seq<Event>, allowed: Allowlists, m: Metrics) {
    var keyed := Filter(events, HasCompleteKey());
    && m.eventCount == |events|
    && m.keyed == |keyed|
    && m.duplicates == |keyed| - |KeySet(keyed)|
    && IsGreatest(events, m.maxTs)
    && m.bad == SumBy(events, Violates(allowed))
  }

  lemma {:induction false} ViolationsAreTheRest(events: seq<Event>, allowed: Allowlists)
    requires forall e | e in events :: CleanEvent(e)
    ensures SumBy(events, Violates(allowed)) == |events| - SumBy(events, ValidFlag(allowed))
    ensures SumBy(events, Violates(allowed)) >= 0
  {
    if events != [] {
      ViolationsAreTheRest(events[..|events|-1], allowed);
      assert CleanEvent(events[|events|-1]);
      ContractFormsAgree(events[|events|-1].fields, allowed);
    }
  }

  /** On clean text the loops and the aggregates compute the same metrics. */
  lemma {:induction false} MetricsAgree(events: seq<Event>, maxima: seq<Option<int>>, allowed: Allowlists,
                                        loop: Metrics, plan: Metrics)
    requires forall e | e in events :: CleanEvent(e)
    requires SameColumns(events, |maxima|)
    requires LoopMetrics(events, allowed, loop) && PlanMetrics(events, maxima, allowed, plan)
    ensures loop == plan
  {
    ColumnMaximaAgree(events, maxima, plan.maxTs);
    ViolationsAreTheRest(events, allowed);
    GreatestUnique(events, loop.maxTs, plan.maxTs);
    forall e | e in events
      ensures HasCompleteKey()(e) == HasNonBlankKey()(e)
    {
      forall i | 0 <= i < |e.key|
        ensures Present(e.key[i]) == NonBlank(e.key[i])
      {
        CleanPresence(e.key[i]);
      }
    }
    FilterExt(events, HasCompleteKey(), HasNonBlankKey());
  }

  // ----- Severity and overall status -----------------------------------------------------------------

  /** Guardrail metrics breach a rule when they reach it. */
  function EvaluateDqSeverity(value: Option<real>, rule: Option<Rule>): Option<Severity> {
    if rule.None? || value.None? then None
    else if rule.value.crit.Some? && value.value >= rule.value.crit.value then Some(CRITICAL)
    else if rule.value.warn.Some? && value.value >= rule.value.warn.value then Some(WARN)
    else if rule.value.threshold.Some? && value.value >= rule.value.threshold.value then Some(CRITICAL)
    else None
  }

  datatype Tag = SOURCE_STALE | DUP_SUSPECTED | EVENT_DROP_SUSPECTED | CONTRACT_VIOLATION

  function Rank(s: Severity): int {
    match s case CRITICAL => 2 case WARN => 1
  }

  function Priority(t: Tag): int {
    match t case SOURCE_STALE => 0 case DUP_SUSPECTED => 1 case EVENT_DROP_SUSPECTED => 2 case CONTRACT_VIOLATION => 3
  }

  /** Whether assessment a outranks assessment b. */
  predicate Outranks(a: (Tag, Severity), b: (Tag, Severity)) {
    Rank(a.1) > Rank(b.1) || (Rank(a.1) == Rank(b.1) && Priority(a.0) < Priority(b.0))
  }

  /** The overall status is an assessment nothing outranks, and there is one exactly when some
      assessment has a severity. */
  ghost predicate IsOverall(assessments: seq<(Tag, Option<Severity>)>, best: Option<(Tag, Severity)>) {
    && (best.None? <==> forall a | a in assessments :: a.1.None?)
    && (best.Some? ==> (best.value.0, Some(best.value.1)) in assessments)
    && (best.Some? ==> forall a | a in assessments && a.1.Some? :: !Outranks((a.0, a.1.value), best.value))
  }

  lemma {:induction false} OverallIsUnique(assessments: seq<(Tag, Option<Severity>)>, a: Option<(Tag, Severity)>,
                                           b: Option<(Tag, Severity)>)
    requires IsOverall(assessments, a) && IsOverall(assessments, b)
    ensures a == b
  {
  }

  method PickOverallStatus(assessments: seq<(Tag, Option<Severity>)>) returns (best: Option<(Tag, Severity)>)
    ensures IsOverall(assessments, best)
  {
    best := None;
    var bestRank, bestPriority := -1, 999;
    for i := 0 to |assessments|
      invariant IsOverall(assessments[..i], best)
      invariant best.Some? ==> bestRank == Rank(best.value.1) && bestPriority == Priority(best.value.0)
      invariant best.None? ==> bestRank == -1 && bestPriority == 999
    {
      assert assessments[..i+1] == assessments[..i] + [assessments[i]];
      var (tag, severity) := assessments[i];
      if severity.None? {
        continue;
      }
      var rank, tagPriority := Rank(severity.value), Priority(tag);
      if rank > bestRank || (rank == bestRank && tagPriority < bestPriority) {
        bestRank, bestPriority, best := rank, tagPriority, Some((tag, severity.value));
      }
    }
    assert assessments[..|assessments|] == assessments;
  }

  datatype DqRules = DqRules(freshness: Option<Rule>, dup: Option<Rule>, completeness: Option<Rule>,
      contract: Option<Rule>)

  function Rate(numerator: int, denominator: int): real {
    if denominator == 0 then 0.0 else numerator as real / denominator as real
  }

  function ZeroWindows(previous: nat, eventCount: nat): nat {
    if eventCount == 0 then previous + 1 else 0
  }

  /** The four assessments, in the order both forms make them. `keyFields` says whether the
      source is checked for duplicates. */
  function Assess(m: Metrics, rules: DqRules, keyFields: bool, previousZero: nat,
                  now: int): seq<(Tag, Option<Severity>)> {
    [(SOURCE_STALE,
      EvaluateDqSeverity(if m.maxTs.Some? then Some((now - m.maxTs.value) as real / 1000000.0) else None,
                         rules.freshness)),
     (DUP_SUSPECTED, EvaluateDqSeverity(if keyFields then Some(Rate(m.duplicates, m.keyed)) else None, rules.dup)),
     (EVENT_DROP_SUSPECTED,
      EvaluateDqSeverity(Some(ZeroWindows(previousZero, m.eventCount) as real), rules.completeness)),
     (CONTRACT_VIOLATION, EvaluateDqSeverity(Some(Rate(m.bad, m.eventCount)), rules.contract))]
  }

  datatype DqStatus = DqStatus(metrics: Metrics, overall: Option<(Tag, Severity)>, exceptions: seq<(Tag, Severity)>,
      zeroWindowCount: nat)

  /** One exception per assessment with a severity, in order. */
  function Raised(assessments: seq<(Tag, Option<Severity>)>): seq<(Tag, Severity)> {
    if assessments == [] then []
    else
      var (tag, severity) := assessments[|assessments|-1];
      Raised(assessments[..|assessments|-1]) + if severity.Some? then [(tag, severity.value)] else []
  }

  method RaiseExceptions(assessments: seq<(Tag, Option<Severity>)>) returns (exceptions: seq<(Tag, Severity)>)
    ensures exceptions == Raised(assessments)
  {
    exceptions := [];
    for i := 0 to |assessments|
      invariant exceptions == Raised(assessments[..i])
    {
      assert assessments[..i+1][..i] == assessments[..i];
      if assessments[i].1.Some? {
        exceptions := exceptions + [(assessments[i].0, assessments[i].1.value)];
      }
    }
    assert assessments[..|assessments|] == assessments;
  }

  ghost predicate StatusOf(m: Metrics, rules: DqRules, keyFields: bool, previousZero: nat, now: int, s: DqStatus) {
    var assessments := Assess(m, rules, keyFields, previousZero, now);
    && s.metrics == m && s.zeroWindowCount == ZeroWindows(previousZero, m.eventCount)
    && s.exceptions == Raised(assessments)
    && IsOverall(assessments, s.overall)
  }

  // ----- What raises an alarm ------------------------------------------------------------------------

  /** The newest timestamp is at least `level` seconds old. */
  predicate AgeReaches(m: Metrics, now: int, level: real) {
    m.maxTs.Some? && (now - m.maxTs.value) as real >= level * 1000000.0
  }

  /** At least the share `level` of the whole; of nothing, the share is zero. */
  predicate ShareReaches(part: int, whole: nat, level: real) {
    if whole == 0 then level <= 0.0 else part as real >= level * whole as real
  }

  /** That many windows in a row, this one included, were empty. */
  predicate EmptyWindowsReach(previousZero: nat, eventCount: nat, level: real) {
    if eventCount == 0 then previousZero as real + 1.0 >= level else level <= 0.0
  }

  /** A metric that reaches the critical level raises CRITICAL; else WARN if it reaches the warning level; else
      CRITICAL if it reaches the plain threshold. */
  ghost predicate RaisesExactly(exceptions: seq<(Tag, Severity)>, tag: Tag, rule: Option<Rule>, reaches: real -> bool) {
    var crit := rule.Some? && rule.value.crit.Some? && reaches(rule.value.crit.value);
    var warn := rule.Some? && rule.value.warn.Some? && reaches(rule.value.warn.value);
    var plain := rule.Some? && rule.value.threshold.Some? && reaches(rule.value.threshold.value);
    && ((tag, CRITICAL) in exceptions <==> crit || (!warn && plain))
    && ((tag, WARN) in exceptions <==> !crit && warn)
  }

  ghost predicate AlarmsAre(m: Metrics, rules: DqRules, keyFields: bool, previousZero: nat, now: int,
                            exceptions: seq<(Tag, Severity)>) {
    && RaisesExactly(exceptions, SOURCE_STALE, rules.freshness, level => AgeReaches(m, now, level))
    && RaisesExactly(exceptions, DUP_SUSPECTED, rules.dup,
                     level => keyFields && ShareReaches(m.duplicates, m.keyed, level))
    && RaisesExactly(exceptions, EVENT_DROP_SUSPECTED, rules.completeness,
                     level => EmptyWindowsReach(previousZero, m.eventCount, level))
    && RaisesExactly(exceptions, CONTRACT_VIOLATION, rules.contract,
                     level => ShareReaches(m.bad, m.eventCount, level))
  }

  lemma {:induction false} RaisedIs(assessments: seq<(Tag, Option<Severity>)>)
    ensures forall tag, severity ::
              (tag, severity) in Raised(assessments) <==> (tag, Some(severity)) in assessments
  {
    if assessments != [] {
      var front, last := assessments[..|assessments|-1], assessments[|assessments|-1];
      RaisedIs(front);
      assert assessments == front + [last];
      forall tag, severity
        ensures (tag, severity) in Raised(assessments) <==> (tag, Some(severity)) in assessments
      {
        assert (tag, severity) in Raised(assessments)
            <==> (tag, severity) in Raised(front) || (tag, Some(severity)) == last;
      }
    }
  }

  lemma {:induction false} RateReaches(part: int, whole: nat, level: real)
    ensures Rate(part, whole) >= level <==> ShareReaches(part, whole, level)
  {
    if whole != 0 {
      QuotientReaches(part as real, whole as real, level);
    }
  }

  /** One assessment: what its metric raises. */
  lemma {:induction false} AssessmentRaises(exceptions: seq<(Tag, Severity)>, tag: Tag, value: Option<real>,
                                            rule: Option<Rule>, reaches: real -> bool)
    requires forall severity :: (tag, severity) in exceptions <==> EvaluateDqSeverity(value, rule) == Some(severity)
    requires forall level :: reaches(level) <==> value.Some? && value.value >= level
    ensures RaisesExactly(exceptions, tag, rule, reaches)
  {
    if rule.Some? {
      var levels := rule.value;
      assert levels.crit.Some? ==> (reaches(levels.crit.value) <==> value.Some? && value.value >= levels.crit.value);
      assert levels.warn.Some? ==> (reaches(levels.warn.value) <==> value.Some? && value.value >= levels.warn.value);
      assert levels.threshold.Some? ==>
          (reaches(levels.threshold.value) <==> value.Some? && value.value >= levels.threshold.value);
    }
    assert (tag, CRITICAL) in exceptions <==> EvaluateDqSeverity(value, rule) == Some(CRITICAL);
    assert (tag, WARN) in exceptions <==> EvaluateDqSeverity(value, rule) == Some(WARN);
  }

  lemma {:induction false} RaisedByTag(m: Metrics, rules: DqRules, keyFields: bool, previousZero: nat, now: int)
    ensures var four := Assess(m, rules, keyFields, previousZero, now);
            && |four| == 4
            && forall i, severity | 0 <= i < 4 :: (four[i].0, severity) in Raised(four) <==> four[i].1 == Some(severity)
  {
    var four := Assess(m, rules, keyFields, previousZero, now);
    RaisedIs(four);
    forall i, severity | 0 <= i < 4
      ensures (four[i].0, Some(severity)) in four <==> four[i].1 == Some(severity)
    {
      assert forall j | 0 <= j < 4 && four[j].0 == four[i].0 :: j == i;
      if four[i].1 == Some(severity) { assert four[i] == (four[i].0, Some(severity)); }
    }
  }

  lemma {:induction false} AgeReachesIff(m: Metrics, now: int, level: real)
    requires m.maxTs.Some?
    ensures (now - m.maxTs.value) as real / 1000000.0 >= level <==> AgeReaches(m, now, level)
  {
    QuotientReaches((now - m.maxTs.value) as real, 1000000.0, level);
  }

  /** What a status raises, in either form: each alarm exactly when its own metric reaches a level of its own
      rule. */
  lemma {:induction false} StatusAlarms(m: Metrics, rules: DqRules, keyFields: bool, previousZero: nat, now: int,
                                        s: DqStatus)
    requires StatusOf(m, rules, keyFields, previousZero, now, s)
    ensures AlarmsAre(m, rules, keyFields, previousZero, now, s.exceptions)
  {
    var four := Assess(m, rules, keyFields, previousZero, now);
    RaisedByTag(m, rules, keyFields, previousZero, now);
    assert four[0].0 == SOURCE_STALE && four[1].0 == DUP_SUSPECTED;
    assert four[2].0 == EVENT_DROP_SUSPECTED && four[3].0 == CONTRACT_VIOLATION;
    forall level
      ensures Rate(m.duplicates, m.keyed) >= level <==> ShareReaches(m.duplicates, m.keyed, level)
      ensures Rate(m.bad, m.eventCount) >= level <==> ShareReaches(m.bad, m.eventCount, level)
      ensures m.maxTs.Some? ==> ((now - m.maxTs.value) as real / 1000000.0 >= level <==> AgeReaches(m, now, level))
    {
      RateReaches(m.duplicates, m.keyed, level);
      RateReaches(m.bad, m.eventCount, level);
      if m.maxTs.Some? { AgeReachesIff(m, now, level); }
    }
    var age := if m.maxTs.Some? then Some((now - m.maxTs.value) as real / 1000000.0) else None;
    AssessmentRaises(s.exceptions, SOURCE_STALE, age, rules.freshness, level => AgeReaches(m, now, level));
    AssessmentRaises(s.exceptions, DUP_SUSPECTED, if keyFields then Some(Rate(m.duplicates, m.keyed)) else None,
                     rules.dup, level => keyFields && ShareReaches(m.duplicates, m.keyed, level));
    AssessmentRaises(s.exceptions, EVENT_DROP_SUSPECTED, Some(ZeroWindows(previousZero, m.eventCount) as real),
                     rules.completeness, level => EmptyWindowsReach(previousZero, m.eventCount, level));
    AssessmentRaises(s.exceptions, CONTRACT_VIOLATION, Some(Rate(m.bad, m.eventCount)), rules.contract,
                     level => ShareReaches(m.bad, m.eventCount, level));
  }

  /** The tag and severity a day carries: critical before warning, and among equals the source's age, then
      duplicates, then missing windows, then contract violations; none exactly without an alarm. */
  ghost predicate OverallIs(exceptions: seq<(Tag, Severity)>, overall: Option<(Tag, Severity)>) {
    var critical := set e | e in exceptions && e.1 == CRITICAL :: e.0;
    var warned := set e | e in exceptions && e.1 == WARN :: e.0;
    && (overall.None? <==> exceptions == [])
    && (overall.Some? && critical != {} ==> overall.value == (FirstOf(critical), CRITICAL))
    && (overall.Some? && critical == {} ==> overall.value == (FirstOf(warned), WARN))
  }

  function FirstOf(tags: set<Tag>): Tag {
    if SOURCE_STALE in tags then SOURCE_STALE
    else if DUP_SUSPECTED in tags then DUP_SUSPECTED
    else if EVENT_DROP_SUSPECTED in tags then EVENT_DROP_SUSPECTED
    else CONTRACT_VIOLATION
  }

  lemma {:induction false} UnrankedIsFirst(exceptions: seq<(Tag, Severity)>, best: (Tag, Severity))
    requires best in exceptions && forall e | e in exceptions :: !Outranks(e, best)
    ensures OverallIs(exceptions, Some(best))
  {
    var critical := set e | e in exceptions && e.1 == CRITICAL :: e.0;
    var warned := set e | e in exceptions && e.1 == WARN :: e.0;
    forall tag
      ensures tag in critical <==> (tag, CRITICAL) in exceptions
      ensures tag in warned <==> (tag, WARN) in exceptions
    {
    }
    assert best == (best.0, best.1);
    assert forall tag, severity | (tag, severity) in exceptions :: !Outranks((tag, severity), best);
    if critical != {} {
      var tag :| tag in critical;
      assert FirstOf(critical) in critical;
    } else {
      assert best.1 == WARN && best.0 in warned && FirstOf(warned) in warned;
    }
  }

  lemma {:induction false} NothingRaised(assessments: seq<(Tag, Option<Severity>)>)
    requires forall a | a in assessments :: a.1.None?
    ensures Raised(assessments) == []
  {
    if assessments != [] {
      assert assessments[|assessments|-1] in assessments;
      NothingRaised(assessments[..|assessments|-1]);
    }
  }

  lemma {:induction false} StatusOverall(m: Metrics, rules: DqRules, keyFields: bool, previousZero: nat, now: int,
                                         s: DqStatus)
    requires StatusOf(m, rules, keyFields, previousZero, now, s)
    ensures OverallIs(s.exceptions, s.overall)
  {
    var four := Assess(m, rules, keyFields, previousZero, now);
    RaisedIs(four);
    if s.overall.Some? {
      var best := s.overall.value;
      assert (best.0, best.1) in s.exceptions;
      forall e | e in s.exceptions
        ensures !Outranks(e, best)
      {
        assert (e.0, e.1) in s.exceptions && (e.0, Some(e.1)) in four;
      }
      UnrankedIsFirst(s.exceptions, best);
    } else {
      NothingRaised(four);
    }
  }

  method BuildDqStatus(events: seq<Event>, allowed: Allowlists, rules: DqRules, keyFields: bool, previousZero: nat,
                       now: int)
    returns (s: DqStatus)
    ensures LoopMetrics(events, allowed, s.metrics)
    ensures StatusOf(s.metrics, rules, keyFields, previousZero, now, s)
    ensures AlarmsAre(s.metrics, rules, keyFields, previousZero, now, s.exceptions)
    ensures OverallIs(s.exceptions, s.overall)
  {
    var eventCount := |events|;
    var zeroWindows := if eventCount == 0 then previousZero + 1 else 0;
    var maxTs := MaxTimestamp(events);
    var duplicates, keyed := CountDuplicates(events);
    var bad, total := CountBadRecords(events, allowed);
    var metrics := Metrics(eventCount, duplicates, keyed, maxTs, bad);
    var assessments := Assess(metrics, rules, keyFields, previousZero, now);
    var overall := PickOverallStatus(assessments);
    var exceptions := RaiseExceptions(assessments);
    s := DqStatus(metrics, overall, exceptions, zeroWindows);
    StatusAlarms(metrics, rules, keyFields, previousZero, now, s);
    StatusOverall(metrics, rules, keyFields, previousZero, now, s);
  }

  /** The two forms report the same status: same metrics, severities, overall tag, exceptions. */
  lemma {:induction false} StatusesAgree(events: seq<Event>, maxima: seq<Option<int>>, allowed: Allowlists,
                                         rules: DqRules, keyFields: bool, previousZero: nat, now: int, loop: DqStatus,
                                         plan: DqStatus)
    requires forall e | e in events :: CleanEvent(e)
    requires SameColumns(events, |maxima|)
    requires LoopMetrics(events, allowed, loop.metrics) && PlanMetrics(events, maxima, allowed, plan.metrics)
    requires StatusOf(loop.metrics, rules, keyFields, previousZero, now, loop)
    requires StatusOf(plan.metrics, rules, keyFields, previousZero, now, plan)
    ensures loop == plan
  {
    MetricsAgree(events, maxima, allowed, loop.metrics, plan.metrics);
    OverallIsUnique(Assess(loop.metrics, rules, keyFields, previousZero, now), loop.overall, plan.overall);
  }
}
