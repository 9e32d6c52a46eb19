/** The Silver checkpoint as a protocol, and what the readiness gate of B and C is worth. A run
    commits success with the end it reports; a failing run reads the row when it fails and
    writes back its checkpoint, possibly after others have moved it. */
module SilverRuns {
  import opened Prelude
  import opened KstTime
  import opened JobWindows
  import opened PipelineState
  import opened SilverControls
  import opened GuardrailRuns
  import opened MergeStore

  /** The row, the failures that have read it and not yet written, the windows processed by
      successful runs, and where the first of them began. */
  datatype Silver = Silver(row: Option<StateRecord>, failing: map<nat, Option<StateRecord>>, done: seq<Window>,
      base: Option<int>)

  datatype Event = Commit(params: JobParams, now: int)
                 | FailRead(id: nat)
                 | FailWrite(id: nat, now: int)

  function CommitRow(params: JobParams, now: int): Option<StateRecord> {
    Some(ApplyPipelineState("pipeline_silver", "run", Success, None, Some(params.ProcessedEnd(now)), now, NoText).value)
  }

  function FailedRow(read: Option<StateRecord>, now: int): Option<StateRecord> {
    Some(ApplyPipelineState("pipeline_silver", "run", Failure, read, None, now, NoText).value)
  }

  function Next(w: Silver, e: Event): Silver {
    match e
    case Commit(params, now) =>
      if !params.Accepted() then w
      else w.(row := CommitRow(params, now), done := w.done + WindowsOf(params),
              base := if w.base.Some? then w.base else Some(WindowsOf(params)[0].start))
    case FailRead(id) => w.(failing := w.failing[id := w.row])
    case FailWrite(id, now) =>
      if id in w.failing then w.(row := FailedRow(w.failing[id], now), failing := w.failing - {id}) else w
  }

  /** The two conditions on a successful run. It starts at or before the watermark it replaces
      (or the base, while there is no watermark), and the end it reports is one its windows
      reach; the second is exactly what ReportedEndIsCoveredIff characterises. */
  predicate Contiguous(w: Silver, e: Event) {
    e.Commit? && e.params.Accepted() ==>
      && (e.params.incremental || e.params.endTs.None? || DateKst(e.params.endTs.value - 1) <= e.params.dateEnd.value)
      && (Checkpoint(w.row).Some? ==> WindowsOf(e.params)[0].start <= Checkpoint(w.row).value)
      && (Checkpoint(w.row).None? && w.base.Some? ==> WindowsOf(e.params)[0].start <= w.base.value)
  }

  function After(w: Silver, events: seq<Event>): Silver {
    if events == [] then w else Next(After(w, events[..|events|-1]), events[|events|-1])
  }

  ghost predicate AllContiguous(w: Silver, events: seq<Event>) {
    forall i | 0 <= i < |events| :: Contiguous(After(w, events[..i]), events[i])
  }

  /** Every watermark a run may still write back stands for processed data. */
  ghost predicate WatermarkSound(w: Silver, row: Option<StateRecord>) {
    Checkpoint(row).Some? ==> w.base.Some? && Covered(w.base.value, Checkpoint(row).value, w.done)
  }

  ghost predicate SilverInv(w: Silver) {
    WatermarkSound(w, w.row) && forall id | id in w.failing :: WatermarkSound(w, w.failing[id])
  }

  const EMPTY := Silver(None, map[], [], None)

  lemma {:induction false} CoveredKept(base: int, x: int, done: seq<Window>, more: seq<Window>)
    requires Covered(base, x, done)
    ensures Covered(base, x, done + more)
  {
    forall t | base <= t < x
      ensures InSome(t, done + more)
    {
      MoreWindowsCoverMore(t, done, more);
    }
  }

  lemma {:induction false} CommitKeepsSound(w: Silver, params: JobParams, now: int)
    requires SilverInv(w) && params.Accepted() && Contiguous(w, Commit(params, now))
    ensures WatermarkSound(Next(w, Commit(params, now)), CommitRow(params, now))
  {
    var w' := Next(w, Commit(params, now));
    var added := WindowsOf(params);
    ReportedEndIsCoveredIff(params, now);
    forall t | w'.base.value <= t < params.ProcessedEnd(now)
      ensures InSome(t, w'.done)
    {
      MoreWindowsCoverMore(t, w.done, added);
      if t < added[0].start {
        assert InSome(t, w.done);
      } else {
        assert InSome(t, added);
      }
    }
  }

  lemma {:induction false} NextKeepsInv(w: Silver, e: Event)
    requires SilverInv(w) && Contiguous(w, e)
    ensures SilverInv(Next(w, e))
  {
    match e
    case Commit(params, now) =>
      if params.Accepted() {
        CommitKeepsSound(w, params, now);
        forall id | id in w.failing && Checkpoint(w.failing[id]).Some?
          ensures WatermarkSound(Next(w, e), w.failing[id])
        {
          CoveredKept(w.base.value, Checkpoint(w.failing[id]).value, w.done, WindowsOf(params));
        }
      }
    case FailRead(id) =>
    case FailWrite(id, now) =>
  }

  lemma {:induction false} HistoryKeepsInv(events: seq<Event>)
    requires AllContiguous(EMPTY, events)
    ensures SilverInv(After(EMPTY, events))
  {
    if events != [] {
      var front := events[..|events|-1];
      assert forall i | 0 <= i < |front| :: front[..i] == events[..i] && front[i] == events[i];
      assert forall i | 0 <= i < |front| :: Contiguous(After(EMPTY, events[..i]), events[i]);
      HistoryKeepsInv(front);
      assert events[..|events|-1] == front;
      assert Contiguous(After(EMPTY, events[..|events|-1]), events[|events|-1]);
      NextKeepsInv(After(EMPTY, front), events[|events|-1]);
    }
  }

  /** What the gate guarantees, in every reachable history: a run that passes it for end r finds
      all of [base, r) processed by successful Silver runs, also when later runs failed, when a
      late failure put an older watermark back, or when a backfill moved it back. */
  lemma {:induction false} GateMeansCovered(events: seq<Event>, r: int)
    requires AllContiguous(EMPTY, events)
    requires CheckUpstream(After(EMPTY, events).row, r).Ok?
    ensures var w := After(EMPTY, events); w.base.Some? && Covered(w.base.value, r, w.done)
  {
    HistoryKeepsInv(events);
  }

  /** The commit of a daily run without parameters. */
  function DailyCommit(now: int): Event {
    Commit(FromMapping(InjectDailyBackfill(Payload(Blank, None, None, None, None), now)).value, now)
  }

  function DailyCommits(nows: seq<int>): seq<Event> {
    seq(|nows|, i requires 0 <= i < |nows| => DailyCommit(nows[i]))
  }

  lemma {:induction false} DailyCommitIs(now: int)
    ensures var p := DailyCommit(now).params;
            && p.Accepted() && !p.incremental && p.endTs.None?
            && WindowsOf(p)[0].start == DayStart(DateKst(now) - 1) && p.ProcessedEnd(now) == DayStart(DateKst(now))
  {
    BackfillWindowsAdjoin(DailyCommit(now).params);
  }

  lemma {:induction false} AfterDailyCommits(nows: seq<int>)
    requires nows != []
    ensures Checkpoint(After(EMPTY, DailyCommits(nows)).row) == Some(DayStart(DateKst(nows[|nows|-1])))
  {
    var n := |nows| - 1;
    DailyCommitIs(nows[n]);
    assert DailyCommits(nows)[n] == DailyCommit(nows[n]);
    assert After(EMPTY, DailyCommits(nows)) == Next(After(EMPTY, DailyCommits(nows)[..n]), DailyCommit(nows[n]));
  }

  /** The schedule the gate is made for: daily runs keep the watermark honest exactly when none comes more than
      one KST day after the one before. */
  lemma {:induction false} DailyRunsAreContiguousIff(nows: seq<int>)
    ensures AllContiguous(EMPTY, DailyCommits(nows))
            <==> forall i | 0 < i < |nows| :: DateKst(nows[i]) <= DateKst(nows[i-1]) + 1
  {
    forall i | 0 <= i < |nows|
      ensures Contiguous(After(EMPTY, DailyCommits(nows)[..i]), DailyCommits(nows)[i])
              <==> i == 0 || DateKst(nows[i]) <= DateKst(nows[i-1]) + 1
    {
      DailyCommitIs(nows[i]);
      if i > 0 {
        assert DailyCommits(nows)[..i] == DailyCommits(nows[..i]);
        AfterDailyCommits(nows[..i]);
      }
    }
  }

  /** A downstream run asks the gate for the end it will report, and works on its target dates. */
  predicate TargetsBeforeEnd(p: JobParams, now: int)
    requires p.TargetDates() != []
  {
    DayStart(p.TargetDates()[|p.TargetDates()| - 1] + 1) <= p.ProcessedEnd(now)
  }

  /** In either mode, passing the gate covers every target day exactly when the end asked for is no
      earlier than the end of the last target day. */
  lemma {:induction false} GateCoversTargetsIff(p: JobParams, now: int)
    requires p.Accepted() && p.TargetDates() != []
    ensures TargetsBeforeEnd(p, now) <==> forall t | DateKst(t) in p.TargetDates() :: t < p.ProcessedEnd(now)
  {
    var dates := p.TargetDates();
    var last := dates[|dates| - 1];
    var lastInstant := DayStart(last + 1) - 1;
    DayHoldsItsInstants(lastInstant, last);
    if forall t | DateKst(t) in dates :: t < p.ProcessedEnd(now) {
      assert DateKst(lastInstant) in dates;
    }
    forall t | DateKst(t) in dates && TargetsBeforeEnd(p, now)
      ensures t < p.ProcessedEnd(now)
    {
      DayHoldsItsInstants(t, DateKst(t));
    }
  }

  /** A run given by a window works on whole days but asks the gate for the window's end only: its
      days are covered exactly when the window ends at KST midnight. */
  lemma {:induction false} WindowRunCoversItsDaysIff(mode: RawMode, start: int, end: int, now: int)
    requires (mode.Incremental? || mode.Backfill?) && start < end
    ensures var p := FromMapping(Payload(mode, Some(start), Some(end), None, None)).value;
            p.TargetDates() != [] && (TargetsBeforeEnd(p, now) <==> end == DayStart(DateKst(end)))
  {
    DateKstMonotone(start, end - 1);
    DayHoldsItsInstants(end - 1, DateKst(end - 1));
    DayHoldsItsInstants(end, DateKst(end));
  }

  /** End to end: a run past the gate whose targets end by the end it asks for reads target days that
      Silver has processed from the base on. */
  lemma {:induction false} ReadyRunReadsProcessedDays(events: seq<Event>, p: JobParams, now: int, t: int)
    requires AllContiguous(EMPTY, events) && p.Accepted() && p.TargetDates() != [] && TargetsBeforeEnd(p, now)
    requires CheckUpstream(After(EMPTY, events).row, p.ProcessedEnd(now)).Ok?
    requires After(EMPTY, events).base.Some? && After(EMPTY, events).base.value <= t && DateKst(t) in p.TargetDates()
    ensures InSome(t, After(EMPTY, events).done)
  {
    GateMeansCovered(events, p.ProcessedEnd(now));
    GateCoversTargetsIff(p, now);
  }

  /** The instant up to which any run has processed something, at least `start`. */
  function LatestEnd(start: int, done: seq<Window>): (f: int)
    ensures start <= f && forall i | 0 <= i < |done| :: done[i].end <= f
    ensures f == start || exists i :: 0 <= i < |done| && done[i].end == f
  {
    if done == [] then start
    else
      var front := LatestEnd(start, done[..|done|-1]);
      if front < done[|done|-1].end then done[|done|-1].end else front
  }

  /** From the base to the latest processed instant there is no hole. */
  ghost predicate NoHole(w: Silver) {
    && (w.base.None? ==> w.done == [])
    && (w.base.Some? ==> Covered(w.base.value, LatestEnd(w.base.value, w.done), w.done))
  }

  lemma {:induction false} ProcessedIsBeforeLatest(start: int, done: seq<Window>, t: int)
    requires InSome(t, done)
    ensures t < LatestEnd(start, done)
  {
  }

  /** The windows of a run whose reported end they reach hold everything from its start to that end. */
  lemma {:induction false} RunCoversItsRange(p: JobParams, t: int)
    requires p.Accepted()
    ensures InSome(t, WindowsOf(p)) <==> WindowsOf(p)[0].start <= t < WindowsOf(p)[|WindowsOf(p)|-1].end
    ensures Adjacent(WindowsOf(p))
  {
    if !p.incremental {
      BackfillWindowsTileTheirDays(p, 0, 0);
    }
    AdjacentWindowsAreOneRange(WindowsOf(p), t);
  }

  /** A run that starts no later than the latest processed instant leaves no hole behind it. */
  lemma {:induction false} CommitLeavesNoHole(w: Silver, p: JobParams, now: int)
    requires NoHole(w) && p.Accepted()
    requires w.base.Some? ==> WindowsOf(p)[0].start <= LatestEnd(w.base.value, w.done)
    ensures NoHole(Next(w, Commit(p, now)))
  {
    var w', windows := Next(w, Commit(p, now)), WindowsOf(p);
    var base := w'.base.value;
    forall t | base <= t < LatestEnd(base, w'.done)
      ensures InSome(t, w'.done)
    {
      MoreWindowsCoverMore(t, w.done, windows);
      RunCoversItsRange(p, t);
      if w.base.Some? && LatestEnd(base, w.done) <= t {
        LatestIsOfEither(base, w.done, windows);
        LatestIsLast(p, base);
      } else if w.base.None? {
        assert w'.done == windows;
        LatestIsLast(p, base);
      }
    }
  }

  lemma {:induction false} LatestIsOfEither(start: int, done: seq<Window>, more: seq<Window>)
    ensures LatestEnd(start, done + more) == LatestEnd(LatestEnd(start, done), more)
  {
    if more == [] {
      assert done + more == done;
    } else {
      assert (done + more)[..|done + more|-1] == done + more[..|more|-1];
      LatestIsOfEither(start, done, more[..|more|-1]);
    }
  }

  /** Adjacent windows end last with their last one. */
  lemma {:induction false} LatestIsLast(p: JobParams, start: int)
    requires p.Accepted()
    ensures LatestEnd(start, WindowsOf(p)) > start ==>
              LatestEnd(start, WindowsOf(p)) == WindowsOf(p)[|WindowsOf(p)|-1].end
  {
    var windows := WindowsOf(p);
    RunCoversItsRange(p, 0);
    forall i | 0 <= i < |windows|
      ensures windows[i].end <= windows[|windows|-1].end
    {
      AdjacentEndsGrow(windows, i, |windows| - 1);
    }
  }

  lemma {:induction false} AdjacentEndsGrow(windows: seq<Window>, i: nat, j: nat)
    requires Adjacent(windows) && i <= j < |windows|
    ensures windows[i].end <= windows[j].end
    decreases j
  {
    if i < j {
      AdjacentEndsGrow(windows, i, j - 1);
    }
  }

  lemma {:induction false} StepLeavesNoHole(w: Silver, e: Event)
    requires SilverInv(w) && NoHole(w) && Contiguous(w, e)
    ensures NoHole(Next(w, e))
  {
    if e.Commit? && e.params.Accepted() {
      if w.base.Some? && Checkpoint(w.row).Some? && w.base.value < Checkpoint(w.row).value {
        ProcessedIsBeforeLatest(w.base.value, w.done, Checkpoint(w.row).value - 1);
      }
      CommitLeavesNoHole(w, e.params, e.now);
    }
  }

  lemma {:induction false} HistoryLeavesNoHole(events: seq<Event>)
    requires AllContiguous(EMPTY, events)
    ensures NoHole(After(EMPTY, events))
  {
    if events != [] {
      var front := events[..|events|-1];
      assert forall i | 0 <= i < |front| :: front[..i] == events[..i] && front[i] == events[i];
      HistoryLeavesNoHole(front);
      HistoryKeepsInv(front);
      assert Contiguous(After(EMPTY, events[..|events|-1]), events[|events|-1]);
      StepLeavesNoHole(After(EMPTY, front), events[|events|-1]);
    }
  }

  predicate ReportsWithinWindows(p: JobParams) {
    p.incremental || p.endTs.None? || (p.dateEnd.Some? && DateKst(p.endTs.value - 1) <= p.dateEnd.value)
  }

  /** How far the data is processed when a run commits; before the first commit, to where it starts. */
  function ProcessedTo(w: Silver, p: JobParams): int
    requires p.Accepted()
  {
    LatestEnd(if w.base.Some? then w.base.value else WindowsOf(p)[0].start, w.done)
  }

  lemma {:induction false} CommitIsSoundHere(w: Silver, p: JobParams, now: int)
    requires NoHole(w) && p.Accepted()
    ensures WatermarkSound(Next(w, Commit(p, now)), CommitRow(p, now))
            <==> p.ProcessedEnd(now) <= ProcessedTo(w, p)
                 || (WindowsOf(p)[0].start <= ProcessedTo(w, p) && ReportsWithinWindows(p))
  {
    var w', windows, end, f := Next(w, Commit(p, now)), WindowsOf(p), p.ProcessedEnd(now), ProcessedTo(w, p);
    var base := w'.base.value;
    if end <= f {
      forall t | base <= t < end
        ensures InSome(t, w'.done)
      {
        MoreWindowsCoverMore(t, w.done, windows);
      }
    } else if windows[0].start > f {
      RunCoversItsRange(p, f);
      NotProcessed(w, p, f, f);
    } else if ReportsWithinWindows(p) {
      ReportedEndIsCoveredIff(p, now);
      forall t | base <= t < end
        ensures InSome(t, w'.done)
      {
        MoreWindowsCoverMore(t, w.done, windows);
        assert t < f && w.base.Some? ==> InSome(t, w.done);
      }
    } else {
      BackfillWindowsTileTheirDays(p, end - 1, 0);
      NotProcessed(w, p, f, end - 1);
    }
  }

  lemma {:induction false} NotProcessed(w: Silver, p: JobParams, f: int, t: int)
    requires p.Accepted() && f == ProcessedTo(w, p) && f <= t && !InSome(t, WindowsOf(p))
    ensures !InSome(t, w.done + WindowsOf(p))
  {
    SomeOfConcat(t, w.done, WindowsOf(p));
  }

  /** When a commit keeps the gate honest, exactly, after any contiguous history, also one in which a
      backfill or a late failure moved the watermark back: the watermark a run commits stands for
      processed data if and only if it reports no more than is processed already, or it starts no later
      than that and reports an end its windows reach. */
  lemma {:induction false} CommitIsSoundIff(events: seq<Event>, p: JobParams, now: int)
    requires AllContiguous(EMPTY, events) && p.Accepted()
    ensures var w := After(EMPTY, events);
            WatermarkSound(Next(w, Commit(p, now)), CommitRow(p, now))
            <==> p.ProcessedEnd(now) <= ProcessedTo(w, p)
                 || (WindowsOf(p)[0].start <= ProcessedTo(w, p) && ReportsWithinWindows(p))
  {
    HistoryLeavesNoHole(events);
    CommitIsSoundHere(After(EMPTY, events), p, now);
  }

  lemma {:induction false} SomeOfConcat(t: int, done: seq<Window>, more: seq<Window>)
    ensures InSome(t, done + more) ==> InSome(t, done) || InSome(t, more)
  {
    if i :| 0 <= i < |done + more| && (done + more)[i].Contains(t) {
      assert if i < |done| then done[i].Contains(t) else more[i - |done|].Contains(t);
    }
  }

  /** Both conditions are needed. A run that starts past the watermark leaves a hole the gate
      does not see; so does a run that reports an end beyond its windows. */
  lemma {:induction false} GateMissesHoles(day: int)
    ensures var first := FromMapping(Payload(Backfill, None, None, Some(day), Some(day))).value;
            var skipping := FromMapping(Payload(Backfill, None, None, Some(day + 2), Some(day + 2))).value;
            var w := Next(Next(EMPTY, Commit(first, 0)), Commit(skipping, 0));
            CheckUpstream(w.row, DayStart(day + 3)).Ok? && !InSome(DayStart(day + 1), w.done)
    ensures var ahead := FromMapping(Payload(Backfill, None, Some(DayStart(day + 3)), Some(day), Some(day))).value;
            var w := Next(EMPTY, Commit(ahead, 0));
            CheckUpstream(w.row, DayStart(day + 3)).Ok? && !InSome(DayStart(day + 1), w.done)
  {
    var first := FromMapping(Payload(Backfill, None, None, Some(day), Some(day))).value;
    var skipping := FromMapping(Payload(Backfill, None, None, Some(day + 2), Some(day + 2))).value;
    assert WindowsOf(first) == [Window(DayStart(day), DayStart(day + 1))];
    assert WindowsOf(skipping) == [Window(DayStart(day + 2), DayStart(day + 3))];
    var done := Next(Next(EMPTY, Commit(first, 0)), Commit(skipping, 0)).done;
    assert done == [Window(DayStart(day), DayStart(day + 1)), Window(DayStart(day + 2), DayStart(day + 3))];
    var ahead := FromMapping(Payload(Backfill, None, Some(DayStart(day + 3)), Some(day), Some(day))).value;
    assert WindowsOf(ahead) == [Window(DayStart(day), DayStart(day + 1))];
    assert Next(EMPTY, Commit(ahead, 0)).done == [Window(DayStart(day), DayStart(day + 1))];
  }

  // ----- The script ------------------------------------------------------------------------

  datatype SnapshotKey = SnapshotKey(snapshotTs: int, userId: string)
  datatype EntryKey = EntryKey(txId: string, walletId: string)

  function SnapshotKeyOf(): KeyOf<SilverSnapshot, SnapshotKey> {
    (r: SilverSnapshot) => Some(SnapshotKey(r.snapshotTs, r.userId))
  }

  function EntryKeyOf(): KeyOf<SilverEntry, EntryKey> { (r: SilverEntry) => Some(EntryKey(r.txId, r.walletId)) }

  /** Where an exception other than the run's own checks strikes, if anywhere: reading or transforming,
      between the writes, or after the ledger merge, where the remaining tables are written. */
  datatype FailPoint = Nowhere | BeforeQuarantine | BeforeSnapshots | BeforeEntries | AfterEntries

  /** How far a run that passed its checks gets: 1 quarantine appended, 2 snapshots merged, 3 entries
      merged, 4 checkpoint committed. */
  ghost function MergesReached(snapshots: Option<seq<SilverSnapshot>>, entries: Option<seq<SilverEntry>>,
                               validW: seq<SilverSnapshot>, validL: seq<SilverEntry>, failAt: FailPoint): (n: nat)
    ensures n >= 2 ==> UpsertTo(snapshots, validW, SnapshotKeyOf(), false).Ok?
    ensures n >= 3 ==> UpsertTo(entries, validL, EntryKeyOf(), false).Ok?
  {
    if failAt.BeforeSnapshots? || UpsertTo(snapshots, validW, SnapshotKeyOf(), false).Err? then 1
    else if failAt.BeforeEntries? || UpsertTo(entries, validL, EntryKeyOf(), false).Err? then 2
    else if failAt.AfterEntries? then 3
    else 4
  }

  /** How far a run gets, 0 standing for a failure before the quarantine. */
  ghost function Reached(snapshots: Option<seq<SilverSnapshot>>, entries: Option<seq<SilverEntry>>,
                         validW: seq<SilverSnapshot>, badW: nat, validL: seq<SilverEntry>, badL: nat,
                         threshold: Option<real>, failAt: FailPoint): (n: nat)
    ensures n >= 2 ==> UpsertTo(snapshots, validW, SnapshotKeyOf(), false).Ok?
    ensures n >= 3 ==> UpsertTo(entries, validL, EntryKeyOf(), false).Ok?
  {
    if failAt.BeforeQuarantine? then 0
    else if !Tolerated(|validW|, badW, threshold) || !Tolerated(|validL|, badL, threshold) then 1
    else MergesReached(snapshots, entries, validW, validL, failAt)
  }

  /** What a record yields for its table, if it is accepted. */
  function Accepted<R, E, W>(verdict: R -> Result<E, W>): R -> Option<E> {
    (r: R) => if verdict(r).Ok? then Some(verdict(r).value) else None
  }

  lemma {:induction false} ValidIsCollected<R, E, W>(records: seq<R>, verdict: R -> Result<E, W>, valid: seq<E>,
                                                     bad: seq<BadRecord<R, W>>)
    requires Split(records, verdict, valid, bad)
    ensures valid == Collect(records, Accepted(verdict))
  {
    if records != [] {
      var n := |records| - 1;
      if verdict(records[n]).Ok? {
        ValidIsCollected(records[..n], verdict, valid[..|valid|-1], bad);
      } else {
        ValidIsCollected(records[..n], verdict, valid, bad[..|bad|-1]);
      }
    }
  }

  /** No two accepted wallet records share user and snapshot time. */
  predicate OneSnapshotPerTime(wallets: seq<RawWallet>) {
    forall i, j | 0 <= i < j < |wallets| && WalletVerdict(wallets[i]).Ok? && WalletVerdict(wallets[j]).Ok? ::
        WalletVerdict(wallets[i]).value.snapshotTs != WalletVerdict(wallets[j]).value.snapshotTs
        || WalletVerdict(wallets[i]).value.userId != WalletVerdict(wallets[j]).value.userId
  }

  /** No two accepted ledger records share transaction and wallet. */
  predicate OneEntryPerWallet(ledger: seq<RawLedger>, allowed: Allowlists, lookup: map<string, string>) {
    forall i, j | 0 <= i < j < |ledger|
                  && Verdict(ledger[i], allowed, lookup).Ok? && Verdict(ledger[j], allowed, lookup).Ok? ::
        Verdict(ledger[i], allowed, lookup).value.txId != Verdict(ledger[j], allowed, lookup).value.txId
        || Verdict(ledger[i], allowed, lookup).value.walletId != Verdict(ledger[j], allowed, lookup).value.walletId
  }

  lemma {:induction false} SnapshotsKeyedIff(wallets: seq<RawWallet>, valid: seq<SilverSnapshot>,
                                             bad: seq<BadRecord<RawWallet, WalletReason>>)
    requires Split(wallets, WalletVerdicts(), valid, bad)
    ensures Keyed(valid, SnapshotKeyOf()) <==> OneSnapshotPerTime(wallets)
  {
    ValidIsCollected(wallets, WalletVerdicts(), valid, bad);
    CollectedUniqueIff(wallets, Accepted(WalletVerdicts()), SnapshotKeyOf());
  }

  lemma {:induction false} EntriesKeyedIff(ledger: seq<RawLedger>, allowed: Allowlists, lookup: map<string, string>,
                                           valid: seq<SilverEntry>, bad: seq<BadRecord<RawLedger, Reason>>)
    requires Split(ledger, Verdicts(allowed, lookup), valid, bad)
    ensures Keyed(valid, EntryKeyOf()) <==> OneEntryPerWallet(ledger, allowed, lookup)
  {
    ValidIsCollected(ledger, Verdicts(allowed, lookup), valid, bad);
    CollectedUniqueIff(ledger, Accepted(Verdicts(allowed, lookup)), EntryKeyOf());
  }

  /** The retry law of Silver: after a run made both merges, whether or not it then failed, the same
      records go through again exactly when no two accepted wallet records share user and snapshot time
      and no two accepted ledger records share transaction and wallet. */
  lemma {:induction false} SilverRunRepeatsIff(snapshots: Option<seq<SilverSnapshot>>,
                                               entries: Option<seq<SilverEntry>>, wallets: seq<RawWallet>,
                                               ledger: seq<RawLedger>, allowed: Allowlists, lookup: map<string, string>,
                                               validW: seq<SilverSnapshot>,
                                               badW: seq<BadRecord<RawWallet, WalletReason>>, validL: seq<SilverEntry>,
                                               badL: seq<BadRecord<RawLedger, Reason>>, failAt: FailPoint)
    requires Split(wallets, WalletVerdicts(), validW, badW) && Split(ledger, Verdicts(allowed, lookup), validL, badL)
    requires MergesReached(snapshots, entries, validW, validL, failAt) >= 3
    ensures var snapshots' := UpsertTo(snapshots, validW, SnapshotKeyOf(), false).value;
            var entries' := UpsertTo(entries, validL, EntryKeyOf(), false).value;
            MergesReached(snapshots', entries', validW, validL, Nowhere) == 4
            <==> OneSnapshotPerTime(wallets) && OneEntryPerWallet(ledger, allowed, lookup)
  {
    SnapshotsKeyedIff(wallets, validW, badW);
    EntriesKeyedIff(ledger, allowed, lookup, validL, badL);
    UpsertAgainIff(snapshots, validW, SnapshotKeyOf());
    UpsertAgainIff(entries, validL, EntryKeyOf());
  }

  /** The Silver tables and the run over them: quarantine first, then the bad-record rates, then
      the merges, then the checkpoint. */
  class SilverCatalog {
    var badLedger: seq<BadRecord<RawLedger, Reason>>
    var badWallets: seq<BadRecord<RawWallet, WalletReason>>
    var state: Option<StateRecord>
    const snapshots: DeltaTable<SilverSnapshot, SnapshotKey>
    const entries: DeltaTable<SilverEntry, EntryKey>

    ghost predicate Valid()
      reads this, snapshots, entries
    {
      && snapshots.key == SnapshotKeyOf() && entries.key == EntryKeyOf()
      && (!snapshots.present ==> snapshots.rows == []) && (!entries.present ==> entries.rows == [])
    }

    constructor ()
      ensures Valid() && fresh(snapshots) && fresh(entries)
      ensures state == None && badLedger == [] && badWallets == [] && snapshots.rows == [] && entries.rows == []
    {
      badLedger, badWallets, state := [], [], None;
      snapshots := new DeltaTable(SnapshotKeyOf());
      entries := new DeltaTable(EntryKeyOf());
    }

    /** Appends the quarantined records and checks the two rates. */
    method Quarantine(walletBad: seq<BadRecord<RawWallet, WalletReason>>, ledgerBad: seq<BadRecord<RawLedger, Reason>>,
                      walletValid: nat, ledgerValid: nat, threshold: Option<real>) returns (ok: bool)
      modifies `badLedger, `badWallets
      ensures badWallets == old(badWallets) + walletBad && badLedger == old(badLedger) + ledgerBad
      ensures ok <==> Tolerated(walletValid, |walletBad|, threshold) && Tolerated(ledgerValid, |ledgerBad|, threshold)
    {
      GoesOnIffTolerated(walletValid, |walletBad|, threshold);
      GoesOnIffTolerated(ledgerValid, |ledgerBad|, threshold);
      badWallets := badWallets + walletBad;
      badLedger := badLedger + ledgerBad;
      var walletRate := EnforceBadRecordsRate(walletValid, |walletBad|, threshold);
      if walletRate.Err? {
        return false;
      }
      var ledgerRate := EnforceBadRecordsRate(ledgerValid, |ledgerBad|, threshold);
      return ledgerRate.Ok?;
    }

    /** The two tables, exactly as far as the run got. */
    twostate predicate Merged(validW: seq<SilverSnapshot>, validL: seq<SilverEntry>, reached: nat)
      reads this, snapshots, entries
    {
      && (if reached >= 2
          then Ok(snapshots.Stored()) == UpsertTo(old(snapshots.Stored()), validW, SnapshotKeyOf(), false)
          else snapshots.Stored() == old(snapshots.Stored()))
      && (if reached >= 3
          then Ok(entries.Stored()) == UpsertTo(old(entries.Stored()), validL, EntryKeyOf(), false)
          else entries.Stored() == old(entries.Stored()))
    }

    twostate predicate Advanced(validW: seq<SilverSnapshot>, new badW: seq<BadRecord<RawWallet, WalletReason>>,
                                validL: seq<SilverEntry>, new badL: seq<BadRecord<RawLedger, Reason>>, reached: nat)
      reads this, snapshots, entries
    {
      && badWallets == old(badWallets) + (if reached >= 1 then badW else [])
      && badLedger == old(badLedger) + (if reached >= 1 then badL else [])
      && Merged(validW, validL, reached)
    }

    /** The merges, in the script's order. */
    method MergeTables(validW: seq<SilverSnapshot>, validL: seq<SilverEntry>, failAt: FailPoint)
      returns (ok: bool, ghost reached: nat)
      requires Valid()
      modifies snapshots, entries
      ensures Valid()
      ensures reached == MergesReached(old(snapshots.Stored()), old(entries.Stored()), validW, validL, failAt)
      ensures ok <==> reached == 4
      ensures Merged(validW, validL, reached)
    {
      ok, reached := false, 1;
      if failAt.BeforeSnapshots? {
        return;
      }
      var written := snapshots.Upsert(validW, false);
      if written.Err? {
        return;
      }
      reached := 2;
      if failAt.BeforeEntries? {
        return;
      }
      var written' := entries.Upsert(validL, false);
      if written'.Err? {
        return;
      }
      ok := !failAt.AfterEntries?;
      reached := if ok then 4 else 3;
    }

    /** Success reports the run's end; failure reads the current row and keeps its watermark. */
    method WriteCheckpoint(ok: bool, params: JobParams, now: int)
      modifies `state
      ensures state == if ok then CommitRow(params, now) else FailedRow(old(state), now)
    {
      if ok {
        var end := params.ProcessedEnd(now);
        state := Some(ApplyPipelineState("pipeline_silver", "run", Success, None, Some(end), now, NoText).value);
      } else {
        var current := state;
        state := Some(ApplyPipelineState("pipeline_silver", "run", Failure, current, None, now, NoText).value);
      }
    }

    /** Quarantine, rates, merges, checkpoint. */
    method Store(validW: seq<SilverSnapshot>, badW: seq<BadRecord<RawWallet, WalletReason>>, validL: seq<SilverEntry>,
                 badL: seq<BadRecord<RawLedger, Reason>>, threshold: Option<real>, params: JobParams, now: int,
                 failAt: FailPoint)
      returns (ok: bool, ghost reached: nat)
      requires Valid()
      modifies this, snapshots, entries
      ensures Valid()
      ensures reached == Reached(old(snapshots.Stored()), old(entries.Stored()), validW, |badW|, validL, |badL|,
              threshold, failAt)
      ensures Advanced(validW, badW, validL, badL, reached)
      ensures ok <==> reached == 4
      ensures state == if ok then CommitRow(params, now) else FailedRow(old(state), now)
    {
      ok, reached := !failAt.BeforeQuarantine?, 0;
      if ok {
        ok := Quarantine(badW, badL, |validW|, |validL|, threshold);
        reached := 1;
      }
      if ok {
        ok, reached := MergeTables(validW, validL, failAt);
      }
      WriteCheckpoint(ok, params, now);
    }

    /** Each part of the catalog is exactly as far as the run got; any failure keeps the watermark, a
        success moves it to the reported end. */
    method Materialize(wallets: seq<RawWallet>, ledger: seq<RawLedger>, allowed: Allowlists,
                       lookup: map<string, string>, threshold: Option<real>, params: JobParams, now: int,
                       failAt: FailPoint)
      returns (ok: bool, ghost validW: seq<SilverSnapshot>, ghost badW: seq<BadRecord<RawWallet, WalletReason>>,
               ghost validL: seq<SilverEntry>, ghost badL: seq<BadRecord<RawLedger, Reason>>, ghost reached: nat)
      requires Valid()
      modifies this, snapshots, entries
      ensures Valid()
      ensures Split(wallets, WalletVerdicts(), validW, badW) && Split(ledger, Verdicts(allowed, lookup), validL, badL)
      ensures reached == Reached(old(snapshots.Stored()), old(entries.Stored()), validW, |badW|, validL, |badL|,
              threshold, failAt)
      ensures Advanced(validW, badW, validL, badL, reached)
      ensures ok <==> reached == 4
      ensures state == if ok then CommitRow(params, now) else FailedRow(old(state), now)
      ensures !ok ==> Checkpoint(state) == Checkpoint(old(state))
    {
      var walletValid, walletBad := TransformWalletSnapshots(wallets);
      var ledgerValid, ledgerBad := TransformLedgerEntries(ledger, allowed, lookup);
      validW, badW, validL, badL := walletValid, walletBad, ledgerValid, ledgerBad;
      ok, reached := Store(walletValid, walletBad, ledgerValid, ledgerBad, threshold, params, now, failAt);
    }
  }
}
