/** Run parameters, the windows and dates they stand for, the defaults put in for blank
    parameters, and the filter built from a list of windows. */
module JobWindows {
  import opened Prelude
  import opened KstTime

  // ----- Parameters ------------------------------------------------------------

  /** The run mode as given: blank, one of the two valid modes, or anything else. */
  datatype RawMode = Blank | Incremental | Backfill | Unknown

  datatype Payload = Payload(
    runMode: RawMode,
    startTs: Option<int>,
    endTs: Option<int>,
    dateStart: Option<int>,
    dateEnd: Option<int>)
  {
    predicate WindowBlank() {
      startTs.None? && endTs.None? && dateStart.None? && dateEnd.None?
    }
  }

  datatype ParamError = InvalidRunMode | WindowReversed | BackfillNeedsDates | DatesReversed
                      | IncrementalNeedsWindow | WindowMinutesNotPositive

  datatype JobParams = JobParams(
    incremental: bool,
    startTs: Option<int>,
    endTs: Option<int>,
    dateStart: Option<int>,
    dateEnd: Option<int>)
  {
    /** What FromMapping guarantees of the parameters it accepts. */
    predicate Accepted() {
      && (startTs.Some? && endTs.Some? ==> startTs.value < endTs.value)
      && (incremental ==> startTs.Some? && endTs.Some?)
      && (!incremental ==> dateStart.Some? && dateEnd.Some? && dateStart.value <= dateEnd.value)
    }

    function TargetDates(): seq<int> {
      if dateStart.Some? && dateEnd.Some? then
        Days(dateStart.value, dateEnd.value)
      else if startTs.Some? && endTs.Some? then
        Days(DateKst(startTs.value), DateKst(endTs.value - 1))
      else []
    }

    function ProcessedEnd(now: int): int {
      if endTs.Some? then endTs.value
      else if dateEnd.Some? then DayStart(dateEnd.value + 1)
      else now
    }
  }

  /** The days from first to last, both included; empty when last is before first. */
  function Days(first: int, last: int): seq<int> {
    if last < first then [] else seq(last - first + 1, i => first + i)
  }

  function FromMapping(p: Payload): (r: Result<JobParams, ParamError>)
    ensures r.Ok? ==> r.value.Accepted()
    ensures r.Err? && p.runMode.Incremental? ==> p.startTs.None? || p.endTs.None? || p.startTs.value >= p.endTs.value
  {
    if p.runMode.Blank? || p.runMode.Unknown? then Err(InvalidRunMode)
    else if p.startTs.Some? && p.endTs.Some? && p.startTs.value >= p.endTs.value then Err(WindowReversed)
    else if p.runMode.Backfill? then
      var first := if p.dateStart.None? && p.startTs.Some? then Some(DateKst(p.startTs.value)) else p.dateStart;
      var last := if p.dateEnd.None? && p.endTs.Some? then Some(DateKst(p.endTs.value - 1)) else p.dateEnd;
      if first.None? || last.None? then Err(BackfillNeedsDates)
      else if first.value > last.value then Err(DatesReversed)
      else Ok(JobParams(false, p.startTs, p.endTs, first, last))
    else if p.startTs.None? || p.endTs.None? then Err(IncrementalNeedsWindow)
    else Ok(JobParams(true, p.startTs, p.endTs, p.dateStart, p.dateEnd))
  }

  /** Defaults first, then the parameters. */
  function FromDefaulted(p: Result<Payload, ParamError>): Result<JobParams, ParamError> {
    if p.Err? then Err(p.error) else FromMapping(p.value)
  }

  /** The processing windows of a run. */
  function WindowsOf(p: JobParams): seq<Window>
    requires p.Accepted()
  {
    if p.incremental then
      [Window(p.startTs.value, p.endTs.value)]
    else
      var dates := p.TargetDates();
      seq(|dates|, i requires 0 <= i < |dates| => Window(DayStart(dates[i]), DayStart(dates[i] + 1)))
  }

  method WindowsUtc(p: JobParams) returns (r: Result<seq<Window>, ParamError>)
    ensures r.Err? <==> p.incremental && (p.startTs.None? || p.endTs.None?)
    ensures p.Accepted() ==> r == Ok(WindowsOf(p))
  {
    if p.incremental {
      if p.startTs.None? || p.endTs.None? {
        return Err(IncrementalNeedsWindow);
      }
      return Ok([Window(p.startTs.value, p.endTs.value)]);
    }
    var windows: seq<Window> := [];
    var dates := p.TargetDates();
    for i := 0 to |dates|
      invariant |windows| == i
      invariant forall j | 0 <= j < i :: windows[j] == Window(DayStart(dates[j]), DayStart(dates[j] + 1))
    {
      var startKst := DayStart(dates[i]);
      windows := windows + [Window(startKst, startKst + DAY)];
    }
    assert p.Accepted() ==> windows == WindowsOf(p);
    r := Ok(windows);
  }

  // ----- What the windows cover ------------------------------------------------

  ghost predicate InSome(t: int, windows: seq<Window>) {
    exists i :: 0 <= i < |windows| && windows[i].Contains(t)
  }

  /** Window i ends where window i+1 begins. */
  predicate Adjacent(windows: seq<Window>) {
    && (forall i | 0 <= i < |windows| :: windows[i].start < windows[i].end)
    && (forall i | 0 < i < |windows| :: windows[i-1].end == windows[i].start)
  }

  /** Adjacent windows hold exactly the instants between the first start and the last end. */
  lemma {:induction false} AdjacentWindowsAreOneRange(windows: seq<Window>, t: int)
    requires Adjacent(windows) && windows != []
    ensures windows[0].start < windows[|windows|-1].end
    ensures InSome(t, windows) <==> windows[0].start <= t < windows[|windows|-1].end
  {
    if |windows| == 1 {
      assert windows[0].Contains(t) <==> InSome(t, windows);
    } else {
      var front, last := windows[..|windows|-1], windows[|windows|-1];
      AdjacentWindowsAreOneRange(front, t);
      if InSome(t, front) {
        var i :| 0 <= i < |front| && front[i].Contains(t);
        assert windows[i].Contains(t);
      }
      if last.Contains(t) {
        assert windows[|windows|-1].Contains(t);
      }
      if i :| 0 <= i < |windows| && windows[i].Contains(t) {
        if i < |front| { assert front[i].Contains(t); }
      }
    }
  }

  lemma {:induction false} BackfillWindowsAdjoin(p: JobParams)
    requires p.Accepted() && !p.incremental
    ensures |WindowsOf(p)| == p.dateEnd.value - p.dateStart.value + 1
    ensures Adjacent(WindowsOf(p))
    ensures forall i | 0 <= i < |WindowsOf(p)| ::
            WindowsOf(p)[i] == Window(DayStart(p.dateStart.value + i), DayStart(p.dateStart.value + i + 1))
  {
  }

  /** The windows of an accepted run are adjacent and never empty. In backfill mode window i
      holds exactly the instants of the i-th target day, so each instant lies in at most one. */
  lemma {:induction false} BackfillWindowsTileTheirDays(p: JobParams, t: int, i: nat)
    requires p.Accepted() && !p.incremental && i < |WindowsOf(p)|
    ensures Adjacent(WindowsOf(p))
    ensures |WindowsOf(p)| == p.dateEnd.value - p.dateStart.value + 1
    ensures WindowsOf(p)[i].Contains(t) <==> DateKst(t) == p.dateStart.value + i
    ensures InSome(t, WindowsOf(p)) <==> p.dateStart.value <= DateKst(t) <= p.dateEnd.value
    ensures p.endTs.None? ==> forall now :: WindowsOf(p)[|WindowsOf(p)|-1].end == p.ProcessedEnd(now)
  {
    BackfillWindowsAdjoin(p);
    DayHoldsItsInstants(t, p.dateStart.value + i);
    DayHoldsItsInstants(t, DateKst(t));
    AdjacentWindowsAreOneRange(WindowsOf(p), t);
  }

  /** Given only a window, the target dates are exactly the KST days it touches. */
  lemma {:induction false} TargetDatesAreTheDaysTouched(mode: RawMode, start: int, end: int, d: int)
    requires (mode.Incremental? || mode.Backfill?) && start < end
    ensures FromMapping(Payload(mode, Some(start), Some(end), None, None)).Ok?
    ensures d in FromMapping(Payload(mode, Some(start), Some(end), None, None)).value.TargetDates()
            <==> exists t :: start <= t < end && DateKst(t) == d
  {
    DateKstMonotone(start, end - 1);
    var p := FromMapping(Payload(mode, Some(start), Some(end), None, None)).value;
    var dates := p.TargetDates();
    assert dates == Days(DateKst(start), DateKst(end - 1));
    if DateKst(start) <= d <= DateKst(end - 1) {
      assert dates[d - DateKst(start)] == d;
      var t := if DayStart(d) < start then start else DayStart(d);
      DayHoldsItsInstants(start, DateKst(start));
      DayHoldsItsInstants(end - 1, DateKst(end - 1));
      DayHoldsItsInstants(t, d);
      assert start <= t < end && DateKst(t) == d;
    }
    if t :| start <= t < end && DateKst(t) == d {
      DateKstMonotone(start, t);
      DateKstMonotone(t, end - 1);
    }
  }

  /** The first target day a payload names: the given date, or else the day its window starts in. */
  predicate NamesFirst(p: Payload, first: int) {
    p.dateStart == Some(first)
    || (p.dateStart.None? && p.startTs.Some? && DayStart(first) <= p.startTs.value < DayStart(first + 1))
  }

  /** The last one: the given date, or else the day of the last instant of its window. */
  predicate NamesLast(p: Payload, last: int) {
    p.dateEnd == Some(last)
    || (p.dateEnd.None? && p.endTs.Some? && DayStart(last) < p.endTs.value <= DayStart(last + 1))
  }

  predicate WindowInOrder(p: Payload) {
    p.startTs.Some? && p.endTs.Some? ==> p.startTs.value < p.endTs.value
  }

  /** A backfill works on exactly the days from the first it names to the last, in order, whatever mixture of
      dates and timestamps names them, and its windows hold exactly the instants of those days. */
  lemma {:induction false} BackfillTakesTheDaysNamed(p: Payload, first: int, last: int, now: int)
    requires p.runMode.Backfill? && WindowInOrder(p) && NamesFirst(p, first) && NamesLast(p, last) && first <= last
    ensures FromMapping(p).Ok?
    ensures var r := FromMapping(p).value;
            && |r.TargetDates()| == last - first + 1 && r.TargetDates()[0] == first
            && (forall i | 0 < i < |r.TargetDates()| :: r.TargetDates()[i] == r.TargetDates()[i-1] + 1)
            && (forall d :: d in r.TargetDates() <==> first <= d <= last)
            && (forall t :: InSome(t, WindowsOf(r)) <==> DayStart(first) <= t < DayStart(last + 1))
            && r.ProcessedEnd(now) == if p.endTs.Some? then p.endTs.value else DayStart(last + 1)
  {
    if p.startTs.Some? { DayHoldsItsInstants(p.startTs.value, first); }
    if p.endTs.Some? { DayHoldsItsInstants(p.endTs.value - 1, last); }
    var r := FromMapping(p).value;
    assert r.dateStart == Some(first) && r.dateEnd == Some(last) && !r.incremental;
    DaysAre(first, last);
    BackfillWindowsAdjoin(r);
    forall t
      ensures InSome(t, WindowsOf(r)) <==> DayStart(first) <= t < DayStart(last + 1)
    {
      AdjacentWindowsAreOneRange(WindowsOf(r), t);
    }
  }

  /** When a backfill is accepted: its window, if it has both ends, is in order, and its parameters name a
      first and a last day in order. */
  lemma {:induction false} BackfillAcceptedIff(p: Payload)
    requires p.runMode.Backfill?
    ensures FromMapping(p).Ok?
            <==> WindowInOrder(p) && exists first, last :: NamesFirst(p, first) && NamesLast(p, last) && first <= last
  {
    if FromMapping(p).Ok? {
      var r := FromMapping(p).value;
      if p.startTs.Some? { DayHoldsItsInstants(p.startTs.value, r.dateStart.value); }
      if p.endTs.Some? { DayHoldsItsInstants(p.endTs.value - 1, r.dateEnd.value); }
      assert NamesFirst(p, r.dateStart.value) && NamesLast(p, r.dateEnd.value);
    }
    if first, last :| NamesFirst(p, first) && NamesLast(p, last) && first <= last && WindowInOrder(p) {
      BackfillTakesTheDaysNamed(p, first, last, 0);
    }
  }

  /** An incremental run is accepted exactly with both ends of a window in order, and then works on that
      window and reports its end, dates given or not; it targets the dates given, if both are, and else the
      days its window touches. No other mode is accepted. */
  lemma {:induction false} IncrementalWindowIsGiven(p: Payload, now: int, d: int)
    requires !p.runMode.Backfill?
    ensures FromMapping(p).Ok?
            <==> p.runMode.Incremental? && p.startTs.Some? && p.endTs.Some? && p.startTs.value < p.endTs.value
    ensures FromMapping(p).Ok? ==>
              var r, start, end := FromMapping(p).value, p.startTs.value, p.endTs.value;
              && WindowsOf(r) == [Window(start, end)] && r.ProcessedEnd(now) == end
              && (d in r.TargetDates()
                  <==> if p.dateStart.Some? && p.dateEnd.Some? then p.dateStart.value <= d <= p.dateEnd.value
                       else start < DayStart(d + 1) && DayStart(d) < end)
  {
    if FromMapping(p).Ok? {
      var r, start, end := FromMapping(p).value, p.startTs.value, p.endTs.value;
      if p.dateStart.Some? && p.dateEnd.Some? {
        DaysAre(p.dateStart.value, p.dateEnd.value);
      } else {
        assert r.TargetDates() == Days(DateKst(start), DateKst(end - 1));
        DaysAre(DateKst(start), DateKst(end - 1));
        DaysTouched(start, end, d);
      }
    }
  }

  lemma {:induction false} DaysTouched(start: int, end: int, d: int)
    requires start < end
    ensures DateKst(start) <= d <= DateKst(end - 1) <==> start < DayStart(d + 1) && DayStart(d) < end
  {
    DayHoldsItsInstants(start, DateKst(start));
    DayHoldsItsInstants(end - 1, DateKst(end - 1));
  }

  lemma {:induction false} DaysAre(first: int, last: int)
    ensures forall d :: d in Days(first, last) <==> first <= d <= last
  {
    forall d | first <= d <= last
      ensures d in Days(first, last)
    {
      assert Days(first, last)[d - first] == d;
    }
  }

  ghost predicate CoveredUpTo(p: JobParams, now: int)
    requires p.Accepted()
  {
    forall t :: WindowsOf(p)[0].start <= t < p.ProcessedEnd(now) ==> InSome(t, WindowsOf(p))
  }

  /** A run reports `processed_end`, and downstream runs trust everything before it. In
      backfill mode an explicit end_ts overrides the dates, so the report can run ahead of
      the windows: it stays within them exactly when end_ts is absent or falls on the last
      target day or earlier. */
  lemma {:induction false} ReportedEndIsCoveredIff(p: JobParams, now: int)
    requires p.Accepted()
    ensures CoveredUpTo(p, now)
            <==> p.incremental || p.endTs.None? || DateKst(p.endTs.value - 1) <= p.dateEnd.value
  {
    var windows := WindowsOf(p);
    if p.incremental {
      forall t | windows[0].start <= t < p.ProcessedEnd(now)
        ensures InSome(t, windows)
      {
        assert windows[0].Contains(t);
      }
    } else {
      BackfillWindowsTileTheirDays(p, DayStart(p.dateStart.value), 0);
      var last := windows[|windows|-1].end;
      if p.endTs.Some? {
        DayHoldsItsInstants(p.endTs.value - 1, DateKst(p.endTs.value - 1));
        AdjacentWindowsAreOneRange(windows, p.endTs.value - 1);
        if DateKst(p.endTs.value - 1) > p.dateEnd.value {
          BackfillWindowsTileTheirDays(p, p.endTs.value - 1, 0);
          assert !InSome(p.endTs.value - 1, windows);
        }
      }
      forall t | windows[0].start <= t < p.ProcessedEnd(now) && p.ProcessedEnd(now) <= last
        ensures InSome(t, windows)
      {
        AdjacentWindowsAreOneRange(windows, t);
      }
    }
  }

  /** The report does run ahead: one January day is processed, the end of February is reported. */
  lemma {:induction false} ReportedEndCanRunAhead()
    ensures var p := FromMapping(Payload(Backfill, None, Some(DayStart(59)), Some(0), Some(0)));
            p.Ok? && p.value.ProcessedEnd(0) == DayStart(59) && !InSome(DayStart(30), WindowsOf(p.value))
  {
  }

  // ----- The filter built from windows ------------------------------------------

  /** A filter condition over a row's timestamp columns. */
  datatype Condition = InRange(field: nat, start: int, end: int) | Or(left: Condition, right: Condition)

  /** Whether the engine keeps a row: a comparison with null is not true. */
  predicate Holds(c: Condition, row: seq<Option<int>>) {
    match c
    case InRange(f, s, e) => f < |row| && row[f].Some? && s <= row[f].value < e
    case Or(l, r) => Holds(l, row) || Holds(r, row)
  }

  predicate Keeps(c: Option<Condition>, row: seq<Option<int>>) {
    c.Some? ==> Holds(c.value, row)
  }

  ghost predicate FieldIn(row: seq<Option<int>>, fields: seq<nat>, w: Window) {
    exists j :: 0 <= j < |fields| && fields[j] < |row| && row[fields[j]].Some? && w.Contains(row[fields[j]].value)
  }

  ghost predicate RowIn(row: seq<Option<int>>, fields: seq<nat>, windows: seq<Window>) {
    exists i :: 0 <= i < |windows| && FieldIn(row, fields, windows[i])
  }

  /** Builds the OR over windows and present columns; None means the input is not filtered. */
  method FilterToWindows(windows: seq<Window>, presentFields: seq<nat>) returns (c: Option<Condition>)
    ensures c.None? <==> windows == [] || presentFields == []
    ensures c.Some? ==> forall row :: Keeps(c, row) <==> RowIn(row, presentFields, windows)
  {
    if windows == [] || presentFields == [] {
      return None;
    }
    c := None;
    for i := 0 to |windows|
      invariant c.None? <==> i == 0
      invariant c.Some? ==> forall row :: Keeps(c, row) <==> RowIn(row, presentFields, windows[..i])
    {
      var fieldCond: Option<Condition> := None;
      var w := windows[i];
      for j := 0 to |presentFields|
        invariant fieldCond.None? <==> j == 0
        invariant fieldCond.Some? ==> forall row :: Keeps(fieldCond, row) <==> FieldIn(row, presentFields[..j], w)
      {
        var cond := InRange(presentFields[j], w.start, w.end);
        fieldCond := Some(if fieldCond.None? then cond else Or(fieldCond.value, cond));
        forall row
          ensures Keeps(fieldCond, row) <==> FieldIn(row, presentFields[..j+1], w)
        {
          FieldInStep(row, presentFields, w, j);
        }
      }
      assert presentFields[..|presentFields|] == presentFields;
      c := Some(if c.None? then fieldCond.value else Or(c.value, fieldCond.value));
      forall row
        ensures Keeps(c, row) <==> RowIn(row, presentFields, windows[..i+1])
      {
        RowInStep(row, presentFields, windows, i);
      }
    }
    assert windows[..|windows|] == windows;
  }

  lemma {:induction false} RowInStep(row: seq<Option<int>>, fields: seq<nat>, windows: seq<Window>, i: nat)
    requires i < |windows|
    ensures RowIn(row, fields, windows[..i+1]) <==> RowIn(row, fields, windows[..i]) || FieldIn(row, fields, windows[i])
  {
  }

  lemma {:induction false} FieldInStep(row: seq<Option<int>>, fields: seq<nat>, w: Window, j: nat)
    requires j < |fields|
    ensures FieldIn(row, fields[..j+1], w)
            <==> FieldIn(row, fields[..j], w) || Holds(InRange(fields[j], w.start, w.end), row)
  {
  }

  lemma {:induction false} AdjacentFilterIsOneRange(ws: seq<Window>, fields: seq<nat>, row: seq<Option<int>>)
    requires ws != [] && Adjacent(ws)
    ensures RowIn(row, fields, ws) <==> FieldIn(row, fields, Window(ws[0].start, ws[|ws|-1].end))
  {
    var whole := Window(ws[0].start, ws[|ws|-1].end);
    if i :| 0 <= i < |ws| && FieldIn(row, fields, ws[i]) {
      var j :| 0 <= j < |fields| && fields[j] < |row| && row[fields[j]].Some? && ws[i].Contains(row[fields[j]].value);
      AdjacentWindowsAreOneRange(ws, row[fields[j]].value);
      assert whole.Contains(row[fields[j]].value);
    }
    if FieldIn(row, fields, whole) {
      var j :| 0 <= j < |fields| && fields[j] < |row| && row[fields[j]].Some? && whole.Contains(row[fields[j]].value);
      AdjacentWindowsAreOneRange(ws, row[fields[j]].value);
      var i :| 0 <= i < |ws| && ws[i].Contains(row[fields[j]].value);
      assert FieldIn(row, fields, ws[i]);
    }
  }

  /** For the windows of a run the OR over all windows is one range test per column. */
  lemma {:induction false} WindowFilterIsOneRange(p: JobParams, fields: seq<nat>, row: seq<Option<int>>)
    requires p.Accepted()
    ensures var ws := WindowsOf(p);
            RowIn(row, fields, ws) <==> FieldIn(row, fields, Window(ws[0].start, ws[|ws|-1].end))
  {
    if !p.incremental {
      BackfillWindowsTileTheirDays(p, 0, 0);
    }
    AdjacentFilterIsOneRange(WindowsOf(p), fields, row);
  }

  // ----- Defaults for blank parameters -------------------------------------------

  /** Silver, B and C: with nothing given, backfill yesterday. */
  function InjectDailyBackfill(p: Payload, now: int): Payload {
    if p.runMode.Blank? && p.WindowBlank() then
      var yesterday := DateKst(now) - 1;
      p.(runMode := Backfill, dateStart := Some(yesterday), dateEnd := Some(yesterday))
    else p
  }

  const DEFAULT_WINDOW_MINUTES := 10

  /** Pipeline A: with nothing given, continue from the checkpoint up to now. */
  function InjectIncrementalWindow(p: Payload, lastProcessedEnd: Option<int>, now: int,
                                   minutes: int): (r: Result<Payload, ParamError>)
    ensures r.Err? <==> minutes <= 0
  {
    if minutes <= 0 then Err(WindowMinutesNotPositive)
    else if p.runMode.Backfill? || p.runMode.Unknown? || !p.WindowBlank() then Ok(p)
    else
      var start := if lastProcessedEnd.Some? then lastProcessedEnd.value else now - minutes * MINUTE;
      var start' := if start >= now then now - minutes * MINUTE else start;
      Ok(p.(runMode := Incremental, startTs := Some(start'), endTs := Some(now)))
  }

  /** Parameters that are given are left alone: the defaults step in only for a payload without a mode, or in
      Pipeline A without a backfill mode, that gives no timestamp and no date. */
  lemma {:induction false} GivenParametersStand(p: Payload, last: Option<int>, now: int, minutes: int)
    requires minutes > 0
    ensures p.startTs.Some? || p.endTs.Some? || p.dateStart.Some? || p.dateEnd.Some? ==>
              InjectDailyBackfill(p, now) == p && InjectIncrementalWindow(p, last, now, minutes) == Ok(p)
    ensures !p.runMode.Blank? ==> InjectDailyBackfill(p, now) == p
    ensures p.runMode.Backfill? || p.runMode.Unknown? ==> InjectIncrementalWindow(p, last, now, minutes) == Ok(p)
  {
  }

  /** The daily default is one window, the whole KST day before now, reported complete. */
  lemma {:induction false} DailyDefaultIsYesterday(now: int, t: int)
    ensures var p := FromMapping(InjectDailyBackfill(Payload(Blank, None, None, None, None), now));
            && p.Ok?
            && (InSome(t, WindowsOf(p.value)) <==> DateKst(t) == DateKst(now) - 1)
            && p.value.ProcessedEnd(now) == DayStart(DateKst(now)) <= now
  {
    var p := FromMapping(InjectDailyBackfill(Payload(Blank, None, None, None, None), now)).value;
    BackfillWindowsTileTheirDays(p, t, 0);
    DayHoldsItsInstants(now, DateKst(now));
  }

  /** A blank Pipeline A run is one non-empty window ending now; from a checkpoint in the past
      it starts exactly there. */
  lemma {:induction false} IncrementalDefaultContinuesFromCheckpoint(mode: RawMode, last: Option<int>, now: int,
                                                                     minutes: int)
    requires (mode.Blank? || mode.Incremental?) && minutes > 0
    ensures DEFAULT_WINDOW_MINUTES == 10
    ensures var p := InjectIncrementalWindow(Payload(mode, None, None, None, None), last, now, minutes);
            && p.Ok? && FromMapping(p.value).Ok?
            && var params := FromMapping(p.value).value;
            && WindowsOf(params) == [Window(params.startTs.value, now)]
            && params.ProcessedEnd(now) == now
            && (last.Some? && last.value < now ==> params.startTs.value == last.value)
            && (last.None? || last.value >= now ==> params.startTs.value == now - minutes * 60_000_000)
  {
  }
}
