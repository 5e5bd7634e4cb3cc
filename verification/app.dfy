/**
 The state of the `App` view and its event handlers as state-to-state
 functions: the form handlers, the chart/form flags, the search button with
 its loading guard, and the completion of the one request. A `Session` pairs
 the view state with the number of requests in flight, and `Run` plays a
 sequence of user and network events against it.
 */
module App {
  import opened Wrappers
  import opened Decimal
  import opened Query
  import opened Transform

  /** The `useState` slots of `App`. `tideData` is `{}` (None) until the
      first successful response; `tideTable` becomes `undefined` (None) when
      a response body has no `predictions` list. */
  datatype AppState = AppState(
    tideData: Option<ChartData>,
    tideHeight: seq<string>,
    tideTable: Option<seq<Prediction>>,
    selectUnits: string,
    unitParam: string,
    userTime: string,
    datum: string,
    station: string,
    dates: Dates,
    isLoading: bool,
    showChart: bool,
    showOptions: bool)

  /** The module-level `initialValues`: today's day of month padded, today's
      month, and the day and month one week later. The calendar arithmetic
      that finds them is left to the caller. */
  function InitialDates(today: int, month: int, weekLaterDay: int, weekLaterMonth: int): Dates {
    Dates(Pad(today), month, weekLaterDay, weekLaterMonth)
  }

  /** With the initial selection the begin date is the well-formed stamp of
      today: the padding at load time makes it eight digits. */
  lemma InitialBeginDateWellFormed(year: int, today: int, month: int, weekLaterDay: int, weekLaterMonth: int)
    requires 1000 <= year <= 9999 && 1 <= month <= 12 && 1 <= today <= 31
    ensures BeginDate(year, InitialDates(today, month, weekLaterDay, weekLaterMonth))
         == DateStamp(year, month, today)
    ensures |BeginDate(year, InitialDates(today, month, weekLaterDay, weekLaterMonth))| == 8
  {
    BeginDateWithTwoDigitStart(year, InitialDates(today, month, weekLaterDay, weekLaterMonth), today);
  }

  /** The state of the first render. */
  function Initial(dates: Dates): AppState {
    AppState(
      tideData := None,
      tideHeight := [],
      tideTable := Some([]),
      selectUnits := "Meters",
      unitParam := "metric",
      userTime := "lst_ldt",
      datum := "MLLW",
      station := "9414290",
      dates := dates,
      isLoading := false,
      showChart := false,
      showOptions := true)
  }

  /** The form-backed slots are equal. */
  predicate SameForm(s: AppState, r: AppState) {
    && s.selectUnits == r.selectUnits
    && s.unitParam == r.unitParam
    && s.userTime == r.userTime
    && s.datum == r.datum
    && s.station == r.station
    && s.dates == r.dates
  }

  /** The fetched data, the loading flag and the view flags are equal. */
  predicate SameView(s: AppState, r: AppState) {
    && s.tideData == r.tideData
    && s.tideHeight == r.tideHeight
    && s.tideTable == r.tideTable
    && s.isLoading == r.isLoading
    && s.showChart == r.showChart
    && s.showOptions == r.showOptions
  }

  /** The chart label follows the API units: "Feet" asks for "english",
      "Meters" for "metric". */
  predicate UnitsAgree(s: AppState) {
    && (s.selectUnits == "Feet" ==> s.unitParam == "english")
    && (s.selectUnits == "Meters" ==> s.unitParam == "metric")
  }

  /** The units selector: the label always takes the chosen value; the API
      parameter follows for "Feet" and "Meters" and stays as it was for any
      other value; nothing else changes. */
  function HandleUnits(s: AppState, value: string): (r: AppState)
    ensures r.selectUnits == value
    ensures value == "Feet" ==> r.unitParam == "english"
    ensures value == "Meters" ==> r.unitParam == "metric"
    ensures value != "Feet" && value != "Meters" ==> r.unitParam == s.unitParam
    ensures UnitsAgree(r)
    ensures r.(selectUnits := s.selectUnits, unitParam := s.unitParam) == s
  {
    var labelled := s.(selectUnits := value);
    if value == "Feet" then labelled.(unitParam := "english")
    else if value == "Meters" then labelled.(unitParam := "metric")
    else labelled
  }

  /** The station selector: the station takes the chosen value, nothing
      else changes. */
  function ChangeStation(s: AppState, value: string): (r: AppState)
    ensures r.station == value
    ensures r.(station := s.station) == s
  {
    s.(station := value)
  }

  /** The time-zone selector: the time zone takes the chosen value, nothing
      else changes. */
  function ChangeTimeZone(s: AppState, value: string): (r: AppState)
    ensures r.userTime == value
    ensures r.(userTime := s.userTime) == s
  {
    s.(userTime := value)
  }

  /** The datum selector: the datum takes the chosen value, nothing else
      changes. */
  function ChangeDatum(s: AppState, value: string): (r: AppState)
    ensures r.datum == value
    ensures r.(datum := s.datum) == s
  {
    s.(datum := value)
  }

  /** A change event of one of the four date selectors, by its `name`. */
  datatype DateChange =
    | FromMonth(fromMonth: int)
    | Start(start: string)
    | ToMonth(toMonth: int)
    | End(end: int)

  /** `{ ...dates, [name]: value }`: the named field takes the value, the
      other three fields and every other slot keep theirs. */
  function HandleDayChange(s: AppState, change: DateChange): (r: AppState)
    ensures r == s.(dates := r.dates)
    ensures change.FromMonth? ==> r.dates == s.dates.(fromMonth := change.fromMonth)
    ensures change.Start? ==> r.dates == s.dates.(start := change.start)
    ensures change.ToMonth? ==> r.dates == s.dates.(toMonth := change.toMonth)
    ensures change.End? ==> r.dates == s.dates.(end := change.end)
  {
    match change
    case FromMonth(m) => s.(dates := s.dates.(fromMonth := m))
    case Start(d) => s.(dates := s.dates.(start := d))
    case ToMonth(m) => s.(dates := s.dates.(toMonth := m))
    case End(d) => s.(dates := s.dates.(end := d))
  }

  /** A selected end month and end day reach the request: of all in-range
      dates of the year, its end date is the stamp of exactly the chosen one. */
  lemma DayChangeReachesQuery(s: AppState, year: int, month: int, day: int)
    requires 1000 <= year <= 9999 && 1 <= month <= 12 && 1 <= day <= 31
    ensures forall m, d :: 1 <= m <= 12 && 1 <= d <= 31 ==>
              ((EndDate(year, HandleDayChange(HandleDayChange(s, ToMonth(month)), End(day)).dates)
                == DateStamp(year, m, d)) <==> m == month && d == day)
  {
    forall m, d | 1 <= m <= 12 && 1 <= d <= 31 {
      DateStampInjective(year, month, day, year, m, d);
    }
  }

  /** Shows the chart and hides the form, once: when the chart is already
      shown it changes nothing. */
  function DisplayChart(s: AppState): (r: AppState)
    ensures s.showChart ==> r == s
    ensures !s.showChart ==> r.showChart && !r.showOptions
    ensures r.(showChart := s.showChart, showOptions := s.showOptions) == s
  {
    if !s.showChart then s.(showChart := true, showOptions := false) else s
  }

  /** The Edit button: shows the form and hides the chart, keeping the data. */
  function HandleBack(s: AppState): (r: AppState)
    ensures r.showOptions && !r.showChart
    ensures r.(showChart := s.showChart, showOptions := s.showOptions) == s
  {
    s.(showOptions := true, showChart := false)
  }

  /** The chart flag is the negation of the form flag. */
  predicate FlagsComplementary(s: AppState) {
    s.showChart == !s.showOptions
  }

  /** Both flag handlers keep the flags complementary, and from the form
      view, Edit undoes showing the chart. */
  lemma FlagHandlersKeepComplementary(s: AppState)
    requires FlagsComplementary(s)
    ensures FlagsComplementary(DisplayChart(s)) && FlagsComplementary(HandleBack(s))
    ensures !s.showChart ==> HandleBack(DisplayChart(s)) == s
    ensures s.showChart ==> DisplayChart(HandleBack(s)) == s
  {
  }

  /** The result of `getData`: the new state and the request it issues. */
  datatype Submission = Submission(state: AppState, request: Option<QueryParams>)

  /** `getData` up to the request: set the loading flag and build the query
      from the current state. */
  function GetData(s: AppState, year: int): (r: Submission)
    ensures r.state.isLoading
    ensures r.request.Some?
    ensures r.state == s.(isLoading := true)
  {
    Submission(
      s.(isLoading := true),
      Some(BuildQuery(year, s.dates, s.station, s.datum, s.unitParam, s.userTime)))
  }

  /** The search button: `onClick={!isLoading ? getData : null}`. While a
      request is loading a click changes nothing and issues nothing;
      otherwise it issues the query of the current selection. */
  function ClickSearch(s: AppState, year: int): (r: Submission)
    ensures s.isLoading ==> r == Submission(s, None)
    ensures !s.isLoading ==> r.state.isLoading && r.state == s.(isLoading := true)
    ensures !s.isLoading ==> r.request == Some(BuildQuery(year, s.dates, s.station, s.datum, s.unitParam, s.userTime))
  {
    if s.isLoading then Submission(s, None) else GetData(s, year)
  }

  /** How the request completed: a body with a `predictions` list, a body
      without one, or a rejected request. */
  datatype Outcome =
    | Success(predictions: seq<Prediction>)
    | NoPredictions
    | Failure

  /** The `then` and `catch` callbacks. On success the loading flag clears,
      the table takes the list as it came, the chart is shown and the chart
      data and heights are replaced. A body without `predictions` gets as
      far as showing the chart with the table `undefined`, then throws in the
      first loop and lands in the `catch`. A rejected request only logs. */
  function OnResponse(s: AppState, outcome: Outcome): (r: AppState)
    ensures outcome.Failure? ==> r == s
    ensures !outcome.Failure? ==> !r.isLoading && r.showChart && (FlagsComplementary(s) ==> FlagsComplementary(r))
    ensures outcome.Success? ==> r.tideTable == Some(outcome.predictions)
    ensures outcome.Success? ==> r.tideData.Some? && r.tideHeight == r.tideData.value.values
    ensures outcome.Success? ==>
              && |r.tideData.value.labels| == |outcome.predictions|
              && |r.tideHeight| == |outcome.predictions|
              && forall i :: 0 <= i < |outcome.predictions| ==>
                   r.tideData.value.labels[i] == LabelOf(outcome.predictions[i].t) &&
                   r.tideHeight[i] == outcome.predictions[i].v
    ensures outcome.NoPredictions? ==> r.tideTable.None? && r.tideData == s.tideData && r.tideHeight == s.tideHeight
    ensures SameForm(s, r)
  {
    match outcome
    case Success(ps) =>
      var chart := ChartOf(ps);
      DisplayChart(s.(isLoading := false, tideTable := Some(ps))).(tideData := Some(chart), tideHeight := chart.values)
    case NoPredictions =>
      DisplayChart(s.(isLoading := false, tideTable := None))
    case Failure =>
      s
  }

  /** The `catch` callback as evidently intended: a rejected request clears
      the loading flag. */
  function CorrectedOnResponse(s: AppState, outcome: Outcome): AppState {
    if outcome.Failure? then s.(isLoading := false) else OnResponse(s, outcome)
  }

  /** With the corrected callback a failed request leaves the chart, heights,
      table and view as they were, clears the loading flag, and the next
      click on the search button issues a request again. */
  lemma CorrectedFailureRecovers(s: AppState, year: int)
    ensures var r := CorrectedOnResponse(s, Failure);
            && !r.isLoading
            && r.tideData == s.tideData && r.tideHeight == s.tideHeight && r.tideTable == s.tideTable
            && r.showChart == s.showChart && r.showOptions == s.showOptions
            && SameForm(s, r)
            && ClickSearch(r, year).request.Some?
  {
  }

  /** The events the page reacts to: the controls of the form, the search
      button, the Edit button, and the completion of the request. */
  datatype Event =
    | UnitsSelected(units: string)
    | StationSelected(station: string)
    | TimeZoneSelected(zone: string)
    | DatumSelected(datum: string)
    | DaySelected(change: DateChange)
    | SearchClicked(year: int)
    | EditClicked
    | Completed(outcome: Outcome)
  {
    predicate IsFormEdit() {
      UnitsSelected? || StationSelected? || TimeZoneSelected? || DatumSelected? || DaySelected?
    }
  }

  /** The view state and the number of requests in flight. */
  datatype Session = Session(app: AppState, inFlight: nat)

  /** One event. A control acts only while it is rendered: the form and the
      search button while `showOptions`, the Edit button while `showChart`.
      A completion arrives only for a request in flight. */
  function Step(ss: Session, e: Event): (r: Session)
    ensures e.IsFormEdit() ==> SameView(ss.app, r.app) && r.inFlight == ss.inFlight
    ensures e.EditClicked? ==> SameForm(ss.app, r.app) && r.inFlight == ss.inFlight
    ensures e.SearchClicked? ==> SameForm(ss.app, r.app) && ss.inFlight <= r.inFlight <= ss.inFlight + 1
    ensures e.Completed? ==> SameForm(ss.app, r.app) && r.inFlight <= ss.inFlight
  {
    var s := ss.app;
    match e
    case UnitsSelected(v) => if s.showOptions then ss.(app := HandleUnits(s, v)) else ss
    case StationSelected(v) => if s.showOptions then ss.(app := ChangeStation(s, v)) else ss
    case TimeZoneSelected(v) => if s.showOptions then ss.(app := ChangeTimeZone(s, v)) else ss
    case DatumSelected(v) => if s.showOptions then ss.(app := ChangeDatum(s, v)) else ss
    case DaySelected(c) => if s.showOptions then ss.(app := HandleDayChange(s, c)) else ss
    case SearchClicked(year) =>
      if s.showOptions then
        var sub := ClickSearch(s, year);
        Session(sub.state, if sub.request.Some? then ss.inFlight + 1 else ss.inFlight)
      else ss
    case EditClicked => if s.showChart then ss.(app := HandleBack(s)) else ss
    case Completed(o) => if ss.inFlight > 0 then Session(OnResponse(s, o), ss.inFlight - 1) else ss
  }

  /** The events played in order. */
  function Run(ss: Session, events: seq<Event>): Session
    decreases |events|
  {
    if |events| == 0 then ss else Run(Step(ss, events[0]), events[1..])
  }

  /** What holds of every session the page can reach: the flags are
      complementary, the units label agrees with the API units, at most one
      request is in flight, and while one is, the loading flag is set and
      the chart is hidden (so the success callback's view of `showChart`,
      taken when the request started, is still the current one). */
  predicate Invariant(ss: Session) {
    && FlagsComplementary(ss.app)
    && UnitsAgree(ss.app)
    && ss.inFlight <= 1
    && (ss.inFlight == 1 ==> ss.app.isLoading && !ss.app.showChart)
  }

  lemma StepKeepsInvariant(ss: Session, e: Event)
    requires Invariant(ss)
    ensures Invariant(Step(ss, e))
  {
  }

  lemma {:induction false} RunKeepsInvariant(ss: Session, events: seq<Event>)
    requires Invariant(ss)
    ensures Invariant(Run(ss, events))
    decreases |events|
  {
    if |events| > 0 {
      StepKeepsInvariant(ss, events[0]);
      RunKeepsInvariant(Step(ss, events[0]), events[1..]);
    }
  }

  /** From the first render, whatever the user and the network do, at most
      one request is ever in flight, and while one is the page is loading
      with the chart hidden; the chart and the form are never shown together
      or both hidden, and the units label matches the API units. */
  lemma ReachableSessions(dates: Dates, events: seq<Event>)
    ensures var ss := Run(Session(Initial(dates), 0), events);
            && ss.inFlight <= 1
            && (ss.inFlight == 1 ==> ss.app.isLoading && !ss.app.showChart)
            && ss.app.showChart == !ss.app.showOptions
            && (ss.app.selectUnits == "Feet" ==> ss.app.unitParam == "english")
            && (ss.app.selectUnits == "Meters" ==> ss.app.unitParam == "metric")
  {
    RunKeepsInvariant(Session(Initial(dates), 0), events);
  }

  /** Once the loading flag is set with no request in flight, no event clears
      it and no request is issued again. */
  lemma {:induction false} LoadingWithoutRequestIsStuck(ss: Session, events: seq<Event>)
    requires ss.app.isLoading && ss.inFlight == 0
    ensures Run(ss, events).app.isLoading && Run(ss, events).inFlight == 0
    decreases |events|
  {
    if |events| > 0 {
      var next := Step(ss, events[0]);
      assert next.app.isLoading && next.inFlight == 0 by {
        match events[0]
        case UnitsSelected(_) =>
        case StationSelected(_) =>
        case TimeZoneSelected(_) =>
        case DatumSelected(_) =>
        case DaySelected(_) =>
        case SearchClicked(_) =>
        case EditClicked =>
        case Completed(_) =>
      }
      LoadingWithoutRequestIsStuck(next, events[1..]);
    }
  }

  /** A search whose request fails leaves the page loading for good: every
      later event sequence keeps the search button disabled and issues no
      request. */
  lemma FailedSearchNeverRecovers(ss: Session, year: int, later: seq<Event>)
    requires Invariant(ss) && !ss.app.isLoading && ss.app.showOptions
    ensures var failed := Run(ss, [SearchClicked(year), Completed(Failure)]);
            && failed.app.isLoading && failed.inFlight == 0
            && Run(failed, later).app.isLoading && Run(failed, later).inFlight == 0
  {
    var submitted := Step(ss, SearchClicked(year));
    assert submitted.inFlight == 1 && submitted.app.isLoading;
    var failed := Step(submitted, Completed(Failure));
    assert failed.app.isLoading && failed.inFlight == 0;
    var events := [SearchClicked(year), Completed(Failure)];
    assert Run(ss, events) == failed by {
      assert events[1..] == [Completed(Failure)];
      assert Run(ss, events) == Run(submitted, [Completed(Failure)]);
      assert Run(submitted, [Completed(Failure)]) == Run(failed, []);
    }
    LoadingWithoutRequestIsStuck(failed, later);
  }

  /** One event with the corrected `catch` callback in place of the one as
      written. */
  function CorrectedStep(ss: Session, e: Event): Session {
    if e.Completed? && ss.inFlight > 0 then Session(CorrectedOnResponse(ss.app, e.outcome), ss.inFlight - 1)
    else Step(ss, e)
  }

  /** With the corrected callback, a search whose request fails leaves the
      chart, table and form as they were, and the next click on the search
      button issues a new request. */
  lemma CorrectedSearchRetries(ss: Session, year: int, retryYear: int)
    requires Invariant(ss) && !ss.app.isLoading && ss.app.showOptions
    ensures var failed := CorrectedStep(CorrectedStep(ss, SearchClicked(year)), Completed(Failure));
            && !failed.app.isLoading && failed.inFlight == 0
            && failed.app.tideData == ss.app.tideData && failed.app.tideTable == ss.app.tideTable
            && failed.app.showOptions && SameForm(ss.app, failed.app)
            && CorrectedStep(failed, SearchClicked(retryYear)).inFlight == 1
  {
  }
}
