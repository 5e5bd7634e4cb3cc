# tideshow core in Dafny

tideshow is a single-page React client. The user picks a tide station, a
from/to month and day, units, a time zone and a datum. The page then asks the
NOAA tide-prediction endpoint for the high/low predictions and draws them as a
line chart. All of its logic sits in the `App` component. This project models
that logic as pure functions over immutable records:

- `Decimal`: JavaScript's `toString()` of integral numbers below 10^21 in
  magnitude, and the value a digit string denotes. That value is used to
  state what a date stamp means.
- `Query`: the request builder of `getData`. It covers the zero-padding of
  months and days, the `YYYYMMDD` begin and end dates, and the parameter
  record (`product=predictions`, `interval=hilo`, `format=json`; station,
  datum, units and time zone copied from the state).
- `Transform`: the success handler's reshaping of the `predictions` list.
  Each time stamp `t` is split on `" "` (JavaScript `split` semantics, empty
  pieces kept) and its first two pieces become a label. Each height `v` is
  kept as a string. The table gets the list unchanged.
- `App`: the `useState` slots as one record, and every handler as a
  state-to-state function. This covers units, station, time zone, datum,
  day/month selection, showing the chart, Edit, the search button with its
  `isLoading` guard, and the `then`/`catch` callbacks.
  A `Session` pairs the state with the number of requests in flight. `Run`
  plays any sequence of user and network events against it. A control acts
  only while it is rendered: the form and search button while `showOptions`
  is set, the Edit button while `showChart` is set.
- `Wrappers`: `Option`, where `None` stands for `undefined`, or for the empty
  initial `{}` of `tideData`.

Inputs replace what the code takes from its environment. The current year,
and the initial day/month values the code computes with `Date`, are
parameters. The outcome of the HTTP request is an `Outcome` value with three
cases:

- `Success(predictions)`
- `NoPredictions`: a resolved body that has no `predictions` list
- `Failure`: a rejected request

With `NoPredictions`, the `then` callback clears the loading flag, sets the
table to `undefined` and shows the chart. It then throws in its first loop,
and the `catch` swallows the error.

A resolved request clears `isLoading` (src/App.js:109); a rejected one only
logs (src/App.js:140-142), so the flag stays set. The model follows the code.
The consequence is proved in `App.FailedSearchNeverRecovers` and listed under
Findings.

## Model

| member | source | states |
|---|---|---|
| Decimal.NatToString | src/App.js:72 | the numeral `toString()` gives for a non-negative integer is non-empty, all digits, and has no leading zero |
| Decimal.ParseNatToString | src/App.js:75 | reading a numeral back gives the number it was written from |
| Decimal.NatToStringInjective | src/App.js:72 | two numbers have the same numeral exactly when they are equal |
| Decimal.NatToStringLength | src/App.js:75 | a numeral is one digit long exactly below 10, two digits for 10..99, four digits for a four-digit year |
| Query.PadTwoDigits | src/App.js:69-85 | a month or day below 100 pads to two digits that read back as the number; below 10 the first is the added "0", from 10 on the numeral is unchanged |
| Query.DateStampWellFormed | src/App.js:78-86 | year, padded month and padded day make eight digits whose fields read back as the year, month and day |
| Query.DateStampInjective | src/App.js:78-86 | two in-range dates give the same stamp exactly when they are the same date |
| Query.BeginDateWithTwoDigitStart | src/App.js:69-75 | when the stored start day is already two characters (the padded initial value), begin_date is the eight-digit stamp of that day |
| Query.BeginDateWithSelectedStart | src/App.js:69-75 | when the start day is the numeral a day option carries, begin_date is seven characters exactly for days 1..9, and is then no valid date stamp at all |
| Query.SelectedDayFiveBeginDate | src/App.js:75 | choosing 5 April 2024 yields begin_date "2024045"; the padded construction yields "20240405" |
| Query.CorrectedBeginDateWellFormed | src/App.js:69-75 | padding the start day like the end day gives an eight-digit begin_date that reads back as the chosen date, for every day offered |
| Query.BuildQueryFields | src/App.js:89-103 | the request asks for hilo predictions in JSON, copies station, datum, units and time zone, and its end_date reads back as the chosen year, end month and end day |
| Query.BuildQueryExample | src/App.js:60-103 | San Francisco, metric, MLLW, lst_ldt, 5 to 12 April 2024 with the load-time start "05" gives begin_date "20240405" and end_date "20240412"; choosing day 5 in the selector instead gives "2024045" (see Findings) |
| Transform.Split | src/App.js:114 | `split(" ")` yields at least one piece, no piece contains the separator, and joining the pieces with it gives back the string |
| Transform.SplitJoin | src/App.js:114 | splitting undoes joining any separator-free pieces |
| Transform.CountJoin | src/App.js:114 | joining k separator-free pieces puts exactly k-1 separators into the string |
| Transform.LabelOf | src/App.js:114-115 | the label's date is the text before the first space; its time exists exactly when the stamp has a space, follows that space, and runs to the next space or the end of the stamp |
| Transform.LabelOfOneSpace | src/App.js:113-116 | for a stamp with exactly one space, date + " " + time is the stamp |
| Transform.LabelOfDateTime | src/App.js:114-115 | the label of "date time", each part without spaces, is the pair (date, time) |
| Transform.ReshapeLoops | src/App.js:113-121 | the two loops give as many labels and values as predictions; label i comes from prediction i's stamp and value i is prediction i's height, in order |
| Transform.ChartOfAppend | src/App.js:113-121 | the chart of a concatenated list is the concatenation of the charts: each prediction is reshaped on its own and the order is kept |
| Transform.ChartRestoresTimestamps | src/App.js:113-116 | when every stamp has one space, each label gives back its prediction's stamp |
| Transform.ChartOfExample | src/App.js:113-121 | two predictions on 5 April 2024 give labels [2024-04-05, 03:15], [2024-04-05, 09:40] and values "1.2", "5.8" |
| App.InitialBeginDateWellFormed | src/App.js:14-19 | with the padded initial start day, begin_date is the eight-digit stamp of today |
| App.HandleUnits | src/App.js:186-195 | the label always takes the chosen value; "Feet" gives "english", "Meters" gives "metric", any other value keeps the API units; nothing else changes |
| App.ChangeStation | src/App.js:198-200 | the station takes the chosen value; nothing else changes |
| App.ChangeTimeZone | src/App.js:202-205 | the time zone takes the chosen value; nothing else changes |
| App.ChangeDatum | src/App.js:207-210 | the datum takes the chosen value; nothing else changes |
| App.HandleDayChange | src/App.js:221-226 | only the named date field takes the new value; the other fields and slots keep theirs |
| App.DayChangeReachesQuery | src/App.js:221-226 | after choosing an end month and day, the request's end_date is the stamp of exactly that date among all in-range dates of the year |
| App.DisplayChart | src/App.js:213-219 | shows the chart and hides the form; a no-op when the chart is already shown |
| App.HandleBack | src/App.js:229-232 | shows the form and hides the chart, keeping all data |
| App.FlagHandlersKeepComplementary | src/App.js:213-232 | both flag handlers keep showChart equal to not-showOptions; from the form view Edit undoes showing the chart |
| App.GetData | src/App.js:60-61 | sets the loading flag, changes nothing else, and issues a request |
| App.ClickSearch | src/App.js:425-430 | a click while loading changes nothing and issues nothing; otherwise it sets loading and issues the query of the current selection |
| App.OnResponse | src/App.js:105-142 | success clears loading, shows the chart, stores the list and the chart of it; a body without predictions clears loading, shows the chart and keeps the old chart; a failure changes nothing |
| App.CorrectedFailureRecovers | src/App.js:140-142 | with a catch that clears the flag, a failure keeps all data and lets the next click issue a request |
| App.CorrectedSearchRetries | src/App.js:140-142 | with the corrected catch in the session, a failed search keeps the chart, table and form, and the next search click puts a new request in flight |
| App.Step | src/App.js:272-439 | form edits touch no data or flags; only a search adds a request in flight and only a completion removes one |
| App.ReachableSessions | src/App.js:55-58 | from the first render, at most one request is in flight, loading is set and the chart hidden while one is, the flags stay complementary, and the units label matches the API units |
| App.LoadingWithoutRequestIsStuck | src/App.js:140-142 | once loading is set with nothing in flight, no event sequence clears it or issues a request |
| App.FailedSearchNeverRecovers | src/App.js:425-430 | a search whose request fails leaves the button disabled, with no request issued, whatever happens later |

## Findings

| source | as written | input that shows it | evidently intended | confidence | as-written member | corrected member |
|---|---|---|---|---|---|---|
| src/App.js:75 | the start day is concatenated without padding; only the load-time value is padded (src/App.js:17-19) | choose April and day 5 in 2024: begin_date is "2024045" | pad the start day like the end day: "20240405" | high, not executed | Query.BeginDateWithSelectedStart | Query.CorrectedBeginDateWellFormed |
| src/App.js:140-142 | the `catch` only logs, so `isLoading` stays true and the search button stays disabled | any rejected request, for example a network error | clear the loading flag on failure | high, not executed | App.FailedSearchNeverRecovers | App.CorrectedSearchRetries |

`App.Step` and `App.Run` use the as-written `Query.BeginDate` and
`App.OnResponse`, because the model describes what the page does. The
corrected definitions `Query.CorrectedBeginDate`, `App.CorrectedOnResponse`
and `App.CorrectedStep` stand beside them with their properties proved.

## Left out

- JavaScript numbers are doubles, and `toString` writes integral values of 10^21 and above in exponent form ("1e+21"). The model's `Decimal.IntToString` writes plain digits for every integer. The code only converts years, months and days, so nothing here reaches that range.
- The axios request and the NOAA endpoint URL (src/App.js:88-107). Only the outcome is modelled, as an `Outcome` input.
- `new Date()`, `getFullYear`, and the one-week-later default computed with `setDate(getDate() + 7)` (src/App.js:14-41). These are clock and calendar-library behaviour. The year and the initial day/month values are parameters.
- `console.log` and `console.error` calls: diagnostics with no effect on state.
- Chart.js `options`, data-set colours and styling, JSX markup, `renderDays`, Bootstrap, icons and CSS. These are presentation. `ChartData` keeps only the labels and the data values.
- The hard-coded station list (src/App.js:300-319). It is static markup and the station is a free string in the model. Its Seattle option carries the value 9414750 (Alameda's code) rather than 9447130 (src/App.js:316).
- src/components/DataTable.js (table markup whose import is commented out), src/components/WaveLoader.js and src/components/Waves.js (animation wrappers).
- Parsing the heights `v` as numbers. The code keeps them as strings.
- Prediction entries without a `t` field. In the code, `split` would throw part-way through the first loop. The model's `Prediction` always carries `t` and `v`.
- React's render and batching mechanics. Each handler's updates are applied together. The success callback calls the `displayChart` of the render in which the request started. `App.ReachableSessions` shows that the chart is hidden for as long as a request is in flight, so that older view of `showChart` equals the current one, and `OnResponse` reads the current state.
- Idempotence of the reshaping needs no lemma: `Transform.ChartOf` is a function of the list alone.
