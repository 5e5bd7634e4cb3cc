/**
 The request builder of `getData`: the `YYYYMMDD` begin and end dates and the
 parameter record sent to the tide-prediction endpoint. The current year is
 an input; the clock is not modelled.
 */
module Query {
  import opened Decimal

  /** The month/day selection held in the `dates` state. The months and the
      end day are compared numerically by the code, so they are integers; the
      start day is concatenated into the begin date as it stands, so it is the
      string the state holds. */
  datatype Dates = Dates(start: string, fromMonth: int, end: int, toMonth: int)

  /** Zero-padding of a month or a day: a value below 10 gets a "0" in front
      of its numeral, any other value is its numeral. */
  function Pad(n: int): string {
    if n < 10 then "0" + IntToString(n) else IntToString(n)
  }

  /** Every month and day number below 100 pads to two digits that read back
      as the number; below 10 the first digit is the added zero, from 10 on
      padding leaves the numeral as it is. */
  lemma PadTwoDigits(n: int)
    requires 0 <= n < 100
    ensures |Pad(n)| == 2 && AllDigits(Pad(n)) && ParseDigits(Pad(n)) == n
    ensures n < 10 ==> Pad(n) == ['0', DigitChar(n)]
    ensures n >= 10 ==> Pad(n) == NatToString(n)
  {
    NatToStringLength(n);
    ParseNatToString(n);
    if n < 10 {
      ParseLeadingZero(NatToString(n));
    }
  }

  /** A year, a month and a day written `YYYYMMDD`, month and day padded. */
  function DateStamp(year: int, month: int, day: int): string {
    IntToString(year) + Pad(month) + Pad(day)
  }

  /** For a four-digit year and a month and day from the selectors, the stamp
      is eight digits whose fields read back as the year, month and day. */
  lemma DateStampWellFormed(year: int, month: int, day: int)
    requires 1000 <= year <= 9999 && 1 <= month <= 12 && 1 <= day <= 31
    ensures |DateStamp(year, month, day)| == 8
    ensures AllDigits(DateStamp(year, month, day))
    ensures ParseDigits(DateStamp(year, month, day)[..4]) == year
    ensures ParseDigits(DateStamp(year, month, day)[4..6]) == month
    ensures ParseDigits(DateStamp(year, month, day)[6..]) == day
  {
    var y, m, d := IntToString(year), Pad(month), Pad(day);
    NatToStringLength(year);
    ParseNatToString(year);
    PadTwoDigits(month);
    PadTwoDigits(day);
    var s := y + m + d;
    assert s[..4] == y;
    assert s[4..6] == m;
    assert s[6..] == d;
  }

  /** Distinct in-range dates give distinct stamps. */
  lemma DateStampInjective(year: int, month: int, day: int, year': int, month': int, day': int)
    requires 1000 <= year <= 9999 && 1 <= month <= 12 && 1 <= day <= 31
    requires 1000 <= year' <= 9999 && 1 <= month' <= 12 && 1 <= day' <= 31
    ensures DateStamp(year, month, day) == DateStamp(year', month', day') <==>
            year == year' && month == month' && day == day'
  {
    DateStampWellFormed(year, month, day);
    DateStampWellFormed(year', month', day');
  }

  /** `begin_date`: the year, the padded start month and the start day as
      the state holds it, with no padding of the day. */
  function BeginDate(year: int, dates: Dates): string {
    IntToString(year) + Pad(dates.fromMonth) + dates.start
  }

  /** `end_date`: the year, the padded end month and the padded end day. */
  function EndDate(year: int, dates: Dates): string {
    DateStamp(year, dates.toMonth, dates.end)
  }

  /** When the start day in the state is already two characters, the numeral
      of a day from 10 on or the padded initial value, the begin date is the
      well-formed stamp of that day. */
  lemma BeginDateWithTwoDigitStart(year: int, dates: Dates, day: int)
    requires 1000 <= year <= 9999 && 1 <= dates.fromMonth <= 12 && 1 <= day <= 31
    requires dates.start == Pad(day)
    ensures BeginDate(year, dates) == DateStamp(year, dates.fromMonth, day)
    ensures |BeginDate(year, dates)| == 8
    ensures ParseDigits(BeginDate(year, dates)[6..]) == day
  {
    DateStampWellFormed(year, dates.fromMonth, day);
  }

  /** When the start day in the state is the numeral a day selector option
      carries, the begin date is seven characters long exactly for the days
      1 to 9, and it is then no date stamp of any in-range date. */
  lemma BeginDateWithSelectedStart(year: int, dates: Dates, day: int)
    requires 1000 <= year <= 9999 && 1 <= dates.fromMonth <= 12 && 1 <= day <= 31
    requires dates.start == NatToString(day)
    ensures |BeginDate(year, dates)| == 7 <==> day < 10
    ensures day >= 10 ==> BeginDate(year, dates) == DateStamp(year, dates.fromMonth, day)
    ensures day < 10 ==> forall y, m, d :: 1000 <= y <= 9999 && 1 <= m <= 12 && 1 <= d <= 31 ==>
                           BeginDate(year, dates) != DateStamp(y, m, d)
  {
    NatToStringLength(year);
    NatToStringLength(day);
    PadTwoDigits(dates.fromMonth);
    PadTwoDigits(day);
    forall y, m, d | 1000 <= y <= 9999 && 1 <= m <= 12 && 1 <= d <= 31
      ensures day < 10 ==> BeginDate(year, dates) != DateStamp(y, m, d)
    {
      DateStampWellFormed(y, m, d);
    }
  }

  /** The begin date with the start day padded like the end day: the
      evidently intended construction. */
  function CorrectedBeginDate(year: int, fromMonth: int, startDay: int): string {
    DateStamp(year, fromMonth, startDay)
  }

  /** The corrected begin date is eight digits reading back as the chosen
      date, for every day the selector offers. */
  lemma CorrectedBeginDateWellFormed(year: int, fromMonth: int, startDay: int)
    requires 1000 <= year <= 9999 && 1 <= fromMonth <= 12 && 1 <= startDay <= 31
    ensures |CorrectedBeginDate(year, fromMonth, startDay)| == 8
    ensures ParseDigits(CorrectedBeginDate(year, fromMonth, startDay)[..4]) == year
    ensures ParseDigits(CorrectedBeginDate(year, fromMonth, startDay)[4..6]) == fromMonth
    ensures ParseDigits(CorrectedBeginDate(year, fromMonth, startDay)[6..]) == startDay
  {
    DateStampWellFormed(year, fromMonth, startDay);
  }

  /** Picking day 5 of April in 2024 gives the seven-character begin date
      "2024045", where the endpoint expects "20240405". */
  lemma SelectedDayFiveBeginDate()
    ensures BeginDate(2024, Dates("5", 4, 12, 4)) == "2024045"
    ensures CorrectedBeginDate(2024, 4, 5) == "20240405"
  {
  }

  /** The query parameters of the request. */
  datatype QueryParams = QueryParams(
    station: string,
    beginDate: string,
    endDate: string,
    product: string,
    datum: string,
    units: string,
    timeZone: string,
    interval: string,
    format: string)

  /** The parameter record `getData` sends, from the year and the state. */
  function BuildQuery(year: int, dates: Dates, station: string, datum: string,
                      unitParam: string, userTime: string): QueryParams
  {
    QueryParams(
      station := station,
      beginDate := BeginDate(year, dates),
      endDate := EndDate(year, dates),
      product := "predictions",
      datum := datum,
      units := unitParam,
      timeZone := userTime,
      interval := "hilo",
      format := "json")
  }

  /** The request asks for high/low predictions in JSON for the chosen
      station, datum, units and time zone, with an end date that reads back as
      the chosen end month and day of the given year. */
  lemma BuildQueryFields(year: int, dates: Dates, station: string, datum: string,
                         unitParam: string, userTime: string)
    requires 1000 <= year <= 9999 && 1 <= dates.toMonth <= 12 && 1 <= dates.end <= 31
    ensures var q := BuildQuery(year, dates, station, datum, unitParam, userTime);
      && q.product == "predictions" && q.interval == "hilo" && q.format == "json"
      && q.station == station && q.datum == datum && q.units == unitParam && q.timeZone == userTime
      && |q.endDate| == 8 && AllDigits(q.endDate)
      && ParseDigits(q.endDate[..4]) == year
      && ParseDigits(q.endDate[4..6]) == dates.toMonth
      && ParseDigits(q.endDate[6..]) == dates.end
  {
    DateStampWellFormed(year, dates.toMonth, dates.end);
  }

  /** The worked example: San Francisco, metric, MLLW, local time, 5 to 12
      April 2024 with the load-time start "05"; choosing day 5 in the selector
      instead gives "2024045", see `SelectedDayFiveBeginDate`. */
  lemma BuildQueryExample()
    ensures BuildQuery(2024, Dates("05", 4, 12, 4), "9414290", "MLLW", "metric", "lst_ldt")
         == QueryParams("9414290", "20240405", "20240412", "predictions", "MLLW", "metric",
                        "lst_ldt", "hilo", "json")
  {
  }
}
