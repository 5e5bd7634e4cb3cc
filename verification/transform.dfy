/**
 The success handler's reshaping of the `predictions` list into the chart's
 parallel `labels` and `values` sequences.
 */
module Transform {
  import opened Wrappers

  /** One entry of the response's `predictions` list: time stamp `t`,
      height `v` (a numeral kept as a string) and the high/low flag. */
  datatype Prediction = Prediction(t: string, v: string, kind: string)

  /** A chart label, the pair `[timeInfo[0], timeInfo[1]]`; the second
      element is `undefined` (None) when the time stamp has no space. */
  datatype Label = Label(date: string, time: Option<string>)

  /** The chart data set: labels and heights, index by index. */
  datatype ChartData = ChartData(labels: seq<Label>, values: seq<string>)

  /** The number of occurrences of `c` in `s`. */
  function Count(s: string, c: char): nat {
    if |s| == 0 then 0 else (if s[0] == c then 1 else 0) + Count(s[1..], c)
  }

  lemma {:induction false} CountAppend(a: string, b: string, c: char)
    ensures Count(a + b, c) == Count(a, c) + Count(b, c)
    decreases |a|
  {
    if |a| > 0 {
      assert (a + b)[0] == a[0];
      assert (a + b)[1..] == a[1..] + b;
      CountAppend(a[1..], b, c);
    } else {
      assert a + b == b;
    }
  }

  lemma {:induction false} CountZero(s: string, c: char)
    ensures Count(s, c) == 0 <==> c !in s
    decreases |s|
  {
    if |s| > 0 {
      CountZero(s[1..], c);
      assert c in s <==> s[0] == c || c in s[1..];
    }
  }

  /** The pieces joined back with `sep` between consecutive ones. */
  function Join(pieces: seq<string>, sep: char): string
    requires |pieces| >= 1
  {
    if |pieces| == 1 then pieces[0] else pieces[0] + [sep] + Join(pieces[1..], sep)
  }

  /** JavaScript's `s.split(sep)` for a one-character separator: the maximal
      runs between separators, empty runs included. The pieces never contain
      the separator and joining them with it gives back `s`. */
  function Split(s: string, sep: char): (pieces: seq<string>)
    ensures |pieces| >= 1
    ensures forall i :: 0 <= i < |pieces| ==> sep !in pieces[i]
    ensures Join(pieces, sep) == s
    decreases |s|
  {
    if |s| == 0 then [""]
    else
      var rest := Split(s[1..], sep);
      if s[0] == sep then
        assert ([""] + rest)[1..] == rest;
        [""] + rest
      else
        var pieces := [[s[0]] + rest[0]] + rest[1..];
        assert pieces[1..] == rest[1..];
        assert Join(pieces, sep) == [s[0]] + Join(rest, sep) by {
          if |rest| > 1 {
            assert Join(rest, sep) == rest[0] + [sep] + Join(rest[1..], sep);
          }
        }
        assert s == [s[0]] + s[1..];
        pieces
  }

  /** Splitting undoes joining pieces that do not contain the separator. */
  lemma {:induction false} SplitJoin(pieces: seq<string>, sep: char)
    requires |pieces| >= 1
    requires forall i :: 0 <= i < |pieces| ==> sep !in pieces[i]
    ensures Split(Join(pieces, sep), sep) == pieces
    decreases |pieces|, |pieces[0]|
  {
    var p := pieces[0];
    if |p| == 0 {
      if |pieces| > 1 {
        var tail := pieces[1..];
        SplitJoin(tail, sep);
        var s := Join(pieces, sep);
        assert s == [sep] + Join(tail, sep);
        assert s[1..] == Join(tail, sep);
        assert [""] + tail == pieces;
      }
    } else {
      var smaller := [p[1..]] + pieces[1..];
      assert smaller[1..] == pieces[1..];
      assert forall i :: 0 < i < |smaller| ==> smaller[i] == pieces[i];
      assert sep !in p[1..] by {
        assert forall k :: 0 <= k < |p[1..]| ==> p[1..][k] == p[k + 1];
      }
      SplitJoin(smaller, sep);
      var s := Join(pieces, sep);
      assert s == [p[0]] + Join(smaller, sep) by {
        if |pieces| > 1 {
          assert Join(pieces, sep) == p + [sep] + Join(pieces[1..], sep);
          assert Join(smaller, sep) == p[1..] + [sep] + Join(pieces[1..], sep);
          assert p == [p[0]] + p[1..];
        } else {
          assert p == [p[0]] + p[1..];
        }
      }
      assert s[0] == p[0] && s[0] != sep;
      assert s[1..] == Join(smaller, sep);
      var rest := Split(s[1..], sep);
      assert rest == smaller;
      assert [[p[0]] + rest[0]] + rest[1..] == pieces by {
        assert [p[0]] + p[1..] == p;
      }
    }
  }

  /** Joining pieces free of the separator adds one separator between each
      consecutive pair. */
  lemma {:induction false} CountJoin(pieces: seq<string>, sep: char)
    requires |pieces| >= 1
    requires forall i :: 0 <= i < |pieces| ==> sep !in pieces[i]
    ensures Count(Join(pieces, sep), sep) == |pieces| - 1
    decreases |pieces|
  {
    CountZero(pieces[0], sep);
    if |pieces| > 1 {
      CountJoin(pieces[1..], sep);
      CountAppend(pieces[0] + [sep], Join(pieces[1..], sep), sep);
      CountAppend(pieces[0], [sep], sep);
    }
  }

  /** The joined string starts with the first piece, a separator and the
      second piece; that is all of it for two pieces, and a further
      separator follows for more. */
  lemma JoinStartsWith(pieces: seq<string>, sep: char)
    requires |pieces| >= 2
    ensures Join(pieces, sep) == pieces[0] + [sep] + Join(pieces[1..], sep)
    ensures |pieces| == 2 ==> Join(pieces, sep) == pieces[0] + [sep] + pieces[1]
    ensures |pieces| > 2 ==> pieces[0] + [sep] + pieces[1] + [sep] <= Join(pieces, sep)
  {
  }

  /** The chart label of one time stamp: the first two pieces of
      `t.split(" ")`. The date is the text before the first space (all of `t`
      when it has none), and the time is present exactly when `t` has a space,
      and is then the text up to the next space or the end of `t`. */
  function LabelOf(t: string): (l: Label)
    ensures ' ' !in l.date
    ensures l.time.None? <==> ' ' !in t
    ensures l.time.None? ==> l.date == t
    ensures l.time.Some? ==> ' ' !in l.time.value && l.date + " " + l.time.value <= t
    ensures l.time.Some? ==>
              l.date + " " + l.time.value == t || l.date + " " + l.time.value + " " <= t
  {
    var pieces := Split(t, ' ');
    if |pieces| >= 2 then
      JoinStartsWith(pieces, ' ');
      CountJoin(pieces, ' ');
      CountZero(t, ' ');
      Label(pieces[0], Some(pieces[1]))
    else
      Label(pieces[0], None)
  }

  /** A time stamp with exactly one space, such as "2024-04-05 03:15", is
      recovered from its label: date, a space, time. */
  lemma LabelOfOneSpace(t: string)
    requires Count(t, ' ') == 1
    ensures LabelOf(t).time.Some?
    ensures LabelOf(t).date + " " + LabelOf(t).time.value == t
  {
    var pieces := Split(t, ' ');
    CountJoin(pieces, ' ');
    assert |pieces| == 2;
    assert pieces[1..] == [pieces[1]];
  }

  /** The label of a date, a space and a time, each without spaces, is the
      pair of the two. */
  lemma LabelOfDateTime(date: string, time: string)
    requires ' ' !in date && ' ' !in time
    ensures LabelOf(date + " " + time) == Label(date, Some(time))
  {
    var pieces := [date, time];
    assert Join(pieces, ' ') == date + " " + time by {
      assert pieces[1..] == [time];
    }
    SplitJoin(pieces, ' ');
  }

  /** The chart data of a prediction list, as a reference definition. */
  function ChartOf(predictions: seq<Prediction>): ChartData {
    ChartData(
      seq(|predictions|, i requires 0 <= i < |predictions| => LabelOf(predictions[i].t)),
      seq(|predictions|, i requires 0 <= i < |predictions| => predictions[i].v))
  }

  /** The two loops of the success handler: one label per prediction from its
      time stamp, then one value per prediction from its height, in the
      order of the response. */
  method ReshapeLoops(predictions: seq<Prediction>) returns (chart: ChartData)
    ensures |chart.labels| == |predictions| && |chart.values| == |predictions|
    ensures forall i :: 0 <= i < |predictions| ==>
              chart.labels[i] == LabelOf(predictions[i].t) && chart.values[i] == predictions[i].v
    ensures chart == ChartOf(predictions)
  {
    var tDay: seq<Label> := [];
    for i := 0 to |predictions|
      invariant |tDay| == i
      invariant forall k :: 0 <= k < i ==> tDay[k] == LabelOf(predictions[k].t)
    {
      tDay := tDay + [LabelOf(predictions[i].t)];
    }
    var tHeights: seq<string> := [];
    for i := 0 to |predictions|
      invariant |tHeights| == i
      invariant forall k :: 0 <= k < i ==> tHeights[k] == predictions[k].v
    {
      tHeights := tHeights + [predictions[i].v];
    }
    chart := ChartData(tDay, tHeights);
  }

  /** When every time stamp has exactly one space, each label gives back its
      prediction's time stamp. */
  lemma ChartRestoresTimestamps(predictions: seq<Prediction>)
    requires forall i :: 0 <= i < |predictions| ==> Count(predictions[i].t, ' ') == 1
    ensures forall i :: 0 <= i < |predictions| ==>
              ChartOf(predictions).labels[i].time.Some? &&
              ChartOf(predictions).labels[i].date + " " + ChartOf(predictions).labels[i].time.value
                == predictions[i].t
  {
    forall i | 0 <= i < |predictions|
      ensures ChartOf(predictions).labels[i] == LabelOf(predictions[i].t)
      ensures LabelOf(predictions[i].t).time.Some?
      ensures LabelOf(predictions[i].t).date + " " + LabelOf(predictions[i].t).time.value == predictions[i].t
    {
      LabelOfOneSpace(predictions[i].t);
    }
  }

  /** The chart of a concatenation is the concatenation of the charts: the
      reshaping treats each prediction on its own and keeps the order. */
  lemma ChartOfAppend(a: seq<Prediction>, b: seq<Prediction>)
    ensures ChartOf(a + b).labels == ChartOf(a).labels + ChartOf(b).labels
    ensures ChartOf(a + b).values == ChartOf(a).values + ChartOf(b).values
  {
  }

  /** The worked example of two predictions on 5 April 2024, time stamps
      "2024-04-05 03:15" and "2024-04-05 09:40". */
  lemma ChartOfExample()
    ensures ChartOf([Prediction("2024-04-05" + " " + "03:15", "1.2", "L"),
                     Prediction("2024-04-05" + " " + "09:40", "5.8", "H")])
         == ChartData([Label("2024-04-05", Some("03:15")), Label("2024-04-05", Some("09:40"))], ["1.2", "5.8"])
  {
    LabelOfDateTime("2024-04-05", "03:15");
    LabelOfDateTime("2024-04-05", "09:40");
  }
}
