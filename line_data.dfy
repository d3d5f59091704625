/** The submission line charts of fsforms/line_data_project.py: `date_range`
  * samples `intv + 1` instants from the start day to the end day, and
  * `data()` keys an ordered dictionary by each sample's formatted date,
  * holding the number of submissions up to the day after it.
  *
  * Instants are microseconds (a `timedelta` divided by an integer is
  * floored to whole microseconds); days are microseconds divided by
  * `DayMicros`. */
module LineData {
  import opened Common
  import opened JsonValues

  const DayMicros := 86400 * 1000000

  /** Python's `//` on integers: rounds toward negative infinity, also for a
    * negative divisor. */
  function FloorDiv(a: int, b: int): (q: int)
    requires b != 0
    ensures b > 0 ==> b * q <= a < b * q + b
    ensures b < 0 ==> b * q + b < a <= b * q
  {
    if b > 0 then a / b else (-a) / (-b)
  }

  /** `start + diff * i` for `i in range(n)`. */
  function Steps(start: int, diff: int, n: nat): (r: seq<int>)
    ensures |r| == n
    ensures forall i :: 0 <= i < n ==> r[i] == start + diff * i
  {
    seq(n, i => start + diff * i)
  }

  /** What `list(date_range(start, end, intv))` gives: the `intv` steps of
    * `(end - start) / intv` from start, then end; None is the
    * ZeroDivisionError of `intv == 0`. A negative `intv` makes no steps. */
  function DateRangeSpec(start: int, end: int, intv: int): (r: Option<seq<int>>)
    ensures r.None? <==> intv == 0
  {
    if intv == 0 then None
    else Some(Steps(start, FloorDiv(end - start, intv), if intv > 0 then intv else 0) + [end])
  }

  /** `date_range`, the generator run to the end. */
  method DateRange(start: int, end: int, intv: int) returns (r: Option<seq<int>>)
    ensures r == DateRangeSpec(start, end, intv)
  {
    if intv == 0 {
      return None;
    }
    var diff := FloorDiv(end - start, intv);
    var xs: seq<int> := [];
    var i := 0;
    while i < intv
      invariant 0 <= i && (intv > 0 ==> i <= intv) && (intv < 0 ==> i == 0)
      invariant xs == Steps(start, diff, i)
    {
      xs := xs + [start + diff * i];
      i := i + 1;
    }
    return Some(xs + [end]);
  }

  /** For a positive interval count: `intv + 1` values, the first is start,
    * the last is end, and the i-th is start plus i floored steps. */
  lemma DateRangeShape(start: int, end: int, intv: int)
    requires intv > 0
    ensures DateRangeSpec(start, end, intv).Some?
    ensures var r := DateRangeSpec(start, end, intv).value;
      |r| == intv + 1 && r[0] == start && r[intv] == end &&
      forall i :: 0 <= i < intv ==> r[i] == start + FloorDiv(end - start, intv) * i
  {
  }

  /** When the end is not before the start, the samples never go back and
    * stay between the two. */
  lemma DateRangeWithin(start: int, end: int, intv: int)
    requires intv > 0 && end >= start
    ensures DateRangeSpec(start, end, intv).Some?
    ensures var r := DateRangeSpec(start, end, intv).value;
      (forall i, j :: 0 <= i <= j < |r| ==> r[i] <= r[j]) &&
      (forall i :: 0 <= i < |r| ==> start <= r[i] <= end)
  {
    var r := DateRangeSpec(start, end, intv).value;
    var diff := FloorDiv(end - start, intv);
    assert 0 <= diff;
    assert diff * intv <= end - start;
    forall i, j | 0 <= i <= j < |r| ensures r[i] <= r[j] && r[j] <= end {
      if j < intv {
        StepMonotone(diff, i, j);
        StepMonotone(diff, j, intv);
      } else if i < intv {
        StepMonotone(diff, i, intv);
      }
    }
    forall i | 0 <= i < |r| ensures start <= r[i] {
      if i < intv {
        StepMonotone(diff, 0, i);
      }
    }
  }

  /** A non-negative step taken more often goes further. */
  lemma {:induction false} StepMonotone(diff: int, i: int, j: int)
    requires diff >= 0 && 0 <= i <= j
    ensures diff * i <= diff * j
    decreases j - i
  {
    if i < j {
      StepMonotone(diff, i + 1, j);
      assert diff * (i + 1) == diff * i + diff;
    }
  }

  /** A negative interval count yields only the end. */
  lemma DateRangeNegative(start: int, end: int, intv: int)
    requires intv < 0
    ensures DateRangeSpec(start, end, intv) == Some([end])
  {
    var s := Steps(start, FloorDiv(end - start, intv), 0);
    assert DateRangeSpec(start, end, intv) == Some(s + [end]);
    assert s + [end] == [end];
  }

  // ------------------------------------------------------------- data()

  /** The ordered dictionary `data()` builds from the first `|dates|`
    * samples: each assignment `d[fmt(date)] = count(date)` keeps the
    * position of a key already there and appends a new one. */
  function ChartOf<V>(dates: seq<int>, fmt: int -> string, count: int -> V): (r: seq<(string, V)>)
    ensures |r| <= |dates|
    decreases |dates|
  {
    if dates == [] then []
    else
      var last := dates[|dates| - 1];
      var prev := ChartOf(dates[..|dates| - 1], fmt, count);
      var r := Put(prev, fmt(last), count(last));
      assert |KeysOf(r)| == |r| && |KeysOf(prev)| == |prev|;
      r
  }

  /** `data()`: the dictionary filled in a loop over the samples. */
  method ChartData<V>(dates: seq<int>, fmt: int -> string, count: int -> V) returns (d: seq<(string, V)>)
    ensures d == ChartOf(dates, fmt, count)
  {
    d := [];
    var i := 0;
    while i < |dates|
      invariant 0 <= i <= |dates|
      invariant d == ChartOf(dates[..i], fmt, count)
    {
      ChartOfStep(dates, fmt, count, i);
      d := Put(d, fmt(dates[i]), count(dates[i]));
      i := i + 1;
    }
    assert dates[..i] == dates;
  }

  /** One more sample writes one more key. */
  lemma ChartOfStep<V>(dates: seq<int>, fmt: int -> string, count: int -> V, i: int)
    requires 0 <= i < |dates|
    ensures ChartOf(dates[..i + 1], fmt, count) == Put(ChartOf(dates[..i], fmt, count), fmt(dates[i]), count(dates[i]))
  {
    var next := dates[..i + 1];
    assert next[..|next| - 1] == dates[..i] && next[|next| - 1] == dates[i];
  }

  /** The keys are the samples' formatted dates, each once, in the order
    * they first occur. */
  lemma {:induction false} ChartKeys<V>(dates: seq<int>, fmt: int -> string, count: int -> V)
    ensures KeysOf(ChartOf(dates, fmt, count)) == Distinct(Map(dates, fmt))
    decreases |dates|
  {
    if dates != [] {
      var init := dates[..|dates| - 1];
      var last := dates[|dates| - 1];
      ChartKeys(init, fmt, count);
      var prev := ChartOf(init, fmt, count);
      var d := Distinct(Map(init, fmt));
      MapInit(dates, fmt);
      assert Distinct(Map(dates, fmt)) == if fmt(last) in d then d else d + [fmt(last)];
      assert ChartOf(dates, fmt, count) == Put(prev, fmt(last), count(last));
      KeyPresentIffListed(prev, fmt(last));
    }
  }

  /** Dropping the last sample drops the last label. */
  lemma MapInit(dates: seq<int>, fmt: int -> string)
    requires dates != []
    ensures var labels := Map(dates, fmt);
      labels[..|labels| - 1] == Map(dates[..|dates| - 1], fmt) && labels[|labels| - 1] == fmt(dates[|dates| - 1])
  {
  }

  /** A key is present exactly when it is among the listed keys. */
  lemma KeyPresentIffListed<V>(es: seq<(string, V)>, k: string)
    ensures HasKey(es, k) <==> k in KeysOf(es)
  {
    if HasKey(es, k) {
      var i :| 0 <= i < |es| && es[i].0 == k;
      assert KeysOf(es)[i] == k;
    }
    if k in KeysOf(es) {
      var i :| 0 <= i < |KeysOf(es)| && KeysOf(es)[i] == k;
      assert es[i].0 == k;
    }
  }

  /** Samples with the same formatted date collapse: a key holds the count
    * of the last sample written with it. */
  lemma {:induction false} ChartKeepsLast<V>(dates: seq<int>, fmt: int -> string, count: int -> V, i: int)
    requires 0 <= i < |dates|
    requires forall j :: i < j < |dates| ==> fmt(dates[j]) != fmt(dates[i])
    ensures Get(ChartOf(dates, fmt, count), fmt(dates[i])) == Some(count(dates[i]))
    decreases |dates|
  {
    if i < |dates| - 1 {
      var init := dates[..|dates| - 1];
      assert init[i] == dates[i];
      forall j | i < j < |init| ensures fmt(init[j]) != fmt(init[i]) {
        assert init[j] == dates[j];
      }
      ChartKeepsLast(init, fmt, count, i);
    }
  }

  /** Every value the dictionary holds is the count of one of the
    * samples. */
  lemma {:induction false} ChartValuesAreSamples<V>(dates: seq<int>, fmt: int -> string, count: int -> V, i: int)
    requires 0 <= i < |ChartOf(dates, fmt, count)|
    ensures exists j :: 0 <= j < |dates| && ChartOf(dates, fmt, count)[i].1 == count(dates[j])
    decreases |dates|
  {
    var init := dates[..|dates| - 1];
    var last := dates[|dates| - 1];
    var prev := ChartOf(init, fmt, count);
    var r := ChartOf(dates, fmt, count);
    PutEntries(prev, fmt(last), count(last), i);
    if r[i].1 != count(last) {
      ChartValuesAreSamples(init, fmt, count, i);
      var j :| 0 <= j < |init| && prev[i].1 == count(init[j]);
      assert init[j] == dates[j];
    } else {
      assert dates[|dates| - 1] == last;
    }
  }

  // ----------------------------------------------------------- counting

  /** A submission: the day it was made and its review status. */
  datatype Submission = Submission(day: int, formStatus: int)

  /** `date + timedelta(days=1)`, then `.date()`: the day after the sample. */
  function DayAfter(t: int): int
  {
    (t + DayMicros) / DayMicros
  }

  /** The submissions with `date__lte` the day after the sample. */
  function Through(subs: seq<Submission>, t: int): (r: seq<Submission>)
    ensures forall s :: s in r <==> s in subs && s.day <= DayAfter(t)
  {
    Where(subs, (s: Submission) => s.day <= DayAfter(t))
  }

  /** `get_count` of the line chart generators. */
  function CountThrough(subs: seq<Submission>, t: int): nat
  {
    |Through(subs, t)|
  }

  /** A later sample counts at least as many submissions: the chart is
    * cumulative. */
  lemma {:induction false} CountThroughMonotone(subs: seq<Submission>, t1: int, t2: int)
    requires t1 <= t2
    ensures CountThrough(subs, t1) <= CountThrough(subs, t2)
    decreases |subs|
  {
    assert DayAfter(t1) <= DayAfter(t2);
    if subs != [] {
      CountThroughMonotone(subs[1..], t1, t2);
      assert Through(subs, t1) == (if subs[0].day <= DayAfter(t1) then [subs[0]] else []) + Through(subs[1..], t1);
      assert Through(subs, t2) == (if subs[0].day <= DayAfter(t2) then [subs[0]] else []) + Through(subs[1..], t2);
    }
  }

  /** `data()` of the four line chart generators (project, project
    * dashboard, organization, site), which differ only in the instances
    * they count, passed here as `subs`: seven samples from the creation day
    * to today, keyed by formatted date, each with the submissions through
    * the day after it. */
  function LineChart(created: int, today: int, subs: seq<Submission>, fmt: int -> string)
    : (r: seq<(string, nat)>)
    ensures |r| <= 7
  {
    var dates := DateRangeSpec(created, today, 6).value;
    ChartOf(dates, fmt, t => CountThrough(subs, t))
  }

  /** The line rises: when today is not before the creation day, the
    * counts at the samples never decrease in sample order. */
  lemma LineChartRises(created: int, today: int, subs: seq<Submission>, fmt: int -> string)
    requires created <= today
    ensures var dates := DateRangeSpec(created, today, 6).value;
      forall i, j :: 0 <= i <= j < |dates| ==> CountThrough(subs, dates[i]) <= CountThrough(subs, dates[j])
  {
    DateRangeWithin(created, today, 6);
    var dates := DateRangeSpec(created, today, 6).value;
    forall i, j | 0 <= i <= j < |dates| ensures CountThrough(subs, dates[i]) <= CountThrough(subs, dates[j]) {
      CountThroughMonotone(subs, dates[i], dates[j]);
    }
  }
}
