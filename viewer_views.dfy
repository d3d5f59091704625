/** The export and chart helpers of viewer/views.py: how `encode` and
  * `format_date_for_mongo` rewrite a timestamp, the submission-time filter
  * an export query gets, the file extension of a download, the query and
  * options `create_export` hands to the export task, how `attachment_url`
  * reads a media path, and the page parameters of `charts`. The code runs
  * under Python 2, whose `time.strftime` rules for early years are part of
  * what `encode` does. */
module ViewerViews {
  import opened Common
  import opened Strings
  import opened JsonValues

  // ------------------------------------------------------------ timestamps

  /** A broken-down time, as `strptime` returns it. */
  datatype Stamp = Stamp(year: int, month: int, day: int, hour: int, minute: int, second: int)

  predicate Leap(y: int) { y % 4 == 0 && (y % 100 != 0 || y % 400 == 0) }

  function DaysIn(month: int, year: int): int
  {
    if month == 2 then (if Leap(year) then 29 else 28)
    else if month == 4 || month == 6 || month == 9 || month == 11 then 30
    else 31
  }

  /** A calendar time `strptime` accepts. `maxSecond` is 61 for
    * `time.strptime`, which admits leap seconds, and 59 for
    * `datetime.strptime`, whose result must be a valid `datetime`. */
  predicate ValidStamp(st: Stamp, maxSecond: int)
  {
    && 1 <= st.year <= 9999 && 1 <= st.month <= 12 && 1 <= st.day <= DaysIn(st.month, st.year)
    && 0 <= st.hour <= 23 && 0 <= st.minute <= 59 && 0 <= st.second <= maxSecond
  }

  /** One numeric directive of `strptime`: between `minDigits` and
    * `maxDigits` ASCII digits whose value lies in lo..hi. */
  function Field(f: string, minDigits: nat, maxDigits: nat, lo: int, hi: int): (r: Option<int>)
    ensures r.Some? ==> lo <= r.value <= hi
  {
    if minDigits <= |f| <= maxDigits && AllDigits(f) && lo <= DigitsValue(f) <= hi then Some(DigitsValue(f))
    else None
  }

  /** The `%y` pivot: 69..99 are 1969..1999, 00..68 are 2000..2068. */
  function Century(yy: int): int
  {
    if yy < 69 then 2000 + yy else 1900 + yy
  }

  /** `strptime(s, '%Y_%m_%d_%H_%M_%S')`, or with `%y` for the year when
    * `twoDigitYear`; None is the ValueError. The fields are the pieces
    * between the underscores, so each must be wholly a directive's match. */
  function ParseStamp(s: string, twoDigitYear: bool, maxSecond: int): (r: Option<Stamp>)
    ensures r.Some? ==> ValidStamp(r.value, maxSecond)
  {
    var p := Split(s, '_');
    if |p| != 6 then None
    else
      var y := if twoDigitYear then Field(p[0], 2, 2, 0, 99) else Field(p[0], 4, 4, 0, 9999);
      var mo := Field(p[1], 1, 2, 1, 12);
      var d := Field(p[2], 1, 2, 1, 31);
      var h := Field(p[3], 1, 2, 0, 23);
      var mi := Field(p[4], 1, 2, 0, 59);
      var se := Field(p[5], 1, 2, 0, 61);
      if y.None? || mo.None? || d.None? || h.None? || mi.None? || se.None? then None
      else
        var st := Stamp(if twoDigitYear then Century(y.value) else y.value, mo.value, d.value, h.value, mi.value, se.value);
        if ValidStamp(st, maxSecond) then Some(st) else None
  }

  /** `strftime` with the date fields joined by `d` and `t` between date
    * and time: `'%Y-%m-%d %H:%M:%S'` is Render(st, '-', ' '). */
  function Render(st: Stamp, d: char, t: char): string
    requires ValidStamp(st, 61)
  {
    Layout(Padded(st.year, 4), Padded(st.month, 2), Padded(st.day, 2),
           Padded(st.hour, 2), Padded(st.minute, 2), Padded(st.second, 2), d, t)
  }

  function Layout(year: string, month: string, day: string, hour: string, minute: string, second: string,
                  d: char, t: char): string
  {
    year + [d] + month + [d] + day + [t] + hour + ":" + minute + ":" + second
  }

  /** The input form `YYYY_MM_DD_hh_mm_ss` (or `YY_...` with a two-digit
    * year), zero-padded. */
  function Underscored(st: Stamp, twoDigitYear: bool): string
    requires ValidStamp(st, 61)
  {
    Join(Fields(st, twoDigitYear), '_')
  }

  /** The six zero-padded fields of a time. */
  function Fields(st: Stamp, twoDigitYear: bool): seq<string>
    requires ValidStamp(st, 61)
  {
    [Padded(if twoDigitYear then st.year % 100 else st.year, if twoDigitYear then 2 else 4),
     Padded(st.month, 2), Padded(st.day, 2), Padded(st.hour, 2), Padded(st.minute, 2), Padded(st.second, 2)]
  }

  /** The year Python 2's `time.strftime` prints for a struct_time year,
    * with `accept2dyear` on (the default): 1900 and later unchanged, 69..99
    * read as 1969..1999, 0..68 as 2000..2068, 100..1899 a ValueError. */
  function StrftimeYear(y: int): (r: Option<int>)
    ensures r.Some? ==> r.value >= 1900
    ensures y >= 1900 ==> r == Some(y)
  {
    if y >= 1900 then Some(y)
    else if 69 <= y <= 99 then Some(y + 1900)
    else if 0 <= y <= 68 then Some(y + 2000)
    else None
  }

  /** Moving a year below 100 into the window 1969..2068 keeps its
    * leap-year status, so the date stays valid. */
  lemma ShiftKeepsStamp(st: Stamp, y: int)
    requires ValidStamp(st, 61) && st.year < 100
    requires (y == st.year + 1900 && st.year >= 69) || y == st.year + 2000
    ensures ValidStamp(st.(year := y), 61)
  {
    assert Leap(y) == Leap(st.year) by {
      assert y % 4 == st.year % 4;
      assert y % 100 != 0 || y == 2000;
    }
  }

  /** `encode`: `time.strptime(s, '%Y_%m_%d_%H_%M_%S')` rewritten by
    * `time.strftime('%Y-%m-%d %H:%M:%S')`; None is the ValueError. */
  function Encode(s: string): (r: Option<string>)
    ensures r.Some? ==> ParseStamp(s, false, 61).Some?
  {
    match ParseStamp(s, false, 61)
    case None => None
    case Some(st) =>
      match StrftimeYear(st.year)
      case None => None
      case Some(y) =>
        if y == st.year then Some(Render(st, '-', ' '))
        else if st.year < 100 then
          ShiftKeepsStamp(st, y);
          Some(Render(st.(year := y), '-', ' '))
        else None
  }

  /** `format_date_for_mongo`: `datetime.strptime(s, '%y_%m_%d_%H_%M_%S')`
    * written in the extended ISO 8601 combined form `YYYY-MM-DDThh:mm:ss`. */
  function FormatDateForMongo(s: string): (r: Option<string>)
    ensures r.Some? ==> IsoShaped(r.value)
  {
    match ParseStamp(s, true, 59)
    case None => None
    case Some(st) => RenderShape(st, '-', 'T'); Some(Render(st, '-', 'T'))
  }

  /** The layout `YYYY-MM-DDThh:mm:ss` of ISO 8601:2004, section 4.3.2,
    * extended format. */
  predicate IsoShaped(r: string)
  {
    |r| == 19 && r[4] == '-' && r[7] == '-' && r[10] == 'T' && r[13] == ':' && r[16] == ':'
  }

  lemma RenderShape(st: Stamp, d: char, t: char)
    requires ValidStamp(st, 61)
    ensures |Render(st, d, t)| == 19
    ensures d == '-' && t == 'T' ==> IsoShaped(Render(st, d, t))
  {
    PaddedWidth(st.year, 4);
    PaddedWidth(st.month, 2);
    PaddedWidth(st.day, 2);
    PaddedWidth(st.hour, 2);
    PaddedWidth(st.minute, 2);
    PaddedWidth(st.second, 2);
    LayoutShape(Padded(st.year, 4), Padded(st.month, 2), Padded(st.day, 2),
                Padded(st.hour, 2), Padded(st.minute, 2), Padded(st.second, 2), d, t);
  }

  lemma LayoutShape(year: string, month: string, day: string, hour: string, minute: string, second: string,
                    d: char, t: char)
    requires |year| == 4 && |month| == 2 && |day| == 2 && |hour| == 2 && |minute| == 2 && |second| == 2
    ensures var r := Layout(year, month, day, hour, minute, second, d, t);
      |r| == 19 && r[4] == d && r[7] == d && r[10] == t && r[13] == ':' && r[16] == ':'
  {
  }

  /** A zero-padded field reads back as its own value. */
  lemma FieldOfPadded(n: nat, width: nat, minDigits: nat, maxDigits: nat, lo: int, hi: int)
    requires width > 0 && n < Pow10(width) && minDigits <= width <= maxDigits && lo <= n <= hi
    ensures Field(Padded(n, width), minDigits, maxDigits, lo, hi) == Some(n)
    ensures '_' !in Padded(n, width)
  {
    PaddedWidth(n, width);
  }

  /** Parsing the underscored form of a time gives that time back. */
  lemma UnderscoredParses(st: Stamp, twoDigitYear: bool, maxSecond: int)
    requires ValidStamp(st, maxSecond) && maxSecond <= 61
    requires twoDigitYear ==> 1969 <= st.year <= 2068
    ensures ParseStamp(Underscored(st, twoDigitYear), twoDigitYear, maxSecond) == Some(st)
  {
    var p := Fields(st, twoDigitYear);
    FieldsRead(st, twoDigitYear);
    SplitJoin(p, '_');
    assert Underscored(st, twoDigitYear) == Join(p, '_');
    ParseFields(p, twoDigitYear, maxSecond, st);
  }

  /** Each of the six fields is free of underscores and reads back as the
    * field of the time it was written from. */
  lemma FieldsRead(st: Stamp, twoDigitYear: bool)
    requires ValidStamp(st, 61)
    requires twoDigitYear ==> 1969 <= st.year <= 2068
    ensures var p := Fields(st, twoDigitYear);
      |p| == 6 && (forall k :: 0 <= k < |p| ==> '_' !in p[k]) &&
      (twoDigitYear ==> Field(p[0], 2, 2, 0, 99).Some? && Century(Field(p[0], 2, 2, 0, 99).value) == st.year) &&
      (!twoDigitYear ==> Field(p[0], 4, 4, 0, 9999) == Some(st.year)) &&
      Field(p[1], 1, 2, 1, 12) == Some(st.month) && Field(p[2], 1, 2, 1, 31) == Some(st.day) &&
      Field(p[3], 1, 2, 0, 23) == Some(st.hour) && Field(p[4], 1, 2, 0, 59) == Some(st.minute) &&
      Field(p[5], 1, 2, 0, 61) == Some(st.second)
  {
    YearFieldReads(st, twoDigitYear);
    var p := Fields(st, twoDigitYear);
    OtherFieldsAt(p, st);
  }

  /** Fields 1 to 5 read back as month, day, hour, minute and second. */
  lemma OtherFieldsAt(p: seq<string>, st: Stamp)
    requires ValidStamp(st, 61) && |p| == 6 && '_' !in p[0]
    requires p[1..] == [Padded(st.month, 2), Padded(st.day, 2), Padded(st.hour, 2), Padded(st.minute, 2), Padded(st.second, 2)]
    ensures forall k :: 0 <= k < |p| ==> '_' !in p[k]
    ensures Field(p[1], 1, 2, 1, 12) == Some(st.month) && Field(p[2], 1, 2, 1, 31) == Some(st.day)
    ensures Field(p[3], 1, 2, 0, 23) == Some(st.hour) && Field(p[4], 1, 2, 0, 59) == Some(st.minute)
    ensures Field(p[5], 1, 2, 0, 61) == Some(st.second)
  {
    OtherFieldsRead(st);
    assert p[1] == p[1..][0] && p[2] == p[1..][1] && p[3] == p[1..][2] && p[4] == p[1..][3] && p[5] == p[1..][4];
  }

  lemma YearFieldReads(st: Stamp, twoDigitYear: bool)
    requires ValidStamp(st, 61)
    requires twoDigitYear ==> 1969 <= st.year <= 2068
    ensures '_' !in Fields(st, twoDigitYear)[0]
    ensures twoDigitYear ==> (Field(Fields(st, true)[0], 2, 2, 0, 99).Some? &&
      Century(Field(Fields(st, true)[0], 2, 2, 0, 99).value) == st.year)
    ensures !twoDigitYear ==> Field(Fields(st, false)[0], 4, 4, 0, 9999) == Some(st.year)
  {
    if twoDigitYear {
      var yy := st.year % 100;
      CenturyOfLastDigits(st.year);
      assert Pow10(2) == 100;
      assert Fields(st, true)[0] == Padded(yy, 2);
      FieldOfPadded(yy, 2, 2, 2, 0, 99);
    } else {
      assert Pow10(4) == 10000 by { assert Pow10(2) == 100; }
      assert Fields(st, false)[0] == Padded(st.year, 4);
      FieldOfPadded(st.year, 4, 4, 4, 0, 9999);
    }
  }

  /** The `%y` pivot reads the last two digits of a year in 1969..2068
    * back as that year. */
  lemma CenturyOfLastDigits(y: int)
    requires 1969 <= y <= 2068
    ensures 0 <= y % 100 <= 99 && Century(y % 100) == y
  {
    if y < 2000 {
      assert y % 100 == y - 1900;
    } else {
      assert y % 100 == y - 2000;
    }
  }

  lemma OtherFieldsRead(st: Stamp)
    requires ValidStamp(st, 61)
    ensures Field(Padded(st.month, 2), 1, 2, 1, 12) == Some(st.month) && '_' !in Padded(st.month, 2)
    ensures Field(Padded(st.day, 2), 1, 2, 1, 31) == Some(st.day) && '_' !in Padded(st.day, 2)
    ensures Field(Padded(st.hour, 2), 1, 2, 0, 23) == Some(st.hour) && '_' !in Padded(st.hour, 2)
    ensures Field(Padded(st.minute, 2), 1, 2, 0, 59) == Some(st.minute) && '_' !in Padded(st.minute, 2)
    ensures Field(Padded(st.second, 2), 1, 2, 0, 61) == Some(st.second) && '_' !in Padded(st.second, 2)
  {
    FieldOfPadded(st.month, 2, 1, 2, 1, 12);
    FieldOfPadded(st.day, 2, 1, 2, 1, 31);
    FieldOfPadded(st.hour, 2, 1, 2, 0, 23);
    FieldOfPadded(st.minute, 2, 1, 2, 0, 59);
    FieldOfPadded(st.second, 2, 1, 2, 0, 61);
  }

  /** Six fields that each read back as a field of `st` parse to `st`. */
  lemma ParseFields(p: seq<string>, twoDigitYear: bool, maxSecond: int, st: Stamp)
    requires |p| == 6 && Split(Join(p, '_'), '_') == p && ValidStamp(st, maxSecond)
    requires twoDigitYear ==> Field(p[0], 2, 2, 0, 99).Some? && Century(Field(p[0], 2, 2, 0, 99).value) == st.year
    requires !twoDigitYear ==> Field(p[0], 4, 4, 0, 9999) == Some(st.year)
    requires Field(p[1], 1, 2, 1, 12) == Some(st.month) && Field(p[2], 1, 2, 1, 31) == Some(st.day)
    requires Field(p[3], 1, 2, 0, 23) == Some(st.hour) && Field(p[4], 1, 2, 0, 59) == Some(st.minute)
    requires Field(p[5], 1, 2, 0, 61) == Some(st.second)
    ensures ParseStamp(Join(p, '_'), twoDigitYear, maxSecond) == Some(st)
  {
  }

  /** `encode` keeps every field of a time from 1900 on: only the
    * separators change. */
  lemma EncodeKeepsFields(st: Stamp)
    requires ValidStamp(st, 61) && st.year >= 1900
    ensures Encode(Underscored(st, false)) == Some(Render(st, '-', ' '))
  {
    UnderscoredParses(st, false, 61);
  }

  /** Years 1..68 come out 2000 years later: Python 2's `strftime` reads
    * them as two-digit years. */
  lemma EncodeShiftsEarlyYears(st: Stamp)
    requires ValidStamp(st, 61) && 1 <= st.year <= 68
    ensures ValidStamp(st.(year := st.year + 2000), 61)
    ensures Encode(Underscored(st, false)) == Some(Render(st.(year := st.year + 2000), '-', ' '))
  {
    UnderscoredParses(st, false, 61);
    EncodeOfEarlyYear(Underscored(st, false), st);
  }

  /** `encode` of any text that parses to a time in years 1..68. */
  lemma EncodeOfEarlyYear(s: string, st: Stamp)
    requires ParseStamp(s, false, 61) == Some(st) && 1 <= st.year <= 68
    ensures ValidStamp(st.(year := st.year + 2000), 61)
    ensures Encode(s) == Some(Render(st.(year := st.year + 2000), '-', ' '))
  {
    assert StrftimeYear(st.year) == Some(st.year + 2000);
    ShiftKeepsStamp(st, st.year + 2000);
  }

  /** Years 100..1899 parse but cannot be written back. */
  lemma EncodeRejectsOldYears(st: Stamp)
    requires ValidStamp(st, 61) && 100 <= st.year < 1900
    ensures Encode(Underscored(st, false)).None?
  {
    UnderscoredParses(st, false, 61);
  }

  /** `encode` as its callers use it: the same time with the separators
    * changed, for every year `strptime` accepts. */
  function EncodeIntended(s: string): (r: Option<string>)
    ensures r.Some? <==> ParseStamp(s, false, 61).Some?
  {
    match ParseStamp(s, false, 61)
    case None => None
    case Some(st) => Some(Render(st, '-', ' '))
  }

  lemma EncodeIntendedKeepsFields(st: Stamp)
    requires ValidStamp(st, 61)
    ensures EncodeIntended(Underscored(st, false)) == Some(Render(st, '-', ' '))
  {
    UnderscoredParses(st, false, 61);
  }

  /** The two agree wherever `encode` keeps the year. */
  lemma EncodeAgreesFrom1900(s: string)
    requires ParseStamp(s, false, 61).Some? && ParseStamp(s, false, 61).value.year >= 1900
    ensures Encode(s) == EncodeIntended(s)
  {
  }

  /** `format_date_for_mongo` keeps every field of a time in the two-digit
    * year window. */
  lemma FormatDateKeepsFields(st: Stamp)
    requires ValidStamp(st, 59) && 1969 <= st.year <= 2068
    ensures FormatDateForMongo(Underscored(st, true)) == Some(Render(st, '-', 'T'))
  {
    UnderscoredParses(st, true, 59);
  }

  /** A leap second, which `encode` accepts, is a ValueError here. */
  lemma FormatDateRejectsLeapSecond(st: Stamp)
    requires ValidStamp(st, 61) && st.second >= 60 && 1969 <= st.year <= 2068
    ensures FormatDateForMongo(Underscored(st, true)).None?
  {
    UnderscoredParses(st, true, 61);
  }

  // ------------------------------------------------ submission-time filter

  /** `SUBMISSION_TIME` of onadata's common tags. */
  const SubmissionTime := "_submission_time"

  datatype Outcome<T> = Done(value: T) | BadRequest(message: string)

  /** The `$gte`/`$lte` range of already formatted bounds. */
  function TimeRange(gte: Option<string>, lte: Option<string>): (r: seq<(string, Value)>)
    ensures Get(r, "$gte") == (if gte.Some? then Some(Str(gte.value)) else None)
    ensures Get(r, "$lte") == (if lte.Some? then Some(Str(lte.value)) else None)
    ensures forall k :: k != "$gte" && k != "$lte" ==> !HasKey(r, k)
  {
    var r0: seq<(string, Value)> := [];
    var r1 := if gte.Some? then Put(r0, "$gte", Str(gte.value)) else r0;
    if lte.Some? then Put(r1, "$lte", Str(lte.value)) else r1
  }

  /** What `_set_submission_time_to_query` gives back: the query with its
    * `_submission_time` set to a range holding `$gte` exactly when a start is
    * given and `$lte` exactly when an end is given, every other key as it
    * was; or the 400 when a given bound is not a `YY_MM_DD_hh_mm_ss` time. */
  function SubmissionTimeQuery(query: seq<(string, Value)>, start: Option<string>, end: Option<string>)
    : (r: Outcome<seq<(string, Value)>>)
    ensures r.BadRequest? <==>
      (Given(start) && FormatDateForMongo(start.value).None?) || (Given(end) && FormatDateForMongo(end.value).None?)
    ensures r.Done? ==>
      Get(r.value, SubmissionTime) == Some(Dict(TimeRange(
        if Given(start) then FormatDateForMongo(start.value) else None,
        if Given(end) then FormatDateForMongo(end.value) else None)))
    ensures r.Done? ==> forall k :: k != SubmissionTime ==> Get(r.value, k) == Get(query, k)
  {
    var gte := if Given(start) then FormatDateForMongo(start.value) else None;
    var lte := if Given(end) then FormatDateForMongo(end.value) else None;
    if (Given(start) && gte.None?) || (Given(end) && lte.None?) then
      BadRequest("Dates must be in the format YY_MM_DD_hh_mm_ss")
    else Done(Put(query, SubmissionTime, Dict(TimeRange(gte, lte))))
  }

  /** `_set_submission_time_to_query`, step by step: the range is set to
    * `{}` first and then filled bound by bound. */
  method SetSubmissionTime(query: seq<(string, Value)>, start: Option<string>, end: Option<string>)
    returns (r: Outcome<seq<(string, Value)>>)
    ensures r == SubmissionTimeQuery(query, start, end)
  {
    var range: seq<(string, Value)> := [];
    var q := Put(query, SubmissionTime, Dict(range));
    if Given(start) {
      var f := FormatDateForMongo(start.value);
      if f.None? { return BadRequest("Dates must be in the format YY_MM_DD_hh_mm_ss"); }
      PutTwice(query, SubmissionTime, Dict(range), Dict(Put(range, "$gte", Str(f.value))));
      range := Put(range, "$gte", Str(f.value));
      q := Put(q, SubmissionTime, Dict(range));
    }
    if Given(end) {
      var f := FormatDateForMongo(end.value);
      if f.None? { return BadRequest("Dates must be in the format YY_MM_DD_hh_mm_ss"); }
      PutTwice(query, SubmissionTime, Dict(range), Dict(Put(range, "$lte", Str(f.value))));
      range := Put(range, "$lte", Str(f.value));
      q := Put(q, SubmissionTime, Dict(range));
    }
    return Done(q);
  }

  /** Setting a key twice is setting it once to the second value. */
  lemma {:induction false} PutTwice<V>(es: seq<(string, V)>, k: string, v: V, w: V)
    ensures Put(Put(es, k, v), k, w) == Put(es, k, w)
  {
    if es != [] && es[0].0 != k {
      PutTwice(es[1..], k, v, w);
      var a := Put(es, k, v);
      assert a == [es[0]] + Put(es[1..], k, v);
      assert a[1..] == Put(es[1..], k, v);
    }
  }

  // --------------------------------------------------------- data_export

  /** The export types `data_export` rewrites, as onadata's `Export` model
    * names them (that model is not part of this model). */
  const XlsExport := "xls"
  const CsvZipExport := "csv_zip"
  const SavZipExport := "sav_zip"

  /** The file extension `data_export` generates under: `xlsx` for an xls
    * export unless `?xls=true`, `zip` for the zipped csv and sav exports,
    * the export type itself otherwise. */
  function ExportExtension(exportType: string, xlsParam: Option<string>): (r: string)
    ensures r != exportType ==> exportType in {XlsExport, CsvZipExport, SavZipExport}
    ensures exportType == XlsExport ==> (r == "xlsx" <==> xlsParam != Some("true"))
    ensures exportType == CsvZipExport || exportType == SavZipExport ==> r == "zip"
  {
    var forceXlsx := xlsParam != Some("true");
    if exportType == XlsExport && forceXlsx then "xlsx"
    else if exportType == CsvZipExport || exportType == SavZipExport then "zip"
    else exportType
  }

  /** The query `data_export` passes to the export generator. `query` is
    * the parsed `query` parameter (None when absent or empty); `start` and
    * `end` are present when their keys are in the request, even empty. */
  datatype ExportQuery = NoQuery | Query(q: seq<(string, Value)>) | Crash

  /** As written: when a bound is malformed, `_set_submission_time_to_query`
    * returns the 400 response and `json.dumps` is then applied to that
    * response object, which raises TypeError. */
  function DataExportQuery(query: Option<seq<(string, Value)>>, start: Option<string>, end: Option<string>)
    : (r: ExportQuery)
    ensures start.None? && end.None? ==> r == (if query.Some? then Query(query.value) else NoQuery)
    ensures r.Crash? <==> ((start.Some? || end.Some?) &&
      SubmissionTimeQuery(if query.Some? then query.value else [], start, end).BadRequest?)
    ensures (start.Some? || end.Some?) && SubmissionTimeQuery(if query.Some? then query.value else [], start, end).Done? ==>
      r == Query(SubmissionTimeQuery(if query.Some? then query.value else [], start, end).value)
  {
    if start.None? && end.None? then (if query.Some? then Query(query.value) else NoQuery)
    else
      match SubmissionTimeQuery(if query.Some? then query.value else [], start, end)
      case BadRequest(_) => Crash
      case Done(q) => Query(q)
  }

  /** A malformed start date brings the request down instead of answering
    * 400. */
  lemma MalformedStartCrashesDataExport(start: string)
    requires start != "" && FormatDateForMongo(start).None?
    ensures DataExportQuery(None, Some(start), None) == Crash
  {
  }

  datatype ExportQueryIntended = NoQueryIntended | QueryIntended(q: seq<(string, Value)>) | Rejected(status: int)

  /** As intended: the 400 response reaches the client. */
  function DataExportQueryIntended(query: Option<seq<(string, Value)>>, start: Option<string>, end: Option<string>)
    : (r: ExportQueryIntended)
    ensures r.Rejected? ==> r.status == 400
    ensures r.Rejected? <==> DataExportQuery(query, start, end).Crash?
    ensures r.QueryIntended? <==> DataExportQuery(query, start, end).Query?
    ensures r.QueryIntended? ==> DataExportQuery(query, start, end) == Query(r.q)
  {
    match DataExportQuery(query, start, end)
    case NoQuery => NoQueryIntended
    case Query(q) => QueryIntended(q)
    case Crash => Rejected(400)
  }

  // -------------------------------------------------------- create_export

  /** The clause every export query is joined with: `_deleted_at` is
    * missing or null. */
  function NotDeleted(): Value
  {
    Dict([("$or", List([Dict([("_deleted_at", Dict([("$exists", Bool(false))]))]),
                        Dict([("_deleted_at", Null)])]))])
  }

  /** `{"$and": [query, deleted_at_query]}`. */
  function AndNotDeleted(filter: seq<(string, Value)>): Value
  {
    Dict([("$and", List([Dict(filter), NotDeleted()]))])
  }

  /** `version not in ["0", 0]`. */
  predicate VersionGiven(version: Value) { version != Str("0") && version != Int(0) }

  /** Which submissions an export reads: a project export the project
    * form's; a site form its own; a project form used at a site the
    * project form's submissions at that site. */
  function FormFilter(projectExport: bool, formKey: string, siteForm: bool, siteId: Value)
    : (r: seq<(string, Value)>)
    ensures Get(r, "fs_project_uuid") == (if projectExport || !siteForm then Some(Str(formKey)) else None)
    ensures Get(r, "fs_uuid") == (if !projectExport && siteForm then Some(Str(formKey)) else None)
    ensures Get(r, "fs_site") == (if !projectExport && !siteForm then Some(siteId) else None)
    ensures forall k :: k !in {"fs_project_uuid", "fs_uuid", "fs_site"} ==> !HasKey(r, k)
  {
    if projectExport then [("fs_project_uuid", Str(formKey))]
    else if siteForm then [("fs_uuid", Str(formKey))]
    else [("fs_project_uuid", Str(formKey)), ("fs_site", siteId)]
  }

  /** The filter of an export: the form filter, narrowed to one form
    * version unless the version is "0". */
  function ExportFilter(projectExport: bool, formKey: string, siteForm: bool, siteId: Value, version: Value)
    : (r: seq<(string, Value)>)
    ensures forall k :: k != "__version__" ==> Get(r, k) == Get(FormFilter(projectExport, formKey, siteForm, siteId), k)
    ensures Get(r, "__version__") == (if VersionGiven(version) then Some(version) else None)
  {
    var q := FormFilter(projectExport, formKey, siteForm, siteId);
    if VersionGiven(version) then Put(q, "__version__", version) else q
  }

  /** The options an export is generated with. */
  datatype ExportOptions = ExportOptions(groupDelimiter: string, splitSelectMultiples: bool,
                                         binarySelectMultiples: bool, meta: Option<string>)

  /** The options read from the POST body: the delimiter (default '/') must
    * be '.' or '/'; multiple-choice answers are split unless the "don't
    * split" option is anything but 'no'; commas are taken out of `meta`. */
  function OptionsOf(delimiter: Option<string>, dontSplit: Option<string>, meta: Option<string>, binary: bool)
    : (r: Outcome<ExportOptions>)
    ensures r.BadRequest? <==> delimiter.Some? && delimiter.value != "." && delimiter.value != "/"
    ensures r.Done? ==> r.value.groupDelimiter in {".", "/"}
    ensures r.Done? ==> (r.value.splitSelectMultiples <==> dontSplit.None? || dontSplit == Some("no"))
    ensures r.Done? ==> r.value.binarySelectMultiples == binary
    ensures r.Done? ==> (r.value.meta.Some? <==> Given(meta))
    ensures r.Done? && r.value.meta.Some? ==> (',' !in r.value.meta.value &&
      forall c :: c in meta.value && c != ',' <==> c in r.value.meta.value)
  {
    var d := if delimiter.Some? then delimiter.value else "/";
    if d != "." && d != "/" then BadRequest(d + " is not a valid delimiter")
    else
      var split := (if dontSplit.Some? then dontSplit.value else "no") == "no";
      Done(ExportOptions(d, split, binary, if Given(meta) then Some(Without(meta.value, ',')) else None))
  }

  /** What `create_export` does with a request: 403 when an external export
    * has no template, a failure when a form export names no FieldSightXF,
    * 400 for a bad delimiter, or the query and options handed to the
    * export task. */
  datatype CreateOutcome = NoTemplate | NoSuchForm | BadOptions(message: string)
                         | Queued(filter: seq<(string, Value)>, query: Value, options: ExportOptions)

  /** The POST fields `create_export` reads. */
  datatype ExportPost = ExportPost(delimiter: Option<string>, dontSplit: Option<string>, meta: Option<string>)

  const ExternalExport := "external"

  /** `is_project == 1 or is_project == '1'`, on a URL keyword argument. */
  predicate ProjectFlag(isProject: Option<string>) { isProject == Some("1") }

  /** `FieldSightXF.objects.get(pk=id)`: the form, or None when the id is
    * not a number or names no form (both raise). */
  function FormById(id: string, forms: map<int, FieldSightForm>): (r: Option<FieldSightForm>)
    ensures r.Some? <==> ParseInt(id).Some? && ParseInt(id).value in forms
  {
    match ParseInt(id)
    case None => None
    case Some(n) => if n in forms then Some(forms[n]) else None
  }

  /** `create_export`, from the template check to the options. `siteId` and
    * `version` are the URL keyword arguments, or their defaults 0 and "0". */
  method CreateExport(exportType: string, hasTemplate: bool, isProject: Option<string>, id: string,
                      siteId: Value, version: Value, forms: map<int, FieldSightForm>,
                      post: ExportPost, binarySetting: bool)
    returns (r: CreateOutcome)
    ensures exportType == ExternalExport && !hasTemplate ==> r == NoTemplate
    ensures r.NoSuchForm? <==>
      !(exportType == ExternalExport && !hasTemplate) && !ProjectFlag(isProject) && FormById(id, forms).None?
    ensures r.BadOptions? <==>
      !(exportType == ExternalExport && !hasTemplate) && (ProjectFlag(isProject) || FormById(id, forms).Some?) &&
      OptionsOf(post.delimiter, post.dontSplit, post.meta, binarySetting).BadRequest?
    ensures r.Queued? ==>
      r.filter == ExportFilter(ProjectFlag(isProject), id,
                               !ProjectFlag(isProject) && FormById(id, forms).value.site.Some?, siteId, version) &&
      r.query == AndNotDeleted(r.filter) &&
      OptionsOf(post.delimiter, post.dontSplit, post.meta, binarySetting) == Done(r.options)
  {
    if exportType == ExternalExport && !hasTemplate {
      return NoTemplate;
    }
    var query: seq<(string, Value)>;
    if ProjectFlag(isProject) {
      query := [("fs_project_uuid", Str(id))];
    } else {
      var fsxf := FormById(id, forms);
      if fsxf.None? {
        return NoSuchForm;
      }
      if fsxf.value.site.Some? {
        query := [("fs_uuid", Str(id))];
      } else {
        query := [("fs_project_uuid", Str(id)), ("fs_site", siteId)];
      }
    }
    ghost var siteForm := !ProjectFlag(isProject) && FormById(id, forms).value.site.Some?;
    assert query == FormFilter(ProjectFlag(isProject), id, siteForm, siteId);
    if VersionGiven(version) {
      query := Put(query, "__version__", version);
    }
    assert query == ExportFilter(ProjectFlag(isProject), id, siteForm, siteId, version);
    var joined := AndNotDeleted(query);
    var options := OptionsOf(post.delimiter, post.dontSplit, post.meta, binarySetting);
    if options.BadRequest? {
      return BadOptions(options.message);
    }
    return Queued(query, joined, options.value);
  }

  // ------------------------------------------------------ export_progress

  const GdocExport := "gdoc"

  datatype ExportStatus = Pending | Successful | Failed

  /** An Export row as `export_progress` reads it. */
  datatype ExportRow = ExportRow(id: int, exportType: string, status: ExportStatus,
                                 filename: Option<string>, exportUrl: Option<string>)

  /** A status URL: the download view of a file, or an address from
    * elsewhere (the Google upload). */
  datatype Link = Download(exportType: string, filename: Option<string>) | Address(url: string)

  /** One entry of the JSON list `export_progress` answers with. */
  datatype StatusEntry = StatusEntry(complete: bool, url: Option<Link>, filename: Option<string>,
                                     exportId: int, error: bool)

  /** The entry for one export, and the function-wide `url` variable after
    * it; None is the NameError of reading `url` before any assignment.
    * `uploads` holds the address `google_export_xls` returns for an export,
    * and lacks the exports whose upload raises. */
  function ProgressStep(e: ExportRow, uploads: map<int, string>, url: Option<string>)
    : (r: Option<(StatusEntry, Option<string>)>)
    ensures r.Some? ==> r.value.0.exportId == e.id
    ensures r.Some? ==> (r.value.0.complete <==> e.status != Pending)
    ensures r.Some? && e.status == Pending ==> r.value.0.url.None? && r.value.1 == url
  {
    var entry := StatusEntry(false, None, None, e.id, false);
    if e.status != Successful then
      Some((entry.(complete := e.status == Failed), url))
    else
      var entry := entry.(url := Some(Download(e.exportType, e.filename)), filename := e.filename);
      var (entry, url) :=
        if e.exportType == GdocExport && e.exportUrl.None? then
          if e.id in uploads then (entry.(url := Some(Address(uploads[e.id]))), Some(uploads[e.id]))
          else (entry.(url := None, error := true), url)
        else (entry, url);
      if e.exportType == ExternalExport && e.exportUrl.None? then
        if url.None? then None
        else Some((entry.(url := Some(Address(url.value)), complete := true), url))
      else Some((entry.(complete := true), url))
  }

  /** The statuses of `exports` in order, or None when one step raises. */
  function Progress(exports: seq<ExportRow>, uploads: map<int, string>, url: Option<string>)
    : (r: Option<seq<StatusEntry>>)
    ensures r.Some? ==> |r.value| == |exports|
    ensures r.Some? ==> forall i :: 0 <= i < |exports| ==>
      r.value[i].exportId == exports[i].id && (r.value[i].complete <==> exports[i].status != Pending)
    decreases |exports|
  {
    if exports == [] then Some([])
    else
      match ProgressStep(exports[0], uploads, url)
      case None => None
      case Some((entry, url')) =>
        match Progress(exports[1..], uploads, url')
        case None => None
        case Some(rest) => Some([entry] + rest)
  }

  /** `prefix` in front of a result that may have failed. */
  function Prepend(prefix: seq<StatusEntry>, r: Option<seq<StatusEntry>>): Option<seq<StatusEntry>>
  {
    if r.None? then None else Some(prefix + r.value)
  }

  /** The outcome of the whole loop, `json.dumps(statuses)` or the error. */
  method ExportProgress(exports: seq<ExportRow>, uploads: map<int, string>) returns (r: Option<seq<StatusEntry>>)
    ensures r == Progress(exports, uploads, None)
  {
    var statuses: seq<StatusEntry> := [];
    var url: Option<string> := None;
    var i := 0;
    PrependNothing(exports, uploads);
    while i < |exports|
      invariant 0 <= i <= |exports|
      invariant Progress(exports, uploads, None) == Prepend(statuses, Progress(exports[i..], uploads, url))
    {
      var step := ProgressStep(exports[i], uploads, url);
      ProgressCons(exports, i, uploads, url);
      if step.None? {
        return None;
      }
      var (status, url') := step.value;
      PrependAssoc(statuses, [status], Progress(exports[i + 1..], uploads, url'));
      statuses := statuses + [status];
      url := url';
      i := i + 1;
    }
    assert exports[i..] == [];
    assert statuses + [] == statuses;
    return Some(statuses);
  }

  lemma PrependNothing(exports: seq<ExportRow>, uploads: map<int, string>)
    ensures Progress(exports, uploads, None) == Prepend([], Progress(exports[0..], uploads, None))
  {
    assert exports[0..] == exports;
    var r := Progress(exports, uploads, None);
    if r.Some? { assert [] + r.value == r.value; }
  }

  /** One step of the loop: the first export's entry in front of the rest. */
  lemma ProgressCons(exports: seq<ExportRow>, i: int, uploads: map<int, string>, url: Option<string>)
    requires 0 <= i < |exports|
    ensures ProgressStep(exports[i], uploads, url).None? ==> Progress(exports[i..], uploads, url).None?
    ensures ProgressStep(exports[i], uploads, url).Some? ==>
      Progress(exports[i..], uploads, url) ==
      Prepend([ProgressStep(exports[i], uploads, url).value.0],
              Progress(exports[i + 1..], uploads, ProgressStep(exports[i], uploads, url).value.1))
  {
    var xs := exports[i..];
    assert xs[0] == exports[i] && xs[1..] == exports[i + 1..];
  }

  lemma PrependAssoc(a: seq<StatusEntry>, b: seq<StatusEntry>, r: Option<seq<StatusEntry>>)
    ensures Prepend(a, Prepend(b, r)) == Prepend(a + b, r)
  {
    if r.Some? { assert a + (b + r.value) == (a + b) + r.value; }
  }

  /** A finished external export without a stored address, with no Google
    * upload before it in the same request, raises NameError. */
  lemma ExternalExportWithoutAddressCrashes(e: ExportRow, uploads: map<int, string>)
    requires e.exportType == ExternalExport && e.exportUrl.None? && e.status == Successful
    ensures Progress([e], uploads, None).None?
  {
  }

  /** As intended: a finished external export without a stored address
    * is reported without a URL, since no address is known for it, so no
    * export makes the request fail. */
  function ProgressStepIntended(e: ExportRow, uploads: map<int, string>): (r: StatusEntry)
    ensures r.exportId == e.id && (r.complete <==> e.status != Pending)
    ensures e.status == Successful && e.exportUrl.None? && e.exportType !in {GdocExport, ExternalExport} ==>
      r.url == Some(Download(e.exportType, e.filename)) && !r.error
    ensures e.status == Successful && e.exportUrl.Some? ==>
      r.url == Some(Download(e.exportType, e.filename)) && !r.error
    ensures e.status == Successful && e.exportType == ExternalExport && e.exportUrl.None? ==>
      r.url.None? && r.filename == e.filename && !r.error
  {
    var entry := StatusEntry(false, None, None, e.id, false);
    if e.status != Successful then entry.(complete := e.status == Failed)
    else
      var entry := entry.(url := Some(Download(e.exportType, e.filename)), filename := e.filename, complete := true);
      if e.exportType == GdocExport && e.exportUrl.None? then
        if e.id in uploads then entry.(url := Some(Address(uploads[e.id])))
        else entry.(url := None, error := true)
      else if e.exportType == ExternalExport && e.exportUrl.None? then entry.(url := None)
      else entry
  }

  /** Where the written loop does not fail, it agrees with the intended one
    * on every export other than an external export without a stored
    * address. */
  lemma {:induction false} ProgressAgreesWithIntended(exports: seq<ExportRow>, uploads: map<int, string>, url: Option<string>)
    requires forall i :: 0 <= i < |exports| ==> !(exports[i].exportType == ExternalExport && exports[i].exportUrl.None?)
    ensures Progress(exports, uploads, url) == Some(Map(exports, e => ProgressStepIntended(e, uploads)))
    decreases |exports|
  {
    if exports != [] {
      var step := ProgressStep(exports[0], uploads, url);
      assert step.Some? && step.value.0 == ProgressStepIntended(exports[0], uploads);
      ProgressAgreesWithIntended(exports[1..], uploads, step.value.1);
      assert Map(exports, e => ProgressStepIntended(e, uploads)) ==
             [ProgressStepIntended(exports[0], uploads)] + Map(exports[1..], e => ProgressStepIntended(e, uploads));
    }
  }

  // --------------------------------------------------------- attachments

  /** How `attachment_url` looks an attachment up: nothing to look up, by
    * owner and file name, or by exact media path. */
  datatype AttachmentLookup = NoMediaFile | ByOwner(username: string, filename: string) | ByExactName(name: string)

  /** The `media_file` parameter against `^([^/]+)/attachments/([^/]+)$`.
    * Since `[^/]` takes a line break, the `$` before a final line break
    * changes nothing here. */
  function AttachmentQuery(mediaFile: Option<string>): (r: AttachmentLookup)
    ensures r.NoMediaFile? <==> !Given(mediaFile)
    ensures r.ByOwner? ==>
      mediaFile == Some(r.username + "/attachments/" + r.filename) &&
      r.username != "" && r.filename != "" && '/' !in r.username && '/' !in r.filename
    ensures r.ByExactName? ==> mediaFile == Some(r.name)
  {
    if !Given(mediaFile) then NoMediaFile
    else
      var p := Split(mediaFile.value, '/');
      if |p| == 3 && p[0] != "" && p[1] == "attachments" && p[2] != "" then
        ThreePieces(mediaFile.value, '/');
        assert p[0] + ['/'] + p[1] + ['/'] + p[2] == p[0] + "/attachments/" + p[2];
        ByOwner(p[0], p[2])
      else ByExactName(mediaFile.value)
  }

  /** A string that splits into three pieces is those pieces joined by the
    * separator. */
  lemma ThreePieces(s: string, c: char)
    requires |Split(s, c)| == 3
    ensures var p := Split(s, c); s == p[0] + [c] + p[1] + [c] + p[2]
  {
    var p := Split(s, c);
    JoinSplit(s, c);
    assert Join(p[2..], c) == p[2];
    assert Join(p[1..], c) == p[1] + [c] + Join(p[2..], c);
    assert Join(p, c) == p[0] + [c] + Join(p[1..], c);
  }

  /** Every owner path is read as owner and file name. */
  lemma AttachmentPathRoundTrip(username: string, filename: string)
    requires username != "" && filename != "" && '/' !in username && '/' !in filename
    ensures AttachmentQuery(Some(username + "/attachments/" + filename)) == ByOwner(username, filename)
  {
    var s := username + "/attachments/" + filename;
    var tail := "attachments/" + filename;
    SplitNone(filename, '/');
    assert '/' !in "attachments";
    SplitCons("attachments", filename, '/');
    assert tail == "attachments" + ['/'] + filename;
    SplitCons(username, tail, '/');
    assert s == username + ['/'] + tail;
    assert Split(s, '/') == [username, "attachments", filename];
  }

  // -------------------------------------------------------------- charts

  /** The parameters `charts` passes on and renders. */
  datatype ChartPage = ChartPage(langIndex: int, pageIndex: int, renderedPage: int)

  /** `lang` and `page` as `int()` reads them, a non-number becoming 0; a
    * page that parses counts from 1 and is clamped at 0. */
  function ChartParams(lang: Option<string>, page: Option<string>): (r: ChartPage)
    ensures r.pageIndex >= 0 && r.renderedPage == r.pageIndex + 1
    ensures lang.None? || ParseInt(lang.value).None? ==> r.langIndex == 0
    ensures lang.Some? && ParseInt(lang.value).Some? ==> r.langIndex == ParseInt(lang.value).value
    ensures page.None? || ParseInt(page.value).None? ==> r.pageIndex == 0
    ensures page.Some? && ParseInt(page.value).Some? ==>
      r.pageIndex == (if ParseInt(page.value).value >= 1 then ParseInt(page.value).value - 1 else 0)
  {
    var langIndex := if lang.Some? && ParseInt(lang.value).Some? then ParseInt(lang.value).value else 0;
    var pageIndex :=
      if page.None? then 0
      else match ParseInt(page.value)
        case None => 0
        case Some(p) => if p - 1 > 0 then p - 1 else 0;
    ChartPage(langIndex, pageIndex, pageIndex + 1)
  }

  /** The rendered page is the requested one, and page 1 for anything
    * below 1 or unreadable. */
  lemma RenderedPageIsRequestedPage(page: string)
    ensures ParseInt(page).Some? && ParseInt(page).value >= 1 ==>
      ChartParams(None, Some(page)).renderedPage == ParseInt(page).value
    ensures ParseInt(page).None? || ParseInt(page).value < 1 ==> ChartParams(None, Some(page)).renderedPage == 1
  {
  }
}
