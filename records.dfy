/**
 * Stored advisory documents and the per-value operations both cleaning
 * pipelines apply to them: reading a field, reading a key of a nested
 * dict, str(), numeric coercion, the mean of a column, filling the gaps of
 * a column, and reading an ISO-8601 timestamp.
 */
module Records {
  import opened Wrappers

  /** A calendar date (the part of a timestamp the pipelines use). */
  datatype Date = Date(year: int, month: int, day: int)

  /** A field value of a stored document, as pandas holds it in a cell. */
  datatype Value =
    | NaN                               // the cell of a document that lacks the key
    | Null                              // an explicit None
    | Str(s: string)
    | Num(x: real)
    | Stamp(date: Date)                 // a timestamp object
    | Dict(fields: map<string, Value>)  // a nested record such as weather_info

  type Document = map<string, Value>

  /** The cell pandas builds for `key` out of one document. */
  function Field(doc: Document, key: string): (v: Value)
    ensures key in doc ==> v == doc[key]
    ensures key !in doc ==> v == NaN
  {
    if key in doc then doc[key] else NaN
  }

  /** Every key some document carries: the columns of the frame built from them. */
  function Keys(docs: seq<Document>): set<string> {
    set i, k | 0 <= i < |docs| && k in docs[i] :: k
  }

  /** The column for `key`: one cell per document, in document order. */
  function Column(docs: seq<Document>, key: string): (col: seq<Value>)
    ensures |col| == |docs|
    ensures forall i :: 0 <= i < |docs| ==> col[i] == Field(docs[i], key)
  {
    seq(|docs|, i requires 0 <= i < |docs| => Field(docs[i], key))
  }

  /** The names of `names` that are not among `keys`, in the order of `names`. */
  function MissingColumns(keys: set<string>, names: seq<string>): (r: seq<string>)
    ensures forall c :: c in r <==> c in names && c !in keys
  {
    if names == [] then []
    else (if names[0] in keys then [] else [names[0]]) + MissingColumns(keys, names[1..])
  }

  /**
   * The missing names keep the request's order: those of a longer request
   * are the missing names of its first part followed by those of the rest.
   */
  lemma {:induction false} MissingColumnsInOrder(keys: set<string>, a: seq<string>, b: seq<string>)
    ensures MissingColumns(keys, a + b) == MissingColumns(keys, a) + MissingColumns(keys, b)
  {
    if a == [] {
      assert a + b == b;
    } else {
      assert (a + b)[1..] == a[1..] + b;
      MissingColumnsInOrder(keys, a[1..], b);
    }
  }

  /** Nothing is missing exactly when every name is present. */
  lemma NoneMissing(keys: set<string>, names: seq<string>)
    ensures MissingColumns(keys, names) == [] <==> forall c :: c in names ==> c in keys
  {
    var r := MissingColumns(keys, names);
    if r != [] {
      assert r[0] in r;
    }
  }

  /** The value under `key` of a nested record; None when the cell is not a record or lacks the key. */
  function Get(container: Value, key: string): (v: Value)
    ensures !container.Dict? ==> v == Null
    ensures container.Dict? && key !in container.fields ==> v == Null
    ensures container.Dict? && key in container.fields ==> v == container.fields[key]
  {
    match container
    case Dict(fields) => if key in fields then fields[key] else Null
    case _ => Null
  }

  /** The same lookup applied to every cell of a column. */
  function Flatten(col: seq<Value>, key: string): (r: seq<Value>)
    ensures |r| == |col|
    ensures forall i :: 0 <= i < |col| ==> r[i] == Get(col[i], key)
  {
    seq(|col|, i requires 0 <= i < |col| => Get(col[i], key))
  }

  /**
   * str() of a cell: text as it is, None as "None", a missing cell as "nan";
   * the text Python prints for numbers, timestamps and dicts is `render`.
   */
  function PyStr(v: Value, render: Value -> string): (s: string)
    ensures v.Str? ==> s == v.s
    ensures v == Null ==> s == "None"
    ensures v == NaN ==> s == "nan"
  {
    match v
    case Str(s) => s
    case Null => "None"
    case NaN => "nan"
    case _ => render(v)
  }

  /** pd.to_numeric with errors="coerce": numbers stay, everything else is missing. */
  function ToNumeric(v: Value): (r: Option<real>)
    ensures r.Some? <==> v.Num?
    ensures r.Some? ==> r.value == v.x
  {
    if v.Num? then Some(v.x) else None
  }

  function Coerce(col: seq<Value>): (r: seq<Option<real>>)
    ensures |r| == |col|
    ensures forall i :: 0 <= i < |col| ==> r[i] == ToNumeric(col[i])
  {
    seq(|col|, i requires 0 <= i < |col| => ToNumeric(col[i]))
  }

  // ---------------------------------------------------------------------
  // Column statistics and gap filling

  /** Number of present values in a column. */
  function CountPresent(col: seq<Option<real>>): (n: nat)
    ensures n <= |col|
  {
    if col == [] then 0 else (if col[0].Some? then 1 else 0) + CountPresent(col[1..])
  }

  /** The present values of a column, in order (dropna). */
  function Present(col: seq<Option<real>>): (r: seq<real>)
    ensures |r| == CountPresent(col) <= |col|
    ensures |r| == 0 <==> forall i :: 0 <= i < |col| ==> col[i].None?
  {
    if col == [] then []
    else (if col[0].Some? then [col[0].value] else []) + Present(col[1..])
  }

  /** Counting the present values of a non-empty prefix starts at its first cell. */
  lemma CountPrefix(col: seq<Option<real>>, i: nat)
    requires 0 < i <= |col|
    ensures CountPresent(col[..i]) == (if col[0].Some? then 1 else 0) + CountPresent(col[1..][..i - 1])
  {
    assert col[..i][1..] == col[1..][..i - 1];
  }

  /**
   * dropna keeps every present value, in column order: the value at position
   * i lands at the number of present values before it.
   */
  lemma {:induction false} PresentPlaces(col: seq<Option<real>>)
    ensures forall i :: 0 <= i < |col| && col[i].Some? ==>
      CountPresent(col[..i]) < |Present(col)| && Present(col)[CountPresent(col[..i])] == col[i].value
  {
    if col != [] {
      var rest, r := col[1..], Present(col);
      var c0 := if col[0].Some? then 1 else 0;
      PresentPlaces(rest);
      assert r[c0..] == Present(rest);
      forall i | 0 <= i < |col| && col[i].Some?
        ensures CountPresent(col[..i]) < |r| && r[CountPresent(col[..i])] == col[i].value
      {
        if i == 0 {
          assert col[..0] == [];
        } else {
          CountPrefix(col, i);
          assert col[i] == rest[i - 1];
        }
      }
    }
  }

  /** dropna of a non-empty column: the first cell's value if present, then the rest. */
  lemma PresentCons(col: seq<Option<real>>)
    requires col != []
    ensures Present(col) == (if col[0].Some? then [col[0].value] else []) + Present(col[1..])
  {
  }

  /** dropna of a concatenation is the concatenation of the dropna results, so it keeps the column's order. */
  lemma {:induction false} PresentAppend(a: seq<Option<real>>, b: seq<Option<real>>)
    ensures Present(a + b) == Present(a) + Present(b)
  {
    if a != [] {
      var head := if a[0].Some? then [a[0].value] else [];
      assert (a + b)[0] == a[0] && (a + b)[1..] == a[1..] + b;
      PresentCons(a + b);
      PresentCons(a);
      PresentAppend(a[1..], b);
      assert head + (Present(a[1..]) + Present(b)) == (head + Present(a[1..])) + Present(b);
    } else {
      assert a + b == b;
    }
  }

  /** dropna keeps exactly the present values: a value is in the result iff some cell holds it. */
  lemma {:induction false} PresentMembers(col: seq<Option<real>>)
    ensures forall x :: x in Present(col) <==> exists i :: 0 <= i < |col| && col[i] == Some(x)
  {
    if col != [] {
      var rest := col[1..];
      PresentMembers(rest);
      assert Present(col) == (if col[0].Some? then [col[0].value] else []) + Present(rest);
      forall x | x in Present(col)
        ensures exists i :: 0 <= i < |col| && col[i] == Some(x)
      {
        if col[0] != Some(x) {
          assert x in Present(rest);
          var k :| 0 <= k < |rest| && rest[k] == Some(x);
          assert col[k + 1] == Some(x);
        }
      }
      forall x, i | 0 <= i < |col| && col[i] == Some(x)
        ensures x in Present(col)
      {
        if i > 0 {
          assert rest[i - 1] == Some(x);
        }
      }
    }
  }

  function Sum(xs: seq<real>): real {
    if xs == [] then 0.0 else xs[0] + Sum(xs[1..])
  }

  lemma SumCons(x: real, xs: seq<real>)
    ensures Sum([x] + xs) == x + Sum(xs)
  {
    assert ([x] + xs)[1..] == xs;
  }

  /** The arithmetic mean, a fold over the values. */
  function Mean(xs: seq<real>): real
    requires |xs| > 0
  {
    Sum(xs) / |xs| as real
  }

  /** fillna(fill): every missing value replaced by `fill`, every present one kept. */
  function FillMissing(col: seq<Option<real>>, fill: real): (r: seq<real>)
    ensures |r| == |col|
    ensures forall i :: 0 <= i < |col| && col[i].Some? ==> r[i] == col[i].value
    ensures forall i :: 0 <= i < |col| && col[i].None? ==> r[i] == fill
  {
    if col == [] then [] else [col[0].GetOr(fill)] + FillMissing(col[1..], fill)
  }

  /** Number of missing values in a column. */
  function Gaps(col: seq<Option<real>>): nat {
    |col| - CountPresent(col)
  }

  /** `x` added up `n` times. */
  function Times(n: nat, x: real): real {
    if n == 0 then 0.0 else x + Times(n - 1, x)
  }

  lemma {:induction false} TimesIsProduct(n: nat, x: real)
    ensures Times(n, x) == n as real * x
  {
    if n > 0 {
      TimesIsProduct(n - 1, x);
      var g := (n - 1) as real;
      assert n as real == g + 1.0;
      assert (g + 1.0) * x == g * x + x;
    }
  }

  /** Filling adds `fill` once per gap to the sum of the present values. */
  lemma {:induction false} SumFillMissing(col: seq<Option<real>>, fill: real)
    ensures Sum(FillMissing(col, fill)) == Sum(Present(col)) + Times(Gaps(col), fill)
  {
    if col != [] {
      SumFillMissing(col[1..], fill);
      FillStep(col, fill);
    }
  }

  /** One cell of the induction: the first cell adds to the filled sum what it adds to the present sum or to the gaps. */
  lemma FillStep(col: seq<Option<real>>, fill: real)
    requires col != []
    ensures Sum(FillMissing(col, fill)) == col[0].GetOr(fill) + Sum(FillMissing(col[1..], fill))
    ensures Sum(Present(col)) == (if col[0].Some? then col[0].value else 0.0) + Sum(Present(col[1..]))
    ensures Times(Gaps(col), fill) == (if col[0].Some? then 0.0 else fill) + Times(Gaps(col[1..]), fill)
  {
    SumCons(col[0].GetOr(fill), FillMissing(col[1..], fill));
    PresentStep(col);
    GapsStep(col, fill);
  }

  lemma PresentStep(col: seq<Option<real>>)
    requires col != []
    ensures Sum(Present(col)) == (if col[0].Some? then col[0].value else 0.0) + Sum(Present(col[1..]))
  {
    if col[0].Some? {
      SumCons(col[0].value, Present(col[1..]));
    } else {
      assert Present(col) == Present(col[1..]);
    }
  }

  lemma GapsStep(col: seq<Option<real>>, fill: real)
    requires col != []
    ensures Times(Gaps(col), fill) == (if col[0].Some? then 0.0 else fill) + Times(Gaps(col[1..]), fill)
  {
    if col[0].None? {
      assert Gaps(col) == Gaps(col[1..]) + 1;
    }
  }

  /** Adding g copies of the mean m of k values to their sum s keeps the quotient at m. */
  lemma MeanStep(f: real, s: real, k: real, g: nat, n: real, m: real)
    requires k > 0.0 && n == k + g as real && m == s / k && f == s + Times(g, m)
    ensures f / n == m
  {
    TimesIsProduct(g, m);
    assert s == k * m;
    assert f == n * m;
  }

  /** The arithmetic behind mean imputation: adding `g` copies of the mean keeps the mean. */
  lemma MeanOfFilled(filled: seq<real>, present: seq<real>, g: nat)
    requires |present| > 0 && |filled| == |present| + g
    requires Sum(filled) == Sum(present) + Times(g, Mean(present))
    ensures Mean(filled) == Mean(present)
  {
    MeanStep(Sum(filled), Sum(present), |present| as real, g, |filled| as real, Mean(present));
  }

  /**
   * Filling the gaps with the mean of the present values leaves the mean of
   * the column unchanged.
   */
  lemma FillWithMeanKeepsMean(col: seq<Option<real>>)
    requires |Present(col)| > 0
    ensures |FillMissing(col, Mean(Present(col)))| > 0
    ensures Mean(FillMissing(col, Mean(Present(col)))) == Mean(Present(col))
  {
    var p := Present(col);
    SumFillMissing(col, Mean(p));
    MeanOfFilled(FillMissing(col, Mean(p)), p, Gaps(col));
  }

  // ---------------------------------------------------------------------
  // ISO-8601 timestamps

  predicate IsDigit(c: char) { '0' <= c <= '9' }

  function DigitValue(c: char): (d: int)
    requires IsDigit(c)
    ensures 0 <= d <= 9
  {
    c as int - '0' as int
  }

  function DigitChar(d: int): (c: char)
    requires 0 <= d <= 9
    ensures IsDigit(c) && DigitValue(c) == d
  {
    ('0' as int + d) as char
  }

  predicate IsLeapYear(y: int) {
    y % 4 == 0 && (y % 100 != 0 || y % 400 == 0)
  }

  function DaysInMonth(y: int, m: int): (n: int)
    ensures 28 <= n <= 31
  {
    if m == 2 then (if IsLeapYear(y) then 29 else 28)
    else if m == 4 || m == 6 || m == 9 || m == 11 then 30
    else 31
  }

  /** A date of the proleptic Gregorian calendar with a four-digit year. */
  predicate ValidDate(d: Date) {
    1 <= d.year <= 9999 && 1 <= d.month <= 12 && 1 <= d.day <= DaysInMonth(d.year, d.month)
  }

  /** `d` falls on or after the day y-m-dd. */
  predicate OnOrAfter(d: Date, y: int, m: int, dd: int) {
    d.year > y || (d.year == y && (d.month > m || (d.month == m && d.day >= dd)))
  }

  /**
   * The dates a pandas nanosecond Timestamp can hold: 1677-09-21 00:12:43
   * to 2262-04-11 23:47:16. A date stands for its midnight, so the first
   * boundary day is outside and the last one inside.
   */
  predicate InTimestampRange(d: Date) {
    OnOrAfter(d, 1677, 9, 22) && !OnOrAfter(d, 2262, 4, 12)
  }

  /** Two digits at `i` and `i + 1` that read as a number no greater than `hi`. */
  predicate TwoDigitsAt(t: string, i: nat, hi: int) {
    i + 1 < |t| && IsDigit(t[i]) && IsDigit(t[i + 1]) && 10 * DigitValue(t[i]) + DigitValue(t[i + 1]) <= hi
  }

  /**
   * A time of day as an ISO-8601 timestamp writes it: "HH:MM", "HH:MM:SS" or
   * "HH:MM:SS." followed by one to nine digits of a second, with the hour at
   * most 23 and the minute and second at most 59.
   */
  predicate IsoTime(t: string) {
    |t| >= 5 && TwoDigitsAt(t, 0, 23) && t[2] == ':' && TwoDigitsAt(t, 3, 59)
    && (|t| == 5
        || (|t| >= 8 && t[5] == ':' && TwoDigitsAt(t, 6, 59)
            && (|t| == 8
                || (10 <= |t| <= 18 && t[8] == '.' && forall i :: 9 <= i < |t| ==> IsDigit(t[i])))))
  }

  /**
   * "YYYY-MM-DD" with digits in the eight digit places, alone or followed by
   * 'T' or ' ' and a time of day.
   */
  predicate IsoShaped(s: string) {
    |s| >= 10 && s[4] == '-' && s[7] == '-'
    && IsDigit(s[0]) && IsDigit(s[1]) && IsDigit(s[2]) && IsDigit(s[3])
    && IsDigit(s[5]) && IsDigit(s[6]) && IsDigit(s[8]) && IsDigit(s[9])
    && (|s| == 10 || ((s[10] == 'T' || s[10] == ' ') && IsoTime(s[11..])))
  }

  /**
   * Reads "YYYY-MM-DD", alone or followed by 'T' or ' ' and a time of day,
   * into a Timestamp: year, month and day are the digits at positions 0-3,
   * 5-6 and 8-9. None for anything else (a malformed time included), for
   * impossible dates and for dates outside the Timestamp range.
   */
  function ParseIsoDate(s: string): (r: Option<Date>)
    ensures r.Some? ==> ValidDate(r.value) && InTimestampRange(r.value)
    ensures r.Some? ==> IsoShaped(s)
    ensures r.Some? ==> r.value.year == 1000 * DigitValue(s[0]) + 100 * DigitValue(s[1]) + 10 * DigitValue(s[2]) + DigitValue(s[3])
    ensures r.Some? ==> r.value.month == 10 * DigitValue(s[5]) + DigitValue(s[6])
    ensures r.Some? ==> r.value.day == 10 * DigitValue(s[8]) + DigitValue(s[9])
    ensures r.None? && IsoShaped(s) ==>
      var d := Date(1000 * DigitValue(s[0]) + 100 * DigitValue(s[1]) + 10 * DigitValue(s[2]) + DigitValue(s[3]),
                    10 * DigitValue(s[5]) + DigitValue(s[6]), 10 * DigitValue(s[8]) + DigitValue(s[9]));
      !(ValidDate(d) && InTimestampRange(d))
  {
    if !IsoShaped(s) then None
    else
      var d := Date(
        1000 * DigitValue(s[0]) + 100 * DigitValue(s[1]) + 10 * DigitValue(s[2]) + DigitValue(s[3]),
        10 * DigitValue(s[5]) + DigitValue(s[6]),
        10 * DigitValue(s[8]) + DigitValue(s[9]));
      if ValidDate(d) && InTimestampRange(d) then Some(d) else None
  }

  /** The time of day of a naive datetime. */
  datatype Clock = Clock(hour: int, minute: int, second: int, micro: int)

  predicate ValidClock(c: Clock) {
    0 <= c.hour <= 23 && 0 <= c.minute <= 59 && 0 <= c.second <= 59 && 0 <= c.micro <= 999999
  }

  /** Two decimal digits of `n`. */
  function TwoDigits(n: int): (t: string)
    requires 0 <= n <= 99
    ensures |t| == 2 && TwoDigitsAt(t, 0, n)
  {
    [DigitChar(n / 10), DigitChar(n % 10)]
  }

  /**
   * time.isoformat() of a naive time: "HH:MM:SS", and ".ffffff" after it
   * when the microsecond is not zero.
   */
  function ClockText(c: Clock): (t: string)
    requires ValidClock(c)
    ensures IsoTime(t)
    ensures |t| == (if c.micro == 0 then 8 else 15)
  {
    var hms := TwoDigits(c.hour) + ":" + TwoDigits(c.minute) + ":" + TwoDigits(c.second);
    assert TwoDigitsAt(hms, 3, c.minute) by { assert hms[3..5] == TwoDigits(c.minute); }
    assert TwoDigitsAt(hms, 6, c.second) by { assert hms[6..8] == TwoDigits(c.second); }
    if c.micro == 0 then hms
    else
      var frac := TwoDigits(c.micro / 10000) + TwoDigits(c.micro / 100 % 100) + TwoDigits(c.micro % 100);
      var t := hms + "." + frac;
      assert forall i :: 9 <= i < |t| ==> t[i] == frac[i - 9];
      t
  }

  lemma Digits(y: int)
    requires 0 <= y <= 9999
    ensures y == 1000 * (y / 1000) + 100 * (y / 100 % 10) + 10 * (y / 10 % 10) + y % 10
  {
    assert y / 10 / 10 == y / 100;
    assert y / 100 / 10 == y / 1000;
  }

  /** date.isoformat(): "YYYY-MM-DD", whose digit places read back as the date. */
  function DateText(d: Date): (t: string)
    requires ValidDate(d)
    ensures |t| == 10 && t[4] == '-' && t[7] == '-'
    ensures IsDigit(t[0]) && IsDigit(t[1]) && IsDigit(t[2]) && IsDigit(t[3])
    ensures IsDigit(t[5]) && IsDigit(t[6]) && IsDigit(t[8]) && IsDigit(t[9])
    ensures d.year == 1000 * DigitValue(t[0]) + 100 * DigitValue(t[1]) + 10 * DigitValue(t[2]) + DigitValue(t[3])
    ensures d.month == 10 * DigitValue(t[5]) + DigitValue(t[6])
    ensures d.day == 10 * DigitValue(t[8]) + DigitValue(t[9])
  {
    Digits(d.year);
    [DigitChar(d.year / 1000), DigitChar(d.year / 100 % 10), DigitChar(d.year / 10 % 10), DigitChar(d.year % 10),
     '-', DigitChar(d.month / 10), DigitChar(d.month % 10),
     '-', DigitChar(d.day / 10), DigitChar(d.day % 10)]
  }

  /** datetime.isoformat() of a naive timestamp: the date, 'T' and the time of day. */
  function IsoFormat(d: Date, c: Clock): (s: string)
    requires ValidDate(d) && ValidClock(c)
    ensures |s| == 11 + |ClockText(c)| && s[..10] == DateText(d) && s[10] == 'T' && s[11..] == ClockText(c)
    ensures IsoShaped(s)
  {
    DateText(d) + ['T'] + ClockText(c)
  }

  /** A date text, a separator and a time of day make an ISO-shaped string that reads as the date. */
  lemma ReadsJoined(t: string, sep: char, u: string, d: Date)
    requires |t| == 10 && t[4] == '-' && t[7] == '-'
    requires IsDigit(t[0]) && IsDigit(t[1]) && IsDigit(t[2]) && IsDigit(t[3])
    requires IsDigit(t[5]) && IsDigit(t[6]) && IsDigit(t[8]) && IsDigit(t[9])
    requires d.year == 1000 * DigitValue(t[0]) + 100 * DigitValue(t[1]) + 10 * DigitValue(t[2]) + DigitValue(t[3])
    requires d.month == 10 * DigitValue(t[5]) + DigitValue(t[6])
    requires d.day == 10 * DigitValue(t[8]) + DigitValue(t[9])
    requires ValidDate(d) && InTimestampRange(d)
    requires (sep == 'T' || sep == ' ') && IsoTime(u)
    ensures ParseIsoDate(t + [sep] + u) == Some(d)
  {
    var s := t + [sep] + u;
    assert s[11..] == u;
    assert forall i :: 0 <= i < 10 ==> s[i] == t[i];
    assert IsoShaped(s);
  }

  /** Reading back what the advisory writer stamps into created_at gives the same date. */
  lemma ParseIsoFormat(d: Date, c: Clock)
    requires ValidDate(d) && InTimestampRange(d) && ValidClock(c)
    ensures ParseIsoDate(IsoFormat(d, c)) == Some(d)
  {
    ReadsJoined(DateText(d), 'T', ClockText(c), d);
  }

  /** pd.to_datetime on one cell with errors="coerce": None is NaT. */
  function ToDatetime(v: Value): (r: Option<Date>)
    ensures r.Some? ==> ValidDate(r.value) || v.Stamp?
    ensures v.Stamp? ==> r == Some(v.date)
    ensures v.Str? ==> r == ParseIsoDate(v.s)
    ensures !v.Stamp? && !v.Str? ==> r.None?
  {
    match v
    case Str(s) => ParseIsoDate(s)
    case Stamp(d) => Some(d)
    case _ => None
  }
}
