/** `s3time_as_datetime` of s3yum/util.py: the S3 Last-Modified text is parsed
    with `datetime.strptime`, first as '%Y-%m-%dT%H:%M:%S.%fZ' and, if that
    fails, as '%a, %d %b %Y %H:%M:%S %Z'; if both fail an exception is raised.

    strptime is modelled as Python 2.7 implements it: the format becomes a
    case-insensitive regular expression, a blank in the format matches one or
    more whitespace characters, %a and %b match the abbreviated English names,
    %f is right-padded to six digits, and the datetime constructor then
    rejects out-of-range values (second 60 or 61, day 31 in a short month,
    year 0), which makes strptime fail too. */
module S3Time {
  import opened Wrappers
  import opened Text

  /** A naive `datetime.datetime`. */
  datatype DateTime = DateTime(year: nat, month: nat, day: nat,
                               hour: nat, minute: nat, second: nat, micro: nat)

  predicate IsLeap(y: nat) {
    y % 4 == 0 && (y % 100 != 0 || y % 400 == 0)
  }

  function DaysInMonth(y: nat, m: nat): nat {
    if m == 2 then (if IsLeap(y) then 29 else 28)
    else if m == 4 || m == 6 || m == 9 || m == 11 then 30
    else 31
  }

  /** The values the datetime constructor accepts. */
  predicate Valid(t: DateTime) {
    && 1 <= t.year <= 9999
    && 1 <= t.month <= 12
    && 1 <= t.day <= DaysInMonth(t.year, t.month)
    && t.hour < 24 && t.minute < 60 && t.second < 60
    && t.micro < 1000000
  }

  /** `a >= b` on naive datetimes: lexicographic on the fields. */
  predicate AtOrAfter(a: DateTime, b: DateTime) {
    if a.year != b.year then a.year > b.year
    else if a.month != b.month then a.month > b.month
    else if a.day != b.day then a.day > b.day
    else if a.hour != b.hour then a.hour > b.hour
    else if a.minute != b.minute then a.minute > b.minute
    else if a.second != b.second then a.second > b.second
    else a.micro >= b.micro
  }

  /** AtOrAfter is a total order: reflexive, total, antisymmetric, transitive. */
  lemma AtOrAfterTotalOrder(a: DateTime, b: DateTime, c: DateTime)
    ensures AtOrAfter(a, a)
    ensures AtOrAfter(a, b) || AtOrAfter(b, a)
    ensures AtOrAfter(a, b) && AtOrAfter(b, a) ==> a == b
    ensures AtOrAfter(a, b) && AtOrAfter(b, c) ==> AtOrAfter(a, c)
  {
  }

  // ---------------------------------------------------------------------
  // Scanning primitives
  // ---------------------------------------------------------------------

  /** A parsed field and the text after it. */
  datatype Token = Token(value: nat, rest: string)

  function Pow10(n: nat): (r: nat)
    ensures r >= 1
  {
    if n == 0 then 1 else 10 * Pow10(n - 1)
  }

  /** Length of the run of ASCII digits at the head of `s`. */
  function DigitRun(s: string): (n: nat)
    ensures n <= |s|
    ensures forall i :: 0 <= i < n ==> IsDigit(s[i])
    ensures n < |s| ==> !IsDigit(s[n])
    decreases |s|
  {
    if |s| > 0 && IsDigit(s[0]) then 1 + DigitRun(s[1..]) else 0
  }

  function DigitValue(c: char): nat {
    if IsDigit(c) then c as int - '0' as int else 0
  }

  /** The decimal value of a string of digits. */
  function Decimal(s: string): nat
    decreases |s|
  {
    if |s| == 0 then 0 else Decimal(s[..|s| - 1]) * 10 + DigitValue(s[|s| - 1])
  }

  /** A numeric strptime directive followed by a non-digit: the whole digit run
      at the head of `s`, with `minLen..maxLen` digits and a value in `lo..hi`. */
  function Field(s: string, minLen: nat, maxLen: nat, lo: nat, hi: nat): Option<Token> {
    var n := DigitRun(s);
    if minLen <= n <= maxLen && lo <= Decimal(s[..n]) <= hi then Some(Token(Decimal(s[..n]), s[n..]))
    else None
  }

  /** %d: `3[01]|[12]\d|0[1-9]|[1-9]| [1-9]`. */
  function DayField(s: string): Option<Token> {
    if |s| >= 2 && s[0] == ' ' && IsDigit(s[1]) then Field(s[1..], 1, 1, 1, 9)
    else Field(s, 1, 2, 1, 31)
  }

  /** %f: one to six digits, right-padded with zeros to microseconds. */
  function FractionField(s: string): Option<Token> {
    var n := DigitRun(s);
    if 1 <= n <= 6 then Some(Token(Decimal(s[..n]) * Pow10(6 - n), s[n..])) else None
  }

  /** A literal character of the format, matched ignoring case. */
  function Lit(s: string, c: char): Option<string> {
    if |s| > 0 && LowerChar(s[0]) == LowerChar(c) then Some(s[1..]) else None
  }

  function SpaceRun(s: string): (n: nat)
    ensures n <= |s|
    decreases |s|
  {
    if |s| > 0 && IsSpace(s[0]) then 1 + SpaceRun(s[1..]) else 0
  }

  /** A blank in the format: `\s+`. */
  function Spaces(s: string): Option<string> {
    var n := SpaceRun(s);
    if n >= 1 then Some(s[n..]) else None
  }

  function LetterRun(s: string): (n: nat)
    ensures n <= |s|
    decreases |s|
  {
    if |s| > 0 && IsLetter(s[0]) then 1 + LetterRun(s[1..]) else 0
  }

  function IndexOf(names: seq<string>, w: string): (i: nat)
    requires w in names
    ensures i < |names| && names[i] == w
    ensures forall j :: 0 <= j < i ==> names[j] != w
  {
    if names[0] == w then 0 else 1 + IndexOf(names[1..], w)
  }

  /** A name directive (%a, %b, %Z) followed by a non-letter: the letters at the
      head of `s`, lower-cased, must be one of `names`; the value is its index. */
  function NameField(s: string, names: seq<string>): Option<Token> {
    var n := LetterRun(s);
    var w := Lower(s[..n]);
    if w in names then Some(Token(IndexOf(names, w), s[n..])) else None
  }

  const WeekdayNames: seq<string> := ["mon", "tue", "wed", "thu", "fri", "sat", "sun"]
  const MonthNames: seq<string> :=
    ["jan", "feb", "mar", "apr", "may", "jun", "jul", "aug", "sep", "oct", "nov", "dec"]
  /** The zone names %Z accepts whatever the local zone is. */
  const ZoneNames: seq<string> := ["utc", "gmt"]

  // ---------------------------------------------------------------------
  // The two formats and the ordered fallback
  // ---------------------------------------------------------------------

  /** A parsed calendar date and the text after it. */
  datatype Date = Date(year: nat, month: nat, day: nat, rest: string)

  /** A parsed time of day and the text after it. */
  datatype Clock = Clock(hour: nat, minute: nat, second: nat, rest: string)

  /** '%H:%M:%S', common to both formats. */
  function ClockField(s: string): Option<Clock> {
    var h :- Field(s, 1, 2, 0, 23);
    var r1 :- Lit(h.rest, ':');
    var mi :- Field(r1, 1, 2, 0, 59);
    var r2 :- Lit(mi.rest, ':');
    var sec :- Field(r2, 1, 2, 0, 61);
    Some(Clock(h.value, mi.value, sec.value, sec.rest))
  }

  /** '%Y-%m-%d' */
  function IsoDate(s: string): Option<Date> {
    var y :- Field(s, 4, 4, 0, 9999);
    var r1 :- Lit(y.rest, '-');
    var mo :- Field(r1, 1, 2, 1, 12);
    var r2 :- Lit(mo.rest, '-');
    var d :- DayField(r2);
    Some(Date(y.value, mo.value, d.value, d.rest))
  }

  /** strptime(s, '%Y-%m-%dT%H:%M:%S.%fZ') */
  function ParseIsoForm(s: string): (r: Option<DateTime>)
    ensures r.Some? ==> Valid(r.value)
  {
    var date :- IsoDate(s);
    var r1 :- Lit(date.rest, 'T');
    var c :- ClockField(r1);
    var r2 :- Lit(c.rest, '.');
    var f :- FractionField(r2);
    var r3 :- Lit(f.rest, 'Z');
    var t := DateTime(date.year, date.month, date.day, c.hour, c.minute, c.second, f.value);
    if r3 == "" && Valid(t) then Some(t) else None
  }

  /** '%a, %d': the weekday is matched and then ignored. */
  function WeekdayAndDay(s: string): Option<Token> {
    var wd :- NameField(s, WeekdayNames);
    var r1 :- Lit(wd.rest, ',');
    var r2 :- Spaces(r1);
    DayField(r2)
  }

  /** '%b %Y', with the day left at 0. */
  function MonthAndYear(s: string): Option<Date> {
    var mo :- NameField(s, MonthNames);
    var r1 :- Spaces(mo.rest);
    var y :- Field(r1, 4, 4, 0, 9999);
    Some(Date(y.value, mo.value + 1, 0, y.rest))
  }

  /** '%a, %d %b %Y' */
  function HttpDate(s: string): Option<Date> {
    var d :- WeekdayAndDay(s);
    var r :- Spaces(d.rest);
    var my :- MonthAndYear(r);
    Some(Date(my.year, my.month, d.value, my.rest))
  }

  /** strptime(s, '%a, %d %b %Y %H:%M:%S %Z'); the zone is matched and then
      ignored (the result is naive). */
  function ParseHttpForm(s: string): (r: Option<DateTime>)
    ensures r.Some? ==> Valid(r.value)
  {
    var date :- HttpDate(s);
    var r1 :- Spaces(date.rest);
    var c :- ClockField(r1);
    var r2 :- Spaces(c.rest);
    var z :- NameField(r2, ZoneNames);
    var t := DateTime(date.year, date.month, date.day, c.hour, c.minute, c.second, 0);
    if z.rest == "" && Valid(t) then Some(t) else None
  }

  /** The exception `s3time_as_datetime` raises when neither format matches. */
  datatype TimeError = NoMatchingFormat(text: string)

  /** `s3time_as_datetime(t)` */
  function S3TimeAsDatetime(t: string): (r: Result<DateTime, TimeError>)
    ensures r.Success? ==> Valid(r.value)
    ensures r.Failure? ==> r.error == NoMatchingFormat(t)
  {
    match ParseIsoForm(t)
    case Some(d) => Success(d)
    case None =>
      match ParseHttpForm(t)
      case Some(d) => Success(d)
      case None => Failure(NoMatchingFormat(t))
  }

  // ---------------------------------------------------------------------
  // Rendering, and the round trips that pin the parser down
  // ---------------------------------------------------------------------

  function DigitChar(d: nat): char
    requires d < 10
  {
    ('0' as int + d) as char
  }

  /** `n` in exactly `w` decimal digits, zero-padded on the left. */
  function Pad(n: nat, w: nat): (r: string)
    ensures |r| == w
    ensures forall i :: 0 <= i < w ==> IsDigit(r[i])
    decreases w
  {
    if w == 0 then "" else Pad(n / 10, w - 1) + [DigitChar(n % 10)]
  }

  lemma {:induction false} PadValue(n: nat, w: nat)
    requires n < Pow10(w)
    ensures Decimal(Pad(n, w)) == n
    decreases w
  {
    if w > 0 {
      var p := Pad(n, w);
      assert p[..w - 1] == Pad(n / 10, w - 1);
      assert n / 10 < Pow10(w - 1);
      PadValue(n / 10, w - 1);
      assert DigitValue(p[w - 1]) == n % 10;
    }
  }

  lemma {:induction false} DigitRunAppend(a: string, b: string)
    requires forall i :: 0 <= i < |a| ==> IsDigit(a[i])
    ensures DigitRun(a + b) == |a| + DigitRun(b)
    decreases |a|
  {
    if |a| > 0 {
      assert (a + b)[1..] == a[1..] + b;
      DigitRunAppend(a[1..], b);
    } else {
      assert a + b == b;
    }
  }

  lemma {:induction false} LetterRunAppend(a: string, b: string)
    requires forall i :: 0 <= i < |a| ==> IsLetter(a[i])
    ensures LetterRun(a + b) == |a| + LetterRun(b)
    decreases |a|
  {
    if |a| > 0 {
      assert (a + b)[1..] == a[1..] + b;
      LetterRunAppend(a[1..], b);
    } else {
      assert a + b == b;
    }
  }

  /** A zero-padded field followed by a non-digit reads back as its value. */
  lemma FieldOfPad(n: nat, w: nat, rest: string, minLen: nat, maxLen: nat, lo: nat, hi: nat)
    requires n < Pow10(w) && minLen <= w <= maxLen && lo <= n <= hi
    requires rest == "" || !IsDigit(rest[0])
    ensures Field(Pad(n, w) + rest, minLen, maxLen, lo, hi) == Some(Token(n, rest))
  {
    var s := Pad(n, w) + rest;
    DigitRunAppend(Pad(n, w), rest);
    assert s[..w] == Pad(n, w);
    assert s[w..] == rest;
    PadValue(n, w);
  }

  /** Three fraction digits (milliseconds) read back as microseconds. */
  lemma FractionOfMillis(ms: nat, rest: string)
    requires ms < 1000
    requires rest == "" || !IsDigit(rest[0])
    ensures FractionField(Pad(ms, 3) + rest) == Some(Token(ms * 1000, rest))
  {
    var s := Pad(ms, 3) + rest;
    DigitRunAppend(Pad(ms, 3), rest);
    assert s[..3] == Pad(ms, 3);
    assert s[3..] == rest;
    PadValue(ms, 3);
  }

  lemma NameOf(word: string, rest: string, names: seq<string>)
    requires forall i :: 0 <= i < |word| ==> IsLetter(word[i])
    requires rest == "" || !IsLetter(rest[0])
    requires Lower(word) in names
    ensures NameField(word + rest, names) == Some(Token(IndexOf(names, Lower(word)), rest))
  {
    var s := word + rest;
    LetterRunAppend(word, rest);
    assert s[..|word|] == word;
    assert s[|word|..] == rest;
  }

  predicate LowerWord(w: string) {
    |w| > 0 && forall i :: 0 <= i < |w| ==> 'a' <= w[i] <= 'z'
  }

  /** A lower-case name with its first letter capitalised. */
  function Title(w: string): string
    requires |w| > 0
  {
    [if 'a' <= w[0] <= 'z' then (w[0] as int - 32) as char else w[0]] + w[1..]
  }

  lemma TitleLetters(w: string)
    requires LowerWord(w)
    ensures forall i :: 0 <= i < |Title(w)| ==> IsLetter(Title(w)[i])
    ensures Lower(Title(w)) == w
  {
    var t := Title(w);
    forall i | 0 <= i < |w| ensures IsLetter(t[i]) && Lower(t)[i] == w[i] {
      if i > 0 {
        assert t[i] == w[i];
      }
    }
  }

  lemma NamesWellFormed()
    ensures forall k :: 0 <= k < 7 ==> LowerWord(WeekdayNames[k])
    ensures forall k :: 0 <= k < 12 ==> LowerWord(MonthNames[k])
    ensures forall i, j :: 0 <= i < j < 12 ==> MonthNames[i] != MonthNames[j]
    ensures "" !in WeekdayNames
  {
  }

  lemma IndexOfDistinct(names: seq<string>, k: nat)
    requires k < |names|
    requires forall i, j :: 0 <= i < j < |names| ==> names[i] != names[j]
    ensures IndexOf(names, names[k]) == k
  {
  }

  /** '%H:%M:%S' text of `t`, followed by `tail`. */
  function ClockText(t: DateTime, tail: string): string {
    Pad(t.hour, 2) + (":" + (Pad(t.minute, 2) + (":" + (Pad(t.second, 2) + tail))))
  }

  lemma ParseClockText(t: DateTime, tail: string)
    requires Valid(t)
    requires tail == "" || !IsDigit(tail[0])
    ensures ClockField(ClockText(t, tail)) == Some(Clock(t.hour, t.minute, t.second, tail))
  {
    var s3 := Pad(t.second, 2) + tail;
    var s2 := ":" + s3;
    var s1 := Pad(t.minute, 2) + s2;
    var s0 := ":" + s1;
    assert Pow10(2) == 100;
    FieldOfPad(t.hour, 2, s0, 1, 2, 0, 23);
    assert Lit(s0, ':') == Some(s1);
    FieldOfPad(t.minute, 2, s2, 1, 2, 0, 59);
    assert Lit(s2, ':') == Some(s3);
    FieldOfPad(t.second, 2, tail, 1, 2, 0, 61);
  }

  /** '%Y-%m-%d' text of `t`, followed by `tail`. */
  function IsoDateText(t: DateTime, tail: string): string {
    Pad(t.year, 4) + ("-" + (Pad(t.month, 2) + ("-" + (Pad(t.day, 2) + tail))))
  }

  lemma ParseIsoDateText(t: DateTime, tail: string)
    requires Valid(t)
    requires tail == "" || !IsDigit(tail[0])
    ensures IsoDate(IsoDateText(t, tail)) == Some(Date(t.year, t.month, t.day, tail))
  {
    var s3 := Pad(t.day, 2) + tail;
    var s2 := "-" + s3;
    var s1 := Pad(t.month, 2) + s2;
    var s0 := "-" + s1;
    assert Pow10(2) == 100 && Pow10(4) == 10000;
    FieldOfPad(t.year, 4, s0, 4, 4, 0, 9999);
    assert Lit(s0, '-') == Some(s1);
    FieldOfPad(t.month, 2, s2, 1, 2, 1, 12);
    assert Lit(s2, '-') == Some(s3);
    FieldOfPad(t.day, 2, tail, 1, 2, 1, 31);
    assert DayField(s3) == Some(Token(t.day, tail));
  }

  /** The Last-Modified text of an S3 listing, 'YYYY-MM-DDTHH:MM:SS.mmmZ',
      followed by `tail`. */
  function IsoText(t: DateTime, tail: string): string {
    IsoDateText(t, "T" + ClockText(t, "." + (Pad(t.micro / 1000, 3) + ("Z" + tail))))
  }

  function FormatIso(t: DateTime): string {
    IsoText(t, "")
  }

  /** The ISO form reads back exactly, and any text after it is rejected. */
  lemma ParseIsoText(t: DateTime, tail: string)
    requires Valid(t) && t.micro % 1000 == 0
    ensures ParseIsoForm(IsoText(t, tail)) == if tail == "" then Some(t) else None
  {
    var z := "Z" + tail;
    var f := Pad(t.micro / 1000, 3) + z;
    var c := ClockText(t, "." + f);
    ParseIsoDateText(t, "T" + c);
    assert Lit("T" + c, 'T') == Some(c);
    ParseClockText(t, "." + f);
    assert Lit("." + f, '.') == Some(f);
    FractionOfMillis(t.micro / 1000, z);
    assert (t.micro / 1000) * 1000 == t.micro;
    assert Lit(z, 'Z') == Some(tail);
  }

  /** '%a, %d %b %Y' text of `t` with the given weekday, followed by `tail`. */
  function HttpDateText(t: DateTime, weekday: nat, tail: string): string
    requires weekday < 7 && 1 <= t.month <= 12
  {
    Title(WeekdayNames[weekday]) + (", " + (Pad(t.day, 2) + (" " +
    (Title(MonthNames[t.month - 1]) + (" " + (Pad(t.year, 4) + tail))))))
  }

  lemma ParseWeekdayAndDay(t: DateTime, weekday: nat, tail: string)
    requires Valid(t) && weekday < 7
    requires tail == "" || !IsDigit(tail[0])
    ensures WeekdayAndDay(Title(WeekdayNames[weekday]) + (", " + (Pad(t.day, 2) + tail)))
         == Some(Token(t.day, tail))
  {
    NamesWellFormed();
    var wd := Title(WeekdayNames[weekday]);
    var s2 := Pad(t.day, 2) + tail;
    var s1 := " " + s2;
    var s0 := "," + s1;
    assert ", " + s2 == s0;
    TitleLetters(WeekdayNames[weekday]);
    NameOf(wd, s0, WeekdayNames);
    assert Lit(s0, ',') == Some(s1);
    SpacesOne(s2);
    assert Pow10(2) == 100;
    FieldOfPad(t.day, 2, tail, 1, 2, 1, 31);
  }

  lemma SpacesOne(rest: string)
    requires rest == "" || !IsSpace(rest[0])
    ensures Spaces(" " + rest) == Some(rest)
  {
    assert (" " + rest)[1..] == rest;
    assert SpaceRun(rest) == 0;
    assert SpaceRun(" " + rest) == 1;
  }

  lemma MonthTitleHead(k: nat)
    requires k < 12
    ensures |Title(MonthNames[k])| > 0
    ensures IsLetter(Title(MonthNames[k])[0]) && !IsSpace(Title(MonthNames[k])[0])
  {
    NamesWellFormed();
    TitleLetters(MonthNames[k]);
  }

  lemma MonthTitleParses(k: nat, rest: string)
    requires k < 12
    requires rest == "" || !IsLetter(rest[0])
    ensures NameField(Title(MonthNames[k]) + rest, MonthNames) == Some(Token(k, rest))
  {
    NamesWellFormed();
    TitleLetters(MonthNames[k]);
    NameOf(Title(MonthNames[k]), rest, MonthNames);
    IndexOfDistinct(MonthNames, k);
  }

  lemma ParseMonthAndYear(t: DateTime, tail: string)
    requires Valid(t)
    requires tail == "" || !IsDigit(tail[0])
    ensures MonthAndYear(Title(MonthNames[t.month - 1]) + (" " + (Pad(t.year, 4) + tail)))
         == Some(Date(t.year, t.month, 0, tail))
  {
    var s1 := Pad(t.year, 4) + tail;
    var s0 := " " + s1;
    MonthTitleParses(t.month - 1, s0);
    SpacesOne(s1);
    assert Pow10(4) == 10000;
    FieldOfPad(t.year, 4, tail, 4, 4, 0, 9999);
  }

  lemma ParseHttpDateText(t: DateTime, weekday: nat, tail: string)
    requires Valid(t) && weekday < 7
    requires tail == "" || !IsDigit(tail[0])
    ensures HttpDate(HttpDateText(t, weekday, tail)) == Some(Date(t.year, t.month, t.day, tail))
  {
    var my := Title(MonthNames[t.month - 1]) + (" " + (Pad(t.year, 4) + tail));
    var s := " " + my;
    assert HttpDateText(t, weekday, tail)
        == Title(WeekdayNames[weekday]) + (", " + (Pad(t.day, 2) + s));
    MonthTitleHead(t.month - 1);
    assert my[0] == Title(MonthNames[t.month - 1])[0];
    ParseWeekdayAndDay(t, weekday, s);
    SpacesOne(my);
    ParseMonthAndYear(t, tail);
  }

  /** The IMF-fixdate form of section 7.1.1.1 of RFC 7231, as S3 sends it in
      response headers: 'Mon, 05 Jan 2015 10:20:30 GMT'. */
  function FormatHttp(t: DateTime, weekday: nat): string
    requires weekday < 7 && 1 <= t.month <= 12
  {
    HttpDateText(t, weekday, " " + ClockText(t, " GMT"))
  }

  lemma GmtZone()
    ensures NameField("GMT", ZoneNames) == Some(Token(1, ""))
  {
    assert Lower("GMT") == "gmt";
    NameOf("GMT", "", ZoneNames);
    assert "GMT" + "" == "GMT";
  }

  lemma ParseHttpText(t: DateTime, weekday: nat)
    requires Valid(t) && t.micro == 0 && weekday < 7
    ensures ParseHttpForm(FormatHttp(t, weekday)) == Some(t)
  {
    var c := ClockText(t, " GMT");
    ParseHttpDateText(t, weekday, " " + c);
    assert Pad(t.hour, 2)[0] == c[0];
    SpacesOne(c);
    ParseClockText(t, " GMT");
    SpacesOne("GMT");
    GmtZone();
  }

  /** Both accepted forms of one wall-clock value parse to that same value. */
  lemma BothFormsAgree(t: DateTime, weekday: nat)
    requires Valid(t) && t.micro == 0 && weekday < 7
    ensures S3TimeAsDatetime(FormatIso(t)) == Success(t)
    ensures S3TimeAsDatetime(FormatHttp(t, weekday)) == Success(t)
  {
    ParseIsoText(t, "");
    ParseHttpText(t, weekday);
    NamesWellFormed();
    TitleLetters(WeekdayNames[weekday]);
    IsoStartsWithDigit(FormatHttp(t, weekday));
  }

  lemma IsoStartsWithDigit(s: string)
    ensures ParseIsoForm(s).Some? ==> |s| > 0 && IsDigit(s[0])
  {
  }

  lemma NoNameWithoutLetters(s: string)
    requires LetterRun(s) == 0
    ensures NameField(s, WeekdayNames).None?
  {
    NamesWellFormed();
    assert Lower(s[..0]) == "";
  }

  lemma HttpStartsWithLetter(s: string)
    ensures ParseHttpForm(s).Some? ==> |s| > 0 && IsLetter(s[0])
  {
    if LetterRun(s) == 0 {
      NoNameWithoutLetters(s);
    }
  }

  /** No text is accepted by both formats, so the fallback order never changes
      a result: the ISO form starts with a digit, the RFC 7231 form with a letter. */
  lemma FormsDisjoint(s: string)
    ensures ParseIsoForm(s).None? || ParseHttpForm(s).None?
  {
    IsoStartsWithDigit(s);
    HttpStartsWithLetter(s);
  }

  /** Trailing text after a well-formed ISO stamp is rejected by both formats. */
  lemma TrailingTextRejected(t: DateTime, tail: string)
    requires Valid(t) && t.micro % 1000 == 0 && tail != ""
    ensures S3TimeAsDatetime(IsoText(t, tail)) == Failure(NoMatchingFormat(IsoText(t, tail)))
  {
    ParseIsoText(t, tail);
    HttpStartsWithLetter(IsoText(t, tail));
  }
}
