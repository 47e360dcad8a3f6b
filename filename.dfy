/**
 * Turning a `YYYY-MM-DD` date string into the path of the daily GLDAS file
 * (`get_gldas_filename`). Parsing follows the regular expressions CPython's
 * `datetime.strptime` builds for the format "%Y-%m-%d"; a string it rejects
 * raises `ValueError`, modelled as `None`.
 */
module GldasFilename {
  import opened Outcomes

  datatype Date = Date(year: nat, month: nat, day: nat)

  predicate IsDigit(c: char) { '0' <= c <= '9' }

  predicate AllDigits(s: string) { forall i :: 0 <= i < |s| ==> IsDigit(s[i]) }

  function DigitValue(c: char): nat
    requires IsDigit(c)
  {
    c as int - '0' as int
  }

  function DigitChar(n: nat): (c: char)
    requires n < 10
    ensures IsDigit(c) && DigitValue(c) == n
  {
    ('0' as int + n) as char
  }

  /** The number a string of decimal digits denotes. */
  function DecimalValue(s: string): nat
    requires AllDigits(s)
  {
    if s == [] then 0 else DecimalValue(s[..|s| - 1]) * 10 + DigitValue(s[|s| - 1])
  }

  function Pow10(w: nat): (p: nat)
    ensures p >= 1
  {
    if w == 0 then 1 else 10 * Pow10(w - 1)
  }

  /**
   * The last `w` decimal digits of `n`, zero-padded: what strftime's %m and
   * %d (w = 2) print, and %Y (w = 4) on platforms that pad the year to four
   * digits.
   */
  function Padded(n: nat, w: nat): (s: string)
    ensures |s| == w && AllDigits(s)
  {
    if w == 0 then "" else Padded(n / 10, w - 1) + [DigitChar(n % 10)]
  }

  predicate IsLeapYear(y: nat) { y % 4 == 0 && (y % 100 != 0 || y % 400 == 0) }

  function DaysInMonth(y: nat, m: nat): nat
    requires 1 <= m <= 12
  {
    if m == 2 then (if IsLeapYear(y) then 29 else 28)
    else if m == 4 || m == 6 || m == 9 || m == 11 then 30
    else 31
  }

  /** A date `datetime` can represent: years 1 to 9999 and a day that exists in its month. */
  predicate ValidDate(d: Date)
  {
    1 <= d.year <= 9999 && 1 <= d.month <= 12 && 1 <= d.day <= DaysInMonth(d.year, d.month)
  }

  /**
   * The %m directive (1[0-2], 0[1-9] or [1-9]) followed by the literal '-':
   * the month and what follows the dash. The dash decides which alternative
   * matches, since a digit after the first one excludes the single-digit form.
   */
  function ParseMonth(s: string): (r: Option<(nat, string)>)
    ensures r.Some? ==> 1 <= r.value.0 <= 12
  {
    if |s| >= 3 && s[2] == '-' && ((s[0] == '1' && '0' <= s[1] <= '2') || (s[0] == '0' && '1' <= s[1] <= '9')) then
      Some((DigitValue(s[0]) * 10 + DigitValue(s[1]), s[3..]))
    else if |s| >= 2 && s[1] == '-' && '1' <= s[0] <= '9' then
      Some((DigitValue(s[0]), s[2..]))
    else
      None
  }

  /**
   * The %d directive: the first of 3[01], [12][0-9], 0[1-9], [1-9] and ' '[1-9]
   * that matches, giving the day and the number of characters it consumed.
   */
  function MatchDay(s: string): (r: Option<(nat, nat)>)
    ensures r.Some? ==> 1 <= r.value.0 <= 31 && 1 <= r.value.1 <= 2 && r.value.1 <= |s|
  {
    if |s| >= 2 && s[0] == '3' && (s[1] == '0' || s[1] == '1') then Some((30 + DigitValue(s[1]), 2))
    else if |s| >= 2 && (s[0] == '1' || s[0] == '2') && IsDigit(s[1]) then Some((DigitValue(s[0]) * 10 + DigitValue(s[1]), 2))
    else if |s| >= 2 && s[0] == '0' && '1' <= s[1] <= '9' then Some((DigitValue(s[1]), 2))
    else if |s| >= 1 && '1' <= s[0] <= '9' then Some((DigitValue(s[0]), 1))
    else if |s| >= 2 && s[0] == ' ' && '1' <= s[1] <= '9' then Some((DigitValue(s[1]), 2))
    else None
  }

  /** `datetime.strptime(s, "%Y-%m-%d")`: `None` where it raises `ValueError`. */
  function ParseDate(s: string): (r: Option<Date>)
    ensures r.Some? ==> ValidDate(r.value)
  {
    if |s| < 5 || !AllDigits(s[..4]) || s[4] != '-' then None
    else
      match ParseMonth(s[5..])
      case None => None
      case Some((month, rest)) =>
        match MatchDay(rest)
        case None => None
        case Some((day, used)) =>
          // whatever follows the day is "unconverted data"
          if used != |rest| then None
          else
            var d := Date(DecimalValue(s[..4]), month, day);
            if ValidDate(d) then Some(d) else None
  }

  const FilePrefix: string := "GLDAS_CLSM025_DA1_D."
  const FileSuffix: string := ".022.nc4"

  /** The three pieces of a concatenation, recovered by slicing. */
  lemma Pieces(a: string, b: string, c: string)
    ensures (a + b + c)[..|a|] == a && (a + b + c)[|a|..|a| + |b|] == b && (a + b + c)[|a| + |b|..] == c
  {
  }

  /** `dt.strftime("A%Y%m%d")`: an `A` and eight digits that read back as year, month and day. */
  function DatePart(d: Date): (p: string)
    ensures |p| == 9 && p[0] == 'A' && AllDigits(p[1..5]) && AllDigits(p[5..7]) && AllDigits(p[7..])
    ensures ValidDate(d) ==>
      DecimalValue(p[1..5]) == d.year && DecimalValue(p[5..7]) == d.month && DecimalValue(p[7..]) == d.day
  {
    var y, m, dd := Padded(d.year, 4), Padded(d.month, 2), Padded(d.day, 2);
    Pieces("A" + y, m, dd);
    Pieces("A", y, m + dd);
    assert "A" + y + m + dd == "A" + y + (m + dd);
    assert ValidDate(d) ==> DecimalValue(y) == d.year && DecimalValue(m) == d.month && DecimalValue(dd) == d.day by {
      if ValidDate(d) {
        assert Pow10(2) == 100 && Pow10(4) == 10000;
        PaddedValue(d.year, 4);
        PaddedValue(d.month, 2);
        PaddedValue(d.day, 2);
      }
    }
    "A" + y + m + dd
  }

  /** Line 13: the fixed prefix, the date part, the fixed suffix; every file name has the same length. */
  function FileName(d: Date): (f: string)
    ensures |f| == |FilePrefix| + 9 + |FileSuffix|
  {
    FilePrefix + DatePart(d) + FileSuffix
  }

  /** The prefix, the date part and the suffix sit at fixed positions of every file name. */
  lemma FileNameLayout(d: Date)
    ensures var f := FileName(d);
      f[..|FilePrefix|] == FilePrefix && f[|FilePrefix| + 9..] == FileSuffix &&
      f[|FilePrefix|..|FilePrefix| + 9] == DatePart(d)
  {
    Pieces(FilePrefix, DatePart(d), FileSuffix);
  }

  /** `os.path.join(root, name)` with POSIX separators. */
  function JoinPath(root: string, name: string): (p: string)
    ensures |name| <= |p| && p[|p| - |name|..] == name
    ensures |name| > 0 && name[0] != '/' ==>
      p == (if root == [] || root[|root| - 1] == '/' then root + name else root + "/" + name)
  {
    if |name| > 0 && name[0] == '/' then name
    else if root == [] || root[|root| - 1] == '/' then root + name
    else root + "/" + name
  }

  /** `get_gldas_filename(root_dir, date_str)`; `None` where strptime raises. */
  function GetGldasFilename(root: string, date: string): (r: Option<string>)
    ensures r.Some? <==> ParseDate(date).Some?
  {
    match ParseDate(date)
    case None => None
    case Some(d) => Some(JoinPath(root, FileName(d)))
  }

  /** The four-digit year, the dash, two-digit month, dash, two-digit day form. */
  predicate IsCanonical(s: string)
  {
    |s| == 10 && AllDigits(s[..4]) && s[4] == '-' && AllDigits(s[5..7]) && s[7] == '-' && AllDigits(s[8..])
  }

  /** The fields a canonical date string spells, before any calendar check. */
  function FieldsOf(s: string): Date
    requires IsCanonical(s)
  {
    Date(DecimalValue(s[..4]), DecimalValue(s[5..7]), DecimalValue(s[8..]))
  }

  function CanonicalDate(d: Date): string
  {
    Padded(d.year, 4) + "-" + Padded(d.month, 2) + "-" + Padded(d.day, 2)
  }

  lemma {:induction false} PaddedValue(n: nat, w: nat)
    requires n < Pow10(w)
    ensures DecimalValue(Padded(n, w)) == n
  {
    if w > 0 {
      var s, init := Padded(n, w), Padded(n / 10, w - 1);
      assert s == init + [DigitChar(n % 10)];
      assert s[..w - 1] == init && s[w - 1] == DigitChar(n % 10);
      assert n / 10 < Pow10(w - 1);
      PaddedValue(n / 10, w - 1);
      assert DecimalValue(s) == DecimalValue(init) * 10 + n % 10;
    }
  }

  lemma {:induction false} PaddedOfDigits(t: string)
    requires AllDigits(t)
    ensures Padded(DecimalValue(t), |t|) == t
  {
    if t != [] {
      var init := t[..|t| - 1];
      assert AllDigits(init);
      PaddedOfDigits(init);
      var v := DecimalValue(t);
      assert v / 10 == DecimalValue(init) && v % 10 == DigitValue(t[|t| - 1]);
      assert t == init + [t[|t| - 1]];
    }
  }

  lemma TwoDigits(t: string)
    requires |t| == 2 && AllDigits(t)
    ensures DecimalValue(t) == DigitValue(t[0]) * 10 + DigitValue(t[1])
  {
    var init := t[..1];
    assert init[..0] == [];
    assert DecimalValue(init) == DigitValue(t[0]);
    assert t[..|t| - 1] == init;
  }

  lemma FourDigits(t: string)
    requires |t| == 4 && AllDigits(t)
    ensures DecimalValue(t) == ((DigitValue(t[0]) * 10 + DigitValue(t[1])) * 10 + DigitValue(t[2])) * 10 + DigitValue(t[3])
  {
    assert t[..3][..2] == t[..2];
    TwoDigits(t[..2]);
  }

  /** strptime reads a canonical string as exactly the fields it spells, and accepts it iff those fields form a real date. */
  lemma ParseCanonical(s: string)
    requires IsCanonical(s)
    ensures ParseDate(s).Some? <==> ValidDate(FieldsOf(s))
    ensures ParseDate(s).Some? ==> ParseDate(s).value == FieldsOf(s)
  {
    var f := FieldsOf(s);
    TwoDigits(s[5..7]);
    TwoDigits(s[8..]);
    assert s[5..][..2] == s[5..7] && s[5..][3..] == s[8..];
    if ValidDate(f) {
      assert ParseMonth(s[5..]) == Some((f.month, s[8..]));
      assert MatchDay(s[8..]) == Some((f.day, 2));
    }
  }

  /**
   * For a canonical date string the file is the root joined with
   * "GLDAS_CLSM025_DA1_D.A" + YYYY + MM + DD + ".022.nc4": the input with its dashes removed.
   */
  lemma FilenameOfCanonical(root: string, s: string)
    requires IsCanonical(s) && ValidDate(FieldsOf(s))
    ensures GetGldasFilename(root, s) == Some(JoinPath(root, "GLDAS_CLSM025_DA1_D.A" + s[..4] + s[5..7] + s[8..] + ".022.nc4"))
  {
    ParseCanonical(s);
    var d := FieldsOf(s);
    PaddedOfDigits(s[..4]);
    PaddedOfDigits(s[5..7]);
    PaddedOfDigits(s[8..]);
    assert DatePart(d) == "A" + s[..4] + s[5..7] + s[8..];
    assert FileName(d) == "GLDAS_CLSM025_DA1_D.A" + s[..4] + s[5..7] + s[8..] + ".022.nc4";
    assert ParseDate(s) == Some(d);
  }

  /** Every valid date, written in canonical form, is read back as itself. */
  lemma ParseOfCanonicalDate(d: Date)
    requires ValidDate(d)
    ensures IsCanonical(CanonicalDate(d)) && ParseDate(CanonicalDate(d)) == Some(d)
  {
    var s := CanonicalDate(d);
    assert s[..4] == Padded(d.year, 4) && s[5..7] == Padded(d.month, 2) && s[8..] == Padded(d.day, 2);
    PaddedValue(d.year, 4);
    PaddedValue(d.month, 2);
    PaddedValue(d.day, 2);
    ParseCanonical(s);
  }

  /** Distinct valid dates name distinct files. */
  lemma FileNameInjective(d1: Date, d2: Date)
    requires ValidDate(d1) && ValidDate(d2) && FileName(d1) == FileName(d2)
    ensures d1 == d2
  {
    FileNameLayout(d1);
    FileNameLayout(d2);
    assert DatePart(d1) == DatePart(d2);
  }

  lemma YearDigits2020()
    ensures AllDigits("2020") && DecimalValue("2020") == 2020
  {
    FourDigits("2020");
  }

  lemma ParseUnpadded()
    ensures ParseDate("2020-6-4") == Some(Date(2020, 6, 4))
  {
    var s := "2020-6-4";
    assert s[..4] == "2020" && s[4] == '-' && s[5..] == "6-4";
    YearDigits2020();
    assert ParseMonth("6-4") == Some((6, "4"));
    assert MatchDay("4") == Some((4, 1));
  }

  lemma ParsePadded()
    ensures ParseDate("2020-06-04") == Some(Date(2020, 6, 4))
  {
    var s := "2020-06-04";
    assert s[..4] == "2020" && s[4] == '-' && s[5..] == "06-04";
    YearDigits2020();
    assert ParseMonth("06-04") == Some((6, "04"));
    assert MatchDay("04") == Some((4, 2));
  }

  lemma PaddedExamples()
    ensures Padded(2020, 4) == "2020" && Padded(6, 2) == "06" && Padded(4, 2) == "04"
  {
    assert Padded(2, 1) == "2";
    assert Padded(20, 2) == "20";
    assert Padded(202, 3) == "202";
    assert Padded(0, 1) == "0";
  }

  lemma DatePartExample()
    ensures DatePart(Date(2020, 6, 4)) == "A20200604"
  {
    PaddedExamples();
    assert DatePart(Date(2020, 6, 4)) == "A" + Padded(2020, 4) + Padded(6, 2) + Padded(4, 2);
  }

  /** strptime's %m and %d also accept unpadded fields, so "2020-6-4" names the same file as "2020-06-04". */
  lemma UnpaddedDateSameFile(root: string)
    ensures GetGldasFilename(root, "2020-6-4") == GetGldasFilename(root, "2020-06-04")
    ensures GetGldasFilename(root, "2020-06-04") == Some(JoinPath(root, FilePrefix + "A20200604" + FileSuffix))
  {
    ParseUnpadded();
    ParsePadded();
    DatePartExample();
  }

  /** A day that does not exist in its month is rejected (strptime raises). */
  lemma NonexistentDayRejected(root: string)
    ensures GetGldasFilename(root, "2021-02-29") == None
  {
    var s := "2021-02-29";
    assert s[..4] == "2021" && s[4] == '-' && s[5..] == "02-29";
    FourDigits("2021");
    assert ParseMonth("02-29") == Some((2, "29"));
    assert MatchDay("29") == Some((29, 2));
    assert DecimalValue(s[..4]) == 2021;
    assert !ValidDate(Date(2021, 2, 29));
    assert ParseDate(s) == None;
  }
}
