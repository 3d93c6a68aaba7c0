/** The analyzer of KEPCO's monthly electricity sales by region and industry
    (scripts/data_collection/kepco_power_analyzer.py): it finds the data rows
    in each spreadsheet, cleans them into province-level records, ranks the
    provinces by usage, measures the spread of unit prices and scores the
    provinces as data-centre sites.

    A spreadsheet is a sequence of rows of cell texts (what `str()` gives for
    each cell); a numeric cell that pandas cannot read is NaN, written here
    as `None`. */
module KepcoPowerAnalyzer {
  import opened Common
  import opened Sorting
  import opened Text

  // ---------------------------------------------------------------------
  // Cell text.
  // ---------------------------------------------------------------------

  /** The white space that `str.strip()` removes: the characters Python's
      `str.isspace()` accepts (the ASCII controls from tab to carriage
      return, the four information separators, and the Unicode spaces and
      line and paragraph separators). */
  predicate IsSpace(c: char) {
    || '\U{9}' <= c <= '\U{D}'
    || '\U{1C}' <= c <= '\U{20}'
    || c == '\U{85}' || c == '\U{A0}' || c == '\U{1680}'
    || '\U{2000}' <= c <= '\U{200A}'
    || c == '\U{2028}' || c == '\U{2029}' || c == '\U{202F}' || c == '\U{205F}'
    || c == '\U{3000}'
  }

  /** The number of white-space characters at the start of `s`. */
  function LeadingSpaces(s: string): (i: nat)
    ensures i <= |s|
    ensures forall k :: 0 <= k < i ==> IsSpace(s[k])
    ensures i == |s| || !IsSpace(s[i])
  {
    if |s| == 0 || !IsSpace(s[0]) then 0 else 1 + LeadingSpaces(s[1..])
  }

  /** The index where the white space at the end of `s` begins. */
  function TrailingStart(s: string): (j: nat)
    ensures j <= |s|
    ensures forall k :: j <= k < |s| ==> IsSpace(s[k])
    ensures j == 0 || !IsSpace(s[j - 1])
  {
    if |s| == 0 || !IsSpace(s[|s| - 1]) then |s| else TrailingStart(s[..|s| - 1])
  }

  /** `str.strip()`: the part of `s` between the white space at both ends. */
  function Strip(s: string): (r: string)
    ensures |r| == 0 || (!IsSpace(r[0]) && !IsSpace(r[|r| - 1]))
    ensures exists i, j ::
      && 0 <= i <= j <= |s| && r == s[i..j]
      && (forall k :: 0 <= k < i ==> IsSpace(s[k]))
      && (forall k :: j <= k < |s| ==> IsSpace(s[k]))
  {
    var i := LeadingSpaces(s);
    if i == |s| then
      assert s[|s|..|s|] == [];
      []
    else
      s[i..TrailingStart(s)]
  }

  /** Stripping twice changes nothing more. */
  lemma StripIdempotent(s: string)
    ensures Strip(Strip(s)) == Strip(s)
  {
    var r := Strip(s);
    if |r| > 0 {
      assert LeadingSpaces(r) == 0;
      assert TrailingStart(r) == |r|;
      assert r[0..|r|] == r;
    }
  }

  // ---------------------------------------------------------------------
  // Numeric cells: separators removed, then `pd.to_numeric(errors='coerce')`.
  // ---------------------------------------------------------------------

  predicate NotSeparator(c: char) {
    c != ',' && c != ' '
  }

  /** `.str.replace(',', '').str.replace(' ', '')`. */
  function RemoveSeparators(s: string): (r: string)
    ensures forall c :: c in r <==> c in s && NotSeparator(c)
  {
    Filter(s, NotSeparator)
  }

  /** The index of the first '.', or `|s|` when there is none. */
  function DotIndex(s: string): (k: nat)
    ensures k <= |s|
    ensures forall i :: 0 <= i < k ==> s[i] != '.'
    ensures k < |s| ==> s[k] == '.'
  {
    if |s| == 0 || s[0] == '.' then 0 else 1 + DotIndex(s[1..])
  }

  /** Digits only, possibly none. */
  predicate AllDigits(s: string) {
    forall i :: 0 <= i < |s| ==> IsDigit(s[i])
  }

  /** An unsigned decimal: digits, or digits, '.' and digits where either
      side of the point may be empty but not both ("5.", ".5"). */
  function ParseUnsigned(s: string): (r: Option<real>)
    ensures r.Some? ==> r.value >= 0.0 && |s| > 0 && (IsDigit(s[0]) || s[0] == '.')
    ensures r.Some? ==> exists i :: 0 <= i < |s| && IsDigit(s[i])
  {
    var k := DotIndex(s);
    if k == |s| then
      if IsDigits(s) then Some(DigitsValue(s) as real) else None
    else
      var whole := s[..k];
      var fraction := s[k + 1..];
      if AllDigits(whole) && AllDigits(fraction) && (|whole| > 0 || |fraction| > 0) then
        assert |whole| > 0 ==> whole[0] == s[0] && IsDigit(s[0]);
        assert |whole| == 0 ==> s[0] == '.' && fraction[0] == s[k + 1] && IsDigit(s[k + 1]);
        Some(PointValue(whole, fraction))
      else None
  }

  /** The value of digits, a point and digits. */
  function PointValue(whole: string, fraction: string): (v: real)
    requires AllDigits(whole) && AllDigits(fraction)
    ensures v >= 0.0
  {
    var scale := Pow10(|fraction|) as real;
    DivNonneg(DigitsValue(fraction) as real, scale);
    DigitsValue(whole) as real + DigitsValue(fraction) as real / scale
  }

  /** A decimal with an optional sign; anything else is NaN. */
  function ParseDecimal(s: string): (r: Option<real>)
    ensures r.Some? && r.value < 0.0 ==> |s| > 0 && s[0] == '-'
  {
    if |s| > 0 && s[0] == '-' then
      match ParseUnsigned(s[1..])
      case None => None
      case Some(v) => Some(-v)
    else if |s| > 0 && s[0] == '+' then ParseUnsigned(s[1..])
    else ParseUnsigned(s)
  }

  /** A numeric column cell after cleaning. */
  function NumericCell(s: string): Option<real> {
    ParseDecimal(RemoveSeparators(s))
  }

  /** A plain string of digits reads as the number it denotes. */
  lemma ParseUnsignedDigits(s: string)
    requires IsDigits(s)
    ensures ParseUnsigned(s) == Some(DigitsValue(s) as real)
  {
    if DotIndex(s) < |s| {
      assert IsDigit(s[DotIndex(s)]);
    }
  }

  /** Text without a point moves the first point along by its length. */
  lemma {:induction false} DotIndexAfter(d: string, t: string)
    requires forall i :: 0 <= i < |d| ==> d[i] != '.'
    ensures DotIndex(d + t) == |d| + DotIndex(t)
  {
    if |d| > 0 {
      assert (d + t)[0] == d[0] && (d + t)[1..] == d[1..] + t;
      DotIndexAfter(d[1..], t);
    } else {
      assert d + t == t;
    }
  }

  /** Digits followed by a point read as the whole number ("5." is 5). */
  lemma ParseUnsignedTrailingPoint(d: string)
    requires IsDigits(d)
    ensures ParseUnsigned(d + ".") == Some(DigitsValue(d) as real)
  {
    var s := d + ".";
    assert ParseUnsigned(s) == Some(PointValue(d, "")) by {
      DotIndexAfter(d, ".");
      assert DotIndex(".") == 0;
      assert s[..|d|] == d && s[|d| + 1..] == "";
    }
    assert PointValue(d, "") == DigitsValue(d) as real;
  }

  /** A point followed by digits reads as a fraction (".5" is 0.5). */
  lemma ParseUnsignedLeadingPoint(d: string)
    requires IsDigits(d)
    ensures ParseUnsigned("." + d) == Some(DigitsValue(d) as real / Pow10(|d|) as real)
  {
    var s := "." + d;
    assert ParseUnsigned(s) == Some(PointValue("", d)) by {
      assert DotIndex(s) == 0;
      assert s[..0] == "" && s[1..] == d;
    }
    assert PointValue("", d) == DigitsValue(d) as real / Pow10(|d|) as real;
  }

  /** A point alone is no number. */
  lemma ParseUnsignedPointAlone()
    ensures ParseUnsigned(".") == None
  {
    assert DotIndex(".") == 0;
  }

  /** Digits and a minus sign contain no separator. */
  lemma RemoveSeparatorsKeeps(s: string)
    requires forall i :: 0 <= i < |s| ==> IsDigit(s[i]) || s[i] == '-'
    ensures RemoveSeparators(s) == s
  {
    FilterAll(s, NotSeparator);
  }

  /** A whole number written plainly reads back as itself, and with a
      leading minus sign as its negation. */
  lemma NumericCellNat(n: nat)
    ensures NumericCell(NatText(n)) == Some(n as real)
    ensures NumericCell(['-'] + NatText(n)) == Some(-(n as real))
  {
    var s := NatText(n);
    var t := ['-'] + s;
    RemoveSeparatorsKeeps(s);
    RemoveSeparatorsKeeps(t);
    NatTextValue(n);
    ParseUnsignedDigits(s);
    assert ParseDecimal(s) == ParseUnsigned(s) by {
      assert IsDigit(s[0]);
    }
    assert t[0] == '-' && t[1..] == s;
    assert ParseDecimal(t) == Some(-(n as real));
  }

  /** Thousands separators and spaces make no difference to the value. */
  lemma NumericCellIgnoresSeparators(a: string, b: string, c: char)
    requires !NotSeparator(c)
    ensures NumericCell(a + [c] + b) == NumericCell(a + b)
  {
    FilterSkip(a, b, c, NotSeparator);
  }

  // ---------------------------------------------------------------------
  // Year-month cells: `pd.to_datetime(..., format='%Y%m')`.
  // ---------------------------------------------------------------------

  datatype YearMonth = YearMonth(year: int, month: int)

  /** The months a pandas timestamp can hold: from October 1677 (the first
      whole month after 1677-09-21) to April 2262 (2262-04-11 is the last
      day). */
  predicate InTimestampRange(y: int, m: int) {
    && (y > 1677 || (y == 1677 && m >= 10))
    && (y < 2262 || (y == 2262 && m <= 4))
  }

  /** The texts `to_datetime` reads as a missing date (NaT) instead of
      raising: the empty text and the spellings of NaN and NaT, among them
      the "nan" a column missing from a joined frame reads as. */
  predicate IsMissingDate(s: string) {
    s in {"", "NaT", "nat", "NAT", "nan", "NaN", "NAN"}
  }

  /** `%Y%m` as `strptime` matches it: four digits of year, then a month of
      one or two digits between 1 and 12 ("1[0-2]|0[1-9]|[1-9]"), the whole
      text matched, the month within the timestamp range. None when the
      text is not such a date: it is then missing or it raises. */
  function ParseYearMonth(s: string): (r: Option<YearMonth>)
    ensures r.Some? ==> (|s| == 5 || |s| == 6) && IsDigits(s)
    ensures r.Some? ==> 1 <= r.value.month <= 12 && InTimestampRange(r.value.year, r.value.month)
    ensures r.Some? ==> !IsMissingDate(s)
  {
    if (|s| == 5 || |s| == 6) && IsDigits(s) then
      var y := DigitsValue(s[..4]);
      var m := DigitsValue(s[4..]);
      if 1 <= m <= 12 && InTimestampRange(y, m) then
        assert IsDigit(s[0]);
        Some(YearMonth(y, m))
      else None
    else None
  }

  /** What converting a date cell does: a month, a missing date, or an
      error for any other text. */
  predicate DateRaises(s: string) {
    ParseYearMonth(s).None? && !IsMissingDate(s)
  }

  /** The six-digit text of a year and month. */
  function YearMonthText(y: nat, m: nat): string {
    PaddedDigits(y, 4) + PaddedDigits(m, 2)
  }

  /** Every month a timestamp can hold, written as YYYYMM, parses back to
      itself. */
  lemma YearMonthRoundTrip(y: nat, m: nat)
    requires 1 <= m <= 12 && InTimestampRange(y, m)
    ensures ParseYearMonth(YearMonthText(y, m)) == Some(YearMonth(y, m))
  {
    var s := YearMonthText(y, m);
    assert s[..4] == PaddedDigits(y, 4);
    assert s[4..] == PaddedDigits(m, 2);
    PaddedDigitsValue(y, 4);
    PaddedDigitsValue(m, 2);
  }

  /** A month from 1 to 9 may also be written with one digit, YYYYM. */
  lemma OneDigitMonthParses(y: nat, m: nat)
    requires 1 <= m <= 9 && InTimestampRange(y, m)
    ensures ParseYearMonth(PaddedDigits(y, 4) + [DigitChar(m)]) == Some(YearMonth(y, m))
  {
    var s := PaddedDigits(y, 4) + [DigitChar(m)];
    assert s[..4] == PaddedDigits(y, 4);
    assert s[4..] == [DigitChar(m)];
    assert DigitsValue(s[4..]) == m by {
      assert s[4..][..0] == [];
    }
    PaddedDigitsValue(y, 4);
  }

  /** "20231" is January 2023 and "202312" December 2023. */
  lemma YearMonthExamples()
    ensures ParseYearMonth("20231") == Some(YearMonth(2023, 1))
    ensures ParseYearMonth("202312") == Some(YearMonth(2023, 12))
  {
    assert "20231"[..4] == "2023" && "20231"[4..] == "1";
    assert "202312"[..4] == "2023" && "202312"[4..] == "12";
    Year2023Value();
    assert DigitsValue("12") == 12 by {
      assert "12"[..1] == "1" && "1"[..0] == "";
    }
    assert DigitsValue("1") == 1 by {
      assert "1"[..0] == "";
    }
  }

  /** A month of 0 or 13 is no month, and a seven-digit text leaves digits
      unmatched: each raises. */
  lemma BadYearMonthExamples()
    ensures DateRaises("20230") && DateRaises("202313") && DateRaises("2023011")
  {
    assert "20230"[4..] == "0";
    assert "202313"[4..] == "13";
    assert DigitsValue("13") == 13 by {
      assert "13"[..1] == "1" && "1"[..0] == "";
    }
    assert DigitsValue("0") == 0 by {
      assert "0"[..0] == "";
    }
  }

  lemma Year2023Value()
    ensures DigitsValue("2023") == 2023
  {
    assert "2023"[..3] == "202" && "202"[..2] == "20" && "20"[..1] == "2" && "2"[..0] == "";
  }


  /** A cleaned date as `astype(str)` writes it back: YYYY-MM-01. */
  function IsoDateText(ym: YearMonth): (s: string)
    ensures DateRaises(s)
  {
    var y := if ym.year < 0 then 0 else ym.year;
    var m := if ym.month < 0 then 0 else ym.month;
    var s := PaddedDigits(y, 4) + "-" + PaddedDigits(m, 2) + "-01";
    assert !IsDigits(s) by {
      assert !IsDigit(s[4]);
    }
    s
  }

  // ---------------------------------------------------------------------
  // Finding the data in a sheet.
  // ---------------------------------------------------------------------

  /** The texts of a row's cells. */
  type Row = seq<string>

  function FirstCell(row: Row): string {
    if |row| == 0 then "" else row[0]
  }

  /** A row whose first cell is a six-digit YYYYMM starts the data. */
  predicate StartsData(row: Row) {
    IsDigits(FirstCell(row)) && |FirstCell(row)| == 6
  }

  /** A data row: its first cell is all digits (of any length). */
  predicate IsDataRow(row: Row) {
    IsDigits(FirstCell(row))
  }

  /** The index of the first row that starts the data. */
  function DataStart(rows: seq<Row>): (r: Option<nat>)
    ensures r.Some? ==> r.value < |rows| && StartsData(rows[r.value])
    ensures r.Some? ==> forall k :: 0 <= k < r.value ==> !StartsData(rows[k])
    ensures r.None? ==> forall k :: 0 <= k < |rows| ==> !StartsData(rows[k])
  {
    if |rows| == 0 then None
    else if StartsData(rows[0]) then Some(0)
    else
      match DataStart(rows[1..])
      case None => None
      case Some(k) => Some(k + 1)
  }

  /** The scan over the rows of a sheet for the first YYYYMM row. */
  method FindDataStartRow(rows: seq<Row>) returns (r: Option<nat>)
    ensures r == DataStart(rows)
  {
    var i := 0;
    while i < |rows|
      invariant 0 <= i <= |rows|
      invariant forall k :: 0 <= k < i ==> !StartsData(rows[k])
    {
      if StartsData(rows[i]) {
        return Some(i);
      }
      i := i + 1;
    }
    return None;
  }

  /** The header is the row just before the data; when the data starts on
      the first row, position -1 selects the last row. */
  function HeaderIndex(start: nat, count: nat): (h: nat)
    requires start < count
    ensures h < count
    ensures start > 0 ==> h + 1 == start
    ensures start == 0 ==> h == count - 1
  {
    if start > 0 then start - 1 else count - 1
  }

  datatype Sheet = Sheet(header: Row, data: seq<Row>)

  /** The header and the data rows of a sheet, or nothing when no row
      starts the data. */
  function ExtractSheet(rows: seq<Row>): (r: Option<Sheet>)
    ensures r.Some? <==> DataStart(rows).Some?
    ensures r.Some? ==> |r.value.data| > 0 && r.value.data[0] == rows[DataStart(rows).value]
    ensures r.Some? ==> forall x :: x in r.value.data <==> x in rows[DataStart(rows).value..] && IsDataRow(x)
  {
    match DataStart(rows)
    case None => None
    case Some(start) =>
      var tail := rows[start..];
      assert tail == [rows[start]] + tail[1..];
      FilterAppend([rows[start]], tail[1..], IsDataRow);
      assert Filter([rows[start]], IsDataRow) == [rows[start]] by {
        assert [rows[start]][..0] == [];
      }
      Some(Sheet(rows[HeaderIndex(start, |rows|)], Filter(tail, IsDataRow)))
  }

  /** The sheets that have a start row, as header and data rows, in sheet
      order: the frames `load_excel_files` collects. */
  function Frames(sheets: seq<seq<Row>>): (fs: seq<Sheet>)
    ensures |fs| <= |sheets|
    ensures forall i :: 0 <= i < |fs| ==> |fs[i].data| > 0
  {
    if |sheets| == 0 then []
    else
      Frames(sheets[..|sheets| - 1]) + FrameOf(sheets[|sheets| - 1])
  }

  /** The frame of one sheet, as a list of none or one. */
  function FrameOf(rows: seq<Row>): (fs: seq<Sheet>)
    ensures |fs| <= 1
    ensures forall i :: 0 <= i < |fs| ==> |fs[i].data| > 0
  {
    var s := ExtractSheet(rows);
    if s.Some? then [s.value] else []
  }

  /** Some frame is collected exactly when some sheet has a start row. */
  lemma {:induction false} FramesNonEmpty(sheets: seq<seq<Row>>)
    ensures |Frames(sheets)| > 0 <==> exists i :: 0 <= i < |sheets| && ExtractSheet(sheets[i]).Some?
  {
    if |sheets| > 0 {
      var init := sheets[..|sheets| - 1];
      FramesNonEmpty(init);
      assert (exists i :: 0 <= i < |init| && ExtractSheet(init[i]).Some?)
        <==> (exists i :: 0 <= i < |sheets| - 1 && ExtractSheet(sheets[i]).Some?) by {
        forall i | 0 <= i < |init| ensures init[i] == sheets[i] {}
      }
    }
  }

  /** One more sheet adds its frame, if it has one, at the end. */
  lemma FramesStep(sheets: seq<seq<Row>>, i: nat)
    requires i < |sheets|
    ensures Frames(sheets[..i + 1]) == Frames(sheets[..i]) + FrameOf(sheets[i])
  {
    assert sheets[..i + 1][..i] == sheets[..i];
  }

  /** The data rows of the frames, one frame after another, cells in place. */
  function DataRows(fs: seq<Sheet>): (r: seq<Row>)
    ensures forall i :: 0 <= i < |fs| ==> |r| >= |fs[i].data|
  {
    if |fs| == 0 then []
    else
      var init := fs[..|fs| - 1];
      assert forall i :: 0 <= i < |init| ==> init[i] == fs[i];
      DataRows(init) + fs[|fs| - 1].data
  }

  /** No label occurs twice. */
  predicate DistinctLabels(h: Row) {
    forall i, j :: 0 <= i < j < |h| ==> h[i] != h[j]
  }

  /** `u` followed by the labels of `h` it does not hold yet, each once, in
      order. */
  function AddLabels(u: seq<string>, h: Row): (r: seq<string>)
    ensures |r| >= |u| && r[..|u|] == u
    ensures forall x :: x in r <==> x in u || x in h
    ensures DistinctLabels(u) ==> DistinctLabels(r)
    decreases |h|
  {
    if |h| == 0 then u
    else
      var next := if h[0] in u then u else u + [h[0]];
      assert next[..|u|] == u;
      assert forall x :: x in h <==> x == h[0] || x in h[1..] by {
        assert h == [h[0]] + h[1..];
      }
      var r := AddLabels(next, h[1..]);
      assert r[..|u|] == next[..|next|][..|u|];
      r
  }

  /** Adding labels that are all present already changes nothing. */
  lemma AddLabelsPresent(u: seq<string>, h: Row)
    requires forall x :: x in h ==> x in u
    ensures AddLabels(u, h) == u
    decreases |h|
  {
    if |h| > 0 {
      assert h[0] in h;
      forall x | x in h[1..] ensures x in u {
        assert x in h;
      }
      AddLabelsPresent(u, h[1..]);
    }
  }

  /** Adding distinct labels none of which is held yet appends them all. */
  lemma {:induction false} AddLabelsFresh(u: seq<string>, h: Row)
    requires DistinctLabels(h)
    requires forall i :: 0 <= i < |h| ==> h[i] !in u
    ensures AddLabels(u, h) == u + h
    decreases |h|
  {
    if |h| > 0 {
      var next := u + [h[0]];
      calc {
        AddLabels(u, h);
      == { AddLabelsNew(u, h); }
        AddLabels(next, h[1..]);
      == { DistinctLabelsTail(h, u); AddLabelsFresh(next, h[1..]); }
        next + h[1..];
      == { assert [h[0]] + h[1..] == h; }
        u + h;
      }
    }
  }

  /** A label not held yet is appended, and the rest follow. */
  lemma AddLabelsNew(u: seq<string>, h: Row)
    requires |h| > 0 && h[0] !in u
    ensures AddLabels(u, h) == AddLabels(u + [h[0]], h[1..])
  {
  }

  /** The rest of a header that repeats no label repeats none either, and
      avoids both its first label and whatever the header avoids. */
  lemma DistinctLabelsTail(h: Row, u: seq<string>)
    requires |h| > 0 && DistinctLabels(h)
    requires forall i :: 0 <= i < |h| ==> h[i] !in u
    ensures DistinctLabels(h[1..])
    ensures forall i :: 0 <= i < |h[1..]| ==> h[1..][i] !in u + [h[0]]
  {
    var tail := h[1..];
    forall i, j | 0 <= i < j < |tail| ensures tail[i] != tail[j] {
      assert tail[i] == h[i + 1] && tail[j] == h[j + 1];
    }
    forall i | 0 <= i < |tail| ensures tail[i] !in u + [h[0]] {
      assert tail[i] == h[i + 1];
    }
  }

  /** Some frame's header holds the label. */
  ghost predicate InSomeHeader(fs: seq<Sheet>, x: string) {
    exists i :: 0 <= i < |fs| && x in fs[i].header
  }

  /** A label is in some header of the frames exactly when it is in some
      header of all but the last, or in the last. */
  lemma InSomeHeaderStep(fs: seq<Sheet>, x: string)
    requires |fs| > 0
    ensures InSomeHeader(fs, x) <==> InSomeHeader(fs[..|fs| - 1], x) || x in fs[|fs| - 1].header
  {
    var init := fs[..|fs| - 1];
    if InSomeHeader(init, x) {
      var i :| 0 <= i < |init| && x in init[i].header;
      assert fs[i] == init[i];
    }
    if InSomeHeader(fs, x) {
      var i :| 0 <= i < |fs| && x in fs[i].header;
      if i < |init| {
        assert fs[i] == init[i];
      }
    }
  }

  /** The columns of `pd.concat` over frames whose headers are not all the
      same: the labels of every header, each once, in order of first
      appearance. */
  function ColumnUnion(fs: seq<Sheet>): (u: seq<string>)
    ensures DistinctLabels(u)
    ensures forall x :: x in u <==> InSomeHeader(fs, x)
  {
    if |fs| == 0 then []
    else
      var prev := ColumnUnion(fs[..|fs| - 1]);
      var u := AddLabels(prev, fs[|fs| - 1].header);
      assert forall x :: x in u <==> InSomeHeader(fs, x) by {
        forall x ensures x in u <==> InSomeHeader(fs, x) {
          InSomeHeaderStep(fs, x);
        }
      }
      u
  }

  /** The union starts with the first header when that header repeats no
      label. */
  lemma {:induction false} ColumnUnionStartsWithFirst(fs: seq<Sheet>)
    requires |fs| > 0 && DistinctLabels(fs[0].header)
    ensures |ColumnUnion(fs)| >= |fs[0].header| && ColumnUnion(fs)[..|fs[0].header|] == fs[0].header
  {
    var h := fs[0].header;
    if |fs| == 1 {
      assert fs[..0] == [];
      AddLabelsFresh([], h);
    } else {
      var init := fs[..|fs| - 1];
      ColumnUnionStartsWithFirst(init);
      var prev := ColumnUnion(init);
      assert ColumnUnion(fs)[..|prev|] == prev;
      assert ColumnUnion(fs)[..|h|] == prev[..|h|];
    }
  }

  /** When every header holds only labels of a first header that repeats
      none, the union is that first header: the columns keep its order. */
  lemma {:induction false} ColumnUnionOfReorderings(fs: seq<Sheet>)
    requires |fs| > 0 && DistinctLabels(fs[0].header)
    requires forall i, x :: 0 <= i < |fs| && x in fs[i].header ==> x in fs[0].header
    ensures ColumnUnion(fs) == fs[0].header
  {
    ColumnUnionStartsWithFirst(fs);
    var u := ColumnUnion(fs);
    var h := fs[0].header;
    forall x | x in u ensures x in h {
      var i :| 0 <= i < |fs| && x in fs[i].header;
    }
    DistinctWithin(u, h);
    assert u == u[..|h|];
  }

  /** Distinct labels drawn from `h` are at most as many as `h` holds. */
  lemma {:induction false} DistinctWithin(u: seq<string>, h: Row)
    requires DistinctLabels(u)
    requires forall x :: x in u ==> x in h
    ensures |u| <= |h|
  {
    if |u| > 0 {
      var x := u[|u| - 1];
      var init := u[..|u| - 1];
      assert x in u;
      var k := IndexOf(h, x);
      var rest := h[..k] + h[k + 1..];
      forall y | y in init ensures y in rest {
        var i :| 0 <= i < |init| && init[i] == y;
        assert u[i] == y && y != x;
        assert y in u;
        var j :| 0 <= j < |h| && h[j] == y;
        if j < k {
          assert rest[j] == y;
        } else {
          assert rest[j - 1] == y;
        }
      }
      DistinctWithin(init, rest);
    }
  }

  /** The position of the first occurrence of `x` in `h`. */
  function IndexOf(h: Row, x: string): (k: nat)
    requires x in h
    ensures k < |h| && h[k] == x
    ensures forall j :: 0 <= j < k ==> h[j] != x
  {
    if h[0] == x then 0 else 1 + IndexOf(h[1..], x)
  }

  /** The cell pandas fills in for a column a frame lacks: NaN, which
      `str()` writes as "nan". */
  const MissingCell := "nan"

  function CellAt(row: Row, k: nat): string {
    if k < |row| then row[k] else MissingCell
  }

  /** A row of a frame with header `h` moved under the columns `u`: each
      column takes the row's cell of the same label, or NaN. */
  function Align(row: Row, h: Row, u: seq<string>): (r: Row)
    ensures |r| == |u|
    ensures forall k :: 0 <= k < |u| ==>
      r[k] == if u[k] in h then CellAt(row, IndexOf(h, u[k])) else MissingCell
  {
    seq(|u|, k requires 0 <= k < |u| => if u[k] in h then CellAt(row, IndexOf(h, u[k])) else MissingCell)
  }

  /** Realigning moves every cell of a full row under its own label, and
      puts NaN under the labels the frame lacks. */
  lemma AlignByLabel(row: Row, h: Row, u: seq<string>)
    requires DistinctLabels(h) && DistinctLabels(u) && |row| == |h|
    requires forall x :: x in h ==> x in u
    ensures forall j :: 0 <= j < |h| ==> Align(row, h, u)[IndexOf(u, h[j])] == row[j]
    ensures forall k :: 0 <= k < |u| && u[k] !in h ==> Align(row, h, u)[k] == MissingCell
  {
    forall j | 0 <= j < |h| ensures Align(row, h, u)[IndexOf(u, h[j])] == row[j] {
      var k := IndexOf(h, h[j]);
      if k != j {
        assert h[k] == h[j];
      }
    }
  }

  /** The data rows of every frame realigned onto the columns `u`, one frame
      after another. */
  function AlignedRows(fs: seq<Sheet>, u: seq<string>): (r: seq<Row>)
    ensures |r| == |DataRows(fs)|
    ensures forall k :: 0 <= k < |r| ==> |r[k]| == |u|
  {
    if |fs| == 0 then []
    else
      var f := fs[|fs| - 1];
      AlignedRows(fs[..|fs| - 1], u) + seq(|f.data|, i requires 0 <= i < |f.data| => Align(f.data[i], f.header, u))
  }

  predicate SameHeaders(fs: seq<Sheet>) {
    forall i :: 0 <= i < |fs| ==> fs[i].header == fs[0].header
  }

  /** `pd.concat(frames, ignore_index=True)`: frames whose headers are all
      the same are stacked as they are; otherwise each frame is realigned by
      label onto the union of the headers, which raises when a header
      repeats a label. */
  function Concat(fs: seq<Sheet>): (r: Result<seq<Row>, CleanError>)
    ensures SameHeaders(fs) ==> r == Ok(DataRows(fs))
    ensures r.Err? <==> !SameHeaders(fs) && exists i :: 0 <= i < |fs| && !DistinctLabels(fs[i].header)
    ensures r.Err? ==> r.error == DuplicateColumns
    ensures r.Ok? && !SameHeaders(fs) ==> r.value == AlignedRows(fs, ColumnUnion(fs))
  {
    if SameHeaders(fs) then Ok(DataRows(fs))
    else if exists i :: 0 <= i < |fs| && !DistinctLabels(fs[i].header) then Err(DuplicateColumns)
    else Ok(AlignedRows(fs, ColumnUnion(fs)))
  }

  /** Frames of eight distinct labels each, one of which has a label the
      first lacks: the union has more than eight columns, so cleaning
      raises on the column count. */
  lemma MismatchedHeadersFail(fs: seq<Sheet>)
    requires |fs| > 0
    requires forall i :: 0 <= i < |fs| ==>
      DistinctLabels(fs[i].header) && |fs[i].header| == ColumnCount && |fs[i].data| > 0
    requires exists i, x :: 0 <= i < |fs| && x in fs[i].header && x !in fs[0].header
    ensures Concat(fs).Ok? && CleanFrame(Concat(fs).value) == Err(ColumnCountMismatch)
  {
    var i, x :| 0 <= i < |fs| && x in fs[i].header && x !in fs[0].header;
    assert fs[i].header != fs[0].header;
    ColumnUnionWider(fs, x);
    var rows := AlignedRows(fs, ColumnUnion(fs));
    assert Concat(fs) == Ok(rows);
    assert |DataRows(fs)| >= |fs[0].data| > 0;
    assert |rows[0]| != ColumnCount;
  }

  /** A label outside a first header of eight distinct labels makes the
      union wider than eight. */
  lemma ColumnUnionWider(fs: seq<Sheet>, x: string)
    requires |fs| > 0 && DistinctLabels(fs[0].header) && |fs[0].header| == ColumnCount
    requires exists i :: 0 <= i < |fs| && x in fs[i].header
    requires x !in fs[0].header
    ensures |ColumnUnion(fs)| > ColumnCount
  {
    var u := ColumnUnion(fs);
    ColumnUnionStartsWithFirst(fs);
    assert x in u;
    forall j | 0 <= j < ColumnCount ensures u[j] != x {
      assert u[j] == fs[0].header[j];
    }
    var k := IndexOf(u, x);
  }

  // ---------------------------------------------------------------------
  // Cleaning.
  // ---------------------------------------------------------------------

  const ColumnCount := 8

  /** What loading and cleaning raise: joining frames whose headers differ
      and repeat a label, a frame that does not have eight columns, and a
      date that is not YYYYMM. */
  datatype CleanError =
    | DuplicateColumns
    | ColumnCountMismatch
    | BadYearMonth(text: string)

  /** A cleaned record: 년월, 시구 (province), 시군구 (district), 계약구분
      (contract type), 호수 (households), 사용량kWh, 전기요금원 (charge) and
      평균판매단가원kWh (unit price). */
  datatype Record = Record(
    yearMonth: YearMonth,
    province: string,
    district: string,
    contractType: string,
    households: Option<real>,
    usageKwh: Option<real>,
    chargeWon: Option<real>,
    unitPriceWon: Option<real>)

  /** One row converted: a date that is neither a month nor missing
      raises, a missing date leaves no record (`notna` drops it), numbers
      that do not parse become NaN, and the two region names are
      stripped. */
  function CleanRecord(row: Row): (r: Result<Option<Record>, CleanError>)
    requires |row| == ColumnCount
    ensures r.Err? <==> DateRaises(row[0])
    ensures r.Err? ==> r.error == BadYearMonth(row[0])
    ensures r == Ok(None) <==> IsMissingDate(row[0])
    ensures r.Ok? && r.value.Some? ==>
      && r.value.value.province == Strip(row[1]) && r.value.value.district == Strip(row[2])
      && Some(r.value.value.yearMonth) == ParseYearMonth(row[0])
      && r.value.value.contractType == row[3]
      && r.value.value.households == NumericCell(row[4]) && r.value.value.usageKwh == NumericCell(row[5])
      && r.value.value.chargeWon == NumericCell(row[6]) && r.value.value.unitPriceWon == NumericCell(row[7])
  {
    match ParseYearMonth(row[0])
    case None => if IsMissingDate(row[0]) then Ok(None) else Err(BadYearMonth(row[0]))
    case Some(ym) =>
      Ok(Some(Record(ym, Strip(row[1]), Strip(row[2]), row[3],
        NumericCell(row[4]), NumericCell(row[5]), NumericCell(row[6]), NumericCell(row[7]))))
  }

  /** A row whose date converts to a month. */
  predicate HasDate(row: Row) {
    ParseYearMonth(FirstCell(row)).Some?
  }

  /** The index of the first row whose date raises. */
  function FirstBadDate(rows: seq<Row>): (k: nat)
    requires forall i :: 0 <= i < |rows| ==> |rows[i]| == ColumnCount
    ensures k <= |rows|
    ensures forall i :: 0 <= i < k ==> !DateRaises(rows[i][0])
    ensures k < |rows| ==> DateRaises(rows[k][0])
  {
    if |rows| == 0 || DateRaises(rows[0][0]) then 0
    else 1 + FirstBadDate(rows[1..])
  }

  /** Every row converted in order: the first date that raises is the
      error; otherwise the records of the rows with a date, in order. */
  function CleanRecords(rows: seq<Row>): (r: Result<seq<Record>, CleanError>)
    requires forall i :: 0 <= i < |rows| ==> |rows[i]| == ColumnCount
    ensures r.Ok? <==> forall i :: 0 <= i < |rows| ==> !DateRaises(rows[i][0])
    ensures r.Ok? ==> |r.value| == |Filter(rows, HasDate)|
    ensures r.Ok? ==> forall i :: 0 <= i < |r.value| ==>
      |Filter(rows, HasDate)[i]| == ColumnCount && CleanRecord(Filter(rows, HasDate)[i]) == Ok(Some(r.value[i]))
    ensures r.Err? ==> exists i :: 0 <= i < |rows| && CleanRecord(rows[i]) == Err(r.error)
  {
    var k := FirstBadDate(rows);
    if k < |rows| then
      assert CleanRecord(rows[k]).Err?;
      Err(BadYearMonth(rows[k][0]))
    else
      var dated := Filter(rows, HasDate);
      assert forall i :: 0 <= i < |dated| ==> dated[i] in rows && HasDate(dated[i]);
      Ok(seq(|dated|, i requires 0 <= i < |dated| => CleanRecord(dated[i]).value.value))
  }

  /** The rows kept by cleaning: province totals (시군구 is '전체(시 / 군 /
      구)' or '전체'), without the national total, the 합계 row and a
      repeated header row. */
  predicate ProvinceLevel(r: Record) {
    && (r.district == "전체(시 / 군 / 구)" || r.district == "전체")
    && r.province != "전체(시도)"
    && r.province != "합계"
    && r.province != "시구"
  }

  /** `clean_data` on a frame: exactly eight columns, no date that
      raises, and only province-level rows with a date remain. */
  function CleanFrame(rows: seq<Row>): (r: Result<seq<Record>, CleanError>)
    ensures r.Ok? <==>
      && (forall i :: 0 <= i < |rows| ==> |rows[i]| == ColumnCount)
      && (forall i :: 0 <= i < |rows| ==> !DateRaises(rows[i][0]))
    ensures r.Ok? ==> forall x :: x in r.value ==> ProvinceLevel(x)
    ensures r.Ok? ==> forall i :: 0 <= i < |rows| && HasDate(rows[i]) ==>
      (ProvinceLevel(CleanRecord(rows[i]).value.value) ==> CleanRecord(rows[i]).value.value in r.value)
    ensures r.Ok? ==> forall x :: x in r.value ==>
      exists i :: 0 <= i < |rows| && CleanRecord(rows[i]) == Ok(Some(x))
    ensures r.Ok? ==> CleanRecords(rows).Ok? && r.value == Filter(CleanRecords(rows).value, ProvinceLevel)
  {
    if exists i :: 0 <= i < |rows| && |rows[i]| != ColumnCount then Err(ColumnCountMismatch)
    else
      match CleanRecords(rows)
      case Err(e) => Err(e)
      case Ok(rs) =>
        CleanedRecordsFromRows(rows, rs);
        Ok(Filter(rs, ProvinceLevel))
  }

  /** Every cleaned record is the cleaning of some row, and every dated
      row's record is among them. */
  lemma CleanedRecordsFromRows(rows: seq<Row>, rs: seq<Record>)
    requires forall i :: 0 <= i < |rows| ==> |rows[i]| == ColumnCount
    requires forall i :: 0 <= i < |rows| ==> !DateRaises(rows[i][0])
    requires CleanRecords(rows) == Ok(rs)
    ensures forall x :: x in rs ==> exists i :: 0 <= i < |rows| && CleanRecord(rows[i]) == Ok(Some(x))
    ensures forall i :: 0 <= i < |rows| && HasDate(rows[i]) ==> CleanRecord(rows[i]).value.value in rs
  {
    var dated := Filter(rows, HasDate);
    forall x | x in rs ensures exists i :: 0 <= i < |rows| && CleanRecord(rows[i]) == Ok(Some(x)) {
      var j :| 0 <= j < |rs| && rs[j] == x;
      assert dated[j] in dated;
      var i :| 0 <= i < |rows| && rows[i] == dated[j];
      assert CleanRecord(rows[i]) == Ok(Some(x));
    }
    forall i | 0 <= i < |rows| && HasDate(rows[i]) ensures CleanRecord(rows[i]).value.value in rs {
      assert rows[i] in dated;
      var j :| 0 <= j < |dated| && dated[j] == rows[i];
      assert rs[j] in rs;
    }
  }

  /** A row whose date is missing changes nothing: `notna` drops it
      whatever its other cells hold. */
  lemma MissingDateRowDropped(rows: seq<Row>, row: Row)
    requires forall i :: 0 <= i < |rows| ==> |rows[i]| == ColumnCount
    requires |row| == ColumnCount && IsMissingDate(row[0])
    ensures CleanFrame(rows + [row]) == CleanFrame(rows)
  {
    var all := rows + [row];
    assert forall i :: 0 <= i < |all| ==> |all[i]| == ColumnCount;
    MissingDateRecordsUnchanged(rows, row);
  }

  /** Converting the rows with a missing-date row appended gives the same
      error or the same records. */
  lemma MissingDateRecordsUnchanged(rows: seq<Row>, row: Row)
    requires forall i :: 0 <= i < |rows| ==> |rows[i]| == ColumnCount
    requires |row| == ColumnCount && IsMissingDate(row[0])
    requires forall i :: 0 <= i < |rows + [row]| ==> |(rows + [row])[i]| == ColumnCount
    ensures CleanRecords(rows + [row]) == CleanRecords(rows)
  {
    var all := rows + [row];
    assert forall i :: 0 <= i < |rows| ==> all[i] == rows[i];
    assert all[|rows|] == row;
    if FirstBadDate(rows) == |rows| {
      assert !HasDate(row);
      FilterSkip(rows, [], row, HasDate);
      assert rows + [row] + [] == all && rows + [] == rows;
      assert Filter(all, HasDate) == Filter(rows, HasDate);
      assert CleanRecords(all).value == CleanRecords(rows).value;
    }
  }


  // ---------------------------------------------------------------------
  // Regional usage ranking.
  // ---------------------------------------------------------------------

  ghost predicate HasProvince(rs: seq<Record>, p: string) {
    exists k :: 0 <= k < |rs| && rs[k].province == p
  }

  /** The provinces of the records, each once, in order of first
      appearance. */
  function Provinces(rs: seq<Record>): (r: seq<string>)
    ensures forall i, j :: 0 <= i < j < |r| ==> r[i] != r[j]
    ensures forall p :: p in r <==> HasProvince(rs, p)
  {
    if |rs| == 0 then []
    else
      var init := rs[..|rs| - 1];
      var p := rs[|rs| - 1].province;
      var before := Provinces(init);
      assert forall q :: HasProvince(rs, q) <==> HasProvince(init, q) || q == p by {
        forall q | HasProvince(rs, q) ensures HasProvince(init, q) || q == p {
          var k :| 0 <= k < |rs| && rs[k].province == q;
          if k < |init| {
            assert init[k].province == q;
          }
        }
        forall q | HasProvince(init, q) ensures HasProvince(rs, q) {
          var k :| 0 <= k < |init| && init[k].province == q;
          assert rs[k].province == q;
        }
        assert rs[|rs| - 1].province == p;
      }
      if p in before then before else before + [p]
  }

  function RecordUsage(r: Record): Option<real> { r.usageKwh }
  function RecordUnitPrice(r: Record): Option<real> { r.unitPriceWon }
  function RecordCharge(r: Record): Option<real> { r.chargeWon }

  /** The values of one column over the records of province `p`. */
  function GroupColumn(rs: seq<Record>, p: string, col: Record -> Option<real>): (r: seq<Option<real>>)
    ensures forall v :: v in r ==> exists k :: 0 <= k < |rs| && rs[k].province == p && col(rs[k]) == v
  {
    if |rs| == 0 then []
    else
      var init := rs[..|rs| - 1];
      var before := GroupColumn(init, p, col);
      assert forall v :: v in before ==> exists k :: 0 <= k < |rs| && rs[k].province == p && col(rs[k]) == v by {
        forall v | v in before ensures exists k :: 0 <= k < |rs| && rs[k].province == p && col(rs[k]) == v {
          var k :| 0 <= k < |init| && init[k].province == p && col(init[k]) == v;
          assert rs[k] == init[k];
        }
      }
      before + (if rs[|rs| - 1].province == p then [col(rs[|rs| - 1])] else [])
  }

  /** A province's mean usage, unit price and charge. */
  datatype RegionMeans = RegionMeans(
    province: string, usageKwh: Option<real>, unitPriceWon: Option<real>, chargeWon: Option<real>)

  function MeansUsage(m: RegionMeans): Option<real> { m.usageKwh }

  /** `groupby('시구').agg(mean).round(2)`: one row per province, each mean
      rounded to two decimals. */
  function GroupMeans(rs: seq<Record>): (r: seq<RegionMeans>)
    ensures |r| == |Provinces(rs)|
    ensures forall i :: 0 <= i < |r| ==> r[i].province == Provinces(rs)[i]
  {
    var ps := Provinces(rs);
    seq(|ps|, i requires 0 <= i < |ps| =>
      RegionMeans(ps[i],
        RoundOption(Mean(GroupColumn(rs, ps[i], RecordUsage)), TwoDecimals),
        RoundOption(Mean(GroupColumn(rs, ps[i], RecordUnitPrice)), TwoDecimals),
        RoundOption(Mean(GroupColumn(rs, ps[i], RecordCharge)), TwoDecimals)))
  }

  /** A row of the usage ranking. */
  datatype RegionUsage = RegionUsage(
    province: string,
    usageKwh: Option<real>,
    unitPriceWon: Option<real>,
    chargeWon: Option<real>,
    sharePercent: Option<real>,
    rank: nat)

  function UsageColumn(ms: seq<RegionMeans>): (r: seq<Option<real>>)
    ensures |r| == |ms| && forall i :: 0 <= i < |ms| ==> r[i] == ms[i].usageKwh
  {
    seq(|ms|, i requires 0 <= i < |ms| => ms[i].usageKwh)
  }

  /** A usage as a percentage of the total; NaN when the usage is NaN or
      the total is zero. */
  function Share(u: Option<real>, total: real): (r: Option<real>)
    ensures r.Some? <==> u.Some? && total != 0.0
  {
    if u.Some? && total != 0.0 then Some(Percent(u.value, total)) else None
  }

  function SharesOf(us: seq<Option<real>>, total: real): (r: seq<Option<real>>)
    ensures |r| == |us| && forall i :: 0 <= i < |us| ==> r[i] == Share(us[i], total)
  {
    seq(|us|, i requires 0 <= i < |us| => Share(us[i], total))
  }

  /** `analyze_regional_power_usage`: provinces by mean usage, largest
      first and NaN last, with each usage's share of the total and ranks
      1..N. */
  function RegionalUsage(rs: seq<Record>): seq<RegionUsage> {
    RankRows(SortDescendingNanLast(GroupMeans(rs), MeansUsage))
  }

  /** Ranks 1..N in the given order, with each usage's share of the column
      total. */
  function RankRows(ms: seq<RegionMeans>): (r: seq<RegionUsage>)
    ensures |r| == |ms|
    ensures forall i :: 0 <= i < |ms| ==>
      r[i] == RegionUsage(ms[i].province, ms[i].usageKwh, ms[i].unitPriceWon, ms[i].chargeWon,
        Share(ms[i].usageKwh, Sum(SomeValues(UsageColumn(ms)))), i + 1)
  {
    var total := Sum(SomeValues(UsageColumn(ms)));
    seq(|ms|, i requires 0 <= i < |ms| =>
      RegionUsage(ms[i].province, ms[i].usageKwh, ms[i].unitPriceWon, ms[i].chargeWon,
        Share(ms[i].usageKwh, total), i + 1))
  }

  function RankedUsage(r: seq<RegionUsage>): (u: seq<Option<real>>)
    ensures |u| == |r| && forall i :: 0 <= i < |r| ==> u[i] == r[i].usageKwh
  {
    seq(|r|, i requires 0 <= i < |r| => r[i].usageKwh)
  }

  function ShareColumn(r: seq<RegionUsage>): (u: seq<Option<real>>)
    ensures |u| == |r| && forall i :: 0 <= i < |r| ==> u[i] == r[i].sharePercent
  {
    seq(|r|, i requires 0 <= i < |r| => r[i].sharePercent)
  }

  /** The ranking has one row per province of the records; usages descend
      with NaN last; ranks run 1..N. */
  lemma RegionalUsageOrder(rs: seq<Record>)
    ensures var r := RegionalUsage(rs);
      && |r| == |Provinces(rs)|
      && (forall i :: 0 <= i < |r| ==> r[i].rank == i + 1)
      && (forall i, j :: 0 <= i < j < |r| && r[j].usageKwh.Some? ==>
            r[i].usageKwh.Some? && r[i].usageKwh.value >= r[j].usageKwh.value)
  {
    var ms := GroupMeans(rs);
    var sorted := SortDescendingNanLast(ms, MeansUsage);
    SortDescendingNanLastSpec(ms, MeansUsage);
    var r := RegionalUsage(rs);
    forall i, j | 0 <= i < j < |r| && r[j].usageKwh.Some?
      ensures r[i].usageKwh.Some? && r[i].usageKwh.value >= r[j].usageKwh.value
    {
      assert MeansUsage(sorted[j]).Some?;
    }
  }

  /** Each row of the ranking holds a province of the records with that
      province's mean usage, unit price and charge. */
  lemma RegionalUsageMeans(rs: seq<Record>, i: nat)
    requires i < |RegionalUsage(rs)|
    ensures var r := RegionalUsage(rs);
      && r[i].province in Provinces(rs)
      && r[i].usageKwh == RoundOption(Mean(GroupColumn(rs, r[i].province, RecordUsage)), TwoDecimals)
      && r[i].unitPriceWon == RoundOption(Mean(GroupColumn(rs, r[i].province, RecordUnitPrice)), TwoDecimals)
      && r[i].chargeWon == RoundOption(Mean(GroupColumn(rs, r[i].province, RecordCharge)), TwoDecimals)
  {
    var ms := GroupMeans(rs);
    var sorted := SortDescendingNanLast(ms, MeansUsage);
    SortDescendingNanLastSpec(ms, MeansUsage);
    assert sorted[i] in multiset(ms);
    var k :| 0 <= k < |ms| && ms[k] == sorted[i];
  }

  /** Shares of a total computed from the same column: the present ones are
      the column's present values as percentages. */
  lemma {:induction false} SomeSharesArePercentages(us: seq<Option<real>>, total: real)
    requires total != 0.0
    ensures SomeValues(SharesOf(us, total)) == Percentages(SomeValues(us), total)
  {
    if |us| > 0 {
      var init := us[..|us| - 1];
      var last := us[|us| - 1];
      SomeSharesArePercentages(init, total);
      var tail := if last.Some? then [last.value] else [];
      var shareTail := if last.Some? then [Share(last, total).value] else [];
      assert SomeValues(SharesOf(us, total)) == SomeValues(SharesOf(init, total)) + shareTail by {
        assert SharesOf(us, total) == SharesOf(init, total) + [Share(last, total)];
        SomeValuesSnoc(SharesOf(init, total), Share(last, total));
      }
      assert Percentages(SomeValues(us), total) == Percentages(SomeValues(init), total) + Percentages(tail, total) by {
        assert us == init + [last];
        SomeValuesSnoc(init, last);
        PercentagesAppend(SomeValues(init), tail, total);
      }
      assert shareTail == Percentages(tail, total);
    }
  }

  /** Whenever the total usage is not zero, the shares add up to 100. */
  lemma SharesSumTo100(rs: seq<Record>)
    requires Sum(SomeValues(RankedUsage(RegionalUsage(rs)))) != 0.0
    ensures Sum(SomeValues(ShareColumn(RegionalUsage(rs)))) == 100.0
  {
    RankedSharesSum(SortDescendingNanLast(GroupMeans(rs), MeansUsage));
  }

  lemma RankedSharesSum(ms: seq<RegionMeans>)
    requires Sum(SomeValues(RankedUsage(RankRows(ms)))) != 0.0
    ensures Sum(SomeValues(ShareColumn(RankRows(ms)))) == 100.0
  {
    var us := UsageColumn(ms);
    var total := Sum(SomeValues(us));
    var r := RankRows(ms);
    assert RankedUsage(r) == us by {
      forall i | 0 <= i < |r| ensures RankedUsage(r)[i] == us[i] {}
    }
    var shares := SharesOf(us, total);
    assert ShareColumn(r) == shares by {
      forall i | 0 <= i < |r| ensures ShareColumn(r)[i] == shares[i] {}
    }
    var vs := SomeValues(us);
    SomeSharesArePercentages(us, total);
    PercentagesSum(vs, total);
    assert Sum(SomeValues(shares)) == total / total * 100.0;
    DivSelf(total);
    assert Sum(SomeValues(ShareColumn(r))) == 100.0;
  }

  // ---------------------------------------------------------------------
  // Unit-price spread.
  // ---------------------------------------------------------------------

  /** `idxmax` over a column that may hold NaN: the position of the first
      largest present value, or nothing when every value is NaN. */
  function ArgMaxFirst(xs: seq<Option<real>>): (r: Option<nat>)
    ensures r.None? <==> forall i :: 0 <= i < |xs| ==> xs[i].None?
    ensures r.Some? ==> r.value < |xs| && xs[r.value].Some?
    ensures r.Some? ==> forall i :: 0 <= i < |xs| && xs[i].Some? ==> xs[i].value <= xs[r.value].value
    ensures r.Some? ==> forall i :: 0 <= i < r.value && xs[i].Some? ==> xs[i].value < xs[r.value].value
  {
    if |xs| == 0 then None
    else
      var init := xs[..|xs| - 1];
      var last := |xs| - 1;
      assert forall i :: 0 <= i < last ==> init[i] == xs[i];
      var m := ArgMaxFirst(init);
      if xs[last].None? then m
      else if m.None? || xs[last].value > xs[m.value].value then Some(last)
      else m
  }

  function Negated(xs: seq<Option<real>>): (r: seq<Option<real>>)
    ensures |r| == |xs|
    ensures forall i :: 0 <= i < |xs| ==> r[i].Some? == xs[i].Some?
    ensures forall i :: 0 <= i < |xs| && xs[i].Some? ==> r[i].value == -xs[i].value
  {
    seq(|xs|, i requires 0 <= i < |xs| => if xs[i].Some? then Some(-xs[i].value) else None)
  }

  /** `idxmin`: the position of the first smallest present value. */
  function ArgMinFirst(xs: seq<Option<real>>): (r: Option<nat>)
    ensures r.None? <==> forall i :: 0 <= i < |xs| ==> xs[i].None?
    ensures r.Some? ==> r.value < |xs| && xs[r.value].Some?
    ensures r.Some? ==> forall i :: 0 <= i < |xs| && xs[i].Some? ==> xs[r.value].value <= xs[i].value
    ensures r.Some? ==> forall i :: 0 <= i < r.value && xs[i].Some? ==> xs[r.value].value < xs[i].value
  {
    var neg := Negated(xs);
    var r := ArgMaxFirst(neg);
    assert (forall i :: 0 <= i < |xs| ==> xs[i].None?) <==> (forall i :: 0 <= i < |neg| ==> neg[i].None?);
    r
  }

  function PriceColumn(r: seq<RegionUsage>): (u: seq<Option<real>>)
    ensures |u| == |r| && forall i :: 0 <= i < |r| ==> u[i] == r[i].unitPriceWon
  {
    seq(|r|, i requires 0 <= i < |r| => r[i].unitPriceWon)
  }

  /** The unit-price statistics: the dearest and the cheapest province, the
      mean, and the gap in won and as a percentage of the cheapest price. */
  datatype CostStats = CostStats(
    maxRegion: string, maxPrice: real,
    minRegion: string, minPrice: real,
    meanPrice: real,
    gapWon: real,
    gapPercent: Option<real>)

  datatype AnalysisError = NothingLoaded | NotCleaned | NoPrices

  /** The gap as a percentage of the cheapest price; a zero cheapest price
      makes it infinite or NaN, which is `None`. */
  function GapPercent(gapWon: real, minPrice: real): (p: Option<real>)
    ensures p.Some? <==> minPrice != 0.0
    ensures p.Some? ==> p.value * minPrice == gapWon * 100.0
  {
    if minPrice != 0.0 then Some(gapWon / minPrice * 100.0) else None
  }

  /** The statistics once the dearest row `hi` and the cheapest row `lo`
      are known. */
  function StatsAt(r: seq<RegionUsage>, hi: nat, lo: nat): (c: CostStats)
    requires hi < |r| && lo < |r| && r[hi].unitPriceWon.Some? && r[lo].unitPriceWon.Some?
    requires forall i :: 0 <= i < |r| && r[i].unitPriceWon.Some? ==>
      r[lo].unitPriceWon.value <= r[i].unitPriceWon.value <= r[hi].unitPriceWon.value
    ensures r[hi].province == c.maxRegion && r[hi].unitPriceWon == Some(c.maxPrice)
    ensures r[lo].province == c.minRegion && r[lo].unitPriceWon == Some(c.minPrice)
    ensures c.minPrice <= c.meanPrice <= c.maxPrice
    ensures c.gapWon == c.maxPrice - c.minPrice && c.gapWon >= 0.0
    ensures c.gapPercent == GapPercent(c.gapWon, c.minPrice)
  {
    var prices := PriceColumn(r);
    var maxP := r[hi].unitPriceWon.value;
    var minP := r[lo].unitPriceWon.value;
    MeanBounds(prices, minP, maxP);
    var gap := maxP - minP;
    CostStats(r[hi].province, maxP, r[lo].province, minP, Mean(prices).value, gap,
      GapPercent(gap, minP))
  }

  /** `analyze_power_cost_gap` on the ranking. With no price at all
      `idxmax` raises. A zero minimum price makes the percentage infinite
      or NaN, which is `None` here. */
  function CostGap(r: seq<RegionUsage>): (c: Result<CostStats, AnalysisError>)
    ensures c.Err? <==> forall i :: 0 <= i < |r| ==> r[i].unitPriceWon.None?
    ensures c.Err? ==> c.error == NoPrices
  {
    var prices := PriceColumn(r);
    match ArgMaxFirst(prices)
    case None => Err(NoPrices)
    case Some(hi) =>
      var lo := ArgMinFirst(prices).value;
      Ok(StatsAt(r, hi, lo))
  }

  /** The dearest and the cheapest province carry the extreme prices, every
      price lies between them, the mean lies between them and the gap is
      their difference. */
  lemma CostGapSpec(r: seq<RegionUsage>)
    requires CostGap(r).Ok?
    ensures var c := CostGap(r).value;
      && (exists i :: 0 <= i < |r| && r[i].province == c.maxRegion && r[i].unitPriceWon == Some(c.maxPrice))
      && (exists i :: 0 <= i < |r| && r[i].province == c.minRegion && r[i].unitPriceWon == Some(c.minPrice))
      && (forall i :: 0 <= i < |r| && r[i].unitPriceWon.Some? ==> c.minPrice <= r[i].unitPriceWon.value <= c.maxPrice)
      && c.minPrice <= c.meanPrice <= c.maxPrice
      && c.gapWon == c.maxPrice - c.minPrice && c.gapWon >= 0.0
      && c.gapPercent == GapPercent(c.gapWon, c.minPrice)
  {
    var prices := PriceColumn(r);
    var hi := ArgMaxFirst(prices).value;
    var lo := ArgMinFirst(prices).value;
    assert CostGap(r).value == StatsAt(r, hi, lo);
  }

  /** `pd.cut(prices, bins=5)`: five equal-width bins between the minimum
      and the maximum, each closed on the right, the lowest also holding the
      minimum; when all prices are equal, the middle bin. */
  function PriceBand(x: real, lo: real, hi: real): (b: nat)
    requires lo <= x <= hi
    ensures b <= 4
    ensures lo < hi && x == lo ==> b == 0
    ensures lo < hi && x == hi ==> b == 4
    ensures lo == hi ==> b == 2
    ensures lo < hi && b > 0 ==> lo + (b as real) * (hi - lo) / 5.0 < x
    ensures lo < hi ==> x <= lo + (b as real + 1.0) * (hi - lo) / 5.0
  {
    if lo == hi then 2
    else
      var w := (hi - lo) / 5.0;
      if x <= lo + w then 0
      else if x <= lo + 2.0 * w then 1
      else if x <= lo + 3.0 * w then 2
      else if x <= lo + 4.0 * w then 3
      else 4
  }

  /** A dearer price never falls in a cheaper band. */
  lemma PriceBandMonotone(x: real, y: real, lo: real, hi: real)
    requires lo <= x <= y <= hi
    ensures PriceBand(x, lo, hi) <= PriceBand(y, lo, hi)
  {
  }

  /** The band label of every province, NaN where the price is NaN. */
  function PriceBands(r: seq<RegionUsage>, c: CostStats): (b: seq<Option<nat>>)
    requires forall i :: 0 <= i < |r| && r[i].unitPriceWon.Some? ==>
      c.minPrice <= r[i].unitPriceWon.value <= c.maxPrice
    ensures |b| == |r|
    ensures forall i :: 0 <= i < |r| ==> (b[i].Some? <==> r[i].unitPriceWon.Some?)
    ensures forall i :: 0 <= i < |r| && b[i].Some? ==>
      b[i].value == PriceBand(r[i].unitPriceWon.value, c.minPrice, c.maxPrice)
  {
    seq(|r|, i requires 0 <= i < |r| =>
      if r[i].unitPriceWon.Some? then Some(PriceBand(r[i].unitPriceWon.value, c.minPrice, c.maxPrice))
      else None)
  }

  /** The names `pd.cut` gives the five price bands, cheapest first. */
  const PriceBandLabels: seq<string> := ["매우저렴", "저렴", "보통", "비쌈", "매우비쌌"]

  /** Every band has a name, and no two bands share one, so the label
      column determines the band. */
  lemma PriceBandLabelsName(x: real, lo: real, hi: real, y: real)
    requires lo <= x <= hi && lo <= y <= hi
    ensures PriceBand(x, lo, hi) < |PriceBandLabels|
    ensures PriceBandLabels[PriceBand(x, lo, hi)] == PriceBandLabels[PriceBand(y, lo, hi)]
        <==> PriceBand(x, lo, hi) == PriceBand(y, lo, hi)
  {
  }

  // ---------------------------------------------------------------------
  // Data-centre site scores.
  // ---------------------------------------------------------------------

  datatype Grade = S | A | B | C | D {
    /** 0 for the best grade, 4 for the worst. */
    function Order(): nat {
      match this
      case S => 0
      case A => 1
      case B => 2
      case C => 3
      case D => 4
    }

    function Label(): string {
      match this
      case S => "S급 (최적)"
      case A => "A급 (우수)"
      case B => "B급 (양호)"
      case C => "C급 (보통)"
      case D => "D급 (부적합)"
    }
  }

  /** The five grade labels are distinct, so the label column determines
      the grade. */
  lemma GradeLabelsDistinct(a: Grade, b: Grade)
    requires a != b
    ensures a.Label() != b.Label()
  {
  }

  /** `get_datacenter_grade`; a NaN score fails every comparison and is
      graded D. */
  function GradeOf(score: Option<real>): (g: Grade)
    ensures g == S <==> score.Some? && score.value >= 80.0
    ensures g == A <==> score.Some? && 70.0 <= score.value < 80.0
    ensures g == B <==> score.Some? && 60.0 <= score.value < 70.0
    ensures g == C <==> score.Some? && 50.0 <= score.value < 60.0
    ensures g == D <==> score.None? || score.value < 50.0
  {
    match score
    case None => D
    case Some(v) =>
      if v >= 80.0 then S
      else if v >= 70.0 then A
      else if v >= 60.0 then B
      else if v >= 50.0 then C
      else D
  }

  /** A higher score never gets a worse grade. */
  lemma GradeMonotone(x: real, y: real)
    requires x <= y
    ensures GradeOf(Some(y)).Order() <= GradeOf(Some(x)).Order()
  {
  }

  /** `(usage / max_usage * 100).round(2)`; NaN when either is NaN or the
      maximum is zero. */
  function InfraScore(u: Option<real>, maxU: Option<real>): (r: Option<real>)
    ensures r.Some? <==> u.Some? && maxU.Some? && maxU.value != 0.0
    ensures r.Some? ==> r.value == Round(u.value / maxU.value * 100.0, TwoDecimals)
    ensures r.Some? && 0.0 <= u.value <= maxU.value ==> 0.0 <= r.value <= 100.0
    ensures r.Some? && u.value == maxU.value ==> r.value == 100.0
  {
    if u.Some? && maxU.Some? && maxU.value != 0.0 then
      ShareScoreBounds(u.value, maxU.value);
      Some(Round(u.value / maxU.value * 100.0, TwoDecimals))
    else None
  }

  /** `((max_cost - price) / max_cost * 100).round(2)`; NaN when either is
      NaN or the maximum is zero. */
  function CostScore(p: Option<real>, maxP: Option<real>): (r: Option<real>)
    ensures r.Some? <==> p.Some? && maxP.Some? && maxP.value != 0.0
    ensures r.Some? ==> r.value == Round((maxP.value - p.value) / maxP.value * 100.0, TwoDecimals)
    ensures r.Some? && 0.0 <= p.value <= maxP.value ==> 0.0 <= r.value <= 100.0
    ensures r.Some? && p.value == maxP.value ==> r.value == 0.0
  {
    if p.Some? && maxP.Some? && maxP.value != 0.0 then
      ShareScoreBounds(maxP.value - p.value, maxP.value);
      Some(Round((maxP.value - p.value) / maxP.value * 100.0, TwoDecimals))
    else None
  }

  /** A part `x` of a whole `m`, as a percentage rounded to two decimals,
      lies in [0, 100]; none of it scores 0 and all of it 100. */
  lemma ShareScoreBounds(x: real, m: real)
    requires m != 0.0
    ensures 0.0 <= x <= m ==> 0.0 <= Round(x / m * 100.0, TwoDecimals) <= 100.0
    ensures x == m ==> Round(x / m * 100.0, TwoDecimals) == 100.0
    ensures x == 0.0 ==> Round(x / m * 100.0, TwoDecimals) == 0.0
  {
    var q := x / m * 100.0;
    if 0.0 <= x <= m {
      DivAtMostOne(x, m);
      DivNonneg(x, m);
      RoundPercent(q, TwoDecimals);
    }
    if x == m {
      DivSelf(m);
      RoundPercent(q, TwoDecimals);
    }
    if x == 0.0 {
      RoundPercent(q, TwoDecimals);
    }
  }

  /** `(infra * 0.4 + cost * 0.6).round(2)`. */
  function OverallScore(infra: Option<real>, cost: Option<real>): (r: Option<real>)
    ensures r.Some? <==> infra.Some? && cost.Some?
    ensures r.Some? ==> r.value == Round(infra.value * 0.4 + cost.value * 0.6, TwoDecimals)
    ensures r.Some? && 0.0 <= infra.value <= 100.0 && 0.0 <= cost.value <= 100.0 ==>
      0.0 <= r.value <= 100.0
  {
    if infra.Some? && cost.Some? then
      var w := infra.value * 0.4 + cost.value * 0.6;
      assert 0.0 <= infra.value <= 100.0 && 0.0 <= cost.value <= 100.0 ==>
        0.0 <= Round(w, TwoDecimals) <= 100.0 by {
        if 0.0 <= infra.value <= 100.0 && 0.0 <= cost.value <= 100.0 {
          RoundPercent(w, TwoDecimals);
        }
      }
      Some(Round(w, TwoDecimals))
    else None
  }

  /** The overall score rises with each component. */
  lemma OverallMonotone(i1: real, c1: real, i2: real, c2: real)
    requires i1 <= i2 && c1 <= c2
    ensures OverallScore(Some(i1), Some(c1)).value <= OverallScore(Some(i2), Some(c2)).value
  {
    RoundMono(i1 * 0.4 + c1 * 0.6, i2 * 0.4 + c2 * 0.6, TwoDecimals);
  }

  /** `Series.max()`: the largest present value, NaN when there is none. */
  function MaxOf(xs: seq<Option<real>>): (m: Option<real>)
    ensures m.None? <==> forall i :: 0 <= i < |xs| ==> xs[i].None?
    ensures m.Some? ==> forall i :: 0 <= i < |xs| && xs[i].Some? ==> xs[i].value <= m.value
    ensures m.Some? ==> exists i :: 0 <= i < |xs| && xs[i] == m
  {
    match ArgMaxFirst(xs)
    case None => None
    case Some(k) => xs[k]
  }

  /** A row of the site ranking. */
  datatype SiteScore = SiteScore(
    province: string,
    usageKwh: Option<real>,
    unitPriceWon: Option<real>,
    infraScore: Option<real>,
    costScore: Option<real>,
    overallScore: Option<real>,
    rank: nat,
    grade: Grade)

  function SiteOverall(s: SiteScore): Option<real> { s.overallScore }

  /** The scores of every province, in ranking order, not yet ranked. */
  function ScoredSites(r: seq<RegionUsage>): (s: seq<SiteScore>)
    ensures |s| == |r|
    ensures forall i :: 0 <= i < |r| ==>
      var maxU := MaxOf(RankedUsage(r));
      var maxP := MaxOf(PriceColumn(r));
      var infra := InfraScore(r[i].usageKwh, maxU);
      var cost := CostScore(r[i].unitPriceWon, maxP);
      s[i] == SiteScore(r[i].province, r[i].usageKwh, r[i].unitPriceWon, infra, cost,
        OverallScore(infra, cost), 0, GradeOf(OverallScore(infra, cost)))
  {
    var maxU := MaxOf(RankedUsage(r));
    var maxP := MaxOf(PriceColumn(r));
    seq(|r|, i requires 0 <= i < |r| =>
      var infra := InfraScore(r[i].usageKwh, maxU);
      var cost := CostScore(r[i].unitPriceWon, maxP);
      var overall := OverallScore(infra, cost);
      SiteScore(r[i].province, r[i].usageKwh, r[i].unitPriceWon, infra, cost, overall, 0,
        GradeOf(overall)))
  }

  /** Ranks 1..N in the given order. */
  function NumberSites(s: seq<SiteScore>): (r: seq<SiteScore>)
    ensures |r| == |s|
    ensures forall i :: 0 <= i < |s| ==> r[i] == s[i].(rank := i + 1)
  {
    seq(|s|, i requires 0 <= i < |s| => s[i].(rank := i + 1))
  }

  /** `find_optimal_datacenter_locations`: the provinces by overall score,
      best first and NaN last, ranked 1..N and graded. */
  function OptimalSites(r: seq<RegionUsage>): seq<SiteScore> {
    NumberSites(SortDescendingNanLast(ScoredSites(r), SiteOverall))
  }

  function Unranked(s: seq<SiteScore>): (r: seq<SiteScore>)
    ensures |r| == |s| && forall i :: 0 <= i < |s| ==> r[i] == s[i].(rank := 0)
  {
    seq(|s|, i requires 0 <= i < |s| => s[i].(rank := 0))
  }

  /** The site ranking holds the scored provinces, each once, ordered by
      overall score with NaN last; ranks run 1..N. */
  lemma OptimalSitesOrder(r: seq<RegionUsage>)
    ensures var o := OptimalSites(r);
      && |o| == |r|
      && multiset(Unranked(o)) == multiset(ScoredSites(r))
      && (forall i :: 0 <= i < |o| ==> o[i].rank == i + 1)
      && (forall i, j :: 0 <= i < j < |o| && o[j].overallScore.Some? ==>
            o[i].overallScore.Some? && o[i].overallScore.value >= o[j].overallScore.value)
  {
    var scored := ScoredSites(r);
    var sorted := SortDescendingNanLast(scored, SiteOverall);
    SortDescendingNanLastSpec(scored, SiteOverall);
    var o := OptimalSites(r);
    UnrankedOptimalSites(r);
    forall i, j | 0 <= i < j < |o| && o[j].overallScore.Some?
      ensures o[i].overallScore.Some? && o[i].overallScore.value >= o[j].overallScore.value
    {
      assert SiteOverall(sorted[j]).Some?;
    }
  }

  /** Numbering the sorted sites changes only their rank. */
  lemma UnrankedOptimalSites(r: seq<RegionUsage>)
    ensures Unranked(OptimalSites(r)) == SortDescendingNanLast(ScoredSites(r), SiteOverall)
  {
    var scored := ScoredSites(r);
    var sorted := SortDescendingNanLast(scored, SiteOverall);
    SortDescendingNanLastSpec(scored, SiteOverall);
    var o := OptimalSites(r);
    forall i | 0 <= i < |o| ensures Unranked(o)[i] == sorted[i] {
      assert sorted[i] in multiset(scored);
      var k :| 0 <= k < |scored| && scored[k] == sorted[i];
    }
  }

  /** Each site's grade is the grade of its overall score. */
  lemma OptimalSitesGrades(r: seq<RegionUsage>, i: nat)
    requires i < |OptimalSites(r)|
    ensures OptimalSites(r)[i].grade == GradeOf(OptimalSites(r)[i].overallScore)
  {
    var scored := ScoredSites(r);
    var sorted := SortDescendingNanLast(scored, SiteOverall);
    SortDescendingNanLastSpec(scored, SiteOverall);
    assert sorted[i] in multiset(scored);
    var k :| 0 <= k < |scored| && scored[k] == sorted[i];
  }

  /** With every usage present and non-negative, some usage positive and
      every price positive: all three scores lie in [0, 100], the largest
      user scores 100 for infrastructure and the dearest province 0 for
      cost. */
  lemma ScoresBounded(r: seq<RegionUsage>)
    requires forall i :: 0 <= i < |r| ==> r[i].usageKwh.Some? && r[i].usageKwh.value >= 0.0
    requires exists i :: 0 <= i < |r| && r[i].usageKwh.value > 0.0
    requires forall i :: 0 <= i < |r| ==> r[i].unitPriceWon.Some? && r[i].unitPriceWon.value > 0.0
    ensures var s := ScoredSites(r);
      && (forall i :: 0 <= i < |s| ==>
            && s[i].infraScore.Some? && 0.0 <= s[i].infraScore.value <= 100.0
            && s[i].costScore.Some? && 0.0 <= s[i].costScore.value <= 100.0
            && s[i].overallScore.Some? && 0.0 <= s[i].overallScore.value <= 100.0)
      && (exists i :: 0 <= i < |s| && s[i].infraScore == Some(100.0))
      && (exists i :: 0 <= i < |s| && s[i].costScore == Some(0.0))
  {
    var s := ScoredSites(r);
    var us := RankedUsage(r);
    var ps := PriceColumn(r);
    var maxU := MaxOf(us);
    var maxP := MaxOf(ps);
    var k :| 0 <= k < |r| && r[k].usageKwh.value > 0.0;
    assert us[k].Some? && maxU.value >= us[k].value > 0.0;
    assert ps[0].Some? && maxP.value >= ps[0].value > 0.0;
    var iu :| 0 <= iu < |us| && us[iu] == maxU;
    var ip :| 0 <= ip < |ps| && ps[ip] == maxP;
    assert s[iu].infraScore == Some(100.0);
    assert s[ip].costScore == Some(0.0);
    forall i | 0 <= i < |s|
      ensures && s[i].infraScore.Some? && 0.0 <= s[i].infraScore.value <= 100.0
              && s[i].costScore.Some? && 0.0 <= s[i].costScore.value <= 100.0
              && s[i].overallScore.Some? && 0.0 <= s[i].overallScore.value <= 100.0
    {
      assert us[i] == r[i].usageKwh && ps[i] == r[i].unitPriceWon;
      SiteScoresBounded(r[i].usageKwh.value, maxU.value, r[i].unitPriceWon.value, maxP.value);
    }
  }

  /** A present usage and price no larger than their maxima score in
      [0, 100] on every count. */
  lemma SiteScoresBounded(u: real, maxU: real, p: real, maxP: real)
    requires 0.0 <= u <= maxU && maxU != 0.0 && 0.0 <= p <= maxP && maxP != 0.0
    ensures var infra := InfraScore(Some(u), Some(maxU));
      var cost := CostScore(Some(p), Some(maxP));
      && infra.Some? && 0.0 <= infra.value <= 100.0
      && cost.Some? && 0.0 <= cost.value <= 100.0
      && OverallScore(infra, cost).Some? && 0.0 <= OverallScore(infra, cost).value <= 100.0
  {
  }

  /** The rounding of each score decides grades at a band edge: a province
      using as much as the largest user at a unit price of 33.34 against a
      dearest 100 scores 100 and 66.66, whose weighted 79.996 rounds to
      80.0 and is graded S, where the unrounded figure would be graded A. */
  lemma RoundedGradeExample()
    ensures InfraScore(Some(100.0), Some(100.0)) == Some(100.0)
    ensures CostScore(Some(33.34), Some(100.0)) == Some(66.66)
    ensures OverallScore(Some(100.0), Some(66.66)) == Some(80.0)
    ensures GradeOf(Some(80.0)) == S && GradeOf(Some(79.996)) == A
  {
    ShareScoreBounds(100.0, 100.0);
    RoundExact(6666, TwoDecimals);
    assert (100.0 - 33.34) / 100.0 * 100.0 == 6666.0 / 100.0;
    assert RoundHalfEven(7999.6) == 8000;
  }

  /** Overall scores of 90, 75 and 50 are graded S, A and C. */
  lemma GradeExamples()
    ensures GradeOf(Some(90.0)) == S && GradeOf(Some(75.0)) == A && GradeOf(Some(50.0)) == C
    ensures GradeOf(Some(49.99)) == D && GradeOf(None) == D
  {
  }

  // ---------------------------------------------------------------------
  // The analyzer object.
  // ---------------------------------------------------------------------

  /** `processed_data`: nothing loaded, the loaded rows when cleaning
      raised, or the cleaned records. */
  datatype Processed = Unloaded | Raw(rows: seq<Row>) | Cleaned(records: seq<Record>)

  class PowerAnalyzer {
    var processedData: Processed
    /** The entries of `analysis_results`. */
    var usageRanking: Option<seq<RegionUsage>>
    var costGap: Option<CostStats>
    var priceBands: Option<seq<Option<nat>>>
    var optimalSites: Option<seq<SiteScore>>

    constructor()
      ensures processedData == Unloaded
      ensures usageRanking == None && costGap == None && priceBands == None && optimalSites == None
    {
      processedData := Unloaded;
      usageRanking := None;
      costGap := None;
      priceBands := None;
      optimalSites := None;
    }

    /** `load_excel_files` over the given sheets: the frames of every sheet
        with a YYYYMM row are joined and cleaned. With no such sheet nothing
        changes; when joining raises nothing changes either; when cleaning
        raises, the joined rows stay as they are. */
    method LoadExcelFiles(sheets: seq<seq<Row>>) returns (r: Result<(), CleanError>)
      modifies this
      ensures |Frames(sheets)| == 0 ==> r == Ok(()) && processedData == old(processedData)
      ensures |Frames(sheets)| > 0 && Concat(Frames(sheets)).Err? ==>
        r == Err(Concat(Frames(sheets)).error) && processedData == old(processedData)
      ensures |Frames(sheets)| > 0 && Concat(Frames(sheets)).Ok? ==>
        var rows := Concat(Frames(sheets)).value;
        match CleanFrame(rows)
        case Ok(recs) => r == Ok(()) && processedData == Cleaned(recs)
        case Err(e) => r == Err(e) && processedData == Raw(rows)
      ensures usageRanking == old(usageRanking) && costGap == old(costGap)
      ensures priceBands == old(priceBands) && optimalSites == old(optimalSites)
    {
      var allData := CollectFrames(sheets);
      r := Ok(());
      if |allData| > 0 {
        var joined := Concat(allData);
        if joined.Err? {
          return Err(joined.error);
        }
        processedData := Raw(joined.value);
        r := CleanData();
      }
    }

    /** The loop of `load_excel_files`: the frame of every sheet with a
        start row, in sheet order. */
    static method CollectFrames(sheets: seq<seq<Row>>) returns (allData: seq<Sheet>)
      ensures allData == Frames(sheets)
    {
      allData := [];
      var i := 0;
      while i < |sheets|
        invariant 0 <= i <= |sheets|
        invariant allData == Frames(sheets[..i])
      {
        FramesStep(sheets, i);
        allData := allData + FrameOf(sheets[i]);
        i := i + 1;
      }
      assert sheets[..|sheets|] == sheets;
    }

    /** `clean_data`: the loaded rows become province-level records. Rows
        that were already cleaned have dates written as YYYY-MM-DD, which
        the YYYYMM format rejects. */
    method CleanData() returns (r: Result<(), CleanError>)
      modifies this
      ensures old(processedData).Unloaded? ==> r == Ok(()) && processedData == Unloaded
      ensures old(processedData).Raw? ==>
        match CleanFrame(old(processedData).rows)
        case Ok(recs) => r == Ok(()) && processedData == Cleaned(recs)
        case Err(e) => r == Err(e) && processedData == old(processedData)
      ensures old(processedData).Cleaned? ==> processedData == old(processedData)
      ensures old(processedData).Cleaned? && |old(processedData).records| > 0 ==>
        r == Err(BadYearMonth(IsoDateText(old(processedData).records[0].yearMonth)))
      ensures old(processedData).Cleaned? && |old(processedData).records| == 0 ==> r == Ok(())
      ensures usageRanking == old(usageRanking) && costGap == old(costGap)
      ensures priceBands == old(priceBands) && optimalSites == old(optimalSites)
    {
      match processedData
      case Unloaded =>
        r := Ok(());
      case Raw(rows) =>
        var cleaned := CleanFrame(rows);
        if cleaned.Ok? {
          processedData := Cleaned(cleaned.value);
          r := Ok(());
        } else {
          r := Err(cleaned.error);
        }
      case Cleaned(recs) =>
        if |recs| > 0 {
          r := Err(BadYearMonth(IsoDateText(recs[0].yearMonth)));
        } else {
          r := Ok(());
        }
    }

    /** `analyze_regional_power_usage`: recomputes and stores the ranking
        from the cleaned records. */
    method AnalyzeRegionalPowerUsage() returns (r: Result<seq<RegionUsage>, AnalysisError>)
      modifies this
      ensures processedData == old(processedData)
      ensures processedData.Unloaded? ==> r == Err(NothingLoaded) && usageRanking == old(usageRanking)
      ensures processedData.Raw? ==> r == Err(NotCleaned) && usageRanking == old(usageRanking)
      ensures processedData.Cleaned? ==>
        r == Ok(RegionalUsage(processedData.records)) && usageRanking == Some(r.value)
      ensures costGap == old(costGap) && priceBands == old(priceBands)
      ensures optimalSites == old(optimalSites)
    {
      match processedData
      case Unloaded =>
        r := Err(NothingLoaded);
      case Raw(_) =>
        r := Err(NotCleaned);
      case Cleaned(recs) =>
        var ranking := RegionalUsage(recs);
        usageRanking := Some(ranking);
        r := Ok(ranking);
    }

    /** The stored ranking, computed first when there is none. */
    method Ranking() returns (r: Result<seq<RegionUsage>, AnalysisError>)
      modifies this
      ensures processedData == old(processedData)
      ensures old(usageRanking).Some? ==> r == Ok(old(usageRanking).value) && usageRanking == old(usageRanking)
      ensures old(usageRanking).None? && processedData.Cleaned? ==>
        r == Ok(RegionalUsage(processedData.records)) && usageRanking == Some(r.value)
      ensures old(usageRanking).None? && processedData.Unloaded? ==> r == Err(NothingLoaded) && usageRanking == None
      ensures old(usageRanking).None? && processedData.Raw? ==> r == Err(NotCleaned) && usageRanking == None
      ensures costGap == old(costGap) && priceBands == old(priceBands)
      ensures optimalSites == old(optimalSites)
    {
      if usageRanking.Some? {
        r := Ok(usageRanking.value);
      } else {
        r := AnalyzeRegionalPowerUsage();
      }
    }

    /** `analyze_power_cost_gap`: the price statistics of the ranking and
        the band of every province, both stored. */
    method AnalyzePowerCostGap() returns (r: Result<CostStats, AnalysisError>)
      modifies this
      ensures processedData == old(processedData) && optimalSites == old(optimalSites)
      ensures old(usageRanking).Some? ==> usageRanking == old(usageRanking)
      ensures usageRanking.None? ==> r.Err? && costGap == old(costGap) && priceBands == old(priceBands)
      ensures usageRanking.Some? ==> r == CostGap(usageRanking.value)
      ensures r.Err? ==> costGap == old(costGap) && priceBands == old(priceBands)
      ensures r.Ok? ==> costGap == Some(r.value) && usageRanking.Some?
      ensures r.Ok? && usageRanking.Some? ==>
        (CostGapSpec(usageRanking.value); priceBands == Some(PriceBands(usageRanking.value, r.value)))
    {
      var ranking := Ranking();
      if ranking.Err? {
        return Err(ranking.error);
      }
      r := StoreCostGap(ranking.value);
    }

    /** The statistics of `ranking` and its price bands, stored when there
        is a price at all. */
    method StoreCostGap(ranking: seq<RegionUsage>) returns (r: Result<CostStats, AnalysisError>)
      modifies this
      ensures processedData == old(processedData) && optimalSites == old(optimalSites)
      ensures usageRanking == old(usageRanking)
      ensures r == CostGap(ranking)
      ensures r.Err? ==> costGap == old(costGap) && priceBands == old(priceBands)
      ensures r.Ok? ==> costGap == Some(r.value)
      ensures r.Ok? ==> (CostGapSpec(ranking); priceBands == Some(PriceBands(ranking, r.value)))
    {
      r := CostGap(ranking);
      if r.Ok? {
        CostGapSpec(ranking);
        costGap := Some(r.value);
        priceBands := Some(PriceBands(ranking, r.value));
      }
    }

    /** `find_optimal_datacenter_locations`: the site ranking of the
        usage ranking, stored. */
    method FindOptimalDatacenterLocations() returns (r: Result<seq<SiteScore>, AnalysisError>)
      modifies this
      ensures processedData == old(processedData)
      ensures costGap == old(costGap) && priceBands == old(priceBands)
      ensures old(usageRanking).Some? ==> usageRanking == old(usageRanking)
      ensures usageRanking.None? ==> r.Err? && optimalSites == old(optimalSites)
      ensures usageRanking.Some? ==>
        r == Ok(OptimalSites(usageRanking.value)) && optimalSites == Some(r.value)
    {
      var ranking := Ranking();
      if ranking.Err? {
        return Err(ranking.error);
      }
      var sites := OptimalSites(ranking.value);
      optimalSites := Some(sites);
      r := Ok(sites);
    }
  }
}
