/** Dates as `YYYY-MM-DD` text: formatting, parsing, and the order of the texts. */
module DateText {
  import opened Wrappers
  import opened Calendar
  import opened Digits

  // ----- the order of texts -----

  /** Strict lexicographic order, as `str` compares. */
  predicate TextBefore(a: string, b: string) {
    b != "" && (a == "" || a[0] < b[0] || (a[0] == b[0] && TextBefore(a[1..], b[1..])))
  }

  lemma TextBeforeAfterHead(c: char, d: char, x: string, y: string)
    ensures TextBefore([c] + x, [d] + y) <==> c < d || (c == d && TextBefore(x, y))
  {
  }

  /** Fixed-width numerals compare as their numbers, then by what follows. */
  lemma {:induction false} NumeralsOrderTexts(n: int, m: int, w: nat, x: string, y: string)
    requires 0 <= n < Pow10(w) && 0 <= m < Pow10(w)
    ensures TextBefore(Padded(n, w) + x, Padded(m, w) + y) <==> n < m || (n == m && TextBefore(x, y))
    decreases w
  {
    if w == 0 {
      assert Padded(n, w) + x == x && Padded(m, w) + y == y;
    } else {
      var c, d := Digit(n % 10), Digit(m % 10);
      assert Padded(n, w) + x == Padded(n / 10, w - 1) + ([c] + x);
      assert Padded(m, w) + y == Padded(m / 10, w - 1) + ([d] + y);
      NumeralsOrderTexts(n / 10, m / 10, w - 1, [c] + x, [d] + y);
      TextBeforeAfterHead(c, d, x, y);
    }
  }

  // ----- dates -----

  /** `[year]-[month]-[day]`: four year digits, a minus sign before negative years. */
  function FormatDate(d: Date): string
    requires Supported(d)
  {
    Widths();
    (if d.year < 0 then "-" else "") + Body(if d.year < 0 then -d.year else d.year, d.month, d.day)
  }

  lemma Widths()
    ensures Pow10(2) == 100 && Pow10(4) == 10000
  {
  }

  function Body(year: int, month: int, day: int): (s: string)
    requires 0 <= year <= 9999 && 0 <= month <= 99 && 0 <= day <= 99
    ensures |s| == 10 && IsDigit(s[0])
  {
    Widths();
    Padded(year, 4) + ("-" + (Padded(month, 2) + ("-" + Padded(day, 2))))
  }

  predicate IsBody(s: string) {
    && |s| == 10 && s[4] == '-' && s[7] == '-'
    && AllDigits(s[0..4]) && AllDigits(s[5..7]) && AllDigits(s[8..10])
  }

  /** `parse_date`: an optional sign, four year digits, two month digits, two day digits. */
  function ParseDate(s: string): (r: Option<Date>)
    ensures r.Some? ==> Supported(r.value)
  {
    var signed := s != "" && (s[0] == '-' || s[0] == '+');
    var body := if signed then s[1..] else s;
    if !IsBody(body) then None
    else
      Widths();
      var year := Number(body[0..4]);
      var d := Date(if signed && s[0] == '-' then -year else year, Number(body[5..7]), Number(body[8..10]));
      if IsDate(d) then Some(d) else None
  }

  /** The only spelling the formatter would produce: no plus sign, no negative zero. */
  predicate Canonical(s: string) {
    && (s != "" ==> s[0] != '+')
    && (|s| >= 5 ==> s[..5] != "-0000")
  }

  lemma BodyIsABody(year: int, month: int, day: int)
    requires 0 <= year <= 9999 && 0 <= month <= 99 && 0 <= day <= 99
    ensures var s := Body(year, month, day);
            IsBody(s) && Number(s[0..4]) == year && Number(s[5..7]) == month && Number(s[8..10]) == day
  {
    Widths();
    var s := Body(year, month, day);
    assert s[0..4] == Padded(year, 4);
    assert s[5..7] == Padded(month, 2);
    assert s[8..10] == Padded(day, 2);
    NumberOfPadded(year, 4);
    NumberOfPadded(month, 2);
    NumberOfPadded(day, 2);
  }

  lemma BodyOfParts(s: string)
    requires IsBody(s)
    ensures 0 <= Number(s[0..4]) <= 9999 && Number(s[5..7]) <= 99 && Number(s[8..10]) <= 99
    ensures Body(Number(s[0..4]), Number(s[5..7]), Number(s[8..10])) == s
  {
    Widths();
    var year, month, day := s[0..4], s[5..7], s[8..10];
    PaddedOfNumber(year);
    PaddedOfNumber(month);
    PaddedOfNumber(day);
    assert |year| == 4 && |month| == 2 && |day| == 2;
    assert s == year + ("-" + (month + ("-" + day)));
  }

  /** Every supported date survives being written and read. */
  lemma FormatThenParse(d: Date)
    requires Supported(d)
    ensures ParseDate(FormatDate(d)) == Some(d)
  {
    var year := if d.year < 0 then -d.year else d.year;
    BodyIsABody(year, d.month, d.day);
    var body := Body(year, d.month, d.day);
    if d.year < 0 {
      assert FormatDate(d)[1..] == body;
    } else {
      assert FormatDate(d) == body;
    }
  }

  /** A text survives being read and written exactly when it is spelled canonically. */
  lemma ParseThenFormat(s: string)
    requires ParseDate(s).Some?
    ensures FormatDate(ParseDate(s).value) == s <==> Canonical(s)
  {
    var d := ParseDate(s).value;
    var signed := s[0] == '-' || s[0] == '+';
    var body := if signed then s[1..] else s;
    BodyOfParts(body);
    if !signed {
      assert FormatDate(d) == s;
    } else if s[0] == '+' {
      assert FormatDate(d) == body;
    } else if d.year == 0 {
      NegativeZero(s);
    } else {
      assert FormatDate(d) == "-" + body == s;
      if s[..5] == "-0000" {
        assert body[0..4] == s[..5][1..5] == "0000";
        ZeroYear();
      }
    }
  }

  lemma ZeroYear()
    ensures Padded(0, 4) == "0000" && Number("0000") == 0
  {
    assert Padded(0, 1) == "0";
    assert Padded(0, 2) == "00";
    assert Padded(0, 3) == "000";
    NumberOfPadded(0, 4);
  }

  lemma NegativeZero(s: string)
    requires ParseDate(s).Some? && s[0] == '-' && ParseDate(s).value.year == 0
    ensures s[..5] == "-0000" && FormatDate(ParseDate(s).value) != s
  {
    var body := s[1..];
    ZeroYear();
    PaddedOfNumber(body[0..4]);
    assert s[..5] == "-" + body[0..4];
  }

  /** What a date's text looks like: a minus sign before negative years, four digits, a hyphen, two
      digits, a hyphen, two digits, for year, month and day. */
  lemma FormattedText(d: Date)
    requires Supported(d)
    ensures var s := FormatDate(d);
            && (d.year < 0 <==> s[0] == '-')
            && (d.year < 0 ==> |s| == 11) && (d.year >= 0 ==> |s| == 10)
            && var t := if d.year < 0 then s[1..] else s;
               && AllDigits(t[0..4]) && Number(t[0..4]) == (if d.year < 0 then -d.year else d.year)
               && t[4] == '-' && AllDigits(t[5..7]) && Number(t[5..7]) == d.month
               && t[7] == '-' && AllDigits(t[8..10]) && Number(t[8..10]) == d.day
  {
    var year := if d.year < 0 then -d.year else d.year;
    BodyIsABody(year, d.month, d.day);
    if d.year < 0 {
      assert FormatDate(d)[1..] == Body(year, d.month, d.day);
    } else {
      assert FormatDate(d) == Body(year, d.month, d.day);
    }
  }

  /** The ways to spell a date: as the formatter does, with a plus sign before a year that is not
      negative, or with a minus sign before year zero. */
  predicate Spells(s: string, d: Date) {
    && Supported(d)
    && (s == FormatDate(d) || (d.year >= 0 && s == "+" + FormatDate(d)) || (d.year == 0 && s == "-" + FormatDate(d)))
  }

  /** Exactly the spellings of dates parse, each as the date it spells. */
  lemma ParsesExactly(s: string, d: Date)
    ensures ParseDate(s) == Some(d) <==> Spells(s, d)
  {
    if ParseDate(s) == Some(d) {
      Spelled(s, d);
    }
    if Spells(s, d) {
      FormatThenParse(d);
      if s != FormatDate(d) {
        BodyIsABody(d.year, d.month, d.day);
        assert s[1..] == FormatDate(d) == Body(d.year, d.month, d.day);
        SignedParses(s, d);
      }
    }
  }

  lemma Spelled(s: string, d: Date)
    requires ParseDate(s) == Some(d)
    ensures Spells(s, d)
  {
    var signed := s[0] == '-' || s[0] == '+';
    var body := if signed then s[1..] else s;
    BodyOfParts(body);
    if !signed {
      assert FormatDate(d) == s;
    } else if s[0] == '+' || d.year == 0 {
      assert FormatDate(d) == body;
      assert s == [s[0]] + body;
    } else {
      assert FormatDate(d) == "-" + body == s;
    }
  }

  lemma SignedParses(s: string, d: Date)
    requires Supported(d) && d.year >= 0 && s != "" && (s[0] == '+' || (s[0] == '-' && d.year == 0))
    requires IsBody(s[1..]) && Number(s[1..][0..4]) == d.year
    requires Number(s[1..][5..7]) == d.month && Number(s[1..][8..10]) == d.day
    ensures ParseDate(s) == Some(d)
  {
  }

  lemma BodiesOrder(a: Date, b: Date, y: int, z: int)
    requires Supported(a) && Supported(b) && 0 <= y <= 9999 && 0 <= z <= 9999
    ensures TextBefore(Body(y, a.month, a.day), Body(z, b.month, b.day))
       <==> Before(Date(y, a.month, a.day), Date(z, b.month, b.day))
  {
    Widths();
    var u, v := "-" + Padded(a.day, 2), "-" + Padded(b.day, 2);
    NumeralsOrderTexts(y, z, 4, "-" + (Padded(a.month, 2) + u), "-" + (Padded(b.month, 2) + v));
    TextBeforeAfterHead('-', '-', Padded(a.month, 2) + u, Padded(b.month, 2) + v);
    NumeralsOrderTexts(a.month, b.month, 2, u, v);
    TextBeforeAfterHead('-', '-', Padded(a.day, 2), Padded(b.day, 2));
    assert Padded(a.day, 2) == Padded(a.day, 2) + "" && Padded(b.day, 2) == Padded(b.day, 2) + "";
    NumeralsOrderTexts(a.day, b.day, 2, "", "");
  }

  /** Texts order as dates do, except between two different negative years. */
  lemma TextsOrderDatesExactly(a: Date, b: Date)
    requires Supported(a) && Supported(b) && a != b
    ensures (TextBefore(FormatDate(a), FormatDate(b)) <==> Before(a, b))
       <==> (a.year >= 0 || b.year >= 0 || a.year == b.year)
  {
    var y := if a.year < 0 then -a.year else a.year;
    var z := if b.year < 0 then -b.year else b.year;
    BodiesOrder(a, b, y, z);
    var s, t := Body(y, a.month, a.day), Body(z, b.month, b.day);
    TextBeforeAfterHead('-', '-', s, t);
    assert FormatDate(a) == if a.year < 0 then ['-'] + s else s;
    assert FormatDate(b) == if b.year < 0 then ['-'] + t else t;
    assert a.year < 0 && b.year < 0 && y != z ==> (Before(a, b) <==> y > z);
  }
}
