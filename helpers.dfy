/**
 * The string formatters of the helper file: Brazilian CPF, CNPJ, phone and
 * postal-code masks, and the conversion between "Y-m-d" and "d/m/Y" dates.
 * PHP strings are modelled as the characters they encode in UTF-8; the
 * formatters only ever keep ASCII digits, so bytes and characters agree.
 */
module Helpers {
  import opened Strings

  predicate IsDigit(c: char) { '0' <= c <= '9' }

  predicate AllDigits(s: string) { forall i :: 0 <= i < |s| ==> IsDigit(s[i]) }

  /** `preg_replace("/[^\d]/", "", s)`: the ASCII digits of `s`, in order. */
  function Digits(s: string): (r: string)
    ensures |r| <= |s|
    ensures AllDigits(r)
  {
    if |s| == 0 then ""
    else (if IsDigit(s[0]) then [s[0]] else "") + Digits(s[1..])
  }

  /** `substr(s, 0, n)`. */
  function Take(s: string, n: nat): (r: string)
    ensures |r| == if |s| <= n then |s| else n
    ensures r == s[..|r|]
  {
    if |s| <= n then s else s[..n]
  }

  /**
   * `pattern` with every 'd' standing for one digit: `r` has the pattern's
   * length, a digit wherever the pattern has 'd', and the pattern's own
   * punctuation everywhere else.
   */
  predicate Matches(r: string, pattern: string)
  {
    |r| == |pattern| &&
    forall i :: 0 <= i < |r| ==> if pattern[i] == 'd' then IsDigit(r[i]) else r[i] == pattern[i]
  }

  /** Matching distributes over concatenation. */
  lemma MatchesAppend(r1: string, p1: string, r2: string, p2: string)
    requires Matches(r1, p1) && Matches(r2, p2)
    ensures Matches(r1 + r2, p1 + p2)
  {
    var r := r1 + r2;
    var p := p1 + p2;
    forall i | 0 <= i < |r| ensures if p[i] == 'd' then IsDigit(r[i]) else r[i] == p[i] {
      if i < |r1| {
        assert r[i] == r1[i] && p[i] == p1[i];
      } else {
        assert r[i] == r2[i - |r1|] && p[i] == p2[i - |r1|];
      }
    }
  }

  /** A run of digits matches a run of 'd' of the same length. */
  lemma DigitRun(s: string, p: string)
    requires AllDigits(s) && |p| == |s|
    requires forall i :: 0 <= i < |p| ==> p[i] == 'd'
    ensures Matches(s, p)
  {
  }

  lemma {:induction false} DigitsAppend(a: string, b: string)
    ensures Digits(a + b) == Digits(a) + Digits(b)
    decreases |a|
  {
    if |a| == 0 {
      assert a + b == b;
    } else {
      var ab := a + b;
      assert ab[0] == a[0] && ab[1..] == a[1..] + b;
      DigitsAppend(a[1..], b);
      var head := if IsDigit(a[0]) then [a[0]] else "";
      assert Digits(ab) == head + Digits(ab[1..]);
      assert Digits(a) == head + Digits(a[1..]);
      assert head + (Digits(a[1..]) + Digits(b)) == (head + Digits(a[1..])) + Digits(b);
    }
  }

  lemma {:induction false} DigitsOfDigits(s: string)
    requires AllDigits(s)
    ensures Digits(s) == s
    decreases |s|
  {
    if |s| > 0 {
      DigitsOfDigits(s[1..]);
      assert s == [s[0]] + s[1..];
    }
  }

  /** The digits of `a + sep + b`, for a digit string `a` and a separator without digits. */
  lemma DigitsAround(a: string, sep: string, b: string)
    requires AllDigits(a)
    requires Digits(sep) == ""
    ensures Digits(a + sep + b) == a + Digits(b)
  {
    DigitsAppend(a + sep, b);
    DigitsAppend(a, sep);
    DigitsOfDigits(a);
  }

  // ---------------------------------------------------------------- formatCpf

  /**
   * `formatCpf`: keep the digits, truncate to 11, and punctuate only when
   * exactly 11 remain.
   */
  function FormatCpf(value: string): (r: string)
    ensures |Digits(value)| >= 11 ==> Matches(r, "ddd.ddd.ddd-dd")
    ensures |Digits(value)| < 11 ==> r == Digits(value) && |r| < 11
    ensures Digits(r) == Take(Digits(value), 11)
  {
    var d := Take(Digits(value), 11);
    if |d| == 11 then
      CpfDigits(d);
      d[0..3] + "." + d[3..6] + "." + d[6..9] + "-" + d[9..11]
    else
      DigitsOfDigits(d);
      d
  }

  /** The punctuated digits follow the mask "ddd.ddd.ddd-dd". */
  lemma CpfShape(d: string)
    requires |d| == 11 && AllDigits(d)
    ensures Matches(d[0..3] + "." + d[3..6] + "." + d[6..9] + "-" + d[9..11], "ddd.ddd.ddd-dd")
  {
    DigitRun(d[0..3], "ddd");
    DigitRun(d[3..6], "ddd");
    DigitRun(d[6..9], "ddd");
    DigitRun(d[9..11], "dd");
    MatchesAppend(d[0..3], "ddd", ".", ".");
    MatchesAppend(d[0..3] + ".", "ddd" + ".", d[3..6], "ddd");
    MatchesAppend(d[0..3] + "." + d[3..6], "ddd" + "." + "ddd", ".", ".");
    MatchesAppend(d[0..3] + "." + d[3..6] + ".", "ddd" + "." + "ddd" + ".", d[6..9], "ddd");
    MatchesAppend(d[0..3] + "." + d[3..6] + "." + d[6..9], "ddd" + "." + "ddd" + "." + "ddd", "-", "-");
    MatchesAppend(d[0..3] + "." + d[3..6] + "." + d[6..9] + "-", "ddd" + "." + "ddd" + "." + "ddd" + "-", d[9..11], "dd");
    assert "ddd" + "." + "ddd" + "." + "ddd" + "-" + "dd" == "ddd.ddd.ddd-dd";
  }

  lemma CpfDigits(d: string)
    requires |d| == 11 && AllDigits(d)
    ensures var r := d[0..3] + "." + d[3..6] + "." + d[6..9] + "-" + d[9..11];
      Digits(r) == d && Matches(r, "ddd.ddd.ddd-dd")
  {
    var b2 := d[6..9] + "-" + d[9..11];
    var b1 := d[3..6] + "." + b2;
    var r := d[0..3] + "." + b1;
    assert r == d[0..3] + "." + d[3..6] + "." + d[6..9] + "-" + d[9..11];
    DigitsAround(d[0..3], ".", b1);
    DigitsAround(d[3..6], ".", b2);
    DigitsAround(d[6..9], "-", d[9..11]);
    DigitsOfDigits(d[9..11]);
    assert d == d[0..3] + (d[3..6] + (d[6..9] + d[9..11]));
    CpfShape(d);
  }

  /** Removing the punctuation of a formatted CPF gives the truncated digits, so formatting twice changes nothing. */
  lemma FormatCpfIdempotent(value: string)
    ensures FormatCpf(FormatCpf(value)) == FormatCpf(value)
  {
    var d := Take(Digits(value), 11);
    assert Take(Digits(FormatCpf(value)), 11) == d;
  }

  // --------------------------------------------------------------- formatCnpj

  /** `formatCnpj`: keep the digits, truncate to 14, punctuate only when exactly 14 remain. */
  function FormatCnpj(value: string): (r: string)
    ensures |Digits(value)| >= 14 ==> Matches(r, "dd.ddd.ddd/dddd-dd")
    ensures |Digits(value)| < 14 ==> r == Digits(value) && |r| < 14
    ensures Digits(r) == Take(Digits(value), 14)
  {
    var d := Take(Digits(value), 14);
    if |d| == 14 then
      CnpjDigits(d);
      d[0..2] + "." + d[2..5] + "." + d[5..8] + "/" + d[8..12] + "-" + d[12..14]
    else
      DigitsOfDigits(d);
      d
  }

  /** The punctuated digits follow the mask "dd.ddd.ddd/dddd-dd". */
  lemma CnpjShape(d: string)
    requires |d| == 14 && AllDigits(d)
    ensures Matches(d[0..2] + "." + d[2..5] + "." + d[5..8] + "/" + d[8..12] + "-" + d[12..14], "dd.ddd.ddd/dddd-dd")
  {
    DigitRun(d[0..2], "dd");
    DigitRun(d[2..5], "ddd");
    DigitRun(d[5..8], "ddd");
    DigitRun(d[8..12], "dddd");
    DigitRun(d[12..14], "dd");
    MatchesAppend(d[0..2], "dd", ".", ".");
    MatchesAppend(d[0..2] + ".", "dd" + ".", d[2..5], "ddd");
    MatchesAppend(d[0..2] + "." + d[2..5], "dd" + "." + "ddd", ".", ".");
    MatchesAppend(d[0..2] + "." + d[2..5] + ".", "dd" + "." + "ddd" + ".", d[5..8], "ddd");
    MatchesAppend(d[0..2] + "." + d[2..5] + "." + d[5..8], "dd" + "." + "ddd" + "." + "ddd", "/", "/");
    MatchesAppend(d[0..2] + "." + d[2..5] + "." + d[5..8] + "/", "dd" + "." + "ddd" + "." + "ddd" + "/", d[8..12], "dddd");
    MatchesAppend(d[0..2] + "." + d[2..5] + "." + d[5..8] + "/" + d[8..12], "dd" + "." + "ddd" + "." + "ddd" + "/" + "dddd", "-", "-");
    MatchesAppend(d[0..2] + "." + d[2..5] + "." + d[5..8] + "/" + d[8..12] + "-", "dd" + "." + "ddd" + "." + "ddd" + "/" + "dddd" + "-", d[12..14], "dd");
    assert "dd" + "." + "ddd" + "." + "ddd" + "/" + "dddd" + "-" + "dd" == "dd.ddd.ddd/dddd-dd";
  }

  lemma CnpjDigits(d: string)
    requires |d| == 14 && AllDigits(d)
    ensures var r := d[0..2] + "." + d[2..5] + "." + d[5..8] + "/" + d[8..12] + "-" + d[12..14];
      Digits(r) == d && Matches(r, "dd.ddd.ddd/dddd-dd")
  {
    var b3 := d[8..12] + "-" + d[12..14];
    var b2 := d[5..8] + "/" + b3;
    var b1 := d[2..5] + "." + b2;
    var r := d[0..2] + "." + b1;
    assert r == d[0..2] + "." + d[2..5] + "." + d[5..8] + "/" + d[8..12] + "-" + d[12..14];
    DigitsAround(d[0..2], ".", b1);
    DigitsAround(d[2..5], ".", b2);
    DigitsAround(d[5..8], "/", b3);
    DigitsAround(d[8..12], "-", d[12..14]);
    DigitsOfDigits(d[12..14]);
    assert d == d[0..2] + (d[2..5] + (d[5..8] + (d[8..12] + d[12..14])));
    CnpjShape(d);
  }

  lemma FormatCnpjIdempotent(value: string)
    ensures FormatCnpj(FormatCnpj(value)) == FormatCnpj(value)
  {
    var d := Take(Digits(value), 14);
    assert Take(Digits(FormatCnpj(value)), 14) == d;
  }

  // -------------------------------------------------------------- formatPhone

  /**
   * `formatPhone`: keep the digits, truncate to 11; eleven digits are a mobile
   * number "(dd) ddddd-dddd", exactly ten a landline "(dd) dddd-dddd", fewer
   * stay bare.
   */
  function FormatPhone(value: string): (r: string)
    ensures |Digits(value)| >= 11 ==> Matches(r, "(dd) ddddd-dddd")
    ensures |Digits(value)| == 10 ==> Matches(r, "(dd) dddd-dddd")
    ensures |Digits(value)| < 10 ==> r == Digits(value) && |r| < 10
    ensures Digits(r) == Take(Digits(value), 11)
  {
    var d := Take(Digits(value), 11);
    if |d| >= 10 then
      if |d| == 11 then
        MobileDigits(d);
        "(" + d[0..2] + ") " + d[2..7] + "-" + d[7..11]
      else
        LandlineDigits(d);
        "(" + d[0..2] + ") " + d[2..6] + "-" + d[6..10]
    else
      DigitsOfDigits(d);
      d
  }

  /** The punctuated digits follow the mask "(dd) ddddd-dddd". */
  lemma MobileShape(d: string)
    requires |d| == 11 && AllDigits(d)
    ensures Matches("(" + d[0..2] + ") " + d[2..7] + "-" + d[7..11], "(dd) ddddd-dddd")
  {
    DigitRun(d[0..2], "dd");
    DigitRun(d[2..7], "ddddd");
    DigitRun(d[7..11], "dddd");
    MatchesAppend("(", "(", d[0..2], "dd");
    MatchesAppend("(" + d[0..2], "(" + "dd", ") ", ") ");
    MatchesAppend("(" + d[0..2] + ") ", "(" + "dd" + ") ", d[2..7], "ddddd");
    MatchesAppend("(" + d[0..2] + ") " + d[2..7], "(" + "dd" + ") " + "ddddd", "-", "-");
    MatchesAppend("(" + d[0..2] + ") " + d[2..7] + "-", "(" + "dd" + ") " + "ddddd" + "-", d[7..11], "dddd");
    assert "(" + "dd" + ") " + "ddddd" + "-" + "dddd" == "(dd) ddddd-dddd";
  }

  lemma MobileDigits(d: string)
    requires |d| == 11 && AllDigits(d)
    ensures var r := "(" + d[0..2] + ") " + d[2..7] + "-" + d[7..11];
      Digits(r) == d && Matches(r, "(dd) ddddd-dddd")
  {
    var b2 := d[2..7] + "-" + d[7..11];
    var b1 := d[0..2] + ") " + b2;
    var r := "(" + b1;
    assert r == "(" + d[0..2] + ") " + d[2..7] + "-" + d[7..11];
    DigitsAppend("(", b1);
    DigitsAround(d[0..2], ") ", b2);
    DigitsAround(d[2..7], "-", d[7..11]);
    DigitsOfDigits(d[7..11]);
    assert d == d[0..2] + (d[2..7] + d[7..11]);
    MobileShape(d);
  }

  /** The punctuated digits follow the mask "(dd) dddd-dddd". */
  lemma LandlineShape(d: string)
    requires |d| == 10 && AllDigits(d)
    ensures Matches("(" + d[0..2] + ") " + d[2..6] + "-" + d[6..10], "(dd) dddd-dddd")
  {
    DigitRun(d[0..2], "dd");
    DigitRun(d[2..6], "dddd");
    DigitRun(d[6..10], "dddd");
    MatchesAppend("(", "(", d[0..2], "dd");
    MatchesAppend("(" + d[0..2], "(" + "dd", ") ", ") ");
    MatchesAppend("(" + d[0..2] + ") ", "(" + "dd" + ") ", d[2..6], "dddd");
    MatchesAppend("(" + d[0..2] + ") " + d[2..6], "(" + "dd" + ") " + "dddd", "-", "-");
    MatchesAppend("(" + d[0..2] + ") " + d[2..6] + "-", "(" + "dd" + ") " + "dddd" + "-", d[6..10], "dddd");
    assert "(" + "dd" + ") " + "dddd" + "-" + "dddd" == "(dd) dddd-dddd";
  }

  lemma LandlineDigits(d: string)
    requires |d| == 10 && AllDigits(d)
    ensures var r := "(" + d[0..2] + ") " + d[2..6] + "-" + d[6..10];
      Digits(r) == d && Matches(r, "(dd) dddd-dddd")
  {
    var b2 := d[2..6] + "-" + d[6..10];
    var b1 := d[0..2] + ") " + b2;
    var r := "(" + b1;
    assert r == "(" + d[0..2] + ") " + d[2..6] + "-" + d[6..10];
    DigitsAppend("(", b1);
    DigitsAround(d[0..2], ") ", b2);
    DigitsAround(d[2..6], "-", d[6..10]);
    DigitsOfDigits(d[6..10]);
    assert d == d[0..2] + (d[2..6] + d[6..10]);
    LandlineShape(d);
  }

  lemma FormatPhoneIdempotent(value: string)
    ensures FormatPhone(FormatPhone(value)) == FormatPhone(value)
  {
    var d := Take(Digits(value), 11);
    assert Take(Digits(FormatPhone(value)), 11) == d;
  }

  // --------------------------------------------------------- formatPostalCode

  /** `formatPostalCode`: keep the digits, truncate to 8, punctuate "ddddd-ddd" only when exactly 8 remain. */
  function FormatPostalCode(value: string): (r: string)
    ensures |Digits(value)| >= 8 ==> Matches(r, "ddddd-ddd")
    ensures |Digits(value)| < 8 ==> r == Digits(value) && |r| < 8
    ensures Digits(r) == Take(Digits(value), 8)
  {
    var d := Take(Digits(value), 8);
    if |d| == 8 then
      PostalCodeDigits(d);
      d[0..5] + "-" + d[5..8]
    else
      DigitsOfDigits(d);
      d
  }

  /** The punctuated digits follow the mask "ddddd-ddd". */
  lemma PostalCodeShape(d: string)
    requires |d| == 8 && AllDigits(d)
    ensures Matches(d[0..5] + "-" + d[5..8], "ddddd-ddd")
  {
    DigitRun(d[0..5], "ddddd");
    DigitRun(d[5..8], "ddd");
    MatchesAppend(d[0..5], "ddddd", "-", "-");
    MatchesAppend(d[0..5] + "-", "ddddd" + "-", d[5..8], "ddd");
    assert "ddddd" + "-" + "ddd" == "ddddd-ddd";
  }

  lemma PostalCodeDigits(d: string)
    requires |d| == 8 && AllDigits(d)
    ensures var r := d[0..5] + "-" + d[5..8];
      Digits(r) == d && Matches(r, "ddddd-ddd")
  {
    DigitsAround(d[0..5], "-", d[5..8]);
    DigitsOfDigits(d[5..8]);
    assert d == d[0..5] + d[5..8];
    PostalCodeShape(d);
  }

  lemma FormatPostalCodeIdempotent(value: string)
    ensures FormatPostalCode(FormatPostalCode(value)) == FormatPostalCode(value)
  {
    var d := Take(Digits(value), 8);
    assert Take(Digits(FormatPostalCode(value)), 8) == d;
  }

  // -------------------------------------------------------------------- dates

  /** `dateEnToBr`: split on '-', reverse the parts, join with '/'. */
  function DateEnToBr(date: string): (r: string)
  {
    Join(Reverse(Split(date, '-')), "/")
  }

  /** `dateBrToEn`: split on '/', reverse the parts, join with '-'. */
  function DateBrToEn(date: string): (r: string)
  {
    Join(Reverse(Split(date, '/')), "-")
  }

  /** Reversing the pieces of a split, joining with `sep` and splitting on `sep` gives the reversed pieces back. */
  lemma ConvertBack(date: string, c: char, sep: char)
    requires sep !in date
    ensures Join(Reverse(Split(Join(Reverse(Split(date, c)), [sep]), sep)), [c]) == date
  {
    var parts := Split(date, c);
    SplitAvoids(date, c, sep);
    var rev := Reverse(parts);
    forall i | 0 <= i < |rev| ensures sep !in rev[i] {
      assert rev[i] == parts[|parts| - 1 - i];
    }
    SplitJoin(rev, sep);
    ReverseReverse(parts);
    JoinSplit(date, c);
    var back := Split(Join(rev, [sep]), sep);
    assert back == rev;
    assert Reverse(back) == parts;
    assert Join(Reverse(back), [c]) == Join(parts, [c]);
  }

  /** A date without '/' survives the round trip through the Brazilian form. */
  lemma DateEnRoundTrip(date: string)
    requires '/' !in date
    ensures DateBrToEn(DateEnToBr(date)) == date
  {
    ConvertBack(date, '-', '/');
  }

  /** A date without '-' survives the round trip through the ISO form. */
  lemma DateBrRoundTrip(date: string)
    requires '-' !in date
    ensures DateEnToBr(DateBrToEn(date)) == date
  {
    ConvertBack(date, '/', '-');
  }

  /** The conversions swap the roles of the separators: the output never contains the input's separator. */
  lemma DateEnToBrSeparators(date: string)
    ensures '-' !in DateEnToBr(date)
  {
    var parts := Split(date, '-');
    var rev := Reverse(parts);
    forall i | 0 <= i < |rev| ensures '-' !in rev[i] {
      assert rev[i] == parts[|parts| - 1 - i];
    }
    JoinAvoids(rev, "/", '-');
  }

  lemma DateBrToEnSeparators(date: string)
    ensures '/' !in DateBrToEn(date)
  {
    var parts := Split(date, '/');
    var rev := Reverse(parts);
    forall i | 0 <= i < |rev| ensures '/' !in rev[i] {
      assert rev[i] == parts[|parts| - 1 - i];
    }
    JoinAvoids(rev, "-", '/');
  }

  /** Three separator-free parts joined by `s` come out in reverse order, joined by `t`. */
  lemma ConvertThree(a: string, b: string, d: string, s: char, t: char)
    requires s !in a && s !in b && s !in d
    ensures Join(Reverse(Split(a + [s] + b + [s] + d, s)), [t]) == d + [t] + b + [t] + a
  {
    var parts := [a, b, d];
    assert parts[1..] == [b, d] && parts[1..][1..] == [d];
    assert Join(parts, [s]) == a + [s] + b + [s] + d;
    SplitJoin(parts, s);
    var rev := Reverse(parts);
    assert rev == [d, b, a];
    assert rev[1..] == [b, a] && rev[1..][1..] == [a];
    assert Join(rev, [t]) == d + [t] + b + [t] + a;
  }

  /** `dateEnToBr("Y-m-d")` is "d/m/Y". */
  lemma DateEnToBrParts(y: string, m: string, d: string)
    requires '-' !in y && '-' !in m && '-' !in d
    ensures DateEnToBr(y + "-" + m + "-" + d) == d + "/" + m + "/" + y
  {
    ConvertThree(y, m, d, '-', '/');
  }

  /** `dateBrToEn("d/m/Y")` is "Y-m-d". */
  lemma DateBrToEnParts(d: string, m: string, y: string)
    requires '/' !in d && '/' !in m && '/' !in y
    ensures DateBrToEn(d + "/" + m + "/" + y) == y + "-" + m + "-" + d
  {
    ConvertThree(d, m, y, '/', '-');
  }
}
