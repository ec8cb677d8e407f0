/** pd.to_numeric on one text cell, and the Brazilian-locale conversion the
    sales normalizer applies before it ("1.234,56" is 1234.56). */
module Decimal {
  import opened Optional
  import opened Text

  predicate IsDigit(c: char) {
    '0' <= c <= '9'
  }

  predicate AllDigits(s: string) {
    forall i :: 0 <= i < |s| ==> IsDigit(s[i])
  }

  /** The natural number a string of decimal digits denotes. */
  function DigitsValue(s: string): nat
    requires AllDigits(s)
  {
    if s == [] then 0 else DigitsValue(s[..|s| - 1]) * 10 + (s[|s| - 1] as int - '0' as int)
  }

  function Pow10(n: nat): (r: nat)
    ensures r >= 1
  {
    if n == 0 then 1 else 10 * Pow10(n - 1)
  }

  /** The position of the first '.', or |s| when there is none. */
  function DotIndex(s: string): (k: nat)
    ensures k <= |s|
    ensures forall i :: 0 <= i < k ==> s[i] != '.'
    ensures k < |s| ==> s[k] == '.'
  {
    if s == [] || s[0] == '.' then 0 else 1 + DotIndex(s[1..])
  }

  /** The value of "whole.frac" for digit strings whole and frac. */
  function PointValue(whole: string, frac: string): real
    requires AllDigits(whole) && AllDigits(frac)
  {
    DigitsValue(whole) as real + DigitsValue(frac) as real / Pow10(|frac|) as real
  }

  /** Digits with at most one '.', and at least one digit. */
  function ParseUnsigned(b: string): (r: Option<real>)
    ensures r.Some? ==> |b| > 0 && r.value >= 0.0
  {
    var k := DotIndex(b);
    var whole := b[..k];
    var frac := if k < |b| then b[k + 1..] else [];
    if AllDigits(whole) && AllDigits(frac) && |whole| + |frac| > 0 then Some(PointValue(whole, frac)) else None
  }

  /** pd.to_numeric(x, errors='coerce') on a string: an optional sign, then
      digits with at most one '.', and at least one digit ("5.", ".5" and
      "-3" parse; "", ".", "2,50" and "1.2.3" do not). None is NaN. */
  function ParseDecimal(s: string): (r: Option<real>)
    ensures r.Some? ==> |s| > 0
    ensures r.Some? && s[0] != '-' ==> r.value >= 0.0
    ensures r.Some? && s[0] == '-' ==> r.value <= 0.0
  {
    if |s| > 0 && s[0] == '-' then
      match ParseUnsigned(s[1..])
      case Some(v) => Some(-v)
      case None => None
    else if |s| > 0 && s[0] == '+' then ParseUnsigned(s[1..])
    else ParseUnsigned(s)
  }

  /** b is the digits w, then, if b has a point, '.' and the digits f; w and
      f together have a digit. */
  predicate UnsignedText(b: string, w: string, f: string) {
    && AllDigits(w) && AllDigits(f) && |w| + |f| > 0
    && (b == w + "." + f || (f == "" && b == w))
  }

  /** s is a sign sg (possibly none), then an unsigned text of w and f. */
  predicate NumberText(s: string, sg: string, w: string, f: string) {
    && (sg == "" || sg == "+" || sg == "-")
    && AllDigits(w) && AllDigits(f) && |w| + |f| > 0
    && (s == sg + w + "." + f || (f == "" && s == sg + w))
  }

  /** The value of such a text: the sign applied to w.f. */
  function SignedValue(sg: string, w: string, f: string): real
    requires AllDigits(w) && AllDigits(f)
  {
    if sg == "-" then -PointValue(w, f) else PointValue(w, f)
  }

  /** The texts to_numeric reads are exactly the number texts: "12abc", "",
      "." and "1.2.3" are NaN. */
  lemma ParseDecimalShape(s: string)
    ensures ParseDecimal(s).Some? <==> exists sg, w, f :: NumberText(s, sg, w, f)
  {
    if ParseDecimal(s).Some? {
      var sg, w, f := ParsedParts(s);
      assert NumberText(s, sg, w, f);
    }
    if exists sg, w, f :: NumberText(s, sg, w, f) {
      var sg, w, f :| NumberText(s, sg, w, f);
      ParseNumberText(s, sg, w, f);
    }
  }

  /** A number text reads as its signed value. */
  lemma ParseNumberText(s: string, sg: string, w: string, f: string)
    requires NumberText(s, sg, w, f)
    ensures ParseDecimal(s) == Some(SignedValue(sg, w, f))
  {
    var b := UnsignedOf(s, sg, w, f);
    UnsignedParts(w, f, b);
    DigitsLead(w, f, b);
    SignThenUnsigned(sg, b);
  }

  /** A negative number text reads as the negated value: "-2.50" is -2.5,
      where the parser reading it as 0 or as 2.5 would not do. */
  lemma ParseNegative(w: string, f: string)
    requires AllDigits(w) && AllDigits(f) && |w| + |f| > 0
    ensures ParseDecimal("-" + w + "." + f) == Some(-PointValue(w, f))
  {
    ParseNumberText("-" + w + "." + f, "-", w, f);
  }

  /** The text after the sign. */
  lemma UnsignedOf(s: string, sg: string, w: string, f: string) returns (b: string)
    requires NumberText(s, sg, w, f)
    ensures s == sg + b && UnsignedText(b, w, f)
  {
    if s == sg + w + "." + f {
      b := w + "." + f;
      assert sg + w + "." + f == sg + (w + "." + f);
    } else {
      b := w;
    }
  }

  /** A sign and an unsigned text make a number text. */
  lemma NumberOf(s: string, sg: string, b: string, w: string, f: string)
    requires sg == "" || sg == "+" || sg == "-"
    requires s == sg + b && UnsignedText(b, w, f)
    ensures NumberText(s, sg, w, f)
  {
    if b == w + "." + f {
      assert sg + (w + "." + f) == sg + w + "." + f;
    }
  }

  /** An unsigned text starts with a digit or the point, not a sign. */
  lemma DigitsLead(w: string, f: string, b: string)
    requires UnsignedText(b, w, f)
    ensures |b| > 0 && b[0] != '-' && b[0] != '+'
  {
    if w != [] {
      assert b[0] == w[0] && IsDigit(w[0]);
    } else {
      assert b[0] == '.';
    }
  }

  /** The sign in front of an unsigned text is read off, and the rest parsed. */
  lemma SignThenUnsigned(sg: string, b: string)
    requires sg == "" || sg == "+" || sg == "-"
    requires |b| > 0 && b[0] != '-' && b[0] != '+'
    requires ParseUnsigned(b).Some?
    ensures ParseDecimal(sg + b) == Some(if sg == "-" then -ParseUnsigned(b).value else ParseUnsigned(b).value)
  {
    if sg == "" {
      assert sg + b == b;
    } else {
      assert (sg + b)[0] == sg[0] && (sg + b)[1..] == b;
    }
  }

  /** An unsigned text reads as w.f. */
  lemma UnsignedParts(w: string, f: string, b: string)
    requires UnsignedText(b, w, f)
    ensures ParseUnsigned(b) == Some(PointValue(w, f))
  {
    NoSeparatorInDigits(w);
    if b == w + "." + f {
      DotIndexAfter(w, f);
      assert b[..|w|] == w;
      assert b[|w| + 1..] == f;
    } else {
      DotIndexNone(w);
      assert b[..|w|] == w;
    }
  }

  /** The parts of a text that reads as a number. */
  lemma ParsedParts(s: string) returns (sg: string, w: string, f: string)
    requires ParseDecimal(s).Some?
    ensures NumberText(s, sg, w, f)
  {
    var b;
    sg, b := SignSplit(s);
    w, f := UnsignedShape(b);
    NumberOf(s, sg, b, w, f);
  }

  /** The sign of a text that reads as a number, and the unsigned rest. */
  lemma SignSplit(s: string) returns (sg: string, b: string)
    requires ParseDecimal(s).Some?
    ensures sg == "" || sg == "+" || sg == "-"
    ensures s == sg + b && ParseUnsigned(b).Some?
  {
    if s[0] == '-' || s[0] == '+' {
      sg, b := s[..1], s[1..];
    } else {
      sg, b := "", s;
    }
  }

  /** The parts of an unsigned text that reads as a number. */
  lemma UnsignedShape(b: string) returns (w: string, f: string)
    requires ParseUnsigned(b).Some?
    ensures UnsignedText(b, w, f)
  {
    var k := DotIndex(b);
    w := b[..k];
    if k < |b| {
      f := b[k + 1..];
      assert b == w + "." + f;
    } else {
      f := "";
    }
  }

  /** A comma anywhere makes the text unreadable: "2,50" is NaN. */
  lemma CommaIsNotANumber(s: string, j: nat)
    requires j < |s| && s[j] == ','
    ensures ParseDecimal(s) == None
  {
    if s[0] == '-' || s[0] == '+' {
      CommaIsNotUnsigned(s[1..], j - 1);
    } else {
      CommaIsNotUnsigned(s, j);
    }
  }

  lemma CommaIsNotUnsigned(b: string, j: nat)
    requires j < |b| && b[j] == ','
    ensures ParseUnsigned(b) == None
  {
    var k := DotIndex(b);
    if j < k {
      assert b[..k][j] == ',';
    } else {
      assert b[k + 1..][j - k - 1] == ',';
    }
  }

  /** The sales normalizer's locale conversion: every '.' (thousands
      separator) deleted, then every ',' (decimal comma) turned into '.'. */
  function FromBrazilian(s: string): (r: string)
    ensures ',' !in r
  {
    ReplaceChar(RemoveChar(s, '.'), ',', '.')
  }

  /** A sales cell read as a number; None when the converted text does not parse. */
  function BrazilianNumber(s: string): Option<real> {
    ParseDecimal(FromBrazilian(s))
  }

  // ---- Rendering numbers, the partner of the parser ----

  function DigitChar(d: nat): (c: char)
    requires d < 10
    ensures IsDigit(c) && c as int - '0' as int == d
  {
    ('0' as int + d) as char
  }

  /** The decimal digits of n, most significant first. */
  function NatToDigits(n: nat): (s: string)
    ensures |s| > 0 && AllDigits(s)
  {
    if n < 10 then [DigitChar(n)] else NatToDigits(n / 10) + [DigitChar(n % 10)]
  }

  /** Two digits for the cents part. */
  function TwoDigits(n: nat): (s: string)
    requires n < 100
    ensures |s| == 2 && AllDigits(s)
  {
    [DigitChar(n / 10), DigitChar(n % 10)]
  }

  /** Groups of three digits separated by '.', counted from the right. */
  function GroupThousands(d: string): string
  {
    if |d| <= 3 then d else GroupThousands(d[..|d| - 3]) + "." + d[|d| - 3..]
  }

  /** An amount of cents the way a Brazilian export writes it: "1.234,56". */
  function FormatBrazilian(cents: nat): string {
    GroupThousands(NatToDigits(cents / 100)) + "," + TwoDigits(cents % 100)
  }

  lemma {:induction false} NatToDigitsValue(n: nat)
    ensures DigitsValue(NatToDigits(n)) == n
  {
    if n >= 10 {
      var s := NatToDigits(n);
      assert s[..|s| - 1] == NatToDigits(n / 10);
      NatToDigitsValue(n / 10);
    }
  }

  lemma TwoDigitsValue(n: nat)
    requires n < 100
    ensures DigitsValue(TwoDigits(n)) == n
  {
    var a, b := DigitChar(n / 10), DigitChar(n % 10);
    DigitsValueGrowsBy([], a);
    assert [] + [a] == [a];
    DigitsValueGrowsBy([a], b);
    assert [a] + [b] == TwoDigits(n);
  }

  lemma NoSeparatorInDigits(s: string)
    requires AllDigits(s)
    ensures '.' !in s && ',' !in s
  {
  }

  /** Deleting the dots undoes the grouping. */
  lemma {:induction false} RemoveDotsUngroups(d: string)
    requires AllDigits(d)
    ensures RemoveChar(GroupThousands(d), '.') == d
  {
    if |d| > 3 {
      var head, tail := d[..|d| - 3], d[|d| - 3..];
      var gh := GroupThousands(head);
      assert GroupThousands(d) == gh + "." + tail;
      RemoveDotsUngroups(head);
      assert AllDigits(tail) by {
        forall i | 0 <= i < |tail| ensures IsDigit(tail[i]) { assert tail[i] == d[|d| - 3 + i]; }
      }
      NoSeparatorInDigits(tail);
      RemoveCharAround(gh, tail, '.');
      assert head + tail == d;
    } else {
      NoSeparatorInDigits(d);
      RemoveCharSpec(d, '.');
    }
  }

  lemma {:induction false} DigitsValueGrowsBy(s: string, c: char)
    requires AllDigits(s) && IsDigit(c)
    ensures AllDigits(s + [c]) && DigitsValue(s + [c]) == DigitsValue(s) * 10 + (c as int - '0' as int)
  {
    assert (s + [c])[..|s + [c]| - 1] == s;
  }

  lemma {:induction false} DotIndexAfter(w: string, f: string)
    requires '.' !in w
    ensures DotIndex(w + "." + f) == |w|
  {
    if w != [] {
      assert (w + "." + f)[1..] == w[1..] + "." + f;
      DotIndexAfter(w[1..], f);
    } else {
      assert w + "." + f == "." + f;
    }
  }

  /** Unsigned "w.f" with digit strings w and f parses to w + f / 10^|f|. */
  lemma ParsePointed(w: string, f: string)
    requires AllDigits(w) && AllDigits(f) && |w| > 0
    ensures ParseDecimal(w + "." + f) == Some(PointValue(w, f))
  {
    var s := w + "." + f;
    assert s[0] == w[0] && IsDigit(w[0]);
    NoSeparatorInDigits(w);
    DotIndexAfter(w, f);
    assert s[..|w|] == w;
    assert s[|w| + 1..] == f;
  }

  /** A plain digit string parses to the number it denotes. */
  lemma ParseWhole(w: string)
    requires AllDigits(w) && |w| > 0
    ensures ParseDecimal(w) == Some(DigitsValue(w) as real)
  {
    assert w[0] != '-' && w[0] != '+' by { assert IsDigit(w[0]); }
    assert ParseDecimal(w) == ParseUnsigned(w);
    NoSeparatorInDigits(w);
    DotIndexNone(w);
    assert w[..|w|] == w;
    assert DigitsValue([]) == 0 && Pow10(0) == 1;
    assert PointValue(w, []) == DigitsValue(w) as real;
  }

  lemma {:induction false} DotIndexNone(w: string)
    requires '.' !in w
    ensures DotIndex(w) == |w|
  {
    if w != [] {
      assert '.' !in w[1..] by { assert forall i :: 0 <= i < |w[1..]| ==> w[1..][i] == w[i + 1]; }
      DotIndexNone(w[1..]);
    }
  }

  /** "w.f" with digit strings w and f parses to the value v they denote. */
  lemma PointedValue(w: string, f: string, v: real)
    requires AllDigits(w) && AllDigits(f) && |w| > 0
    requires PointValue(w, f) == v
    ensures ParseDecimal(w + "." + f) == Some(v)
  {
    ParsePointed(w, f);
  }

  /** Round trip: a number written in the Brazilian format is read back exactly. */
  lemma FromBrazilianFormat(cents: nat)
    ensures FromBrazilian(FormatBrazilian(cents)) == NatToDigits(cents / 100) + "." + TwoDigits(cents % 100)
  {
    var d, t := NatToDigits(cents / 100), TwoDigits(cents % 100);
    var g := GroupThousands(d);
    NoSeparatorInDigits(t);
    NoSeparatorInDigits(d);
    RemoveCharAppend(g + ",", t, '.');
    RemoveCharAppend(g, ",", '.');
    assert RemoveChar(",", '.') == ",";
    RemoveCharSpec(t, '.');
    RemoveDotsUngroups(d);
    assert RemoveChar(FormatBrazilian(cents), '.') == d + "," + t;
    ReplaceCharAround(d, t, ',', '.');
  }

  lemma CentsValue(cents: nat)
    ensures PointValue(NatToDigits(cents / 100), TwoDigits(cents % 100)) == cents as real / 100.0
  {
    NatToDigitsValue(cents / 100);
    TwoDigitsValue(cents % 100);
    assert Pow10(2) == 100;
    assert cents == cents / 100 * 100 + cents % 100;
  }

  /** Round trip: a number written in the Brazilian format is read back exactly. */
  lemma BrazilianRoundTrip(cents: nat)
    ensures BrazilianNumber(FormatBrazilian(cents)) == Some(cents as real / 100.0)
  {
    var w, f := NatToDigits(cents / 100), TwoDigits(cents % 100);
    FromBrazilianFormat(cents);
    assert BrazilianNumber(FormatBrazilian(cents)) == ParseDecimal(w + "." + f);
    ParsePointed(w, f);
    CentsValue(cents);
  }

  /** A grouped amount with a decimal comma. */
  lemma BrazilianExample()
    ensures BrazilianNumber("1.234,56") == Some(1234.56)
  {
    ExampleFormat();
    BrazilianRoundTrip(123456);
  }

  lemma ExampleFormat()
    ensures FormatBrazilian(123456) == "1.234,56"
  {
    ExampleDigits();
    ExampleGroups(NatToDigits(1234));
    assert TwoDigits(56) == "56";
    FormatOf(123456, "1.234", "56");
    assert "1.234" + "," + "56" == "1.234,56";
  }

  /** The rendering of an amount from its two rendered parts. */
  lemma FormatOf(cents: nat, g: string, t: string)
    requires GroupThousands(NatToDigits(cents / 100)) == g && TwoDigits(cents % 100) == t
    ensures FormatBrazilian(cents) == g + "," + t
  {
  }

  lemma ExampleDigits()
    ensures NatToDigits(1234) == "1234"
  {
    assert NatToDigits(1) == "1";
    assert NatToDigits(12) == "12";
    assert NatToDigits(123) == "123";
  }

  lemma ExampleGroups(d: string)
    requires d == "1234"
    ensures GroupThousands(d) == "1.234"
  {
    assert d[..1] == "1" && d[1..] == "234";
  }
}
