/** The pandas string operations the two normalizers chain together,
    on text decoded from Latin-1 (every character below U+0100). */
module Text {

  /** Python's str.isspace() on the Latin-1 range: what str.strip() removes. */
  predicate IsSpace(c: char) {
    c == ' ' || c == '\t' || c == '\n' || c == '\r' || c == '\U{0B}' || c == '\U{0C}'
    || ('\U{1C}' <= c <= '\U{1F}') || c == '\U{85}' || c == '\U{A0}'
  }

  /** str.upper() on one Latin-1 character. The three letters whose upper-case
      form lies outside Latin-1 or has two characters (µ, ß, ÿ) are kept. */
  function UpperChar(c: char): char {
    if 'a' <= c <= 'z' || ('\U{E0}' <= c <= '\U{FE}' && c != '\U{F7}') then (c as int - 32) as char else c
  }

  /** str.lower() on one Latin-1 character. */
  function LowerChar(c: char): char {
    if 'A' <= c <= 'Z' || ('\U{C0}' <= c <= '\U{DE}' && c != '\U{D7}') then (c as int + 32) as char else c
  }

  lemma UpperCharFacts(c: char)
    ensures UpperChar(UpperChar(c)) == UpperChar(c)
    ensures IsSpace(UpperChar(c)) == IsSpace(c)
    ensures (UpperChar(c) == ' ') == (c == ' ')
    ensures (UpperChar(c) == '.') == (c == '.')
  {
  }

  function Upper(s: string): (r: string)
    ensures |r| == |s| && forall i :: 0 <= i < |s| ==> r[i] == UpperChar(s[i])
  {
    seq(|s|, i requires 0 <= i < |s| => UpperChar(s[i]))
  }

  function Lower(s: string): (r: string)
    ensures |r| == |s| && forall i :: 0 <= i < |s| ==> r[i] == LowerChar(s[i])
  {
    seq(|s|, i requires 0 <= i < |s| => LowerChar(s[i]))
  }

  /** s has no whitespace at either end. */
  predicate NoEdgeSpace(s: string) {
    s == [] || (!IsSpace(s[0]) && !IsSpace(s[|s| - 1]))
  }

  /** str.lstrip(): drops the leading whitespace and nothing else. */
  function TrimLeft(s: string): (r: string)
    ensures |r| <= |s| && r == s[|s| - |r|..]
    ensures forall i :: 0 <= i < |s| - |r| ==> IsSpace(s[i])
    ensures r == [] || !IsSpace(r[0])
  {
    if s != [] && IsSpace(s[0]) then TrimLeft(s[1..]) else s
  }

  /** str.rstrip(): drops the trailing whitespace and nothing else. */
  function TrimRight(s: string): (r: string)
    ensures |r| <= |s| && r == s[..|r|]
    ensures forall i :: |r| <= i < |s| ==> IsSpace(s[i])
    ensures r == [] || !IsSpace(r[|r| - 1])
  {
    if s != [] && IsSpace(s[|s| - 1]) then TrimRight(s[..|s| - 1]) else s
  }

  /** str.strip() */
  function Strip(s: string): (r: string)
    ensures NoEdgeSpace(r)
    ensures NoEdgeSpace(s) ==> r == s
  {
    var t := TrimLeft(s);
    assert t != [] ==> t[0] == s[|s| - |t|];
    TrimRight(t)
  }

  /** str.rstrip(x) for a single character x: drops every trailing x. */
  function TrimRightChar(s: string, x: char): (r: string)
    ensures |r| <= |s| && r == s[..|r|]
    ensures forall i :: |r| <= i < |s| ==> s[i] == x
    ensures r == [] || r[|r| - 1] != x
  {
    if s != [] && s[|s| - 1] == x then TrimRightChar(s[..|s| - 1], x) else s
  }

  /** s has no two adjacent ' ' characters. */
  predicate NoDoubleSpace(s: string) {
    forall i :: 0 <= i < |s| - 1 ==> s[i] != ' ' || s[i + 1] != ' '
  }

  /** str.replace(x, '', regex=False): deletes every x. */
  function RemoveChar(s: string, x: char): string
  {
    if s == [] then [] else if s[0] == x then RemoveChar(s[1..], x) else [s[0]] + RemoveChar(s[1..], x)
  }

  /** No x is left, and text without x is unchanged. */
  lemma {:induction false} RemoveCharSpec(s: string, x: char)
    ensures x !in RemoveChar(s, x)
    ensures x !in s ==> RemoveChar(s, x) == s
  {
    if s != [] {
      RemoveCharSpec(s[1..], x);
      assert x !in s ==> x !in s[1..];
    }
  }

  lemma {:induction false} RemoveCharAppend(a: string, b: string, x: char)
    ensures RemoveChar(a + b, x) == RemoveChar(a, x) + RemoveChar(b, x)
  {
    if a != [] {
      assert (a + b)[1..] == a[1..] + b;
      RemoveCharAppend(a[1..], b, x);
    } else {
      assert a + b == b;
    }
  }

  lemma RemoveCharAround(a: string, b: string, x: char)
    requires x !in b
    ensures RemoveChar(a + [x] + b, x) == RemoveChar(a, x) + b
  {
    RemoveCharAppend(a + [x], b, x);
    RemoveCharAppend(a, [x], x);
    assert RemoveChar([x], x) == [];
    RemoveCharSpec(b, x);
  }

  /** str.replace(x, y, regex=False) for single characters. */
  function ReplaceChar(s: string, x: char, y: char): (r: string)
    ensures |r| == |s|
    ensures x != y ==> x !in r
    ensures y !in s ==> (forall i :: 0 <= i < |s| ==> (r[i] == y <==> s[i] == x))
  {
    seq(|s|, i requires 0 <= i < |s| => if s[i] == x then y else s[i])
  }

  lemma ReplaceCharAround(a: string, b: string, x: char, y: char)
    requires x !in a && x !in b
    ensures ReplaceChar(a + [x] + b, x, y) == a + [y] + b
  {
    var s, r := a + [x] + b, ReplaceChar(a + [x] + b, x, y);
    forall i | 0 <= i < |s| ensures r[i] == (a + [y] + b)[i] {
      if i < |a| { assert s[i] == a[i]; } else if i > |a| { assert s[i] == b[i - |a| - 1]; }
    }
  }

  /** str.replace(' +', ' ', regex=True): every run of spaces becomes one space.
      A space is dropped exactly when the next character is a space too. */
  function CollapseSpaces(s: string): (r: string)
    ensures NoDoubleSpace(r)
    ensures s != [] ==> r != [] && r[|r| - 1] == s[|s| - 1]
    ensures s != [] && s[0] != ' ' ==> r[0] == s[0]
  {
    if |s| <= 1 then s
    else if s[0] == ' ' && s[1] == ' ' then CollapseSpaces(s[1..])
    else [s[0]] + CollapseSpaces(s[1..])
  }

  /** Collapsing leaves text without double spaces as it is. */
  lemma {:induction false} CollapseFixes(s: string)
    requires NoDoubleSpace(s)
    ensures CollapseSpaces(s) == s
  {
    if |s| > 1 {
      assert s[0] != ' ' || s[1] != ' ';
      assert NoDoubleSpace(s[1..]) by {
        forall i | 0 <= i < |s[1..]| - 1 ensures s[1..][i] != ' ' || s[1..][i + 1] != ' ' {
          assert s[1..][i] == s[i + 1] && s[1..][i + 1] == s[i + 2];
        }
      }
      CollapseFixes(s[1..]);
    }
  }

  /** Collapsing removes spaces only: every other character stays, in order. */
  lemma {:induction false} CollapseKeepsNonSpaces(s: string)
    ensures RemoveChar(CollapseSpaces(s), ' ') == RemoveChar(s, ' ')
  {
    if |s| > 1 {
      CollapseKeepsNonSpaces(s[1..]);
      if s[0] == ' ' && s[1] == ' ' {
        assert RemoveChar(s, ' ') == RemoveChar(s[1..], ' ');
      } else {
        var rest := CollapseSpaces(s[1..]);
        RemoveCharAppend([s[0]], rest, ' ');
        assert s == [s[0]] + s[1..];
        RemoveCharAppend([s[0]], s[1..], ' ');
      }
    }
  }
  /** A run of two spaces collapses as one space does. */
  lemma {:induction false} CollapseRun(a: string, b: string)
    ensures CollapseSpaces(a + "  " + b) == CollapseSpaces(a + " " + b)
  {
    var s, t := a + "  " + b, a + " " + b;
    if a == [] {
      assert s[1..] == t;
    } else {
      assert s[0] == t[0] && s[1] == t[1];
      assert s[1..] == a[1..] + "  " + b;
      assert t[1..] == a[1..] + " " + b;
      CollapseRun(a[1..], b);
    }
  }

  /** Upper-casing twice is upper-casing once. */
  lemma UpperTwice(s: string)
    ensures Upper(Upper(s)) == Upper(s)
  {
    forall i | 0 <= i < |s| ensures Upper(Upper(s))[i] == Upper(s)[i] {
      UpperCharFacts(s[i]);
    }
  }

  lemma {:induction false} TrimLeftUpper(s: string)
    ensures TrimLeft(Upper(s)) == Upper(TrimLeft(s))
  {
    if s != [] {
      UpperCharFacts(s[0]);
      assert Upper(s)[1..] == Upper(s[1..]);
      TrimLeftUpper(s[1..]);
    }
  }

  lemma {:induction false} TrimRightUpper(s: string)
    ensures TrimRight(Upper(s)) == Upper(TrimRight(s))
  {
    if s != [] {
      UpperCharFacts(s[|s| - 1]);
      assert Upper(s)[..|s| - 1] == Upper(s[..|s| - 1]);
      TrimRightUpper(s[..|s| - 1]);
    }
  }

  /** Stripping does not depend on case, since no letter is whitespace. */
  lemma StripUpper(s: string)
    ensures Strip(Upper(s)) == Upper(Strip(s))
  {
    TrimLeftUpper(s);
    TrimRightUpper(TrimLeft(s));
  }

  /** Collapsing spaces does not depend on case. */
  lemma {:induction false} CollapseUpper(s: string)
    ensures CollapseSpaces(Upper(s)) == Upper(CollapseSpaces(s))
  {
    if |s| > 1 {
      UpperCharFacts(s[0]);
      UpperCharFacts(s[1]);
      assert Upper(s)[1..] == Upper(s[1..]);
      CollapseUpper(s[1..]);
      if !(s[0] == ' ' && s[1] == ' ') {
        UpperCons(s[0], CollapseSpaces(s[1..]));
      }
    }
  }

  lemma UpperCons(c: char, r: string)
    ensures Upper([c] + r) == [UpperChar(c)] + Upper(r)
  {
  }

  /** Upper-casing and deleting the spaces commute, since only ' ' upper-cases to ' '. */
  lemma {:induction false} UpperRemoveSpaces(c: string)
    ensures RemoveChar(Upper(c), ' ') == Upper(RemoveChar(c, ' '))
  {
    if c != [] {
      assert Upper(c)[1..] == Upper(c[1..]);
      UpperRemoveSpaces(c[1..]);
      if c[0] != ' ' {
        UpperCons(c[0], RemoveChar(c[1..], ' '));
      }
    }
  }

}
