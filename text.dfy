/** The string operations the handlers use: toLowerCase, trim, includes, decimal rendering of an index, and
    the ordering of strings by code unit (how ISO dates and "HH:MM" times compare). */
module Text {
  import opened Wrappers
  import opened Seqs

  /** toLowerCase, restricted to the ASCII letters. */
  function LowerChar(c: char): (d: char)
    ensures 'A' <= c <= 'Z' ==> d as int == c as int + 32
    ensures !('A' <= c <= 'Z') ==> d == c
  {
    if 'A' <= c <= 'Z' then (c as int + 32) as char else c
  }

  function Lower(s: string): (r: string)
    ensures |r| == |s| && forall i :: 0 <= i < |s| ==> r[i] == LowerChar(s[i])
  {
    seq(|s|, i requires 0 <= i < |s| => LowerChar(s[i]))
  }

  /** The characters String.prototype.trim removes: ECMAScript WhiteSpace and LineTerminator. */
  predicate IsJsWhitespace(c: char)
  {
    || c == '\t' || c == '\n' || c == '\U{B}' || c == '\U{C}' || c == '\r' || c == ' '
    || c == '\U{A0}' || c == '\U{1680}' || ('\U{2000}' <= c <= '\U{200A}')
    || c == '\U{2028}' || c == '\U{2029}' || c == '\U{202F}' || c == '\U{205F}'
    || c == '\U{3000}' || c == '\U{FEFF}'
  }

  function TrimStart(s: string): (r: string)
    ensures |r| <= |s| && r == s[|s| - |r|..]
    ensures forall i :: 0 <= i < |s| - |r| ==> IsJsWhitespace(s[i])
    ensures r == [] || !IsJsWhitespace(r[0])
  {
    if s != [] && IsJsWhitespace(s[0]) then TrimStart(s[1..]) else s
  }

  function TrimEnd(s: string): (r: string)
    ensures |r| <= |s| && r == s[..|r|]
    ensures forall i :: |r| <= i < |s| ==> IsJsWhitespace(s[i])
    ensures r == [] || !IsJsWhitespace(r[|r| - 1])
  {
    if s != [] && IsJsWhitespace(s[|s| - 1]) then TrimEnd(s[..|s| - 1]) else s
  }

  /** trim: the longest slice of s that neither starts nor ends with whitespace; empty iff s is all whitespace. */
  function Trim(s: string): (r: string)
    ensures OccursAt(s, r, |s| - |TrimStart(s)|)
    ensures r == [] <==> forall i :: 0 <= i < |s| ==> IsJsWhitespace(s[i])
    ensures r != [] ==> !IsJsWhitespace(r[0]) && !IsJsWhitespace(r[|r| - 1])
    ensures forall i :: |s| - |TrimStart(s)| + |r| <= i < |s| ==> IsJsWhitespace(s[i])
  {
    var t := TrimStart(s);
    TrimSlice(s, t);
    TrimEndTail(s, t);
    TrimEmpty(s, t);
    TrimEndsNonBlank(t);
    TrimEnd(t)
  }

  lemma TrimSlice(s: string, t: string)
    requires |t| <= |s| && t == s[|s| - |t|..]
    ensures OccursAt(s, TrimEnd(t), |s| - |t|)
  {
    var r := TrimEnd(t);
    assert r == s[|s| - |t|..|s| - |t| + |r|];
  }

  lemma TrimEmpty(s: string, t: string)
    requires t == TrimStart(s)
    ensures TrimEnd(t) == [] <==> forall i :: 0 <= i < |s| ==> IsJsWhitespace(s[i])
  {
    if TrimEnd(t) == [] {
      assert t == [];
    }
  }

  lemma TrimEndsNonBlank(t: string)
    requires t == [] || !IsJsWhitespace(t[0])
    ensures TrimEnd(t) != [] ==> !IsJsWhitespace(TrimEnd(t)[0]) && !IsJsWhitespace(TrimEnd(t)[|TrimEnd(t)| - 1])
  {
    var r := TrimEnd(t);
    if r != [] {
      assert r[0] == t[0];
    }
  }

  lemma TrimEndTail(s: string, t: string)
    requires |t| <= |s| && t == s[|s| - |t|..]
    ensures forall i :: |s| - |t| + |TrimEnd(t)| <= i < |s| ==> IsJsWhitespace(s[i])
  {
    var r := TrimEnd(t);
    forall i | |s| - |t| + |r| <= i < |s| ensures IsJsWhitespace(s[i]) {
      assert s[i] == t[i - (|s| - |t|)];
    }
  }

  /** !s.trim() */
  predicate IsBlank(s: string)
  {
    Trim(s) == []
  }

  /** n occurs in h starting at index i. */
  predicate OccursAt(h: string, n: string, i: int)
  {
    0 <= i <= |h| - |n| && h[i..i + |n|] == n
  }

  /** h.includes(n) */
  function Contains(h: string, n: string): (b: bool)
    ensures b <==> exists i :: OccursAt(h, n, i)
  {
    if n <= h then
      assert OccursAt(h, n, 0);
      true
    else if h == [] then
      assert forall i :: !OccursAt(h, n, i);
      false
    else
      var b := Contains(h[1..], n);
      assert b ==> exists i :: OccursAt(h, n, i) by {
        if b {
          var i :| OccursAt(h[1..], n, i);
          assert h[i + 1..i + 1 + |n|] == h[1..][i..i + |n|];
          assert OccursAt(h, n, i + 1);
        }
      }
      assert (exists i :: OccursAt(h, n, i)) ==> b by {
        if exists i :: OccursAt(h, n, i) {
          var i :| OccursAt(h, n, i);
          assert i != 0;
          assert h[1..][i - 1..i - 1 + |n|] == h[i..i + |n|];
          assert OccursAt(h[1..], n, i - 1);
        }
      }
      b
  }

  /** The case-insensitive search every registry page uses: x.toLowerCase().includes(q.toLowerCase()). */
  predicate Matches(x: string, q: string)
  {
    Contains(Lower(x), Lower(q))
  }

  /** Every string contains the empty search. */
  lemma MatchesEmpty(x: string)
    ensures Matches(x, "")
  {
    assert Lower("") == "";
    assert OccursAt(Lower(x), "", 0);
  }

  function DigitChar(d: nat): (c: char)
    requires d < 10
    ensures '0' <= c <= '9' && c as int - '0' as int == d
  {
    ('0' as int + d) as char
  }

  predicate IsDigit(c: char)
  {
    '0' <= c <= '9'
  }

  /** String(n) for a natural number. */
  function NatToString(n: nat): (r: string)
    ensures |r| >= 1 && forall i :: 0 <= i < |r| ==> IsDigit(r[i])
    ensures r[0] == '0' ==> n == 0 && r == "0"
    decreases n
  {
    if n < 10 then [DigitChar(n)] else NatToString(n / 10) + [DigitChar(n % 10)]
  }

  /** parseInt over a string of decimal digits. */
  function ParseDigits(s: string): (n: int)
    requires forall i :: 0 <= i < |s| ==> IsDigit(s[i])
    ensures n >= 0
  {
    if s == [] then 0 else
      assert IsDigit(s[|s| - 1]);
      10 * ParseDigits(s[..|s| - 1]) + (s[|s| - 1] as int - '0' as int)
  }

  predicate NonDigit(c: char)
  {
    !IsDigit(c)
  }

  /** parseInt over the leading decimal digits of its argument; None is NaN. */
  function ParseIntPrefix(s: string): (r: Option<int>)
    ensures r.None? <==> s == [] || !IsDigit(s[0])
    ensures (forall i :: 0 <= i < |s| ==> IsDigit(s[i])) && s != [] ==> r == Some(ParseDigits(s))
  {
    match FindFirst(s, NonDigit)
    case None => if s == [] then None else Some(ParseDigits(s))
    case Some(k) => if k == 0 then None else Some(ParseDigits(s[..k]))
  }

  /** parseInt(s, 10): leading whitespace, an optional sign, then the leading decimal digits; None is NaN. */
  function ParseInt(s: string): (r: Option<int>)
    ensures s == [] ==> r.None?
    ensures s != [] && IsJsWhitespace(s[0]) ==> r == ParseInt(s[1..])
    ensures s != [] && IsDigit(s[0]) ==> r.Some? && r.value >= 0
  {
    assert s != [] && IsDigit(s[0]) ==> TrimStart(s) == s;
    ParseSigned(TrimStart(s))
  }

  function ParseSigned(t: string): Option<int>
  {
    if t != [] && (t[0] == '-' || t[0] == '+') then
      match ParseIntPrefix(t[1..])
      case None => None
      case Some(n) => Some(if t[0] == '-' then -n else n)
    else ParseIntPrefix(t)
  }

  /** Rendering a number and reading it back gives the number: distinct indices get distinct labels. */
  lemma {:induction false} NatToStringRoundTrip(n: nat)
    ensures ParseDigits(NatToString(n)) == n
    decreases n
  {
    if n >= 10 {
      var r := NatToString(n);
      NatToStringRoundTrip(n / 10);
      assert r[..|r| - 1] == NatToString(n / 10);
    }
  }

  lemma NatToStringInjective(m: nat, n: nat)
    requires NatToString(m) == NatToString(n)
    ensures m == n
  {
    NatToStringRoundTrip(m);
    NatToStringRoundTrip(n);
  }

  /** parseInt reads back what String(n) writes, and its negation after a minus sign. */
  lemma ParseIntRoundTrip(n: nat)
    ensures ParseInt(NatToString(n)) == Some(n)
    ensures ParseInt("-" + NatToString(n)) == Some(-(n as int))
  {
    NatToStringRoundTrip(n);
    ParseIntOfDigits(NatToString(n));
  }

  lemma ParseIntOfDigits(d: string)
    requires d != [] && forall i :: 0 <= i < |d| ==> IsDigit(d[i])
    ensures ParseInt(d) == Some(ParseDigits(d))
    ensures ParseInt("-" + d) == Some(-ParseDigits(d))
  {
    assert IsDigit(d[0]);
    TrimStartKeeps(d);
    TrimStartKeeps("-" + d);
    UnsignedDigits(d);
    NegativeDigits(d);
  }

  /** A string that does not start with whitespace is its own TrimStart. */
  lemma TrimStartKeeps(s: string)
    requires s != [] && (IsDigit(s[0]) || s[0] == '-')
    ensures TrimStart(s) == s
  {
  }

  lemma UnsignedDigits(d: string)
    requires d != [] && forall i :: 0 <= i < |d| ==> IsDigit(d[i])
    ensures ParseSigned(d) == Some(ParseDigits(d))
  {
    assert d[0] != '-' && d[0] != '+';
    assert ParseIntPrefix(d) == Some(ParseDigits(d));
  }

  lemma NegativeDigits(d: string)
    requires d != [] && forall i :: 0 <= i < |d| ==> IsDigit(d[i])
    ensures ParseSigned("-" + d) == Some(-ParseDigits(d))
  {
    var m := "-" + d;
    assert m[0] == '-' && m[1..] == d;
  }

  /** a <= b on strings: code-unit-wise lexicographic order. */
  predicate LexLe(a: string, b: string)
  {
    a == [] || (b != [] && (a[0] < b[0] || (a[0] == b[0] && LexLe(a[1..], b[1..]))))
  }

  lemma {:induction false} LexLeRefl(a: string)
    ensures LexLe(a, a)
  {
    if a != [] { LexLeRefl(a[1..]); }
  }

  lemma {:induction false} LexLeTotal(a: string, b: string)
    ensures LexLe(a, b) || LexLe(b, a)
  {
    if a != [] && b != [] && a[0] == b[0] { LexLeTotal(a[1..], b[1..]); }
  }

  lemma {:induction false} LexLeTrans(a: string, b: string, c: string)
    requires LexLe(a, b) && LexLe(b, c)
    ensures LexLe(a, c)
  {
    if a != [] && b != [] && c != [] && a[0] == b[0] == c[0] {
      LexLeTrans(a[1..], b[1..], c[1..]);
    }
  }

  lemma {:induction false} LexLeAntisym(a: string, b: string)
    requires LexLe(a, b) && LexLe(b, a)
    ensures a == b
  {
    if a != [] && b != [] {
      LexLeAntisym(a[1..], b[1..]);
      assert a == [a[0]] + a[1..] && b == [b[0]] + b[1..];
    }
  }
}
