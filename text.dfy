/** String helpers with the semantics of the JavaScript built-ins the
    application relies on: `\s` / `trim()` whitespace, `startsWith`,
    `endsWith`, `includes`, `split(sep).pop()`, ASCII `toLowerCase` and the
    decimal rendering of a non-negative number. Strings are sequences of
    Unicode scalar values. */
module Text {
  import opened Wrappers

  /** The characters JavaScript's `\s` class and `String.prototype.trim`
      treat as white space (WhiteSpace and LineTerminator of ECMA-262). */
  predicate IsSpace(c: char) {
    || c == ' ' || c == '\t' || c == '\n' || c == '\r'
    || c == '\U{000B}' || c == '\U{000C}' || c == '\U{00A0}' || c == '\U{1680}'
    || ('\U{2000}' <= c <= '\U{200A}')
    || c == '\U{2028}' || c == '\U{2029}' || c == '\U{202F}' || c == '\U{205F}'
    || c == '\U{3000}' || c == '\U{FEFF}'
  }

  predicate IsBlank(s: string) {
    forall i :: 0 <= i < |s| ==> IsSpace(s[i])
  }

  function TrimStart(s: string): (r: string)
    ensures |r| <= |s|
    ensures r == s[|s| - |r|..]
    ensures r == [] || !IsSpace(r[0])
    ensures IsBlank(s[..|s| - |r|])
  {
    if s == [] || !IsSpace(s[0]) then s
    else
      var r := TrimStart(s[1..]);
      assert s[1..][..|s| - 1 - |r|] == s[1..|s| - |r|];
      r
  }

  function TrimEnd(s: string): (r: string)
    ensures |r| <= |s|
    ensures r == s[..|r|]
    ensures r == [] || !IsSpace(r[|r| - 1])
    ensures IsBlank(s[|r|..])
  {
    if s == [] || !IsSpace(s[|s| - 1]) then s
    else
      var p := s[..|s| - 1];
      var r := TrimEnd(p);
      assert p[..|r|] == s[..|r|];
      assert s[|r|..] == p[|r|..] + [s[|s| - 1]];
      assert IsBlank(s[|r|..]) by {
        forall i | 0 <= i < |s| - |r|
          ensures IsSpace(s[|r|..][i])
        {
          if i < |p| - |r| {
            assert s[|r|..][i] == p[|r|..][i];
          }
        }
      }
      r
  }

  /** `s.trim()` */
  function Trim(s: string): string {
    TrimEnd(TrimStart(s))
  }

  /** `!s.trim()` holds exactly for the strings made only of white space. */
  lemma TrimEmptyIffBlank(s: string)
    ensures Trim(s) == [] <==> IsBlank(s)
  {
    var t := TrimStart(s);
    if Trim(s) == [] {
      assert t[0..] == t;
      assert t == [];
      assert s[..|s|] == s;
    } else {
      assert !IsSpace(t[0]);
      assert t[0] == s[|s| - |t|];
    }
  }

  /** ASCII `toLowerCase`. */
  function LowerChar(c: char): char {
    if 'A' <= c <= 'Z' then (c as int + 32) as char else c
  }

  function Lower(s: string): (r: string)
    ensures |r| == |s|
    ensures forall i :: 0 <= i < |s| ==> r[i] == LowerChar(s[i])
  {
    if s == [] then [] else [LowerChar(s[0])] + Lower(s[1..])
  }

  predicate StartsWith(s: string, prefix: string) {
    prefix <= s
  }

  predicate EndsWith(s: string, suffix: string) {
    |suffix| <= |s| && s[|s| - |suffix|..] == suffix
  }

  /** `s.includes(q)`: some position of `s` starts an occurrence of `q`. */
  predicate OccursAt(s: string, q: string, i: int) {
    0 <= i && i + |q| <= |s| && s[i..i + |q|] == q
  }

  function Includes(s: string, q: string): (b: bool)
    ensures b <==> exists i :: OccursAt(s, q, i)
    decreases |s|
  {
    if q <= s then
      assert OccursAt(s, q, 0);
      true
    else if s == [] then
      assert forall i :: !OccursAt(s, q, i);
      false
    else
      var b := Includes(s[1..], q);
      assert forall i :: OccursAt(s[1..], q, i) <==> OccursAt(s, q, i + 1);
      if b then true
      else
        assert forall i :: OccursAt(s, q, i) ==> i == 0 || OccursAt(s[1..], q, i - 1);
        false
  }

  /** Index of the first occurrence of `q` in `s`, as `s.indexOf(q)`. */
  function IndexOf(s: string, q: string): (r: Option<nat>)
    ensures r.Some? ==> OccursAt(s, q, r.value)
    ensures r.Some? ==> forall j :: 0 <= j < r.value ==> !OccursAt(s, q, j)
    ensures r.None? ==> forall j :: !OccursAt(s, q, j)
    decreases |s|
  {
    if q <= s then Some(0)
    else if s == [] then None
    else
      var t := IndexOf(s[1..], q);
      assert forall i :: OccursAt(s[1..], q, i) <==> OccursAt(s, q, i + 1);
      assert forall j :: OccursAt(s, q, j) ==> j == 0 || OccursAt(s[1..], q, j - 1);
      assert !OccursAt(s, q, 0);
      if t.Some? then Some(t.value + 1) else None
  }

  /** An occurrence with none before it is the one `IndexOf` finds. */
  lemma IndexOfFirst(s: string, q: string, k: nat)
    requires OccursAt(s, q, k) && forall j :: 0 <= j < k ==> !OccursAt(s, q, j)
    ensures IndexOf(s, q) == Some(k)
  {
  }

  /** The first occurrence of `q` in `p` stays the first once text is
      appended. */
  lemma IndexOfExtended(p: string, rest: string, q: string)
    requires IndexOf(p, q).Some?
    ensures IndexOf(p + rest, q) == IndexOf(p, q)
  {
    var k := IndexOf(p, q).value;
    var t := p + rest;
    assert t[k..k + |q|] == p[k..k + |q|];
    assert OccursAt(t, q, k);
    forall j | 0 <= j < k ensures !OccursAt(t, q, j) {
      assert !OccursAt(p, q, j);
      assert t[j..j + |q|] == p[j..j + |q|];
    }
    IndexOfFirst(t, q, k);
  }

  /** Text that lacks the first character of `q` ends at the `q` after it. */
  lemma IndexOfAfterFree(p: string, q: string)
    requires q != [] && q[0] !in p
    ensures IndexOf(p + q, q) == Some(|p|)
  {
    var t := p + q;
    assert t[|p|..|p| + |q|] == q;
    forall j | 0 <= j < |p|
      ensures !OccursAt(t, q, j)
    {
      assert t[j] == p[j];
      assert p[j] in p;
    }
    IndexOfFirst(t, q, |p|);
  }

  /** `r` is the text of `s` after its last `sep`, or all of `s` when it
      holds no `sep`. */
  predicate IsTextAfterLast(s: string, sep: char, r: string) {
    |r| <= |s| && r == s[|s| - |r|..] && sep !in r && (|r| < |s| ==> s[|s| - |r| - 1] == sep)
  }

  /** `s.split(sep).pop()` for a one-character separator: the text after
      the last `sep`, or all of `s` when it holds no `sep`. */
  function AfterLast(s: string, sep: char): (r: string)
    ensures |r| <= |s| && r == s[|s| - |r|..]
    ensures sep !in r
    ensures |r| < |s| ==> s[|s| - |r| - 1] == sep
    decreases |s|
  {
    if s == [] then []
    else if s[|s| - 1] == sep then []
    else
      var p := s[..|s| - 1];
      var r := AfterLast(p, sep);
      LastStep(s, r);
      if |r| < |p| then r + [s[|s| - 1]] else s
  }

  /** The sequence facts behind one step of `AfterLast`: a suffix of all but
      the last character, extended by that character, is a suffix of `s`. */
  lemma LastStep(s: string, r: string)
    requires s != [] && |r| <= |s| - 1 && r == s[..|s| - 1][|s| - 1 - |r|..]
    ensures r + [s[|s| - 1]] == s[|s| - |r| - 1..]
    ensures |r| < |s| - 1 ==> s[..|s| - 1][|s| - 1 - |r| - 1] == s[|s| - |r| - 2]
    ensures |r| == |s| - 1 ==> r + [s[|s| - 1]] == s
  {
  }

  /** `AfterLast` computes the text after the last separator. */
  lemma AfterLastIsTextAfterLast(s: string, sep: char)
    ensures IsTextAfterLast(s, sep, AfterLast(s, sep))
  {
  }

  /** Text without the separator is its own last piece. */
  lemma AfterLastNoSep(s: string, sep: char)
    ensures sep !in s ==> AfterLast(s, sep) == s
  {
    assert s[0..] == s;
  }

  // ---- decimal numbers -------------------------------------------------

  predicate IsDigit(c: char) {
    '0' <= c <= '9'
  }

  function DigitChar(d: nat): (c: char)
    requires d < 10
    ensures IsDigit(c)
  {
    ('0' as int + d) as char
  }

  function DigitValue(c: char): (d: nat)
    requires IsDigit(c)
    ensures d < 10
  {
    (c as int - '0' as int)
  }

  /** `String(n)` for a non-negative integer. */
  function NatToString(n: nat): (r: string)
    ensures |r| > 0
    ensures forall i :: 0 <= i < |r| ==> IsDigit(r[i])
    ensures |r| > 1 ==> r[0] != '0'
  {
    if n < 10 then [DigitChar(n)]
    else NatToString(n / 10) + [DigitChar(n % 10)]
  }

  predicate AllDigits(s: string) {
    forall i :: 0 <= i < |s| ==> IsDigit(s[i])
  }

  /** The value of a string of decimal digits. */
  function ParseNat(s: string): nat
    requires AllDigits(s)
  {
    if s == [] then 0
    else ParseNat(s[..|s| - 1]) * 10 + DigitValue(s[|s| - 1])
  }

  lemma {:induction false} ParseNatToString(n: nat)
    ensures ParseNat(NatToString(n)) == n
  {
    if n >= 10 {
      var r := NatToString(n);
      assert r[..|r| - 1] == NatToString(n / 10);
      ParseNatToString(n / 10);
      assert DigitValue(DigitChar(n % 10)) == n % 10;
    } else {
      assert DigitValue(DigitChar(n)) == n;
    }
  }

  /** Rendering numbers is injective, so a port can be read back. */
  lemma NatToStringInjective(m: nat, n: nat)
    requires NatToString(m) == NatToString(n)
    ensures m == n
  {
    ParseNatToString(m);
    ParseNatToString(n);
  }
}
