/** The two Python string operations the modelled code relies on: `str.strip()` and `str(int)`. */
module PyText {

  /** Python's `str.isspace()` for one character. */
  predicate IsSpace(c: char)
  {
    || c == ' '
    || ('\t' <= c <= '\r')
    || ('\U{1C}' <= c <= '\U{1F}')
    || c == '\U{85}' || c == '\U{A0}' || c == '\U{1680}'
    || ('\U{2000}' <= c <= '\U{200A}')
    || c == '\U{2028}' || c == '\U{2029}' || c == '\U{202F}' || c == '\U{205F}' || c == '\U{3000}'
  }

  /** Neither end of `s` is whitespace. */
  predicate IsStripped(s: string)
  {
    s == [] || (!IsSpace(s[0]) && !IsSpace(s[|s| - 1]))
  }

  /** `s.lstrip()`: drops the longest all-whitespace prefix. */
  function StripLeft(s: string): (r: string)
    ensures |r| <= |s| && r == s[|s| - |r|..]
    ensures forall i :: 0 <= i < |s| - |r| ==> IsSpace(s[i])
    ensures r == [] || !IsSpace(r[0])
  {
    if s != [] && IsSpace(s[0]) then StripLeft(s[1..]) else s
  }

  /** `s.rstrip()`: drops the longest all-whitespace suffix. */
  function StripRight(s: string): (r: string)
    ensures |r| <= |s| && r == s[..|r|]
    ensures forall i :: |r| <= i < |s| ==> IsSpace(s[i])
    ensures r == [] || !IsSpace(r[|r| - 1])
  {
    if s != [] && IsSpace(s[|s| - 1]) then StripRight(s[..|s| - 1]) else s
  }

  /** `s.strip()`: the infix `s[lo..hi]` left once all leading and trailing whitespace is dropped. */
  function Strip(s: string): (r: string)
    ensures IsStripped(r)
    ensures exists lo, hi :: 0 <= lo <= hi <= |s| && r == s[lo..hi]
                             && (forall i :: 0 <= i < lo ==> IsSpace(s[i]))
                             && (forall i :: hi <= i < |s| ==> IsSpace(s[i]))
  {
    var l := StripLeft(s);
    var r := StripRight(l);
    assert r == s[|s| - |l|..|s| - |l| + |r|];
    r
  }

  /** Stripping a string that has no whitespace at either end leaves it as it is. */
  lemma StripStripped(s: string)
    requires IsStripped(s)
    ensures Strip(s) == s
  {
  }

  /** A string made only of whitespace strips to the empty string. */
  lemma {:induction false} StripAllSpace(s: string)
    requires forall i :: 0 <= i < |s| ==> IsSpace(s[i])
    ensures Strip(s) == ""
  {
    if s != [] {
      StripAllSpace(s[1..]);
    }
  }

  /**
   * `f"{a} {b}".strip()` for two already stripped parts: the parts joined by one space,
   * or just the non-empty one, or the empty string.
   */
  lemma JoinStripped(a: string, b: string)
    requires IsStripped(a) && IsStripped(b)
    ensures Strip(a + " " + b) == if a == "" then b else if b == "" then a else a + " " + b
  {
    if a == "" {
      assert (a + " " + b)[1..] == b;
      assert StripLeft(a + " " + b) == StripLeft(b);
      StripStripped(b);
    } else if b == "" {
      assert (a + " " + b)[..|a|] == a;
      assert StripRight(a + " " + b) == StripRight(a);
      assert StripLeft(a + " " + b) == a + " " + b;
    } else {
      StripStripped(a + " " + b);
    }
  }

  /** `lstrip` drops exactly a whitespace prefix in front of a part that starts with a non-space. */
  lemma {:induction false} StripLeftPadding(pad: string, s: string)
    requires forall i :: 0 <= i < |pad| ==> IsSpace(pad[i])
    requires s != [] && !IsSpace(s[0])
    ensures StripLeft(pad + s) == s
  {
    if pad != [] {
      assert (pad + s)[1..] == pad[1..] + s;
      StripLeftPadding(pad[1..], s);
    }
  }

  /** `rstrip` drops exactly a whitespace suffix behind a part that ends with a non-space. */
  lemma {:induction false} StripRightPadding(s: string, pad: string)
    requires forall i :: 0 <= i < |pad| ==> IsSpace(pad[i])
    requires s != [] && !IsSpace(s[|s| - 1])
    ensures StripRight(s + pad) == s
  {
    if pad != [] {
      var n := |pad| - 1;
      assert (s + pad)[..|s + pad| - 1] == s + pad[..n];
      StripRightPadding(s, pad[..n]);
    }
  }

  /** `strip` undoes whitespace padding on both sides of a stripped, non-empty string. */
  lemma StripPadding(left: string, s: string, right: string)
    requires forall i :: 0 <= i < |left| ==> IsSpace(left[i])
    requires forall i :: 0 <= i < |right| ==> IsSpace(right[i])
    requires s != [] && IsStripped(s)
    ensures Strip(left + s + right) == s
  {
    assert left + s + right == left + (s + right);
    StripLeftPadding(left, s + right);
    StripRightPadding(s, right);
  }

  const Digits: string := "0123456789"

  /** `str(n)` for `n >= 0`: decimal digits, most significant first, no leading zero. */
  function NatText(n: nat): (r: string)
    ensures |r| >= 1 && (r[0] == '0' ==> n == 0)
    ensures forall i :: 0 <= i < |r| ==> r[i] in Digits
  {
    if n < 10 then [Digits[n]] else NatText(n / 10) + [Digits[n % 10]]
  }

  /** `str(n)` for any Python int. */
  function IntText(n: int): (r: string)
    ensures r != [] && IsStripped(r)
  {
    var t := if n < 0 then "-" + NatText(-n) else NatText(n);
    assert t[0] == '-' || t[0] in Digits;
    assert t[|t| - 1] in Digits;
    t
  }

  /** The value a string of decimal digits denotes (the inverse of `NatText`). */
  function DigitsValue(s: string): int
    requires forall i :: 0 <= i < |s| ==> s[i] in Digits
  {
    if s == [] then 0 else DigitsValue(s[..|s| - 1]) * 10 + DigitValue(s[|s| - 1])
  }

  function DigitValue(c: char): (d: nat)
    requires c in Digits
    ensures d < 10 && Digits[d] == c
  {
    if c == '0' then 0 else if c == '1' then 1 else if c == '2' then 2 else if c == '3' then 3
    else if c == '4' then 4 else if c == '5' then 5 else if c == '6' then 6 else if c == '7' then 7
    else if c == '8' then 8 else 9
  }

  /** Reading back the digits `NatText` writes gives the number again. */
  lemma {:induction false} NatTextRoundTrip(n: nat)
    ensures DigitsValue(NatText(n)) == n
  {
    var t := NatText(n);
    if n < 10 {
      assert t[..0] == [];
    } else {
      NatTextRoundTrip(n / 10);
      assert t[..|t| - 1] == NatText(n / 10);
    }
  }
}
