/**
 * The two string operations the modelled code relies on: Python's
 * `str.lower()` (restricted to ASCII letters) and `str(i)` of a
 * non-negative integer.
 */
module Text {

  function LowerChar(c: char): char
  {
    if 'A' <= c <= 'Z' then (c as int + 32) as char else c
  }

  /** `s.lower()`. */
  function Lower(s: string): (r: string)
    ensures |r| == |s| && forall i :: 0 <= i < |s| ==> r[i] == LowerChar(s[i])
  {
    seq(|s|, i requires 0 <= i < |s| => LowerChar(s[i]))
  }

  /** A letter-digit keyword such as "l1" or "l2" compared through `.lower()` matches in either case. */
  lemma LowerLetterDigit(s: string, c: char, d: char)
    requires 'a' <= c <= 'z' && '0' <= d <= '9'
    ensures Lower(s) == [c, d] <==> s == [c, d] || s == [(c as int - 32) as char, d]
  {
    if Lower(s) == [c, d] {
      assert |s| == 2 && LowerChar(s[0]) == c && LowerChar(s[1]) == d;
      assert s[1] == d;
      assert s[0] == c || s[0] == (c as int - 32) as char;
      assert s == [s[0], s[1]];
    }
  }

  function DigitChar(d: nat): (c: char)
    requires d < 10
    ensures '0' <= c <= '9'
  {
    "0123456789"[d]
  }

  /** `str(n)` for n >= 0: decimal digits, no leading zero. */
  function NatToString(n: nat): (s: string)
    ensures 1 <= |s| && forall i :: 0 <= i < |s| ==> '0' <= s[i] <= '9'
    ensures |s| == 1 <==> n < 10
  {
    if n < 10 then [DigitChar(n)] else NatToString(n / 10) + [DigitChar(n % 10)]
  }

  /** Different numbers have different decimal names. */
  lemma {:induction false} NatToStringInjective(a: nat, b: nat)
    requires NatToString(a) == NatToString(b)
    ensures a == b
  {
    if a < 10 || b < 10 {
      assert |NatToString(a)| == 1 && |NatToString(b)| == 1;
      assert NatToString(a)[0] == DigitChar(a) && NatToString(b)[0] == DigitChar(b);
      DigitCharInjective(a, b);
    } else {
      var pa, pb := NatToString(a / 10), NatToString(b / 10);
      SnocParts(pa, DigitChar(a % 10), pb, DigitChar(b % 10));
      DigitCharInjective(a % 10, b % 10);
      NatToStringInjective(a / 10, b / 10);
      assert a == 10 * (a / 10) + a % 10 && b == 10 * (b / 10) + b % 10;
    }
  }

  lemma DigitCharInjective(a: nat, b: nat)
    requires a < 10 && b < 10 && DigitChar(a) == DigitChar(b)
    ensures a == b
  {
  }

  /** Two sequences that each end in one element are equal only when their parts are. */
  lemma SnocParts<T>(p: seq<T>, x: T, q: seq<T>, y: T)
    requires p + [x] == q + [y]
    ensures p == q && x == y
  {
    assert p == (p + [x])[..|p|];
    assert q == (q + [y])[..|q|];
    assert x == (p + [x])[|p|];
  }
}
