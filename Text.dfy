/** String helpers with the meaning of Rust's `str` methods and `Display` of integers. */
module Text {

  /** `t` occurs in `s` at offset `k`, checked from position `i` of `t` on. */
  predicate OccursAt(s: string, t: string, k: nat, i: nat)
    decreases |t| - i
  {
    i >= |t| || (k + i < |s| && s[k + i] == t[i] && OccursAt(s, t, k, i + 1))
  }

  /** `str::starts_with`. */
  predicate StartsWith(s: string, p: string) {
    OccursAt(s, p, 0, 0)
  }

  /** `t` occurs in `s` at some offset `k` or later. */
  predicate ContainsFrom(s: string, t: string, k: nat)
    decreases |s| - k
  {
    k + |t| <= |s| && (OccursAt(s, t, k, 0) || ContainsFrom(s, t, k + 1))
  }

  /** `str::contains`. */
  predicate Contains(s: string, t: string) {
    ContainsFrom(s, t, 0)
  }

  /** `t` is the slice of `s` that starts at offset `j`. */
  predicate SliceAt(s: string, t: string, j: nat) {
    j + |t| <= |s| && s[j..j + |t|] == t
  }

  lemma {:induction false} OccursAtSlice(s: string, t: string, k: nat, i: nat)
    requires i <= |t|
    ensures OccursAt(s, t, k, i) <==>
              i == |t| || (k + |t| <= |s| && s[k + i..k + |t|] == t[i..])
    decreases |t| - i
  {
    if i < |t| {
      OccursAtSlice(s, t, k, i + 1);
      if k + |t| <= |s| && s[k + i..k + |t|] == t[i..] {
        assert s[k + i] == s[k + i..k + |t|][0];
        assert s[k + i + 1..k + |t|] == s[k + i..k + |t|][1..];
        assert t[i + 1..] == t[i..][1..];
      }
      if OccursAt(s, t, k, i) && i + 1 < |t| {
        assert s[k + i..k + |t|] == [s[k + i]] + s[k + i + 1..k + |t|];
        assert t[i..] == [t[i]] + t[i + 1..];
      }
    }
  }

  /** `t` occurs in `s` at offset `k`, stated with slices. */
  lemma OccursAtZero(s: string, t: string, k: nat)
    ensures OccursAt(s, t, k, 0) <==> |t| == 0 || SliceAt(s, t, k)
  {
    OccursAtSlice(s, t, k, 0);
    assert t[0..] == t;
  }

  /** `StartsWith` is exactly "the first `|p|` characters of `s` are `p`". */
  lemma StartsWithSpec(s: string, p: string)
    ensures StartsWith(s, p) <==> |p| <= |s| && s[..|p|] == p
  {
    OccursAtZero(s, p, 0);
  }

  /** `a + b` starts with `a`. */
  lemma StartsWithConcat(a: string, b: string)
    ensures StartsWith(a + b, a)
  {
    StartsWithSpec(a + b, a);
    assert (a + b)[..|a|] == a;
  }

  /** Starting with `a`, where `a` starts with `b`, means starting with `b`. */
  lemma StartsWithTrans(s: string, a: string, b: string)
    requires StartsWith(s, a) && StartsWith(a, b)
    ensures StartsWith(s, b)
  {
    StartsWithSpec(s, a);
    StartsWithSpec(a, b);
    StartsWithSpec(s, b);
    assert s[..|b|] == s[..|a|][..|b|];
  }

  lemma {:induction false} ContainsFromSpec(s: string, t: string, k: nat)
    ensures ContainsFrom(s, t, k) <==> exists j :: k <= j && SliceAt(s, t, j)
    decreases |s| - k
  {
    OccursAtZero(s, t, k);
    if k + |t| <= |s| {
      ContainsFromSpec(s, t, k + 1);
      if |t| == 0 { assert s[k..k] == t; assert SliceAt(s, t, k); }
      if exists j :: k <= j && SliceAt(s, t, j) {
        var j :| k <= j && SliceAt(s, t, j);
        if j > k { assert k + 1 <= j; }
      }
    }
  }

  /** A text in which the first character of `t` never appears does not contain `t`. */
  lemma {:induction false} NotContainsFirstChar(s: string, t: string, k: nat)
    requires |t| > 0 && forall i :: k <= i < |s| ==> s[i] != t[0]
    ensures !ContainsFrom(s, t, k)
    decreases |s| - k
  {
    if k + |t| <= |s| {
      NotContainsFirstChar(s, t, k + 1);
    }
  }

  /** `Contains` is exactly "some slice of `s` equals `t`". */
  lemma ContainsSpec(s: string, t: string)
    ensures Contains(s, t) <==> exists j :: 0 <= j && SliceAt(s, t, j)
  {
    ContainsFromSpec(s, t, 0);
  }

  /** The decimal digit character for `d`. */
  function DigitChar(d: nat): (c: char)
    requires d < 10
    ensures '0' <= c <= '9'
  {
    ('0' as int + d) as char
  }

  /** The value of a decimal digit character. */
  function DigitValue(c: char): (d: nat)
    requires '0' <= c <= '9'
    ensures d < 10 && DigitChar(d) == c
  {
    c as int - '0' as int
  }

  predicate IsDigits(s: string) {
    forall i :: 0 <= i < |s| ==> '0' <= s[i] <= '9'
  }

  /** The number a string of decimal digits denotes. */
  function DigitsValue(s: string): nat
    requires IsDigits(s)
  {
    if s == [] then 0 else DigitsValue(s[..|s| - 1]) * 10 + DigitValue(s[|s| - 1])
  }

  /** Rust's `Display` of an unsigned integer: its decimal digits, no leading zeros. */
  function NatToString(n: nat): (r: string)
    ensures |r| > 0 && IsDigits(r)
    ensures n > 0 ==> r[0] != '0'
  {
    if n < 10 then [DigitChar(n)] else NatToString(n / 10) + [DigitChar(n % 10)]
  }

  /** Rust's `Display` of a signed integer: a minus sign for negative values. */
  function IntToString(n: int): (r: string)
    ensures |r| > 0
    ensures n < 0 <==> r[0] == '-'
  {
    if n < 0 then "-" + NatToString(-n) else NatToString(n)
  }

  /** Reading back the digits `NatToString` writes gives the number. */
  lemma {:induction false} NatToStringRoundTrip(n: nat)
    ensures DigitsValue(NatToString(n)) == n
  {
    var r := NatToString(n);
    if n >= 10 {
      NatToStringRoundTrip(n / 10);
      assert r[..|r| - 1] == NatToString(n / 10);
    }
  }

  /** Distinct numbers are written differently. */
  lemma NatToStringInjective(m: nat, n: nat)
    ensures NatToString(m) == NatToString(n) ==> m == n
  {
    NatToStringRoundTrip(m);
    NatToStringRoundTrip(n);
  }
}
