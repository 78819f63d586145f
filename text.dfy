/**
 * String helpers the forms and views rely on: trimming with Foundation's
 * `CharacterSet.whitespaces` and the decimal rendering of Swift's
 * `"\(n)"` interpolation for an `Int`.
 */
module Text {

  /**
   * `CharacterSet.whitespaces`: the tab and the Unicode space separators
   * (general category Zs). Line breaks are not part of it.
   */
  predicate IsWhitespace(c: char) {
    c == '\t' || c == ' ' || c == '\U{00A0}' || c == '\U{1680}' ||
    ('\U{2000}' <= c <= '\U{200A}') ||
    c == '\U{202F}' || c == '\U{205F}' || c == '\U{3000}'
  }

  predicate AllWhitespace(s: string) {
    forall i :: 0 <= i < |s| ==> IsWhitespace(s[i])
  }

  /**
   * `s.trimmingCharacters(in: .whitespaces)`: whitespace is dropped from
   * either end until both ends are other characters or nothing is left.
   */
  function Trim(s: string): (r: string)
    ensures r == [] <==> AllWhitespace(s)
    ensures r != [] ==> !IsWhitespace(r[0]) && !IsWhitespace(r[|r| - 1])
    decreases |s|
  {
    if s == [] then s
    else if IsWhitespace(s[0]) then Trim(s[1..])
    else if IsWhitespace(s[|s| - 1]) then Trim(s[..|s| - 1])
    else s
  }

  /** The trimmed string is the slice `s[k..j]` of the input, and only whitespace lies outside it. */
  lemma {:induction false} TrimSlice(s: string) returns (k: nat, j: nat)
    ensures k <= j <= |s| && Trim(s) == s[k..j]
    ensures AllWhitespace(s[..k]) && AllWhitespace(s[j..])
    decreases |s|
  {
    if s == [] {
      k, j := 0, 0;
    } else if IsWhitespace(s[0]) {
      var k', j' := TrimSlice(s[1..]);
      DropFront(s, k', j');
      k, j := k' + 1, j' + 1;
    } else if IsWhitespace(s[|s| - 1]) {
      k, j := TrimSlice(s[..|s| - 1]);
      DropBack(s, k, j);
    } else {
      k, j := 0, |s|;
      assert s[k..j] == s;
    }
  }

  /** Dropping leading whitespace shifts the slice of the rest by one. */
  lemma DropFront(s: string, k: nat, j: nat)
    requires s != [] && IsWhitespace(s[0])
    requires k <= j <= |s| - 1 && Trim(s[1..]) == s[1..][k..j]
    requires AllWhitespace(s[1..][..k]) && AllWhitespace(s[1..][j..])
    ensures Trim(s) == s[k + 1..j + 1]
    ensures AllWhitespace(s[..k + 1]) && AllWhitespace(s[j + 1..])
  {
    SliceOfTail(s, k, j);
    WhitespacePrefixGrows(s, k);
    assert s[j + 1..] == s[1..][j..];
  }

  /** A slice of `s[1..]` is the same slice of `s`, one further on. */
  lemma SliceOfTail(s: string, k: nat, j: nat)
    requires s != [] && k <= j <= |s| - 1
    ensures s[1..][k..j] == s[k + 1..j + 1]
  {
  }

  /** A whitespace prefix of `s[1..]` stays one after a leading whitespace character. */
  lemma WhitespacePrefixGrows(s: string, k: nat)
    requires s != [] && IsWhitespace(s[0])
    requires k <= |s| - 1 && AllWhitespace(s[1..][..k])
    ensures AllWhitespace(s[..k + 1])
  {
    var p, q := s[..k + 1], s[1..][..k];
    forall i | 0 <= i < |p|
      ensures IsWhitespace(p[i])
    {
      if i > 0 {
        assert p[i] == q[i - 1];
      }
    }
  }

  /** Dropping trailing whitespace keeps the slice of the rest. */
  lemma DropBack(s: string, k: nat, j: nat)
    requires s != [] && !IsWhitespace(s[0]) && IsWhitespace(s[|s| - 1])
    requires k <= j <= |s| - 1 && Trim(s[..|s| - 1]) == s[..|s| - 1][k..j]
    requires AllWhitespace(s[..|s| - 1][..k]) && AllWhitespace(s[..|s| - 1][j..])
    ensures Trim(s) == s[k..j]
    ensures AllWhitespace(s[..k]) && AllWhitespace(s[j..])
  {
    SliceOfFront(s, k, j);
    WhitespaceSuffixGrows(s, j);
  }

  /** Slices of `s` without its last character are slices of `s`. */
  lemma SliceOfFront(s: string, k: nat, j: nat)
    requires s != [] && k <= j <= |s| - 1
    ensures s[..|s| - 1][k..j] == s[k..j] && s[..|s| - 1][..k] == s[..k]
  {
  }

  /** A whitespace suffix stays one when a trailing whitespace character is added. */
  lemma WhitespaceSuffixGrows(s: string, j: nat)
    requires s != [] && IsWhitespace(s[|s| - 1])
    requires j <= |s| - 1 && AllWhitespace(s[..|s| - 1][j..])
    ensures AllWhitespace(s[j..])
  {
    forall i | 0 <= i < |s| - j
      ensures IsWhitespace(s[j..][i])
    {
      if i < |s| - 1 - j {
        assert s[j..][i] == s[..|s| - 1][j..][i];
      }
    }
  }

  /** Decimal digits of a natural number, most significant first. */
  function NatToDecimal(n: nat): (r: string)
    ensures r != [] && forall i :: 0 <= i < |r| ==> '0' <= r[i] <= '9'
    ensures r[0] == '0' ==> n == 0
  {
    if n < 10 then [DigitChar(n)] else NatToDecimal(n / 10) + [DigitChar(n % 10)]
  }

  function DigitChar(d: nat): (c: char)
    requires d < 10
    ensures '0' <= c <= '9' && c as int - '0' as int == d
  {
    (d + '0' as int) as char
  }

  /** Value of a string of decimal digits. */
  function DecimalValue(s: string): nat
    requires forall i :: 0 <= i < |s| ==> '0' <= s[i] <= '9'
  {
    if s == [] then 0
    else DecimalValue(s[..|s| - 1]) * 10 + (s[|s| - 1] as int - '0' as int)
  }

  lemma {:induction false} DecimalRoundTrip(n: nat)
    ensures DecimalValue(NatToDecimal(n)) == n
  {
    if n >= 10 {
      var r := NatToDecimal(n);
      assert r[..|r| - 1] == NatToDecimal(n / 10);
      DecimalRoundTrip(n / 10);
    }
  }

  /** Swift's `"\(n)"` for an `Int`. */
  function IntToString(n: int): (r: string)
    ensures r != [] && (r[0] == '-' <==> n < 0)
    ensures forall i :: (if n < 0 then 1 else 0) <= i < |r| ==> '0' <= r[i] <= '9'
  {
    if n < 0 then "-" + NatToDecimal(-n) else NatToDecimal(n)
  }

  /** Different integers print differently. */
  lemma IntToStringInjective(a: int, b: int)
    requires IntToString(a) == IntToString(b)
    ensures a == b
  {
    var s := IntToString(a);
    if a < 0 {
      assert s[0] == '-';
      if b < 0 {
        assert NatToDecimal(-a) == s[1..] == NatToDecimal(-b);
        DecimalInjective(-a, -b);
      }
    } else if b >= 0 {
      DecimalInjective(a, b);
    }
  }

  /** Different natural numbers have different decimal digits. */
  lemma DecimalInjective(a: nat, b: nat)
    requires NatToDecimal(a) == NatToDecimal(b)
    ensures a == b
  {
    DecimalRoundTrip(a);
    DecimalRoundTrip(b);
  }

  /** Trimming twice is trimming once. */
  lemma TrimIdempotent(s: string)
    ensures Trim(Trim(s)) == Trim(s)
  {
    var r := Trim(s);
    if r != [] {
      assert !IsWhitespace(r[0]) && !IsWhitespace(r[|r| - 1]);
    }
  }
}
