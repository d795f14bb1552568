/**
 The base-36 suffix of native names, with the millisecond clock as a parameter.
 */
module TimestampSuffix {

  const BASE36_CHARS := "0123456789ABCDEFGHIJKLMNOPQRSTUVWXYZ"

  const U64_LIMIT: nat := 0x1_0000_0000_0000_0000

  /** The digits of `n`, most significant first; nothing for 0. */
  function Digits(n: nat): string {
    if n == 0 then "" else Digits(n / 36) + [BASE36_CHARS[n % 36]]
  }

  function Suffix(timestamp: nat): string {
    if timestamp == 0 then "0" else Digits(timestamp)
  }

  function Reversed(s: string): string {
    if s == "" then "" else Reversed(s[1..]) + [s[0]]
  }

  lemma ReversedPush(s: string, c: char)
    ensures Reversed(s + [c]) == [c] + Reversed(s)
  {
    if s != "" {
      assert (s + [c])[1..] == s[1..] + [c];
    }
  }

  /** The digit loop: push the low digits, then reverse. */
  method GetTimestampSuffix(timestamp: nat) returns (suffix: string)
    requires timestamp < U64_LIMIT
    ensures suffix == Suffix(timestamp)
  {
    if timestamp == 0 {
      return "0";
    }
    var result: string := "";
    var num := timestamp;
    while num > 0
      invariant Digits(timestamp) == Digits(num) + Reversed(result)
    {
      var c := BASE36_CHARS[num % 36];
      ReversedPush(result, c);
      assert Digits(num) + Reversed(result) == Digits(num / 36) + ([c] + Reversed(result));
      result := result + [c];
      num := num / 36;
    }
    suffix := Reversed(result);
  }

  /** The value of a digit character; anything else counts as 36. */
  function DigitValue(c: char): nat {
    if '0' <= c <= '9' then (c - '0') as nat
    else if 'A' <= c <= 'Z' then (c - 'A') as nat + 10
    else 36
  }

  /** Positional notation read left to right. */
  function Decode(s: string): nat {
    if s == "" then 0 else 36 * Decode(s[..|s| - 1]) + DigitValue(s[|s| - 1])
  }

  lemma DigitCharacters(d: nat)
    requires d < 36
    ensures DigitValue(BASE36_CHARS[d]) == d
    ensures BASE36_CHARS[d] == '0' <==> d == 0
  {
  }

  lemma {:induction false} DecodeDigits(n: nat)
    ensures Decode(Digits(n)) == n
    ensures n > 0 ==> Digits(n) != "" && Digits(n)[0] != '0'
  {
    if n > 0 {
      DecodeDigits(n / 36);
      DigitCharacters(n % 36);
      var s := Digits(n);
      assert s[..|s| - 1] == Digits(n / 36);
    }
  }

  /** Decoding returns the timestamp, hence distinct timestamps have distinct suffixes. */
  lemma DecodeSuffix(m: nat, n: nat)
    ensures Decode(Suffix(n)) == n
    ensures Suffix(m) == Suffix(n) ==> m == n
  {
    DecodeDigits(m);
    DecodeDigits(n);
    assert Decode("0") == 0 by {
      assert "0"[..0] == "";
    }
  }

  /** No leading zero, except in the suffix of 0 itself. */
  lemma NoLeadingZero(n: nat)
    ensures Suffix(n) != ""
    ensures Suffix(n)[0] == '0' <==> n == 0
  {
    DecodeDigits(n);
  }

  function Pow36(k: nat): (r: nat)
    ensures r > 0
  {
    if k == 0 then 1 else 36 * Pow36(k - 1)
  }

  /** The digit count is the logarithm, exactly. */
  lemma {:induction false} DigitCount(n: nat, k: nat)
    ensures |Digits(n)| <= k <==> n < Pow36(k)
  {
    if n > 0 && k > 0 {
      DigitCount(n / 36, k - 1);
      assert n < 36 * Pow36(k - 1) <==> n / 36 < Pow36(k - 1);
    }
  }

  /** A u64 needs at most 13 digits, and some need all of them. */
  lemma AtMostThirteenDigits(n: nat)
    requires n < U64_LIMIT
    ensures 1 <= |Suffix(n)| <= 13
    ensures |Suffix(U64_LIMIT - 1)| == 13
  {
    assert Pow36(4) == 36 * 36 * 36 * 36;
    assert Pow36(8) == Pow36(4) * 36 * 36 * 36 * 36;
    assert Pow36(12) == Pow36(8) * 36 * 36 * 36 * 36;
    assert Pow36(13) == Pow36(12) * 36;
    DigitCount(n, 13);
    DigitCount(U64_LIMIT - 1, 13);
    DigitCount(U64_LIMIT - 1, 12);
    NoLeadingZero(n);
  }

  /** Dictionary order of two strings of the same length. */
  predicate Before(a: string, b: string)
    requires |a| == |b|
  {
    a != "" && (a[0] < b[0] || (a[0] == b[0] && Before(a[1..], b[1..])))
  }

  lemma {:induction false} BeforePush(a: string, b: string, x: char, y: char)
    requires |a| == |b|
    ensures Before(a + [x], b + [y]) <==> Before(a, b) || (a == b && x < y)
  {
    if a != "" {
      BeforePush(a[1..], b[1..], x, y);
      assert (a + [x])[1..] == a[1..] + [x] && (b + [y])[1..] == b[1..] + [y];
      assert a == [a[0]] + a[1..] && b == [b[0]] + b[1..];
    }
  }

  lemma DigitOrder(d: nat, e: nat)
    requires d < 36 && e < 36
    ensures BASE36_CHARS[d] < BASE36_CHARS[e] <==> d < e
  {
    DigitCharacters(d);
    DigitCharacters(e);
  }

  lemma QuotientOrder(m: nat, n: nat)
    ensures m < n <==> m / 36 < n / 36 || (m / 36 == n / 36 && m % 36 < n % 36)
  {
  }

  lemma EqualDigits(m: nat, n: nat)
    ensures Digits(m) == Digits(n) <==> m == n
  {
    DecodeDigits(m);
    DecodeDigits(n);
  }

  lemma {:induction false} DigitsOrder(m: nat, n: nat)
    requires |Digits(m)| == |Digits(n)|
    ensures Before(Digits(m), Digits(n)) <==> m < n
  {
    if m == 0 || n == 0 {
      DigitCount(m, 0);
      DigitCount(n, 0);
    } else {
      var x, y := BASE36_CHARS[m % 36], BASE36_CHARS[n % 36];
      BeforePush(Digits(m / 36), Digits(n / 36), x, y);
      DigitsOrder(m / 36, n / 36);
      EqualDigits(m / 36, n / 36);
      DigitOrder(m % 36, n % 36);
      QuotientOrder(m, n);
    }
  }

  /** Suffixes of equal length sort as their timestamps do. */
  lemma SuffixOrder(m: nat, n: nat)
    requires |Suffix(m)| == |Suffix(n)|
    ensures Before(Suffix(m), Suffix(n)) <==> m < n
  {
    assert Digits(1) == Digits(0) + ["0123456789ABCDEFGHIJKLMNOPQRSTUVWXYZ"[1]];
    DecodeSuffix(m, n);
    if m == 0 || n == 0 {
      NoLeadingZero(m);
      NoLeadingZero(n);
      ZeroSorts(Suffix(m), Suffix(n));
    } else {
      DigitsOrder(m, n);
    }
  }

  lemma ZeroSorts(a: string, b: string)
    requires |a| == |b| == 1
    ensures Before(a, b) <==> a[0] < b[0]
  {
  }
}
