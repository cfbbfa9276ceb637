/** What Atoi reads: exactly the decimal numerals of 64-bit integers. */
module Numerals {
  import opened Numbers

  /** The number that a string of decimal digits stands for. */
  function Decimal(digits: string): nat
    requires AllDigits(digits)
  {
    if digits == "" then 0
    else 10 * Decimal(digits[..|digits| - 1]) + (digits[|digits| - 1] - '0') as nat
  }

  predicate AllDigits(s: string) {
    forall i :: 0 <= i < |s| ==> IsDigit(s[i])
  }

  /** The word without its sign. */
  function Magnitude(word: string): string {
    if word != "" && word[0] in {'-', '+'} then word[1..] else word
  }

  /** The word is an optional sign and at least one decimal digit, and stands for a 64-bit integer. */
  predicate IsNumeral(word: string) {
    Magnitude(word) != "" && AllDigits(Magnitude(word)) && Int64(Amount(word))
  }

  function Amount(word: string): int
    requires AllDigits(Magnitude(word))
  {
    if word != "" && word[0] == '-' then 0 - Decimal(Magnitude(word)) else Decimal(Magnitude(word))
  }

  lemma {:induction false} DecimalGrows(s: string, k: nat)
    requires AllDigits(s) && k <= |s|
    ensures Decimal(s[..k]) <= Decimal(s)
  {
    if k == |s| {
      assert s[..k] == s;
    } else {
      assert s[..|s| - 1][..k] == s[..k];
      DecimalGrows(s[..|s| - 1], k);
    }
  }

  /** ParseUint reads a part of the digits and goes on with the rest. */
  lemma {:induction false} ParsesOn(s: string, k: nat)
    requires k <= |s| && AllDigits(s[..k]) && Decimal(s[..k]) <= 0xFFFF_FFFF_FFFF_FFFF
    ensures ParseUint(s, 0) == ParseUint(s[k..], Decimal(s[..k]))
  {
    if k == 0 {
      assert s[0..] == s;
    } else {
      assert s[..k][..k - 1] == s[..k - 1];
      assert s[k - 1..][0] == s[..k][k - 1] && s[k - 1..][1..] == s[k..];
      ParsesOn(s, k - 1);
    }
  }

  /** It succeeds exactly on digits whose number has at most 64 bits. */
  lemma {:induction false} ParseUintExactly(s: string)
    ensures ParseUint(s, 0).Value? <==> AllDigits(s) && Decimal(s) <= 0xFFFF_FFFF_FFFF_FFFF
    ensures ParseUint(s, 0).Value? ==> ParseUint(s, 0).n == Decimal(s)
  {
    var k := 0;
    while k < |s| && IsDigit(s[k]) && Decimal(s[..k]) * 10 + (s[k] - '0') as nat <= 0xFFFF_FFFF_FFFF_FFFF
      invariant 0 <= k <= |s| && AllDigits(s[..k]) && Decimal(s[..k]) <= 0xFFFF_FFFF_FFFF_FFFF
    {
      assert s[..k + 1][..k] == s[..k];
      k := k + 1;
    }
    ParsesOn(s, k);
    if k == |s| {
      assert s[..k] == s;
    } else if IsDigit(s[k]) {
      assert s[..k + 1][..k] == s[..k];
      if AllDigits(s) { DecimalGrows(s, k + 1); }
    }
  }

  /** Atoi succeeds exactly on numerals, and returns the number that they stand for. */
  lemma AtoiExactly(word: string)
    ensures Atoi(word).ok <==> IsNumeral(word)
    ensures Atoi(word).ok ==> Atoi(word).value == Amount(word)
  {
    hide ParseUint, Decimal;
    ParseUintExactly(Magnitude(word));
  }
}
