/** GTIN normalisation: section 7.9 of the GS1 General Specifications gives the
    check digit that the weights 3 and 1, alternating from the right, define. */
module Gtin {
  import opened Tables

  predicate Digit(ch: char) {
    '0' <= ch <= '9'
  }

  function Value(ch: char): int
    requires Digit(ch)
  {
    ch as int - '0' as int
  }

  predicate AllDigits(s: string) {
    forall i | 0 <= i < |s| :: Digit(s[i])
  }

  /** The white space of Python's `\s`, and the hyphen. */
  predicate Separator(ch: char) {
    ch == '-' || ch == ' ' || '\t' <= ch <= '\r' || '\U{001C}' <= ch <= '\U{001F}' || ch == '\U{0085}' ||
    ch == '\U{00A0}' || ch == '\U{1680}' || '\U{2000}' <= ch <= '\U{200A}' || ch == '\U{2028}' || ch == '\U{2029}' ||
    ch == '\U{202F}' || ch == '\U{205F}' || ch == '\U{3000}'
  }

  function Stripped(s: string): string {
    if s == "" then ""
    else Stripped(s[..|s| - 1]) + if Separator(s[|s| - 1]) then "" else [s[|s| - 1]]
  }

  /** The weighted sum, the last character having weight 3 if `heavy`. */
  function Weighted(s: string, heavy: bool): int
    requires AllDigits(s)
  {
    if s == "" then 0
    else Weighted(s[..|s| - 1], !heavy) + Value(s[|s| - 1]) * (if heavy then 3 else 1)
  }

  function CheckDigit(body: string): int
    requires AllDigits(body)
  {
    (10 - Weighted(body, true) % 10) % 10
  }

  predicate Valid(digits: string) {
    digits != "" && AllDigits(digits) && CheckDigit(digits[..|digits| - 1]) == Value(digits[|digits| - 1])
  }

  function Zeros(n: nat): string {
    seq(n, _ => '0')
  }

  function Normalize(value: string): Option<string> {
    var digits := Stripped(value);
    if |digits| !in {8, 12, 13, 14} || !Valid(digits) then None
    else Some(Zeros(14 - |digits|) + digits)
  }

  /** A code is valid exactly when its digits, the check digit included, weigh a
      multiple of ten. */
  lemma ValidIff(digits: string)
    requires digits != "" && AllDigits(digits)
    ensures Valid(digits) <==> Weighted(digits, false) % 10 == 0
  {
  }

  lemma {:induction false} PaddingWeighsNothing(n: nat, s: string, heavy: bool)
    requires AllDigits(s)
    ensures AllDigits(Zeros(n) + s) && Weighted(Zeros(n) + s, heavy) == Weighted(s, heavy)
  {
    if s != "" {
      assert (Zeros(n) + s)[..n + |s| - 1] == Zeros(n) + s[..|s| - 1];
      PaddingWeighsNothing(n, s[..|s| - 1], !heavy);
    } else if n > 0 {
      assert Zeros(n) + s == Zeros(n) && Zeros(n)[..n - 1] == Zeros(n - 1) + s;
      PaddingWeighsNothing(n - 1, s, !heavy);
    } else {
      assert Zeros(0) + s == s;
    }
  }

  /** Leading zeros change neither the check digit nor validity, at any length. */
  lemma PaddingKeepsValid(n: nat, digits: string)
    requires digits != "" && AllDigits(digits)
    ensures Valid(Zeros(n) + digits) <==> Valid(digits)
  {
    PaddingWeighsNothing(n, digits, false);
    ValidIff(digits);
    ValidIff(Zeros(n) + digits);
  }

  lemma {:induction false} DigitsAreStripped(s: string)
    requires AllDigits(s)
    ensures Stripped(s) == s
  {
    if s != "" {
      var last := |s| - 1;
      DigitsAreStripped(s[..last]);
      assert Digit(s[last]);
      assert s == s[..last] + [s[last]];
    }
  }

  /** What normalisation accepts is its own normal form. */
  lemma NormalIsFixed(value: string)
    requires Normalize(value).Some?
    ensures |Normalize(value).value| == 14 && Valid(Normalize(value).value)
    ensures Normalize(Normalize(value).value) == Normalize(value)
  {
    var digits := Stripped(value);
    var normal := Normalize(value).value;
    PaddingWeighsNothing(14 - |digits|, digits, false);
    PaddingKeepsValid(14 - |digits|, digits);
    DigitsAreStripped(normal);
    assert Zeros(0) + normal == normal;
  }

  lemma {:induction false} OneDigitWeighs(s: string, i: nat, ch: char, heavy: bool) returns (weight: int)
    requires AllDigits(s) && i < |s| && Digit(ch)
    ensures AllDigits(s[i := ch]) && (weight == 1 || weight == 3)
    ensures Weighted(s[i := ch], heavy) == Weighted(s, heavy) + weight * (Value(ch) - Value(s[i]))
  {
    var last := |s| - 1;
    if i == last {
      assert s[i := ch][..last] == s[..last];
      weight := if heavy then 3 else 1;
    } else {
      assert s[i := ch][..last] == s[..last][i := ch];
      weight := OneDigitWeighs(s[..last], i, ch, !heavy);
    }
  }

  lemma ShiftedMultiple(a: int, b: int, weight: int, d: int)
    requires a % 10 == 0 && (weight == 1 || weight == 3) && -9 <= d <= 9 && d != 0 && b == a + weight * d
    ensures b % 10 != 0
  {
    if weight == 1 {
      assert b == a + d;
    } else {
      assert b == a + 3 * d;
    }
  }

  /** Any change of a single digit is caught, wherever it is. */
  lemma SingleErrorIsCaught(digits: string, i: nat, ch: char)
    requires Valid(digits) && i < |digits| && Digit(ch) && ch != digits[i]
    ensures !Valid(digits[i := ch])
  {
    var weight := OneDigitWeighs(digits, i, ch, false);
    ValidIff(digits);
    ValidIff(digits[i := ch]);
    ShiftedMultiple(Weighted(digits, false), Weighted(digits[i := ch], false), weight, Value(ch) - Value(digits[i]));
  }

  // ---- the rule by position ------------------------------------------------------

  /** The weighted sum as the standard numbers positions: from the right, the check
      digit in position 1 counts once, position 2 three times, and so on. */
  function ByPosition(s: string, n: nat): int
    requires AllDigits(s) && n <= |s|
  {
    if n == 0 then 0
    else ByPosition(s, n - 1) + Value(s[|s| - n]) * (if n % 2 == 0 then 3 else 1)
  }

  lemma {:induction false} PositionsOfMore(s: string, n: nat)
    requires AllDigits(s) && n < |s|
    ensures ByPosition(s, n + 1) == Value(s[|s| - 1]) + Shifted(s[..|s| - 1], n)
  {
    if n > 0 {
      PositionsOfMore(s, n - 1);
    }
  }

  /** The same sum with the two weights exchanged. */
  function Shifted(s: string, n: nat): int
    requires AllDigits(s) && n <= |s|
  {
    if n == 0 then 0
    else Shifted(s, n - 1) + Value(s[|s| - n]) * (if n % 2 == 0 then 1 else 3)
  }

  lemma {:induction false} ShiftedOfMore(s: string, n: nat)
    requires AllDigits(s) && n < |s|
    ensures Shifted(s, n + 1) == 3 * Value(s[|s| - 1]) + ByPosition(s[..|s| - 1], n)
  {
    if n > 0 {
      ShiftedOfMore(s, n - 1);
    }
  }

  lemma {:induction false} WeightedByPosition(s: string)
    requires AllDigits(s)
    ensures Weighted(s, false) == ByPosition(s, |s|) && Weighted(s, true) == Shifted(s, |s|)
  {
    if s != "" {
      WeightedByPosition(s[..|s| - 1]);
      PositionsOfMore(s, |s| - 1);
      ShiftedOfMore(s, |s| - 1);
    }
  }

  /** A code is valid exactly when the standard's sum over its positions is a
      multiple of ten. */
  lemma ValidByPositionIff(digits: string)
    ensures Valid(digits) <==> digits != "" && AllDigits(digits) && ByPosition(digits, |digits|) % 10 == 0
  {
    if digits != "" && AllDigits(digits) {
      ValidIff(digits);
      WeightedByPosition(digits);
    }
  }

  lemma LastTwoWeigh(s: string, heavy: bool)
    requires AllDigits(s) && |s| >= 2
    ensures var n := |s|;
            Weighted(s, heavy) == Weighted(s[..n - 2], heavy) + Value(s[n - 2]) * (if heavy then 1 else 3) +
                                  Value(s[n - 1]) * (if heavy then 3 else 1)
  {
    assert s[..|s| - 1][..|s| - 2] == s[..|s| - 2];
  }

  lemma SwapLast(s: string, heavy: bool)
    requires AllDigits(s) && |s| >= 2
    ensures var n := |s|;
            var swapped := s[n - 2 := s[n - 1]][n - 1 := s[n - 2]];
            AllDigits(swapped) &&
            Weighted(swapped, heavy) == Weighted(s, heavy) + (if heavy then 2 else -2) * (Value(s[n - 2]) - Value(s[n - 1]))
  {
    var n := |s|;
    var swapped := s[n - 2 := s[n - 1]][n - 1 := s[n - 2]];
    assert swapped[..n - 2] == s[..n - 2];
    LastTwoWeigh(s, heavy);
    LastTwoWeigh(swapped, heavy);
  }

  lemma SwapEarlier(s: string, i: nat, heavy: bool)
    requires AllDigits(s) && i + 2 < |s|
    ensures var last := |s| - 1;
            var swapped := s[i := s[i + 1]][i + 1 := s[i]];
            swapped[..last] == s[..last][i := s[..last][i + 1]][i + 1 := s[..last][i]] && AllDigits(swapped) &&
            Weighted(swapped, heavy) == Weighted(swapped[..last], !heavy) + Value(s[last]) * (if heavy then 3 else 1)
  {
  }

  lemma {:induction false} SwapWeighs(s: string, i: nat, heavy: bool) returns (twice: int)
    requires AllDigits(s) && i + 1 < |s|
    ensures AllDigits(s[i := s[i + 1]][i + 1 := s[i]]) && (twice == 2 || twice == -2)
    ensures Weighted(s[i := s[i + 1]][i + 1 := s[i]], heavy) == Weighted(s, heavy) + twice * (Value(s[i]) - Value(s[i + 1]))
  {
    if i + 2 < |s| {
      SwapEarlier(s, i, heavy);
      twice := SwapWeighs(s[..|s| - 1], i, !heavy);
    } else {
      SwapLast(s, heavy);
      twice := if heavy then 2 else -2;
    }
  }

  lemma EvenMultiple(a: int, b: int, twice: int, d: int)
    requires a % 10 == 0 && (twice == 2 || twice == -2) && b == a + twice * d
    ensures b % 10 == 0 <==> d % 5 == 0
  {
    if twice == 2 {
      assert b == a + 2 * d;
    } else {
      assert b == a - 2 * d;
    }
  }

  /** Exchanging two neighbouring digits is caught exactly when they do not differ
      by five, or not at all. */
  lemma TranspositionIsCaughtIff(digits: string, i: nat)
    requires Valid(digits) && i + 1 < |digits|
    ensures Valid(digits[i := digits[i + 1]][i + 1 := digits[i]]) <==> (Value(digits[i]) - Value(digits[i + 1])) % 5 == 0
  {
    var swapped := digits[i := digits[i + 1]][i + 1 := digits[i]];
    var twice := SwapWeighs(digits, i, false);
    ValidIff(digits);
    ValidIff(swapped);
    EvenMultiple(Weighted(digits, false), Weighted(swapped, false), twice, Value(digits[i]) - Value(digits[i + 1]));
  }
}
