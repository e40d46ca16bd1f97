/** Decimal numerals of a fixed width: printing, reading, and the agreement of numeric and lexicographic order. */
module Digits {
  import opened Text

  predicate AllDigits(s: string) {
    forall i :: 0 <= i < |s| ==> IsDigit(s[i])
  }

  function Power(exponent: nat): (p: nat)
    ensures p >= 1
  {
    if exponent == 0 then 1 else 10 * Power(exponent - 1)
  }

  /** The number a run of digits stands for. */
  function Value(s: string): (n: nat)
    requires AllDigits(s)
    ensures n < Power(|s|)
  {
    if s == [] then 0 else 10 * Value(s[..|s| - 1]) + DigitValue(s[|s| - 1])
  }

  /** `setw(width)` with fill '0': zeros on the left, and no truncation. */
  function Padded(n: nat, width: nat): (s: string)
    ensures AllDigits(s)
  {
    var digits := Decimal(n);
    seq(if |digits| < width then width - |digits| else 0, _ => '0') + digits
  }

  lemma {:induction false} ValueOfDecimal(n: nat)
    ensures Value(Decimal(n)) == n
  {
    if n >= 10 {
      ValueOfDecimal(n / 10);
    }
    var s := Decimal(n);
    assert s[..|s| - 1] == if n < 10 then [] else Decimal(n / 10);
  }

  lemma {:induction false} DecimalFits(n: nat, width: nat)
    requires n < Power(width) && width > 0
    ensures |Decimal(n)| <= width
  {
    if n >= 10 {
      DecimalFits(n / 10, width - 1);
    }
  }

  /** A number moved `width` digits to the left. Proofs hide its body and reason with the law below. */
  function Shifted(n: nat, width: nat): nat {
    n * Power(width)
  }

  lemma ShiftedStep(n: nat, width: nat)
    ensures Shifted(n, 0) == n && Shifted(0, width) == 0
    ensures width > 0 ==> Shifted(n, width) == 10 * Shifted(n, width - 1)
  {
  }

  lemma ShiftedOrder(a: nat, b: nat, width: nat)
    requires a < b
    ensures Shifted(a, width) + Power(width) <= Shifted(b, width)
  {
    assert b * Power(width) == (b - a) * Power(width) + a * Power(width);
    assert (b - a - 1) * Power(width) >= 0;
  }

  lemma {:induction false} ValueOfConcat(s: string, t: string)
    requires AllDigits(s) && AllDigits(t)
    ensures AllDigits(s + t)
    ensures Value(s + t) == Shifted(Value(s), |t|) + Value(t)
  {
    hide Shifted, Power;
    ShiftedStep(Value(s), |t|);
    if t == [] {
      assert s + t == s;
    } else {
      var front := t[..|t| - 1];
      ValueOfConcat(s, front);
      assert (s + t)[..|s + t| - 1] == s + front;
    }
  }

  lemma {:induction false} ValueOfZeros(s: string)
    requires forall i :: 0 <= i < |s| ==> s[i] == '0'
    ensures AllDigits(s) && Value(s) == 0
  {
    if s != [] {
      ValueOfZeros(s[..|s| - 1]);
    }
  }

  lemma PaddedIsExact(n: nat, width: nat)
    requires n < Power(width) && width > 0
    ensures |Padded(n, width)| == width && Value(Padded(n, width)) == n
  {
    hide Value, Decimal, Shifted;
    var digits := Decimal(n);
    DecimalFits(n, width);
    ValueOfDecimal(n);
    var zeros := seq(width - |digits|, _ => '0');
    ValueOfZeros(zeros);
    ValueOfConcat(zeros, digits);
    ShiftedStep(0, |digits|);
  }

  lemma ValueOfOne(c: char)
    requires IsDigit(c)
    ensures Value([c]) == DigitValue(c)
  {
    assert [c][..0] == [];
  }

  lemma LeadingDigit(s: string)
    requires AllDigits(s) && s != []
    ensures Value(s) == Shifted(DigitValue(s[0]), |s| - 1) + Value(s[1..])
  {
    hide Shifted, Power, Value;
    assert s == [s[0]] + s[1..];
    ValueOfOne(s[0]);
    ValueOfConcat([s[0]], s[1..]);
  }

  /** Numerals of one width compare as strings exactly as their numbers do. */
  lemma {:induction false} WidthAlignsOrders(s: string, t: string)
    requires AllDigits(s) && AllDigits(t) && |s| == |t|
    ensures Before(s, t) <==> Value(s) < Value(t)
    ensures Value(s) == Value(t) ==> s == t
  {
    hide Shifted, Power, Value;
    if s != [] {
      WidthAlignsOrders(s[1..], t[1..]);
      LeadingDigit(s);
      LeadingDigit(t);
      assert s == [s[0]] + s[1..] && t == [t[0]] + t[1..];
      if s[0] < t[0] {
        ShiftedOrder(DigitValue(s[0]), DigitValue(t[0]), |s| - 1);
      } else if t[0] < s[0] {
        ShiftedOrder(DigitValue(t[0]), DigitValue(s[0]), |s| - 1);
      }
    }
  }
}
