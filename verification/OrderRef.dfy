/** The 12-digit order reference: ten digits of sequence, two digits naming the strategy. */
module OrderRef {
  import opened Text
  import opened Digits
  import opened Domain

  const SEQUENCE_DIGITS := 10
  const CODE_DIGITS := 2
  const CODE_SCALE := 100
  const SEQUENCE_MAX := 9_999_999_999
  const LONG_MAX := 0x7fff_ffff_ffff_ffff

  predicate ValidCode(code: int) {
    1 <= code <= 99
  }

  /** `format_order_ref`. */
  function Format(sequence: nat, code: nat): string {
    Padded(sequence, SEQUENCE_DIGITS) + Padded(code, CODE_DIGITS)
  }

  /** `parse_order_ref_numeric`; reading a number too large for a `long long` fails. */
  function ParseNumeric(ref: string): Option<nat> {
    if ref == "" || !AllDigits(ref) || Value(ref) > LONG_MAX then None else Some(Value(ref))
  }

  function NumberOf(ref: string): nat {
    var n := ParseNumeric(ref);
    if n.Some? then n.value else 0
  }

  /** `parse_order_ref_strategy_code`. */
  function ParseCode(ref: string): (code: Option<int>)
    ensures code.Some? ==> ValidCode(code.value)
  {
    if |ref| < CODE_DIGITS then None
    else
      var suffix := ref[|ref| - CODE_DIGITS..];
      if AllDigits(suffix) && ValidCode(Value(suffix)) then Some(Value(suffix)) else None
  }

  /** `seed_order_ref_sequence`. */
  function Seed(maxOrderRef: string): nat {
    NumberOf(maxOrderRef) / CODE_SCALE
  }

  lemma Powers()
    ensures Power(SEQUENCE_DIGITS) == SEQUENCE_MAX + 1 && Power(CODE_DIGITS) == CODE_SCALE
  {
    assert Power(4) == 10_000;
    assert Power(6) == 1_000_000;
    assert Power(8) == 100_000_000;
  }

  /** A formatted reference is twelve digits long and reads back as the sequence and the code it was made of. */
  lemma FormatReadsBack(sequence: nat, code: nat)
    requires sequence <= SEQUENCE_MAX && ValidCode(code)
    ensures var ref := Format(sequence, code);
      && |ref| == 12 && AllDigits(ref)
      && ParseNumeric(ref) == Some(sequence * CODE_SCALE + code)
      && ParseCode(ref) == Some(code)
      && Seed(ref) == sequence
  {
    hide Value, Padded, Power;
    Powers();
    PaddedIsExact(sequence, SEQUENCE_DIGITS);
    PaddedIsExact(code, CODE_DIGITS);
    ValueOfConcat(Padded(sequence, SEQUENCE_DIGITS), Padded(code, CODE_DIGITS));
    var ref := Format(sequence, code);
    assert ref[|ref| - CODE_DIGITS..] == Padded(code, CODE_DIGITS);
  }

  /** A later sequence number makes a reference that is larger as a number and as a string, whatever the codes. */
  lemma LaterIsLarger(sequence: nat, code: nat, later: nat, other: nat)
    requires sequence < later <= SEQUENCE_MAX && ValidCode(code) && ValidCode(other)
    ensures NumberOf(Format(sequence, code)) < NumberOf(Format(later, other))
    ensures Before(Format(sequence, code), Format(later, other))
  {
    hide Value, Padded, Before;
    FormatReadsBack(sequence, code);
    FormatReadsBack(later, other);
    WidthAlignsOrders(Format(sequence, code), Format(later, other));
  }

  /** The first reference after a login exceeds the largest one the broker has seen. */
  lemma SeedIsPassed(maxOrderRef: string, sequence: nat, code: nat)
    requires Seed(maxOrderRef) < sequence <= SEQUENCE_MAX && ValidCode(code)
    ensures NumberOf(maxOrderRef) < NumberOf(Format(sequence, code))
  {
    hide Format, ParseNumeric;
    FormatReadsBack(sequence, code);
  }
}
