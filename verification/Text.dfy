/** The character and string helpers the runtime uses, on sequences of characters. */
module Text {

  predicate IsSpace(c: char) {
    c == ' ' || '\t' <= c <= '\r'
  }

  predicate IsDigit(c: char) {
    '0' <= c <= '9'
  }

  function TrimLeft(s: string): string {
    if s != [] && IsSpace(s[0]) then TrimLeft(s[1..]) else s
  }

  function TrimRight(s: string): string {
    if s != [] && IsSpace(s[|s| - 1]) then TrimRight(s[..|s| - 1]) else s
  }

  /** `trim_copy`. */
  function Trim(s: string): string {
    TrimRight(TrimLeft(s))
  }

  /** A string that trimming leaves alone. */
  predicate Trimmed(s: string) {
    s != [] ==> !IsSpace(s[0]) && !IsSpace(s[|s| - 1])
  }

  lemma TrimmedIsFixed(s: string)
    requires Trimmed(s)
    ensures Trim(s) == s
  {
  }

  /** Trimming on the right stops at a character that is not a space. */
  lemma {:induction false} TrimRightStops(s: string, t: string)
    requires s != "" && !IsSpace(s[|s| - 1])
    ensures TrimRight(s + t) == s + TrimRight(t)
  {
    if t == "" {
      assert s + t == s;
    } else {
      assert (s + t)[..|s + t| - 1] == s + t[..|t| - 1];
      if IsSpace(t[|t| - 1]) {
        TrimRightStops(s, t[..|t| - 1]);
      }
    }
  }

  function LowerChar(c: char): char {
    if 'A' <= c <= 'Z' then ((c as int) + 32) as char else c
  }

  function UpperChar(c: char): char {
    if 'a' <= c <= 'z' then ((c as int) - 32) as char else c
  }

  function Lower(s: string): string {
    seq(|s|, i requires 0 <= i < |s| => LowerChar(s[i]))
  }

  function Upper(s: string): string {
    seq(|s|, i requires 0 <= i < |s| => UpperChar(s[i]))
  }

  /** Two texts are the same in capitals exactly if they are the same in small letters. */
  lemma SameLetters(s: string, t: string)
    ensures Upper(s) == Upper(t) <==> Lower(s) == Lower(t)
  {
    if |s| == |t| {
      forall i | 0 <= i < |s| ensures Upper(s)[i] == Upper(t)[i] <==> Lower(s)[i] == Lower(t)[i] {
        SameLetter(s[i], t[i]);
      }
    }
  }

  lemma SameLetter(c: char, d: char)
    ensures UpperChar(c) == UpperChar(d) <==> LowerChar(c) == LowerChar(d)
  {
  }

  function DigitChar(d: int): (c: char)
    requires 0 <= d < 10
    ensures IsDigit(c) && DigitValue(c) == d
  {
    ('0' as int + d) as char
  }

  function DigitValue(c: char): int {
    c as int - '0' as int
  }

  /** `std::to_string` of a non-negative number. */
  function Decimal(n: nat): (s: string)
    ensures s != [] && forall i :: 0 <= i < |s| ==> IsDigit(s[i])
  {
    (if n < 10 then [] else Decimal(n / 10)) + [DigitChar(n % 10)]
  }

  lemma {:induction false} DecimalInjective(m: nat, n: nat)
    requires Decimal(m) == Decimal(n)
    ensures m == n
  {
    var s, t := Decimal(m), Decimal(n);
    assert s[|s| - 1] == DigitChar(m % 10) && t[|t| - 1] == DigitChar(n % 10);
    assert m % 10 == n % 10;
    assert s[..|s| - 1] == if m < 10 then [] else Decimal(m / 10);
    assert t[..|t| - 1] == if n < 10 then [] else Decimal(n / 10);
    if m >= 10 && n >= 10 {
      DecimalInjective(m / 10, n / 10);
    }
  }

  /** A text splits in one way at the last separator. */
  lemma SplitsAlike(a: string, b: string, c: string, d: string, separator: char)
    requires separator !in b && separator !in d
    requires a + [separator] + b == c + [separator] + d
    ensures a == c && b == d
  {
    var s, t := a + [separator] + b, c + [separator] + d;
    assert forall k :: |a| < k < |s| ==> s[k] != separator;
    assert forall k :: |c| < k < |t| ==> t[k] != separator;
    assert s[|a|] == separator && t[|c|] == separator;
    assert |a| == |c|;
    assert s[..|a|] == a && t[..|a|] == c && s[|a| + 1..] == b && t[|a| + 1..] == d;
  }

  /** The order of `std::string`. */
  predicate Before(a: string, b: string) {
    b != [] && (a == [] || a[0] < b[0] || (a[0] == b[0] && Before(a[1..], b[1..])))
  }

  lemma {:induction false} BeforeIsIrreflexive(a: string)
    ensures !Before(a, a)
  {
    if a != [] {
      BeforeIsIrreflexive(a[1..]);
    }
  }

  lemma {:induction false} BeforeIsTotal(a: string, b: string)
    ensures Before(a, b) || a == b || Before(b, a)
    ensures !(Before(a, b) && Before(b, a)) && !Before(a, a)
  {
    BeforeIsIrreflexive(a);
    if a != [] && b != [] && a[0] == b[0] {
      BeforeIsTotal(a[1..], b[1..]);
      if a[1..] == b[1..] {
        assert a == [a[0]] + a[1..] == b;
      }
    }
  }

  lemma {:induction false} BeforeIsTransitive(a: string, b: string, c: string)
    requires Before(a, b) && Before(b, c)
    ensures Before(a, c)
  {
    if a != [] && a[0] == b[0] && b[0] == c[0] {
      BeforeIsTransitive(a[1..], b[1..], c[1..]);
    }
  }
}
