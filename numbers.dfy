/** Decimal text of integers: Kotlin's `toString` of an integer (what an
    integer primitive built from a number holds as its content) and the
    standard library parsers `String.toUIntOrNull` and `String.toIntOrNull`
    that the codecs apply to a literal's content. */
module NumberText {

  import opened Wrappers

  const UIntMax: int := 0xFFFF_FFFF
  const IntMin: int := -0x8000_0000
  const IntMax: int := 0x7FFF_FFFF

  predicate IsDigit(c: char) {
    '0' <= c <= '9'
  }

  predicate AllDigits(s: string) {
    forall i :: 0 <= i < |s| ==> IsDigit(s[i])
  }

  function DigitValue(c: char): nat
    requires IsDigit(c)
  {
    c as int - '0' as int
  }

  function DigitChar(d: nat): (c: char)
    requires d < 10
    ensures IsDigit(c) && DigitValue(c) == d
  {
    ('0' as int + d) as char
  }

  /** The number a string of digits denotes, most significant digit first. */
  function DigitsValue(s: string): nat
    requires AllDigits(s)
  {
    if s == [] then 0 else 10 * DigitsValue(s[..|s| - 1]) + DigitValue(s[|s| - 1])
  }

  /** A non-empty run of ASCII digits, read as a natural number. */
  function ParseDigits(s: string): Option<nat>
  {
    if s != [] && AllDigits(s) then Some(DigitsValue(s)) else None
  }

  /** `toString` of a natural number: shortest decimal text. */
  function NatText(n: nat): string
  {
    if n < 10 then [DigitChar(n)] else NatText(n / 10) + [DigitChar(n % 10)]
  }

  /** `toString` of an integer: a minus sign before a negative number. */
  function IntText(n: int): string
  {
    if n < 0 then "-" + NatText(-n) else NatText(n)
  }

  /** `String.toUIntOrNull()`: an optional '+' then digits, and nothing above
      2^32-1; a '-' sign is never accepted. */
  function ToUIntOrNull(s: string): (r: Option<nat>)
    ensures r.Some? ==> r.value <= UIntMax
  {
    var digits := if |s| > 1 && s[0] == '+' then s[1..] else s;
    match ParseDigits(digits)
    case Some(n) => if n <= UIntMax then Some(n) else None
    case None => None
  }

  /** `String.toIntOrNull()`: an optional '+' or '-' then digits, and nothing
      outside -2^31..2^31-1. */
  function ToIntOrNull(s: string): (r: Option<int>)
    ensures r.Some? ==> IntMin <= r.value <= IntMax
  {
    if |s| > 1 && s[0] == '-' then
      match ParseDigits(s[1..])
      case Some(n) => var m := -(n as int); if m >= IntMin then Some(m) else None
      case None => None
    else
      var digits := if |s| > 1 && s[0] == '+' then s[1..] else s;
      match ParseDigits(digits)
      case Some(n) => if n <= IntMax then Some(n) else None
      case None => None
  }

  /** The text of a natural number is a non-empty digit string that reads
      back as that number, with no leading zero. */
  lemma {:induction false} NatTextParses(n: nat)
    ensures NatText(n) != [] && AllDigits(NatText(n))
    ensures ParseDigits(NatText(n)) == Some(n)
    ensures |NatText(n)| > 1 ==> NatText(n)[0] != '0'
  {
    var t := NatText(n);
    if n >= 10 {
      NatTextParses(n / 10);
      var h := NatText(n / 10);
      assert t == h + [DigitChar(n % 10)];
      assert t[..|t| - 1] == h;
      assert AllDigits(t);
      assert DigitValue(t[|t| - 1]) == n % 10;
      assert DigitsValue(t) == 10 * DigitsValue(h) + n % 10;
      assert DigitsValue(t) == n;
    } else {
      assert t[..0] == [];
      assert DigitsValue(t) == DigitValue(t[0]) == n;
    }
  }

  /** `toUIntOrNull` reads `toString` back exactly on 0..2^32-1 and rejects
      every other integer. */
  lemma ToUIntOrNullOfText(n: int)
    ensures ToUIntOrNull(IntText(n)) == if 0 <= n <= UIntMax then Some(n) else None
  {
    if n < 0 {
      NatTextParses(-n);
      var t := IntText(n);
      assert t[0] == '-' && !IsDigit(t[0]);
    } else {
      NatTextParses(n);
      assert NatText(n)[0] != '+' by {
        assert IsDigit(NatText(n)[0]);
      }
    }
  }

  /** `toIntOrNull` reads `toString` back exactly on -2^31..2^31-1 and rejects
      every other integer. */
  lemma ToIntOrNullOfText(n: int)
    ensures ToIntOrNull(IntText(n)) == if IntMin <= n <= IntMax then Some(n) else None
  {
    if n < 0 {
      NatTextParses(-n);
      var t := IntText(n);
      assert t[1..] == NatText(-n);
    } else {
      NatTextParses(n);
      assert IsDigit(NatText(n)[0]);
    }
  }

  /** A negative zero literal is refused by `toUIntOrNull` but read as 0 by
      `toIntOrNull`. */
  lemma NegativeZero()
    ensures ToUIntOrNull("-0") == None
    ensures ToIntOrNull("-0") == Some(0)
  {
    assert "-0"[1..] == "0";
    assert !IsDigit("-0"[0]);
  }
}
