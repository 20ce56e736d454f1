/** Java's signed 64-bit `long`: its range, the decimal text `Long.toString` writes and the texts
    `Long.parseLong` accepts. */
module Long {
  import opened Results

  const MinLong: int := -0x8000_0000_0000_0000
  const MaxLong: int := 0x7FFF_FFFF_FFFF_FFFF

  predicate InLong(n: int) {
    MinLong <= n <= MaxLong
  }

  /** The values of a Java `long`. */
  type I64 = n: int | MinLong <= n <= MaxLong

  predicate IsDigit(c: char) {
    '0' <= c <= '9'
  }

  predicate IsSign(c: char) {
    c == '-' || c == '+'
  }

  function DigitValue(c: char): (d: nat)
    requires IsDigit(c)
    ensures d < 10
  {
    c as int - '0' as int
  }

  function DigitChar(d: nat): (c: char)
    requires d < 10
    ensures IsDigit(c) && DigitValue(c) == d
  {
    ('0' as int + d) as char
  }

  predicate AllDigits(s: string) {
    forall i :: 0 <= i < |s| ==> IsDigit(s[i])
  }

  /** The number a string of decimal digits denotes, most significant digit first. */
  function DigitsValue(s: string): nat
    requires AllDigits(s)
  {
    if s == [] then 0 else DigitsValue(s[..|s| - 1]) * 10 + DigitValue(s[|s| - 1])
  }

  /** Decimal text of a natural number without sign or leading zeros. */
  function ShowNat(n: nat): (s: string)
    ensures |s| > 0 && AllDigits(s)
  {
    if n < 10 then [DigitChar(n)] else ShowNat(n / 10) + [DigitChar(n % 10)]
  }

  /** `Long.toString`: a minus sign before the digits of a negative number. */
  function ShowInt(n: int): string {
    if n < 0 then "-" + ShowNat(-n) else ShowNat(n)
  }

  /** The digits after an optional leading sign. */
  function Unsigned(s: string): string {
    if s != [] && IsSign(s[0]) then s[1..] else s
  }

  /** `Long.parseLong`: an optional '+' or '-' followed by one or more decimal digits whose value
      fits in a `long`; `None` where Java throws NumberFormatException. */
  function ParseLong(s: string): (r: Option<I64>)
    ensures r.Some? ==> s != [] && Unsigned(s) != [] && AllDigits(Unsigned(s))
  {
    var digits := Unsigned(s);
    if s == [] || digits == [] || !AllDigits(digits) then None
    else
      var v: int := if s[0] == '-' then -(DigitsValue(digits) as int) else DigitsValue(digits);
      if InLong(v) then Some(v) else None
  }

  /** The digits ShowNat writes denote the number again. */
  lemma {:induction false} ShowNatValue(n: nat)
    ensures DigitsValue(ShowNat(n)) == n
  {
    if n >= 10 {
      var s := ShowNat(n);
      assert s[..|s| - 1] == ShowNat(n / 10);
      ShowNatValue(n / 10);
    }
  }

  /** parseLong reads back what toString writes, exactly for the numbers that fit in a `long`. */
  lemma ParseShowInt(n: int)
    ensures ParseLong(ShowInt(n)) == if InLong(n) then Some(n) else None
  {
    var s := ShowInt(n);
    if n < 0 {
      ShowNatValue(-n);
      assert s[1..] == ShowNat(-n);
      assert Unsigned(s) == ShowNat(-n);
    } else {
      ShowNatValue(n);
      assert IsDigit(s[0]);
      assert Unsigned(s) == s;
    }
  }

  /** A character that is neither a digit nor a leading sign makes parseLong throw. */
  lemma ParseLongRejects(s: string, i: nat)
    requires i < |s| && !IsDigit(s[i])
    requires i > 0 || !IsSign(s[0])
    ensures ParseLong(s).None?
  {
    var digits := Unsigned(s);
    if IsSign(s[0]) {
      assert digits[i - 1] == s[i];
    } else {
      assert digits[i] == s[i];
    }
  }

  /** The empty text and a bare sign are rejected. */
  lemma ParseLongRejectsEmpty(s: string)
    requires s == [] || (|s| == 1 && IsSign(s[0]))
    ensures ParseLong(s).None?
  {
  }
}
