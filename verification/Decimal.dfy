/** Decimal text: the hand-written printer of internal/middleware/rateLimitMiddleware.go, and
    the standard parsers its output and the password hash parameters are read with. */
module Decimal {
  import opened Wrappers

  const MIN64 := -0x8000_0000_0000_0000
  const MAX64 := 0x7FFF_FFFF_FFFF_FFFF
  type int64 = x: int | MIN64 <= x <= MAX64

  predicate IsDigit(c: char) { '0' <= c <= '9' }

  function Digit(d: int): (c: char)
    requires 0 <= d < 10
    ensures IsDigit(c) && (c == '0' <==> d == 0)
  {
    '0' + d as char
  }

  function Digits(n: nat): (s: string)
    ensures s != [] && forall c <- s :: IsDigit(c)
    ensures n > 0 ==> s[0] != '0'
  {
    if n < 10 then [Digit(n)] else Digits(n / 10) + [Digit(n % 10)]
  }

  /** Base-10 digits only, at least one. */
  function ParseNat(s: string): Option<nat> {
    if s == [] || !IsDigit(s[|s| - 1]) then None
    else
      var d := (s[|s| - 1] - '0') as int;
      if |s| == 1 then Some(d)
      else
        match ParseNat(s[..|s| - 1])
        case None => None
        case Some(n) => Some(10 * n + d)
  }

  lemma {:induction false} ParseDigits(n: nat)
    ensures ParseNat(Digits(n)) == Some(n)
  {
    if n >= 10 {
      ParseDigits(n / 10);
      var s := Digits(n);
      assert s[..|s| - 1] == Digits(n / 10);
    }
  }

  /** strconv.ParseUint with base 10: `limit` is the first value that does not fit. */
  function ParseUint(s: string, limit: nat): Option<nat> {
    match ParseNat(s)
    case None => None
    case Some(n) => if n < limit then Some(n) else None
  }

  lemma {:induction false} ParseNatIff(s: string)
    ensures ParseNat(s).Some? <==> s != [] && forall c <- s :: IsDigit(c)
  {
    if s != [] {
      var before, last := s[..|s| - 1], s[|s| - 1];
      assert s == before + [last];
      if |s| > 1 { ParseNatIff(before); }
    }
  }

  /** Exactly the digit strings below the limit are read, each as the number it prints. */
  lemma ParseUintIff(s: string, n: nat, limit: nat)
    ensures ParseUint(Digits(n), limit) == if n < limit then Some(n) else None
    ensures ParseUint(s, limit).Some? ==> s != [] && (forall c <- s :: IsDigit(c)) && ParseUint(s, limit).value < limit
  {
    ParseDigits(n);
    ParseNatIff(s);
  }

  /** strconv.ParseInt with base 10 and 64 bits. */
  function ParseInt64(s: string): Option<int> {
    var signed := s != [] && (s[0] == '-' || s[0] == '+');
    match ParseNat(if signed then s[1..] else s)
    case None => None
    case Some(n) =>
      var m: int := n;
      var v := if signed && s[0] == '-' then -m else m;
      if MIN64 <= v <= MAX64 then Some(v) else None
  }

  /** Two's complement negation: the least value is its own negative. */
  function Negate(i: int64): int64 {
    if i == MIN64 then MIN64 else -i
  }

  function Pow10(k: nat): nat {
    if k == 0 then 1 else 10 * Pow10(k - 1)
  }

  lemma NineteenDigits()
    ensures MAX64 < Pow10(19)
  {
    assert Pow10(4) == 10_000;
    assert Pow10(8) == 100_000_000;
    assert Pow10(12) == 1_000_000_000_000;
    assert Pow10(16) == 10_000_000_000_000_000;
    assert Pow10(19) == 10_000_000_000_000_000_000;
  }

  function Decimal(i: int): string {
    if i < 0 then "-" + Digits(-i) else Digits(i)
  }

  lemma ParseDecimal(i: int64)
    ensures ParseInt64(Decimal(i)) == Some(i)
  {
    var n: int := i;
    if n < 0 {
      ParseNegative(-n);
    } else {
      ParseUnsigned(n);
    }
  }

  lemma ParseNegative(n: nat)
    ensures ParseInt64("-" + Digits(n)) == if n <= MAX64 + 1 then Some(0 - n) else None
  {
    var s := "-" + Digits(n);
    assert s[1..] == Digits(n);
    ParseDigits(n);
  }

  lemma ParseUnsigned(n: nat)
    ensures ParseInt64(Digits(n)) == if n <= MAX64 then Some(n) else None
  {
    assert Digits(n)[0] in Digits(n);
    ParseDigits(n);
  }

  /** The digits of a positive `value` are those of `i`, still to come, and then `tail`. */
  predicate Parted(value: int, i: int, tail: string) {
    value > 0 ==> i >= 0 && Digits(value) == (if i > 0 then Digits(i) else "") + tail
  }

  /** Moving the last digit of `i` to the front of the finished part. */
  lemma MoveLastDigit(value: int, i: nat, tail: string, k: nat)
    requires 0 < i < Pow10(k) && Parted(value, i, tail)
    ensures Parted(value, i / 10, [Digit(i % 10)] + tail)
    ensures k > 0 && i / 10 < Pow10(k - 1)
  {
    if value > 0 {
      var rest := if i / 10 > 0 then Digits(i / 10) else "";
      assert Digits(i) == rest + [Digit(i % 10)];
      assert (rest + [Digit(i % 10)]) + tail == rest + ([Digit(i % 10)] + tail);
    }
  }

  /** What the printer writes: the least value comes out as a bare sign. */
  function Printed(value: int64): string {
    if value == MIN64 then "-" else Decimal(value)
  }

  /** The loop: digits go into the buffer from the back; a value that is not positive writes
      nothing.  Nineteen digits fit, so 13 of the 32 places stay free. */
  method FillDigits(b: array<char>, value: int64) returns (n: nat)
    requires b.Length == 32
    modifies b
    ensures 13 <= n <= 32
    ensures value > 0 ==> b[n..] == Digits(value)
    ensures value <= 0 ==> n == 32
  {
    var i := value;
    n := b.Length;
    NineteenDigits();
    while i > 0
      invariant 13 <= n <= 32 && i < Pow10(n - 13)
      invariant Parted(value, i, b[n..])
      invariant value <= 0 ==> n == 32 && i == value
    {
      ghost var tail := b[n..];
      MoveLastDigit(value, i, tail, n - 13);
      n := n - 1;
      b[n] := Digit(i % 10);
      assert b[n..] == [Digit(i % 10)] + tail;
      i := i / 10;
    }
  }

  method Int64ToString(value: int64) returns (s: string)
    ensures s == Printed(value)
  {
    if value == 0 { return "0"; }
    var i := value;
    var b := new char[32];
    var neg := i < 0;
    if neg { i := Negate(i); }
    var n := FillDigits(b, i);
    if neg {
      n := n - 1;
      ghost var tail := b[n + 1..];
      b[n] := '-';
      assert b[n..] == "-" + tail;
    }
    s := b[n..];
  }

  /** The printed text reads back as the input for every value but the least one, whose
      negation overflows; it never has a leading zero. */
  lemma PrintedReadsBackIff(value: int64)
    ensures ParseInt64(Printed(value)) == Some(value) <==> value != MIN64
    ensures value > 0 ==> Printed(value)[0] != '0'
    ensures MIN64 < value < 0 ==> Printed(value)[0] == '-' && Printed(value)[1] != '0'
  {
    if value != MIN64 {
      ParseDecimal(value);
    }
  }
}
