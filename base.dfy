/** Machine integers, the Go error values the core returns, and the small pieces of
    the Go runtime and standard library the core leans on: uint32 conversion,
    the `copy` builtin, `%d` rendering and `strconv.Atoi`. */
module Base {

  const TWO_32: int := 0x1_0000_0000
  const MAX_UINT32: int := 0xFFFF_FFFF
  const MIN_INT64: int := -0x8000_0000_0000_0000
  const MAX_INT64: int := 0x7FFF_FFFF_FFFF_FFFF
  const MAX_UINT64: int := 0xFFFF_FFFF_FFFF_FFFF

  /** Go's uint32 */
  type Uint32 = x: int | 0 <= x < 0x1_0000_0000
  /** Go's byte */
  type Byte = x: int | 0 <= x < 0x100

  datatype Option<+T> = None | Some(value: T) {
    function GetOr(default: T): T {
      match this
      case Some(v) => v
      case None => default
    }
  }

  datatype Result<+R, +E> = Success(value: R) | Failure(error: E)

  /** Why strconv rejected a number: strconv.ErrSyntax or strconv.ErrRange. */
  datatype NumErrorReason = ErrSyntax | ErrRange

  /** Every error value the modelled code can hand back. */
  datatype Error =
    | Errno(errno: bv64)                            // syscall.Errno
    | PathError(op: string, path: string, errno: bv64)   // *os.PathError from os.Open
    | FrameSizeStatus(status: bv64)                 // "Cannot set frame size, ioctl system call returned status %v"
    | NotCapturingDevice(device: string)            // "Device %s is not a video capturing device."
    | NotStreamingDevice(device: string)            // "Device %s is not able to stream frames."
    | NoVideoDevice                                 // "No video device entered. Use --device parameters"
    | NumError(func: string, num: string, reason: NumErrorReason)   // *strconv.NumError
    | DriverError(code: nat)                        // an error reported by a call whose code is not part of this model

  /** Go's conversion uint32(x) of an int: keeps the low 32 bits (two's complement). */
  function Wrap32(x: int): (r: Uint32)
    ensures 0 <= x < TWO_32 ==> r == x
    ensures (x - r) % TWO_32 == 0
  {
    x % TWO_32
  }

  /** Go's builtin copy(dst, src): copies min(len(dst), len(src)) elements and returns that count. */
  method Copy(dst: array<Byte>, src: array<Byte>) returns (n: nat)
    modifies dst
    ensures n == if dst.Length < src.Length then dst.Length else src.Length
    ensures dst[..n] == old(src[..n])
    ensures dst[n..] == old(dst[n..])
  {
    n := if dst.Length < src.Length then dst.Length else src.Length;
    var i := 0;
    while i < n
      invariant 0 <= i <= n
      invariant dst[..i] == old(src[..i])
      invariant src[..] == old(src[..])
      invariant dst[i..] == old(dst[i..])
    {
      dst[i] := src[i];
      i := i + 1;
    }
  }

  // ---------------------------------------------------------------------------
  // Decimal digits: fmt's %d and the digit loop inside strconv.Atoi
  // ---------------------------------------------------------------------------

  predicate IsDigit(c: char) {
    '0' <= c <= '9'
  }

  predicate AllDigits(s: string) {
    forall i :: 0 <= i < |s| ==> IsDigit(s[i])
  }

  function DigitChar(d: nat): (c: char)
    requires d < 10
    ensures IsDigit(c) && c as int - '0' as int == d
  {
    (('0' as int) + d) as char
  }

  /** The decimal rendering of n, as fmt's %d prints an unsigned value: one digit for
      n < 10, and never a leading zero except for 0 itself. */
  function Decimal(n: nat): (s: string)
    ensures |s| >= 1 && AllDigits(s)
    ensures |s| == 1 <==> n < 10
    ensures s[0] == '0' <==> n == 0
    decreases n
  {
    if n < 10 then [DigitChar(n)] else Decimal(n / 10) + [DigitChar(n % 10)]
  }

  /** The value of a string of decimal digits, read most significant digit first. */
  function DigitsValue(s: string): nat
    requires AllDigits(s)
    decreases |s|
  {
    if s == [] then 0 else DigitsValue(s[..|s| - 1]) * 10 + (s[|s| - 1] as int - '0' as int)
  }

  /** Reading back what %d printed gives the number again. */
  lemma {:induction false} DecimalRoundTrip(n: nat)
    ensures DigitsValue(Decimal(n)) == n
    decreases n
  {
    if n >= 10 {
      DecimalRoundTrip(n / 10);
      var s := Decimal(n);
      assert s[..|s| - 1] == Decimal(n / 10);
    }
  }

  lemma DecimalInjective(m: nat, n: nat)
    ensures Decimal(m) == Decimal(n) ==> m == n
  {
    DecimalRoundTrip(m);
    DecimalRoundTrip(n);
  }

  /** The length of the leading run of digits. */
  function DigitRun(s: string): (n: nat)
    ensures n <= |s| && AllDigits(s[..n])
    ensures n < |s| ==> !IsDigit(s[n])
    ensures AllDigits(s) ==> n == |s|
  {
    if s == [] || !IsDigit(s[0]) then 0
    else
      var m := DigitRun(s[1..]);
      assert s[..m + 1] == [s[0]] + s[1..][..m];
      1 + m
  }

  lemma {:induction false} DigitsEndAtNonDigit(w: string, rest: string)
    requires AllDigits(w) && rest != [] && !IsDigit(rest[0])
    ensures DigitRun(w + rest) == |w|
  {
    if w != [] {
      assert (w + rest)[1..] == w[1..] + rest;
      DigitsEndAtNonDigit(w[1..], rest);
    } else {
      assert w + rest == rest;
    }
  }

  /** strconv.Atoi: an optional sign followed by at least one decimal digit, whose
      value must fit in a 64-bit int; anything else is a *NumError. The digits are
      read from the left and a value above 2^64 - 1 is a range error at once, so an
      overlong run of digits is ErrRange even when a non-digit follows it. */
  function Atoi(s: string): (r: Result<int, Error>)
    ensures r.Success? ==> MIN_INT64 <= r.value <= MAX_INT64
    ensures r.Failure? ==> r.error.NumError? && r.error.func == "Atoi" && r.error.num == s
    ensures AllDigits(s) && s != [] && DigitsValue(s) <= MAX_INT64 ==> r == Success(DigitsValue(s))
    ensures AllDigits(s) && s != [] && DigitsValue(s) > MAX_INT64 ==> r == Failure(NumError("Atoi", s, ErrRange))
    ensures s == [] ==> r == Failure(NumError("Atoi", s, ErrSyntax))
  {
    var signed := |s| > 0 && (s[0] == '-' || s[0] == '+');
    var digits := if signed then s[1..] else s;
    var run := digits[..DigitRun(digits)];
    assert AllDigits(digits) ==> run == digits;
    if DigitsValue(run) > MAX_UINT64 then
      Failure(NumError("Atoi", s, ErrRange))
    else if digits == [] || |run| < |digits| then
      Failure(NumError("Atoi", s, ErrSyntax))
    else
      assert run == digits;
      var v: int := if s[0] == '-' then 0 - DigitsValue(digits) as int else DigitsValue(digits);
      if v < MIN_INT64 || MAX_INT64 < v then Failure(NumError("Atoi", s, ErrRange)) else Success(v)
  }

  /** Digits whose value passes 2^64 - 1 are a range error whatever follows them. */
  lemma AtoiOverflowBeforeSyntax(w: string, rest: string)
    requires AllDigits(w) && DigitsValue(w) > MAX_UINT64
    requires rest == [] || !IsDigit(rest[0])
    ensures Atoi(w + rest) == Failure(NumError("Atoi", w + rest, ErrRange))
  {
    var s := w + rest;
    assert w != [] && s[0] == w[0];
    if rest == [] {
      assert s == w;
    } else {
      DigitsEndAtNonDigit(w, rest);
      assert s[..|w|] == w;
    }
  }

  /** Atoi reads back every int64 that %d prints, negative ones included. */
  lemma AtoiReadsDecimal(n: nat)
    ensures n <= MAX_INT64 ==> Atoi(Decimal(n)) == Success(n)
    ensures n <= -MIN_INT64 ==> Atoi("-" + Decimal(n)) == Success(-(n as int))
  {
    DecimalRoundTrip(n);
    if n <= -MIN_INT64 {
      AtoiReadsNegative(Decimal(n));
    }
  }

  /** A minus sign before digits worth at most 2^63 reads as their negation. */
  lemma AtoiReadsNegative(d: string)
    requires AllDigits(d) && d != [] && DigitsValue(d) <= -MIN_INT64
    ensures Atoi("-" + d) == Success(0 - DigitsValue(d))
  {
    var s := "-" + d;
    assert s[0] == '-' && s[1..] == d;
    assert d[..DigitRun(d)] == d;
  }
}
