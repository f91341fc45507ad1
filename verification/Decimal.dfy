/**
 The two decimal conversions the reconcilers rely on: `strconv.FormatInt(n, 10)` and
 `strconv.ParseInt(s, 10, bits)`, with Go's signed 64-bit wrap-around beside them.
 */
module Decimal {

  const MAX_INT32: int := 0x7FFF_FFFF
  const MIN_INT32: int := -0x8000_0000
  const MAX_INT64: int := 0x7FFF_FFFF_FFFF_FFFF
  const MIN_INT64: int := -0x8000_0000_0000_0000

  /** The value a signed 64-bit Go integer holds after computing `n`. */
  function Wrap64(n: int): (r: int)
    ensures MIN_INT64 <= r <= MAX_INT64
    ensures MIN_INT64 <= n <= MAX_INT64 ==> r == n
    ensures (n - r) % 0x1_0000_0000_0000_0000 == 0
  {
    (n - MIN_INT64) % 0x1_0000_0000_0000_0000 + MIN_INT64
  }

  lemma WrapStep(n: int)
    ensures Wrap64(Wrap64(n) + 1) == Wrap64(n + 1)
  {
    var q := (n - MIN_INT64) / 0x1_0000_0000_0000_0000;
    assert Wrap64(n) == n - 0x1_0000_0000_0000_0000 * q;
  }

  /** Which outcome `ParseInt` reports; the value is meaningful in every case, as in Go. */
  datatype Verdict = Fine | BadSyntax | OutOfRange
  datatype Parsed = Parsed(value: int, verdict: Verdict)

  predicate IsDigit(c: char) {
    '0' <= c <= '9'
  }

  function Digits(n: nat): (s: string)
    ensures s != []
    ensures forall i | 0 <= i < |s| :: IsDigit(s[i])
  {
    if n < 10 then [('0' as int + n) as char]
    else Digits(n / 10) + [('0' as int + n % 10) as char]
  }

  function FormatInt(n: int): (s: string) {
    if n < 0 then "-" + Digits(-n) else Digits(n)
  }

  /** The digit loop of `ParseUint`: it stops at the first bad character or the first overflow. */
  function ReadDigits(s: string, acc: nat, max: nat): Parsed {
    if s == [] then Parsed(acc, Fine)
    else if !IsDigit(s[0]) then Parsed(0, BadSyntax)
    else
      var n := acc * 10 + (s[0] as int - '0' as int);
      if n > max then Parsed(max, OutOfRange) else ReadDigits(s[1..], n, max)
  }

  function ReadUnsigned(s: string, max: nat): Parsed {
    if s == [] then Parsed(0, BadSyntax) else ReadDigits(s, 0, max)
  }

  /** `half` is 2^(bits-1): the magnitude one past the largest positive result. */
  function ParseSigned(s: string, half: int): Parsed
    requires half > 1
  {
    if s == [] then Parsed(0, BadSyntax)
    else
      var negative := s[0] == '-';
      var u := ReadUnsigned(if s[0] == '-' || s[0] == '+' then s[1..] else s, 2 * half - 1);
      if u.verdict == BadSyntax then Parsed(0, BadSyntax)
      else if !negative && u.value >= half then Parsed(half - 1, OutOfRange)
      else if negative && u.value > half then Parsed(-half, OutOfRange)
      else Parsed(if negative then -u.value else u.value, Fine)
  }

  function ParseInt64(s: string): Parsed {
    ParseSigned(s, 0x8000_0000_0000_0000)
  }

  function ParseInt32(s: string): Parsed {
    ParseSigned(s, 0x8000_0000)
  }

  function Clamp32(n: int): int {
    if n > MAX_INT32 then MAX_INT32 else if n < MIN_INT32 then MIN_INT32 else n
  }

  /** Reading the digits of `n` leaves the accumulator at `n`, or overflows exactly when `n > max`. */
  lemma {:induction false} ReadBack(n: nat, rest: string, max: nat)
    ensures n <= max ==> ReadDigits(Digits(n) + rest, 0, max) == ReadDigits(rest, n, max)
    ensures n > max ==> ReadDigits(Digits(n) + rest, 0, max) == Parsed(max, OutOfRange)
  {
    if n < 10 {
      assert (Digits(n) + rest)[1..] == rest;
    } else {
      var last := [('0' as int + n % 10) as char];
      assert Digits(n) + rest == Digits(n / 10) + (last + rest);
      ReadBack(n / 10, last + rest, max);
      assert (last + rest)[1..] == rest;
    }
  }

  lemma {:induction false} ParseSignedFormat(n: int, half: int)
    requires half > 1
    ensures ParseSigned(FormatInt(n), half) ==
            if n >= half then Parsed(half - 1, OutOfRange)
            else if n < -half then Parsed(-half, OutOfRange)
            else Parsed(n, Fine)
  {
    var m: nat := if n < 0 then -n else n;
    ReadBack(m, [], 2 * half - 1);
    assert Digits(m) + [] == Digits(m);
    if n < 0 {
      assert FormatInt(n)[1..] == Digits(m);
    } else {
      assert IsDigit(Digits(m)[0]);
    }
  }

  /** `ParseInt(FormatInt(n), 10, 64)` is `n` without error exactly on the signed 64-bit range. */
  lemma RoundTrip64(n: int)
    ensures ParseInt64(FormatInt(n)) == Parsed(n, Fine) <==> MIN_INT64 <= n <= MAX_INT64
  {
    ParseSignedFormat(n, 0x8000_0000_0000_0000);
  }

  /** The 32-bit parse of a decimal returns its value clamped to the signed 32-bit range. */
  lemma Reparse32(n: int)
    ensures ParseInt32(FormatInt(n)).value == Clamp32(n)
  {
    ParseSignedFormat(n, 0x8000_0000);
  }

  // ---- What the texts mean ------------------------------------------------------------------

  predicate AllDigits(s: string) {
    forall i | 0 <= i < |s| :: '0' <= s[i] <= '9'
  }

  /** The number a string of digits stands for, from its last digit. */
  function Value(s: string): nat
    requires AllDigits(s)
  {
    if s == [] then 0 else 10 * Value(s[..|s| - 1]) + (s[|s| - 1] as int - '0' as int)
  }

  lemma {:induction false} DigitsMeaning(n: nat)
    ensures var s := Digits(n);
            AllDigits(s) && Value(s) == n && (s[0] == '0' ==> s == "0")
  {
    if n >= 10 {
      DigitsMeaning(n / 10);
      var s := Digits(n);
      assert s[..|s| - 1] == Digits(n / 10);
      assert s[0] == Digits(n / 10)[0];
    } else {
      assert Digits(n)[..0] == [];
    }
  }

  /** Plain decimal digits of `n`, without leading zeros. */
  predicate Writes(s: string, n: nat) {
    s != [] && AllDigits(s) && Value(s) == n && (s[0] == '0' ==> s == "0")
  }

  /** `FormatInt` writes plain decimal, with a minus sign in front of negative numbers only. */
  lemma FormatMeaning(n: int)
    ensures n >= 0 ==> Writes(FormatInt(n), n)
    ensures n < 0 ==> FormatInt(n)[0] == '-' && Writes(FormatInt(n)[1..], -n)
  {
    if n < 0 {
      DigitsMeaning(-n);
      assert FormatInt(n)[1..] == Digits(-n);
    } else {
      DigitsMeaning(n);
    }
  }

  lemma ValueSnoc(s: string, c: char)
    requires AllDigits(s) && IsDigit(c)
    ensures AllDigits(s + [c]) && Value(s + [c]) == 10 * Value(s) + (c as int - '0' as int)
  {
    assert (s + [c])[..|s|] == s;
  }

  /** Moving the first digit of `s` over. */
  lemma MoveOne(before: string, s: string)
    requires AllDigits(before) && s != [] && IsDigit(s[0])
    ensures before + [s[0]] + s[1..] == before + s
    ensures AllDigits(before + [s[0]]) && (AllDigits(s) <==> AllDigits(s[1..]))
  {
    assert s == [s[0]] + s[1..];
  }

  /** The accumulator of the digit loop is the value of the digits read before. */
  lemma {:induction false} ReadMeaning(before: string, acc: nat, s: string, max: nat)
    requires AllDigits(before) && Value(before) == acc <= max
    ensures if AllDigits(s) then
              AllDigits(before + s) &&
              ReadDigits(s, acc, max) ==
              if Value(before + s) <= max then Parsed(Value(before + s), Fine) else Parsed(max, OutOfRange)
            else ReadDigits(s, acc, max) in {Parsed(0, BadSyntax), Parsed(max, OutOfRange)}
    decreases |s|, 0
  {
    if s == [] {
      assert before + s == before;
    } else if IsDigit(s[0]) {
      var next := before + [s[0]];
      MoveOne(before, s);
      ValueSnoc(before, s[0]);
      ReadOn(next, Value(next), s[1..], max);
      assert ReadDigits(s, acc, max) ==
             if Value(next) > max then Parsed(max, OutOfRange) else ReadDigits(s[1..], Value(next), max);
    }
  }

  lemma {:induction false} ReadOn(next: string, acc: nat, rest: string, max: nat)
    requires AllDigits(next) && Value(next) == acc
    ensures if AllDigits(rest) then
              AllDigits(next + rest) &&
              (if acc > max then Parsed(max, OutOfRange) else ReadDigits(rest, acc, max)) ==
              if Value(next + rest) <= max then Parsed(Value(next + rest), Fine) else Parsed(max, OutOfRange)
            else acc > max || ReadDigits(rest, acc, max) in {Parsed(0, BadSyntax), Parsed(max, OutOfRange)}
    decreases |rest|, 1
  {
    if acc <= max {
      ReadMeaning(next, acc, rest, max);
    } else if AllDigits(rest) {
      LongerIsLarger(next, rest);
    }
  }

  lemma {:induction false} LongerIsLarger(s: string, more: string)
    requires AllDigits(s) && AllDigits(more)
    ensures Value(s + more) >= Value(s)
  {
    if more == [] {
      assert s + more == s;
    } else {
      var k := |more| - 1;
      LongerIsLarger(s, more[..k]);
      assert (s + more)[..|s + more| - 1] == s + more[..k];
    }
  }

  /** What follows an optional sign. */
  function Unsigned(s: string): string {
    if s != [] && (s[0] == '-' || s[0] == '+') then s[1..] else s
  }

  predicate IsNumber(s: string) {
    Unsigned(s) != [] && AllDigits(Unsigned(s))
  }

  /** The number that an optional sign and digits stand for. */
  function Number(s: string): int
    requires IsNumber(s)
  {
    (if s[0] == '-' then -1 else 1) * Value(Unsigned(s))
  }

  /**
   Parsing succeeds exactly on optionally signed digits whose number fits, and gives that number; a
   number that does not fit is clamped; anything that is not a number is an error, of value zero unless
   its leading digits already overflow.
   */
  lemma ParseMeaning(s: string, half: int)
    requires half > 1
    ensures var p := ParseSigned(s, half);
            && (p.verdict == Fine <==> IsNumber(s) && -half <= Number(s) < half)
            && (IsNumber(s) ==>
                  p.value == (if Number(s) >= half then half - 1 else if Number(s) < -half then -half else Number(s)))
            && (!IsNumber(s) ==> p.value in {0, half - 1, -half} && (p.verdict == BadSyntax <==> p.value == 0))
  {
    if s != [] && Unsigned(s) != [] {
      assert [] + Unsigned(s) == Unsigned(s);
      ReadMeaning([], 0, Unsigned(s), 2 * half - 1);
    }
  }
}
