/** One-time codes: HOTP (section 5.3 of RFC 4226) over 30-second steps (section 4.2 of RFC 6238). */
module Totp {
  import opened Quantities

  type Byte = x: int | 0 <= x < 256

  const STEP_SECONDS := 30
  const DIGITS: nat := 6
  const WINDOW := 1

  /** HMAC-SHA-1 of a counter under a key: 20 bytes, otherwise arbitrary. */
  datatype Hmac = Hmac(mac: (nat, int) -> seq<Byte>)

  ghost predicate Sha1(h: Hmac) { forall key, counter :: |h.mac(key, counter)| == 20 }

  function Pow10(n: nat): (p: nat)
    ensures p > 0
  {
    if n == 0 then 1 else 10 * Pow10(n - 1)
  }

  function DigitOf(d: nat): (c: char)
    requires d < 10
    ensures '0' <= c <= '9'
  {
    '0' + d as char
  }

  predicate AllDigits(s: string) { forall i :: 0 <= i < |s| ==> '0' <= s[i] <= '9' }

  /** The decimal numeral, without leading zeros. */
  function Numeral(n: nat): (s: string)
    ensures s != "" && AllDigits(s)
  {
    if n < 10 then [DigitOf(n)] else Numeral(n / 10) + [DigitOf(n % 10)]
  }

  function ZeroFill(s: string, width: nat): string {
    seq(Max(0, width - |s|), _ => '0') + s
  }

  /** Dynamic truncation: four bytes from the offset the last byte names, top bit dropped. */
  function Truncate(mac: seq<Byte>): (code: nat)
    requires |mac| == 20
    ensures code < 0x8000_0000
  {
    var o := mac[19] % 16;
    (mac[o] as int * 0x100_0000 + mac[o + 1] as int * 0x1_0000 + mac[o + 2] as int * 0x100 + mac[o + 3] as int)
    % 0x8000_0000
  }

  /** The example of section 5.4 of RFC 4226: offset 10, binary code 50 ef 7f 19, and so 872921. */
  lemma TruncateExample()
    ensures var mac: seq<Byte> := [0x1f, 0x86, 0x98, 0x69, 0x0e, 0x02, 0xca, 0x16, 0x61, 0x85,
                                   0x50, 0xef, 0x7f, 0x19, 0xda, 0x8e, 0x94, 0x5b, 0x55, 0x5a];
      Truncate(mac) == 0x50ef7f19 && Truncate(mac) % 1_000_000 == 872921
  {}

  /** In general: of the four bytes from the offset in the last byte's low half, big-endian, the first
      loses its top bit and the rest stand as they are. */
  lemma TruncateMeans(mac: seq<Byte>, o: nat)
    requires |mac| == 20 && o < 16 && (mac[19] - o) % 16 == 0
    ensures Truncate(mac) == (if mac[o] >= 128 then mac[o] - 128 else mac[o]) as int * 0x100_0000
      + mac[o + 1] as int * 0x1_0000 + mac[o + 2] as int * 0x100 + mac[o + 3] as int
  {
    assert mac[19] % 16 == o;
  }

  function Hotp(h: Hmac, key: nat, counter: int): string
    requires Sha1(h)
  {
    ZeroFill(Numeral(Truncate(h.mac(key, counter)) % Pow10(DIGITS)), DIGITS)
  }

  /** The number a string of digits stands for. */
  function Value(s: string): nat
    requires AllDigits(s)
  {
    if s == "" then 0
    else 10 * Value(s[..|s| - 1]) + (s[|s| - 1] - '0') as int
  }

  lemma {:induction false} NumeralValue(n: nat)
    ensures Value(Numeral(n)) == n
  {
    if n >= 10 {
      NumeralValue(n / 10);
      assert Numeral(n)[..|Numeral(n)| - 1] == Numeral(n / 10);
    } else {
      assert Numeral(n)[..0] == "";
    }
  }

  lemma {:induction false} NumeralFits(n: nat, digits: nat)
    requires digits > 0 && n < Pow10(digits)
    ensures |Numeral(n)| <= digits
  {
    if n >= 10 {
      assert Pow10(digits) == 10 * Pow10(digits - 1);
      NumeralFits(n / 10, digits - 1);
    }
  }

  lemma {:induction false} FillValue(s: string, zeros: nat)
    requires AllDigits(s)
    ensures Value(seq(zeros, _ => '0') + s) == Value(s)
    decreases |s|, zeros
  {
    var z := seq(zeros, _ => '0');
    if s != "" {
      assert (z + s)[..|z + s| - 1] == z + s[..|s| - 1];
      FillValue(s[..|s| - 1], zeros);
    } else if zeros > 0 {
      assert (z + s)[..|z + s| - 1] == seq(zeros - 1, _ => '0') + s;
      FillValue(s, zeros - 1);
    }
  }

  /** Every code is exactly six digits and stands for the truncated value modulo a million: two
      codes are equal exactly when those numbers are. */
  lemma CodeShape(h: Hmac, key: nat, counter: int)
    requires Sha1(h)
    ensures |Hotp(h, key, counter)| == DIGITS
    ensures AllDigits(Hotp(h, key, counter))
    ensures Value(Hotp(h, key, counter)) == Truncate(h.mac(key, counter)) % Pow10(DIGITS)
  {
    var n := Truncate(h.mac(key, counter)) % Pow10(DIGITS);
    NumeralFits(n, DIGITS);
    NumeralValue(n);
    FillValue(Numeral(n), DIGITS - |Numeral(n)|);
  }

  function StepAt(now: int): int { now / STEP_SECONDS }

  predicate WellFormed(code: string) { |code| == DIGITS && AllDigits(code) }

  /** The code of each step under a key. */
  function Codes(h: Hmac, key: nat): int -> string
    requires Sha1(h)
  {
    s => Hotp(h, key, s)
  }

  /** The earliest step of the window whose code this is. */
  function Earliest(codes: int -> string, code: string, w: int): (hit: Option<int>)
    ensures hit.Some? ==> w - WINDOW <= hit.value <= w + WINDOW && codes(hit.value) == code
    ensures forall s :: w - WINDOW <= s <= w + WINDOW && codes(s) == code ==> hit.Some? && hit.value <= s
  {
    if codes(w - 1) == code then Some(w - 1)
    else if codes(w) == code then Some(w)
    else if codes(w + 1) == code then Some(w + 1)
    else None
  }

  /** A well-formed code is accepted exactly when the earliest step it matches in the window is
      later than the last one accepted. */
  function Accepts(codes: int -> string, code: string, lastStep: Option<int>, now: int): Option<int> {
    var hit := if WellFormed(code) then Earliest(codes, code, StepAt(now)) else None;
    if hit.None? || (lastStep.Some? && hit.value <= lastStep.value) then None else hit
  }

  /** A code stands for a step exactly when it is six digits, is that step's code, the step is at most
      one of 30 seconds from the clock's, no earlier such step has the same code, and the step is
      later than the last one accepted. */
  lemma AcceptsMeans(codes: int -> string, code: string, lastStep: Option<int>, now: int, s: int)
    ensures Accepts(codes, code, lastStep, now) == Some(s) <==>
      && |code| == 6 && (forall i :: 0 <= i < 6 ==> '0' <= code[i] <= '9')
      && codes(s) == code && 30 * (s - 1) <= now < 30 * (s + 2)
      && (forall t :: 30 * (t - 1) <= now < 30 * (t + 2) && codes(t) == code ==> s <= t)
      && (lastStep.Some? ==> lastStep.value < s)
  {
  }

  /** Every candidate step is compared, and the first that matches is kept. */
  method Verify(codes: int -> string, code: string, lastStep: Option<int>, now: int) returns (hit: Option<int>)
    ensures hit == Accepts(codes, code, lastStep, now)
  {
    if !WellFormed(code) {
      return None;
    }
    hit := None;
    for step := StepAt(now) - WINDOW to StepAt(now) + WINDOW + 1
      invariant hit.None? ==> forall s :: StepAt(now) - WINDOW <= s < step ==> codes(s) != code
      invariant hit.Some? ==> StepAt(now) - WINDOW <= hit.value < step && codes(hit.value) == code
      invariant hit.Some? ==> forall s :: StepAt(now) - WINDOW <= s < hit.value ==> codes(s) != code
    {
      if codes(step) == code && hit.None? {
        hit := Some(step);
      }
    }
    if hit.None? || (lastStep.Some? && hit.value <= lastStep.value) {
      return None;
    }
  }
}
