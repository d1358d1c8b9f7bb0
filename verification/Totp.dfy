/** HOTP (RFC 4226) and TOTP (RFC 6238) as computed by totp.py. The keyed digest is a
    parameter; the rest is the code's own arithmetic. */
module Totp {
  import opened Json
  import opened Digits
  import Base32

  type Hmac = (seq<nat>, seq<nat>) -> seq<bv8>

  // ── dynamic truncation ────────────────────────────────────────

  function Assemble(a: bv8, b: bv8, c: bv8, d: bv8): bv32 {
    (((a & 0x7F) as bv32) << 24) | ((b as bv32) << 16) | ((c as bv32) << 8) | (d as bv32)
  }

  function Offset(digest: seq<bv8>): (o: nat)
    requires digest != []
    ensures o < 16
  {
    (digest[|digest| - 1] & 0x0F) as nat
  }

  /** None is the IndexError of a digest too short for its own offset. */
  function Truncate(digest: seq<bv8>): Option<nat> {
    if digest == [] then None else FourBytes(digest, Offset(digest))
  }

  function FourBytes(digest: seq<bv8>, o: nat): Option<nat> {
    if o + 3 >= |digest| then None
    else Some(Assemble(digest[o], digest[o + 1], digest[o + 2], digest[o + 3]) as nat)
  }

  lemma OneMoreByte(x: bv32, b: bv8)
    requires x < 0x80_0000
    ensures ((x << 8) | (b as bv32)) as nat == 256 * (x as nat) + b as nat
  {
  }

  lemma AssembleByteByByte(a: bv8, b: bv8, c: bv8, d: bv8)
    ensures var ab := (((a & 0x7F) as bv32) << 8) | (b as bv32);
            var abc := (ab << 8) | (c as bv32);
            ab < 0x8000 && abc < 0x80_0000 && Assemble(a, b, c, d) == (abc << 8) | (d as bv32)
  {
  }

  lemma LowBits(a: bv8)
    ensures (a & 0x7F) as nat == a as nat % 128 && (a & 0x7F) as bv32 as nat == a as nat % 128
    ensures (a & 0x0F) as nat == a as nat % 16
  {
  }

  /** The four bytes are one big-endian number with its top bit cleared. */
  lemma AssembleIsBigEndian(a: bv8, b: bv8, c: bv8, d: bv8)
    ensures Assemble(a, b, c, d) as nat
            == 0x100_0000 * (a as nat % 128) + 0x1_0000 * (b as nat) + 0x100 * (c as nat) + d as nat
  {
    AssembleByteByByte(a, b, c, d);
    LowBits(a);
    var ab := (((a & 0x7F) as bv32) << 8) | (b as bv32);
    OneMoreByte((a & 0x7F) as bv32, b);
    OneMoreByte(ab, c);
    OneMoreByte((ab << 8) | (c as bv32), d);
  }

  function BigEndian(a: bv8, b: bv8, c: bv8, d: bv8): nat {
    0x100_0000 * (a as nat) + 0x1_0000 * (b as nat) + 0x100 * (c as nat) + d as nat
  }

  lemma AssembledLowBits(a: bv8, b: bv8, c: bv8, d: bv8)
    ensures Assemble(a, b, c, d) as nat < 0x8000_0000
    ensures Assemble(a, b, c, d) as nat == BigEndian(a, b, c, d) % 0x8000_0000
  {
    AssembleIsBigEndian(a, b, c, d);
    DropTopBit(a as nat, b as nat, c as nat, d as nat);
  }

  lemma OffsetInRange(digest: seq<bv8>)
    requires digest != []
    ensures Offset(digest) == digest[|digest| - 1] as nat % 16 < 16
  {
    LowBits(digest[|digest| - 1]);
  }

  /** Section 5.3 of RFC 4226: on a digest of at least twenty bytes every index is in range,
      and the result is the low 31 bits of the four bytes at the offset. */
  lemma TruncationIs31Bits(digest: seq<bv8>)
    requires |digest| >= 20
    ensures Truncate(digest).Some? && Truncate(digest).value < 0x8000_0000
    ensures var o := Offset(digest);
            o < 16 && Truncate(digest).value == BigEndian(digest[o], digest[o + 1], digest[o + 2], digest[o + 3]) % 0x8000_0000
  {
    OffsetInRange(digest);
    FourBytesLow(digest, Offset(digest));
  }

  lemma FourBytesLow(digest: seq<bv8>, o: nat)
    requires o + 3 < |digest|
    ensures FourBytes(digest, o).Some? && FourBytes(digest, o).value < 0x8000_0000
    ensures FourBytes(digest, o).value == BigEndian(digest[o], digest[o + 1], digest[o + 2], digest[o + 3]) % 0x8000_0000
  {
    AssembledLowBits(digest[o], digest[o + 1], digest[o + 2], digest[o + 3]);
  }

  lemma DropTopBit(a: nat, b: nat, c: nat, d: nat)
    requires a < 256 && b < 256 && c < 256 && d < 256
    ensures var low := 0x100_0000 * (a % 128) + 0x1_0000 * b + 0x100 * c + d;
            low < 0x8000_0000 && (0x100_0000 * a + 0x1_0000 * b + 0x100 * c + d) % 0x8000_0000 == low
  {
  }

  // ── str(n).zfill(digits) ──────────────────────────────────────

  function Numeral(d: nat): char
    requires d < 10
  {
    '0' + d as char
  }

  function Decimal(n: nat): string {
    if n < 10 then [Numeral(n)] else Decimal(n / 10) + [Numeral(n % 10)]
  }

  function ZFill(s: string, width: nat): string
    decreases width - |s|
  {
    if |s| >= width then s else ZFill("0" + s, width)
  }

  function Numerals(ds: seq<nat>): (s: string)
    requires Below(10, ds)
    ensures |s| == |ds|
  {
    seq(|ds|, i requires 0 <= i < |ds| => Numeral(ds[i]))
  }

  lemma {:induction false} ZFillAppends(s: string, c: char, width: nat)
    requires width > 0
    ensures ZFill(s + [c], width) == ZFill(s, width - 1) + [c]
    decreases width - |s|
  {
    if |s| + 1 < width {
      assert "0" + (s + [c]) == ("0" + s) + [c];
      ZFillAppends("0" + s, c, width);
    }
  }

  lemma {:induction false} ZeroFills(width: nat)
    requires width > 0
    ensures ZFill("0", width) == Numerals(DigitsOf(10, 0, width))
    decreases width
  {
    if width == 1 {
      assert DigitsOf(10, 0, 1) == DigitsOf(10, 0, 0) + [0];
    } else {
      ZeroFills(width - 1);
      ZFillAppends("0", '0', width);
      assert "0" + "0" == "0" + ['0'];
      assert DigitsOf(10, 0, width) == DigitsOf(10, 0, width - 1) + [0];
      assert ZFill("0", width) == ZFill("0" + "0", width);
    }
  }

  lemma {:induction false} FilledDecimal(n: nat, width: nat)
    requires width > 0 && n < Pow(10, width)
    ensures ZFill(Decimal(n), width) == Numerals(DigitsOf(10, n, width))
    decreases width
  {
    if n == 0 {
      ZeroFills(width);
    } else {
      QuotBelow(10, n, width);
      var last := Numeral(n % 10);
      assert DigitsOf(10, n, width) == DigitsOf(10, n / 10, width - 1) + [n % 10];
      if width == 1 {
        assert Pow(10, 0) == 1;
      } else {
        FilledDecimal(n / 10, width - 1);
        if n < 10 {
          ZFillAppends("", last, width);
          assert "" + [last] == Decimal(n);
          assert ZFill("", width - 1) == ZFill("0", width - 1) by { assert "0" + "" == "0"; }
        } else {
          ZFillAppends(Decimal(n / 10), last, width);
        }
      }
    }
  }

  /** The number a decimal text denotes. */
  predicate IsDecimal(s: string) {
    forall i :: 0 <= i < |s| ==> '0' <= s[i] <= '9'
  }

  function NumeralValues(s: string): (ds: seq<nat>)
    requires IsDecimal(s)
    ensures |ds| == |s|
  {
    seq(|s|, i requires 0 <= i < |s| => (s[i] - '0') as nat)
  }

  function Denotes(s: string): nat
    requires IsDecimal(s)
  {
    ValueOf(10, NumeralValues(s))
  }

  lemma NumeralsDenote(n: nat, width: nat)
    requires n < Pow(10, width)
    ensures var s := Numerals(DigitsOf(10, n, width)); IsDecimal(s) && Denotes(s) == n
  {
    var ds := DigitsOf(10, n, width);
    assert NumeralValues(Numerals(ds)) == ds;
    ValueOfDigits(10, n, width);
  }

  // ── HOTP ──────────────────────────────────────────────────────

  function Code(code: nat, digits: nat): string {
    ZFill(Decimal(code % Pow(10, digits)), digits)
  }

  /** `struct.pack(">Q", counter)`; None is its error for a counter out of range. */
  function Pack(counter: int): Option<seq<nat>> {
    if 0 <= counter < Pow(256, 8) then Some(DigitsOf(256, counter, 8)) else None
  }

  function Hotp(hmac: Hmac, secret: seq<nat>, counter: int, digits: nat): Option<string> {
    match Pack(counter)
    case None => None
    case Some(message) =>
      match Truncate(hmac(secret, message))
      case None => None
      case Some(code) => Some(Code(code, digits))
  }

  lemma ModBelow(n: nat, m: nat)
    requires m > 0
    ensures n % m < m
  {
  }

  /** A code is a decimal text denoting the truncated digest modulo 10^digits, and it has
      just `digits` characters unless none are asked for: then it is "0". */
  lemma CodeDenotes(code: nat, digits: nat)
    ensures var s := Code(code, digits);
            IsDecimal(s) && Denotes(s) == code % Pow(10, digits)
    ensures |Code(code, digits)| == digits <==> digits > 0
    ensures digits == 0 ==> Code(code, digits) == "0"
  {
    var p := Pow(10, digits);
    ModBelow(code, p);
    var n := code % p;
    if digits > 0 {
      FilledDecimal(n, digits);
      NumeralsDenote(n, digits);
    } else {
      assert p == 1 && n == 0;
      assert Decimal(0) == "0" && NumeralValues("0") == [0];
    }
  }

  /** Section 5.3 of RFC 4226, for any digest of at least twenty bytes. */
  lemma HotpIsTruncatedDigest(hmac: Hmac, secret: seq<nat>, counter: int, digits: nat)
    requires 0 <= counter < Pow(256, 8) && digits > 0
    requires |hmac(secret, DigitsOf(256, counter, 8))| >= 20
    ensures Hotp(hmac, secret, counter, digits).Some?
    ensures var s := Hotp(hmac, secret, counter, digits).value;
            var code := Truncate(hmac(secret, DigitsOf(256, counter, 8)));
            && |s| == digits && IsDecimal(s)
            && code.Some? && code.value < 0x8000_0000 && Denotes(s) == code.value % Pow(10, digits)
  {
    var digest := hmac(secret, DigitsOf(256, counter, 8));
    TruncationIs31Bits(digest);
    CodeDenotes(Truncate(digest).value, digits);
  }

  /** The eight bytes give the counter back, so no two counters authenticate one message. */
  lemma PackedCountersDiffer(a: int, b: int)
    requires Pack(a).Some? && Pack(a) == Pack(b)
    ensures a == b
  {
    ValueOfDigits(256, a, 8);
    ValueOfDigits(256, b, 8);
  }

  // ── TOTP ──────────────────────────────────────────────────────

  /** `int(at)`: toward zero. */
  function Whole(at: real): int {
    if at >= 0.0 then at.Floor else -((-at).Floor)
  }

  /** `t // period`, for the counter. */
  function Counter(t: int, period: nat): int
    requires period > 0
  {
    t / period
  }

  /** None is an exception: an undecodable secret, no period, an unpackable counter. */
  function ComputeTotp(hmac: Hmac, secret: string, digits: nat, period: nat, at: real): Option<string> {
    if period == 0 then None
    else match Base32.DecodeSecret(secret)
      case None => None
      case Some(key) => Hotp(hmac, key, Counter(Whole(at), period), digits)
  }

  function RemainingSeconds(period: nat, at: real): int
    requires period > 0
  {
    period - Whole(at) % period
  }

  lemma Window(t: int, u: int, period: nat)
    requires period > 0
    ensures var end := t + period - t % period;
            && t < end <= t + period
            && Counter(end, period) == Counter(t, period) + 1
            && (t <= u < end ==> Counter(u, period) == Counter(t, period))
  {
    var q, r := t / period, t % period;
    assert t == q * period + r;
    QuotientIs(q * period + period, q + 1, period, 0);
    assert (q + 1) * period == q * period + period;
    if t <= u < t + period - r {
      QuotientIs(u, q, period, u - q * period);
    }
  }

  lemma QuotientIs(n: int, q: int, d: nat, r: int)
    requires d > 0 && 0 <= r < d && n == q * d + r
    ensures n / d == q
  {
    OneQuotient(n / d, q, d, n % d, r);
  }

  lemma OneQuotient(k: int, q: int, d: nat, r: int, s: int)
    requires 0 <= r < d && 0 <= s < d && k * d + r == q * d + s
    ensures k == q
  {
    var gap := k - q;
    assert gap * d == s - r;
    Scale(gap, d);
  }

  lemma Scale(gap: int, d: nat)
    ensures gap >= 1 ==> gap * d >= d
    ensures gap <= -1 ==> gap * d <= 0 - d
  {
    if gap >= 1 {
      assert (gap - 1) * d >= 0;
    } else if gap <= -1 {
      assert (-gap - 1) * d >= 0;
    }
  }

  /** Section 4 of RFC 6238: `t + remaining_seconds` is the first later second whose counter
      differs, and it is one more. */
  lemma RemainingIsFirstChange(t: int, u: int, period: nat)
    requires period > 0
    ensures var end := t + RemainingSeconds(period, t as real);
            && t < end <= t + period
            && Counter(end, period) == Counter(t, period) + 1
            && (t <= u < end ==> Counter(u, period) == Counter(t, period))
  {
    assert Whole(t as real) == t;
    Window(t, u, period);
  }

  /** From any instant with a code until the announced end of its window the code stays the
      same, whole second or not. */
  lemma CodeHolds(hmac: Hmac, secret: string, digits: nat, period: nat, at: real, later: real)
    requires period > 0 && at > -1.0
    requires at <= later < (Whole(at) + RemainingSeconds(period, at)) as real
    ensures ComputeTotp(hmac, secret, digits, period, later) == ComputeTotp(hmac, secret, digits, period, at)
  {
    assert Whole(at) >= 0;
    assert Whole(at) <= Whole(later) < Whole(at) + RemainingSeconds(period, at);
    Window(Whole(at), Whole(later), period);
  }

  /** With twenty-byte digests a code exists exactly for a decodable secret and a counter
      that eight bytes hold; every instant before the epoch's second is out. */
  lemma TotpExistsIff(hmac: Hmac, secret: string, digits: nat, period: nat, at: real)
    requires period > 0 && forall key, message :: |hmac(key, message)| >= 20
    ensures ComputeTotp(hmac, secret, digits, period, at).Some?
            <==> Base32.DecodeSecret(secret).Some? && at > -1.0 && Whole(at) / period < Pow(256, 8)
  {
    CounterSign(Whole(at), period);
    if Base32.DecodeSecret(secret).Some? && Pack(Counter(Whole(at), period)).Some? {
      TruncationIs31Bits(hmac(Base32.DecodeSecret(secret).value, Pack(Counter(Whole(at), period)).value));
    }
  }

  /** Without a period there is no code. */
  lemma NoPeriodNoCode(hmac: Hmac, secret: string, digits: nat, at: real)
    ensures ComputeTotp(hmac, secret, digits, 0, at) == None
  {
  }

  lemma CounterSign(t: int, period: nat)
    requires period > 0
    ensures Counter(t, period) >= 0 <==> t >= 0
  {
    var q := t / period;
    assert t == q * period + t % period;
    if q < 0 {
      assert (-q) * period >= period;
    } else {
      assert q * period >= 0;
    }
  }

  // ── from the secret to the code ───────────────────────────────

  /** Section 5.3 of RFC 4226: the 31 bits at the offset that the last four bits give. */
  function Truncated(digest: seq<bv8>): nat
    requires |digest| >= 20
  {
    var o := digest[|digest| - 1] as nat % 16;
    BigEndian(digest[o], digest[o + 1], digest[o + 2], digest[o + 3]) % 0x8000_0000
  }

  /** The instant lies in window `c`. */
  predicate InWindow(c: nat, period: nat, at: real) {
    (c * period) as real <= at < ((c + 1) * period) as real
  }

  lemma WindowIsCounter(c: nat, period: nat, at: real)
    requires period > 0 && InWindow(c, period, at)
    ensures Counter(Whole(at), period) == c
  {
    var t := Whole(at);
    assert c * period <= t < (c + 1) * period;
    assert (c + 1) * period == c * period + period;
    QuotientIs(t, c, period, t - c * period);
  }

  lemma HotpOfMessage(hmac: Hmac, key: seq<nat>, c: nat, message: seq<nat>, digits: nat)
    requires digits > 0 && |message| == 8 && Below(256, message) && ValueOf(256, message) == c
    requires |hmac(key, message)| >= 20
    ensures Hotp(hmac, key, c, digits).Some?
    ensures var s := Hotp(hmac, key, c, digits).value;
            |s| == digits && IsDecimal(s) && Denotes(s) == Truncated(hmac(key, message)) % Pow(10, digits)
  {
    DigitsOfValue(256, message);
    HotpIsTruncatedDigest(hmac, key, c, digits);
    OffsetInRange(hmac(key, message));
    TruncationIs31Bits(hmac(key, message));
  }

  /** The code for any spelling of a key at any instant of window `c`: the decimals of the
      truncated digest, under that key, of the eight bytes whose big-endian value is `c`. */
  lemma CodeOfSecret(hmac: Hmac, key: seq<nat>, secret: string, digits: nat, period: nat, at: real, c: nat, message: seq<nat>)
    requires Below(256, key)
    requires var body := Base32.Encode(key);
             Base32.Decorates(secret, body) || Base32.Decorates(secret, body + Base32.Pads(Base32.PadCount(|body|)))
    requires period > 0 && digits > 0 && InWindow(c, period, at)
    requires |message| == 8 && Below(256, message) && ValueOf(256, message) == c
    requires |hmac(key, message)| >= 20
    ensures ComputeTotp(hmac, secret, digits, period, at).Some?
    ensures var s := ComputeTotp(hmac, secret, digits, period, at).value;
            |s| == digits && IsDecimal(s) && Denotes(s) == Truncated(hmac(key, message)) % Pow(10, digits)
  {
    Base32.SecretDecodes(secret, key);
    WindowIsCounter(c, period, at);
    HotpOfMessage(hmac, key, c, message, digits);
  }

  /** The announced seconds lead from any instant of a window, whole or not, to the second
      with which the next window begins. */
  lemma RemainingLeadsToNextWindow(c: nat, period: nat, at: real)
    requires period > 0 && InWindow(c, period, at)
    ensures Whole(at) + RemainingSeconds(period, at) == (c + 1) * period
    ensures Whole(at) as real <= at < (Whole(at) + 1) as real
  {
    var t := Whole(at);
    WindowIsCounter(c, period, at);
    assert t == (t / period) * period + t % period;
    assert (c + 1) * period == c * period + period;
  }
}
