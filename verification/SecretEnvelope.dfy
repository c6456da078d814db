/** Framing of a protected secret as one canonical base64url string: a version octet, the key version as an unsigned
    64-bit big-endian number, the ciphertext and a 16-octet tag. Base64url is that of section 5 of RFC 4648, without
    padding. */
module SecretEnvelope {
  import opened Common

  const FRAME_VERSION: Byte := 1
  const HEADER_BYTES: nat := 9
  const TAG_BYTES: nat := 16
  const SAFE: nat := 0x20_0000_0000_0000

  // ----- base64url

  type Sextet = n: int | 0 <= n < 64

  predicate InAlphabet(c: char) {
    'A' <= c <= 'Z' || 'a' <= c <= 'z' || '0' <= c <= '9' || c == '-' || c == '_'
  }

  function Digit(n: Sextet): (c: char)
    ensures InAlphabet(c)
  {
    if n < 26 then 'A' + n as char else if n < 52 then 'a' + (n - 26) as char else if n < 62 then '0' + (n - 52) as char
    else if n == 62 then '-' else '_'
  }

  function Sextets(c: char): Sextet
    requires InAlphabet(c)
  {
    if 'A' <= c <= 'Z' then c as int - 'A' as int
    else if 'a' <= c <= 'z' then c as int - 'a' as int + 26
    else if '0' <= c <= '9' then c as int - '0' as int + 52
    else if c == '-' then 62 else 63
  }

  lemma DigitsInverse(n: Sextet, c: char)
    ensures Sextets(Digit(n)) == n && (InAlphabet(c) ==> Digit(Sextets(c)) == c)
  {}

  predicate Text64(s: string) { forall i | 0 <= i < |s| :: InAlphabet(s[i]) }

  function Digits(n: seq<Sextet>): (s: string)
    ensures |s| == |n| && Text64(s)
  {
    seq(|n|, i requires 0 <= i < |n| => Digit(n[i]))
  }

  function Values(s: string): (n: seq<Sextet>)
    requires Text64(s)
    ensures |n| == |s|
  {
    seq(|s|, i requires 0 <= i < |s| => Sextets(s[i]))
  }

  lemma TextInverse(s: string, n: seq<Sextet>)
    ensures Values(Digits(n)) == n && (Text64(s) ==> Digits(Values(s)) == s)
  {
    forall i | 0 <= i < |n| ensures Values(Digits(n))[i] == n[i] {
      DigitsInverse(n[i], 'A');
    }
    if Text64(s) {
      forall i | 0 <= i < |s| ensures Digits(Values(s))[i] == s[i] {
        DigitsInverse(0, s[i]);
      }
    }
    hide Digit, Sextets, InAlphabet;
  }

  /** Three octets as four sextets. */
  function Quad(x: Byte, y: Byte, z: Byte): seq<Sextet> { [x / 4, x % 4 * 16 + y / 16, y % 16 * 4 + z / 64, z % 64] }

  function First(a: Sextet, b: Sextet): Byte { a * 4 + b / 16 }

  function Second(b: Sextet, c: Sextet): Byte { b % 16 * 16 + c / 4 }

  function Third(c: Sextet, d: Sextet): Byte { c % 4 * 64 + d }

  function Spread(b: Bytes): (n: seq<Sextet>)
    decreases |b|
  {
    if |b| >= 3 then Quad(b[0], b[1], b[2]) + Spread(b[3..])
    else if |b| == 2 then Quad(b[0], b[1], 0)[..3]
    else if |b| == 1 then Quad(b[0], 0, 0)[..2]
    else []
  }

  function Gather(n: seq<Sextet>): Bytes
    decreases |n|
  {
    if |n| >= 4 then [First(n[0], n[1]), Second(n[1], n[2]), Third(n[2], n[3])] + Gather(n[4..])
    else if |n| == 3 then [First(n[0], n[1]), Second(n[1], n[2])]
    else if |n| == 2 then [First(n[0], n[1])]
    else []
  }

  /** `toString('base64url')`. */
  function Encode(b: Bytes): (s: string)
    ensures Text64(s)
  {
    Digits(Spread(b))
  }

  /** `Buffer.from(_, 'base64url')`: lenient about leftover bits and a leftover digit. */
  function Decode(s: string): Bytes
    requires Text64(s)
  {
    Gather(Values(s))
  }

  /** `canonicalBase64url`. */
  function Canonical(s: string): Option<Bytes> {
    if s == "" || !Text64(s) then None else if Encode(Decode(s)) != s then None else Some(Decode(s))
  }

  lemma QuadBits(x: Byte, y: Byte, z: Byte)
    ensures var q := Quad(x, y, z); First(q[0], q[1]) == x && Second(q[1], q[2]) == y && Third(q[2], q[3]) == z
  {}

  lemma PairBits(a: Sextet, b: Sextet)
    ensures First(a, b) / 4 == a && First(a, b) % 4 == b / 16
  {}

  lemma NextBits(b: Sextet, c: Sextet)
    ensures Second(b, c) / 16 == b % 16 && Second(b, c) % 16 == c / 4
  {}

  lemma LastBits(c: Sextet, d: Sextet)
    ensures Third(c, d) / 64 == c % 4 && Third(c, d) % 64 == d
  {}

  lemma OctetBits(a: Sextet, b: Sextet, c: Sextet, d: Sextet)
    ensures Quad(First(a, b), Second(b, c), Third(c, d)) == [a, b, c, d]
    ensures Quad(First(a, b), Second(b, c), 0)[..3] == [a, b, c - c % 4]
    ensures Quad(First(a, b), 0, 0)[..2] == [a, b - b % 16]
  {
    hide First, Second, Third;
    PairBits(a, b);
    NextBits(b, c);
    LastBits(c, d);
    assert b / 16 * 16 + b % 16 == b && c / 4 * 4 + c % 4 == c;
  }

  lemma {:induction false} GatherSpread(b: Bytes)
    ensures Gather(Spread(b)) == b
    decreases |b|
  {
    hide Quad, First, Second, Third;
    if |b| >= 3 {
      QuadShape(b[0], b[1], b[2]);
      QuadBits(b[0], b[1], b[2]);
      GatherSpread(b[3..]);
      assert Spread(b)[4..] == Spread(b[3..]);
      assert b == [b[0], b[1], b[2]] + b[3..];
    } else if |b| == 2 {
      QuadShape(b[0], b[1], 0);
      QuadBits(b[0], b[1], 0);
    } else if |b| == 1 {
      QuadShape(b[0], 0, 0);
      QuadBits(b[0], 0, 0);
    }
  }

  lemma QuadShape(x: Byte, y: Byte, z: Byte)
    ensures |Quad(x, y, z)| == 4
  {}

  lemma DecodeEncode(b: Bytes)
    ensures Decode(Encode(b)) == b
  {
    hide Digits, Values, Gather, Spread;
    TextInverse("", Spread(b));
    GatherSpread(b);
  }

  /** Accepted are exactly the encodings of nonempty byte strings. */
  lemma CanonicalMeans(s: string, b: Bytes)
    ensures Canonical(s) == Some(b) <==> b != [] && s == Encode(b)
  {
    DecodeEncode(b);
    assert Spread([]) == [];
    assert b != [] ==> Spread(b) != [];
    hide Decode, Spread;
  }

  /** The leftover bits of the last digit are zero, and there is no digit too many. */
  predicate NoLeftover(n: seq<Sextet>) {
    match |n| % 4
    case 0 => true
    case 1 => false
    case 2 => n[|n| - 1] % 16 == 0
    case _ => n[|n| - 1] % 4 == 0
  }

  lemma {:induction false} SpreadGather(n: seq<Sextet>)
    ensures Spread(Gather(n)) == n <==> NoLeftover(n)
    decreases |n|
  {
    hide Quad, First, Second, Third;
    if |n| >= 4 {
      SpreadGather(n[4..]);
      OctetBits(n[0], n[1], n[2], n[3]);
      assert Gather(n)[3..] == Gather(n[4..]);
      assert |n[4..]| > 0 ==> n[4..][|n[4..]| - 1] == n[|n| - 1];
      assert n == [n[0], n[1], n[2], n[3]] + n[4..];
    } else if |n| == 3 {
      OctetBits(n[0], n[1], n[2], 0);
      assert n == [n[0], n[1], n[2]];
    } else if |n| == 2 {
      OctetBits(n[0], n[1], 0, 0);
      assert n == [n[0], n[1]];
    }
  }

  /** Section 3.5 of RFC 4648: a digit too many, or bits left over that are not zero, are refused, and nothing else. */
  lemma CanonicalWhen(s: string)
    ensures Canonical(s).Some? <==> s != "" && Text64(s) && NoLeftover(Values(s))
  {
    hide Digits, Values, Gather, Spread, NoLeftover;
    if Text64(s) {
      TextInverse(s, Spread(Decode(s)));
      SpreadGather(Values(s));
    }
  }

  /** The alphabet of section 5 of RFC 4648: upper case, lower case, digits, minus and underscore, in this order. */
  lemma Alphabet(n: Sextet)
    ensures Digit(0) == 'A' && Digit(25) == 'Z' && Digit(26) == 'a' && Digit(51) == 'z' && Digit(52) == '0' && Digit(61) == '9'
    ensures Digit(62) == '-' && Digit(63) == '_'
    ensures n < 61 && n != 25 && n != 51 ==> Digit(n + 1) == Digit(n) + 1 as char
  {}

  function OrZero(s: seq<int>, i: nat): int { if i < |s| then s[i] else 0 }

  /** Three octets as one number, and four sextets as one. */
  function ThreeOctets(b: seq<int>, i: nat): int { 65536 * OrZero(b, i) + 256 * OrZero(b, i + 1) + OrZero(b, i + 2) }

  function FourDigits(n: seq<int>, i: nat): int {
    262144 * OrZero(n, i) + 4096 * OrZero(n, i + 1) + 64 * OrZero(n, i + 2) + OrZero(n, i + 3)
  }

  lemma QuadNumber(x: Byte, y: Byte, z: Byte)
    ensures FourDigits(Quad(x, y, z), 0) == ThreeOctets([x, y, z], 0)
  {}

  lemma {:induction false} SpreadGroup(b: Bytes, g: nat)
    requires 3 * g < |b|
    ensures |Spread(b)| == (4 * |b| + 2) / 3 && FourDigits(Spread(b), 4 * g) == ThreeOctets(b, 3 * g)
    decreases |b|
  {
    if |b| >= 3 {
      hide Quad;
      QuadShape(b[0], b[1], b[2]);
      SpreadLength(b[3..]);
      if g > 0 {
        SpreadGroup(b[3..], g - 1);
        LaterGroups(b, g);
      } else {
        QuadNumber(b[0], b[1], b[2]);
      }
    } else if |b| == 2 {
      QuadNumber(b[0], b[1], 0);
    } else {
      QuadNumber(b[0], 0, 0);
    }
  }

  lemma Shifted(front: seq<int>, rest: seq<int>, k: nat)
    ensures OrZero(front + rest, |front| + k) == OrZero(rest, k)
  {}

  lemma OctetsShifted(front: seq<int>, rest: seq<int>, k: nat)
    ensures ThreeOctets(front + rest, |front| + k) == ThreeOctets(rest, k)
  {
    hide OrZero;
    Shifted(front, rest, k);
    Shifted(front, rest, k + 1);
    Shifted(front, rest, k + 2);
  }

  lemma DigitsShifted(front: seq<int>, rest: seq<int>, k: nat)
    ensures FourDigits(front + rest, |front| + k) == FourDigits(rest, k)
  {
    hide OrZero;
    Shifted(front, rest, k);
    Shifted(front, rest, k + 1);
    Shifted(front, rest, k + 2);
    Shifted(front, rest, k + 3);
  }

  lemma SpreadMore(b: Bytes)
    requires |b| >= 3
    ensures Spread(b) == Quad(b[0], b[1], b[2]) + Spread(b[3..]) && |Quad(b[0], b[1], b[2])| == 4
  {
    QuadShape(b[0], b[1], b[2]);
    hide Quad;
  }

  lemma LaterGroups(b: Bytes, g: nat)
    requires |b| >= 3 && g > 0
    ensures FourDigits(Spread(b), 4 * g) == FourDigits(Spread(b[3..]), 4 * (g - 1))
    ensures ThreeOctets(b, 3 * g) == ThreeOctets(b[3..], 3 * (g - 1))
  {
    hide Quad, FourDigits, ThreeOctets, Spread;
    SpreadMore(b);
    var i, j, front, rest := 3 * (g - 1), 4 * (g - 1), b[..3], b[3..];
    DigitsShifted(Quad(b[0], b[1], b[2]), Spread(rest), j);
    OctetsShifted(front, rest, i);
    assert b == front + rest && |front| == 3;
    assert 4 + j == 4 * g && 3 + i == 3 * g;
  }

  lemma {:induction false} SpreadLength(b: Bytes)
    ensures |Spread(b)| == (4 * |b| + 2) / 3
    decreases |b|
  {
    hide Quad;
    if |b| >= 3 {
      QuadShape(b[0], b[1], b[2]);
      SpreadLength(b[3..]);
    } else if |b| == 2 {
      QuadShape(b[0], b[1], 0);
    } else if |b| == 1 {
      QuadShape(b[0], 0, 0);
    }
  }

  /** Section 4 of RFC 4648: every three octets are one number, written as four digits of base 64; at the end zero
      bits pad what is left over, and nothing else is written. */
  lemma EncodeGroup(b: Bytes, g: nat)
    requires 3 * g < |b|
    ensures var s := Encode(b);
            |s| == (4 * |b| + 2) / 3 && s == Digits(Values(s)) && FourDigits(Values(s), 4 * g) == ThreeOctets(b, 3 * g)
  {
    hide Digits, Values, Spread, FourDigits, ThreeOctets;
    TextInverse("", Spread(b));
    SpreadGroup(b, g);
  }

  // ----- numbers

  function BigEndian(n: nat, k: nat): (b: Bytes)
    ensures |b| == k
  {
    if k == 0 then [] else BigEndian(n / 256, k - 1) + [n % 256]
  }

  function FromBigEndian(b: Bytes): nat {
    if b == [] then 0 else 256 * FromBigEndian(b[..|b| - 1]) + b[|b| - 1]
  }

  function Power256(k: nat): nat { if k == 0 then 1 else 256 * Power256(k - 1) }

  lemma {:induction false} BigEndianBack(n: nat, k: nat)
    requires n < Power256(k)
    ensures FromBigEndian(BigEndian(n, k)) == n
  {
    if k > 0 {
      BigEndianBack(n / 256, k - 1);
      assert BigEndian(n, k)[..k - 1] == BigEndian(n / 256, k - 1);
    }
  }

  lemma {:induction false} FromBigEndianBack(b: Bytes)
    ensures BigEndian(FromBigEndian(b), |b|) == b
  {
    if b != [] {
      FromBigEndianBack(b[..|b| - 1]);
      assert b == b[..|b| - 1] + [b[|b| - 1]];
    }
  }

  lemma Quotient(n: int, d: int, q: int, r: int)
    requires d > 0 && n == d * q + r && 0 <= r < d
    ensures n / d == q
  {
    var e := n / d - q;
    assert d * e == r - n % d;
    assert e >= 1 ==> d * e >= d;
    assert e <= -1 ==> d * e <= -d;
  }

  lemma DivTwice(n: nat, a: nat, b: nat)
    requires a > 0 && b > 0
    ensures a * b > 0 && n / (a * b) == n / a / b
  {
    var q, r := n / a, n % a;
    var p, t := q / b, q % b;
    assert n == a * q + r && q == b * p + t;
    Regroup(a, b, p, t);
    Quotient(n, a * b, p, a * t + r);
  }

  lemma Regroup(a: nat, b: nat, p: int, t: int)
    requires a > 0 && b > 0 && 0 <= t < b
    ensures a * b > 0 && a * (b * p + t) == (a * b) * p + a * t && 0 <= a * t <= a * b - a
  {
    assert a * t <= a * (b - 1);
  }

  /** The most significant octet comes first. */
  lemma {:induction false} BigEndianDigit(n: nat, k: nat, i: nat)
    requires i < k
    ensures Power256(k - 1 - i) > 0 && BigEndian(n, k)[i] == n / Power256(k - 1 - i) % 256
  {
    if i < k - 1 {
      BigEndianDigit(n / 256, k - 1, i);
      DivTwice(n, 256, Power256(k - 2 - i));
      assert Power256(k - 1 - i) == 256 * Power256(k - 2 - i);
    }
  }

  lemma SafeFits()
    ensures SAFE < Power256(8)
  {
    assert Power256(8) == 256 * (256 * (256 * (256 * (256 * (256 * (256 * (256 * 1)))))));
  }

  /** Converting to a double is exact up to 2^53 and never reverses an order. */
  ghost predicate Rounds(round: nat -> nat) {
    (forall n: nat | n <= SAFE :: round(n) == n) && forall m: nat, n: nat :: m <= n ==> round(m) <= round(n)
  }

  predicate SafePositive(n: int) { 0 < n < SAFE }

  // ----- the frame

  datatype Envelope = Envelope(ciphertext: string, keyVersion: int, tag: string)

  function FrameBytes(keyVersion: nat, ciphertext: Bytes, tag: Bytes): Bytes {
    [FRAME_VERSION] + BigEndian(keyVersion, 8) + ciphertext + tag
  }

  /** `frameBackupProtectedSecretEnvelope`. */
  function Frame(e: Envelope): Option<string> {
    var ciphertext, tag := Canonical(e.ciphertext), Canonical(e.tag);
    if !SafePositive(e.keyVersion) || ciphertext.None? || tag.None? || |ciphertext.value| == 0 || |tag.value| != TAG_BYTES
    then None
    else Some(Encode(FrameBytes(e.keyVersion, ciphertext.value, tag.value)))
  }

  /** `unframeBackupProtectedSecretEnvelope`. */
  function Unframe(round: nat -> nat, s: string): Option<Envelope> {
    match Canonical(s)
    case None => None
    case Some(frame) =>
      if |frame| <= HEADER_BYTES + TAG_BYTES || frame[0] != FRAME_VERSION then None
      else
        var keyVersion := round(FromBigEndian(frame[1..HEADER_BYTES]));
        if !SafePositive(keyVersion) then None
        else Some(Envelope(Encode(frame[HEADER_BYTES..|frame| - TAG_BYTES]), keyVersion, Encode(frame[|frame| - TAG_BYTES..])))
  }

  lemma FrameParts(keyVersion: nat, ciphertext: Bytes, tag: Bytes)
    requires |tag| == TAG_BYTES
    ensures var f := FrameBytes(keyVersion, ciphertext, tag);
            && |f| == HEADER_BYTES + |ciphertext| + TAG_BYTES && f[0] == FRAME_VERSION
            && f[1..HEADER_BYTES] == BigEndian(keyVersion, 8) && f[HEADER_BYTES..|f| - TAG_BYTES] == ciphertext
            && f[|f| - TAG_BYTES..] == tag
  {
    hide BigEndian;
  }

  lemma EightOctets(n: nat)
    ensures BigEndian(n, 8)
            == [n / 0x100_0000_0000_0000 % 256, n / 0x1_0000_0000_0000 % 256, n / 0x100_0000_0000 % 256,
                n / 0x1_0000_0000 % 256, n / 0x100_0000 % 256, n / 0x1_0000 % 256, n / 0x100 % 256, n % 256]
  {
    Powers();
    hide BigEndian, Power256;
    BigEndianDigit(n, 8, 0);
    BigEndianDigit(n, 8, 1);
    BigEndianDigit(n, 8, 2);
    BigEndianDigit(n, 8, 3);
    BigEndianDigit(n, 8, 4);
    BigEndianDigit(n, 8, 5);
    BigEndianDigit(n, 8, 6);
    BigEndianDigit(n, 8, 7);
  }

  lemma Powers()
    ensures Power256(0) == 1 && Power256(1) == 0x100 && Power256(2) == 0x1_0000 && Power256(3) == 0x100_0000
    ensures Power256(4) == 0x1_0000_0000 && Power256(5) == 0x100_0000_0000 && Power256(6) == 0x1_0000_0000_0000
    ensures Power256(7) == 0x100_0000_0000_0000
  {
    assert Power256(1) == 256 * Power256(0);
    assert Power256(2) == 256 * Power256(1);
    assert Power256(3) == 256 * Power256(2);
    assert Power256(4) == 256 * Power256(3);
    assert Power256(5) == 256 * Power256(4);
    assert Power256(6) == 256 * Power256(5);
    assert Power256(7) == 256 * Power256(6);
  }

  /** The frame octet by octet: version one, the key version with its most significant octet first, the ciphertext,
      the tag. */
  lemma FrameLayout(e: Envelope) returns (f: Bytes)
    requires Frame(e).Some?
    ensures var n := e.keyVersion;
            && Frame(e) == Some(Encode(f)) && |f| >= 9
            && f[..9] == [1, n / 0x100_0000_0000_0000 % 256, n / 0x1_0000_0000_0000 % 256, n / 0x100_0000_0000 % 256,
                          n / 0x1_0000_0000 % 256, n / 0x100_0000 % 256, n / 0x1_0000 % 256, n / 0x100 % 256, n % 256]
            && f[9..] == Canonical(e.ciphertext).value + Canonical(e.tag).value
  {
    hide Encode, Canonical, BigEndian;
    EightOctets(e.keyVersion);
    f := FrameBytes(e.keyVersion, Canonical(e.ciphertext).value, Canonical(e.tag).value);
    assert f == ([FRAME_VERSION] + BigEndian(e.keyVersion, 8)) + (Canonical(e.ciphertext).value + Canonical(e.tag).value);
  }

  lemma FrameWhole(f: Bytes)
    requires |f| > HEADER_BYTES + TAG_BYTES && f[0] == FRAME_VERSION
    ensures f == FrameBytes(FromBigEndian(f[1..HEADER_BYTES]), f[HEADER_BYTES..|f| - TAG_BYTES], f[|f| - TAG_BYTES..])
  {
    FromBigEndianBack(f[1..HEADER_BYTES]);
    hide BigEndian, FromBigEndian;
    assert f == f[..1] + f[1..HEADER_BYTES] + f[HEADER_BYTES..|f| - TAG_BYTES] + f[|f| - TAG_BYTES..];
  }

  /** Unframing undoes framing, on every envelope that can be framed. */
  lemma UnframeFrame(round: nat -> nat, e: Envelope)
    requires Rounds(round) && Frame(e).Some?
    ensures Unframe(round, Frame(e).value) == Some(e)
  {
    hide Encode, Canonical, FrameBytes, BigEndian, FromBigEndian, Power256;
    var ciphertext, tag := Canonical(e.ciphertext).value, Canonical(e.tag).value;
    var f := FrameBytes(e.keyVersion, ciphertext, tag);
    FrameParts(e.keyVersion, ciphertext, tag);
    CanonicalMeans(Encode(f), f);
    CanonicalMeans(e.ciphertext, ciphertext);
    CanonicalMeans(e.tag, tag);
    SafeFits();
    BigEndianBack(e.keyVersion, 8);
  }

  /** Framing undoes unframing, on every string that is accepted. */
  lemma FrameUnframe(round: nat -> nat, s: string)
    requires Rounds(round) && Unframe(round, s).Some?
    ensures Frame(Unframe(round, s).value) == Some(s)
  {
    hide Encode, Canonical, FrameBytes, BigEndian, FromBigEndian;
    var f := Canonical(s).value;
    var ciphertext, tag := f[HEADER_BYTES..|f| - TAG_BYTES], f[|f| - TAG_BYTES..];
    CanonicalMeans(s, f);
    CanonicalMeans(Encode(ciphertext), ciphertext);
    CanonicalMeans(Encode(tag), tag);
    FrameWhole(f);
    ExactKey(round, FromBigEndian(f[1..HEADER_BYTES]));
  }

  lemma ExactKey(round: nat -> nat, n: nat)
    requires Rounds(round)
    ensures SafePositive(round(n)) <==> SafePositive(n)
    ensures n < SAFE ==> round(n) == n
  {
    if n >= SAFE {
      assert round(SAFE) <= round(n);
    }
  }

  /** A string is accepted exactly when it is canonical and holds a version octet of one, a key version from 1 to
      2^53 - 1, a nonempty ciphertext and a tag: no larger key version is ever accepted. */
  lemma AcceptedWhen(round: nat -> nat, s: string)
    requires Rounds(round)
    ensures Unframe(round, s).Some? <==>
              exists keyVersion: nat, ciphertext: Bytes, tag: Bytes ::
                SafePositive(keyVersion) && ciphertext != [] && |tag| == TAG_BYTES
                && s == Encode(FrameBytes(keyVersion, ciphertext, tag))
  {
    hide Encode, Canonical, FrameBytes, BigEndian, FromBigEndian, Power256;
    if Unframe(round, s).Some? {
      var f := Canonical(s).value;
      CanonicalMeans(s, f);
      FrameWhole(f);
      var n := FromBigEndian(f[1..HEADER_BYTES]);
      ExactKey(round, n);
      assert SafePositive(n) && s == Encode(FrameBytes(n, f[HEADER_BYTES..|f| - TAG_BYTES], f[|f| - TAG_BYTES..]));
    }
    if keyVersion: nat, ciphertext: Bytes, tag: Bytes :|
         SafePositive(keyVersion) && ciphertext != [] && |tag| == TAG_BYTES && s == Encode(FrameBytes(keyVersion, ciphertext, tag)) {
      var f := FrameBytes(keyVersion, ciphertext, tag);
      FrameParts(keyVersion, ciphertext, tag);
      CanonicalMeans(s, f);
      SafeFits();
      BigEndianBack(keyVersion, 8);
    }
  }

  /** The framing as the source does it: a buffer filled field by field. */
  method FrameEnvelope(e: Envelope) returns (r: Option<string>)
    ensures r == Frame(e)
  {
    hide Canonical, Encode, FrameBytes;
    if !SafePositive(e.keyVersion) { return None; }
    var ciphertext, tag := Canonical(e.ciphertext), Canonical(e.tag);
    if ciphertext.None? || tag.None? { return None; }
    if |ciphertext.value| == 0 || |tag.value| != TAG_BYTES { return None; }
    var filled := FillFrame(e.keyVersion, ciphertext.value, tag.value);
    r := Some(filled);
  }

  method FillFrame(keyVersion: nat, ciphertext: Bytes, tag: Bytes) returns (r: string)
    ensures r == Encode(FrameBytes(keyVersion, ciphertext, tag))
  {
    hide BigEndian, Encode;
    var middle := HEADER_BYTES + |ciphertext|;
    var frame := new Byte[middle + |tag|];
    frame[0] := FRAME_VERSION;
    assert frame[..1] == [FRAME_VERSION];
    WriteBigUInt64(frame, keyVersion, 1);
    assert frame[..HEADER_BYTES] == frame[..1] + frame[1..1 + 8];
    assert frame[..1] == [FRAME_VERSION];
    CopyInto(ciphertext, frame, HEADER_BYTES);
    assert frame[..middle] == frame[..HEADER_BYTES] + frame[HEADER_BYTES..middle];
    CopyInto(tag, frame, middle);
    assert frame[..] == frame[..middle] + frame[middle..middle + |tag|];
    r := Encode(frame[..]);
  }

  /** `writeBigUInt64BE`, from the last octet to the first. */
  method WriteBigUInt64(frame: array<Byte>, n: nat, at: nat)
    requires at + 8 <= frame.Length
    modifies frame
    ensures frame[at..at + 8] == BigEndian(n, 8)
    ensures frame[..at] == old(frame[..at]) && frame[at + 8..] == old(frame[at + 8..])
  {
    var rest, k := n, 8;
    while k > 0
      invariant 0 <= k <= 8 && BigEndian(n, 8) == BigEndian(rest, k) + frame[at + k..at + 8]
      invariant frame[..at] == old(frame[..at]) && frame[at + 8..] == old(frame[at + 8..])
    {
      ghost var tail := frame[at + k..at + 8];
      frame[at + k - 1] := rest % 256;
      assert frame[at + k - 1..at + 8] == [rest % 256] + tail;
      rest, k := rest / 256, k - 1;
    }
  }

  method CopyInto(from: Bytes, frame: array<Byte>, at: nat)
    requires at + |from| <= frame.Length
    modifies frame
    ensures frame[at..at + |from|] == from
    ensures frame[..at] == old(frame[..at]) && frame[at + |from|..] == old(frame[at + |from|..])
  {
    for i := 0 to |from|
      invariant frame[at..at + i] == from[..i]
      invariant frame[..at] == old(frame[..at]) && frame[at + |from|..] == old(frame[at + |from|..])
    {
      frame[at + i] := from[i];
      assert frame[at..at + i + 1] == frame[at..at + i] + [from[i]];
    }
  }
}
