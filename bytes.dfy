/** Byte-level values shared by the whole model: an optional value, the byte
    type, network-order (big-endian) two's-complement integer codecs as used by
    the buffer's int8/16/32 helpers, and the decimal rendering that `snprintf`'s
    `%d` produces for the connection-name suffix. */
module Bytes {

  datatype Option<T> = None | Some(value: T)

  /** One octet of a `std::vector<char>`, taken as unsigned. */
  type Byte = b: int | 0 <= b < 256

  /** 256 to the power `w`: the number of distinct `w`-byte values. */
  function Pow256(w: nat): (p: nat)
    ensures p >= 1
  {
    if w == 0 then 1 else 256 * Pow256(w - 1)
  }

  /** `x` fits a signed integer of `w` bytes (int8_t, int16_t, int32_t). */
  predicate FitsSigned(x: int, w: nat)
  {
    -(Pow256(w) / 2) <= x < Pow256(w) / 2
  }

  /** Unsigned `u` written in `w` bytes, most significant byte first. */
  function BigEndian(u: nat, w: nat): (s: seq<Byte>)
    requires u < Pow256(w)
    ensures |s| == w
  {
    if w == 0 then [] else BigEndian(u / 256, w - 1) + [u % 256]
  }

  /** The unsigned value of bytes read most significant first. */
  function FromBigEndian(s: seq<Byte>): (u: nat)
    ensures u < Pow256(|s|)
  {
    if s == [] then 0 else FromBigEndian(s[..|s| - 1]) * 256 + s[|s| - 1]
  }

  lemma {:induction false} FromBigEndianOfBigEndian(u: nat, w: nat)
    requires u < Pow256(w)
    ensures FromBigEndian(BigEndian(u, w)) == u
  {
    if w > 0 {
      var s := BigEndian(u, w);
      assert s[..|s| - 1] == BigEndian(u / 256, w - 1);
      FromBigEndianOfBigEndian(u / 256, w - 1);
    }
  }

  lemma {:induction false} BigEndianOfFromBigEndian(s: seq<Byte>)
    ensures BigEndian(FromBigEndian(s), |s|) == s
  {
    if s != [] {
      var init := s[..|s| - 1];
      var u := FromBigEndian(s);
      assert u / 256 == FromBigEndian(init) && u % 256 == s[|s| - 1];
      BigEndianOfFromBigEndian(init);
      assert s == init + [s[|s| - 1]];
    }
  }

  /** `hostToNetworkN(x)` laid out in memory: the two's-complement of the signed
      value `x` in `w` bytes, in network byte order. */
  function EncodeSigned(x: int, w: nat): (s: seq<Byte>)
    requires FitsSigned(x, w)
    ensures |s| == w
  {
    BigEndian(if x < 0 then x + Pow256(w) else x, w)
  }

  /** `networkToHostN` applied to `w = |s|` bytes copied out of the buffer. */
  function DecodeSigned(s: seq<Byte>): (x: int)
    requires |s| > 0
    ensures FitsSigned(x, |s|)
  {
    PowHalves(|s|);
    var u := FromBigEndian(s);
    if u >= Pow256(|s|) / 2 then u - Pow256(|s|) else u
  }

  lemma PowHalves(w: nat)
    requires w > 0
    ensures Pow256(w) == 2 * (Pow256(w) / 2)
  {
  }

  /** Writing a signed value and reading it back yields the value, negative ones included. */
  lemma DecodeEncodeSigned(x: int, w: nat)
    requires FitsSigned(x, w)
    ensures DecodeSigned(EncodeSigned(x, w)) == x
  {
    var u := if x < 0 then x + Pow256(w) else x;
    FromBigEndianOfBigEndian(u, w);
  }

  /** Every byte pattern is the encoding of the value it decodes to. */
  lemma EncodeDecodeSigned(s: seq<Byte>)
    requires |s| > 0
    ensures EncodeSigned(DecodeSigned(s), |s|) == s
  {
    BigEndianOfFromBigEndian(s);
  }

  /** The digit characters of `n` as printed by `%d`. */
  function Decimal(n: nat): (s: string)
    ensures |s| >= 1
    ensures forall i :: 0 <= i < |s| ==> '0' <= s[i] <= '9'
    ensures n < 10 <==> |s| == 1
  {
    if n < 10 then [DigitChar(n)] else Decimal(n / 10) + [DigitChar(n % 10)]
  }

  function DigitChar(d: nat): (c: char)
    requires d < 10
    ensures '0' <= c <= '9'
  {
    ('0' as int + d) as char
  }

  /** Distinct numbers print differently. */
  lemma {:induction false} DecimalInjective(a: nat, b: nat)
    requires Decimal(a) == Decimal(b)
    ensures a == b
  {
    if a >= 10 && b >= 10 {
      var da, db := Decimal(a), Decimal(b);
      assert da[|da| - 1] == DigitChar(a % 10) && db[|db| - 1] == DigitChar(b % 10);
      assert da[..|da| - 1] == Decimal(a / 10) && db[..|db| - 1] == Decimal(b / 10);
      DecimalInjective(a / 10, b / 10);
    }
  }

  /** Sequence concatenation regroups; stated once so that proofs about
      appended logs can name the step. */
  lemma Associative<T>(a: seq<T>, b: seq<T>, c: seq<T>)
    ensures a + b + c == a + (b + c)
  {
  }
}
