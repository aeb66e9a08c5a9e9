/**
 * The bit-banged DHT11 reader: forty pulses become forty bits, five bytes
 * are decoded most significant bit first, and the reading is accepted only
 * when the checksum byte matches. The duration of the `j`-th high pulse,
 * which the source measures with the clock, is the parameter `pulse(j)`.
 */
module Dht11 {
  import opened Wrappers

  const FrameBits := 40
  /** A high pulse longer than this many seconds is a 1. */
  const OneThreshold: real := 0.00005

  /** The result: `(humidity, temperature)`, both `None` on failure. */
  datatype DhtReading = DhtReading(humidity: Option<int>, temperature: Option<int>)

  /** A bit as the loop appends it. */
  type Bit = b: int | b == 0 || b == 1

  function Pow2(e: nat): (p: nat)
    ensures p >= 1
  {
    if e == 0 then 1 else 2 * Pow2(e - 1)
  }

  /** The bits of the first forty pulses: a pulse longer than the threshold
      is a 1, any other a 0. */
  function PulseBits(pulse: nat -> real): (bits: seq<Bit>)
    ensures |bits| == FrameBits
    ensures forall i :: 0 <= i < FrameBits ==> (bits[i] == 1 <==> pulse(i) > OneThreshold)
  {
    seq(FrameBits, i requires 0 <= i => if pulse(i) > OneThreshold then 1 else 0)
  }

  /** The collecting loop: one bit per pulse until forty are in. */
  method CollectBits(pulse: nat -> real) returns (data: seq<Bit>)
    ensures data == PulseBits(pulse)
  {
    data := [];
    var j := 0;
    while j < FrameBits
      invariant 0 <= j <= FrameBits && |data| == j
      invariant forall i :: 0 <= i < j ==> (data[i] == 1 <==> pulse(i) > OneThreshold)
    {
      var duration := pulse(j);
      if duration > OneThreshold {
        data := data + [1];
      } else {
        data := data + [0];
      }
      j := j + 1;
    }
  }

  /** `sum(bits[i] * 2 ** (k - 1 - i))` over the `k` bits. */
  function MsbValue(bits: seq<Bit>): nat {
    if bits == [] then 0 else bits[0] * Pow2(|bits| - 1) + MsbValue(bits[1..])
  }

  /** Bits read most significant first make a number below `2^k`. */
  lemma {:induction false} MsbValueRange(bits: seq<Bit>)
    ensures MsbValue(bits) < Pow2(|bits|)
  {
    if bits != [] {
      MsbValueRange(bits[1..]);
    }
  }

  /** The `k` bits of `v`, most significant first. */
  function BitsOf(v: nat, k: nat): (bits: seq<Bit>)
    ensures |bits| == k
  {
    if k == 0 then [] else [(v / Pow2(k - 1)) % 2] + BitsOf(v % Pow2(k - 1), k - 1)
  }

  /** Below `2p`, the quotient by `p` is one bit. */
  lemma QuotientBit(v: nat, p: nat)
    requires 0 < p && v < 2 * p
    ensures v / p == 0 || v / p == 1
  {
    assert v == (v / p) * p + v % p;
  }

  /** `b * p + rest` with `rest < p` divides back into `b` and `rest`. */
  lemma DivideBack(b: Bit, p: nat, rest: nat)
    requires rest < p
    ensures (b * p + rest) / p == b && (b * p + rest) % p == rest
  {
    if b == 0 {
      assert b * p + rest == rest;
    } else {
      assert b * p + rest == p + rest;
    }
  }

  /** Writing a number below `2^k` as `k` bits and reading them back gives
      the number. */
  lemma {:induction false} MsbValueBitsOf(v: nat, k: nat)
    requires v < Pow2(k)
    ensures MsbValue(BitsOf(v, k)) == v
  {
    if k > 0 {
      var p := Pow2(k - 1);
      QuotientBit(v, p);
      MsbValueBitsOf(v % p, k - 1);
      var bits := BitsOf(v, k);
      assert bits[0] == v / p && bits[1..] == BitsOf(v % p, k - 1);
      assert v == (v / p) * p + v % p;
    }
  }

  /** And reading bits and writing the number back gives the bits. */
  lemma {:induction false} BitsOfMsbValue(bits: seq<Bit>)
    ensures BitsOf(MsbValue(bits), |bits|) == bits
  {
    if bits != [] {
      var p := Pow2(|bits| - 1);
      var rest := MsbValue(bits[1..]);
      MsbValueRange(bits[1..]);
      BitsOfMsbValue(bits[1..]);
      DivideBack(bits[0], p, rest);
      assert BitsOf(MsbValue(bits), |bits|) == [bits[0]] + bits[1..];
    }
  }

  /** The decoding step: bytes 0, 2 and 4 are the humidity, the temperature
      and the checksum; bytes 1 and 3 are read but not used. */
  function Decode(data: seq<Bit>): (r: DhtReading)
    ensures r.humidity.Some? <==> r.temperature.Some?
    ensures r.humidity.Some? ==> (|data| == FrameBits
      && r.humidity.value == MsbValue(data[0..8])
      && r.temperature.value == MsbValue(data[16..24])
      && MsbValue(data[32..40]) == (r.humidity.value + r.temperature.value) % 256)
    ensures |data| == FrameBits && MsbValue(data[32..40]) == (MsbValue(data[0..8]) + MsbValue(data[16..24])) % 256
      ==> r.humidity.Some?
  {
    if |data| == FrameBits then
      var humidity := MsbValue(data[0..8]);
      var temperature := MsbValue(data[16..24]);
      var checksum := MsbValue(data[32..40]);
      if checksum == (humidity + temperature) % 256 then DhtReading(Some(humidity), Some(temperature))
      else DhtReading(None, None)
    else DhtReading(None, None)
  }

  /** An accepted reading holds two byte values. */
  lemma DecodedBytes(data: seq<Bit>)
    ensures var r := Decode(data);
      r.humidity.Some? ==> 0 <= r.humidity.value <= 255 && 0 <= r.temperature.value <= 255
  {
    if |data| == FrameBits {
      MsbValueRange(data[0..8]);
      MsbValueRange(data[16..24]);
    }
  }

  /** The frame a sensor sends: humidity, its decimal byte, temperature, its
      decimal byte, and a checksum byte. */
  function Frame(humidity: nat, humidityDec: nat, temperature: nat, temperatureDec: nat, checksum: nat): seq<Bit> {
    BitsOf(humidity, 8) + BitsOf(humidityDec, 8) + BitsOf(temperature, 8) + BitsOf(temperatureDec, 8)
      + BitsOf(checksum, 8)
  }

  lemma Pow2Byte()
    ensures Pow2(8) == 256
  {
    assert Pow2(4) == 16;
  }

  /** The five bytes of forty bits sit at bits 0, 8, 16, 24 and 32. */
  lemma ByteSlices(a: seq<Bit>, b: seq<Bit>, c: seq<Bit>, d: seq<Bit>, e: seq<Bit>)
    requires |a| == 8 && |b| == 8 && |c| == 8 && |d| == 8 && |e| == 8
    ensures var f := a + b + c + d + e;
      |f| == FrameBits && f[0..8] == a && f[16..24] == c && f[32..40] == e
  {
    var f := a + b + c + d + e;
    assert f[0..8] == (a + b)[0..8];
    assert f[16..24] == (a + b + c)[16..24];
  }

  /** A frame whose checksum is the sum of the integral bytes decodes to
      those bytes, whatever the decimal bytes hold; any other checksum byte
      is refused. */
  lemma FrameRoundTrip(humidity: nat, humidityDec: nat, temperature: nat, temperatureDec: nat, checksum: nat)
    requires humidity < 256 && temperature < 256 && checksum < 256
    ensures var r := Decode(Frame(humidity, humidityDec, temperature, temperatureDec, checksum));
      if checksum == (humidity + temperature) % 256 then r == DhtReading(Some(humidity), Some(temperature))
      else r == DhtReading(None, None)
  {
    ByteSlices(BitsOf(humidity, 8), BitsOf(humidityDec, 8), BitsOf(temperature, 8),
      BitsOf(temperatureDec, 8), BitsOf(checksum, 8));
    Pow2Byte();
    MsbValueBitsOf(humidity, 8);
    MsbValueBitsOf(temperature, 8);
    MsbValueBitsOf(checksum, 8);
  }

  /** `read_dht11`, after the start signal: collect forty bits, then decode. */
  method ReadDht11(pulse: nat -> real) returns (r: DhtReading)
    ensures r == Decode(PulseBits(pulse))
  {
    var data := CollectBits(pulse);
    r := Decode(data);
  }
}
