/** Bit-level access to report payloads: `read_bits_` of hid_parser.cpp and its inverse. */
module Bits {
  import opened Integers

  /** Bit `k` of a payload, least significant bit of byte 0 first. */
  predicate BitAt(data: seq<uint8>, k: nat)
    requires k < 8 * |data|
  {
    (data[k / 8] / Pow2(k % 8)) % 2 == 1
  }

  function BitSlice(data: seq<uint8>, offset: nat, size: nat): (bits: seq<bool>)
    requires offset + size <= 8 * |data|
  {
    seq(size, i requires 0 <= i < size => BitAt(data, offset + i))
  }

  function FromBits(bits: seq<bool>): nat {
    if bits == [] then 0 else (if bits[0] then 1 else 0) + 2 * FromBits(bits[1..])
  }

  /** The low `n` bits of a number in two's complement, least significant first. */
  function ToBits(v: int, n: nat): (bits: seq<bool>)
    ensures |bits| == n
    decreases n
  {
    if n == 0 then [] else [v % 2 == 1] + ToBits(v / 2, n - 1)
  }

  /** A bit string as bytes; the last byte is padded with zero bits. */
  function BytesOf(bits: seq<bool>): (data: seq<uint8>)
    ensures |data| == (|bits| + 7) / 8
  {
    seq((|bits| + 7) / 8, j requires 0 <= j < (|bits| + 7) / 8 => ByteOf(bits, j))
  }

  function ByteOf(bits: seq<bool>, j: nat): uint8 {
    var octet := seq(8, i requires 0 <= i < 8 => 8 * j + i < |bits| && bits[8 * j + i]);
    FromBitsBound(octet);
    Pow2Values();
    FromBits(octet)
  }

  /** The casts at the end of `read_bits_`: sign extension to 32 bits, then int32. */
  function Widen(raw: nat, size: nat, signedValue: bool): int
    requires 1 <= size <= 32 && raw < Pow2(size)
  {
    Pow2Monotone(size, 32);
    Pow2Values();
    var extended := if signedValue && size < 32 && (raw / Pow2(size - 1)) % 2 == 1
                    then raw + (0x1_0000_0000 - Pow2(size)) else raw;
    if signedValue then AsInt32(extended) else extended
  }

  /** The value that `read_bits_` delivers, or None when it reports failure. */
  function ReadField(data: seq<uint8>, offset: nat, size: nat, signedValue: bool): Option<int> {
    if size == 0 || size > 32 || offset > 8 * |data| || size > 8 * |data| - offset then None
    else
      var bits := BitSlice(data, offset, size);
      FromBitsBound(bits);
      Some(Widen(FromBits(bits), size, signedValue))
  }

  predicate Fits(v: int, size: nat, signedValue: bool)
    requires size >= 1
  {
    if signedValue then 0 - Pow2(size - 1) <= v < Pow2(size - 1) else 0 <= v < Pow2(size)
  }

  lemma {:induction false} FromBitsBound(bits: seq<bool>)
    ensures FromBits(bits) < Pow2(|bits|)
  {
    if bits != [] {
      FromBitsBound(bits[1..]);
    }
  }

  lemma {:induction false} FromBitsAppend(bits: seq<bool>, b: bool)
    ensures FromBits(bits + [b]) == FromBits(bits) + (if b then Pow2(|bits|) else 0)
  {
    if bits == [] {
      assert bits + [b] == [b];
      assert FromBits([b][1..]) == 0;
    } else {
      FromBitsAppend(bits[1..], b);
      assert (bits + [b])[1..] == bits[1..] + [b];
    }
  }

  lemma ModuloSplit(v: int, b: nat, p: nat)
    requires b > 0 && p > 0
    ensures b * p > 0
    ensures v % (b * p) == v % b + b * ((v / b) % p)
  {
    var q, r := (v / b) / p, (v / b) % p;
    var rest := b * r + v % b;
    assert v == b * (q * p + r) + v % b;
    assert b * (q * p + r) == q * (b * p) + b * r;
    assert b * r <= b * (p - 1);
    assert 0 <= b * r;
    assert b * (p - 1) == b * p - b;
    ModuloUnique(v, b * p, q, rest);
  }

  lemma ModuloUnique(v: int, m: nat, q: int, r: int)
    requires m > 0 && v == q * m + r && 0 <= r < m
    ensures v % m == r && v / m == q
  {
    var d := q - v / m;
    assert d * m == v % m - r by {
      assert v == (v / m) * m + v % m;
      assert d * m == q * m - (v / m) * m;
    }
    MultipleIsFar(d, m);
  }

  lemma MultipleIsFar(d: int, m: int)
    requires m > 0
    ensures d >= 1 ==> d * m >= m
    ensures d <= -1 ==> d * m <= 0 - m
  {
    if d >= 1 {
      assert d * m == (d - 1) * m + m;
    } else if d <= -1 {
      assert d * m == (d + 1) * m - m;
    }
  }

  /** Packing a number into `n` bits and reading the bits keeps it modulo 2^n. */
  lemma {:induction false} FromToBits(v: int, n: nat)
    ensures FromBits(ToBits(v, n)) == v % Pow2(n)
    decreases n
  {
    if n > 0 {
      FromToBits(v / 2, n - 1);
      ModuloSplit(v, 2, Pow2(n - 1));
    }
  }

  lemma {:induction false} ToFromBits(bits: seq<bool>)
    ensures ToBits(FromBits(bits), |bits|) == bits
  {
    if bits != [] {
      var rest := FromBits(bits[1..]);
      assert FromBits(bits) % 2 == (if bits[0] then 1 else 0) && FromBits(bits) / 2 == rest;
      ToFromBits(bits[1..]);
    }
  }

  /** Two's complement bits only depend on the number modulo 2^n. */
  lemma {:induction false} ToBitsModulo(v: int, w: int, n: nat)
    requires v % Pow2(n) == w % Pow2(n)
    ensures ToBits(v, n) == ToBits(w, n)
  {
    FromToBits(v, n);
    FromToBits(w, n);
    ToFromBits(ToBits(v, n));
    ToFromBits(ToBits(w, n));
  }

  lemma DivideTwice(v: int, b: nat, p: nat)
    requires b > 0 && p > 0
    ensures b * p > 0
    ensures (v / b) / p == v / (b * p)
  {
    ModuloSplit(v, b, p);
    var q := (v / b) / p;
    assert v / b == q * p + (v / b) % p;
    assert v == b * (q * p + (v / b) % p) + v % b;
    assert b * (q * p + (v / b) % p) == q * (b * p) + b * ((v / b) % p);
    ModuloUnique(v, b * p, q, v % (b * p));
  }

  lemma {:induction false} BitOfNumber(bits: seq<bool>, i: nat)
    requires i < |bits|
    ensures (FromBits(bits) / Pow2(i)) % 2 == (if bits[i] then 1 else 0)
  {
    if i == 0 {
      FirstBit(bits);
    } else {
      hide FromBits;
      BitOfNumber(bits[1..], i - 1);
      FirstBit(bits);
      DivideTwice(FromBits(bits), 2, Pow2(i - 1));
    }
  }

  lemma FirstBit(bits: seq<bool>)
    requires bits != []
    ensures FromBits(bits) % 2 == (if bits[0] then 1 else 0) && FromBits(bits) / 2 == FromBits(bits[1..])
    ensures Pow2(0) == 1 && FromBits(bits) / 1 == FromBits(bits)
  {
  }

  /** Every bit of a bit string is found again in its bytes. */
  lemma BitOfBytes(bits: seq<bool>, k: nat)
    requires k < 8 * |BytesOf(bits)|
    ensures BitAt(BytesOf(bits), k) <==> k < |bits| && bits[k]
  {
    var j := k / 8;
    var octet := seq(8, i requires 0 <= i < 8 => 8 * j + i < |bits| && bits[8 * j + i]);
    BitOfNumber(octet, k % 8);
    assert BytesOf(bits)[j] == FromBits(octet);
  }

  /** The casts of `read_bits_` are two's complement sign extension, for every width up to 32. */
  lemma WidenMeaning(raw: nat, size: nat, signedValue: bool)
    requires 1 <= size <= 32 && raw < Pow2(size)
    ensures Widen(raw, size, signedValue)
      == (if signedValue && raw >= Pow2(size - 1) then raw - Pow2(size) else raw)
    ensures Fits(Widen(raw, size, signedValue), size, signedValue)
  {
    Pow2Values();
    Pow2Monotone(size, 32);
    var half := Pow2(size - 1);
    if raw >= half {
      ModuloUnique(raw, half, 1, raw - half);
    } else {
      ModuloUnique(raw, half, 0, raw);
    }
    if size < 32 {
      Pow2Monotone(size, 31);
    }
  }

  /** A value that fits survives packing into `size` bits and reading back. */
  lemma PackedValueReadsBack(v: int, size: nat, signedValue: bool)
    requires 1 <= size <= 32 && Fits(v, size, signedValue)
    ensures FromBits(ToBits(v, size)) < Pow2(size)
    ensures Widen(FromBits(ToBits(v, size)), size, signedValue) == v
  {
    FromToBits(v, size);
    var raw := FromBits(ToBits(v, size));
    WidenMeaning(raw, size, signedValue);
    if v < 0 {
      ModuloUnique(v, Pow2(size), -1, v + Pow2(size));
    } else {
      ModuloUnique(v, Pow2(size), 0, v);
    }
  }

  /** Reading a field and packing the value again reproduces its bits. */
  lemma ReadValuePacksBack(data: seq<uint8>, offset: nat, size: nat, signedValue: bool)
    requires ReadField(data, offset, size, signedValue).Some?
    ensures offset + size <= 8 * |data|
    ensures ToBits(ReadField(data, offset, size, signedValue).value, size) == BitSlice(data, offset, size)
    ensures Fits(ReadField(data, offset, size, signedValue).value, size, signedValue)
  {
    var bits := BitSlice(data, offset, size);
    FromBitsBound(bits);
    var raw := FromBits(bits);
    var v := Widen(raw, size, signedValue);
    WidenMeaning(raw, size, signedValue);
    ModuloUnique(raw, Pow2(size), 0, raw);
    ModuloUnique(v, Pow2(size), if v == raw then 0 else -1, raw);
    ToBitsModulo(v, raw, size);
    ToFromBits(bits);
  }

  /** `read_bits_`: assembles the value bit by bit, then sign-extends it. */
  method ReadBits(data: seq<uint8>, bitOffset: nat, bitSize: nat, signedValue: bool) returns (value: Option<int>)
    ensures value == ReadField(data, bitOffset, bitSize, signedValue)
    ensures value.None? <==> bitSize == 0 || bitSize > 32 || bitOffset + bitSize > 8 * |data|
  {
    if bitSize == 0 || bitSize > 32 || bitOffset > 8 * |data| || bitSize > 8 * |data| - bitOffset {
      return None;
    }
    var raw: nat := 0;
    for bit := 0 to bitSize
      invariant raw == FromBits(BitSlice(data, bitOffset, bit))
    {
      ReadOneMore(data, bitOffset, bit);
      if BitAt(data, bitOffset + bit) {
        raw := raw + Pow2(bit);
      }
    }
    FromBitsBound(BitSlice(data, bitOffset, bitSize));
    value := Some(Widen(raw, bitSize, signedValue));
  }

  lemma ReadOneMore(data: seq<uint8>, offset: nat, size: nat)
    requires offset + size < 8 * |data|
    ensures FromBits(BitSlice(data, offset, size + 1))
      == FromBits(BitSlice(data, offset, size)) + (if BitAt(data, offset + size) then Pow2(size) else 0)
  {
    assert BitSlice(data, offset, size + 1) == BitSlice(data, offset, size) + [BitAt(data, offset + size)];
    FromBitsAppend(BitSlice(data, offset, size), BitAt(data, offset + size));
  }
}
