/** Fixed-width integers and little-endian bytes, as the wire and the C++ source use them. */
module Bytes {

  type byte = b: int | 0 <= b < 0x100
  type bytes = seq<byte>
  type int32 = i: int | -0x8000_0000 <= i < 0x8000_0000
  type uint32 = u: int | 0 <= u < 0x1_0000_0000

  const TWO_31: int := 0x8000_0000
  const TWO_32: int := 0x1_0000_0000

  datatype Option<+T> = None | Some(value: T)

  /** The conversion `(unsigned int)x`. */
  function ToUint32(x: int): uint32 {
    x % TWO_32
  }

  /** `(int)u` for an unsigned value: two's complement. */
  function Signed(u: uint32): int32 {
    if u < TWO_31 then u else u - TWO_32
  }

  /** `(unsigned int)i` for an int. */
  function Unsigned(i: int32): (u: uint32)
    ensures Signed(u) == i
  {
    if i < 0 then i as int + TWO_32 else i
  }

  /** The conversion `(int)x`: the two's complement value of the low 32 bits. */
  function ToInt32(x: int): (r: int32)
    ensures ToUint32(r) == ToUint32(x)
    ensures -TWO_31 <= x < TWO_31 ==> r == x
  {
    Signed(ToUint32(x))
  }

  /** The n low base-256 digits of v, least significant first. */
  function Digits256(v: nat, n: nat): (r: bytes)
    ensures |r| == n
  {
    if n == 0 then [] else [v % 0x100] + Digits256(v / 0x100, n - 1)
  }

  function Number(s: bytes): nat {
    if s == [] then 0 else s[0] as int + 0x100 * Number(s[1..])
  }

  function Power256(n: nat): nat {
    if n == 0 then 1 else 0x100 * Power256(n - 1)
  }

  lemma {:induction false} NumberBound(s: bytes)
    ensures Number(s) < Power256(|s|)
  {
    if s != [] {
      NumberBound(s[1..]);
    }
  }

  lemma Power256Of4()
    ensures Power256(4) == TWO_32
  {
    assert Power256(4) == 0x100 * Power256(3) && Power256(2) == 0x100 * Power256(1);
  }

  /** PutInt: four bytes, least significant first. */
  function IntBytes(value: int32): (r: bytes)
    ensures |r| == 4
  {
    Digits256(Unsigned(value), 4)
  }

  /** GetInt: the little-endian 32-bit integer at an offset. */
  function GetInt(data: bytes, offset: nat): int32
    requires offset + 4 <= |data|
  {
    NumberBound(data[offset..offset + 4]);
    Power256Of4();
    Signed(Number(data[offset..offset + 4]))
  }

  lemma {:induction false} NumberOfDigits(v: nat, n: nat, bound: nat)
    requires v < bound && bound == Power256(n)
    ensures Number(Digits256(v, n)) == v
  {
    if n > 0 {
      NumberOfDigits(v / 0x100, n - 1, Power256(n - 1));
      assert Digits256(v, n)[1..] == Digits256(v / 0x100, n - 1);
    }
  }

  lemma LowDigit(digit: byte, n: nat)
    ensures (digit as int + 0x100 * n) / 0x100 == n && (digit as int + 0x100 * n) % 0x100 == digit as int
  {
  }

  lemma {:induction false} DigitsOfNumber(s: bytes)
    ensures Digits256(Number(s), |s|) == s
  {
    if s != [] {
      DigitsOfNumber(s[1..]);
      LowDigit(s[0], Number(s[1..]));
      assert s == [s[0]] + s[1..];
    }
  }

  /** GetInt undoes PutInt: four bytes that hold a value read as that value. */
  lemma GetPutInt(data: bytes, offset: nat, value: int32)
    requires offset + 4 <= |data| && data[offset..offset + 4] == IntBytes(value)
    ensures GetInt(data, offset) == value
  {
    Power256Of4();
    NumberOfDigits(Unsigned(value), 4, TWO_32);
  }

  /** PutInt undoes GetInt: the integer determines the four bytes. */
  lemma PutGetInt(data: bytes, offset: nat)
    requires offset + 4 <= |data|
    ensures IntBytes(GetInt(data, offset)) == data[offset..offset + 4]
  {
    NumberBound(data[offset..offset + 4]);
    Power256Of4();
    DigitsOfNumber(data[offset..offset + 4]);
  }

  lemma SliceSlice<T>(s: seq<T>, from: nat, to: nat, i: nat, j: nat)
    requires from <= to <= |s| && i <= j <= to - from
    ensures s[from..to][i..j] == s[from + i..from + j]
  {
    var a, b := s[from..to][i..j], s[from + i..from + j];
    assert |a| == |b|;
    forall k | 0 <= k < |a| ensures a[k] == b[k] {
      assert a[k] == s[from..to][i + k] == s[from + (i + k)];
      assert b[k] == s[from + i + k];
    }
  }

  /** A read depends only on the bytes it reads. */
  lemma GetIntSlice(data: bytes, from: nat, to: nat, offset: nat)
    requires from <= to <= |data| && from + offset + 4 <= to
    ensures GetInt(data[from..to], offset) == GetInt(data, from + offset)
  {
    SliceSlice(data, from, to, offset, offset + 4);
  }

  lemma GetIntPrefix(data: bytes, more: bytes, offset: nat)
    requires offset + 4 <= |data|
    ensures GetInt(data + more, offset) == GetInt(data, offset)
  {
    assert (data + more)[offset..offset + 4] == data[offset..offset + 4];
  }

  /** Several PutInt calls in a row. */
  function Ints(values: seq<int32>): (r: bytes)
    ensures |r| == 4 * |values|
  {
    if values == [] then [] else IntBytes(values[0]) + Ints(values[1..])
  }

  lemma {:induction false} IntsAt(values: seq<int32>, after: bytes, i: nat)
    requires i < |values|
    ensures GetInt(Ints(values) + after, 4 * i) == values[i]
  {
    var rest := Ints(values[1..]) + after;
    var all := Ints(values) + after;
    assert all == IntBytes(values[0]) + rest;
    if i == 0 {
      GetPutInt(all, 0, values[0]);
    } else {
      IntsAt(values[1..], after, i - 1);
      assert all[4..|all|] == rest;
      GetIntSlice(all, 4, |all|, 4 * (i - 1));
    }
  }

  lemma {:induction false} IntsAppend(a: seq<int32>, b: seq<int32>)
    ensures Ints(a + b) == Ints(a) + Ints(b)
  {
    if a == [] {
      assert a + b == b;
    } else {
      assert (a + b)[1..] == a[1..] + b;
      IntsAppend(a[1..], b);
    }
  }

  /** `value & 0xFF` for a two's complement value. */
  function LowByte(value: int): byte {
    value % 0x100
  }

  /** `value & 0xFFFF` for a two's complement value. */
  function LowHalf(value: int): (r: int32)
    ensures 0 <= r < 0x1_0000
  {
    value % 0x1_0000
  }

  /** PutIntAt: overwrites four bytes of a buffer in place. */
  method PutIntAt(out: array<byte>, offset: nat, value: int32)
    requires offset + 4 <= out.Length
    modifies out
    ensures GetInt(out[..], offset) == value
    ensures out[..offset] == old(out[..offset]) && out[offset + 4..] == old(out[offset + 4..])
  {
    var v := Unsigned(value);
    out[offset] := v % 0x100;
    out[offset + 1] := v / 0x100 % 0x100;
    out[offset + 2] := v / 0x1_0000 % 0x100;
    out[offset + 3] := v / 0x100_0000 % 0x100;
    ShiftedDigits(v);
    assert out[..][offset..offset + 4] == IntBytes(value);
    GetPutInt(out[..], offset, value);
  }

  /** Shifting and masking gives the base-256 digits. */
  lemma ShiftedDigits(v: uint32)
    ensures Digits256(v, 4) == [v % 0x100, v / 0x100 % 0x100, v / 0x1_0000 % 0x100, v / 0x100_0000 % 0x100]
  {
    var v1, v2, v3 := v / 0x100, v / 0x100 / 0x100, v / 0x100 / 0x100 / 0x100;
    assert v2 == v / 0x1_0000 && v3 == v / 0x100_0000;
    assert Digits256(v3, 1) == [v3 % 0x100] + Digits256(v3 / 0x100, 0);
    assert Digits256(v2, 2) == [v2 % 0x100] + Digits256(v3, 1);
    assert Digits256(v1, 3) == [v1 % 0x100] + Digits256(v2, 2);
  }

  /** All the pieces one after another. */
  function Concat(pieces: seq<bytes>): bytes {
    if pieces == [] then [] else pieces[0] + Concat(pieces[1..])
  }

  lemma {:induction false} ConcatAppend(a: seq<bytes>, b: seq<bytes>)
    ensures Concat(a + b) == Concat(a) + Concat(b)
  {
    if a == [] {
      assert a + b == b;
    } else {
      assert (a + b)[1..] == a[1..] + b;
      ConcatAppend(a[1..], b);
    }
  }

  lemma ConcatSnoc(a: seq<bytes>, p: bytes)
    ensures Concat(a + [p]) == Concat(a) + p
  {
    ConcatAppend(a, [p]);
    assert Concat([p]) == p + Concat([]);
  }
}
