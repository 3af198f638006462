/** Fixed-width integers, big-endian encoding and the bounded reader. */
module Wire {

  datatype Option<+T> = None | Some(value: T)

  const TWO_16 := 0x1_0000
  const TWO_32 := 0x1_0000_0000
  const TWO_63 := 0x8000_0000_0000_0000
  const TWO_64 := 0x1_0000_0000_0000_0000

  type byte = b: int | 0 <= b < 0x100
  type u16 = x: int | 0 <= x < 0x1_0000
  type u32 = x: int | 0 <= x < 0x1_0000_0000
  type u64 = x: int | 0 <= x < 0x1_0000_0000_0000_0000
  type i64 = x: int | -0x8000_0000_0000_0000 <= x < 0x8000_0000_0000_0000
  type bytes = seq<byte>

  /** Two's-complement wrap-around: what an unchecked 64-bit signed operation leaves. */
  function WrapI64(x: int): (r: i64)
    ensures -TWO_63 <= x < TWO_63 ==> r == x
    ensures (r - x) % TWO_64 == 0
  {
    (x + TWO_63) % TWO_64 - TWO_63
  }

  lemma Regroup(a: bytes, b: bytes, c: bytes)
    ensures a + b + c == a + (b + c)
  {
  }

  /** The big-endian positional value of a byte string. */
  function BigEndian(s: bytes): nat {
    if s == [] then 0 else 256 * BigEndian(s[..|s| - 1]) + s[|s| - 1]
  }

  function Pow256(n: nat): nat {
    if n == 0 then 1 else 256 * Pow256(n - 1)
  }

  /** The `n`-byte big-endian encoding of `v`, high bytes cut off. */
  function ToBigEndian(v: nat, n: nat): (s: bytes)
    ensures |s| == n
  {
    if n == 0 then [] else ToBigEndian(v / 256, n - 1) + [v % 256]
  }

  lemma {:induction false} BigEndianBound(s: bytes)
    ensures BigEndian(s) < Pow256(|s|)
  {
    if s != [] {
      BigEndianBound(s[..|s| - 1]);
    }
  }

  /** Encoding is injective on strings of one length: decode, then encode, is the identity. */
  lemma {:induction false} EncodeDecoded(s: bytes)
    ensures ToBigEndian(BigEndian(s), |s|) == s
  {
    if s != [] {
      EncodeDecoded(s[..|s| - 1]);
      assert s == s[..|s| - 1] + [s[|s| - 1]];
    }
  }

  lemma {:induction false} DecodeEncoded(v: nat, n: nat)
    requires v < Pow256(n)
    ensures BigEndian(ToBigEndian(v, n)) == v
  {
    if n != 0 {
      DecodeEncoded(v / 256, n - 1);
      var s := ToBigEndian(v, n);
      assert s[..|s| - 1] == ToBigEndian(v / 256, n - 1);
    }
  }

  /** Splitting the value of a concatenation. */
  lemma {:induction false} BigEndianConcat(a: bytes, b: bytes)
    ensures BigEndian(a + b) == BigEndian(a) * Pow256(|b|) + BigEndian(b)
  {
    if b == [] {
      assert a + b == a;
    } else {
      var b' := b[..|b| - 1];
      assert (a + b)[..|a + b| - 1] == a + b';
      BigEndianConcat(a, b');
      Shift(BigEndian(a), Pow256(|b| - 1), BigEndian(b'));
    }
  }

  lemma Shift(x: int, p: int, y: int)
    ensures 256 * (x * p + y) == x * (256 * p) + 256 * y
  {
  }

  // Two- and four-byte fields, as the decoders read them and the fixtures write them.

  function U16(s: bytes, i: nat): (v: u16)
    requires i + 2 <= |s|
  {
    256 * s[i] as int + s[i + 1]
  }

  function U32(s: bytes, i: nat): (v: u32)
    requires i + 4 <= |s|
  {
    TWO_16 * U16(s, i) as int + U16(s, i + 2)
  }

  function Put16(v: u16): (s: bytes)
    ensures |s| == 2 && U16(s, 0) == v
  {
    [v / 256, v % 256]
  }

  function Put32(v: u32): (s: bytes)
    ensures |s| == 4 && U32(s, 0) == v
  {
    Put16(v / TWO_16) + Put16(v % TWO_16)
  }

  lemma U16IsBigEndian(s: bytes, i: nat)
    requires i + 2 <= |s|
    ensures U16(s, i) == BigEndian(s[i..i + 2])
  {
    var t := s[i..i + 2];
    assert t[..1] == [s[i]];
    assert BigEndian(t[..1]) == 256 * BigEndian([]) + s[i];
  }

  lemma U32IsBigEndian(s: bytes, i: nat)
    requires i + 4 <= |s|
    ensures U32(s, i) == BigEndian(s[i..i + 4])
  {
    assert s[i..i + 4] == s[i..i + 2] + s[i + 2..i + 4];
    BigEndianConcat(s[i..i + 2], s[i + 2..i + 4]);
    U16IsBigEndian(s, i);
    U16IsBigEndian(s, i + 2);
    assert Pow256(2) == 256 * Pow256(1);
    assert Pow256(1) == 256 * Pow256(0);
  }

  /** Reduced-size integers: the positional value of at most the first eight bytes. */
  function BeUint(b: bytes): (v: u64) {
    var t := if |b| <= 8 then b else b[..8];
    BigEndianBound(t);
    EightBytes(|t|);
    BigEndian(t)
  }

  lemma EightBytes(n: nat)
    requires n <= 8
    ensures Pow256(n) <= TWO_64
    decreases 8 - n
  {
    if n < 8 {
      PowGrows(n);
      EightBytes(n + 1);
    } else {
      assert Pow256(8) == 256 * Pow256(7);
      assert Pow256(7) == 256 * Pow256(6);
      assert Pow256(6) == 256 * Pow256(5);
      assert Pow256(5) == 256 * Pow256(4);
      assert Pow256(4) == 256 * Pow256(3);
      assert Pow256(3) == 256 * Pow256(2);
      assert Pow256(2) == 256 * Pow256(1);
    }
  }

  lemma PowGrows(n: nat)
    ensures Pow256(n) <= Pow256(n + 1)
  {
  }

  /** The accumulating loop: shift left by eight, or in the next byte. */
  method ComputeBeUint(b: bytes) returns (v: u64)
    ensures v == BeUint(b)
  {
    v := 0;
    var n := if |b| < 8 then |b| else 8;
    for i := 0 to n
      invariant v == BigEndian(b[..i])
    {
      assert b[..i + 1][..i] == b[..i];
      BigEndianBound(b[..i + 1]);
      EightBytes(i + 1);
      v := v * 256 + b[i];
    }
    assert n == |b| ==> b[..n] == b;
  }

  lemma {:induction false} BigEndianLeadingZeros(z: nat, b: bytes)
    ensures BigEndian(seq(z, _ => 0) + b) == BigEndian(b)
  {
    var zs: bytes := seq(z, _ => 0);
    BigEndianConcat(zs, b);
    ZerosValue(z);
  }

  lemma {:induction false} ZerosValue(z: nat)
    ensures BigEndian(seq(z, _ => 0)) == 0
  {
    if z > 0 {
      var zs: bytes := seq(z, _ => 0);
      assert zs[..z - 1] == seq(z - 1, _ => 0);
      ZerosValue(z - 1);
    }
  }

  /** Section 6.2 of RFC 7011: a reduced-size value equals its zero-extended form, up to eight bytes. */
  lemma BeUintIgnoresLeadingZeros(z: nat, b: bytes)
    requires z + |b| <= 8
    ensures BeUint(seq(z, _ => 0) + b) == BeUint(b) == BigEndian(b)
  {
    BigEndianLeadingZeros(z, b);
  }

  /** Bytes after the eighth do not matter. */
  lemma BeUintReadsEight(v: u64, more: bytes)
    ensures BeUint(ToBigEndian(v, 8) + more) == v
  {
    EightIsEnough(v);
    DecodeEncoded(v, 8);
    hide ToBigEndian, BigEndian;
    var e := ToBigEndian(v, 8);
    assert (e + more)[..8] == e;
    assert more == [] ==> e + more == e;
  }

  lemma EightIsEnough(v: u64)
    ensures v < Pow256(8)
  {
    assert Pow256(8) == 256 * Pow256(7);
    assert Pow256(7) == 256 * Pow256(6);
    assert Pow256(6) == 256 * Pow256(5);
    assert Pow256(5) == 256 * Pow256(4);
    assert Pow256(4) == 256 * Pow256(3);
    assert Pow256(3) == 256 * Pow256(2);
    assert Pow256(2) == 256 * Pow256(1);
  }

  /** Every value of at most eight bytes is read back exactly from its encoding. */
  lemma BeUintInvertsEncoding(v: nat, n: nat)
    requires n <= 8 && v < Pow256(n)
    ensures BeUint(ToBigEndian(v, n)) == v
  {
    DecodeEncoded(v, n);
  }

  /** The panic-free reader: every read is bounds-checked and a failed one moves nothing. */
  class Cursor {
    const data: bytes
    var pos: nat

    ghost predicate Valid()
      reads this
    {
      pos <= |data|
    }

    /** The bytes not yet consumed. */
    ghost function Rest(): (r: bytes)
      requires Valid()
      reads this
    {
      data[pos..]
    }

    constructor (data: bytes)
      ensures this.data == data && Valid() && Rest() == data && pos == 0
    {
      this.data := data;
      pos := 0;
    }

    method Remaining() returns (n: nat)
      requires Valid()
      ensures n == |Rest()|
    {
      n := |data| - pos;
    }

    method Take(n: nat) returns (r: Option<bytes>)
      requires Valid()
      modifies this`pos
      ensures Valid()
      ensures r.None? <==> n > |old(Rest())|
      ensures r.None? ==> pos == old(pos)
      ensures r.Some? ==> r.value == old(Rest())[..n] && Rest() == old(Rest())[n..] && pos == old(pos) + n
    {
      var rem := Remaining();
      if n > rem {
        return None;
      }
      r := Some(data[pos..pos + n]);
      pos := pos + n;
    }

    method Peek(n: nat) returns (r: Option<bytes>)
      requires Valid()
      ensures r == if n > |Rest()| then None else Some(Rest()[..n])
    {
      var rem := Remaining();
      if n > rem {
        return None;
      }
      assert data[pos..][..n] == data[pos..pos + n];
      r := Some(data[pos..pos + n]);
    }

    method ReadU8() returns (r: Option<byte>)
      requires Valid()
      modifies this`pos
      ensures Valid()
      ensures r.None? <==> 1 > |old(Rest())|
      ensures r.None? ==> pos == old(pos)
      ensures r.Some? ==> r.value == old(Rest())[0] && Rest() == old(Rest())[1..] && pos == old(pos) + 1
    {
      var t := Take(1);
      r := if t.None? then None else Some(t.value[0]);
    }

    method ReadU16() returns (r: Option<u16>)
      requires Valid()
      modifies this`pos
      ensures Valid()
      ensures r.None? <==> 2 > |old(Rest())|
      ensures r.None? ==> pos == old(pos)
      ensures r.Some? ==> r.value == U16(old(Rest()), 0) && Rest() == old(Rest())[2..] && pos == old(pos) + 2
    {
      var t := Take(2);
      r := if t.None? then None else Some(U16(t.value, 0));
    }

    method ReadU32() returns (r: Option<u32>)
      requires Valid()
      modifies this`pos
      ensures Valid()
      ensures r.None? <==> 4 > |old(Rest())|
      ensures r.None? ==> pos == old(pos)
      ensures r.Some? ==> r.value == U32(old(Rest()), 0) && Rest() == old(Rest())[4..] && pos == old(pos) + 4
    {
      var t := Take(4);
      r := if t.None? then None else Some(U32(t.value, 0));
    }

    /** Skipping past the end fails and leaves the position where it was. */
    method Skip(n: nat) returns (ok: bool)
      requires Valid()
      modifies this`pos
      ensures Valid()
      ensures ok <==> n <= |old(Rest())|
      ensures Rest() == if ok then old(Rest())[n..] else old(Rest())
    {
      var t := Take(n);
      ok := t.Some?;
    }
  }
}
