/** The physical layout of an `INET` cell: family, signed 128-bit address, prefix length. */
module Inet {
  import opened Wire

  const TWO_127 := 0x8000_0000_0000_0000_0000_0000_0000_0000
  const TWO_128 := 0x1_0000_0000_0000_0000_0000_0000_0000_0000

  type bytes16 = s: bytes | |s| == 16 witness [0, 0, 0, 0, 0, 0, 0, 0, 0, 0, 0, 0, 0, 0, 0, 0]

  datatype InetVal = InetVal(ipType: byte, addressLe: bytes16, mask: u16)

  datatype IpAddr = V4(octets: bytes) | V6(octets: bytes) {
    predicate Valid() {
      match this
      case V4(o) => |o| == 4
      case V6(o) => |o| == 16
    }
  }

  function Reverse(s: bytes): (r: bytes)
    ensures |r| == |s| && forall i :: 0 <= i < |s| ==> r[i] == s[|s| - 1 - i]
  {
    if s == [] then [] else [s[|s| - 1]] + Reverse(s[..|s| - 1])
  }

  /** `x as u128` for an i128, and back: reinterpreting the sign bit. */
  function AsUnsigned(x: int): int {
    if x < 0 then x + TWO_128 else x
  }

  function AsSigned(x: int): int {
    if x >= TWO_127 then x - TWO_128 else x
  }

  /** XOR with 2^127 on a 128-bit value: the top bit is cleared if set, set if clear. */
  function FlipTopBit(x: int): int {
    if x >= TWO_127 then x - TWO_127 else x + TWO_127
  }

  /** Little-endian bytes of an i128. */
  function LeBytes(x: int): bytes16
    requires -TWO_127 <= x < TWO_127
  {
    Reverse(ToBigEndian(AsUnsigned(x), 16))
  }

  /** The HUGEINT value an address column holds. */
  function HugeInt(s: bytes): int {
    AsSigned(BigEndian(Reverse(s)))
  }

  lemma SixteenBytes()
    ensures Pow256(4) == TWO_32
    ensures Pow256(16) == TWO_128
  {
    assert Pow256(4) == 256 * Pow256(3);
    assert Pow256(3) == 256 * Pow256(2);
    assert Pow256(2) == 256 * Pow256(1);
    assert Pow256(8) == 256 * Pow256(7);
    assert Pow256(7) == 256 * Pow256(6);
    assert Pow256(6) == 256 * Pow256(5);
    assert Pow256(5) == 256 * Pow256(4);
    assert Pow256(12) == 256 * Pow256(11);
    assert Pow256(11) == 256 * Pow256(10);
    assert Pow256(10) == 256 * Pow256(9);
    assert Pow256(9) == 256 * Pow256(8);
    assert Pow256(16) == 256 * Pow256(15);
    assert Pow256(15) == 256 * Pow256(14);
    assert Pow256(14) == 256 * Pow256(13);
    assert Pow256(13) == 256 * Pow256(12);
  }

  function Encode(ip: IpAddr, mask: u16): InetVal
    requires ip.Valid()
  {
    BigEndianBound(ip.octets);
    SixteenBytes();
    match ip
    case V4(o) => InetVal(1, LeBytes(BigEndian(o)), mask)
    case V6(o) => InetVal(2, LeBytes(AsSigned(FlipTopBit(BigEndian(o)))), mask)
  }

  function EncodeIp(ip: IpAddr): InetVal
    requires ip.Valid()
  {
    Encode(ip, if ip.V4? then 32 else 128)
  }

  function Inet4(b: bytes): Option<InetVal> {
    if |b| == 4 then Some(EncodeIp(V4(b))) else None
  }

  function Inet6(b: bytes): Option<InetVal> {
    if |b| == 16 then Some(EncodeIp(V6(b))) else None
  }

  /** The numeric half of rendering a cell back to an address; any family but 1 is read as IPv6. */
  function Decode(v: InetVal): IpAddr {
    var x := HugeInt(v.addressLe);
    if v.ipType == 1 then V4(ToBigEndian(AsUnsigned(x) % TWO_32, 4))
    else
      BigEndianBound(Reverse(v.addressLe));
      SixteenBytes();
      V6(ToBigEndian(FlipTopBit(AsUnsigned(x)), 16))
  }

  lemma {:induction false} ReverseTwice(s: bytes)
    ensures Reverse(Reverse(s)) == s
  {
    assert |Reverse(Reverse(s))| == |s|;
    assert forall i :: 0 <= i < |s| ==> Reverse(Reverse(s))[i] == Reverse(s)[|s| - 1 - i] == s[i];
  }

  lemma LeRoundTrip(x: int)
    requires -TWO_127 <= x < TWO_127
    ensures HugeInt(LeBytes(x)) == x
  {
    SixteenBytes();
    ReverseTwice(ToBigEndian(AsUnsigned(x), 16));
    DecodeEncoded(AsUnsigned(x), 16);
  }

  /** The stored cell: family 1 or 2, the mask, and the IPv4 bits as they are or the IPv6 bits less 2^127. */
  lemma StoredValue(ip: IpAddr, mask: u16)
    requires ip.Valid()
    ensures Encode(ip, mask).ipType == (if ip.V4? then 1 else 2) && Encode(ip, mask).mask == mask
    ensures HugeInt(Encode(ip, mask).addressLe)
         == BigEndian(ip.octets) - (if ip.V6? then TWO_127 else 0)
  {
    BigEndianBound(ip.octets);
    SixteenBytes();
    LeRoundTrip(if ip.V4? then BigEndian(ip.octets) else AsSigned(FlipTopBit(BigEndian(ip.octets))));
  }

  /** Decoding inverts encoding for every address and mask. */
  lemma AddressRoundTrip(ip: IpAddr, mask: u16)
    requires ip.Valid()
    ensures Decode(Encode(ip, mask)) == ip
  {
    StoredValue(ip, mask);
    BigEndianBound(ip.octets);
    SixteenBytes();
    EncodeDecoded(ip.octets);
    FlipTwice(ip, HugeInt(Encode(ip, mask).addressLe));
  }

  lemma FlipTwice(ip: IpAddr, x: int)
    requires ip.Valid() && BigEndian(ip.octets) < if ip.V4? then TWO_32 else TWO_128
    requires x == BigEndian(ip.octets) - (if ip.V6? then TWO_127 else 0)
    ensures ip.V4? ==> AsUnsigned(x) % TWO_32 == BigEndian(ip.octets)
    ensures ip.V6? ==> 0 <= AsUnsigned(x) < TWO_128 && FlipTopBit(AsUnsigned(x)) == BigEndian(ip.octets)
  {
  }

  /** Signed HUGEINT order on the stored cells is unsigned numeric order on the addresses. */
  lemma StoredOrder(a: IpAddr, b: IpAddr, m: u16, n: u16)
    requires a.Valid() && b.Valid() && a.V6? == b.V6?
    ensures HugeInt(Encode(a, m).addressLe) < HugeInt(Encode(b, n).addressLe)
       <==> BigEndian(a.octets) < BigEndian(b.octets)
  {
    StoredValue(a, m);
    StoredValue(b, n);
  }

  /** On-wire bytes become a host cell exactly when their length fits the family, and the cell reads back as them. */
  lemma HostCells(b: bytes)
    ensures Inet4(b).Some? <==> |b| == 4
    ensures Inet6(b).Some? <==> |b| == 16
    ensures Inet4(b).Some? ==>
      var v := Inet4(b).value; Decode(v) == V4(b) && v.ipType == 1 && v.mask == 32
    ensures Inet6(b).Some? ==>
      var v := Inet6(b).value; Decode(v) == V6(b) && v.ipType == 2 && v.mask == 128
  {
    if |b| == 4 {
      StoredValue(V4(b), 32);
      AddressRoundTrip(V4(b), 32);
    } else if |b| == 16 {
      StoredValue(V6(b), 128);
      AddressRoundTrip(V6(b), 128);
    }
    hide Decode, LeBytes;
  }
}
