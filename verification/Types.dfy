/** Code points, limits and length arithmetic (src/bgp/types.rs). */
module Types {
  import opened Basics
  import opened Bytes

  const MARKER: seq<Byte> :=
    [0xff, 0xff, 0xff, 0xff, 0xff, 0xff, 0xff, 0xff, 0xff, 0xff, 0xff, 0xff, 0xff, 0xff, 0xff, 0xff]
  const VERSION: Byte := 4
  const MIN_MESSAGE_LENGTH := 19
  const MAX_MESSAGE_LENGTH := 4096

  datatype Afi = Ipv4 | Ipv6
  datatype Safi = Unicast | Multicast
  datatype AddressFamily = AddressFamily(afi: Afi, safi: Safi)

  const IPV4_UNICAST := AddressFamily(Ipv4, Unicast)
  datatype MessageType = Open | Update | Notification | Keepalive

  function AfiCode(a: Afi): U16 {
    match a case Ipv4 => 1 case Ipv6 => 2
  }

  function AfiOf(n: int): Option<Afi> {
    if n == 1 then Some(Ipv4) else if n == 2 then Some(Ipv6) else None
  }

  function SafiCode(s: Safi): Byte {
    match s case Unicast => 1 case Multicast => 2
  }

  function SafiOf(n: int): Option<Safi> {
    if n == 1 then Some(Unicast) else if n == 2 then Some(Multicast) else None
  }

  function MessageTypeCode(t: MessageType): Byte {
    match t case Open => 1 case Update => 2 case Notification => 3 case Keepalive => 4
  }

  function MessageTypeOf(n: int): Option<MessageType> {
    if n == 1 then Some(Open) else if n == 2 then Some(Update)
    else if n == 3 then Some(Notification) else if n == 4 then Some(Keepalive) else None
  }

  predicate ValidMessageLength(length: int) {
    MIN_MESSAGE_LENGTH <= length <= MAX_MESSAGE_LENGTH
  }

  /** Bit 4 of the attribute flags. */
  predicate IsExtendedLen(mask: Byte) {
    mask / 16 % 2 == 1
  }

  /** Octets of an address of the family. */
  function Width(afi: Afi): nat {
    match afi case Ipv4 => 4 case Ipv6 => 16
  }

  /** Octets that hold `plen` bits. */
  function Octets(plen: nat): nat {
    (plen + 7) / 8
  }

  function PrefixBytes(plen: Byte, afi: Afi): Result<nat> {
    if plen > 8 * Width(afi) then Err else Ok(Octets(plen))
  }

  /** The step of the UPDATE loops, computed by the source in floating point as
      `(plen / 8.0).ceil() + 1.0`; a prefix length is exact in an f32, so reals stand for it. */
  function FloatStep(plen: Byte): nat {
    var ceil := -((-(plen as real / 8.0)).Floor);
    ceil + 1
  }

  lemma FloatStepIsOctets(plen: Byte)
    ensures FloatStep(plen) == Octets(plen) + 1
  {
    var x := plen as real / 8.0;
    var q := plen / 8;
    var r := plen % 8;
    assert x == q as real + r as real / 8.0;
    if r == 0 {
      assert -x == (-q) as real;
    } else {
      assert ((-q - 1) as real) <= -x < (-q) as real;
    }
  }
}
