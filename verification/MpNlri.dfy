/** MP_REACH_NLRI and MP_UNREACH_NLRI values (src/bgp/nlri.rs:142-406, RFC 4760).
    The daemon puts a length octet of its own in front of each value. */
module MpNlris {
  import opened Basics
  import opened Bytes
  import opened Types
  import opened Nlris

  datatype Mpnlri = Mpnlri(af: AddressFamily, nh: IpAddr, nlris: seq<Nlri>)
  datatype Mpunlri = Mpunlri(af: AddressFamily, nlris: seq<Nlri>)

  const DEFAULT_REACH := Mpnlri(AddressFamily(Ipv6, Unicast), UNSPECIFIED_V6, [])
  const DEFAULT_UNREACH := Mpunlri(AddressFamily(Ipv6, Unicast), [])

  function PrintAddr(a: IpAddr): (s: seq<Byte>)
    ensures |s| == 1 + Width(a.afi)
  {
    [Width(a.afi)] + a.octets
  }

  function FamilyOctets(af: AddressFamily): (s: seq<Byte>)
    ensures |s| == 3
  {
    PutU16(AfiCode(af.afi)) + [SafiCode(af.safi)]
  }

  lemma FamilyAtFront(af: AddressFamily, rest: seq<Byte>)
    ensures var s := FamilyOctets(af) + rest;
            s[0] == 0 && s[1] in {1, 2} && AfiOf(GetU16(s[0], s[1])) == Some(af.afi) && SafiOf(s[2]) == Some(af.safi)
  {
  }

  function ReachPayload(m: Mpnlri): seq<Byte> {
    FamilyOctets(m.af) + PrintAddr(m.nh) + PrintNlris(m.nlris)
  }

  function UnreachPayload(m: Mpunlri): seq<Byte> {
    FamilyOctets(m.af) + PrintNlris(m.nlris)
  }

  /** A value behind its length, of which one octet is kept. */
  function Counted(payload: seq<Byte>): seq<Byte> {
    [|payload| % 256] + payload
  }

  function PrintReach(m: Mpnlri): seq<Byte> {
    Counted(ReachPayload(m))
  }

  function PrintUnreach(m: Mpunlri): seq<Byte> {
    Counted(UnreachPayload(m))
  }

  function ParseReach(octets: seq<Byte>): Result<Mpnlri> {
    if octets == [] then Err
    else
      var total, src := octets[0], octets[1..];
      if |src| < 4 then Err
      else
        var afi, safi := AfiOf(GetU16(src[0], src[1])), SafiOf(src[2]);
        if afi.None? || safi.None? || |src| < 4 + src[3] as int then Err
        else
          var w := Width(afi.value);
          var nh := Resize(src[4..4 + src[3] as int], w);
          match ReadNlris(afi.value, src, 4 + src[3] as int, total)
          case Err => Err
          case Ok(run) =>
            Ok(Mpnlri(AddressFamily(afi.value, safi.value), RawAddr(afi.value, nh), run.items))
  }

  /** Reading a reachable-prefixes value takes octets that are not there, and the parser stops for good;
      everything else it does not like is an error. */
  predicate ReachStops(octets: seq<Byte>) {
    && octets != []
    && var total, src := octets[0], octets[1..];
       && |src| >= 4
       && var afi, safi := AfiOf(GetU16(src[0], src[1])), SafiOf(src[2]);
          && afi.Some? && safi.Some? && |src| >= 4 + src[3] as int
          && RunsOut(afi.value, src, 4 + src[3] as int, total)
  }

  /** Only values that are not read stop the parser. */
  lemma ReadingDoesNotStop(octets: seq<Byte>)
    ensures ReachStops(octets) ==> ParseReach(octets) == Err
  {
    hide RunsOut, ReadNlris;
    if ReachStops(octets) {
      var src := octets[1..];
      RunningOutFails(AfiOf(GetU16(src[0], src[1])).value, src, 4 + src[3] as int, octets[0]);
    }
  }

  function ParseUnreach(octets: seq<Byte>): Result<Mpunlri> {
    if octets == [] then Err
    else
      var total, src := octets[0], octets[1..];
      if |src| < 3 then Err
      else
        var afi, safi := AfiOf(GetU16(src[0], src[1])), SafiOf(src[2]);
        if afi.None? || safi.None? then Err
        else
          match ReadNlris(afi.value, src, 3, total)
          case Err => Err
          case Ok(run) => Ok(Mpunlri(AddressFamily(afi.value, safi.value), run.items))
  }

  /** The next hop, the family and the prefixes belong together. */
  predicate OneFamily(m: Mpnlri) {
    m.nh.afi == m.af.afi && AllOf(m.af.afi, m.nlris)
  }

  /** Whether reading a printed list back gives the list depends on the limit alone. */
  lemma ReadBack(afi: Afi, head: seq<Byte>, ns: seq<Nlri>)
    requires AllOf(afi, ns) && |head| <= 20
    ensures var src := head + PrintNlris(ns);
            var r := ReadNlris(afi, src, |head|, |src| % 256);
            (r.Ok? && r.value.items == Networks(ns)) <==> |src| <= 255
  {
    hide ReadNlris, Networks;
    var src := head + PrintNlris(ns);
    assert At(src, |head|, PrintNlris(ns));
    if |src| <= 255 {
      ReadPrinted(afi, src, |head|, ns);
    } else {
      ReadStopsEarly(afi, src, |head|, ns, |src| % 256);
    }
  }

  /** The parser finds family and next hop where the printer put them. */
  lemma ReachHead(m: Mpnlri)
    requires m.nh.afi == m.af.afi
    ensures var src := ReachPayload(m);
            ParseReach(PrintReach(m)) ==
            match ReadNlris(m.af.afi, src, 4 + Width(m.af.afi), |src| % 256)
            case Err => Err
            case Ok(run) => Ok(Mpnlri(m.af, m.nh, run.items))
  {
    hide ReadNlris, PrintNlris;
    var src, w := ReachPayload(m), Width(m.af.afi);
    var tail := PrintAddr(m.nh) + PrintNlris(m.nlris);
    FamilyAtFront(m.af, tail);
    assert src == FamilyOctets(m.af) + tail;
    assert PrintReach(m)[1..] == src;
    assert src[4..4 + w] == tail[1..1 + w] == m.nh.octets;
    assert Resize(m.nh.octets, w) == m.nh.octets;
  }

  /** A reachable-prefixes value comes back with host bits cleared exactly when its length
      fits the one octet there is for it; beyond that, prefixes are lost. */
  lemma ReachRoundTrip(m: Mpnlri)
    requires OneFamily(m)
    ensures ParseReach(PrintReach(m)) == Ok(m.(nlris := Networks(m.nlris))) <==> |ReachPayload(m)| <= 255
  {
    ReachHead(m);
    ReadBack(m.af.afi, FamilyOctets(m.af) + PrintAddr(m.nh), m.nlris);
  }

  lemma UnreachRoundTrip(m: Mpunlri)
    requires AllOf(m.af.afi, m.nlris)
    ensures ParseUnreach(PrintUnreach(m)) == Ok(m.(nlris := Networks(m.nlris))) <==> |UnreachPayload(m)| <= 255
  {
    ReadBack(m.af.afi, FamilyOctets(m.af), m.nlris);
    FamilyAtFront(m.af, PrintNlris(m.nlris));
    assert PrintUnreach(m)[1..] == UnreachPayload(m);
  }

  /** The octets the parser would take for an address family when a printed value still has
      the attribute's own length in front of it never name one. */
  lemma ShiftedFamilyIsUnknown(payload: seq<Byte>, own: seq<Byte>)
    requires |payload| >= 3 && payload[0] == 0 && payload[1] in {1, 2}
    requires own == if |payload| + 1 > 255 then PutU16(|payload| + 1) else [|payload| + 1]
    ensures ParseReach(own + Counted(payload)).Err? && !ReachStops(own + Counted(payload))
    ensures ParseUnreach(own + Counted(payload)).Err?
  {
    var octets := own + Counted(payload);
    var src := octets[1..];
    if |own| == 1 {
      assert src[0] == |payload| % 256 && src[1] == payload[0];
    } else {
      assert src[0] == (|payload| + 1) % 256 && src[1] == |payload| % 256;
    }
    assert AfiOf(GetU16(src[0], src[1])).None?;
  }

  method ParseReachValue(octets: seq<Byte>) returns (r: Result<Mpnlri>, stops: bool)
    ensures r == ParseReach(octets)
    ensures stops <==> ReachStops(octets)
  {
    if octets == [] {
      return Err, false;
    }
    var total, src := octets[0], octets[1..];
    if |src| < 4 {
      return Err, false;
    }
    var afi := AfiOf(GetU16(src[0], src[1]));
    var safi := SafiOf(src[2]);
    if afi.None? || safi.None? {
      return Err, false;
    }
    var nhl: nat := src[3];
    if |src| < 4 + nhl {
      return Err, false;
    }
    var addr := Resize(src[4..4 + nhl], Width(afi.value));
    if afi.value == Ipv6 {
      var groups := CollectGroups(addr);
      GroupsSpellTheOctets(addr);
      addr := GroupOctets(groups);
    }
    var run;
    run, stops := ReadNlriList(afi.value, src, 4 + nhl, total);
    if run.Err? {
      return Err, stops;
    }
    r := Ok(Mpnlri(AddressFamily(afi.value, safi.value), RawAddr(afi.value, addr), run.value.items));
  }

  method ParseUnreachValue(octets: seq<Byte>) returns (r: Result<Mpunlri>)
    ensures r == ParseUnreach(octets)
  {
    if octets == [] {
      return Err;
    }
    var total, src := octets[0], octets[1..];
    if |src| < 3 {
      return Err;
    }
    var afi := AfiOf(GetU16(src[0], src[1]));
    var safi := SafiOf(src[2]);
    if afi.None? || safi.None? {
      return Err;
    }
    var run, _ := ReadNlriList(afi.value, src, 3, total);
    if run.Err? {
      return Err;
    }
    r := Ok(Mpunlri(AddressFamily(afi.value, safi.value), run.value.items));
  }

  /** Append prefixes and keep count, as both printers do. */
  method AppendPrefixes(buf: seq<Byte>, blen: nat, nlris: seq<Nlri>) returns (buf': seq<Byte>, blen': nat)
    ensures buf' == buf + PrintNlris(nlris) && blen' == blen + |PrintNlris(nlris)|
  {
    hide PrintNlri;
    buf', blen' := buf, blen;
    for k := 0 to |nlris|
      invariant buf' == buf + PrintNlris(nlris[..k]) && blen' == blen + |PrintNlris(nlris[..k])|
    {
      assert nlris[..k + 1] == nlris[..k] + [nlris[k]];
      PrintNlrisSplit(nlris[..k], [nlris[k]]);
      assert PrintNlris([nlris[k]]) == PrintNlri(nlris[k]) + PrintNlris([nlris[k]][1..]);
      var octets := PrintNlri(nlris[k]);
      blen' := blen' + |octets|;
      buf' := buf' + octets;
    }
    assert nlris[..|nlris|] == nlris;
  }

  /** The printer writes a provisional length, counts as it goes and patches the first octet. */
  method PrintReachValue(m: Mpnlri) returns (buf: seq<Byte>)
    ensures buf == PrintReach(m)
  {
    hide PrintNlris;
    var blen := 3;
    buf := [blen] + FamilyOctets(m.af);
    buf := buf + PrintAddr(m.nh);
    blen := blen + if m.nh.afi == Ipv4 then 5 else 17;
    buf, blen := AppendPrefixes(buf, blen, m.nlris);
    assert buf[1..] == ReachPayload(m);
    buf := buf[0 := blen % 256];
  }

  method PrintUnreachValue(m: Mpunlri) returns (buf: seq<Byte>)
    ensures buf == PrintUnreach(m)
  {
    hide PrintNlris;
    var blen := 3;
    buf := [blen] + FamilyOctets(m.af);
    buf, blen := AppendPrefixes(buf, blen, m.nlris);
    assert buf[1..] == UnreachPayload(m);
    buf := buf[0 := blen % 256];
  }
}
