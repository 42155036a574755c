/** The wire format in octets and numbers: where every field of a message stands, and what every code
    means (sections 4.1 to 4.5 of RFC 4271, section 3 to 5 of RFC 4760, section 4 of RFC 5492). */
module WireLayouts {
  import opened Basics
  import opened Bytes
  import opened Types
  import opened Nlris
  import opened MpNlris
  import opened Attributes
  import opened Codec
  import opened Updates
  import opened Opens
  import opened Messages

  /** Integers go most significant octet first. */
  lemma BigEndian(n: U16, m: U32)
    ensures var s := PutU16(n); 256 * s[0] as int + s[1] == n
    ensures var s := PutU32(m);
            0x100_0000 * s[0] as int + 0x1_0000 * s[1] as int + 0x100 * s[2] as int + s[3] == m
  {
    PutGetU16(n);
    PutGetU32(m);
  }

  /** A prefix is its length, then just the octets that hold so many bits: the first `plen` bits of the
      address, and zeros. */
  lemma PrefixInOctets(n: Nlri)
    ensures var s := PrintNlri(n);
            && s[0] == n.plen && 8 * (|s| - 1) - 8 < n.plen <= 8 * (|s| - 1)
            && forall i | 0 <= i < 8 * (|s| - 1) ::
                 BitAt(s[1..], i) == if i < n.plen then BitAt(n.addr.octets, i) else 0
  {
    hide BitAt, Network;
    var s := PrintNlri(n);
    forall i | 0 <= i < 8 * (|s| - 1)
      ensures BitAt(s[1..], i) == if i < n.plen then BitAt(n.addr.octets, i) else 0
    {
      NetworkBits(n, i);
      SameBit(s[1..], Network(n).addr.octets, i);
    }
  }

  lemma SameBit(s: seq<Byte>, t: seq<Byte>, i: nat)
    requires i < 8 * |s| && i < 8 * |t| && s[i / 8] == t[i / 8]
    ensures BitAt(s, i) == BitAt(t, i)
  {
  }

  /** Read is what has a length of the family and at least so many bits; octets that are missing are zero,
      and those that are there are kept, bits behind the length too. */
  lemma PrefixRead(afi: Afi, octets: seq<Byte>)
    ensures var w: nat := match afi case Ipv4 => 4 case Ipv6 => 16;
            && (ParseOctets(afi, octets).Ok? <==>
                  octets != [] && octets[0] <= 8 * w && octets[0] <= 8 * (|octets| - 1))
            && (ParseOctets(afi, octets).Ok? ==>
                  var n := ParseOctets(afi, octets).value;
                  && n.plen == octets[0] && n.addr.afi == afi && |n.addr.octets| == w
                  && forall k | 0 <= k < w :: n.addr.octets[k] == if 1 + k < |octets| then octets[1 + k] else 0)
  {
  }

  /** The family of a multiprotocol value: AFI 1 or 2 in two octets, SAFI 1 or 2 in one. */
  predicate FamilyAt(af: AddressFamily, s: seq<Byte>, i: nat) {
    && i + 3 <= |s|
    && 256 * s[i] as int + s[i + 1] == (match af.afi case Ipv4 => 1 case Ipv6 => 2)
    && s[i + 2] == match af.safi case Unicast => 1 case Multicast => 2
  }

  /** A reachable-prefixes value: its length modulo 256 without that octet, the family, the next hop behind
      its length, the prefixes. */
  lemma ReachInOctets(m: Mpnlri)
    ensures var s := PrintReach(m);
            var w: nat := match m.nh.afi case Ipv4 => 4 case Ipv6 => 16;
            && |s| >= 5 + w && s[0] == (|s| - 1) % 256 && FamilyAt(m.af, s, 1)
            && s[4] == w && s[5..5 + w] == m.nh.octets && s[5 + w..] == PrintNlris(m.nlris)
  {
    hide PrintNlris;
    var p := FamilyOctets(m.af);
    var s := PrintReach(m);
    assert s == [(|s| - 1) % 256] + p + [Width(m.nh.afi)] + m.nh.octets + PrintNlris(m.nlris);
    assert s[1] == p[0] && s[2] == p[1] && s[3] == p[2];
  }

  /** An unreachable-prefixes value has no next hop. */
  lemma UnreachInOctets(m: Mpunlri)
    ensures var s := PrintUnreach(m);
            && |s| >= 4 && s[0] == (|s| - 1) % 256 && FamilyAt(m.af, s, 1) && s[4..] == PrintNlris(m.nlris)
  {
    hide PrintNlris;
    var p := FamilyOctets(m.af);
    var s := PrintUnreach(m);
    assert s == [(|s| - 1) % 256] + p + PrintNlris(m.nlris);
    assert s[1] == p[0] && s[2] == p[1] && s[3] == p[2];
  }

  /** What is read of such a value: the family, the next hop padded with zeros or cut to its family, and
      behind it just the prefixes that the octets spell, to the end the first octet gives or at most one
      prefix further. */
  lemma ReachRead(octets: seq<Byte>) returns (q: nat)
    requires ParseReach(octets).Ok?
    ensures |octets| >= 5 && 5 + octets[4] as int <= q <= |octets|
    ensures octets[0] < q && (q <= octets[0] as int + 17 || q == 5 + octets[4] as int)
    ensures var m := ParseReach(octets).value;
            && FamilyAt(m.af, octets, 1) && m.nh.afi == m.af.afi
            && (forall k | 0 <= k < |m.nh.octets| :: m.nh.octets[k] == if k < octets[4] then octets[5 + k] else 0)
            && Spells(m.af.afi, octets[5 + octets[4] as int..q], m.nlris)
  {
    hide ReadNlris, Spells;
    var src, m := octets[1..], ParseReach(octets).value;
    ReadAccounts(m.af.afi, src, 4 + src[3] as int, octets[0]);
    var run := ReadNlris(m.af.afi, src, 4 + src[3] as int, octets[0]).value;
    q := 1 + run.next;
    BehindFirst(octets, 4 + src[3] as int, run.next);
    NextHopRead(src, m.nh);
  }

  lemma BehindFirst(octets: seq<Byte>, i: nat, j: nat)
    requires i <= j < |octets|
    ensures octets[1..][i..j] == octets[1 + i..1 + j]
  {
  }

  lemma NextHopRead(src: seq<Byte>, a: IpAddr)
    requires |src| >= 4 && |src| >= 4 + src[3] as int
    requires a.octets == Resize(src[4..4 + src[3] as int], Width(a.afi))
    ensures forall k | 0 <= k < |a.octets| :: a.octets[k] == if k < src[3] then src[4 + k] else 0
  {
  }

  lemma UnreachRead(octets: seq<Byte>) returns (q: nat)
    requires ParseUnreach(octets).Ok?
    ensures 4 <= q <= |octets| && octets[0] < q && (q <= octets[0] as int + 17 || q == 4)
    ensures var m := ParseUnreach(octets).value;
            FamilyAt(m.af, octets, 1) && Spells(m.af.afi, octets[4..q], m.nlris)
  {
    hide ReadNlris, Spells;
    var src, m := octets[1..], ParseUnreach(octets).value;
    ReadAccounts(m.af.afi, src, 3, octets[0]);
    var run := ReadNlris(m.af.afi, src, 3, octets[0]).value;
    q := 1 + run.next;
    BehindFirst(octets, 3, run.next);
  }

  /** The numbers of the attribute types. */
  lemma TypeNumbers(t: AttrType, n: int)
    ensures TypeOf(n) == Some(t) <==>
            n == match t
                 case Origin => 1 case AsPath => 2 case NextHop => 3 case MultiExitDisc => 4 case LocalPref => 5
                 case AtomicAggregate => 6 case Aggregator => 7 case Community => 8 case OriginatorId => 9
                 case ClusterList => 10 case Dpa => 11 case Advertiser => 12 case RcidPathClusterId => 13
                 case MpReach => 14 case MpUnreach => 15 case ExtCommunities => 16
  {
    assert n == 1 || n == 2 || n == 3 || n == 4 || n == 5 || n == 6 || n == 7 || n == 8 || n == 9 || n == 10
           || n == 11 || n == 12 || n == 13 || n == 14 || n == 15 || n == 16 || TypeOf(n).None?;
  }

  /** A number in four octets. */
  predicate NumberAt(n: int, s: seq<Byte>, i: nat) {
    i + 4 <= |s| && 0x100_0000 * s[i] as int + 0x1_0000 * s[i + 1] as int + 0x100 * s[i + 2] as int + s[i + 3] == n
  }

  /** A path in octets, segment by segment: 1 for a set and 2 for a sequence, the number of ASNs modulo 256,
      the ASNs in two octets each. */
  lemma PathInOctets(front: AsPath, g: Segment, back: AsPath)
    ensures PrintPath([]) == []
    ensures PrintPath(front + [g] + back) == PrintPath(front) + PrintSegment(g) + PrintPath(back)
    ensures var s := PrintSegment(g);
            && |s| == 2 + 2 * |g.asList| && s[0] == (match g.kind case AsSet => 1 case AsSequence => 2)
            && s[1] == |g.asList| % 256
            && forall k | 0 <= k < |g.asList| :: 256 * s[2 + 2 * k] as int + s[3 + 2 * k] == g.asList[k]
  {
    PathSplit(front, g, back);
    forall k | 0 <= k < |g.asList|
      ensures var s := PrintSegment(g); 256 * s[2 + 2 * k] as int + s[3 + 2 * k] == g.asList[k]
    {
      AsnAt(g.asList, k);
    }
  }

  lemma {:induction false} PathSplit(front: AsPath, g: Segment, back: AsPath)
    ensures PrintPath(front + [g] + back) == PrintPath(front) + PrintSegment(g) + PrintPath(back)
  {
    hide PrintSegment;
    var p := front + [g] + back;
    if front == [] {
      assert p[1..] == back;
    } else {
      assert p[1..] == front[1..] + [g] + back;
      PathSplit(front[1..], g, back);
      var first := PrintSegment(front[0]);
      assert first + (PrintPath(front[1..]) + PrintSegment(g) + PrintPath(back))
          == first + PrintPath(front[1..]) + PrintSegment(g) + PrintPath(back);
    }
  }

  lemma {:induction false} AsnAt(asns: seq<U16>, k: nat)
    requires k < |asns|
    ensures var s := PrintAsns(asns); 256 * s[2 * k] as int + s[2 * k + 1] == asns[k]
  {
    if k == 0 {
      BigEndian(asns[0], 0);
    } else {
      AsnAt(asns[1..], k - 1);
      var s, rest := PrintAsns(asns), PrintAsns(asns[1..]);
      assert s[2 * k] == rest[2 * (k - 1)] && s[2 * k + 1] == rest[2 * (k - 1) + 1];
    }
  }

  /** The values of the other attributes. */
  lemma ValueInOctets(v: AttrValue)
    ensures var s := ValueOctets(v);
            match v
            case OriginValue(o) => s == [match o case Igp => 0 case Egp => 1 case Incomplete => 2]
            case AsPathValue(p) => s == PrintPath(p)
            case NextHopValue(a) => s == a.octets
            case MedValue(n) => |s| == 4 && NumberAt(n, s, 0)
            case LocalPrefValue(n) => |s| == 4 && NumberAt(n, s, 0)
            case AggregatorValue(n, a) => |s| >= 2 && 256 * s[0] as int + s[1] == n && s[2..] == a.octets
            case MpReachValue(m) => s == PrintReach(m)
            case MpUnreachValue(m) => s == PrintUnreach(m)
            case Bare(_) => s == []
  {
    hide PrintReach, PrintUnreach, PrintPath, PutU32, PutU16;
    match v
    case MedValue(n) => BigEndian(0, n);
    case LocalPrefValue(n) => BigEndian(0, n);
    case AggregatorValue(n, a) =>
      BigEndian(n, 0);
      assert ValueOctets(v)[2..] == a.octets;
    case _ =>
  }

  /** An attribute: the flags optional, transitive, partial and extended from the highest bit down, the
      number of its type, the length of its value in one octet or, extended, in two, and the value. */
  lemma AttributeInOctets(a: PathAttribute)
    requires |ValueOctets(a.value)| <= 0xffff
    ensures var s, v := PrintAttr(a), ValueOctets(a.value);
            && s[0] == (if a.optional then 128 else 0) + (if a.transitive then 64 else 0)
                       + (if a.partial then 32 else 0) + (if |v| > 255 then 16 else 0)
            && TypeOf(s[1]) ==
               Some(match a.value
                    case OriginValue(_) => Origin case AsPathValue(_) => AsPath case NextHopValue(_) => NextHop
                    case MedValue(_) => MultiExitDisc case LocalPrefValue(_) => LocalPref
                    case AggregatorValue(_, _) => Aggregator case MpReachValue(_) => MpReach
                    case MpUnreachValue(_) => MpUnreach case Bare(t) => t)
            && if |v| <= 255 then s[2] == |v| && s[3..] == v
               else |s| >= 4 && 256 * s[2] as int + s[3] == |v| && s[4..] == v
  {
    hide ValueOctets;
    var s, v := PrintAttr(a), ValueOctets(a.value);
    BigEndian(if |v| <= 0xffff then |v| else 0, 0);
    if |v| <= 255 {
      assert s[3..] == v;
    } else {
      assert s[2] == PutU16(|v|)[0] && s[3] == PutU16(|v|)[1] && s[4..] == v;
    }
  }

  /** What is read of an attribute: flags and type from the first two octets, and the value, if it is a number
      or an address, from the fourth octet on, extended or not. */
  lemma AttributeRead(src: seq<Byte>)
    requires ParseAttr(src).Ok?
    ensures |src| >= 2
    ensures var a := ParseAttr(src).value;
            && (a.optional <==> src[0] / 128 % 2 == 1) && (a.transitive <==> src[0] / 64 % 2 == 1)
            && (a.partial <==> src[0] / 32 % 2 == 1) && (a.extendedLength <==> src[0] / 16 % 2 == 1)
            && TypeOf(src[1]) == Some(a.typeCode)
            && match a.value
               case OriginValue(o) =>
                 && a.typeCode == Origin && |src| >= 4
                 && src[3] == (match o case Igp => 0 case Egp => 1 case Incomplete => 2)
               case NextHopValue(h) =>
                 a.typeCode == NextHop && |src| >= 7 && h.afi == Ipv4 && h.octets == src[3..7]
               case MedValue(n) => a.typeCode == MultiExitDisc && NumberAt(n, src, 3)
               case LocalPrefValue(n) => a.typeCode == LocalPref && NumberAt(n, src, 3)
               case AggregatorValue(n, h) =>
                 && a.typeCode == Aggregator && |src| >= 9 && 256 * src[3] as int + src[4] == n
                 && h.afi == Ipv4 && h.octets == src[5..9]
               case AsPathValue(_) => a.typeCode == AsPath
               case MpReachValue(_) => a.typeCode == MpReach
               case MpUnreachValue(_) => a.typeCode == MpUnreach
               case Bare(t) => a.typeCode == t
  {
    hide ReadPath, ParseReach, ParseUnreach, ReachStops;
  }

  /** The path read is the one that the octets behind the length spell, to the octet. */
  lemma PathRead(src: seq<Byte>)
    requires ParseAttr(src).Ok? && ParseAttr(src).value.value.AsPathValue?
    ensures |src| >= 3
    ensures var p := PrintPath(ParseAttr(src).value.value.path);
            if src[0] / 16 % 2 == 1 then |src| >= 4 && |p| == 256 * src[2] as int + src[3] && At(src, 4, p)
            else |p| == src[2] && At(src, 3, p)
  {
    hide ReadSegments, PrintPath, ParseReach, ParseUnreach, ReachStops, At;
    if src[0] / 16 % 2 == 1 {
      PrintReadPath(src, 4, GetU16(src[2], src[3]));
    } else {
      PrintReadPath(src, 3, src[2]);
    }
  }

  /** Of a multiprotocol attribute everything behind the type is read as the value, and what is not read is
      the empty IPv6 value. */
  lemma MpRead(src: seq<Byte>)
    requires ParseAttr(src).Ok? && src[1] in {14, 15}
    ensures src[1] == 14 ==>
              ParseAttr(src).value.value == MpReachValue(
                match ParseReach(src[2..])
                case Ok(m) => m
                case Err => Mpnlri(AddressFamily(Ipv6, Unicast), RawAddr(Ipv6, seq(16, i => 0)), []))
    ensures src[1] == 15 ==>
              ParseAttr(src).value.value == MpUnreachValue(
                match ParseUnreach(src[2..]) case Ok(m) => m case Err => Mpunlri(AddressFamily(Ipv6, Unicast), []))
  {
    hide ReadPath, ParseReach, ParseUnreach, ReachStops;
  }

  /** Which octets are refused. */
  lemma AttributeRefusedIff(src: seq<Byte>)
    ensures ParseAttr(src).Err? <==>
            || |src| < 2 || src[1] == 0 || src[1] > 16
            || (src[1] == 1 && (|src| < 4 || src[3] > 2))
            || (src[1] == 2 && ReadPath(src, src[0] / 16 % 2 == 1).Err?)
            || (src[1] in {3, 4, 5} && |src| < 7)
            || (src[1] == 7 && |src| < 9)
            || (src[1] == 14 && ReachStops(src[2..]))
  {
    hide ReadPath, ParseReach, ParseUnreach, ReachStops;
  }

  /** An UPDATE: the withdrawn prefixes behind their length in two octets, the attributes behind theirs, and
      the announced prefixes. */
  lemma UpdateInOctets(u: UpdateMessage)
    requires |PrintNlris(u.withdrawn)| <= 0xffff && |PrintAttrs(u.attributes)| <= 0xffff
    ensures var s, w, p := PrintUpdate(u), |PrintNlris(u.withdrawn)|, |PrintAttrs(u.attributes)|;
            && |s| >= 4 + w + p && 256 * s[0] as int + s[1] == w && s[2..2 + w] == PrintNlris(u.withdrawn)
            && 256 * s[2 + w] as int + s[3 + w] == p && s[4 + w..4 + w + p] == PrintAttrs(u.attributes)
            && s[4 + w + p..] == PrintNlris(u.nlri)
  {
    hide PrintNlris, PrintAttrs, PutU16;
    var w, p := PrintNlris(u.withdrawn), PrintAttrs(u.attributes);
    BigEndian(if |w| <= 0xffff then |w| else 0, 0);
    BigEndian(if |p| <= 0xffff then |p| else 0, 0);
    var lw, lp := PutU16(|w|), PutU16(|p|);
    assert PrintUpdate(u) == lw + w + lp + p + PrintNlris(u.nlri);
  }

  lemma PrefixesInOctets(front: seq<Nlri>, n: Nlri, back: seq<Nlri>)
    ensures PrintNlris(front + [n] + back) == PrintNlris(front) + PrintNlri(n) + PrintNlris(back)
  {
    hide PrintNlri;
    PrintNlrisSplit(front + [n], back);
    PrintNlrisSplit(front, [n]);
    assert PrintNlris([n]) == PrintNlri(n) by {
      assert [n][1..] == [];
    }
  }

  lemma AttributesInOctets(front: seq<PathAttribute>, a: PathAttribute, back: seq<PathAttribute>)
    ensures PrintAttrs(front + [a] + back) == PrintAttrs(front) + PrintAttr(a) + PrintAttrs(back)
  {
    hide PrintAttr;
    PrintAttrsSplit(front + [a], back);
    PrintAttrsSplit(front, [a]);
    assert PrintAttrs([a]) == PrintAttr(a) by {
      assert [a][1..] == [];
    }
  }

  /** An OPEN: version, AS number, hold time and router id in one, two, two and four octets, the octets of the
      parameters in one, and the parameters. */
  lemma OpenInOctets(m: OpenMessage)
    ensures var s := PrintOpen(m);
            && |s| >= 10 && s[0] == m.version && 256 * s[1] as int + s[2] == m.asn
            && 256 * s[3] as int + s[4] == m.holdTime && NumberAt(m.routerId, s, 5)
            && s[9] == m.optParams.len % 256 && s[10..] == PrintParams(m.optParams.params)
  {
    hide PrintParams, PutU16, PutU32;
    BigEndian(m.asn, m.routerId);
    BigEndian(m.holdTime, 0);
    var a, h, r := PutU16(m.asn), PutU16(m.holdTime), PutU32(m.routerId);
    var s := PrintOpen(m);
    assert s == [m.version] + a + h + r + [m.optParams.len % 256] + PrintParams(m.optParams.params);
    assert s[1] == a[0] && s[2] == a[1] && s[3] == h[0] && s[4] == h[1];
    assert s[5] == r[0] && s[6] == r[1] && s[7] == r[2] && s[8] == r[3];
  }

  /** A parameter: 1 for authentication or 2 for capabilities, the octets of its value modulo 256, the value. */
  lemma ParameterInOctets(
    front: seq<OptionalParameter>, p: OptionalParameter, back: seq<OptionalParameter>)
    ensures PrintParams(front + [p] + back) ==
            PrintParams(front)
            + [match p.kind case Authentication => 1 case Capability => 2, |p.value| % 256] + p.value
            + PrintParams(back)
  {
    ParametersSplit(front, p, back);
    assert PrintParam(p) == [match p.kind case Authentication => 1 case Capability => 2, |p.value| % 256] + p.value;
  }

  lemma {:induction false} ParametersSplit(
    front: seq<OptionalParameter>, p: OptionalParameter, back: seq<OptionalParameter>)
    ensures PrintParams(front + [p] + back) == PrintParams(front) + PrintParam(p) + PrintParams(back)
  {
    hide PrintParam;
    var ps := front + [p] + back;
    if front == [] {
      assert ps[1..] == back;
    } else {
      assert ps[1..] == front[1..] + [p] + back;
      ParametersSplit(front[1..], p, back);
      var first, rest := PrintParam(front[0]), PrintParams(front[1..]);
      assert first + (rest + PrintParam(p) + PrintParams(back)) == first + rest + PrintParam(p) + PrintParams(back);
    }
  }

  /** The OPEN of this speaker: version 4 and one parameter, with six octets for each family, or for IPv4 unicast
      when none are given: multiprotocol, four octets, AFI, zero, SAFI. */
  lemma SpeakerOpen(asn: U16, rid: U32, hold: U16, families: Option<seq<AddressFamily>>, j: nat)
    requires j < if families.Some? then |families.value| else 1
    ensures var m := NewOpen(asn, rid, hold, families);
            && m.version == 4 && m.asn == asn && m.holdTime == hold && m.routerId == rid
            && |m.optParams.params| == 1 && m.optParams.params[0].kind == Capability
            && var caps := m.optParams.params[0].value;
               var af := if families.Some? then families.value[j] else AddressFamily(Ipv4, Unicast);
               && |caps| == m.optParams.params[0].length == m.optParams.len - 2
               && |caps| == 6 * (if families.Some? then |families.value| else 1)
               && caps[6 * j] == 1 && caps[6 * j + 1] == 4
               && 256 * caps[6 * j + 2] as int + caps[6 * j + 3] == (match af.afi case Ipv4 => 1 case Ipv6 => 2)
               && caps[6 * j + 4] == 0 && caps[6 * j + 5] == match af.safi case Unicast => 1 case Multicast => 2
  {
    hide FamilyCapabilities;
    var fams := if families.Some? then families.value else [IPV4_UNICAST];
    var caps, one := FamilyCapabilities(fams), FamilyCapability(fams[j]);
    CapabilityAt(fams, j);
    AtIndex(caps, 6 * j, one, 0);
    AtIndex(caps, 6 * j, one, 1);
    AtIndex(caps, 6 * j, one, 2);
    AtIndex(caps, 6 * j, one, 3);
    AtIndex(caps, 6 * j, one, 4);
    AtIndex(caps, 6 * j, one, 5);
  }

  /** The fixed fields are read where they are printed. */
  lemma OpenRead(src: seq<Byte>)
    requires ParseOpen(src).Ok?
    ensures var m := ParseOpen(src).value;
            && |src| >= 10 && m.version == src[0] && m.asn == 256 * src[1] as int + src[2]
            && m.holdTime == 256 * src[3] as int + src[4] && NumberAt(m.routerId, src, 5)
  {
    hide ReadParams;
  }

  /** A message without its header: the octet of its type, then its body; a NOTIFICATION is its code, its
      subcode and its data, a KEEPALIVE nothing. */
  lemma MessageInOctets(b: Body)
    ensures PrintMessage(b) ==
            match b
            case OpenBody(m) => [1] + PrintOpen(m)
            case UpdateBody(u) => [2] + PrintUpdate(u)
            case NotificationBody(code, sub, data) =>
              [3, match code
                  case MessageHeader => 1 case OpenMessage => 2 case UpdateMessage => 3
                  case HoldTimerExpired => 4 case FsmError => 5 case Cease => 6, sub] + data
            case KeepaliveBody => [4]
  {
    hide PrintOpen, PrintUpdate;
  }

  /** A message is read when its header is sound and its body is: sixteen 0xff octets, its own length, and
      the type. */
  lemma MessageRead(src: seq<Byte>)
    ensures ParseMessage(src).Ok? <==>
            && |src| >= 19 && (forall i | 0 <= i < 16 :: src[i] == 0xff)
            && 256 * src[16] as int + src[17] == |src| <= 4096
            && (src[18] == 1 ==> ParseOpen(src[19..]).Ok?) && (src[18] == 2 ==> ParseUpdate(src[19..]).Ok?)
            && (src[18] == 3 ==> |src| >= 21 && 1 <= src[19] <= 6) && 1 <= src[18] <= 4
    ensures ParseMessage(src).Ok? ==>
              match ParseMessage(src).value
              case OpenBody(m) => src[18] == 1 && ParseOpen(src[19..]) == Ok(m)
              case UpdateBody(u) => src[18] == 2 && ParseUpdate(src[19..]) == Ok(u)
              case NotificationBody(code, sub, data) =>
                src[18] == 3 && src[19] == ErrorCodeOctet(code) && src[20] == sub && data == []
              case KeepaliveBody => src[18] == 4
  {
    hide ParseOpen, ParseUpdate;
    if |src| >= 19 {
      assert src[..16] == MARKER <==> forall i | 0 <= i < 16 :: src[i] == 0xff;
    }
  }
}
