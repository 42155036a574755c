/** Path attributes and AS paths (src/bgp/attributes.rs, section 4.3 of RFC 4271). */
module Attributes {
  import opened Basics
  import opened Bytes
  import opened Types
  import opened Nlris
  import opened MpNlris

  datatype Origin = Igp | Egp | Incomplete
  datatype SegmentType = AsSet | AsSequence
  datatype Segment = Segment(kind: SegmentType, asList: seq<U16>)
  type AsPath = seq<Segment>

  /** Every ASN of a path, segment after segment. */
  function Flatten(p: AsPath): seq<U16> {
    if p == [] then [] else p[0].asList + Flatten(p[1..])
  }

  method FlattenPath(p: AsPath) returns (v: seq<U16>)
    ensures v == Flatten(p)
  {
    v := [];
    for k := 0 to |p|
      invariant v + Flatten(p[k..]) == Flatten(p)
    {
      assert v + p[k].asList + Flatten(p[k + 1..]) == v + (p[k].asList + Flatten(p[k + 1..]));
      v := v + p[k].asList;
    }
  }

  /** An ASN is in the flattened path exactly when some segment, set or sequence, has it. */
  lemma {:induction false} FlattenHas(p: AsPath, asn: U16)
    ensures asn in Flatten(p) <==> exists g <- p :: asn in g.asList
  {
    if p != [] {
      assert p == [p[0]] + p[1..];
      FlattenHas(p[1..], asn);
      assert asn in p[0].asList ==> p[0] in p;
      assert forall g <- p :: g == p[0] || g in p[1..];
    }
  }

  /** The ASNs in the first `j` segments. */
  function AsnsBefore(p: AsPath, j: nat): nat
    requires j <= |p|
  {
    if j == 0 then 0 else AsnsBefore(p, j - 1) + |p[j - 1].asList|
  }

  lemma {:induction false} AsnsBeforeTail(p: AsPath, j: nat)
    requires 1 <= j <= |p|
    ensures AsnsBefore(p, j) == |p[0].asList| + AsnsBefore(p[1..], j - 1)
  {
    if j > 1 {
      AsnsBeforeTail(p, j - 1);
    }
  }

  lemma {:induction false} FlattenLength(p: AsPath)
    ensures |Flatten(p)| == AsnsBefore(p, |p|)
  {
    if p != [] {
      FlattenLength(p[1..]);
      AsnsBeforeTail(p, |p|);
    }
  }

  /** The flattened path has the ASNs in order: the k-th of the j-th segment stands behind all those of
      the segments before, and there are no others. */
  lemma {:induction false} FlattenAt(p: AsPath, j: nat, k: nat)
    requires j < |p| && k < |p[j].asList|
    ensures AsnsBefore(p, j) + k < |Flatten(p)| == AsnsBefore(p, |p|)
    ensures Flatten(p)[AsnsBefore(p, j) + k] == p[j].asList[k]
  {
    FlattenLength(p);
    if j > 0 {
      AsnsBeforeTail(p, j);
      FlattenAt(p[1..], j - 1, k);
    }
  }

  lemma {:induction false} AsnsBeforeGrows(p: AsPath, i: nat, j: nat)
    requires i <= j <= |p|
    ensures AsnsBefore(p, i) <= AsnsBefore(p, j)
  {
    if i < j {
      AsnsBeforeGrows(p, i, j - 1);
    }
  }

  /** A flattened path without duplicates is a path in which no two places name one AS. */
  lemma DistinctPlaces(p: AsPath, i: nat, x: nat, j: nat, y: nat)
    requires NoDuplicates(Flatten(p))
    requires i < |p| && x < |p[i].asList| && j < |p| && y < |p[j].asList| && (i != j || x != y)
    ensures p[i].asList[x] != p[j].asList[y]
  {
    hide Flatten;
    FlattenAt(p, i, x);
    FlattenAt(p, j, y);
    if i < j {
      AsnsBeforeGrows(p, i + 1, j);
    } else if j < i {
      AsnsBeforeGrows(p, j + 1, i);
    }
  }

  /** What a segment adds to the length of a path: a set counts once. */
  function SegmentLen(s: Segment): nat {
    if s.kind == AsSequence then |s.asList| else 1
  }

  function PathLen(p: AsPath): nat {
    if p == [] then 0 else SegmentLen(p[0]) + PathLen(p[1..])
  }

  /** The length of a path, segment by segment: a sequence counts each of its ASNs, a set counts one. */
  lemma {:induction false} PathLenOf(front: AsPath, g: Segment, back: AsPath)
    ensures PathLen([]) == 0
    ensures PathLen(front + [g] + back) ==
            PathLen(front) + (match g.kind case AsSequence => |g.asList| case AsSet => 1) + PathLen(back)
  {
    var p := front + [g] + back;
    if front == [] {
      assert p == [g] + back && p[1..] == back;
    } else {
      assert p[1..] == front[1..] + [g] + back;
      PathLenOf(front[1..], g, back);
    }
  }

  datatype AttrType =
    | Origin | AsPath | NextHop | MultiExitDisc | LocalPref | AtomicAggregate | Aggregator | Community
    | OriginatorId | ClusterList | Dpa | Advertiser | RcidPathClusterId | MpReach | MpUnreach | ExtCommunities

  const TYPES: seq<AttrType> :=
    [Origin, AsPath, NextHop, MultiExitDisc, LocalPref, AtomicAggregate, Aggregator, Community,
     OriginatorId, ClusterList, Dpa, Advertiser, RcidPathClusterId, MpReach, MpUnreach, ExtCommunities]

  datatype AttrValue =
    | OriginValue(origin: Origin)
    | AsPathValue(path: AsPath)
    | NextHopValue(hop: IpAddr)
    | MedValue(med: U32)
    | LocalPrefValue(pref: U32)
    | AggregatorValue(lastAs: U16, aggregator: IpAddr)
    | MpReachValue(reach: Mpnlri)
    | MpUnreachValue(unreach: Mpunlri)
    | Bare(kind: AttrType)

  /** The attribute types whose values the daemon does not keep. */
  predicate IsBare(t: AttrType) {
    t !in {Origin, AsPath, NextHop, MultiExitDisc, LocalPref, Aggregator, MpReach, MpUnreach}
  }

  datatype PathAttribute = PathAttribute(
    optional: bool, transitive: bool, partial: bool, extendedLength: bool, typeCode: AttrType, value: AttrValue)

  function TypeOf(code: int): Option<AttrType> {
    if 1 <= code <= 16 then Some(TYPES[code - 1]) else None
  }

  function CodeOf(t: AttrType): (c: Byte)
    ensures TypeOf(c) == Some(t)
  {
    match t
    case Origin => 1 case AsPath => 2 case NextHop => 3 case MultiExitDisc => 4
    case LocalPref => 5 case AtomicAggregate => 6 case Aggregator => 7 case Community => 8
    case OriginatorId => 9 case ClusterList => 10 case Dpa => 11 case Advertiser => 12
    case RcidPathClusterId => 13 case MpReach => 14 case MpUnreach => 15 case ExtCommunities => 16
  }

  function TypeOfValue(v: AttrValue): AttrType {
    match v
    case OriginValue(_) => Origin
    case AsPathValue(_) => AsPath
    case NextHopValue(_) => NextHop
    case MedValue(_) => MultiExitDisc
    case LocalPrefValue(_) => LocalPref
    case AggregatorValue(_, _) => Aggregator
    case MpReachValue(_) => MpReach
    case MpUnreachValue(_) => MpUnreach
    case Bare(t) => t
  }

  function OriginCode(o: Origin): Byte {
    match o case Igp => 0 case Egp => 1 case Incomplete => 2
  }

  function OriginOf(n: int): Option<Origin> {
    if n == 0 then Some(Igp) else if n == 1 then Some(Egp) else if n == 2 then Some(Incomplete) else None
  }

  function SegmentCode(k: SegmentType): Byte {
    match k case AsSet => 1 case AsSequence => 2
  }

  function SegmentTypeOf(n: int): Option<SegmentType> {
    if n == 1 then Some(AsSet) else if n == 2 then Some(AsSequence) else None
  }

  function PrintAsns(asns: seq<U16>): (s: seq<Byte>)
    ensures |s| == 2 * |asns|
  {
    if asns == [] then [] else PutU16(asns[0]) + PrintAsns(asns[1..])
  }

  function PrintSegment(g: Segment): (s: seq<Byte>)
    ensures |s| == 2 + 2 * |g.asList|
  {
    [SegmentCode(g.kind), |g.asList| % 256] + PrintAsns(g.asList)
  }

  function PrintPath(p: AsPath): seq<Byte> {
    if p == [] then [] else PrintSegment(p[0]) + PrintPath(p[1..])
  }

  function ValueOctets(v: AttrValue): seq<Byte> {
    match v
    case OriginValue(o) => [OriginCode(o)]
    case AsPathValue(p) => PrintPath(p)
    case NextHopValue(a) => a.octets
    case MedValue(n) => PutU32(n)
    case LocalPrefValue(n) => PutU32(n)
    case AggregatorValue(n, a) => PutU16(n) + a.octets
    case MpReachValue(m) => PrintReach(m)
    case MpUnreachValue(m) => PrintUnreach(m)
    case Bare(_) => []
  }

  function Bit(b: bool): nat {
    if b then 1 else 0
  }

  function FlagOctet(extended: bool, partial: bool, transitive: bool, optional: bool): Byte {
    16 * (Bit(extended) + 2 * Bit(partial) + 4 * Bit(transitive) + 8 * Bit(optional))
  }

  /** The attribute's own length: two octets from 256 on, one below. */
  function LengthOctets(n: nat): seq<Byte> {
    if n > 255 then PutU16(n) else [n]
  }

  function PrintAttr(a: PathAttribute): (s: seq<Byte>)
    ensures |s| >= 3
  {
    var v := ValueOctets(a.value);
    [FlagOctet(|v| > 255, a.partial, a.transitive, a.optional), CodeOf(TypeOfValue(a.value))]
    + LengthOctets(|v|) + v
  }

  function ReadAsns(src: seq<Byte>, i: nat, n: nat): (asns: seq<U16>)
    requires i + 2 * n <= |src|
    ensures |asns| == n
    decreases n
  {
    if n == 0 then [] else [GetU16(src[i], src[i + 1])] + ReadAsns(src, i + 2, n - 1)
  }

  /** Segments from place `i` on until `total` octets are used up; running out of octets,
      an unknown type or a segment longer than what is left stops the daemon's parser for good. */
  function ReadSegments(src: seq<Byte>, i: nat, total: nat): Result<AsPath>
    decreases total
  {
    if total == 0 then Ok([])
    else if |src| < i + 2 || SegmentTypeOf(src[i]).None? then Err
    else
      var n: nat := src[i + 1];
      if |src| < i + 2 + 2 * n || total < 2 + 2 * n then Err
      else
        After([Segment(SegmentTypeOf(src[i]).value, ReadAsns(src, i + 2, n))],
              ReadSegments(src, i + 2 + 2 * n, total - (2 + 2 * n)))
  }

  /** A path with segments read before it. */
  function After(read: AsPath, r: Result<AsPath>): Result<AsPath> {
    match r case Err => Err case Ok(p) => Ok(read + p)
  }

  lemma AfterTwice(read: AsPath, g: Segment, r: Result<AsPath>)
    ensures After(read, After([g], r)) == After(read + [g], r)
    ensures After([], r) == r
  {
    if r.Ok? {
      assert read + ([g] + r.value) == read + [g] + r.value;
      assert [] + r.value == r.value;
    }
  }

  function ReadPath(src: seq<Byte>, extended: bool): Result<AsPath> {
    if extended then
      if |src| < 4 then Err else ReadSegments(src, 4, GetU16(src[2], src[3]))
    else
      if |src| < 3 then Err else ReadSegments(src, 3, src[2])
  }

  function V4At(src: seq<Byte>, i: nat): IpAddr
    requires i + 4 <= |src|
  {
    RawAddr(Ipv4, src[i..i + 4])
  }

  function ParseValue(t: AttrType, extended: bool, src: seq<Byte>): Result<AttrValue>
    requires |src| >= 2
  {
    match t
    case Origin =>
      if |src| < 4 || OriginOf(src[3]).None? then Err else Ok(OriginValue(OriginOf(src[3]).value))
    case AsPath => (match ReadPath(src, extended) case Err => Err case Ok(p) => Ok(AsPathValue(p)))
    case NextHop => if |src| < 7 then Err else Ok(NextHopValue(V4At(src, 3)))
    case MultiExitDisc => if |src| < 7 then Err else Ok(MedValue(GetU32(src[3], src[4], src[5], src[6])))
    case LocalPref => if |src| < 7 then Err else Ok(LocalPrefValue(GetU32(src[3], src[4], src[5], src[6])))
    case Aggregator => if |src| < 9 then Err else Ok(AggregatorValue(GetU16(src[3], src[4]), V4At(src, 5)))
    case MpReach =>
      if ReachStops(src[2..]) then Err
      else Ok(MpReachValue(match ParseReach(src[2..]) case Err => DEFAULT_REACH case Ok(m) => m))
    case MpUnreach =>
      Ok(MpUnreachValue(match ParseUnreach(src[2..]) case Err => DEFAULT_UNREACH case Ok(m) => m))
    case _ => Ok(Bare(t))
  }

  function ParseAttr(src: seq<Byte>): Result<PathAttribute> {
    if |src| < 2 || TypeOf(src[1]).None? then Err
    else
      var t, mask := TypeOf(src[1]).value, src[0];
      match ParseValue(t, IsExtendedLen(mask), src)
      case Err => Err
      case Ok(v) =>
        Ok(PathAttribute(mask / 128 % 2 == 1, mask / 64 % 2 == 1, mask / 32 % 2 == 1, IsExtendedLen(mask), t, v))
  }

  predicate ShortSegments(p: AsPath) {
    forall g <- p :: |g.asList| <= 255
  }

  lemma {:induction false} ReadPrintedAsns(src: seq<Byte>, i: nat, asns: seq<U16>)
    requires At(src, i, PrintAsns(asns))
    ensures ReadAsns(src, i, |asns|) == asns
    decreases |asns|
  {
    if asns != [] {
      AtSplit(src, i, PutU16(asns[0]), PrintAsns(asns[1..]));
      AtIndex(src, i, PutU16(asns[0]), 0);
      AtIndex(src, i, PutU16(asns[0]), 1);
      PutGetU16(asns[0]);
      ReadPrintedAsns(src, i + 2, asns[1..]);
    }
  }

  lemma {:induction false} PrintReadAsns(src: seq<Byte>, i: nat, n: nat)
    requires i + 2 * n <= |src|
    ensures At(src, i, PrintAsns(ReadAsns(src, i, n)))
    decreases n
  {
    if n > 0 {
      PrintReadAsns(src, i + 2, n - 1);
      var rest := ReadAsns(src, i + 2, n - 1);
      assert ReadAsns(src, i, n)[1..] == rest;
      GetPutU16(src[i], src[i + 1]);
      assert At(src, i, PutU16(GetU16(src[i], src[i + 1])));
      AtSplit(src, i, PutU16(GetU16(src[i], src[i + 1])), PrintAsns(rest));
    }
  }

  lemma SegmentReadsBack(src: seq<Byte>, i: nat, g: Segment, total: nat)
    requires |g.asList| <= 255 && At(src, i, PrintSegment(g)) && |PrintSegment(g)| <= total
    ensures var n := |PrintSegment(g)|;
            ReadSegments(src, i, total) == After([g], ReadSegments(src, i + n, total - n))
  {
    hide PrintAsns, ReadAsns;
    var head := [SegmentCode(g.kind), |g.asList| % 256];
    AtIndex(src, i, PrintSegment(g), 0);
    AtIndex(src, i, PrintSegment(g), 1);
    AtSplit(src, i, head, PrintAsns(g.asList));
    ReadPrintedAsns(src, i + 2, g.asList);
  }

  /** Reading undoes printing ... */
  lemma {:induction false} ReadPrintedPath(src: seq<Byte>, i: nat, p: AsPath)
    requires ShortSegments(p) && At(src, i, PrintPath(p))
    ensures ReadSegments(src, i, |PrintPath(p)|) == Ok(p)
    decreases |p|
  {
    hide PrintSegment, At;
    if p != [] {
      assert PrintPath(p) == PrintSegment(p[0]) + PrintPath(p[1..]);
      hide PrintPath, ReadSegments;
      AtSplit(src, i, PrintSegment(p[0]), PrintPath(p[1..]));
      SegmentReadsBack(src, i, p[0], |PrintPath(p)|);
      ReadPrintedPath(src, i + |PrintSegment(p[0])|, p[1..]);
      assert [p[0]] + p[1..] == p;
    }
  }

  /** One segment read, and what is read behind it. */
  lemma SegmentPrintsBack(src: seq<Byte>, i: nat, total: nat)
    requires ReadSegments(src, i, total).Ok? && i <= |src| && total > 0
    ensures i + 2 <= |src|
    ensures var n: nat := src[i + 1];
            var p := ReadSegments(src, i, total).value;
            && i + 2 + 2 * n <= |src| && 2 + 2 * n <= total
            && p != [] && |p[0].asList| == n && At(src, i, PrintSegment(p[0]))
            && ReadSegments(src, i + 2 + 2 * n, total - (2 + 2 * n)) == Ok(p[1..])
  {
    var n: nat := src[i + 1];
    var g := Segment(SegmentTypeOf(src[i]).value, ReadAsns(src, i + 2, n));
    var rest := ReadSegments(src, i + 2 + 2 * n, total - (2 + 2 * n)).value;
    assert ReadSegments(src, i, total).value == [g] + rest;
    assert ([g] + rest)[1..] == rest;
    PrintReadAsns(src, i + 2, n);
    var head := [SegmentCode(g.kind), n % 256];
    assert At(src, i, head);
    AtSplit(src, i, head, PrintAsns(g.asList));
  }

  /** ... and printing undoes reading: the declared length is used up to the octet. */
  lemma {:induction false} PrintReadPath(src: seq<Byte>, i: nat, total: nat)
    requires ReadSegments(src, i, total).Ok? && i <= |src|
    ensures var p := ReadSegments(src, i, total).value;
            ShortSegments(p) && |PrintPath(p)| == total && At(src, i, PrintPath(p))
    decreases total
  {
    if total > 0 {
      SegmentPrintsBack(src, i, total);
      hide ReadSegments, PrintSegment, ReadAsns, At;
      var n: nat := src[i + 1];
      var p := ReadSegments(src, i, total).value;
      PrintReadPath(src, i + 2 + 2 * n, total - (2 + 2 * n));
      AtSplit(src, i, PrintSegment(p[0]), PrintPath(p[1..]));
      assert p == [p[0]] + p[1..];
    }
  }

  /** The values the daemon prints in a form it reads again. */
  predicate WireValue(v: AttrValue) {
    match v
    case AsPathValue(p) => ShortSegments(p) && |PrintPath(p)| <= 0xffff
    case NextHopValue(a) => a.afi == Ipv4
    case AggregatorValue(_, a) => a.afi == Ipv4
    case MpReachValue(_) => false
    case MpUnreachValue(_) => false
    case Bare(t) => IsBare(t)
    case _ => true
  }

  predicate WireAttr(a: PathAttribute) {
    WireValue(a.value) && a.typeCode == TypeOfValue(a.value)
  }

  /** What the printed form says of the attribute: the length flag follows the value. */
  function Normal(a: PathAttribute): PathAttribute {
    a.(extendedLength := |ValueOctets(a.value)| > 255, typeCode := TypeOfValue(a.value))
  }

  lemma FlagsReadBack(e: bool, p: bool, t: bool, o: bool)
    ensures var m := FlagOctet(e, p, t, o);
            IsExtendedLen(m) == e && (m / 32 % 2 == 1) == p && (m / 64 % 2 == 1) == t && (m / 128 % 2 == 1) == o
  {
  }

  lemma PathReadsBack(src: seq<Byte>, flags: seq<Byte>, p: AsPath)
    requires |flags| == 2 && ShortSegments(p) && |PrintPath(p)| <= 0xffff
    requires src == flags + LengthOctets(|PrintPath(p)|) + PrintPath(p)
    ensures ReadPath(src, |PrintPath(p)| > 255) == Ok(p)
  {
    hide ReadSegments, PrintPath, ShortSegments, PutU16, GetU16, At;
    var n := |PrintPath(p)|;
    var head := flags + LengthOctets(n);
    BehindHead(head, PrintPath(p));
    ReadPrintedPath(src, |head|, p);
    PutGetU16(n);
    assert src[2] == LengthOctets(n)[0];
    if n > 255 {
      assert src[3] == LengthOctets(n)[1];
    }
  }

  lemma BehindHead(head: seq<Byte>, s: seq<Byte>)
    ensures At(head + s, |head|, s)
  {
  }

  lemma ShortValueAt(src: seq<Byte>, flags: seq<Byte>, s: seq<Byte>)
    requires |flags| == 2 && |s| <= 255 && src == flags + LengthOctets(|s|) + s
    ensures |src| == 3 + |s| && forall k | 0 <= k < |s| :: src[3 + k] == s[k]
  {
  }

  lemma NumberReadsBack(src: seq<Byte>, flags: seq<Byte>, n: U32)
    requires |flags| == 2 && src == flags + LengthOctets(4) + PutU32(n)
    ensures |src| == 7 && GetU32(src[3], src[4], src[5], src[6]) == n
  {
    hide PutU32, GetU32;
    var s := PutU32(n);
    ShortValueAt(src, flags, s);
    assert src[3 + 0] == s[0] && src[3 + 1] == s[1] && src[3 + 2] == s[2] && src[3 + 3] == s[3];
    PutGetU32(n);
  }

  lemma HopReadsBack(src: seq<Byte>, flags: seq<Byte>, front: seq<Byte>, a: IpAddr)
    requires |flags| == 2 && |front| <= 2 && a.afi == Ipv4
    requires src == flags + LengthOctets(|front| + 4) + (front + a.octets)
    ensures |src| == 7 + |front| && V4At(src, 3 + |front|) == a
    ensures forall k | 0 <= k < |front| :: src[3 + k] == front[k]
  {
    var s := front + a.octets;
    ShortValueAt(src, flags, s);
    var part := src[3 + |front|..7 + |front|];
    forall k | 0 <= k < 4
      ensures part[k] == a.octets[k]
    {
      assert part[k] == src[3 + (|front| + k)] == s[|front| + k];
    }
    assert part == a.octets;
    forall k | 0 <= k < |front|
      ensures src[3 + k] == front[k]
    {
      assert s[k] == front[k];
    }
  }

  lemma PathValueReadsBack(src: seq<Byte>, flags: seq<Byte>, p: AsPath)
    requires |flags| == 2 && WireValue(AsPathValue(p))
    requires src == flags + LengthOctets(|PrintPath(p)|) + PrintPath(p)
    ensures ParseValue(AsPath, |PrintPath(p)| > 255, src) == Ok(AsPathValue(p))
  {
    hide ReadPath, PrintPath, LengthOctets;
    PathReadsBack(src, flags, p);
  }

  lemma NumberValueReadsBack(src: seq<Byte>, flags: seq<Byte>, n: U32)
    requires |flags| == 2 && src == flags + LengthOctets(4) + PutU32(n)
    ensures ParseValue(MultiExitDisc, false, src) == Ok(MedValue(n))
    ensures ParseValue(LocalPref, false, src) == Ok(LocalPrefValue(n))
  {
    hide LengthOctets, PutU32, GetU32;
    NumberReadsBack(src, flags, n);
  }

  lemma HopValueReadsBack(src: seq<Byte>, flags: seq<Byte>, a: IpAddr)
    requires |flags| == 2 && a.afi == Ipv4 && src == flags + LengthOctets(4) + a.octets
    ensures ParseValue(NextHop, false, src) == Ok(NextHopValue(a))
  {
    hide LengthOctets, V4At;
    assert [] + a.octets == a.octets;
    HopReadsBack(src, flags, [], a);
  }

  lemma AggregatorReadsBack(src: seq<Byte>, flags: seq<Byte>, n: U16, a: IpAddr)
    requires |flags| == 2 && a.afi == Ipv4 && src == flags + LengthOctets(6) + (PutU16(n) + a.octets)
    ensures ParseValue(Aggregator, false, src) == Ok(AggregatorValue(n, a))
  {
    hide LengthOctets, V4At, PutU16, GetU16;
    HopReadsBack(src, flags, PutU16(n), a);
    assert src[3 + 0] == PutU16(n)[0] && src[3 + 1] == PutU16(n)[1];
    PutGetU16(n);
  }

  lemma ShortValueReadsBack(src: seq<Byte>, flags: seq<Byte>, v: AttrValue)
    requires |flags| == 2 && WireValue(v) && (v.OriginValue? || v.Bare?)
    requires src == flags + LengthOctets(|ValueOctets(v)|) + ValueOctets(v)
    ensures ParseValue(TypeOfValue(v), false, src) == Ok(v)
  {
    ShortValueAt(src, flags, ValueOctets(v));
  }

  lemma ValueReadsBack(src: seq<Byte>, flags: seq<Byte>, v: AttrValue)
    requires |flags| == 2 && WireValue(v)
    requires src == flags + LengthOctets(|ValueOctets(v)|) + ValueOctets(v)
    ensures ParseValue(TypeOfValue(v), |ValueOctets(v)| > 255, src) == Ok(v)
  {
    hide ParseValue, PrintPath, LengthOctets, PutU16, PutU32;
    match v
    case AsPathValue(p) => PathValueReadsBack(src, flags, p);
    case NextHopValue(a) => HopValueReadsBack(src, flags, a);
    case MedValue(n) => NumberValueReadsBack(src, flags, n);
    case LocalPrefValue(n) => NumberValueReadsBack(src, flags, n);
    case AggregatorValue(n, a) => AggregatorReadsBack(src, flags, n, a);
    case OriginValue(_) => ShortValueReadsBack(src, flags, v);
    case Bare(_) => ShortValueReadsBack(src, flags, v);
  }

  /** A printed attribute reads as itself, on either side of the 255-octet switch. */
  lemma AttrRoundTrip(a: PathAttribute)
    requires WireAttr(a)
    ensures ParseAttr(PrintAttr(a)) == Ok(Normal(a))
  {
    var v := ValueOctets(a.value);
    var flags := [FlagOctet(|v| > 255, a.partial, a.transitive, a.optional), CodeOf(TypeOfValue(a.value))];
    FlagsReadBack(|v| > 255, a.partial, a.transitive, a.optional);
    ValueReadsBack(PrintAttr(a), flags, a.value);
  }

  function DefaultOf(v: AttrValue): AttrValue
    requires v.MpReachValue? || v.MpUnreachValue?
  {
    if v.MpReachValue? then MpReachValue(DEFAULT_REACH) else MpUnreachValue(DEFAULT_UNREACH)
  }

  lemma MpPayload(v: AttrValue) returns (payload: seq<Byte>)
    requires v.MpReachValue? || v.MpUnreachValue?
    ensures ValueOctets(v) == Counted(payload)
    ensures |payload| >= 3 && payload[0] == 0 && payload[1] in {1, 2}
  {
    if v.MpReachValue? {
      var rest := PrintAddr(v.reach.nh) + PrintNlris(v.reach.nlris);
      FamilyAtFront(v.reach.af, rest);
      payload := FamilyOctets(v.reach.af) + rest;
      assert payload == ReachPayload(v.reach);
    } else {
      FamilyAtFront(v.unreach.af, PrintNlris(v.unreach.nlris));
      payload := UnreachPayload(v.unreach);
    }
  }

  /** A multiprotocol value is printed behind two lengths, its own and the attribute's, but read
      behind one: whatever was announced, an empty IPv6 value is what is read. */
  lemma MpReadsAsDefault(a: PathAttribute)
    requires a.value.MpReachValue? || a.value.MpUnreachValue?
    ensures ParseAttr(PrintAttr(a)) == Ok(Normal(a).(value := DefaultOf(a.value)))
  {
    hide ParseReach, ParseUnreach, PrintReach, PrintUnreach, ReadPath, ReachStops;
    var v := ValueOctets(a.value);
    FlagsReadBack(|v| > 255, a.partial, a.transitive, a.optional);
    assert PrintAttr(a)[2..] == LengthOctets(|v|) + v;
    var payload := MpPayload(a.value);
    ShiftedFamilyIsUnknown(payload, LengthOctets(|v|));
  }

  /** So a multiprotocol attribute survives the wire exactly when it is that empty value. */
  lemma MpRoundTripsIffDefault(a: PathAttribute)
    requires a.value.MpReachValue? || a.value.MpUnreachValue?
    ensures ParseAttr(PrintAttr(a)) == Ok(Normal(a)) <==> a.value == DefaultOf(a.value)
  {
    MpReadsAsDefault(a);
  }

  /** A reachable prefix of 24 bits without its octets stops the parser. */
  lemma TruncatedReachStops()
    ensures ParseAttr([0x80, 14, 5, 0, 1, 1, 0, 24]) == Err
  {
    hide ParseReach, ParseUnreach, ReadPath;
    var s: seq<Byte> := [0x80, 14, 5, 0, 1, 1, 0, 24];
    assert s[2..] == [5, 0, 1, 1, 0, 24] && s[2..][1..] == [0, 1, 1, 0, 24];
    assert RunsOut(Ipv4, s[2..][1..], 4, 5);
  }

  /** An unreachable one is an error, and read as the default value. */
  lemma TruncatedUnreachIsDefault()
    ensures ParseAttr([0x80, 15, 4, 0, 1, 1, 24]) ==
            Ok(PathAttribute(true, false, false, false, MpUnreach, MpUnreachValue(DEFAULT_UNREACH)))
  {
    hide ParseReach, ReachStops, ReadPath;
    var s: seq<Byte> := [0x80, 15, 4, 0, 1, 1, 24];
    assert s[2..] == [4, 0, 1, 1, 24] && s[2..][1..] == [0, 1, 1, 24];
    assert ReadNlris(Ipv4, s[2..][1..], 3, 4) == Err;
  }

  method ReadSegmentList(src: seq<Byte>, start: nat, declared: nat) returns (r: Result<AsPath>)
    ensures r == ReadSegments(src, start, declared)
  {
    var path: AsPath := [];
    var total: nat, i: nat := declared, start;
    AfterTwice([], Segment(AsSet, []), ReadSegments(src, start, declared));
    while total > 0
      invariant ReadSegments(src, start, declared) ==
                After(path, ReadSegments(src, i, total))
    {
      if |src| < i + 2 || SegmentTypeOf(src[i]).None? {
        return Err;
      }
      var n: nat := src[i + 1];
      if |src| < i + 2 + 2 * n {
        return Err;
      }
      var asList := ReadAsnList(src, i + 2, n);
      if total < 2 + 2 * n {
        return Err;
      }
      var g := Segment(SegmentTypeOf(src[i]).value, asList);
      AfterTwice(path, g, ReadSegments(src, i + 2 + 2 * n, total - (2 + 2 * n)));
      path := path + [g];
      total, i := total - (2 + 2 * n), i + 2 + 2 * n;
    }
    assert path + [] == path;
    r := Ok(path);
  }

  method ReadAsnList(src: seq<Byte>, i: nat, n: nat) returns (asns: seq<U16>)
    requires i + 2 * n <= |src|
    ensures asns == ReadAsns(src, i, n)
  {
    hide GetU16;
    asns := [];
    for x := 0 to n
      invariant asns + ReadAsns(src, i + 2 * x, n - x) == ReadAsns(src, i, n)
    {
      var j := i + 2 * x;
      var asn := GetU16(src[j], src[j + 1]);
      ghost var rest := ReadAsns(src, j + 2, n - x - 1);
      assert ReadAsns(src, j, n - x) == [asn] + rest;
      assert asns + ([asn] + rest) == asns + [asn] + rest;
      asns := asns + [asn];
    }
  }

  method ParsePathAttribute(src: seq<Byte>) returns (r: Result<PathAttribute>)
    ensures r == ParseAttr(src)
  {
    if |src| < 2 || TypeOf(src[1]).None? {
      return Err;
    }
    var mask, t := src[0], TypeOf(src[1]).value;
    var extended := IsExtendedLen(mask);
    var value: Result<AttrValue>;
    match t {
      case AsPath =>
        if |src| < (if extended then 4 else 3) {
          return Err;
        }
        var path;
        if extended {
          path := ReadSegmentList(src, 4, GetU16(src[2], src[3]));
        } else {
          path := ReadSegmentList(src, 3, src[2]);
        }
        if path.Err? {
          return Err;
        }
        value := Ok(AsPathValue(path.value));
      case MpReach =>
        var m, stops := ParseReachValue(src[2..]);
        if stops {
          return Err;
        }
        value := Ok(MpReachValue(if m.Ok? then m.value else DEFAULT_REACH));
      case MpUnreach =>
        var m := ParseUnreachValue(src[2..]);
        value := Ok(MpUnreachValue(if m.Ok? then m.value else DEFAULT_UNREACH));
      case _ =>
        value := ParseValue(t, extended, src);
    }
    if value.Err? {
      return Err;
    }
    r := Ok(PathAttribute(mask / 128 % 2 == 1, mask / 64 % 2 == 1, mask / 32 % 2 == 1, extended, t, value.value));
  }

  lemma {:induction false} PrintAsnsSnoc(asns: seq<U16>, asn: U16)
    ensures PrintAsns(asns + [asn]) == PrintAsns(asns) + PutU16(asn)
  {
    if asns == [] {
      assert PrintAsns([asn]) == PutU16(asn) + PrintAsns([asn][1..]);
    } else {
      assert (asns + [asn])[1..] == asns[1..] + [asn];
      PrintAsnsSnoc(asns[1..], asn);
    }
  }

  lemma {:induction false} PrintPathSnoc(p: AsPath, g: Segment)
    ensures PrintPath(p + [g]) == PrintPath(p) + PrintSegment(g)
  {
    if p == [] {
      assert PrintPath([g]) == PrintSegment(g) + PrintPath([g][1..]);
    } else {
      assert (p + [g])[1..] == p[1..] + [g];
      PrintPathSnoc(p[1..], g);
    }
  }

  method PrintPathSegments(p: AsPath) returns (buf: seq<Byte>)
    ensures buf == PrintPath(p)
  {
    hide PrintSegment;
    buf := [];
    for k := 0 to |p|
      invariant buf == PrintPath(p[..k])
    {
      PrintPathSnoc(p[..k], p[k]);
      assert p[..k + 1] == p[..k] + [p[k]];
      var segment := PrintOneSegment(p[k]);
      buf := buf + segment;
    }
    assert p[..|p|] == p;
  }

  method PrintOneSegment(g: Segment) returns (v: seq<Byte>)
    ensures v == PrintSegment(g)
  {
    hide PutU16;
    v := [SegmentCode(g.kind)];
    v := v + [|g.asList| % 256];
    var buf: seq<Byte> := [];
    for j := 0 to |g.asList|
      invariant buf == PrintAsns(g.asList[..j])
    {
      PrintAsnsSnoc(g.asList[..j], g.asList[j]);
      assert g.asList[..j + 1] == g.asList[..j] + [g.asList[j]];
      buf := buf + PutU16(g.asList[j]);
    }
    assert g.asList[..|g.asList|] == g.asList;
    v := v + buf;
  }

  method PrintPathAttribute(a: PathAttribute) returns (buf: seq<Byte>)
    ensures buf == PrintAttr(a)
  {
    hide PrintPath, PrintReach, PrintUnreach, PutU32;
    var val: seq<Byte>;
    match a.value {
      case AsPathValue(p) => val := PrintPathSegments(p);
      case MpReachValue(m) => val := PrintReachValue(m);
      case MpUnreachValue(m) => val := PrintUnreachValue(m);
      case v => val := ValueOctets(v);
    }
    var extended := |val| > 255;
    var mask := (if extended then 1 else 0) + (if a.partial then 2 else 0)
                + (if a.transitive then 4 else 0) + if a.optional then 8 else 0;
    buf := [16 * mask, CodeOf(TypeOfValue(a.value))];
    buf := buf + if extended then [|val| / 256 % 256, |val| % 256] else [|val|];
    buf := buf + val;
  }
}
