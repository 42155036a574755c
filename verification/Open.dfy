/** The OPEN message and its capabilities (src/bgp/messages.rs:24-140, src/bgp/capabilities.rs,
    src/neighbor/capabilities.rs; RFC 5492 and section 8 of RFC 4760). */
module Opens {
  import opened Basics
  import opened Bytes
  import opened Types

  datatype ParamType = Authentication | Capability
  datatype OptionalParameter = OptionalParameter(kind: ParamType, length: nat, value: seq<Byte>)

  /** `len` counts what the sender meant to print; the reader stores the place it stopped at. */
  datatype OptionalParameters = OptionalParameters(len: nat, params: seq<OptionalParameter>)

  datatype CapabilityCode =
    | Multiprotocol | RouteRefresh | OutboundRouteFiltering | ExtendedNextHopEncoding | GracefulRestart
    | FourOctetAsn | Other

  datatype RawCapability = RawCapability(code: CapabilityCode, length: nat, value: seq<Byte>)

  /** What a session knows of a speaker's capabilities. */
  datatype Capabilities = Capabilities(
    multiprotocol: Option<seq<AddressFamily>>, routeRefresh: bool, outboundRouteFiltering: bool,
    extendedNextHopEncoding: bool, gracefulRestart: bool, fourOctetAsn: Option<nat>)

  const NO_CAPABILITIES := Capabilities(None, false, false, false, false, None)

  datatype OpenMessage = OpenMessage(
    version: Byte, asn: U16, holdTime: U16, routerId: U32, optParams: OptionalParameters)

  function ParamTypeOf(n: int): Option<ParamType> {
    if n == 1 then Some(Authentication) else if n == 2 then Some(Capability) else None
  }

  function ParamTypeCode(t: ParamType): Byte {
    match t case Authentication => 1 case Capability => 2
  }

  function CapabilityCodeOf(n: int): Option<CapabilityCode> {
    if n == 1 then Some(Multiprotocol)
    else if n == 2 then Some(RouteRefresh)
    else if n == 3 then Some(OutboundRouteFiltering)
    else if n == 5 then Some(ExtendedNextHopEncoding)
    else if n == 64 then Some(GracefulRestart)
    else if n == 65 then Some(FourOctetAsn)
    else if n in {67, 68, 69, 70, 71, 73, 255} then Some(Other)
    else None
  }

  /** The multiprotocol capability of a family: code, length, AFI, a reserved octet, SAFI. */
  function FamilyCapability(af: AddressFamily): (s: seq<Byte>)
    ensures |s| == 6
  {
    [1, 4] + PutU16(AfiCode(af.afi)) + [0, SafiCode(af.safi)]
  }

  function FamilyCapabilities(fams: seq<AddressFamily>): (s: seq<Byte>)
    ensures |s| == 6 * |fams|
  {
    if fams == [] then [] else FamilyCapability(fams[0]) + FamilyCapabilities(fams[1..])
  }

  function NewOpen(asn: U16, rid: U32, hold: U16, families: Option<seq<AddressFamily>>): OpenMessage {
    var caps := FamilyCapabilities(if families.None? then [IPV4_UNICAST] else families.value);
    OpenMessage(VERSION, asn, hold, rid,
                OptionalParameters(2 + |caps|, [OptionalParameter(Capability, |caps|, caps)]))
  }

  function PrintParam(p: OptionalParameter): seq<Byte> {
    [ParamTypeCode(p.kind), |p.value| % 256] + p.value
  }

  function PrintParams(ps: seq<OptionalParameter>): seq<Byte> {
    if ps == [] then [] else PrintParam(ps[0]) + PrintParams(ps[1..])
  }

  function PrintOpen(m: OpenMessage): seq<Byte> {
    [m.version] + PutU16(m.asn) + PutU16(m.holdTime) + PutU32(m.routerId)
    + [m.optParams.len % 256] + PrintParams(m.optParams.params)
  }

  /** Parameters from place `i` on, until `used` octets reach the declared `len`. Both counts are
      octets of the source, and the first wraps around as it does in a release build; running past
      the buffer is a failed parse. */
  function ReadParams(src: seq<Byte>, i: nat, used: nat, len: nat): Result<OptionalParameters>
    decreases |src| - i
  {
    if len <= used then Ok(OptionalParameters(i, []))
    else if |src| < i + 2 then Err
    else
      var n: nat := src[i + 1];
      if |src| < i + 2 + n || ParamTypeOf(src[i]).None? then Err
      else With([ParamAt(src, i)], ReadParams(src, i + 2 + n, (used + n + 2) % 256, len))
  }

  function ParamAt(src: seq<Byte>, i: nat): OptionalParameter
    requires i + 1 < |src| && i + 2 + src[i + 1] as int <= |src| && ParamTypeOf(src[i]).Some?
  {
    OptionalParameter(ParamTypeOf(src[i]).value, src[i + 1], src[i + 2..i + 2 + src[i + 1] as int])
  }

  /** What is read with more parameters before it. */
  function With(read: seq<OptionalParameter>, r: Result<OptionalParameters>): Result<OptionalParameters> {
    match r case Err => Err case Ok(ps) => Ok(ps.(params := read + ps.params))
  }

  /** The same loop in a build that stops when a count overflows. */
  function ReadParamsChecked(src: seq<Byte>, i: nat, used: nat, len: nat): Result<OptionalParameters>
    decreases |src| - i
  {
    if len <= used then Ok(OptionalParameters(i, []))
    else if |src| < i + 2 then Err
    else
      var n: nat := src[i + 1];
      if |src| < i + 2 + n || ParamTypeOf(src[i]).None? || used + n + 2 > 255 then Err
      else With([ParamAt(src, i)], ReadParamsChecked(src, i + 2 + n, used + n + 2, len))
  }

  /** What a checked build accepts, a release build reads alike. */
  lemma {:induction false} BuildsAgree(src: seq<Byte>, i: nat, used: nat, len: nat)
    requires ReadParamsChecked(src, i, used, len).Ok?
    ensures ReadParams(src, i, used, len) == ReadParamsChecked(src, i, used, len)
    decreases |src| - i
  {
    if used < len {
      var n: nat := src[i + 1];
      BuildsAgree(src, i + 2 + n, used + n + 2, len);
    }
  }

  /** The count of a release build wraps around: after a parameter of 254 octets it is zero again, and a
      list of just that parameter is read beyond its end, whatever length is declared. */
  lemma CountWrapsAround(len: Byte, v: seq<Byte>)
    requires len > 0 && |v| == 254
    ensures ReadParams([len, 2, 254] + v, 1, 0, len).Err?
  {
    var src := [len, 2, 254] + v;
    assert |src| == 257 && src[2] == 254;
    assert ReadParams(src, 257, 0, len).Err?;
  }

  function ParseOpen(src: seq<Byte>): Result<OpenMessage> {
    if |src| < 10 then Err
    else
      match ReadParams(src[9..], 1, 0, src[9])
      case Err => Err
      case Ok(ps) =>
        Ok(OpenMessage(src[0], GetU16(src[1], src[2]), GetU16(src[3], src[4]),
                       GetU32(src[5], src[6], src[7], src[8]), ps))
  }

  const UNREADABLE := RawCapability(Multiprotocol, 0, [])

  function ParseCapability(src: seq<Byte>): RawCapability {
    if |src| < 2 || CapabilityCodeOf(src[0]).None? then UNREADABLE
    else
      var n: nat := src[1];
      RawCapability(CapabilityCodeOf(src[0]).value, n, if |src| >= 2 + n then src[2..2 + n] else [])
  }

  /** The capabilities of one parameter; a last one that claims far more than is left is still kept. */
  function Scan(data: seq<Byte>, offset: nat): seq<RawCapability>
    decreases |data| - offset
  {
    if |data| < offset + 2 then []
    else
      var n: nat := data[offset + 1];
      if |data| < offset + 2 + n then
        var available := |data| - offset - 2;
        if n > 2 * available && available > 0 then [ParseCapability(data[offset..])] else []
      else [ParseCapability(data[offset..offset + 2 + n])] + Scan(data, offset + 2 + n)
  }

  function ScanAll(ps: seq<OptionalParameter>): seq<RawCapability> {
    if ps == [] then []
    else (if ps[0].kind == Capability then Scan(ps[0].value, 0) else []) + ScanAll(ps[1..])
  }

  /** The state of the loop over the capabilities: what is known so far and the families heard. */
  datatype Heard = Heard(caps: Capabilities, families: seq<AddressFamily>)

  /** One capability; a value shorter than its length says stops the daemon's parser. */
  function Hear(h: Heard, c: RawCapability): Result<Heard> {
    match c.code
    case Multiprotocol =>
      if c.length < 4 then Ok(h)
      else if |c.value| < 4 then Err
      else
        var afi, safi := AfiOf(GetU16(c.value[0], c.value[1])), SafiOf(c.value[3]);
        if afi.None? || safi.None? then Ok(h)
        else Ok(h.(families := h.families + [AddressFamily(afi.value, safi.value)]))
    case RouteRefresh => Ok(h.(caps := h.caps.(routeRefresh := true)))
    case OutboundRouteFiltering => Ok(h.(caps := h.caps.(outboundRouteFiltering := true)))
    case ExtendedNextHopEncoding => Ok(h.(caps := h.caps.(extendedNextHopEncoding := true)))
    case GracefulRestart => Ok(h.(caps := h.caps.(gracefulRestart := true)))
    case FourOctetAsn =>
      if c.length != 4 || |c.value| != 4 then Err
      else Ok(h.(caps := h.caps.(fourOctetAsn := Some(GetU32(c.value[0], c.value[1], c.value[2], c.value[3])))))
    case Other => Ok(h)
  }

  function HearAll(h: Heard, cs: seq<RawCapability>): Result<Heard>
    decreases |cs|
  {
    if cs == [] then Ok(h)
    else match Hear(h, cs[0]) case Err => Err case Ok(h') => HearAll(h', cs[1..])
  }

  /** First occurrences, in order: `Itertools::unique`. */
  function Unique<T(==)>(s: seq<T>): seq<T> {
    if s == [] then []
    else
      var init, last := s[..|s| - 1], s[|s| - 1];
      Unique(init) + if last in init then [] else [last]
  }

  function Conclude(h: Heard): Capabilities {
    if h.families == [] then h.caps else h.caps.(multiprotocol := Some(Unique(h.families)))
  }

  function Understand(ps: seq<OptionalParameter>): Result<Capabilities> {
    match HearAll(Heard(NO_CAPABILITIES, []), ScanAll(ps)) case Err => Err case Ok(h) => Ok(Conclude(h))
  }

  lemma {:induction false} UniqueMembers<T>(s: seq<T>)
    ensures NoDuplicates(Unique(s))
    ensures forall x :: x in Unique(s) <==> x in s
  {
    if s != [] {
      var init := s[..|s| - 1];
      UniqueMembers(init);
      assert s == init + [s[|s| - 1]];
    }
  }

  /** A prefix already has the distinct elements of the whole exactly when it has them all. */
  lemma {:induction false} UniqueOfPrefix<T>(s: seq<T>, k: nat)
    requires k <= |s|
    ensures Unique(s[..k]) <= Unique(s)
    ensures Unique(s[..k]) == Unique(s) <==> forall x <- s :: x in s[..k]
  {
    if k == |s| {
      assert s[..k] == s;
    } else {
      var init := s[..|s| - 1];
      assert init[..k] == s[..k];
      var last := s[|s| - 1];
      assert s == init + [last];
      UniqueOfPrefix(init, k);
      UniqueMembers(s);
      UniqueMembers(s[..k]);
      if forall x <- s :: x in s[..k] {
        assert last in s;
        assert last in init;
        assert forall x <- init :: x in s;
      } else {
        assert exists x :: x in s && x !in s[..k];
      }
    }
  }

  /** All of a capability that begins at place `k` is there, as many octets as its second one says. */
  predicate Fits(d: seq<Byte>, k: nat) {
    k + 1 < |d| && k + 2 + d[k + 1] as int <= |d|
  }

  /** It has something behind its two first octets, but claims more than twice as much. */
  predicate Overclaims(d: seq<Byte>, k: nat) {
    k + 2 < |d| && d[k + 1] > 2 * (|d| - k - 2)
  }

  /** From place `i` whole capabilities, one behind the other, lead to place `k`. */
  predicate LeadsTo(d: seq<Byte>, i: nat, k: nat)
    decreases |d| - i
  {
    i == k || (Fits(d, i) && LeadsTo(d, i + 2 + d[i + 1] as int, k))
  }

  /** A whole capability stands at place `k` of a parameter's value. */
  predicate WholeAt(d: seq<Byte>, k: nat) {
    LeadsTo(d, 0, k) && Fits(d, k)
  }

  /** The value ends in a capability at place `k` that is kept although most of it is missing. */
  predicate CutAt(d: seq<Byte>, k: nat) {
    LeadsTo(d, 0, k) && Overclaims(d, k)
  }

  function RawAt(d: seq<Byte>, k: nat): RawCapability
    requires Fits(d, k) || Overclaims(d, k)
  {
    ParseCapability(if Fits(d, k) then d[k..k + 2 + d[k + 1] as int] else d[k..])
  }

  lemma RawAtIs(d: seq<Byte>, k: nat)
    requires Fits(d, k) || Overclaims(d, k)
    ensures RawAt(d, k) ==
            match CapabilityCodeOf(d[k])
            case None => UNREADABLE
            case Some(code) => RawCapability(code, d[k + 1], if Fits(d, k) then d[k + 2..k + 2 + d[k + 1] as int] else [])
  {
    if Fits(d, k) {
      assert d[k..k + 2 + d[k + 1] as int][2..] == d[k + 2..k + 2 + d[k + 1] as int];
    }
  }

  /** The capabilities of a parameter are those that stand in its value. */
  lemma {:induction false} ScanHas(d: seq<Byte>, i: nat, c: RawCapability)
    ensures c in Scan(d, i) <==>
            exists k: nat :: LeadsTo(d, i, k) && (Fits(d, k) || Overclaims(d, k)) && c == RawAt(d, k)
    decreases |d| - i
  {
    hide ParseCapability;
    if Fits(d, i) {
      var next := i + 2 + d[i + 1] as int;
      ScanHas(d, next, c);
      assert LeadsTo(d, i, i);
      assert forall k: nat :: LeadsTo(d, i, k) <==> k == i || LeadsTo(d, next, k);
    } else {
      assert forall k: nat :: LeadsTo(d, i, k) <==> k == i;
    }
  }

  lemma {:induction false} ScanAllHas(ps: seq<OptionalParameter>, c: RawCapability)
    ensures c in ScanAll(ps) <==> exists p <- ps :: p.kind == Capability && c in Scan(p.value, 0)
  {
    hide Scan;
    if ps != [] {
      ScanAllHas(ps[1..], c);
      assert ps[0] in ps && forall p <- ps :: p == ps[0] || p in ps[1..];
    }
  }

  /** The capability names this family, so far as its octets can be read. */
  predicate NamesFamily(c: RawCapability, af: AddressFamily) {
    && c.code == Multiprotocol && c.length >= 4 && |c.value| >= 4
    && AfiOf(GetU16(c.value[0], c.value[1])) == Some(af.afi) && SafiOf(c.value[3]) == Some(af.safi)
  }

  /** The capability stops the parser: its value is shorter than it says, or not the four octets of an ASN. */
  predicate StopsParser(c: RawCapability) {
    || (c.code == Multiprotocol && c.length >= 4 && |c.value| < 4)
    || (c.code == FourOctetAsn && (c.length != 4 || |c.value| != 4))
  }

  lemma HearOne(h: Heard, c: RawCapability, af: AddressFamily)
    ensures Hear(h, c).Err? <==> StopsParser(c)
    ensures Hear(h, c).Ok? ==>
              var caps, before := Hear(h, c).value.caps, h.caps;
              && (af in Hear(h, c).value.families <==> af in h.families || NamesFamily(c, af))
              && caps.multiprotocol == before.multiprotocol
              && (caps.routeRefresh <==> before.routeRefresh || c.code == RouteRefresh)
              && (caps.outboundRouteFiltering <==> before.outboundRouteFiltering || c.code == OutboundRouteFiltering)
              && (caps.extendedNextHopEncoding <==> before.extendedNextHopEncoding || c.code == ExtendedNextHopEncoding)
              && (caps.gracefulRestart <==> before.gracefulRestart || c.code == GracefulRestart)
              && (caps.fourOctetAsn.Some? <==> before.fourOctetAsn.Some? || c.code == FourOctetAsn)
  {
    hide GetU16, GetU32;
  }

  lemma {:induction false} HearAllStops(h: Heard, cs: seq<RawCapability>)
    ensures HearAll(h, cs).Err? <==> exists c <- cs :: StopsParser(c)
    decreases |cs|
  {
    hide Hear, StopsParser;
    if cs != [] {
      HearOne(h, cs[0], IPV4_UNICAST);
      assert cs[0] in cs && forall c <- cs :: c == cs[0] || c in cs[1..];
      if Hear(h, cs[0]).Ok? {
        HearAllStops(Hear(h, cs[0]).value, cs[1..]);
      }
    }
  }

  lemma {:induction false} HearAllFamilies(h: Heard, cs: seq<RawCapability>, af: AddressFamily)
    requires HearAll(h, cs).Ok?
    ensures af in HearAll(h, cs).value.families <==> af in h.families || exists c <- cs :: NamesFamily(c, af)
    ensures HearAll(h, cs).value.caps.multiprotocol == h.caps.multiprotocol
    decreases |cs|
  {
    hide Hear, NamesFamily;
    if cs != [] {
      HearOne(h, cs[0], af);
      assert cs[0] in cs && forall c <- cs :: c == cs[0] || c in cs[1..];
      HearAllFamilies(Hear(h, cs[0]).value, cs[1..], af);
    }
  }

  lemma {:induction false} HearAllFlags(h: Heard, cs: seq<RawCapability>)
    requires HearAll(h, cs).Ok?
    ensures var caps := HearAll(h, cs).value.caps;
            && (caps.routeRefresh <==> h.caps.routeRefresh || exists c <- cs :: c.code == RouteRefresh)
            && (caps.outboundRouteFiltering <==>
                  h.caps.outboundRouteFiltering || exists c <- cs :: c.code == OutboundRouteFiltering)
            && (caps.extendedNextHopEncoding <==>
                  h.caps.extendedNextHopEncoding || exists c <- cs :: c.code == ExtendedNextHopEncoding)
            && (caps.gracefulRestart <==> h.caps.gracefulRestart || exists c <- cs :: c.code == GracefulRestart)
            && (caps.fourOctetAsn.Some? <==> h.caps.fourOctetAsn.Some? || exists c <- cs :: c.code == FourOctetAsn)
    decreases |cs|
  {
    hide Hear;
    if cs != [] {
      HearOne(h, cs[0], IPV4_UNICAST);
      assert cs[0] in cs && forall c <- cs :: c == cs[0] || c in cs[1..];
      HearAllFlags(Hear(h, cs[0]).value, cs[1..]);
    }
  }

  /** A capability that stands in a capability parameter, whole or cut off. */
  lemma StandsIn(ps: seq<OptionalParameter>, c: RawCapability)
    ensures c in ScanAll(ps) <==>
            exists p, k: nat :: p in ps && p.kind == Capability
                                && (WholeAt(p.value, k) || CutAt(p.value, k)) && c == RawAt(p.value, k)
  {
    hide RawAt, LeadsTo, Fits, Overclaims, Scan, ScanAll;
    ScanAllHas(ps, c);
    forall p <- ps
      ensures c in Scan(p.value, 0) <==>
              exists k: nat :: (WholeAt(p.value, k) || CutAt(p.value, k)) && c == RawAt(p.value, k)
    {
      ScanHas(p.value, 0, c);
    }
  }

  lemma RawNames(d: seq<Byte>, k: nat, af: AddressFamily)
    requires Fits(d, k) || Overclaims(d, k)
    ensures NamesFamily(RawAt(d, k), af) <==>
            && Fits(d, k) && d[k] == 1 && d[k + 1] >= 4
            && 256 * d[k + 2] as int + d[k + 3] == (match af.afi case Ipv4 => 1 case Ipv6 => 2)
            && d[k + 5] == match af.safi case Unicast => 1 case Multicast => 2
  {
    hide RawAt;
    RawAtIs(d, k);
  }

  lemma RawStops(d: seq<Byte>, k: nat)
    requires Fits(d, k) || Overclaims(d, k)
    ensures StopsParser(RawAt(d, k)) <==>
            if Fits(d, k) then d[k] == 65 && d[k + 1] != 4
            else d[k] == 65 || (d[k] == 1 && d[k + 1] >= 4)
  {
    hide RawAt;
    RawAtIs(d, k);
  }

  lemma RawCode(d: seq<Byte>, k: nat)
    requires Fits(d, k) || Overclaims(d, k)
    ensures var c := RawAt(d, k).code;
            && (c == RouteRefresh <==> d[k] == 2) && (c == OutboundRouteFiltering <==> d[k] == 3)
            && (c == ExtendedNextHopEncoding <==> d[k] == 5) && (c == GracefulRestart <==> d[k] == 64)
            && (c == FourOctetAsn <==> d[k] == 65)
  {
    hide RawAt;
    RawAtIs(d, k);
  }

  /** The loop over all capabilities of an OPEN, before the families are cleared of repeats. */
  lemma Concluded(ps: seq<OptionalParameter>)
    requires Understand(ps).Ok?
    ensures var h := HearAll(Heard(NO_CAPABILITIES, []), ScanAll(ps));
            && h.Ok? && h.value.caps.multiprotocol == None
            && Understand(ps).value ==
               h.value.caps.(multiprotocol := if h.value.families == [] then None else Some(Unique(h.value.families)))
  {
    hide HearAll, Unique, ScanAll;
    HearAllFamilies(Heard(NO_CAPABILITIES, []), ScanAll(ps), IPV4_UNICAST);
  }

  lemma FamilyHeardIff(ps: seq<OptionalParameter>, af: AddressFamily)
    requires Understand(ps).Ok?
    ensures var heard := Understand(ps).value.multiprotocol;
            && ((heard.Some? && af in heard.value) <==> exists c <- ScanAll(ps) :: NamesFamily(c, af))
            && (heard.Some? ==> heard.value != [] && NoDuplicates(heard.value))
  {
    hide HearAll, Unique, ScanAll, NamesFamily, Understand, NoDuplicates;
    Concluded(ps);
    var h := Heard(NO_CAPABILITIES, []);
    HearAllFamilies(h, ScanAll(ps), af);
    var families := HearAll(h, ScanAll(ps)).value.families;
    UniqueMembers(families);
    if families != [] {
      assert families[0] in Unique(families);
    }
  }

  /** A whole multiprotocol capability with the family's numbers in the first two and the fourth octet of
      its value. */
  predicate NamesAt(d: seq<Byte>, k: nat, af: AddressFamily) {
    && WholeAt(d, k) && d[k] == 1 && d[k + 1] >= 4
    && 256 * d[k + 2] as int + d[k + 3] == (match af.afi case Ipv4 => 1 case Ipv6 => 2)
    && d[k + 5] == match af.safi case Unicast => 1 case Multicast => 2
  }

  /** A family is understood exactly when some capability parameter has a whole capability that names it;
      none is understood twice. */
  lemma FamilyUnderstoodIff(ps: seq<OptionalParameter>, af: AddressFamily)
    requires Understand(ps).Ok?
    ensures var heard := Understand(ps).value.multiprotocol;
            && ((heard.Some? && af in heard.value) <==>
                  exists p, k: nat :: p in ps && p.kind == Capability && NamesAt(p.value, k, af))
            && (heard.Some? ==> heard.value != [] && NoDuplicates(heard.value))
  {
    hide LeadsTo, ScanAll, RawAt, NamesFamily, Understand, NoDuplicates;
    FamilyHeardIff(ps, af);
    if c :| c in ScanAll(ps) && NamesFamily(c, af) {
      StandsIn(ps, c);
      var p, k: nat :| p in ps && p.kind == Capability && (WholeAt(p.value, k) || CutAt(p.value, k))
                       && c == RawAt(p.value, k);
      RawNames(p.value, k, af);
      assert NamesAt(p.value, k, af);
    }
    if p, k: nat :| p in ps && p.kind == Capability && NamesAt(p.value, k, af) {
      StandsIn(ps, RawAt(p.value, k));
      RawNames(p.value, k, af);
    }
  }

  lemma StandsThere(d: seq<Byte>, k: nat)
    requires WholeAt(d, k) || CutAt(d, k)
    ensures WholeAt(d, k) <==> Fits(d, k)
    ensures CutAt(d, k) <==> Overclaims(d, k)
    ensures Fits(d, k) ==> k + 1 < |d| && k + 2 + d[k + 1] as int <= |d|
    ensures Overclaims(d, k) ==> k + 2 < |d| && !Fits(d, k)
  {
  }

  /** The flags and the four-octet AS number are there exactly when a capability of their code stands in
      some capability parameter, be it cut off. */
  lemma FlagsUnderstoodIff(ps: seq<OptionalParameter>)
    requires Understand(ps).Ok?
    ensures var caps := Understand(ps).value;
            && (caps.routeRefresh <==> Mentions(ps, 2))
            && (caps.outboundRouteFiltering <==> Mentions(ps, 3))
            && (caps.extendedNextHopEncoding <==> Mentions(ps, 5))
            && (caps.gracefulRestart <==> Mentions(ps, 64))
            && (caps.fourOctetAsn.Some? <==> Mentions(ps, 65))
  {
    hide Understand, ScanAll, HearAll;
    Concluded(ps);
    HearAllFlags(Heard(NO_CAPABILITIES, []), ScanAll(ps));
    MentionsIff(ps);
  }

  predicate HasCode(d: seq<Byte>, k: nat, code: Byte) {
    (WholeAt(d, k) || CutAt(d, k)) && d[k] == code
  }

  /** Some capability parameter has a capability of this code, whole or cut off. */
  ghost predicate Mentions(ps: seq<OptionalParameter>, code: Byte) {
    exists p, k: nat :: p in ps && p.kind == Capability && HasCode(p.value, k, code)
  }

  lemma MentionsIff(ps: seq<OptionalParameter>)
    ensures Mentions(ps, 2) <==> exists c <- ScanAll(ps) :: c.code == RouteRefresh
    ensures Mentions(ps, 3) <==> exists c <- ScanAll(ps) :: c.code == OutboundRouteFiltering
    ensures Mentions(ps, 5) <==> exists c <- ScanAll(ps) :: c.code == ExtendedNextHopEncoding
    ensures Mentions(ps, 64) <==> exists c <- ScanAll(ps) :: c.code == GracefulRestart
    ensures Mentions(ps, 65) <==> exists c <- ScanAll(ps) :: c.code == FourOctetAsn
  {
    MentionIff(ps, 2, RouteRefresh);
    MentionIff(ps, 3, OutboundRouteFiltering);
    MentionIff(ps, 5, ExtendedNextHopEncoding);
    MentionIff(ps, 64, GracefulRestart);
    MentionIff(ps, 65, FourOctetAsn);
  }

  lemma MentionIff(ps: seq<OptionalParameter>, n: Byte, code: CapabilityCode)
    requires (n, code) in {(2, RouteRefresh), (3, OutboundRouteFiltering), (5, ExtendedNextHopEncoding),
                           (64, GracefulRestart), (65, FourOctetAsn)}
    ensures Mentions(ps, n) <==> exists c <- ScanAll(ps) :: c.code == code
  {
    hide LeadsTo, ScanAll, RawAt;
    if c :| c in ScanAll(ps) && c.code == code {
      StandsIn(ps, c);
      var p, k: nat :| p in ps && p.kind == Capability && (WholeAt(p.value, k) || CutAt(p.value, k))
                       && c == RawAt(p.value, k);
      StandsThere(p.value, k);
      RawCode(p.value, k);
      assert HasCode(p.value, k, n);
    }
    if Mentions(ps, n) {
      var p, k: nat :| p in ps && p.kind == Capability && HasCode(p.value, k, n);
      StandsThere(p.value, k);
      RawCode(p.value, k);
      StandsIn(ps, RawAt(p.value, k));
    }
  }

  /** Taking an OPEN over stops the parser exactly when some capability parameter has a whole four-octet AS
      number capability of another length than four, or ends in a cut-off one, or in a cut-off
      multiprotocol capability that claims at least four octets. */
  lemma NotUnderstoodIff(ps: seq<OptionalParameter>)
    ensures Understand(ps).Err? <==>
            exists p, k: nat ::
              && p in ps && p.kind == Capability
              && ((WholeAt(p.value, k) && p.value[k] == 65 && p.value[k + 1] != 4)
                  || (CutAt(p.value, k) && (p.value[k] == 65 || (p.value[k] == 1 && p.value[k + 1] >= 4))))
  {
    hide LeadsTo, ScanAll, RawAt, StopsParser, HearAll;
    HearAllStops(Heard(NO_CAPABILITIES, []), ScanAll(ps));
    if c :| c in ScanAll(ps) && StopsParser(c) {
      StandsIn(ps, c);
      var p, k: nat :| p in ps && p.kind == Capability && (WholeAt(p.value, k) || CutAt(p.value, k))
                       && c == RawAt(p.value, k);
      StandsThere(p.value, k);
      RawStops(p.value, k);
    }
    forall p <- ps, k: nat | p.kind == Capability && (WholeAt(p.value, k) || CutAt(p.value, k))
      ensures RawAt(p.value, k) in ScanAll(ps)
      ensures StopsParser(RawAt(p.value, k)) <==>
              || (WholeAt(p.value, k) && p.value[k] == 65 && p.value[k + 1] != 4)
              || (CutAt(p.value, k) && (p.value[k] == 65 || (p.value[k] == 1 && p.value[k + 1] >= 4)))
    {
      StandsThere(p.value, k);
      StandsIn(ps, RawAt(p.value, k));
      RawStops(p.value, k);
    }
  }

  /** Parameters and capabilities are gone through in order: another kind of parameter adds nothing, and a
      whole capability comes before what stands behind it. */
  lemma ScannedInOrder(
    ps: seq<OptionalParameter>, p: OptionalParameter, qs: seq<OptionalParameter>, code: Byte, v: seq<Byte>,
    rest: seq<Byte>)
    requires |v| <= 255
    ensures ScanAll(ps + [p] + qs) ==
            ScanAll(ps) + (match p.kind case Authentication => [] case Capability => Scan(p.value, 0)) + ScanAll(qs)
    ensures Scan([code, |v|] + v + rest, 0) == [ParseCapability([code, |v|] + v)] + Scan(rest, 0)
  {
    hide ParseCapability;
    ScanAllSplit(ps, p, qs);
    var front := [code, |v|] + v;
    assert (front + rest)[0..2 + |v|] == front;
    ScanBehind(front + rest, |front|, rest, 0);
  }

  lemma {:induction false} ScanAllSplit(ps: seq<OptionalParameter>, p: OptionalParameter, qs: seq<OptionalParameter>)
    ensures ScanAll(ps + [p] + qs) ==
            ScanAll(ps) + (if p.kind == Capability then Scan(p.value, 0) else []) + ScanAll(qs)
  {
    hide Scan;
    var all := ps + [p] + qs;
    if ps == [] {
      assert all[1..] == qs;
    } else {
      assert all[1..] == ps[1..] + [p] + qs;
      ScanAllSplit(ps[1..], p, qs);
      var first := if ps[0].kind == Capability then Scan(ps[0].value, 0) else [];
      var mid := if p.kind == Capability then Scan(p.value, 0) else [];
      assert first + (ScanAll(ps[1..]) + mid + ScanAll(qs)) == first + ScanAll(ps[1..]) + mid + ScanAll(qs);
    }
  }

  lemma {:induction false} ScanBehind(d: seq<Byte>, k: nat, rest: seq<Byte>, i: nat)
    requires k <= |d| && d[k..] == rest
    ensures Scan(d, k + i) == Scan(rest, i)
    decreases |rest| - i
  {
    hide ParseCapability, Scan;
    if i + 2 <= |rest| {
      SameSlice(d, k, rest, i, |rest|);
    }
    if Fits(rest, i) {
      var next := i + 2 + rest[i + 1] as int;
      SameSlice(d, k, rest, i, next);
      ScanBehind(d, k, rest, next);
      ScanWhole(d, k + i);
      ScanWhole(rest, i);
    } else {
      ScanRest(d, k + i);
      ScanRest(rest, i);
    }
  }

  lemma ScanWhole(d: seq<Byte>, i: nat)
    requires Fits(d, i)
    ensures var next := i + 2 + d[i + 1] as int;
            Scan(d, i) == [ParseCapability(d[i..next])] + Scan(d, next)
  {
    hide ParseCapability;
  }

  lemma ScanRest(d: seq<Byte>, i: nat)
    requires !Fits(d, i)
    ensures Scan(d, i) == if Overclaims(d, i) then [ParseCapability(d[i..|d|])] else []
  {
    hide ParseCapability;
    if i <= |d| {
      assert d[i..] == d[i..|d|];
    }
  }

  lemma SameSlice(d: seq<Byte>, k: nat, rest: seq<Byte>, i: nat, j: nat)
    requires k <= |d| && d[k..] == rest && i + 2 <= j <= |rest|
    ensures d[k + i..k + j] == rest[i..j] && d[k + i + 1] == rest[i + 1]
  {
    assert d[k..][i..j] == d[k + i..k + j] && d[k..][i + 1] == d[k + i + 1];
  }

  /** The last four-octet AS number is the one kept. */
  lemma {:induction false} LastAsnIsKept(h: Heard, cs: seq<RawCapability>, v: seq<Byte>)
    requires HearAll(h, cs).Ok? && |v| == 4
    ensures var r := HearAll(h, cs + [RawCapability(FourOctetAsn, 4, v)]);
            r.Ok? && r.value.caps.fourOctetAsn ==
                     Some(0x100_0000 * v[0] as int + 0x1_0000 * v[1] as int + 0x100 * v[2] as int + v[3])
    decreases |cs|
  {
    var c := RawCapability(FourOctetAsn, 4, v);
    if cs == [] {
      assert cs + [c] == [c] && [c][1..] == [];
    } else {
      assert (cs + [c])[1..] == cs[1..] + [c];
      hide Hear;
      LastAsnIsKept(Hear(h, cs[0]).value, cs[1..], v);
    }
  }

  /** How many of `n` announced families the one-octet lengths leave readable. */
  function Kept(n: nat): (k: nat)
    ensures k <= n
  {
    var octets := 6 * n % 256;
    if octets == 254 then 0 else octets / 6
  }

  /** What the peer makes of the families announced. */
  function FamiliesHeard(families: Option<seq<AddressFamily>>): Option<seq<AddressFamily>> {
    match families
    case None => Some([IPV4_UNICAST])
    case Some(fams) => if Kept(|fams|) == 0 then None else Some(Unique(fams[..Kept(|fams|)]))
  }

  lemma {:induction false} CapabilityAt(fams: seq<AddressFamily>, j: nat)
    requires j < |fams|
    ensures At(FamilyCapabilities(fams), 6 * j, FamilyCapability(fams[j]))
  {
    var first, rest := FamilyCapability(fams[0]), FamilyCapabilities(fams[1..]);
    if j == 0 {
      assert (first + rest)[0..6] == first;
    } else {
      CapabilityAt(fams[1..], j - 1);
      assert (first + rest)[6 * j..6 * j + 6] == rest[6 * j - 6..6 * j];
    }
  }

  function FamilyRaw(af: AddressFamily): RawCapability {
    RawCapability(Multiprotocol, 4, [0, AfiCode(af.afi), 0, SafiCode(af.safi)])
  }

  lemma ParseFamily(af: AddressFamily)
    ensures ParseCapability(FamilyCapability(af)) == FamilyRaw(af)
    ensures FamilyCapability(af)[1] == 4
  {
    assert FamilyCapability(af)[2..6] == FamilyRaw(af).value;
  }

  lemma ScanStep(data: seq<Byte>, offset: nat, af: AddressFamily)
    requires At(data, offset, FamilyCapability(af))
    ensures Scan(data, offset) == [FamilyRaw(af)] + Scan(data, offset + 6)
  {
    hide FamilyCapability, ParseCapability;
    ParseFamily(af);
    AtIndex(data, offset, FamilyCapability(af), 1);
  }

  lemma ScanEnd(fams: seq<AddressFamily>, len: nat, j: nat)
    requires len <= 6 * |fams| && len % 2 == 0 && 6 * j <= len < 6 * j + 6
    ensures Scan(FamilyCapabilities(fams)[..len], 6 * j) == []
  {
    hide FamilyCapability, ParseCapability, FamilyCapabilities;
    if 6 * j + 2 <= len {
      CapabilityAt(fams, j);
      ParseFamily(fams[j]);
      AtIndex(FamilyCapabilities(fams), 6 * j, FamilyCapability(fams[j]), 1);
    }
  }

  function Raws(fams: seq<AddressFamily>): seq<RawCapability> {
    seq(|fams|, i requires 0 <= i < |fams| => FamilyRaw(fams[i]))
  }

  lemma {:induction false} ScanFamilies(fams: seq<AddressFamily>, len: nat, j: nat)
    requires len <= 6 * |fams| && len % 2 == 0 && 6 * j <= len
    ensures Scan(FamilyCapabilities(fams)[..len], 6 * j) == Raws(fams[j..len / 6])
    decreases len - 6 * j
  {
    hide Scan, FamilyCapability, FamilyCapabilities, FamilyRaw;
    if 6 * j + 6 <= len {
      var data := FamilyCapabilities(fams)[..len];
      CapabilityAt(fams, j);
      assert data[6 * j..6 * j + 6] == FamilyCapabilities(fams)[6 * j..6 * j + 6];
      ScanStep(data, 6 * j, fams[j]);
      ScanFamilies(fams, len, j + 1);
      assert fams[j..len / 6] == [fams[j]] + fams[j + 1..len / 6];
      assert Raws(fams[j..len / 6]) == [FamilyRaw(fams[j])] + Raws(fams[j + 1..len / 6]);
    } else {
      ScanEnd(fams, len, j);
      assert fams[j..len / 6] == [];
    }
  }

  lemma {:induction false} HearFamilies(h: Heard, fams: seq<AddressFamily>)
    ensures HearAll(h, Raws(fams)) == Ok(h.(families := h.families + fams))
    decreases |fams|
  {
    if fams == [] {
      assert h.families + fams == h.families;
    } else {
      var h' := h.(families := h.families + [fams[0]]);
      assert Hear(h, FamilyRaw(fams[0])) == Ok(h');
      assert Raws(fams)[1..] == Raws(fams[1..]);
      HearFamilies(h', fams[1..]);
      assert h'.families + fams[1..] == h.families + fams;
    }
  }

  /** The parameters the peer reads of one capability parameter: its first `6n mod 256` octets. */
  lemma ParamsReadBack(octets: seq<Byte>)
    requires |octets| % 2 == 0
    ensures var src := [(2 + |octets|) % 256] + ([2, |octets| % 256] + octets);
            var n := |octets| % 256;
            ReadParams(src, 1, 0, src[0]) ==
            if n == 254 then Ok(OptionalParameters(1, []))
            else Ok(OptionalParameters(3 + n, [OptionalParameter(Capability, n, octets[..n])]))
  {
    var n := |octets| % 256;
    var src := [(2 + |octets|) % 256] + ([2, n] + octets);
    assert n % 2 == 0;
    assert src[0] == (if n == 254 then 0 else n + 2);
    if n != 254 {
      assert src[1] == 2 && src[2] == n && src[3..3 + n] == octets[..n] && |src| >= 3 + n;
      assert ReadParams(src, 3 + n, n + 2, src[0]) == Ok(OptionalParameters(3 + n, []));
      assert [OptionalParameter(Capability, n, octets[..n])] + [] == [OptionalParameter(Capability, n, octets[..n])];
    }
  }

  lemma FieldAt(front: seq<Byte>, field: seq<Byte>, back: seq<Byte>, k: nat)
    requires k < |field|
    ensures (front + field + back)[|front| + k] == field[k]
  {
  }

  lemma AsnReadsBack(front: seq<Byte>, n: U16, back: seq<Byte>)
    ensures var src := front + PutU16(n) + back;
            GetU16(src[|front|], src[|front| + 1]) == n
  {
    hide PutU16, GetU16;
    FieldAt(front, PutU16(n), back, 0);
    FieldAt(front, PutU16(n), back, 1);
    PutGetU16(n);
  }

  lemma RidReadsBack(front: seq<Byte>, n: U32, back: seq<Byte>)
    ensures var src := front + PutU32(n) + back;
            GetU32(src[|front|], src[|front| + 1], src[|front| + 2], src[|front| + 3]) == n
  {
    hide PutU32, GetU32;
    FieldAt(front, PutU32(n), back, 0);
    FieldAt(front, PutU32(n), back, 1);
    FieldAt(front, PutU32(n), back, 2);
    FieldAt(front, PutU32(n), back, 3);
    PutGetU32(n);
  }

  lemma HeaderReadsBack(m: OpenMessage, tail: seq<Byte>)
    requires tail != []
    ensures var src := [m.version] + PutU16(m.asn) + PutU16(m.holdTime) + PutU32(m.routerId) + tail;
            && src[9..] == tail && src[9] == tail[0] && src[0] == m.version
            && GetU16(src[1], src[2]) == m.asn && GetU16(src[3], src[4]) == m.holdTime
            && GetU32(src[5], src[6], src[7], src[8]) == m.routerId
  {
    hide PutU16, PutU32, GetU16, GetU32;
    var a, h, r := PutU16(m.asn), PutU16(m.holdTime), PutU32(m.routerId);
    var src := [m.version] + a + h + r + tail;
    assert src == [m.version] + a + (h + r + tail);
    AsnReadsBack([m.version], m.asn, h + r + tail);
    assert src == ([m.version] + a) + h + (r + tail);
    AsnReadsBack([m.version] + a, m.holdTime, r + tail);
    RidReadsBack([m.version] + a + h, m.routerId, tail);
  }

  /** OPEN negotiation, for every list of families: the fixed fields arrive unchanged, and the
      families heard are the distinct ones among those the one-octet lengths leave readable. */
  lemma OpenNegotiation(asn: U16, rid: U32, hold: U16, families: Option<seq<AddressFamily>>)
    ensures var r := ParseOpen(PrintOpen(NewOpen(asn, rid, hold, families)));
            && r.Ok? && r.value.version == VERSION
            && r.value.asn == asn && r.value.holdTime == hold && r.value.routerId == rid
            && Understand(r.value.optParams.params) ==
               Ok(NO_CAPABILITIES.(multiprotocol := FamiliesHeard(families)))
  {
    hide PutU16, PutU32, GetU16, GetU32, Understand, FamilyCapabilities, ReadParams, Kept, Unique;
    var fams := if families.None? then [IPV4_UNICAST] else families.value;
    OpenReadsBack(asn, rid, hold, families);
    FamiliesUnderstood(fams);
    OneFamilyIsKept();
  }

  /** The parameters read of an announcement of `fams`. */
  function ParamsRead(fams: seq<AddressFamily>): seq<OptionalParameter> {
    var n := 6 * |fams| % 256;
    if n == 254 then [] else [OptionalParameter(Capability, n, FamilyCapabilities(fams)[..n])]
  }

  lemma OpenReadsBack(asn: U16, rid: U32, hold: U16, families: Option<seq<AddressFamily>>)
    ensures var r := ParseOpen(PrintOpen(NewOpen(asn, rid, hold, families)));
            && r.Ok? && r.value.version == VERSION
            && r.value.asn == asn && r.value.holdTime == hold && r.value.routerId == rid
            && r.value.optParams.params == ParamsRead(if families.None? then [IPV4_UNICAST] else families.value)
  {
    hide PutU16, PutU32, GetU16, GetU32, FamilyCapabilities, ReadParams;
    var m := NewOpen(asn, rid, hold, families);
    var caps := FamilyCapabilities(if families.None? then [IPV4_UNICAST] else families.value);
    var n := |caps| % 256;
    assert PrintParams(m.optParams.params) == [2, n] + caps by {
      assert m.optParams.params[1..] == [];
    }
    var tail := [(2 + |caps|) % 256] + ([2, n] + caps);
    HeaderReadsBack(m, tail);
    assert PrintOpen(m) == [m.version] + PutU16(m.asn) + PutU16(m.holdTime) + PutU32(m.routerId) + tail;
    ParamsReadBack(caps);
  }

  lemma OneFamilyIsKept()
    ensures Kept(1) == 1 && Unique([IPV4_UNICAST]) == [IPV4_UNICAST]
    ensures [IPV4_UNICAST][..1] == [IPV4_UNICAST]
  {
    assert [IPV4_UNICAST][..0] == [];
  }

  lemma KeptArithmetic(n: nat)
    ensures var octets := 6 * n % 256;
            octets % 2 == 0 && octets <= 6 * n && Kept(n) == if octets == 254 then 0 else octets / 6
  {
  }

  lemma FamiliesUnderstood(fams: seq<AddressFamily>)
    ensures Understand(ParamsRead(fams)) ==
            Ok(NO_CAPABILITIES.(multiprotocol :=
                 if Kept(|fams|) == 0 then None else Some(Unique(fams[..Kept(|fams|)]))))
  {
    hide Kept, Scan, FamilyCapabilities, Unique, Understand, Raws;
    KeptArithmetic(|fams|);
    NothingUnderstood();
    var n := 6 * |fams| % 256;
    if n != 254 {
      SomeUnderstood(fams, n);
    }
  }

  lemma SomeUnderstood(fams: seq<AddressFamily>, n: nat)
    requires n % 2 == 0 && n <= 6 * |fams|
    ensures Understand([OptionalParameter(Capability, n, FamilyCapabilities(fams)[..n])]) ==
            Ok(NO_CAPABILITIES.(multiprotocol := if n / 6 == 0 then None else Some(Unique(fams[..n / 6]))))
  {
    hide Scan, FamilyCapabilities, Unique, Understand, Raws;
    ScanFamilies(fams, n, 0);
    assert fams[0..n / 6] == fams[..n / 6];
    UnderstandOne(OptionalParameter(Capability, n, FamilyCapabilities(fams)[..n]), fams[..n / 6]);
  }

  lemma NothingUnderstood()
    ensures Understand([]) == Ok(NO_CAPABILITIES)
  {
  }

  lemma UnderstandOne(p: OptionalParameter, heard: seq<AddressFamily>)
    requires p.kind == Capability && Scan(p.value, 0) == Raws(heard)
    ensures Understand([p]) ==
            Ok(NO_CAPABILITIES.(multiprotocol := if heard == [] then None else Some(Unique(heard))))
  {
    hide Scan, Hear, Unique;
    ScanOne(p);
    HearFamilies(Heard(NO_CAPABILITIES, []), heard);
    assert [] + heard == heard;
  }

  lemma ScanOne(p: OptionalParameter)
    requires p.kind == Capability
    ensures ScanAll([p]) == Scan(p.value, 0)
  {
    assert [p][1..] == [];
  }

  /** Parameters that say their own length and have 255 octets or less together are read back, every one. */
  lemma {:induction false} ReadPrintedParams(src: seq<Byte>, i: nat, used: nat, ps: seq<OptionalParameter>)
    requires At(src, i, PrintParams(ps)) && used + |PrintParams(ps)| <= 255
    requires forall p <- ps :: p.length == |p.value|
    ensures ReadParams(src, i, used, used + |PrintParams(ps)|) == Ok(OptionalParameters(i + |PrintParams(ps)|, ps))
    decreases |ps|
  {
    hide At, PrintParam, ReadParams;
    if ps == [] {
      NothingLeft(src, i, used);
    } else {
      var first, rest := PrintParam(ps[0]), PrintParams(ps[1..]);
      assert PrintParams(ps) == first + rest;
      hide PrintParams;
      AtSplit(src, i, first, rest);
      ReadOneParam(src, i, used, used + |first + rest|, ps[0]);
      ReadPrintedParams(src, i + |first|, used + |first|, ps[1..]);
      assert [ps[0]] + ps[1..] == ps;
    }
  }

  lemma NothingLeft(src: seq<Byte>, i: nat, used: nat)
    ensures ReadParams(src, i, used, used) == Ok(OptionalParameters(i, []))
  {
  }

  lemma ReadOneParam(src: seq<Byte>, i: nat, used: nat, len: nat, p: OptionalParameter)
    requires At(src, i, PrintParam(p)) && used + |PrintParam(p)| <= len <= 255 && p.length == |p.value|
    ensures ReadParams(src, i, used, len) ==
            With([p], ReadParams(src, i + |PrintParam(p)|, used + |PrintParam(p)|, len))
  {
    AtIndex(src, i, PrintParam(p), 0);
    AtIndex(src, i, PrintParam(p), 1);
    AtSplit(src, i, [ParamTypeCode(p.kind), |p.value| % 256], p.value);
  }

  /** An OPEN with any number of such parameters arrives as it was sent, but for the count, which the
      reader replaces by the place where it stopped. */
  lemma OpenRoundTrip(m: OpenMessage)
    requires m.optParams.len == |PrintParams(m.optParams.params)| <= 255
    requires forall p <- m.optParams.params :: p.length == |p.value|
    ensures ParseOpen(PrintOpen(m)) == Ok(m.(optParams := m.optParams.(len := 1 + m.optParams.len)))
  {
    hide PutU16, PutU32, GetU16, GetU32, ReadParams, PrintParams;
    var params := PrintParams(m.optParams.params);
    var tail := [m.optParams.len % 256] + params;
    HeaderReadsBack(m, tail);
    assert PrintOpen(m) == [m.version] + PutU16(m.asn) + PutU16(m.holdTime) + PutU32(m.routerId) + tail;
    assert At(tail, 1, params);
    ReadPrintedParams(tail, 1, 0, m.optParams.params);
  }

  /** Up to 42 families nothing is cut off. */
  lemma FewFamiliesAreAllHeard(fams: seq<AddressFamily>)
    requires |fams| <= 42
    ensures FamiliesHeard(Some(fams)) == if fams == [] then None else Some(Unique(fams))
  {
    hide Unique;
    assert 6 * |fams| <= 252;
    assert Kept(|fams|) == |fams|;
    assert fams[..|fams|] == fams;
  }

  /** In general all families are heard exactly when those left readable include each of them. */
  lemma AllHeardExactlyWhen(fams: seq<AddressFamily>)
    requires fams != []
    ensures FamiliesHeard(Some(fams)) == Some(Unique(fams)) <==> forall f <- fams :: f in fams[..Kept(|fams|)]
  {
    UniqueOfPrefix(fams, Kept(|fams|));
    assert fams[0] in fams;
  }

  /** Forty-three announcements of one family are heard as none. */
  lemma FortyThreeAreTooMany()
    ensures FamiliesHeard(Some(seq(43, i => IPV4_UNICAST))) == None
  {
  }

  method ParseOptionalParameters(src: seq<Byte>) returns (r: Result<OptionalParameters>)
    requires src != []
    ensures r == ReadParams(src, 1, 0, src[0])
  {
    var len := src[0];
    var wd: seq<OptionalParameter> := [];
    var used, i := 0, 1;
    WithNothing(ReadParams(src, 1, 0, len));
    while len > used
      invariant 0 <= used && 1 <= i
      invariant ReadParams(src, 1, 0, len) == With(wd, ReadParams(src, i, used, len))
      decreases |src| - i
    {
      if |src| < i + 2 {
        return Err;
      }
      var optlen: nat := src[i + 1];
      if |src| < i + optlen + 2 || ParamTypeOf(src[i]).None? {
        return Err;
      }
      var n := OptionalParameter(ParamTypeOf(src[i]).value, optlen, src[i + 2..i + optlen + 2]);
      WithTwice(wd, n, ReadParams(src, i + optlen + 2, (used + optlen + 2) % 256, len));
      wd := wd + [n];
      used := (used + optlen + 2) % 256;
      i := i + optlen + 2;
    }
    assert wd + [] == wd;
    r := Ok(OptionalParameters(i, wd));
  }

  lemma WithNothing(r: Result<OptionalParameters>)
    ensures With([], r) == r
  {
    if r.Ok? {
      assert [] + r.value.params == r.value.params;
    }
  }

  lemma WithTwice(read: seq<OptionalParameter>, p: OptionalParameter, r: Result<OptionalParameters>)
    ensures With(read, With([p], r)) == With(read + [p], r)
  {
    if r.Ok? {
      assert read + ([p] + r.value.params) == read + [p] + r.value.params;
    }
  }

  method CapabilitiesOf(params: seq<OptionalParameter>) returns (all: seq<RawCapability>)
    ensures all == ScanAll(params)
  {
    hide Scan;
    all := [];
    for k := 0 to |params|
      invariant all + ScanAll(params[k..]) == ScanAll(params)
    {
      var caps: seq<RawCapability> := [];
      if params[k].kind == Capability {
        caps := ScanParameter(params[k].value);
      }
      assert all + (caps + ScanAll(params[k + 1..])) == all + caps + ScanAll(params[k + 1..]);
      all := all + caps;
    }
  }

  method ScanParameter(data: seq<Byte>) returns (caps: seq<RawCapability>)
    ensures caps == Scan(data, 0)
  {
    hide ParseCapability;
    caps := [];
    var offset := 0;
    while offset < |data|
      invariant 0 <= offset
      invariant caps + Scan(data, offset) == Scan(data, 0)
      decreases |data| - offset
    {
      if offset + 2 > |data| {
        break;
      }
      var len: nat := data[offset + 1];
      if offset + 2 + len > |data| {
        var available := |data| - offset - 2;
        if len > available * 2 && available > 0 {
          caps := caps + [ParseCapability(data[offset..])];
          return;
        }
        break;
      }
      var cap := ParseCapability(data[offset..offset + 2 + len]);
      assert caps + ([cap] + Scan(data, offset + 2 + len)) == caps + [cap] + Scan(data, offset + 2 + len);
      caps := caps + [cap];
      offset := offset + 2 + len;
    }
  }

  method CapabilitiesFrom(src: seq<RawCapability>) returns (r: Result<Capabilities>)
    ensures r == (match HearAll(Heard(NO_CAPABILITIES, []), src) case Err => Err case Ok(h) => Ok(Conclude(h)))
  {
    var capabilities, afs := NO_CAPABILITIES, [];
    for k := 0 to |src|
      invariant HearAll(Heard(NO_CAPABILITIES, []), src) == HearAll(Heard(capabilities, afs), src[k..])
    {
      var h := Hear(Heard(capabilities, afs), src[k]);
      if h.Err? {
        return Err;
      }
      capabilities, afs := h.value.caps, h.value.families;
    }
    if afs != [] {
      capabilities := capabilities.(multiprotocol := Some(Unique(afs)));
    }
    r := Ok(capabilities);
  }

  lemma CapabilitiesOfOne(af: AddressFamily)
    ensures FamilyCapabilities([af]) == FamilyCapability(af)
  {
    assert [af][1..] == [];
    assert FamilyCapability(af) + [] == FamilyCapability(af);
  }

  /** The capabilities are built one by one and then strung together. */
  method FlattenCapabilities(families: seq<AddressFamily>) returns (caps: seq<Byte>)
    ensures caps == FamilyCapabilities(families)
  {
    hide FamilyCapability;
    caps := [];
    for k := 0 to |families|
      invariant caps + FamilyCapabilities(families[k..]) == FamilyCapabilities(families)
    {
      var cap := FamilyCapability(families[k]);
      var rest := FamilyCapabilities(families[k + 1..]);
      assert caps + (cap + rest) == caps + cap + rest;
      caps := caps + cap;
    }
  }

  method NewOpenMessage(asn: U16, rid: U32, hold: U16, families: Option<seq<AddressFamily>>) returns (m: OpenMessage)
    ensures m == NewOpen(asn, rid, hold, families)
  {
    hide FamilyCapability, FamilyCapabilities;
    var caps: seq<Byte>;
    if families.None? {
      CapabilitiesOfOne(IPV4_UNICAST);
      caps := FamilyCapability(IPV4_UNICAST);
    } else {
      caps := FlattenCapabilities(families.value);
    }
    var o := OptionalParameter(Capability, |caps|, caps);
    m := OpenMessage(VERSION, asn, hold, rid, OptionalParameters(2 + o.length, [o]));
  }

  method PrintParameters(params: seq<OptionalParameter>) returns (buf: seq<Byte>)
    ensures buf == PrintParams(params)
  {
    hide PrintParam;
    buf := [];
    for k := 0 to |params|
      invariant buf + PrintParams(params[k..]) == PrintParams(params)
    {
      var p := PrintParam(params[k]);
      assert buf + (p + PrintParams(params[k + 1..])) == buf + p + PrintParams(params[k + 1..]);
      buf := buf + p;
    }
  }

  method PrintOpenMessage(m: OpenMessage) returns (buf: seq<Byte>)
    ensures buf == PrintOpen(m)
  {
    hide PutU16, PutU32, PrintParams;
    var params := PrintParameters(m.optParams.params);
    buf := [m.version];
    buf := buf + PutU16(m.asn);
    buf := buf + PutU16(m.holdTime);
    buf := buf + PutU32(m.routerId);
    buf := buf + [m.optParams.len % 256];
    buf := buf + params;
  }

  method ParseOpenMessage(src: seq<Byte>) returns (r: Result<OpenMessage>)
    ensures r == ParseOpen(src)
  {
    if |src| < 10 {
      return Err;
    }
    var version, asn, hold := src[0], GetU16(src[1], src[2]), GetU16(src[3], src[4]);
    var rid := GetU32(src[5], src[6], src[7], src[8]);
    var opt := ParseOptionalParameters(src[9..]);
    if opt.Err? {
      return Err;
    }
    r := Ok(OpenMessage(version, asn, hold, rid, opt.value));
  }
}
