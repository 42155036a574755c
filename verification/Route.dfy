/** A route's attributes and the decision order (src/rib.rs). */
module Routes {
  import opened Basics
  import opened Bytes
  import opened Types
  import opened Nlris
  import opened Attributes

  datatype PathType = External | Internal
  datatype PeeringType = Ibgp | Ebgp

  datatype Route = Route(
    asPath: AsPath, origin: Origin, nextHop: IpAddr, localPref: Option<U32>, med: Option<U32>,
    pathType: PathType, peerType: PeeringType, recvTime: nat, peerRid: U32, peerIp: IpAddr)

  datatype Ordering = Less | Equal | Greater

  function Reverse(o: Ordering): Ordering {
    match o case Less => Greater case Equal => Equal case Greater => Less
  }

  function CmpInt(a: int, b: int): Ordering {
    if a < b then Less else if a > b then Greater else Equal
  }

  /** `None` is below every value. */
  function CmpOption(a: Option<U32>, b: Option<U32>): Ordering {
    match (a, b)
    case (None, None) => Equal
    case (None, Some(_)) => Less
    case (Some(_), None) => Greater
    case (Some(x), Some(y)) => CmpInt(x, y)
  }

  function CmpOctets(a: seq<Byte>, b: seq<Byte>): Ordering {
    if a == [] then if b == [] then Equal else Less
    else if b == [] then Greater
    else if a[0] != b[0] then CmpInt(a[0], b[0])
    else CmpOctets(a[1..], b[1..])
  }

  /** IPv4 addresses are below IPv6 addresses. */
  function CmpAddr(a: IpAddr, b: IpAddr): Ordering {
    if a.afi != b.afi then if a.afi == Ipv4 then Less else Greater
    else CmpOctets(a.octets, b.octets)
  }

  function PathTypeRank(p: PathType): nat {
    if p == External then 0 else 1
  }

  function PeeringRank(p: PeeringType): nat {
    if p == Ibgp then 0 else 1
  }

  /** The comparison by which the Loc-RIB is kept sorted, key by key as the code has them. */
  function Cmp(a: Route, b: Route): Ordering {
    var lp := CmpOption(a.localPref, b.localPref);
    if lp != Equal then lp else
    var pt := CmpInt(PathTypeRank(a.pathType), PathTypeRank(b.pathType));
    if pt != Equal then pt else
    var pathLen := Reverse(CmpInt(PathLen(a.asPath), PathLen(b.asPath)));
    if pathLen != Equal then pathLen else
    var otype := CmpInt(OriginCode(a.origin), OriginCode(b.origin));
    if otype != Equal then otype else
    var med := CmpOption(a.med, b.med);
    if med != Equal then med else
    var peer := CmpInt(PeeringRank(a.peerType), PeeringRank(b.peerType));
    if peer != Equal then peer else
    var time := if a.peerType == Ebgp then CmpInt(a.recvTime, b.recvTime) else Equal;
    if time != Equal then time else
    var rid := CmpInt(a.peerRid, b.peerRid);
    if rid != Equal then rid else CmpAddr(a.peerIp, b.peerIp)
  }

  /** `==` on routes, by which updates are grouped before they are sent. */
  predicate Same(a: Route, b: Route) {
    && a.localPref == b.localPref && a.med == b.med && a.origin == b.origin
    && PathLen(a.asPath) == PathLen(b.asPath)
  }

  /** What is hashed. */
  datatype HashKey = HashKey(localPref: Option<U32>, med: Option<U32>, origin: Origin, pathLen: nat)

  function HashOf(a: Route): HashKey {
    HashKey(a.localPref, a.med, a.origin, PathLen(a.asPath))
  }

  /** The nine numeric keys of the decision order, most significant first. */
  function Keys(a: Route): (s: seq<int>)
    ensures |s| == 9
  {
    [if a.localPref.None? then -1 else a.localPref.value,
     PathTypeRank(a.pathType),
     -(PathLen(a.asPath) as int),
     OriginCode(a.origin),
     if a.med.None? then -1 else a.med.value,
     PeeringRank(a.peerType),
     if a.peerType == Ebgp then a.recvTime else 0,
     a.peerRid,
     if a.peerIp.afi == Ipv4 then 0 else 1]
  }

  /** The decision order told by one list of numbers, of which the first difference decides. */
  function Rank(a: Route): seq<int> {
    Keys(a) + a.peerIp.octets
  }

  function Lex(s: seq<int>, t: seq<int>): Ordering {
    if s == [] then if t == [] then Equal else Less
    else if t == [] then Greater
    else if s[0] != t[0] then CmpInt(s[0], t[0])
    else Lex(s[1..], t[1..])
  }

  lemma {:induction false} LexDrop(s: seq<int>, t: seq<int>, k: nat)
    requires k <= |s| && k <= |t| && s[..k] == t[..k]
    ensures Lex(s, t) == Lex(s[k..], t[k..])
  {
    if k > 0 {
      assert s[0] == s[..k][0] && t[0] == t[..k][0];
      assert s[1..][..k - 1] == s[..k][1..] && t[1..][..k - 1] == t[..k][1..];
      LexDrop(s[1..], t[1..], k - 1);
    }
  }

  lemma {:induction false} LexAtFirstDifference(s: seq<int>, t: seq<int>, k: nat)
    requires k < |s| && k < |t| && s[..k] == t[..k] && s[k] != t[k]
    ensures Lex(s, t) == CmpInt(s[k], t[k])
  {
    LexDrop(s, t, k);
  }

  lemma {:induction false} OctetsByLex(a: seq<Byte>, b: seq<Byte>)
    ensures CmpOctets(a, b) == Lex(a, b)
  {
    if a != [] && b != [] && a[0] == b[0] {
      OctetsByLex(a[1..], b[1..]);
    }
  }

  lemma {:induction false} FirstDifference(s: seq<int>, t: seq<int>) returns (k: nat)
    requires |s| == |t| && s != t
    ensures k < |s| && s[..k] == t[..k] && s[k] != t[k]
  {
    if s[0] != t[0] {
      k := 0;
    } else {
      assert s == [s[0]] + s[1..] && t == [t[0]] + t[1..];
      k := FirstDifference(s[1..], t[1..]);
      assert s[..k + 1] == [s[0]] + s[1..][..k] && t[..k + 1] == [t[0]] + t[1..][..k];
      k := k + 1;
    }
  }

  lemma CmpByKeys(a: Route, b: Route, k: nat)
    requires k < 9 && (forall i | 0 <= i < k :: Keys(a)[i] == Keys(b)[i]) && Keys(a)[k] != Keys(b)[k]
    ensures Cmp(a, b) == CmpInt(Keys(a)[k], Keys(b)[k])
  {
    hide CmpOctets, PathLen;
    var s, t := Keys(a), Keys(b);
    assert forall i | 0 <= i < k :: s[i] == t[i];
    if k > 0 { assert s[0] == t[0]; }
    if k > 1 { assert s[1] == t[1]; }
    if k > 2 { assert s[2] == t[2]; }
    if k > 3 { assert s[3] == t[3]; }
    if k > 4 { assert s[4] == t[4]; }
    if k > 5 { assert s[5] == t[5]; }
    if k > 6 { assert s[6] == t[6]; }
    if k > 7 { assert s[7] == t[7]; }
  }

  /** The key-by-key comparison is one lexicographic comparison, conditional keys and all. */
  lemma CmpIsLexicographic(a: Route, b: Route)
    ensures Cmp(a, b) == Lex(Rank(a), Rank(b))
  {
    hide Cmp, Keys, Lex;
    var s, t := Keys(a), Keys(b);
    assert Rank(a)[..9] == s && Rank(a)[9..] == a.peerIp.octets;
    assert Rank(b)[..9] == t && Rank(b)[9..] == b.peerIp.octets;
    if s == t {
      LexDrop(Rank(a), Rank(b), 9);
      OctetsByLex(a.peerIp.octets, b.peerIp.octets);
      CmpOfEqualKeys(a, b);
    } else {
      var k := FirstDifference(s, t);
      assert forall i | 0 <= i < k :: s[i] == s[..k][i] == t[..k][i] == t[i];
      CmpByKeys(a, b, k);
      assert Rank(a)[..k] == s[..k] && Rank(b)[..k] == t[..k];
      LexAtFirstDifference(Rank(a), Rank(b), k);
    }
  }

  lemma CmpOfEqualKeys(a: Route, b: Route)
    requires Keys(a) == Keys(b)
    ensures Cmp(a, b) == CmpOctets(a.peerIp.octets, b.peerIp.octets)
  {
    hide CmpOctets, PathLen;
    var s, t := Keys(a), Keys(b);
    assert s[0] == t[0] && s[1] == t[1] && s[2] == t[2] && s[3] == t[3] && s[4] == t[4];
    assert s[5] == t[5] && s[6] == t[6] && s[7] == t[7] && s[8] == t[8];
  }

  lemma {:induction false} LexLaws(s: seq<int>, t: seq<int>, u: seq<int>)
    ensures Lex(s, t) == Reverse(Lex(t, s))
    ensures Lex(s, t) == Equal <==> s == t
    ensures Lex(s, t) != Greater && Lex(t, u) != Greater ==> Lex(s, u) != Greater
    decreases |s| + |t| + |u|
  {
    if s != [] && t != [] {
      assert s == [s[0]] + s[1..] && t == [t[0]] + t[1..];
      LexLaws(s[1..], t[1..], if u == [] then [] else u[1..]);
    }
  }

  /** `a` is no better than `b`. */
  predicate AtMost(a: Route, b: Route) {
    Cmp(a, b) != Greater
  }

  /** The comparison is a total preorder. */
  lemma CmpLaws(a: Route, b: Route, c: Route)
    ensures Cmp(a, b) == Reverse(Cmp(b, a))
    ensures Cmp(a, a) == Equal
    ensures AtMost(a, b) && AtMost(b, c) ==> AtMost(a, c)
    ensures Cmp(a, b) == Equal ==> Cmp(a, c) == Cmp(b, c)
  {
    hide Cmp, Rank, Lex;
    CmpIsLexicographic(a, b);
    CmpIsLexicographic(b, a);
    CmpIsLexicographic(a, a);
    CmpIsLexicographic(b, c);
    CmpIsLexicographic(a, c);
    LexLaws(Rank(a), Rank(b), Rank(c));
    LexLaws(Rank(a), Rank(a), Rank(a));
  }

  /** Exactly the keys decide: two routes compare equal when they agree on all but the next hop,
      the path behind its length and, on internal sessions, the time. */
  lemma EqualRoutes(a: Route, b: Route)
    ensures Cmp(a, b) == Equal <==>
            && Same(a, b) && a.pathType == b.pathType && a.peerType == b.peerType
            && (a.peerType == Ebgp ==> a.recvTime == b.recvTime)
            && a.peerRid == b.peerRid && a.peerIp == b.peerIp
  {
    hide Cmp, Lex, PathLen;
    CmpIsLexicographic(a, b);
    LexLaws(Rank(a), Rank(b), []);
    var s, t := Rank(a), Rank(b);
    assert s[9..] == a.peerIp.octets && t[9..] == b.peerIp.octets;
    assert s[..9] == Keys(a) && t[..9] == Keys(b);
    if s == t {
      assert Keys(a) == Keys(b);
      var u, v := Keys(a), Keys(b);
      assert u[0] == v[0] && u[1] == v[1] && u[2] == v[2] && u[3] == v[3] && u[4] == v[4];
      assert u[5] == v[5] && u[6] == v[6] && u[7] == v[7] && u[8] == v[8];
    }
  }

  /** Of two routes that agree on all other keys, the one with the later origin code, the larger MED,
      the later arrival from outside or the larger router id is the better. */
  lemma LaterAndLargerWin(r: Route, origin: Origin, med: U32, time: nat, rid: U32)
    ensures Cmp(r.(origin := origin), r) == CmpInt(OriginCode(origin), OriginCode(r.origin))
    ensures r.med.Some? ==> Cmp(r.(med := Some(med)), r) == CmpInt(med, r.med.value)
    ensures r.peerType == Ebgp ==> Cmp(r.(recvTime := time), r) == CmpInt(time, r.recvTime)
    ensures Cmp(r.(peerRid := rid), r) == CmpInt(rid, r.peerRid)
  {
    hide CmpOctets, PathLen;
    SameAddress(r.peerIp);
  }

  /** The decision told in values, by the first thing in which two routes differ: better is the route with
      a local preference, and the larger one; the internal route; the shorter path; the later of IGP, EGP
      and incomplete; a MED, and the larger one; the external session, and there the later arrival; the
      larger router id; the IPv6 peer address, or the larger octet where the addresses first differ. */
  lemma BetterIff(a: Route, b: Route)
    ensures Cmp(a, b) == Greater <==>
            if a.localPref != b.localPref
            then a.localPref.Some? && (b.localPref.None? || a.localPref.value > b.localPref.value)
            else if a.pathType != b.pathType then a.pathType == Internal
            else if PathLen(a.asPath) != PathLen(b.asPath) then PathLen(a.asPath) < PathLen(b.asPath)
            else if a.origin != b.origin then a.origin == Incomplete || b.origin == Igp
            else if a.med != b.med then a.med.Some? && (b.med.None? || a.med.value > b.med.value)
            else if a.peerType != b.peerType then a.peerType == Ebgp
            else if a.peerType == Ebgp && a.recvTime != b.recvTime then a.recvTime > b.recvTime
            else if a.peerRid != b.peerRid then a.peerRid > b.peerRid
            else if a.peerIp.afi != b.peerIp.afi then a.peerIp.afi == Ipv6
            else exists k :: 0 <= k < |a.peerIp.octets| && a.peerIp.octets[k] > b.peerIp.octets[k]
                             && a.peerIp.octets[..k] == b.peerIp.octets[..k]
  {
    hide CmpOctets, PathLen;
    if a.peerIp.afi == b.peerIp.afi {
      LargerOctets(a.peerIp.octets, b.peerIp.octets);
    }
  }

  lemma {:induction false} LargerOctets(a: seq<Byte>, b: seq<Byte>)
    requires |a| == |b|
    ensures CmpOctets(a, b) == Greater <==> exists k :: 0 <= k < |a| && a[k] > b[k] && a[..k] == b[..k]
  {
    hide Lex;
    OctetsByLex(a, b);
    if a == b {
      LexLaws(a, b, []);
    } else {
      var k := FirstDifference(a, b);
      LexAtFirstDifference(a, b, k);
      if j :| 0 <= j < |a| && a[j] > b[j] && a[..j] == b[..j] {
        SameFirst(a, b, j, k);
      }
    }
  }

  lemma SameFirst(a: seq<Byte>, b: seq<Byte>, j: nat, k: nat)
    requires j < |a| == |b| && k < |a| && a[..j] == b[..j] && a[..k] == b[..k] && a[j] != b[j] && a[k] != b[k]
    ensures j == k
  {
    if j < k {
      SamePlace(a, b, k, j);
    } else if k < j {
      SamePlace(a, b, j, k);
    }
  }

  lemma SamePlace(a: seq<Byte>, b: seq<Byte>, k: nat, j: nat)
    requires j < k <= |a| == |b| && a[..k] == b[..k]
    ensures a[j] == b[j]
  {
    assert a[..k][j] == b[..k][j];
  }

  /** A set counts once in the comparison, whatever it holds; a sequence counts each of its ASNs. */
  lemma SetCountsOnce(r: Route, front: AsPath, back: AsPath, asns: seq<U16>, others: seq<U16>)
    ensures var some, other := Segment(AsSet, asns), Segment(AsSet, others);
            Cmp(r.(asPath := front + [some] + back), r.(asPath := front + [other] + back)) == Equal
    ensures var some, list := Segment(AsSet, asns), Segment(AsSequence, others);
            Cmp(r.(asPath := front + [some] + back), r.(asPath := front + [list] + back)) ==
            if |others| > 1 then Greater else if |others| == 1 then Equal else Less
    ensures var list, other := Segment(AsSequence, asns), Segment(AsSequence, others);
            |asns| < |others| ==>
              Cmp(r.(asPath := front + [list] + back), r.(asPath := front + [other] + back)) == Greater
  {
    hide CmpOctets, PathLen;
    PathLenOf(front, Segment(AsSet, asns), back);
    PathLenOf(front, Segment(AsSet, others), back);
    PathLenOf(front, Segment(AsSequence, asns), back);
    PathLenOf(front, Segment(AsSequence, others), back);
    SameAddress(r.peerIp);
  }

  lemma SameAddress(a: IpAddr)
    ensures CmpAddr(a, a) == Equal
  {
    OctetsByLex(a.octets, a.octets);
    LexLaws(a.octets, a.octets, a.octets);
  }

  /** Grouping by `==` and hashing see the same parts of a route. */
  lemma SameIffHashAgrees(a: Route, b: Route)
    ensures Same(a, b) <==> HashOf(a) == HashOf(b)
  {
  }

  /** No ASN of the path is `asn`: the loop check of section 9.1.2 of RFC 4271. */
  predicate LoopFree(r: Route, asn: U16) {
    asn !in Flatten(r.asPath)
  }

  /** The loop check looks at every segment, sets too. */
  lemma LoopFreeIff(r: Route, asn: U16)
    ensures LoopFree(r, asn) <==> forall g <- r.asPath :: asn !in g.asList
  {
    FlattenHas(r.asPath, asn);
  }

  /** Put one segment with `asn`, repeated, in front of the path. */
  function Prepend(r: Route, asn: U16, times: nat): Route {
    r.(asPath := [Segment(AsSequence, seq(times, i => asn))] + r.asPath)
  }

  lemma PrependOnce(r: Route, asn: U16)
    ensures Prepend(r, asn, 1) == r.(asPath := [Segment(AsSequence, [asn])] + r.asPath)
    ensures Flatten(Prepend(r, asn, 1).asPath) == [asn] + Flatten(r.asPath)
    ensures PathLen(Prepend(r, asn, 1).asPath) == 1 + PathLen(r.asPath)
  {
    var p := Prepend(r, asn, 1).asPath;
    assert p[1..] == r.asPath;
    assert p[0].asList == [asn];
  }

  /** The session facts a route takes over from the neighbour it came from. */
  datatype Peer = Peer(asn: U16, rid: U32, ip: IpAddr)

  /** What the attributes of an UPDATE say so far; later attributes overwrite earlier ones. */
  datatype Said = Said(
    origin: Origin, asPath: AsPath, nextHop: IpAddr, med: Option<U32>, localPref: Option<U32>)

  const UNSAID := Said(Igp, [], UNSPECIFIED_V4, None, None)

  function Say(s: Said, v: AttrValue): Said {
    match v
    case OriginValue(o) => s.(origin := o)
    case AsPathValue(p) => s.(asPath := p)
    case NextHopValue(a) => s.(nextHop := a)
    case MedValue(m) => s.(med := Some(m))
    case LocalPrefValue(l) => s.(localPref := Some(l))
    case _ => s
  }

  function SayAll(s: Said, attrs: seq<PathAttribute>): Said
    decreases |attrs|
  {
    if attrs == [] then s else SayAll(Say(s, attrs[0].value), attrs[1..])
  }

  /** A route as it is made from a received UPDATE. */
  function RouteOf(attrs: seq<PathAttribute>, nh: Option<IpAddr>, localAsn: U16, peer: Peer, now: nat): Route {
    var s := SayAll(UNSAID, attrs);
    var internal := localAsn == peer.asn;
    Route(s.asPath, s.origin, if nh.Some? then nh.value else s.nextHop, s.localPref, s.med,
          if internal then Internal else External, if internal then Ibgp else Ebgp, now, peer.rid, peer.ip)
  }

  method NewRoute(src: seq<PathAttribute>, localAsn: U16, peer: Peer, nh: Option<IpAddr>, now: nat)
    returns (r: Route)
    ensures r == RouteOf(src, nh, localAsn, peer, now)
  {
    var med, localPref: Option<U32>, nextHop := None, None, UNSPECIFIED_V4;
    var asPath: AsPath, origin := [], Igp;
    for k := 0 to |src|
      invariant SayAll(Said(origin, asPath, nextHop, med, localPref), src[k..]) == SayAll(UNSAID, src)
    {
      match src[k].value {
        case OriginValue(o) => origin := o;
        case AsPathValue(a) => asPath := a;
        case NextHopValue(n) => nextHop := n;
        case MedValue(m) => med := Some(m);
        case LocalPrefValue(l) => localPref := Some(l);
        case _ =>
      }
    }
    if nh.Some? {
      nextHop := nh.value;
    }
    var internal := localAsn == peer.asn;
    r := Route(asPath, origin, nextHop, localPref, med, if internal then Internal else External,
               if internal then Ibgp else Ebgp, now, peer.rid, peer.ip);
  }

  lemma {:induction false} SayAllSplit(s: Said, front: seq<PathAttribute>, back: seq<PathAttribute>)
    ensures SayAll(s, front + back) == SayAll(SayAll(s, front), back)
    decreases |front|
  {
    hide Say;
    if front == [] {
      assert front + back == back;
    } else {
      assert (front + back)[1..] == front[1..] + back;
      SayAllSplit(Say(s, front[0].value), front[1..], back);
    }
  }

  /** What no attribute says stays as it was. */
  lemma {:induction false} SayAllKeeps(s: Said, attrs: seq<PathAttribute>)
    ensures (forall a <- attrs :: !a.value.OriginValue?) ==> SayAll(s, attrs).origin == s.origin
    ensures (forall a <- attrs :: !a.value.AsPathValue?) ==> SayAll(s, attrs).asPath == s.asPath
    ensures (forall a <- attrs :: !a.value.NextHopValue?) ==> SayAll(s, attrs).nextHop == s.nextHop
    ensures (forall a <- attrs :: !a.value.MedValue?) ==> SayAll(s, attrs).med == s.med
    ensures (forall a <- attrs :: !a.value.LocalPrefValue?) ==> SayAll(s, attrs).localPref == s.localPref
    decreases |attrs|
  {
    if attrs != [] {
      assert attrs[0] in attrs && forall a <- attrs[1..] :: a in attrs;
      SayAllKeeps(Say(s, attrs[0].value), attrs[1..]);
    }
  }

  /** Of the attributes of one kind the last decides its own part of the route; a next hop from outside
      overrides all of them. */
  lemma LastDecides(attrs: seq<PathAttribute>, k: nat, nh: Option<IpAddr>, localAsn: U16, peer: Peer, now: nat)
    requires k < |attrs|
    ensures var r, v, later := RouteOf(attrs, nh, localAsn, peer, now), attrs[k].value, attrs[k + 1..];
            && (v.OriginValue? && (forall a <- later :: !a.value.OriginValue?) ==> r.origin == v.origin)
            && (v.AsPathValue? && (forall a <- later :: !a.value.AsPathValue?) ==> r.asPath == v.path)
            && (v.NextHopValue? && (forall a <- later :: !a.value.NextHopValue?) && nh.None? ==> r.nextHop == v.hop)
            && (v.MedValue? && (forall a <- later :: !a.value.MedValue?) ==> r.med == Some(v.med))
            && (v.LocalPrefValue? && (forall a <- later :: !a.value.LocalPrefValue?) ==> r.localPref == Some(v.pref))
  {
    var later, s := attrs[k + 1..], SayAll(UNSAID, attrs[..k]);
    assert attrs == attrs[..k] + ([attrs[k]] + later);
    SayAllSplit(UNSAID, attrs[..k], [attrs[k]] + later);
    assert ([attrs[k]] + later)[1..] == later;
    assert SayAll(s, [attrs[k]] + later) == SayAll(Say(s, attrs[k].value), later);
    hide SayAll;
    SayAllKeeps(Say(s, attrs[k].value), later);
  }

  /** What a route has when no attribute says otherwise, and what it takes over from its session. */
  lemma UnsaidIsDefault(attrs: seq<PathAttribute>, nh: Option<IpAddr>, localAsn: U16, peer: Peer, now: nat)
    ensures var r := RouteOf(attrs, nh, localAsn, peer, now);
            && ((forall a <- attrs :: !a.value.OriginValue?) ==> r.origin == Igp)
            && ((forall a <- attrs :: !a.value.AsPathValue?) ==> r.asPath == [])
            && ((forall a <- attrs :: !a.value.NextHopValue?) && nh.None? ==> r.nextHop == RawAddr(Ipv4, [0, 0, 0, 0]))
            && ((forall a <- attrs :: !a.value.MedValue?) ==> r.med == None)
            && ((forall a <- attrs :: !a.value.LocalPrefValue?) ==> r.localPref == None)
            && (nh.Some? ==> r.nextHop == nh.value)
            && (if localAsn == peer.asn then r.pathType == Internal && r.peerType == Ibgp
                else r.pathType == External && r.peerType == Ebgp)
            && r.recvTime == now && r.peerRid == peer.rid && r.peerIp == peer.ip
  {
    hide SayAll;
    SayAllKeeps(UNSAID, attrs);
    assert Zeros(4) == [0, 0, 0, 0];
  }

  /** The path of the route is one of the paths announced, or empty when none was. */
  lemma {:induction false} SaidPath(s: Said, attrs: seq<PathAttribute>)
    ensures var p := SayAll(s, attrs).asPath;
            p == s.asPath || exists k :: 0 <= k < |attrs| && attrs[k].value == AsPathValue(p)
    decreases |attrs|
  {
    if attrs != [] {
      SaidPath(Say(s, attrs[0].value), attrs[1..]);
      var p := SayAll(s, attrs).asPath;
      if exists k :: 0 <= k < |attrs[1..]| && attrs[1..][k].value == AsPathValue(p) {
        var k :| 0 <= k < |attrs[1..]| && attrs[1..][k].value == AsPathValue(p);
        assert attrs[k + 1].value == AsPathValue(p);
      } else if p != s.asPath {
        assert attrs[0].value == AsPathValue(p);
      }
    }
  }

  function WellKnown(t: AttrType, v: AttrValue): PathAttribute {
    PathAttribute(false, true, false, false, t, v)
  }

  function OptionalOnly(t: AttrType, v: AttrValue): PathAttribute {
    PathAttribute(true, false, false, false, t, v)
  }

  /** The attributes a route is announced with. */
  function AttributesOf(r: Route): seq<PathAttribute> {
    (if r.nextHop.afi == Ipv4 then [WellKnown(NextHop, NextHopValue(r.nextHop))] else [])
    + [WellKnown(AttrType.Origin, OriginValue(r.origin)), WellKnown(AttrType.AsPath, AsPathValue(r.asPath))]
    + (if r.localPref.Some? then [OptionalOnly(LocalPref, LocalPrefValue(r.localPref.value))] else [])
    + (if r.med.Some? then [OptionalOnly(MultiExitDisc, MedValue(r.med.value))] else [])
  }

  lemma SayOne(s: Said, a: PathAttribute)
    ensures SayAll(s, [a]) == Say(s, a.value) && SayAll(s, []) == s
  {
    assert [a][1..] == [];
  }

  /** The attributes say all of the route that a message can say: whoever reads them has its origin, path,
      preference and MED, and its next hop if that is IPv4. */
  lemma AttributesSayRoute(r: Route, localAsn: U16, peer: Peer, now: nat)
    ensures var t := RouteOf(AttributesOf(r), None, localAsn, peer, now);
            && t.origin == r.origin && t.asPath == r.asPath && t.localPref == r.localPref && t.med == r.med
            && t.nextHop == if r.nextHop.afi == Ipv4 then r.nextHop else RawAddr(Ipv4, [0, 0, 0, 0])
  {
    var hop := if r.nextHop.afi == Ipv4 then [WellKnown(NextHop, NextHopValue(r.nextHop))] else [];
    var origin := WellKnown(AttrType.Origin, OriginValue(r.origin));
    var path := WellKnown(AttrType.AsPath, AsPathValue(r.asPath));
    var pref := if r.localPref.Some? then [OptionalOnly(LocalPref, LocalPrefValue(r.localPref.value))] else [];
    var med := if r.med.Some? then [OptionalOnly(MultiExitDisc, MedValue(r.med.value))] else [];
    assert AttributesOf(r) == hop + ([origin] + ([path] + (pref + med)));
    assert Zeros(4) == [0, 0, 0, 0];
    hide SayAll;
    SayAllSplit(UNSAID, hop, [origin] + ([path] + (pref + med)));
    if hop != [] {
      SayOne(UNSAID, hop[0]);
    } else {
      SayOne(UNSAID, origin);
    }
    var s := SayAll(UNSAID, hop);
    SayAllSplit(s, [origin], [path] + (pref + med));
    SayOne(s, origin);
    SayAllSplit(Say(s, origin.value), [path], pref + med);
    SayOne(Say(s, origin.value), path);
    s := Say(Say(s, origin.value), path.value);
    SayAllSplit(s, pref, med);
    SayOne(s, if pref != [] then pref[0] else origin);
    SayOne(SayAll(s, pref), if med != [] then med[0] else origin);
  }

  /** Preference and MED are optional and stop at the receiver, the others are well-known and transitive. */
  lemma FlagsOfAttributes(r: Route)
    ensures forall a <- AttributesOf(r) ::
              && !a.partial && !a.extendedLength && a.typeCode == TypeOfValue(a.value)
              && a.optional == !a.transitive && (a.optional <==> a.value.MedValue? || a.value.LocalPrefValue?)
  {
  }
}
