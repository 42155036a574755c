/** Prefixes and their wire form (src/bgp/nlri.rs:18-140, section 4.3 of RFC 4271). */
module Nlris {
  import opened Basics
  import opened Bytes
  import opened Types

  /** An address of either family as its octets, most significant first. */
  datatype RawAddr = RawAddr(afi: Afi, octets: seq<Byte>)
  type IpAddr = a: RawAddr | |a.octets| == Width(a.afi) witness RawAddr(Ipv4, [0, 0, 0, 0])

  /** `IpNet`: an address with a prefix length. Host bits are kept, as `ipnet` keeps them. */
  datatype RawNet = RawNet(addr: IpAddr, plen: nat)
  type Nlri = n: RawNet | n.plen <= 8 * Width(n.addr.afi) witness RawNet(RawAddr(Ipv4, [0, 0, 0, 0]), 0)

  const UNSPECIFIED_V4: IpAddr := RawAddr(Ipv4, Zeros(4))
  const UNSPECIFIED_V6: IpAddr := RawAddr(Ipv6, Zeros(16))

  /** `IpNet::network` with the same length: the address, as a number, under its mask. */
  function Network(n: Nlri): (m: Nlri)
    ensures m.addr.afi == n.addr.afi && m.plen == n.plen
  {
    var w := Width(n.addr.afi);
    RawNet(RawAddr(n.addr.afi, ToBE(ClearLow(FromBE(n.addr.octets), 8 * w - n.plen), w)), n.plen)
  }

  /** Bit by bit: the first `plen` bits of the address are kept, and all others are zero. */
  lemma NetworkBits(n: Nlri, i: nat)
    requires i < 8 * Width(n.addr.afi)
    ensures BitAt(Network(n).addr.octets, i) == if i < n.plen then BitAt(n.addr.octets, i) else 0
  {
    hide BitAt, ToBE, FromBE, ClearLow;
    var w := Width(n.addr.afi);
    var h, bits := 8 * w - n.plen, FromBE(n.addr.octets);
    FromBEBound(n.addr.octets);
    FromToBE(ClearLow(bits, h), w);
    NumberBits(n.addr.octets, i);
    NumberBits(Network(n).addr.octets, i);
    ClearLowBits(bits, h, 8 * w - 1 - i);
  }

  function Networks(ns: seq<Nlri>): (ms: seq<Nlri>)
    ensures |ms| == |ns|
  {
    if ns == [] then [] else [Network(ns[0])] + Networks(ns[1..])
  }

  lemma {:induction false} NetworksKeepAll(ns: seq<Nlri>)
    ensures |Networks(ns)| == |ns|
    ensures forall k | 0 <= k < |ns| :: Networks(ns)[k] == Network(ns[k])
  {
    if ns != [] {
      NetworksKeepAll(ns[1..]);
    }
  }

  lemma NetworksOfOne(n: Nlri)
    ensures Networks([n]) == [Network(n)] && Networks([]) == []
  {
    assert [n][1..] == [];
    assert [Network(n)] + [] == [Network(n)];
  }

  lemma {:induction false} NetworksSplit(a: seq<Nlri>, b: seq<Nlri>)
    ensures Networks(a + b) == Networks(a) + Networks(b)
  {
    hide Network;
    if a == [] {
      assert a + b == b;
    } else {
      assert (a + b)[1..] == a[1..] + b;
      NetworksSplit(a[1..], b);
    }
  }

  predicate AllOf(afi: Afi, ns: seq<Nlri>) {
    forall n <- ns :: n.addr.afi == afi
  }

  function PrintNlri(n: Nlri): (s: seq<Byte>)
    ensures |s| == 1 + Octets(n.plen) && s[0] == n.plen
  {
    [n.plen] + Network(n).addr.octets[..Octets(n.plen)]
  }

  function PrintNlris(ns: seq<Nlri>): seq<Byte> {
    if ns == [] then [] else PrintNlri(ns[0]) + PrintNlris(ns[1..])
  }

  /** The 16-bit groups of an IPv6 address, as the parser collects them. */
  function Groups(octets: seq<Byte>): seq<U16>
    requires |octets| % 2 == 0
  {
    if octets == [] then [] else Groups(octets[..|octets| - 2]) + [GetU16(octets[|octets| - 2], octets[|octets| - 1])]
  }

  /** The octets of the address `Ipv6Addr::new` makes of its groups. */
  function GroupOctets(groups: seq<U16>): (octets: seq<Byte>)
    ensures |octets| == 2 * |groups|
  {
    if groups == [] then [] else GroupOctets(groups[..|groups| - 1]) + PutU16(groups[|groups| - 1])
  }

  lemma {:induction false} GroupsSpellTheOctets(octets: seq<Byte>)
    requires |octets| % 2 == 0
    ensures GroupOctets(Groups(octets)) == octets
  {
    if octets != [] {
      var init, hi, lo := octets[..|octets| - 2], octets[|octets| - 2], octets[|octets| - 1];
      GroupsSpellTheOctets(init);
      assert (Groups(init) + [GetU16(hi, lo)])[..|Groups(init)|] == Groups(init);
      GetPutU16(hi, lo);
      assert octets == init + [hi, lo];
    }
  }

  /** What the octets of a prefix mean: its length, then its address padded with zeros. */
  function ParseOctets(afi: Afi, octets: seq<Byte>): Result<Nlri> {
    if octets == [] then Err
    else
      var plen, addr := octets[0], octets[1..];
      if |addr| < Octets(plen) || plen > 8 * Width(afi) then Err
      else Ok(RawNet(RawAddr(afi, Resize(addr, Width(afi))), plen))
  }

  method ParseIpv4Octets(octets: seq<Byte>) returns (r: Result<Nlri>)
    ensures r == ParseOctets(Ipv4, octets)
  {
    if octets == [] {
      return Err;
    }
    var plen, addr := octets[0], octets[1..];
    var expected := if plen == 0 then 0 else Octets(plen);
    if |addr| < expected {
      return Err;
    }
    addr := Resize(addr, 4);
    if plen > 32 {
      return Err;
    }
    r := Ok(RawNet(RawAddr(Ipv4, addr), plen));
  }

  method ParseIpv6Octets(octets: seq<Byte>) returns (r: Result<Nlri>)
    ensures r == ParseOctets(Ipv6, octets)
  {
    if octets == [] {
      return Err;
    }
    var plen, addr := octets[0], octets[1..];
    var expected := if plen == 0 then 0 else Octets(plen);
    if |addr| < expected {
      return Err;
    }
    addr := Resize(addr, 16);
    var groups := CollectGroups(addr);
    GroupsSpellTheOctets(addr);
    if plen > 128 {
      return Err;
    }
    r := Ok(RawNet(RawAddr(Ipv6, GroupOctets(groups)), plen));
  }

  method CollectGroups(addr: seq<Byte>) returns (groups: seq<U16>)
    requires |addr| % 2 == 0
    ensures groups == Groups(addr)
  {
    groups := [];
    var i := 0;
    while i < |addr|
      invariant 0 <= i <= |addr| && i % 2 == 0
      invariant groups == Groups(addr[..i])
    {
      assert addr[..i + 2][..i] == addr[..i];
      groups := groups + [GetU16(addr[i], addr[i + 1])];
      i := i + 2;
    }
    assert addr[..i] == addr;
  }

  lemma ParsedPrefix(afi: Afi, octets: seq<Byte>)
    requires ParseOctets(afi, octets).Ok?
    ensures ParseOctets(afi, octets).value.plen == octets[0]
    ensures ParseOctets(afi, octets).value.addr.afi == afi
  {
  }

  /** The octets left out on the wire are those the mask has cleared. */
  lemma MaskedTailIsZero(bits: nat, plen: nat, w: nat)
    requires plen <= 8 * w
    ensures var s := ToBE(ClearLow(bits, 8 * w - plen), w);
            Octets(plen) <= w && Resize(s[..Octets(plen)], w) == s
  {
    var k := Octets(plen);
    var q := ClearedOctets(bits, 8 * w - plen, w - k);
    ToBEOfMultiple(q, w - k, w);
    var s := ToBE(ClearLow(bits, 8 * w - plen), w);
    assert s == ToBE(q, k) + Zeros(w - k);
    assert s[..k] == ToBE(q, k);
  }

  /** A network has no host bits to lose. */
  lemma NetworkTwice(n: Nlri)
    ensures Network(Network(n)) == Network(n)
  {
    var w := Width(n.addr.afi);
    var bits := FromBE(n.addr.octets);
    FromBEBound(n.addr.octets);
    FromToBE(ClearLow(bits, 8 * w - n.plen), w);
    ClearLowTwice(bits, 8 * w - n.plen);
  }

  /** Host bits are not printed. */
  lemma {:induction false} NetworksPrintAlike(ns: seq<Nlri>)
    ensures PrintNlris(Networks(ns)) == PrintNlris(ns)
  {
    hide Network;
    if ns != [] {
      NetworkTwice(ns[0]);
      NetworksPrintAlike(ns[1..]);
      assert Networks(ns)[1..] == Networks(ns[1..]);
    }
  }

  /** A prefix comes back with its host bits cleared. */
  lemma NlriRoundTrip(n: Nlri)
    ensures ParseOctets(n.addr.afi, PrintNlri(n)) == Ok(Network(n))
  {
    assert PrintNlri(n)[1..] == Network(n).addr.octets[..Octets(n.plen)];
    MaskedTailIsZero(FromBE(n.addr.octets), n.plen, Width(n.addr.afi));
  }

  lemma {:induction false} PrintNlrisSplit(ns: seq<Nlri>, ms: seq<Nlri>)
    ensures PrintNlris(ns + ms) == PrintNlris(ns) + PrintNlris(ms)
  {
    if ns == [] {
      assert ns + ms == ms;
    } else {
      assert (ns + ms)[1..] == ns[1..] + ms;
      PrintNlrisSplit(ns[1..], ms);
    }
  }

  method PrintNlriList(ns: seq<Nlri>) returns (s: seq<Byte>)
    ensures s == PrintNlris(ns)
  {
    s := [];
    for i := 0 to |ns|
      invariant s == PrintNlris(ns[..i])
    {
      assert ns[..i + 1] == ns[..i] + [ns[i]];
      PrintNlrisSplit(ns[..i], [ns[i]]);
      assert PrintNlris([ns[i]]) == PrintNlri(ns[i]) + PrintNlris([ns[i]][1..]);
      s := s + PrintNlri(ns[i]);
    }
    assert ns[..|ns|] == ns;
  }

  /** Prefixes read one after the other, and the place where reading stopped. */
  datatype Run = Run(items: seq<Nlri>, next: nat)

  /** Read prefixes of one family from place `i` on until place `limit` is reached or passed. */
  function ReadNlris(afi: Afi, src: seq<Byte>, i: nat, limit: nat): Result<Run>
    decreases |src| - i
  {
    if i >= limit then Ok(Run([], i))
    else if i >= |src| || PrefixBytes(src[i], afi).Err? then Err
    else
      var end := i + Octets(src[i]) + 1;
      if end > |src| || ParseOctets(afi, src[i..end]).Err? then Err
      else
        Prefixed([ParseOctets(afi, src[i..end]).value], ReadNlris(afi, src, end, limit))
  }

  /** Reading gets to a prefix that the buffer does not hold to its end. */
  predicate RunsOut(afi: Afi, src: seq<Byte>, i: nat, limit: nat)
    decreases |src| - i
  {
    i < limit
    && (i >= |src|
        || (PrefixBytes(src[i], afi).Ok?
            && (i + Octets(src[i]) + 1 > |src| || RunsOut(afi, src, i + Octets(src[i]) + 1, limit))))
  }

  /** Reading fails when it runs out, or at a length that the family does not have. */
  lemma {:induction false} RunningOutFails(afi: Afi, src: seq<Byte>, i: nat, limit: nat)
    requires RunsOut(afi, src, i, limit)
    ensures ReadNlris(afi, src, i, limit).Err?
    decreases |src| - i
  {
    hide ParseOctets;
    if i < |src| && i + Octets(src[i]) + 1 <= |src| {
      RunningOutFails(afi, src, i + Octets(src[i]) + 1, limit);
    }
  }

  /** The octets are exactly the wire forms of the prefixes, one slice each. */
  predicate Spells(afi: Afi, octets: seq<Byte>, items: seq<Nlri>) {
    if items == [] then octets == []
    else
      && octets != []
      && Octets(octets[0]) < |octets|
      && ParseOctets(afi, octets[..Octets(octets[0]) + 1]) == Ok(items[0])
      && Spells(afi, octets[Octets(octets[0]) + 1..], items[1..])
  }

  lemma SpellsMore(afi: Afi, src: seq<Byte>, i: nat, next: nat, n: Nlri, items: seq<Nlri>)
    requires i < |src| && i + Octets(src[i]) + 1 <= next <= |src|
    requires ParseOctets(afi, src[i..i + Octets(src[i]) + 1]) == Ok(n)
    requires Spells(afi, src[i + Octets(src[i]) + 1..next], items)
    ensures Spells(afi, src[i..next], [n] + items)
  {
    hide ParseOctets;
    var end := i + Octets(src[i]) + 1;
    var octets := src[i..next];
    assert octets[..Octets(octets[0]) + 1] == src[i..end];
    assert octets[Octets(octets[0]) + 1..] == src[end..next];
    assert ([n] + items)[1..] == items;
  }

  /** Nothing is skipped: what was read is spelled by the octets passed over, and the last
      prefix starts before the limit. */
  lemma {:induction false} ReadAccounts(afi: Afi, src: seq<Byte>, i: nat, limit: nat)
    requires i <= |src| && ReadNlris(afi, src, i, limit).Ok?
    ensures var run := ReadNlris(afi, src, i, limit).value;
            && i <= run.next <= |src| && limit <= run.next
            && run.next <= (if i < limit then limit + Width(afi) else i)
            && Spells(afi, src[i..run.next], run.items)
    decreases |src| - i
  {
    if i < limit {
      hide ParseOctets, Spells;
      var end := i + Octets(src[i]) + 1;
      ReadAccounts(afi, src, end, limit);
      var rest := ReadNlris(afi, src, end, limit).value;
      SpellsMore(afi, src, i, rest.next, ParseOctets(afi, src[i..end]).value, rest.items);
    }
  }

  lemma {:induction false} ReadIsOfFamily(afi: Afi, src: seq<Byte>, i: nat, limit: nat)
    requires ReadNlris(afi, src, i, limit).Ok?
    ensures AllOf(afi, ReadNlris(afi, src, i, limit).value.items)
    decreases |src| - i
  {
    if i < limit {
      var end := i + Octets(src[i]) + 1;
      ParsedPrefix(afi, src[i..end]);
      hide ParseOctets;
      ReadIsOfFamily(afi, src, end, limit);
    }
  }

  lemma {:induction false} NetworksKeepFamily(afi: Afi, ns: seq<Nlri>)
    ensures AllOf(afi, Networks(ns)) <==> AllOf(afi, ns)
  {
    hide Network;
    if ns != [] {
      NetworksKeepFamily(afi, ns[1..]);
      assert ns == [ns[0]] + ns[1..] && Networks(ns) == [Network(ns[0])] + Networks(ns[1..]);
      AllOfCons(afi, ns[0], ns[1..]);
      AllOfCons(afi, Network(ns[0]), Networks(ns[1..]));
    }
  }

  lemma AllOfCons(afi: Afi, n: Nlri, ns: seq<Nlri>)
    ensures AllOf(afi, [n] + ns) <==> n.addr.afi == afi && AllOf(afi, ns)
  {
    assert n in [n] + ns && forall m <- ns :: m in [n] + ns;
  }

  /** A result with more prefixes read before it. */
  function Prefixed(read: seq<Nlri>, r: Result<Run>): Result<Run> {
    match r
    case Err => Err
    case Ok(run) => Ok(Run(read + run.items, run.next))
  }

  lemma PrefixedNothing(r: Result<Run>)
    ensures Prefixed([], r) == r
  {
    if r.Ok? {
      assert [] + r.value.items == r.value.items;
    }
  }

  lemma PrefixedTwice(read: seq<Nlri>, n: Nlri, r: Result<Run>)
    ensures Prefixed(read, Prefixed([n], r)) == Prefixed(read + [n], r)
  {
    if r.Ok? {
      assert read + ([n] + r.value.items) == read + [n] + r.value.items;
    }
  }

  lemma ReadOne(afi: Afi, src: seq<Byte>, i: nat, n: Nlri, limit: nat)
    requires n.addr.afi == afi && i < limit && At(src, i, PrintNlri(n))
    ensures ReadNlris(afi, src, i, limit) ==
            Prefixed([Network(n)], ReadNlris(afi, src, i + |PrintNlri(n)|, limit))
  {
    NlriRoundTrip(n);
    AtIndex(src, i, PrintNlri(n), 0);
  }

  lemma {:induction false} ReadPrinted(afi: Afi, src: seq<Byte>, i: nat, ns: seq<Nlri>)
    requires AllOf(afi, ns) && At(src, i, PrintNlris(ns))
    ensures var limit := i + |PrintNlris(ns)|;
            ReadNlris(afi, src, i, limit) == Ok(Run(Networks(ns), limit))
    decreases |ns|
  {
    hide ParseOctets, PrefixBytes, Network, PrintNlri, At;
    if ns != [] {
      hide ReadNlris;
      var first := PrintNlri(ns[0]);
      AtSplit(src, i, first, PrintNlris(ns[1..]));
      ReadOne(afi, src, i, ns[0], i + |PrintNlris(ns)|);
      ReadPrinted(afi, src, i + |first|, ns[1..]);
    }
  }

  /** A limit before the last prefix leaves that prefix out. */
  lemma {:induction false} ReadStopsEarly(afi: Afi, src: seq<Byte>, i: nat, ns: seq<Nlri>, limit: nat)
    requires AllOf(afi, ns) && ns != [] && At(src, i, PrintNlris(ns))
    requires limit + Width(afi) < i + |PrintNlris(ns)|
    ensures var r := ReadNlris(afi, src, i, limit);
            r.Ok? && |r.value.items| < |ns|
    decreases |ns|
  {
    hide PrintNlri, At;
    if i < limit {
      var first := PrintNlri(ns[0]);
      PrefixWidth(ns[0]);
      assert PrintNlris(ns) == first + PrintNlris(ns[1..]) && PrintNlris([]) == [];
      hide PrintNlris, ReadNlris;
      AtSplit(src, i, first, PrintNlris(ns[1..]));
      ReadOne(afi, src, i, ns[0], limit);
      ReadStopsEarly(afi, src, i + |first|, ns[1..], limit);
    }
  }

  lemma PrefixWidth(n: Nlri)
    ensures |PrintNlri(n)| <= 1 + Width(n.addr.afi)
  {
  }

  /** The reading loop of the multiprotocol attributes; `out` tells whether it ran out of octets. */
  method ReadNlriList(afi: Afi, src: seq<Byte>, start: nat, limit: nat) returns (r: Result<Run>, out: bool)
    ensures r == ReadNlris(afi, src, start, limit)
    ensures out <==> RunsOut(afi, src, start, limit)
  {
    hide ParseOctets;
    var nlris: seq<Nlri> := [];
    var i := start;
    PrefixedNothing(ReadNlris(afi, src, start, limit));
    while i < limit
      invariant ReadNlris(afi, src, start, limit) == Prefixed(nlris, ReadNlris(afi, src, i, limit))
      invariant RunsOut(afi, src, start, limit) <==> RunsOut(afi, src, i, limit)
      decreases |src| - i
    {
      if i >= |src| {
        return Err, true;
      }
      var octets := PrefixBytes(src[i], afi);
      if octets.Err? {
        return Err, false;
      }
      var end := i + octets.value + 1;
      if end > |src| {
        return Err, true;
      }
      var n;
      match afi {
        case Ipv4 => n := ParseIpv4Octets(src[i..end]);
        case Ipv6 => n := ParseIpv6Octets(src[i..end]);
      }
      WholePrefixParses(afi, src[i..end]);
      ParsedPrefix(afi, src[i..end]);
      PrefixedTwice(nlris, n.value, ReadNlris(afi, src, end, limit));
      var step := PrefixBytes(n.value.plen, afi);
      nlris := nlris + [n.value];
      i := i + step.value + 1;
    }
    assert nlris + [] == nlris;
    r, out := Ok(Run(nlris, i)), false;
  }

  /** A prefix of a length that the family has, with all its octets there. */
  lemma WholePrefixParses(afi: Afi, octets: seq<Byte>)
    requires octets != [] && PrefixBytes(octets[0], afi).Ok? && |octets| == Octets(octets[0]) + 1
    ensures ParseOctets(afi, octets).Ok?
  {
  }
}
