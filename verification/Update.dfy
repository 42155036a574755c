/** The UPDATE message (src/bgp/messages.rs:143-325, section 4.3 of RFC 4271). */
module Updates {
  import opened Basics
  import opened Bytes
  import opened Types
  import opened Nlris
  import opened Attributes
  import opened MpNlris

  datatype UpdateMessage = UpdateMessage(withdrawn: seq<Nlri>, attributes: seq<PathAttribute>, nlri: seq<Nlri>)

  function PrintAttrs(attrs: seq<PathAttribute>): seq<Byte> {
    if attrs == [] then [] else PrintAttr(attrs[0]) + PrintAttrs(attrs[1..])
  }

  /** Octets behind their length, in two octets. */
  function Sized(octets: seq<Byte>): seq<Byte> {
    PutU16(|octets|) + octets
  }

  function PrintTail(u: UpdateMessage): seq<Byte> {
    Sized(PrintAttrs(u.attributes)) + PrintNlris(u.nlri)
  }

  function PrintUpdate(u: UpdateMessage): seq<Byte> {
    Sized(PrintNlris(u.withdrawn)) + PrintTail(u)
  }

  datatype AttrRun = AttrRun(items: seq<PathAttribute>, next: nat)

  /** The octets of the attribute at place `i`, if the buffer holds all of them. */
  function AttrExtent(src: seq<Byte>, i: nat): Option<nat> {
    if i >= |src| then None
    else
      var head := if IsExtendedLen(src[i]) then 4 else 3;
      if i + head > |src| then None
      else
        var n: nat := if IsExtendedLen(src[i]) then GetU16(src[i + 2], src[i + 3]) else src[i + 2];
        if i + head + n > |src| then None else Some(head + n)
  }

  /** Attributes from place `i` on, until `limit` is reached or an attribute is cut off. */
  function ReadAttrs(src: seq<Byte>, i: nat, limit: nat): Result<AttrRun>
    decreases |src| - i
  {
    if i >= limit || AttrExtent(src, i).None? then Ok(AttrRun([], i))
    else
      var end := i + AttrExtent(src, i).value;
      if ParseAttr(src[i..end]).Err? then Err
      else AfterAttrs([ParseAttr(src[i..end]).value], ReadAttrs(src, end, limit))
  }

  function AfterAttrs(read: seq<PathAttribute>, r: Result<AttrRun>): Result<AttrRun> {
    match r case Err => Err case Ok(run) => Ok(AttrRun(read + run.items, run.next))
  }

  lemma AfterAttrsTwice(read: seq<PathAttribute>, a: PathAttribute, r: Result<AttrRun>)
    ensures AfterAttrs(read, AfterAttrs([a], r)) == AfterAttrs(read + [a], r)
  {
    if r.Ok? {
      assert read + ([a] + r.value.items) == read + [a] + r.value.items;
    }
  }

  lemma AfterNoAttrs(r: Result<AttrRun>)
    ensures AfterAttrs([], r) == r
  {
    if r.Ok? {
      assert [] + r.value.items == r.value.items;
    }
  }

  function ParseUpdate(src: seq<Byte>): Result<UpdateMessage> {
    if |src| < 2 then Err
    else
      match ReadNlris(Ipv4, src, 2, 2 + GetU16(src[0], src[1]))
      case Err => Err
      case Ok(wd) => ParseTail(src, wd.items, wd.next)
  }

  /** The rest of a message whose withdrawn routes end at place `i`. */
  function ParseTail(src: seq<Byte>, withdrawn: seq<Nlri>, i: nat): Result<UpdateMessage> {
    if |src| < i + 2 then Err
    else
      var limit := i + 2 + GetU16(src[i], src[i + 1]);
      if |src| < limit then Err
      else
        match ReadAttrs(src, i + 2, limit)
        case Err => Err
        case Ok(pa) =>
          match ReadNlris(Ipv4, src, pa.next, |src|)
          case Err => Err
          case Ok(nl) => Ok(UpdateMessage(withdrawn, pa.items, nl.items))
  }

  /** Host bits cleared and length flags as the values ask: what the wire can carry. */
  function Canonical(u: UpdateMessage): UpdateMessage {
    UpdateMessage(Networks(u.withdrawn), Normals(u.attributes), Networks(u.nlri))
  }

  function Normals(attrs: seq<PathAttribute>): seq<PathAttribute> {
    if attrs == [] then [] else [Normal(attrs[0])] + Normals(attrs[1..])
  }

  predicate WireUpdate(u: UpdateMessage) {
    && AllOf(Ipv4, u.withdrawn) && AllOf(Ipv4, u.nlri)
    && (forall a <- u.attributes :: WireAttr(a))
    && |PrintNlris(u.withdrawn)| <= 0xffff && |PrintAttrs(u.attributes)| <= 0xffff
  }

  lemma {:induction false} AttrsShortValues(attrs: seq<PathAttribute>, k: nat)
    requires k < |attrs|
    ensures |PrintAttr(attrs[k])| <= |PrintAttrs(attrs)|
  {
    hide PrintAttr;
    assert PrintAttrs(attrs) == PrintAttr(attrs[0]) + PrintAttrs(attrs[1..]);
    hide PrintAttrs;
    if k > 0 {
      AttrsShortValues(attrs[1..], k - 1);
    }
  }

  /** What stands in front of a printed value. */
  lemma PrintedHead(a: PathAttribute)
    requires |ValueOctets(a.value)| <= 0xffff
    ensures var s, n := PrintAttr(a), |ValueOctets(a.value)|;
            && IsExtendedLen(s[0]) == (n > 255)
            && |s| == n + (if n > 255 then 4 else 3)
            && (if n > 255 then GetU16(s[2], s[3]) else s[2]) == n
  {
    hide ValueOctets;
    var n := |ValueOctets(a.value)|;
    FlagsReadBack(n > 255, a.partial, a.transitive, a.optional);
    PutGetU16(n);
  }

  lemma ExtentOfPrinted(src: seq<Byte>, i: nat, a: PathAttribute)
    requires At(src, i, PrintAttr(a)) && |ValueOctets(a.value)| <= 0xffff
    ensures AttrExtent(src, i) == Some(|PrintAttr(a)|)
  {
    hide PrintAttr, ValueOctets, GetU16, IsExtendedLen;
    PrintedHead(a);
    AtIndex(src, i, PrintAttr(a), 0);
    AtIndex(src, i, PrintAttr(a), 2);
    if |ValueOctets(a.value)| > 255 {
      AtIndex(src, i, PrintAttr(a), 3);
    }
  }

  lemma ReadOneAttr(src: seq<Byte>, i: nat, a: PathAttribute, limit: nat)
    requires At(src, i, PrintAttr(a)) && WireAttr(a) && |PrintAttr(a)| <= 0xffff && i < limit
    ensures ReadAttrs(src, i, limit) == AfterAttrs([Normal(a)], ReadAttrs(src, i + |PrintAttr(a)|, limit))
  {
    hide ParseAttr, AttrExtent;
    assert |ValueOctets(a.value)| <= |PrintAttr(a)|;
    ExtentOfPrinted(src, i, a);
    AttrRoundTrip(a);
  }

  lemma {:induction false} ReadPrintedAttrs(src: seq<Byte>, i: nat, attrs: seq<PathAttribute>)
    requires At(src, i, PrintAttrs(attrs)) && (forall a <- attrs :: WireAttr(a)) && |PrintAttrs(attrs)| <= 0xffff
    ensures var limit := i + |PrintAttrs(attrs)|;
            ReadAttrs(src, i, limit) == Ok(AttrRun(Normals(attrs), limit))
    decreases |attrs|
  {
    hide ParseAttr, AttrExtent, WireAttr, Normal, PrintAttr;
    if attrs != [] {
      var first := PrintAttr(attrs[0]);
      AtSplit(src, i, first, PrintAttrs(attrs[1..]));
      ReadOneAttr(src, i, attrs[0], i + |PrintAttrs(attrs)|);
      ReadPrintedAttrs(src, i + |first|, attrs[1..]);
    }
  }

  lemma TailRoundTrip(src: seq<Byte>, i: nat, u: UpdateMessage, withdrawn: seq<Nlri>)
    requires WireUpdate(u) && At(src, i, PrintTail(u)) && |src| == i + |PrintTail(u)|
    ensures ParseTail(src, withdrawn, i) == Ok(Canonical(u).(withdrawn := withdrawn))
  {
    hide ReadNlris, ReadAttrs, PrintAttrs, PrintNlris, WireAttr, PutU16;
    var pa, nl := PrintAttrs(u.attributes), PrintNlris(u.nlri);
    AtSplit(src, i, Sized(pa), nl);
    SizedAt(src, i, pa);
    ReadPrintedAttrs(src, i + 2, u.attributes);
    ReadPrinted(Ipv4, src, i + 2 + |pa|, u.nlri);
  }

  /** A message is read as it was printed, up to what the wire cannot carry. */
  lemma UpdateRoundTrip(u: UpdateMessage)
    requires WireUpdate(u)
    ensures ParseUpdate(PrintUpdate(u)) == Ok(Canonical(u))
  {
    hide ReadNlris, ReadAttrs, PrintAttrs, PrintNlris, PutU16, ParseTail;
    var src, wd := PrintUpdate(u), PrintNlris(u.withdrawn);
    AtWhole(src);
    AtSplit(src, 0, Sized(wd), PrintTail(u));
    SizedAt(src, 0, wd);
    ReadPrinted(Ipv4, src, 2, u.withdrawn);
    TailRoundTrip(src, 2 + |wd|, u, Networks(u.withdrawn));
  }

  /** A prefix of any family, read as an IPv4 prefix: reading fails, or goes on behind it. */
  lemma ReadAnyPrefix(src: seq<Byte>, i: nat, n: Nlri, limit: nat)
    requires At(src, i, PrintNlri(n)) && i < limit && ReadNlris(Ipv4, src, i, limit).Ok?
    ensures var rest := ReadNlris(Ipv4, src, i + |PrintNlri(n)|, limit);
            rest.Ok? && rest.value.next == ReadNlris(Ipv4, src, i, limit).value.next
  {
    hide ParseOctets, At, PrintNlri;
    AtIndex(src, i, PrintNlri(n), 0);
    assert |PrintNlri(n)| == Octets(src[i]) + 1;
  }

  lemma ReadNothing(src: seq<Byte>, i: nat)
    ensures ReadNlris(Ipv4, src, i, i) == Ok(Run([], i))
  {
  }

  /** Prefixes of any family, read as IPv4 prefixes: reading fails, or passes over just their octets. */
  lemma {:induction false} ReadAnyPrinted(src: seq<Byte>, i: nat, ns: seq<Nlri>)
    requires At(src, i, PrintNlris(ns)) && ReadNlris(Ipv4, src, i, i + |PrintNlris(ns)|).Ok?
    ensures ReadNlris(Ipv4, src, i, i + |PrintNlris(ns)|).value.next == i + |PrintNlris(ns)|
    decreases |ns|
  {
    hide PrintNlri, ReadNlris, At, Octets;
    ReadNothing(src, i);
    if ns != [] {
      var first, rest := PrintNlri(ns[0]), PrintNlris(ns[1..]);
      assert PrintNlris(ns) == first + rest;
      hide PrintNlris;
      AtSplit(src, i, first, rest);
      ReadAnyPrefix(src, i, ns[0], i + |first + rest|);
      ReadAnyPrinted(src, i + |first|, ns[1..]);
    }
  }

  /** Printable attributes between prefixes of any family. */
  predicate WireAttributes(u: UpdateMessage) {
    && (forall a <- u.attributes :: WireAttr(a))
    && |PrintNlris(u.withdrawn)| <= 0xffff && |PrintAttrs(u.attributes)| <= 0xffff
  }

  lemma TailAttributes(src: seq<Byte>, i: nat, u: UpdateMessage, withdrawn: seq<Nlri>)
    requires WireAttributes(u) && At(src, i, PrintTail(u)) && |src| == i + |PrintTail(u)|
    ensures var r := ParseTail(src, withdrawn, i);
            r.Ok? ==> r.value.attributes == Normals(u.attributes)
  {
    hide ReadNlris, ReadAttrs, PrintAttrs, PrintNlris, WireAttr, PutU16;
    var pa, nl := PrintAttrs(u.attributes), PrintNlris(u.nlri);
    AtSplit(src, i, Sized(pa), nl);
    SizedAt(src, i, pa);
    ReadPrintedAttrs(src, i + 2, u.attributes);
  }

  /** Whatever becomes of prefixes that are not IPv4, the attributes of an accepted message are those
      that were sent. */
  lemma AttributesArrive(u: UpdateMessage)
    requires WireAttributes(u)
    ensures var r := ParseUpdate(PrintUpdate(u));
            r.Ok? ==> r.value.attributes == Normals(u.attributes)
  {
    hide ReadNlris, ReadAttrs, PrintAttrs, PrintNlris, PutU16, ParseTail, WireAttr;
    var src, wd := PrintUpdate(u), PrintNlris(u.withdrawn);
    AtWhole(src);
    AtSplit(src, 0, Sized(wd), PrintTail(u));
    SizedAt(src, 0, wd);
    var r := ReadNlris(Ipv4, src, 2, 2 + |wd|);
    if r.Ok? {
      ReadAnyPrinted(src, 2, u.withdrawn);
      TailAttributes(src, 2 + |wd|, u, r.value.items);
    }
  }

  predicate AttrStarts(src: seq<Byte>, i: nat, limit: nat) {
    i < limit && AttrExtent(src, i).Some?
  }

  function AttrOctets(src: seq<Byte>, i: nat): (octets: seq<Byte>)
    requires AttrExtent(src, i).Some?
    ensures octets != []
  {
    src[i..i + AttrExtent(src, i).value]
  }

  lemma ReadFirstAttr(src: seq<Byte>, i: nat, limit: nat)
    requires ReadAttrs(src, i, limit).Ok? && AttrStarts(src, i, limit)
    ensures i < i + |AttrOctets(src, i)| <= |src|
    ensures ParseAttr(AttrOctets(src, i)).Ok? && ReadAttrs(src, i + |AttrOctets(src, i)|, limit).Ok?
    ensures ReadAttrs(src, i, limit).value.items ==
            [ParseAttr(AttrOctets(src, i)).value] + ReadAttrs(src, i + |AttrOctets(src, i)|, limit).value.items
  {
    hide ParseAttr;
  }

  lemma ReadNoAttr(src: seq<Byte>, i: nat, limit: nat)
    requires ReadAttrs(src, i, limit).Ok? && !AttrStarts(src, i, limit)
    ensures ReadAttrs(src, i, limit).value.items == []
  {
  }

  /** A path that was read has no segment of more than 255 ASNs. */
  lemma {:induction false} ReadPathsAreShort(src: seq<Byte>, i: nat, limit: nat, a: PathAttribute)
    requires ReadAttrs(src, i, limit).Ok? && a in ReadAttrs(src, i, limit).value.items && a.value.AsPathValue?
    ensures ShortSegments(a.value.path)
    decreases |src| - i
  {
    hide ParseAttr, ReadAttrs, AttrExtent, AttrOctets, ShortSegments;
    if AttrStarts(src, i, limit) {
      ReadFirstAttr(src, i, limit);
      if ParseAttr(AttrOctets(src, i)) == Ok(a) {
        ParsedPathIsShort(AttrOctets(src, i));
      } else {
        ReadPathsAreShort(src, i + |AttrOctets(src, i)|, limit, a);
      }
    } else {
      ReadNoAttr(src, i, limit);
    }
  }

  lemma ParsedPathIsShort(src: seq<Byte>)
    requires ParseAttr(src).Ok? && ParseAttr(src).value.value.AsPathValue?
    ensures ShortSegments(ParseAttr(src).value.value.path)
  {
    hide ParseReach, ParseUnreach, ReachStops;
    PathReadIsShort(src, ParseAttr(src).value.extendedLength);
  }

  lemma PathReadIsShort(src: seq<Byte>, extended: bool)
    requires ReadPath(src, extended).Ok?
    ensures ShortSegments(ReadPath(src, extended).value)
  {
    hide ReadSegments, ShortSegments;
    if extended {
      PrintReadPath(src, 4, GetU16(src[2], src[3]));
    } else {
      PrintReadPath(src, 3, src[2]);
    }
  }

  lemma AcceptedPathsAreShort(src: seq<Byte>, a: PathAttribute)
    requires ParseUpdate(src).Ok? && a in ParseUpdate(src).value.attributes && a.value.AsPathValue?
    ensures ShortSegments(a.value.path)
  {
    hide ReadNlris, ReadAttrs, ShortSegments;
    var wd := ReadNlris(Ipv4, src, 2, 2 + GetU16(src[0], src[1])).value;
    var i := wd.next;
    ReadPathsAreShort(src, i + 2, i + 2 + GetU16(src[i], src[i + 1]), a);
  }

  /** All prefixes of an accepted message are IPv4. */
  lemma AcceptedIsIpv4(src: seq<Byte>)
    requires ParseUpdate(src).Ok?
    ensures AllOf(Ipv4, ParseUpdate(src).value.withdrawn) && AllOf(Ipv4, ParseUpdate(src).value.nlri)
  {
    hide ReadNlris, ReadAttrs, AllOf;
    var end := 2 + GetU16(src[0], src[1]);
    ReadIsOfFamily(Ipv4, src, 2, end);
    var i := ReadNlris(Ipv4, src, 2, end).value.next;
    var pa := ReadAttrs(src, i + 2, i + 2 + GetU16(src[i], src[i + 1])).value;
    ReadIsOfFamily(Ipv4, src, pa.next, |src|);
  }

  /** The attributes have no path with a segment of more ASNs than its length octet counts. */
  predicate ShortPaths(attrs: seq<PathAttribute>) {
    forall a <- attrs :: a.value.AsPathValue? ==> ShortSegments(a.value.path)
  }

  lemma {:induction false} NormalsHave(attrs: seq<PathAttribute>, k: nat)
    requires k < |attrs|
    ensures Normal(attrs[k]) in Normals(attrs)
  {
    hide Normal;
    if k > 0 {
      NormalsHave(attrs[1..], k - 1);
    }
  }

  /** Only messages of IPv4 prefixes and short paths are read back as themselves. */
  lemma ReadBackIsCarried(u: UpdateMessage)
    requires ParseUpdate(PrintUpdate(u)) == Ok(Canonical(u))
    ensures AllOf(Ipv4, u.withdrawn) && AllOf(Ipv4, u.nlri) && ShortPaths(u.attributes)
  {
    hide ParseUpdate, PrintUpdate, Normal, ShortSegments, AllOf, Networks, Normals;
    var src := PrintUpdate(u);
    AcceptedIsIpv4(src);
    NetworksKeepFamily(Ipv4, u.withdrawn);
    NetworksKeepFamily(Ipv4, u.nlri);
    forall a <- u.attributes | a.value.AsPathValue?
      ensures ShortSegments(a.value.path)
    {
      var k :| 0 <= k < |u.attributes| && u.attributes[k] == a;
      NormalsHave(u.attributes, k);
      NormalValue(a);
      AcceptedPathsAreShort(src, Normal(a));
    }
  }

  lemma NormalValue(a: PathAttribute)
    ensures Normal(a).value == a.value
  {
  }

  /** An UPDATE with nothing but one attribute of at most 255 octets. */
  lemma OneAttribute(attr: seq<Byte>, a: PathAttribute)
    requires 3 <= |attr| <= 258 && !IsExtendedLen(attr[0]) && attr[2] == |attr| - 3 && ParseAttr(attr) == Ok(a)
    ensures ParseUpdate([0, 0] + PutU16(|attr|) + attr) == Ok(UpdateMessage([], [a], []))
  {
    hide ParseAttr, PutU16, GetU16, At, ReadAttrs, ReadNlris;
    var src := [0, 0] + PutU16(|attr|) + attr;
    BehindSize(src, attr);
    AtIndex(src, 4, attr, 0);
    AtIndex(src, 4, attr, 2);
    ReadOnly(src, 4, 4 + |attr|, a);
    ReadNothing(src, 2);
    ReadNothing(src, 4 + |attr|);
    NoLength();
  }

  lemma BehindSize(src: seq<Byte>, octets: seq<Byte>)
    requires src == [0, 0] + PutU16(|octets|) + octets && |octets| <= 0xffff
    ensures |src| == 4 + |octets| && src[0] == 0 && src[1] == 0
    ensures GetU16(src[2], src[3]) == |octets| && At(src, 4, octets) && src[4..4 + |octets|] == octets
  {
    hide PutU16, GetU16;
    assert src[2..4] == PutU16(|octets|);
    LengthField(src, 2, |octets|);
  }

  lemma NoLength()
    ensures GetU16(0, 0) == 0
  {
  }

  lemma ReadOnly(src: seq<Byte>, i: nat, end: nat, a: PathAttribute)
    requires i + 3 <= end == |src| && !IsExtendedLen(src[i]) && src[i + 2] == end - i - 3
    requires ParseAttr(src[i..end]) == Ok(a)
    ensures ReadAttrs(src, i, end) == Ok(AttrRun([a], end))
  {
    hide ParseAttr;
    assert AttrExtent(src, i) == Some(end - i);
    assert ReadAttrs(src, end, end) == Ok(AttrRun([], end));
    assert [a] + [] == [a];
  }

  lemma SizedAt(src: seq<Byte>, i: nat, octets: seq<Byte>)
    requires At(src, i, Sized(octets)) && |octets| <= 0xffff
    ensures GetU16(src[i], src[i + 1]) == |octets| && At(src, i + 2, octets)
  {
    AtSplit(src, i, PutU16(|octets|), octets);
    LengthField(src, i, |octets|);
  }

  lemma LengthField(src: seq<Byte>, i: nat, n: U16)
    requires At(src, i, PutU16(n))
    ensures GetU16(src[i], src[i + 1]) == n
  {
    AtIndex(src, i, PutU16(n), 0);
    AtIndex(src, i, PutU16(n), 1);
    PutGetU16(n);
  }

  lemma NormalPrintsAlike(a: PathAttribute)
    ensures PrintAttr(Normal(a)) == PrintAttr(a)
  {
    hide ValueOctets;
  }

  lemma {:induction false} NormalsPrintAlike(attrs: seq<PathAttribute>)
    ensures PrintAttrs(Normals(attrs)) == PrintAttrs(attrs)
  {
    hide Normal, PrintAttr;
    if attrs != [] {
      NormalPrintsAlike(attrs[0]);
      NormalsPrintAlike(attrs[1..]);
      assert Normals(attrs)[1..] == Normals(attrs[1..]);
    }
  }

  /** What the canonical form drops is what printing does not show: two messages are printed alike
      exactly when they have the same canonical form. */
  lemma PrintedAlikeIff(u: UpdateMessage, v: UpdateMessage)
    requires WireUpdate(u) && WireUpdate(v)
    ensures PrintUpdate(u) == PrintUpdate(v) <==> Canonical(u) == Canonical(v)
  {
    hide PrintNlris, PrintAttrs, Networks, Normals, ParseUpdate, WireUpdate;
    UpdateRoundTrip(u);
    UpdateRoundTrip(v);
    NetworksPrintAlike(u.withdrawn);
    NetworksPrintAlike(v.withdrawn);
    NetworksPrintAlike(u.nlri);
    NetworksPrintAlike(v.nlri);
    NormalsPrintAlike(u.attributes);
    NormalsPrintAlike(v.attributes);
  }

  /** The octets are exactly the attributes, one slice each, as long as each says. */
  predicate AttrsSpell(octets: seq<Byte>, items: seq<PathAttribute>) {
    if items == [] then octets == []
    else
      match AttrExtent(octets, 0)
      case None => false
      case Some(k) =>
        && ParseAttr(octets[..k]) == Ok(items[0])
        && AttrsSpell(octets[k..], items[1..])
  }

  lemma AttrsSpellMore(src: seq<Byte>, i: nat, next: nat, a: PathAttribute, items: seq<PathAttribute>)
    requires AttrExtent(src, i).Some? && i + AttrExtent(src, i).value <= next <= |src|
    requires ParseAttr(src[i..i + AttrExtent(src, i).value]) == Ok(a)
    requires AttrsSpell(src[i + AttrExtent(src, i).value..next], items)
    ensures AttrsSpell(src[i..next], [a] + items)
  {
    hide ParseAttr;
    var k := AttrExtent(src, i).value;
    assert AttrExtent(src[i..next], 0) == Some(k);
    SliceSplit(src, i, next, k);
    assert ([a] + items)[1..] == items;
  }

  lemma ExtentFits(src: seq<Byte>, i: nat)
    requires AttrExtent(src, i).Some?
    ensures 3 <= AttrExtent(src, i).value <= |src| - i
  {
  }

  lemma NothingSpelled()
    ensures AttrsSpell([], [])
  {
  }

  lemma {:induction false} ReadAttrsAccounts(src: seq<Byte>, i: nat, limit: nat)
    requires i <= |src| && ReadAttrs(src, i, limit).Ok?
    ensures var run := ReadAttrs(src, i, limit).value;
            && i <= run.next <= |src|
            && AttrsSpell(src[i..run.next], run.items)
            && (limit <= run.next || AttrExtent(src, run.next).None?)
    decreases |src| - i
  {
    hide ParseAttr, AttrsSpell, AttrExtent;
    if i < limit && AttrExtent(src, i).Some? {
      var k := AttrExtent(src, i).value;
      ExtentFits(src, i);
      assert ReadAttrs(src, i, limit) ==
             AfterAttrs([ParseAttr(src[i..i + k]).value], ReadAttrs(src, i + k, limit));
      hide ReadAttrs;
      ReadAttrsAccounts(src, i + k, limit);
      var rest := ReadAttrs(src, i + k, limit).value;
      AttrsSpellMore(src, i, rest.next, ParseAttr(src[i..i + k]).value, rest.items);
    } else {
      NothingSpelled();
      assert src[i..i] == [];
    }
  }

  lemma TailAccounts(src: seq<Byte>, withdrawn: seq<Nlri>, i: nat) returns (q: nat)
    requires ParseTail(src, withdrawn, i).Ok?
    ensures i + 2 <= q <= |src|
    ensures var u := ParseTail(src, withdrawn, i).value;
            u.withdrawn == withdrawn && AttrsSpell(src[i + 2..q], u.attributes) && Spells(Ipv4, src[q..], u.nlri)
    ensures q < i + 2 + GetU16(src[i], src[i + 1]) ==> AttrExtent(src, q).None?
  {
    hide ReadNlris, ReadAttrs, AttrsSpell, Spells, AttrExtent;
    var limit := i + 2 + GetU16(src[i], src[i + 1]);
    ReadAttrsAccounts(src, i + 2, limit);
    q := ReadAttrs(src, i + 2, limit).value.next;
    ReadAccounts(Ipv4, src, q, |src|);
    assert src[q..|src|] == src[q..];
  }

  /** Nothing in an accepted message is skipped: the two length fields and the octets of the
      prefixes and attributes that were read make up the whole buffer. The withdrawn routes end
      where their length says or within one prefix of it; the attributes end there, or where the
      next one would not fit the buffer. */
  lemma UpdateAccounts(src: seq<Byte>) returns (p: nat, q: nat)
    requires ParseUpdate(src).Ok?
    ensures 2 <= p && p + 2 <= q <= |src|
    ensures var u := ParseUpdate(src).value;
            && Spells(Ipv4, src[2..p], u.withdrawn)
            && AttrsSpell(src[p + 2..q], u.attributes)
            && Spells(Ipv4, src[q..], u.nlri)
    ensures var end := 2 + GetU16(src[0], src[1]); end <= p && p < end + 5
    ensures q < p + 2 + GetU16(src[p], src[p + 1]) ==> AttrExtent(src, q).None?
  {
    var end := 2 + GetU16(src[0], src[1]);
    ReadAccounts(Ipv4, src, 2, end);
    var wd := ReadNlris(Ipv4, src, 2, end).value;
    p := wd.next;
    q := TailAccounts(src, wd.items, p);
  }

  method ParseUpdateMessage(src: seq<Byte>) returns (r: Result<UpdateMessage>)
    ensures r == ParseUpdate(src)
  {
    if |src| < 2 {
      return Err;
    }
    var wdl := GetU16(src[0], src[1]);
    var wd := ReadPrefixes(src, 2, 2 + wdl as nat);
    if wd.Err? {
      return Err;
    }
    r := ParseAfterWithdrawn(src, wd.value.items, wd.value.next);
  }

  method ParseAfterWithdrawn(src: seq<Byte>, wd: seq<Nlri>, place: nat) returns (r: Result<UpdateMessage>)
    ensures r == ParseTail(src, wd, place)
  {
    var i := place;
    if i + 2 > |src| {
      return Err;
    }
    var atl: nat := GetU16(src[i], src[i + 1]);
    i := i + 2;
    if i + atl > |src| {
      return Err;
    }
    var pa := ReadAttributes(src, i, atl);
    if pa.Err? {
      return Err;
    }
    var routes := ReadPrefixes(src, pa.value.next, |src|);
    if routes.Err? {
      return Err;
    }
    r := Ok(UpdateMessage(wd, pa.value.items, routes.value.items));
  }

  /** The withdrawn-routes loop and the NLRI loop; they step by a floating-point length. */
  method ReadPrefixes(src: seq<Byte>, start: nat, limit: nat) returns (r: Result<Run>)
    ensures r == ReadNlris(Ipv4, src, start, limit)
  {
    hide ParseOctets;
    var prefixes: seq<Nlri> := [];
    var i := start;
    PrefixedNothing(ReadNlris(Ipv4, src, start, limit));
    while i < limit
      invariant ReadNlris(Ipv4, src, start, limit) == Prefixed(prefixes, ReadNlris(Ipv4, src, i, limit))
      decreases |src| - i
    {
      if i >= |src| {
        return Err;
      }
      var plen := PrefixBytes(src[i], Ipv4);
      if plen.Err? {
        return Err;
      }
      var end := i + plen.value + 1;
      if end > |src| {
        return Err;
      }
      var n := ParseIpv4Octets(src[i..end]);
      if n.Err? {
        return Err;
      }
      ParsedPrefix(Ipv4, src[i..end]);
      PrefixedTwice(prefixes, n.value, ReadNlris(Ipv4, src, end, limit));
      prefixes := prefixes + [n.value];
      FloatStepIsOctets(n.value.plen);
      i := i + FloatStep(n.value.plen);
    }
    assert prefixes + [] == prefixes;
    r := Ok(Run(prefixes, i));
  }

  method ReadAttributes(src: seq<Byte>, start: nat, atl: nat) returns (r: Result<AttrRun>)
    requires start <= |src|
    ensures r == ReadAttrs(src, start, start + atl)
  {
    hide ParseAttr, GetU16, IsExtendedLen;
    var pa: seq<PathAttribute> := [];
    var used, i := 0, start;
    AfterNoAttrs(ReadAttrs(src, start, start + atl));
    while atl > used
      invariant 0 <= used && i == start + used <= |src|
      invariant ReadAttrs(src, start, start + atl) == AfterAttrs(pa, ReadAttrs(src, i, start + atl))
      decreases |src| - i
    {
      if i >= |src| {
        break;
      }
      var head := if IsExtendedLen(src[i]) then 4 else 3;
      if i + head > |src| {
        break;
      }
      var atn: nat := if head == 4 then GetU16(src[i + 2], src[i + 3]) else src[i + 2];
      if i + head + atn > |src| {
        break;
      }
      var parsed := ParsePathAttribute(src[i..i + head + atn]);
      if parsed.Err? {
        return Err;
      }
      AfterAttrsTwice(pa, parsed.value, ReadAttrs(src, i + head + atn, start + atl));
      pa := pa + [parsed.value];
      used, i := used + head + atn, i + head + atn;
    }
    assert pa + [] == pa;
    r := Ok(AttrRun(pa, i));
  }

  lemma {:induction false} PrintAttrsSplit(attrs: seq<PathAttribute>, more: seq<PathAttribute>)
    ensures PrintAttrs(attrs + more) == PrintAttrs(attrs) + PrintAttrs(more)
  {
    if attrs == [] {
      assert attrs + more == more;
    } else {
      assert (attrs + more)[1..] == attrs[1..] + more;
      PrintAttrsSplit(attrs[1..], more);
    }
  }

  method PrintUpdateMessage(u: UpdateMessage) returns (buf: seq<Byte>)
    ensures buf == PrintUpdate(u)
  {
    hide PrintNlris, PrintAttrs, PutU16;
    var wd := PrintNlriList(u.withdrawn);
    buf := PutU16(|wd|);
    buf := buf + wd;
    var pa := PrintAttributes(u.attributes);
    ghost var front := buf;
    buf := buf + PutU16(|pa|);
    buf := buf + pa;
    assert buf == front + Sized(pa);
    var nl := PrintNlriList(u.nlri);
    buf := buf + nl;
    assert front + Sized(pa) + nl == front + (Sized(pa) + nl);
  }

  method PrintAttributes(attrs: seq<PathAttribute>) returns (pa: seq<Byte>)
    ensures pa == PrintAttrs(attrs)
  {
    hide PrintAttr;
    pa := [];
    for k := 0 to |attrs|
      invariant pa == PrintAttrs(attrs[..k])
    {
      assert attrs[..k + 1] == attrs[..k] + [attrs[k]];
      PrintAttrsSplit(attrs[..k], [attrs[k]]);
      assert PrintAttrs([attrs[k]]) == PrintAttr(attrs[k]) + PrintAttrs([attrs[k]][1..]);
      var octets := PrintPathAttribute(attrs[k]);
      pa := pa + octets;
    }
    assert attrs[..|attrs|] == attrs;
  }
}
