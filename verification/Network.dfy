/** Any number of speakers exchanging routes over any sessions, one step at a time: no AS path in
    any of their tables ever loops (section 9.1.2 of RFC 4271; src/neighbor/connection.rs:37-120,
    src/rib.rs:52-165, src/speaker/manager.rs:22-71, src/neighbor/message_handler.rs:435-563). */
module Networks {
  import opened Basics
  import opened Bytes
  import opened Types
  import opened Nlris
  import opened Attributes
  import opened Routes
  import opened LocRibs
  import opened LocRibDeltas
  import opened Sessions
  import opened SendUpdates
  import opened Messages
  import opened Codec
  import Updates

  /** The table of a speaker for a family, and a session of a speaker towards another. */
  datatype Place = Place(speaker: nat, af: AddressFamily)
  datatype Edge = Edge(sender: nat, receiver: nat)

  /** `batches` wait in a session's event channel, `wires` hold the octets that are under way. */
  datatype Net = Net(
    ribs: map<Place, Rib>,
    queues: map<Place, seq<RibEvent>>,
    batches: map<Edge, seq<seq<Delta>>>,
    wires: map<Edge, seq<Byte>>)

  datatype Step =
    | Process(at: Place, fib: Fib, out: Outcome, told: set<Edge>)
    | DumpTable(at: Place, edge: Edge, batch: seq<Delta>)
    | Send(edge: Edge, localIp: IpAddr, rid: U32, m: Updates.UpdateMessage)
    | DropBatch(edge: Edge)
    | Utter(edge: Edge, b: Body)
    | Receive(edge: Edge, rid: U32, ip: IpAddr, now: nat)
    | Inject(speaker: nat, peer: Peer, frame: seq<Byte>, now: nat)
    | Purge(at: Place, rid: U32)
    | Disconnect(edge: Edge)

  function Get<K, V>(m: map<K, seq<V>>, k: K): seq<V> {
    if k in m then m[k] else []
  }

  function Put<K, V>(m: map<K, seq<V>>, k: K, v: V): map<K, seq<V>> {
    m[k := Get(m, k) + [v]]
  }

  /** The event an UPDATE becomes at a speaker, in the queue of its family if there is one. */
  function Queued(asns: seq<U16>, net: Net, speaker: nat, peer: Peer, m: Updates.UpdateMessage, now: nat): Net
    requires speaker < |asns|
  {
    var p := PartsOf(m);
    var attrs := RouteOf(m.attributes, p.nh, asns[speaker], peer, now);
    if Place(speaker, p.af) !in net.ribs then net
    else net.(queues := Put(net.queues, Place(speaker, p.af), EventOf(p, attrs, peer.rid)))
  }

  /** What a speaker does with a frame from a peer, as far as its tables are concerned. */
  function Heard(asns: seq<U16>, net: Net, speaker: nat, peer: Peer, frame: seq<Byte>, now: nat): Net
    requires speaker < |asns|
  {
    match ParseMessage(frame)
    case Ok(UpdateBody(u)) => Queued(asns, net, speaker, peer, u, now)
    case _ => net
  }

  /** The receiver takes the next whole frame off the wire, if there is one. */
  function Delivered(asns: seq<U16>, net: Net, edge: Edge, rid: U32, ip: IpAddr, now: nat): Net
    requires edge.sender < |asns| && edge.receiver < |asns|
  {
    match DecodeOne(Get(net.wires, edge))
    case Frame(data, rest) =>
      Heard(asns, net.(wires := net.wires[edge := rest]), edge.receiver, Peer(asns[edge.sender], rid, ip), data, now)
    case _ => net
  }

  /** The octets of a message go out, unless the codec refuses it. */
  function Wired(wires: map<Edge, seq<Byte>>, edge: Edge, b: Body): map<Edge, seq<Byte>> {
    match EncodeOne(PrintMessage(b))
    case Ok(octets) => wires[edge := Get(wires, edge) + octets]
    case Err => wires
  }

  /** A message that `send_update` writes for a batch: with news or, without, withdrawals alone. */
  ghost predicate Written(
    localAsn: U16, remoteAsn: U16, localIp: IpAddr, rid: U32, batch: seq<Delta>, m: Updates.UpdateMessage)
  {
    if News(batch, rid) == [] then m == Updates.UpdateMessage(Gone(batch), [], [])
    else SentFor(localAsn, remoteAsn, localIp, rid, batch, m)
  }

  /** The paths of an UPDATE name no AS twice. */
  ghost predicate SimplePaths(m: Updates.UpdateMessage) {
    forall a <- m.attributes :: a.value.AsPathValue? ==> NoDuplicates(Flatten(a.value.path))
  }

  ghost predicate Next(asns: seq<U16>, net: Net, step: Step, net': Net) {
    match step
    case Process(at, fib, out, told) =>
      && at.speaker < |asns| && at in net.ribs && Get(net.queues, at) != []
      && EventStep(net.ribs[at], fib, asns[at.speaker], net.queues[at][0], out)
      && (forall e <- told :: e.sender == at.speaker)
      && net' == net.(ribs := net.ribs[at := out.rib], queues := net.queues[at := net.queues[at][1..]],
                      batches := map e | e in net.batches.Keys + told ::
                        Get(net.batches, e) + if e in told then [out.modified] else [])
    case DumpTable(at, edge, batch) =>
      && at.speaker == edge.sender < |asns| && at in net.ribs && IsDump(net.ribs[at], batch)
      && net' == net.(batches := Put(net.batches, edge, batch))
    case Send(edge, localIp, rid, m) =>
      && edge.sender < |asns| && edge.receiver < |asns| && Get(net.batches, edge) != []
      && Written(asns[edge.sender], asns[edge.receiver], localIp, rid, net.batches[edge][0], m)
      && net' == net.(batches := net.batches[edge := net.batches[edge][1..]],
                      wires := Wired(net.wires, edge, UpdateBody(m)))
    case DropBatch(edge) =>
      && Get(net.batches, edge) != []
      && net' == net.(batches := net.batches[edge := net.batches[edge][1..]])
    case Utter(edge, b) =>
      !b.UpdateBody? && net' == net.(wires := Wired(net.wires, edge, b))
    case Receive(edge, rid, ip, now) =>
      && edge.sender < |asns| && edge.receiver < |asns|
      && net' == Delivered(asns, net, edge, rid, ip, now)
    case Inject(speaker, peer, frame, now) =>
      && speaker < |asns|
      && (ParseMessage(frame).Ok? && ParseMessage(frame).value.UpdateBody? ==>
            SimplePaths(ParseMessage(frame).value.update))
      && net' == Heard(asns, net, speaker, peer, frame, now)
    case Purge(at, rid) =>
      && at in net.ribs
      && net' == net.(queues := Put(net.queues, at, WithdrawAllEvent(rid)))
    case Disconnect(edge) =>
      net' == net.(batches := net.batches[edge := []], wires := net.wires[edge := []])
  }

  /** A path that names no AS twice and has no segment too long to be printed. */
  predicate SimplePath(p: AsPath) {
    NoDuplicates(Flatten(p)) && ShortSegments(p)
  }

  /** Nor does it name the AS of its holder. */
  predicate Simple(r: Route, asn: U16) {
    SimplePath(r.asPath) && LoopFree(r, asn)
  }

  ghost predicate SimpleRib(rib: Rib, asn: U16) {
    RibInv(rib, asn) && forall n, r :: n in rib && r in rib[n] ==> Simple(r, asn)
  }

  ghost predicate SimpleEvents(q: seq<RibEvent>) {
    forall u <- q :: u.added.Some? ==> SimplePath(u.added.value.attributes.asPath)
  }

  ghost predicate SimpleBatch(b: seq<Delta>, asn: U16) {
    forall d <- b :: d.best.Some? ==> Simple(d.best.value, asn)
  }

  ghost predicate SimpleBatches(bs: seq<seq<Delta>>, asn: U16) {
    forall b <- bs :: SimpleBatch(b, asn)
  }

  predicate GoodAttribute(a: PathAttribute) {
    WireAttr(a) && (a.value.AsPathValue? ==> NoDuplicates(Flatten(a.value.path)))
  }

  /** A message that fits, and an UPDATE with printable attributes and simple paths. */
  predicate GoodBody(b: Body) {
    |PrintBody(b)| <= 4077 && (b.UpdateBody? ==> forall a <- b.update.attributes :: GoodAttribute(a))
  }

  /** The octets are those of whole messages. */
  ghost predicate Carries(w: seq<Byte>, bodies: seq<Body>) {
    w == Concat(FramedAll(Printed(bodies))) && forall b <- bodies :: GoodBody(b)
  }

  ghost predicate SimpleWire(w: seq<Byte>) {
    exists bodies :: Carries(w, bodies)
  }

  ghost predicate LoopFreeNet(asns: seq<U16>, net: Net) {
    && (forall at <- net.ribs :: at.speaker < |asns| && SimpleRib(net.ribs[at], asns[at.speaker]))
    && (forall at <- net.queues :: SimpleEvents(net.queues[at]))
    && (forall e <- net.batches ::
          net.batches[e] != [] ==> e.sender < |asns| && SimpleBatches(net.batches[e], asns[e.sender]))
    && (forall e <- net.wires :: SimpleWire(net.wires[e]))
  }

  lemma EventKeepsSimple(rib: Rib, fib: Fib, asn: U16, u: RibEvent, out: Outcome)
    requires SimpleRib(rib, asn) && EventStep(rib, fib, asn, u, out)
    requires u.added.Some? ==> SimplePath(u.added.value.attributes.asPath)
    ensures SimpleRib(out.rib, asn) && SimpleBatch(out.modified, asn)
  {
    hide EventStep, RibInv, LoopFree, SimplePath;
    EventRefines(rib, fib, asn, u, out, RawNet(UNSPECIFIED_V4, 0), WithdrawAllEvent(0).withdrawn.value.attributes);
    forall n, r | n in out.rib && r in out.rib[n]
      ensures Simple(r, asn)
    {
      EventRefines(rib, fib, asn, u, out, n, r);
      assert Held(out.rib, n)[r] > 0;
    }
    forall d <- out.modified | d.best.Some?
      ensures Simple(d.best.value, asn)
    {
      EventReports(rib, fib, asn, u, out, d);
    }
  }

  lemma {:induction false} NormalIsOf(attrs: seq<PathAttribute>, a: PathAttribute) returns (k: nat)
    requires a in Updates.Normals(attrs)
    ensures k < |attrs| && attrs[k].value == a.value
  {
    hide Normal;
    Updates.NormalValue(attrs[0]);
    if a == Normal(attrs[0]) {
      k := 0;
    } else {
      k := NormalIsOf(attrs[1..], a);
      k := k + 1;
    }
  }

  /** What goes out for a batch of simple routes has simple paths and printable attributes. */
  lemma WrittenIsGood(
    localAsn: U16, remoteAsn: U16, localIp: IpAddr, rid: U32, batch: seq<Delta>, m: Updates.UpdateMessage)
    requires Written(localAsn, remoteAsn, localIp, rid, batch, m) && SimpleBatch(batch, localAsn)
    requires |Updates.PrintUpdate(m)| <= 4077
    ensures GoodBody(UpdateBody(m))
  {
    hide SentFor, News, Flatten, ShortSegments, WireAttr, Updates.PrintUpdate;
    forall a <- m.attributes
      ensures GoodAttribute(a)
    {
      var k :| 0 <= k < |m.attributes| && m.attributes[k] == a;
      AttributeFits(m, k);
      SentAttributesAreWire(localAsn, remoteAsn, localIp, rid, batch, m, k);
      if a.value.AsPathValue? {
        SentPathIsSimple(localAsn, remoteAsn, localIp, rid, batch, m, k);
      }
    }
  }

  lemma SentPathIsSimple(
    localAsn: U16, remoteAsn: U16, localIp: IpAddr, rid: U32, batch: seq<Delta>, m: Updates.UpdateMessage, k: nat)
    requires SentFor(localAsn, remoteAsn, localIp, rid, batch, m) && SimpleBatch(batch, localAsn)
    requires k < |m.attributes| && m.attributes[k].value.AsPathValue?
    ensures NoDuplicates(Flatten(m.attributes[k].value.path))
  {
    hide SentFor, Flatten, ShortSegments;
    var r := SentPaths(localAsn, remoteAsn, localIp, rid, batch, m, k);
    assert Simple(r, localAsn);
    assert [] + Flatten(r.asPath) == Flatten(r.asPath);
  }

  /** A sent message is lost to the codec or joins the messages under way. */
  lemma WiredIsSimple(wires: map<Edge, seq<Byte>>, edge: Edge, b: Body)
    requires SimpleWire(Get(wires, edge)) && (|PrintBody(b)| <= 4077 ==> GoodBody(b))
    ensures var wires' := Wired(wires, edge, b);
            && (wires' == wires || (edge in wires' && wires' == wires[edge := wires'[edge]] && SimpleWire(wires'[edge])))
  {
    hide PrintBody, GoodBody;
    var w := Get(wires, edge);
    var bodies :| Carries(w, bodies);
    if EncodeOne(PrintMessage(b)).Ok? {
      ConcatSnoc(FramedAll(Printed(bodies)), Framed(PrintMessage(b)));
      assert FramedAll(Printed(bodies + [b])) == FramedAll(Printed(bodies)) + [Framed(PrintMessage(b))];
      assert Carries(w + Framed(PrintMessage(b)), bodies + [b]);
    }
  }

  /** The next frame is that of the oldest message under way. */
  lemma TakenFrame(w: seq<Byte>) returns (b: Body)
    requires SimpleWire(w)
    ensures DecodeOne(w).Frame? ==>
              GoodBody(b) && ParseMessage(DecodeOne(w).data) == Received(b) && SimpleWire(DecodeOne(w).rest)
  {
    hide PrintBody, GoodBody, ParseMessage, Received;
    var bodies :| Carries(w, bodies);
    if bodies == [] {
      return KeepaliveBody;
    }
    b := bodies[0];
    BodyFits(b);
    MessageReadsBack(b);
    var rest := FramedAll(Printed(bodies[1..]));
    assert FramedAll(Printed(bodies))[1..] == rest;
    EncodeDecodeOne(PrintMessage(b), Concat(rest));
    assert Carries(Concat(rest), bodies[1..]);
  }

  lemma BodyFits(b: Body)
    requires GoodBody(b)
    ensures |PrintBody(b)| <= 4077
  {
  }

  /** What is read of a good message has simple paths. */
  lemma ReadIsSimple(b: Body)
    requires GoodBody(b)
    ensures Received(b).Ok? && Received(b).value.UpdateBody? ==> SimplePaths(Received(b).value.update)
  {
    hide Flatten, NoDuplicates, WireAttr, Received, Updates.PrintUpdate;
    OnlyUpdatesReadAsUpdates(b);
    if !b.UpdateBody? {
      return;
    }
    var u := b.update;
    assert forall a <- u.attributes :: GoodAttribute(a);
    UpdateAttributesArrive(u);
    forall a <- Updates.Normals(u.attributes) | a.value.AsPathValue?
      ensures NoDuplicates(Flatten(a.value.path))
    {
      var k := NormalIsOf(u.attributes, a);
      assert GoodAttribute(u.attributes[k]);
    }
  }

  /** The route made of an accepted message with duplicate-free paths has a simple path. */
  lemma ReceivedIsSimple(frame: seq<Byte>, nh: Option<IpAddr>, asn: U16, peer: Peer, now: nat)
    requires ParseMessage(frame).Ok? && ParseMessage(frame).value.UpdateBody?
    requires SimplePaths(ParseMessage(frame).value.update)
    ensures SimplePath(RouteOf(ParseMessage(frame).value.update.attributes, nh, asn, peer, now).asPath)
  {
    var attrs := ParseMessage(frame).value.update.attributes;
    var p := RouteOf(attrs, nh, asn, peer, now).asPath;
    SaidPath(UNSAID, attrs);
    hide SayAll, ParseMessage, Flatten, ShortSegments, NoDuplicates;
    if exists k :: 0 <= k < |attrs| && attrs[k].value == AsPathValue(p) {
      var k :| 0 <= k < |attrs| && attrs[k].value == AsPathValue(p);
      ReadPathsAreShort(frame, attrs[k]);
    } else {
      EmptyIsSimple();
    }
  }

  lemma EmptyIsSimple()
    ensures SimplePath([])
  {
  }

  lemma QueuedIsSimple(asns: seq<U16>, net: Net, speaker: nat, peer: Peer, m: Updates.UpdateMessage, now: nat)
    requires LoopFreeNet(asns, net) && speaker < |asns|
    requires SimplePath(RouteOf(m.attributes, PartsOf(m).nh, asns[speaker], peer, now).asPath)
    ensures LoopFreeNet(asns, Queued(asns, net, speaker, peer, m, now))
  {
    hide RouteOf, PartsOf, SimpleRib, SimpleBatches, SimpleWire, SimplePath;
  }

  lemma HeardIsSimple(asns: seq<U16>, net: Net, speaker: nat, peer: Peer, frame: seq<Byte>, now: nat)
    requires LoopFreeNet(asns, net) && speaker < |asns|
    requires ParseMessage(frame).Ok? && ParseMessage(frame).value.UpdateBody? ==>
               SimplePaths(ParseMessage(frame).value.update)
    ensures LoopFreeNet(asns, Heard(asns, net, speaker, peer, frame, now))
  {
    hide ParseMessage, LoopFreeNet, RouteOf, PartsOf, SimplePaths, SimplePath, Queued;
    if ParseMessage(frame).Ok? && ParseMessage(frame).value.UpdateBody? {
      var u := ParseMessage(frame).value.update;
      ReceivedIsSimple(frame, PartsOf(u).nh, asns[speaker], peer, now);
      QueuedIsSimple(asns, net, speaker, peer, u, now);
    }
  }

  lemma NextKeepsLoopFree(asns: seq<U16>, net: Net, step: Step, net': Net)
    requires LoopFreeNet(asns, net) && Next(asns, net, step, net')
    ensures LoopFreeNet(asns, net')
  {
    hide LoopFreeNet, SimplePaths, ParseMessage, Delivered, Heard;
    match step {
      case Process(_, _, _, _) => ProcessKeepsLoopFree(asns, net, step, net');
      case DumpTable(_, _, _) => DumpKeepsLoopFree(asns, net, step, net');
      case Send(_, _, _, _) => SendKeepsLoopFree(asns, net, step, net');
      case Utter(edge, b) => UtterKeepsLoopFree(asns, net, edge, b);
      case Receive(edge, rid, ip, now) => ReceiveKeepsLoopFree(asns, net, edge, rid, ip, now);
      case Inject(speaker, peer, frame, now) => HeardIsSimple(asns, net, speaker, peer, frame, now);
      case DropBatch(edge) => TakeBatch(asns, net, edge);
      case Purge(at, rid) => PurgeKeepsLoopFree(asns, net, at, rid);
      case Disconnect(edge) => DisconnectKeepsLoopFree(asns, net, edge);
    }
  }

  lemma EmptyWire()
    ensures SimpleWire([])
  {
    assert FramedAll(Printed([])) == [];
    assert Carries([], []);
  }

  lemma WireIsSimple(asns: seq<U16>, net: Net, edge: Edge)
    requires LoopFreeNet(asns, net)
    ensures SimpleWire(Get(net.wires, edge))
  {
    EmptyWire();
  }

  lemma NewWire(asns: seq<U16>, net: Net, edge: Edge, w: seq<Byte>)
    requires LoopFreeNet(asns, net) && SimpleWire(w)
    ensures LoopFreeNet(asns, net.(wires := net.wires[edge := w]))
  {
    hide SimpleRib, SimpleBatches, SimpleEvents, SimpleWire;
  }

  lemma UtterKeepsLoopFree(asns: seq<U16>, net: Net, edge: Edge, b: Body)
    requires LoopFreeNet(asns, net) && !b.UpdateBody?
    ensures LoopFreeNet(asns, net.(wires := Wired(net.wires, edge, b)))
  {
    hide LoopFreeNet, SimpleWire, PrintBody, Wired;
    WireIsSimple(asns, net, edge);
    WiredIsSimple(net.wires, edge, b);
    var wires' := Wired(net.wires, edge, b);
    if wires' != net.wires {
      NewWire(asns, net, edge, wires'[edge]);
    } else {
      assert net == net.(wires := wires');
    }
  }

  lemma ReceiveKeepsLoopFree(asns: seq<U16>, net: Net, edge: Edge, rid: U32, ip: IpAddr, now: nat)
    requires LoopFreeNet(asns, net) && edge.sender < |asns| && edge.receiver < |asns|
    ensures LoopFreeNet(asns, Delivered(asns, net, edge, rid, ip, now))
  {
    hide LoopFreeNet, SimpleWire, SimplePaths, ParseMessage, DecodeOne, Heard, Received, GoodBody;
    var w := Get(net.wires, edge);
    WireIsSimple(asns, net, edge);
    var b := TakenFrame(w);
    if DecodeOne(w).Frame? {
      ReadIsSimple(b);
      NewWire(asns, net, edge, DecodeOne(w).rest);
      HeardIsSimple(asns, net.(wires := net.wires[edge := DecodeOne(w).rest]), edge.receiver,
                    Peer(asns[edge.sender], rid, ip), DecodeOne(w).data, now);
    }
  }

  lemma PurgeKeepsLoopFree(asns: seq<U16>, net: Net, at: Place, rid: U32)
    requires LoopFreeNet(asns, net)
    ensures LoopFreeNet(asns, net.(queues := Put(net.queues, at, WithdrawAllEvent(rid))))
  {
    hide SimpleRib, SimpleBatches, SimpleWire, SimplePath;
    assert SimpleEvents(Get(net.queues, at));
  }

  lemma DisconnectKeepsLoopFree(asns: seq<U16>, net: Net, edge: Edge)
    requires LoopFreeNet(asns, net)
    ensures LoopFreeNet(asns, net.(batches := net.batches[edge := []], wires := net.wires[edge := []]))
  {
    hide SimpleRib, SimpleBatches, SimpleWire, SimpleEvents;
    EmptyWire();
  }

  /** A table and its queue after an event. */
  lemma EventKeepsTable(asns: seq<U16>, net: Net, step: Step, net': Net)
    requires LoopFreeNet(asns, net) && Next(asns, net, step, net') && step.Process?
    ensures step.at.speaker < |asns| && step.at in net'.ribs && step.at in net'.queues
    ensures SimpleRib(net'.ribs[step.at], asns[step.at.speaker]) && SimpleEvents(net'.queues[step.at])
    ensures SimpleBatch(step.out.modified, asns[step.at.speaker])
  {
    hide EventStep, SimpleRib, SimpleBatch, SimpleBatches, SimpleWire, SimplePath;
    var at := step.at;
    var q := net.queues[at];
    assert SimpleEvents(q) && q[0] in q;
    EventKeepsSimple(net.ribs[at], step.fib, asns[at.speaker], q[0], step.out);
    assert SimpleEvents(q[1..]);
  }

  lemma ProcessKeepsLoopFree(asns: seq<U16>, net: Net, step: Step, net': Net)
    requires LoopFreeNet(asns, net) && Next(asns, net, step, net') && step.Process?
    ensures LoopFreeNet(asns, net')
  {
    hide EventStep, SimpleRib, SimpleBatch, SimpleWire, SimpleEvents;
    EventKeepsTable(asns, net, step, net');
    forall e <- net'.batches | net'.batches[e] != []
      ensures e.sender < |asns| && SimpleBatches(net'.batches[e], asns[e.sender])
    {
      assert e in net.batches || e in step.told;
    }
  }

  lemma DumpKeepsLoopFree(asns: seq<U16>, net: Net, step: Step, net': Net)
    requires LoopFreeNet(asns, net) && Next(asns, net, step, net') && step.DumpTable?
    ensures LoopFreeNet(asns, net')
  {
    hide RibInv, Simple, SimpleWire, SimpleEvents;
    var rib, asn := net.ribs[step.at], asns[step.at.speaker];
    assert SimpleRib(rib, asn);
    forall d <- step.batch | d.best.Some?
      ensures Simple(d.best.value, asn)
    {
      assert IsFirst(rib, d);
      assert rib[d.nlri][0] in rib[d.nlri];
    }
    assert SimpleBatch(step.batch, asn);
    hide SimpleRib, SimpleBatch, IsDump;
  }

  lemma TakeBatch(asns: seq<U16>, net: Net, edge: Edge)
    requires LoopFreeNet(asns, net) && Get(net.batches, edge) != []
    ensures edge.sender < |asns| && SimpleBatch(net.batches[edge][0], asns[edge.sender])
    ensures LoopFreeNet(asns, net.(batches := net.batches[edge := net.batches[edge][1..]]))
  {
    hide SimpleRib, SimpleBatch, SimpleWire, SimpleEvents;
    var bs := net.batches[edge];
    assert SimpleBatches(bs, asns[edge.sender]) && bs[0] in bs;
    assert SimpleBatches(bs[1..], asns[edge.sender]);
  }

  lemma SendKeepsLoopFree(asns: seq<U16>, net: Net, step: Step, net': Net)
    requires LoopFreeNet(asns, net) && Next(asns, net, step, net') && step.Send?
    ensures LoopFreeNet(asns, net')
  {
    hide LoopFreeNet, SimpleWire, SimpleBatch, GoodBody, Written, Wired, Updates.PrintUpdate;
    var edge, b := step.edge, UpdateBody(step.m);
    TakeBatch(asns, net, edge);
    var rest := net.(batches := net.batches[edge := net.batches[edge][1..]]);
    WireIsSimple(asns, rest, edge);
    if |PrintBody(b)| <= 4077 {
      WrittenIsGood(asns[edge.sender], asns[edge.receiver], step.localIp, step.rid, net.batches[edge][0], step.m);
    }
    WiredIsSimple(rest.wires, edge, b);
    var wires' := Wired(net.wires, edge, b);
    if wires' != net.wires {
      NewWire(asns, rest, edge, wires'[edge]);
    } else {
      assert net' == rest;
    }
  }

  datatype Run = Run(nets: seq<Net>, steps: seq<Step>)

  ghost predicate Initial(asns: seq<U16>, net: Net) {
    && (forall at <- net.ribs :: at.speaker < |asns| && net.ribs[at] == map[])
    && (forall at <- net.queues :: net.queues[at] == [])
    && (forall e <- net.batches :: net.batches[e] == [])
    && (forall e <- net.wires :: net.wires[e] == [])
  }

  ghost predicate IsRun(asns: seq<U16>, run: Run) {
    && |run.nets| == |run.steps| + 1 && Initial(asns, run.nets[0])
    && forall k | 0 <= k < |run.steps| :: Next(asns, run.nets[k], run.steps[k], run.nets[k + 1])
  }

  lemma {:induction false} RunKeepsLoopFree(asns: seq<U16>, run: Run, k: nat)
    requires IsRun(asns, run) && k < |run.nets|
    ensures LoopFreeNet(asns, run.nets[k])
  {
    hide LoopFreeNet, Next;
    if k == 0 {
      InitialIsLoopFree(asns, run.nets[0]);
    } else {
      RunKeepsLoopFree(asns, run, k - 1);
      NextKeepsLoopFree(asns, run.nets[k - 1], run.steps[k - 1], run.nets[k]);
    }
  }

  lemma InitialIsLoopFree(asns: seq<U16>, net: Net)
    requires Initial(asns, net)
    ensures LoopFreeNet(asns, net)
  {
    EmptyWire();
  }

  /** Loop freedom: whatever speakers, sessions and order of events, and whatever duplicate-free paths
      come in from outside, no route in any table has its own AS in any segment of its path, or one AS at
      two places of it. */
  lemma NoRouteLoops(asns: seq<U16>, run: Run, k: nat, at: Place, n: Nlri, r: Route)
    requires IsRun(asns, run) && k < |run.nets| && at in run.nets[k].ribs
    requires n in run.nets[k].ribs[at] && r in run.nets[k].ribs[at][n]
    ensures at.speaker < |asns|
    ensures NoDuplicates(Flatten(r.asPath)) && asns[at.speaker] !in Flatten(r.asPath)
    ensures forall g <- r.asPath :: asns[at.speaker] !in g.asList
    ensures forall i, x, j, y | 0 <= i < |r.asPath| && 0 <= x < |r.asPath[i].asList|
                                && 0 <= j < |r.asPath| && 0 <= y < |r.asPath[j].asList| && (i != j || x != y) ::
              r.asPath[i].asList[x] != r.asPath[j].asList[y]
  {
    hide Next, RibInv, NoDuplicates, Flatten;
    RunKeepsLoopFree(asns, run, k);
    assert SimpleRib(run.nets[k].ribs[at], asns[at.speaker]);
    assert Simple(r, asns[at.speaker]);
    FlattenHas(r.asPath, asns[at.speaker]);
    forall i, x, j, y | 0 <= i < |r.asPath| && 0 <= x < |r.asPath[i].asList|
                        && 0 <= j < |r.asPath| && 0 <= y < |r.asPath[j].asList| && (i != j || x != y)
      ensures r.asPath[i].asList[x] != r.asPath[j].asList[y]
    {
      DistinctPlaces(r.asPath, i, x, j, y);
    }
  }
}
