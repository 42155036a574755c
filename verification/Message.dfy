/** Whole messages, from the values the speaker exchanges to the octets of the stream and back
    (src/bgp/messages.rs:327-507 over src/bgp/codec.rs). */
module Messages {
  import opened Basics
  import opened Bytes
  import opened Types
  import opened Nlris
  import opened MpNlris
  import opened Codec
  import Opens
  import opened Attributes
  import Updates

  datatype ErrorCode = MessageHeader | OpenMessage | UpdateMessage | HoldTimerExpired | FsmError | Cease

  /** A NOTIFICATION; data after the subcode is dropped on reading. */
  datatype Body =
    | OpenBody(open: Opens.OpenMessage)
    | UpdateBody(update: Updates.UpdateMessage)
    | NotificationBody(code: ErrorCode, subcode: Byte, data: seq<Byte>)
    | KeepaliveBody

  function ErrorCodeOctet(c: ErrorCode): Byte {
    match c
    case MessageHeader => 1 case OpenMessage => 2 case UpdateMessage => 3
    case HoldTimerExpired => 4 case FsmError => 5 case Cease => 6
  }

  function ErrorCodeOf(n: int): Option<ErrorCode> {
    if n == 1 then Some(MessageHeader) else if n == 2 then Some(OpenMessage)
    else if n == 3 then Some(UpdateMessage) else if n == 4 then Some(HoldTimerExpired)
    else if n == 5 then Some(FsmError) else if n == 6 then Some(Cease) else None
  }

  function BodyType(b: Body): MessageType {
    match b
    case OpenBody(_) => Open
    case UpdateBody(_) => Update
    case NotificationBody(_, _, _) => Notification
    case KeepaliveBody => Keepalive
  }

  function PrintBody(b: Body): seq<Byte> {
    match b
    case OpenBody(m) => Opens.PrintOpen(m)
    case UpdateBody(m) => Updates.PrintUpdate(m)
    case NotificationBody(code, sub, data) => [ErrorCodeOctet(code), sub] + data
    case KeepaliveBody => []
  }

  /** The octets handed to the codec: the type, then the body. */
  function PrintMessage(b: Body): (s: seq<Byte>)
    ensures s != []
  {
    [MessageTypeCode(BodyType(b))] + PrintBody(b)
  }

  function ParseBody(t: MessageType, v: seq<Byte>): Result<Body> {
    match t
    case Open => (match Opens.ParseOpen(v) case Err => Err case Ok(m) => Ok(OpenBody(m)))
    case Update => (match Updates.ParseUpdate(v) case Err => Err case Ok(m) => Ok(UpdateBody(m)))
    case Notification =>
      if |v| < 2 || ErrorCodeOf(v[0]).None? then Err else Ok(NotificationBody(ErrorCodeOf(v[0]).value, v[1], []))
    case Keepalive => Ok(KeepaliveBody)
  }

  function ParseMessage(src: seq<Byte>): Result<Body> {
    if |src| < 19 || src[..16] != MARKER then Err
    else
      var declared := GetU16(src[16], src[17]);
      if !(19 <= declared <= 4096) || |src| != declared || MessageTypeOf(src[18]).None? then Err
      else ParseBody(MessageTypeOf(src[18]).value, src[19..])
  }

  /** The header checks of the message parser never fail on what the codec hands out. */
  lemma FramesPassTheHeaderChecks(chunks: seq<seq<Byte>>, k: nat)
    requires k < |FeedAll(chunks).frames|
    ensures var f := FeedAll(chunks).frames[k];
            |f| >= 19 && MessageTypeOf(f[18]).Some? &&
            ParseMessage(f) == ParseBody(MessageTypeOf(f[18]).value, f[19..])
  {
    hide ParseBody;
    ReadingConserves(chunks);
    var f := FeedAll(chunks).frames[k];
    assert DecodeOne(f) == Frame(f, []);
    assert f[|f|..] == [];
  }

  /** What the receiver makes of a body, field by field. */
  function Received(b: Body): Result<Body> {
    ParseBody(BodyType(b), PrintBody(b))
  }

  lemma MessageReadsBack(b: Body)
    requires |PrintBody(b)| <= 4077
    ensures Sendable(PrintMessage(b)) && ParseMessage(Framed(PrintMessage(b))) == Received(b)
  {
    hide PrintBody, ParseBody, ParseMessage;
    EncodeDecodeOne(PrintMessage(b), []);
    FrameParses(BodyType(b), PrintBody(b));
  }

  /** A frame is parsed as its body is, by the type in front of it. */
  lemma FrameParses(t: MessageType, v: seq<Byte>)
    requires |v| <= 4077
    ensures ParseMessage(Framed([MessageTypeCode(t)] + v)) == ParseBody(t, v)
  {
    hide ParseBody;
    var body := [MessageTypeCode(t)] + v;
    var f := Framed(body);
    PutGetU16(|body| + 18);
    assert f[..16] == MARKER;
    assert f[16] == PutU16(|body| + 18)[0] && f[17] == PutU16(|body| + 18)[1];
    assert f[18] == body[0];
    assert f[19..] == v;
  }

  /** Some octets are parsed as this message. */
  ghost predicate Readable(b: Body) {
    exists frame :: ParseMessage(frame) == Ok(b)
  }

  /** What is received of a body that fits is read from its own octets. */
  lemma ReceivedIsReadable(b: Body)
    requires |PrintBody(b)| <= 4077 && Received(b).Ok?
    ensures Readable(Received(b).value)
  {
    hide PrintBody, ParseMessage, Received;
    MessageReadsBack(b);
  }

  lemma ShortBodiesAreReadable(code: ErrorCode, sub: Byte)
    ensures Readable(KeepaliveBody) && Readable(NotificationBody(code, sub, []))
  {
    hide ParseMessage;
    ReceivedIsReadable(KeepaliveBody);
    ReceivedNotification(code, sub, []);
    ReceivedIsReadable(NotificationBody(code, sub, []));
  }

  /** The octets of an UPDATE with one multiprotocol attribute. */
  function ReachOctets(m: Mpnlri): seq<Byte> {
    var attr := [0x80, 14] + PrintReach(m);
    [0, 0] + PutU16(|attr|) + attr
  }

  function ReachUpdate(m: Mpnlri): Updates.UpdateMessage {
    Updates.UpdateMessage([], [PathAttribute(true, false, false, false, MpReach, MpReachValue(m))], [])
  }

  lemma ReachLength(m: Mpnlri)
    requires |ReachPayload(m)| <= 255
    ensures 4 <= |PrintReach(m)| <= 256 && PrintReach(m)[0] == |PrintReach(m)| - 1
  {
    hide PrintNlris, PrintAddr;
  }

  lemma ReachAttribute(m: Mpnlri)
    requires OneFamily(m) && |ReachPayload(m)| <= 255 && Networks(m.nlris) == m.nlris
    ensures ParseAttr([0x80, 14] + PrintReach(m)) == Ok(ReachUpdate(m).attributes[0])
  {
    hide ParseReach, PrintReach, OneFamily, ReachPayload, ReachStops;
    ReachRoundTrip(m);
    ReadingDoesNotStop(PrintReach(m));
    assert ([0x80, 14] + PrintReach(m))[2..] == PrintReach(m);
  }

  /** A multiprotocol UPDATE as other speakers write it, with one length in front of the value. */
  lemma ReachIsReadable(m: Mpnlri)
    requires OneFamily(m) && |ReachPayload(m)| <= 255 && Networks(m.nlris) == m.nlris
    ensures Readable(UpdateBody(ReachUpdate(m)))
  {
    ReachLength(m);
    ReachAttribute(m);
    hide ParseAttr, ParseMessage, Updates.ParseUpdate, ReachPayload, PrintReach;
    Updates.OneAttribute([0x80, 14] + PrintReach(m), ReachUpdate(m).attributes[0]);
    FrameParses(Update, ReachOctets(m));
  }

  function Printed(bodies: seq<Body>): seq<seq<Byte>> {
    seq(|bodies|, i requires 0 <= i < |bodies| => PrintMessage(bodies[i]))
  }

  /** A conversation: the messages sent are the messages received, one for one and in order,
      however the octets are cut into reads. */
  lemma ConversationArrives(bodies: seq<Body>, chunks: seq<seq<Byte>>)
    requires forall b <- bodies :: |PrintBody(b)| <= 4077
    requires Concat(chunks) == Concat(FramedAll(Printed(bodies)))
    ensures var s := FeedAll(chunks);
            && !s.failed && s.pending == [] && |s.frames| == |bodies|
            && forall k | 0 <= k < |bodies| :: ParseMessage(s.frames[k]) == Received(bodies[k])
  {
    hide PrintBody, ParseMessage, ParseBody, FeedAll;
    forall k | 0 <= k < |bodies|
      ensures Sendable(Printed(bodies)[k])
      ensures ParseMessage(Framed(Printed(bodies)[k])) == Received(bodies[k])
    {
      MessageReadsBack(bodies[k]);
    }
    StreamRoundTrip(Printed(bodies), chunks);
  }

  /** What arrives of each kind of message. */
  lemma ReceivedUpdate(u: Updates.UpdateMessage)
    requires Updates.WireUpdate(u)
    ensures Received(UpdateBody(u)) == Ok(UpdateBody(Updates.Canonical(u)))
  {
    hide Updates.PrintUpdate, Updates.ParseUpdate, Updates.WireUpdate, Updates.Canonical;
    Updates.UpdateRoundTrip(u);
  }

  lemma ReceivedNotification(code: ErrorCode, sub: Byte, data: seq<Byte>)
    ensures Received(NotificationBody(code, sub, data)) == Ok(NotificationBody(code, sub, []))
  {
  }

  lemma OnlyUpdatesReadAsUpdates(b: Body)
    ensures Received(b).Ok? && Received(b).value.UpdateBody? ==> b.UpdateBody?
  {
    hide Updates.ParseUpdate, Opens.ParseOpen;
  }

  /** An UPDATE with printable attributes is refused or arrives with just these attributes, whatever
      prefixes it carries. */
  lemma UpdateAttributesArrive(u: Updates.UpdateMessage)
    requires |Updates.PrintUpdate(u)| <= 4077 && forall a <- u.attributes :: WireAttr(a)
    ensures var r := Received(UpdateBody(u));
            r.Ok? ==> r.value.UpdateBody? && r.value.update.attributes == Updates.Normals(u.attributes)
  {
    hide WireAttr, Updates.ParseUpdate, Updates.PrintAttrs;
    assert Updates.WireAttributes(u);
    Updates.AttributesArrive(u);
  }

  /** The paths of an UPDATE that was accepted have no segment of more than 255 ASNs. */
  lemma ReadPathsAreShort(src: seq<Byte>, a: PathAttribute)
    requires ParseMessage(src).Ok? && ParseMessage(src).value.UpdateBody?
    requires a in ParseMessage(src).value.update.attributes && a.value.AsPathValue?
    ensures ShortSegments(a.value.path)
  {
    hide Updates.ParseUpdate, Opens.ParseOpen, ShortSegments;
    Updates.AcceptedPathsAreShort(src[19..], a);
  }
}
