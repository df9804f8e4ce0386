/** The message registry, message by message, and what a frame is in its terms. */
module Messages {
  import opened Basics
  import opened Frame

  datatype Message =
    | Hello | HelloAck | ListenerAlert | ClipPolicy | Heartbeat | DeviceHeartbeat | SessionEnd
    | PairRequest | PairGrant | PairRefused | HelloRefused
    | DeviceDrops | HostSleep
    | Place | PosQuery | PosResponse | Arrival | PeerHelper
    | ClipOffer | ClipRequest | ClipChunk | ClipDone | ClipCancel | ClipRetransmit | ClipCredit
    | SealOffer | SealAccept | SealStale | ClipReceived

  datatype Band = Session | Placement | Bulk

  function Code(m: Message): Byte {
    match m
    case Hello => 0x01
    case HelloAck => 0x02
    case ListenerAlert => 0x03
    case ClipPolicy => 0x04
    case Heartbeat => 0x05
    case DeviceHeartbeat => 0x06
    case SessionEnd => 0x07
    case PairRequest => 0x08
    case PairGrant => 0x09
    case PairRefused => 0x0A
    case HelloRefused => 0x0B
    case DeviceDrops => 0x10
    case HostSleep => 0x11
    case Place => 0x20
    case PosQuery => 0x21
    case PosResponse => 0x22
    case Arrival => 0x23
    case PeerHelper => 0x24
    case ClipOffer => 0x30
    case ClipRequest => 0x31
    case ClipChunk => 0x32
    case ClipDone => 0x33
    case ClipCancel => 0x34
    case ClipRetransmit => 0x35
    case ClipCredit => 0x36
    case SealOffer => 0x37
    case SealAccept => 0x38
    case SealStale => 0x39
    case ClipReceived => 0x3A
  }

  function BandOf(m: Message): Band {
    match m
    case Hello | HelloAck | ListenerAlert | ClipPolicy | Heartbeat | DeviceHeartbeat | SessionEnd => Session
    case PairRequest | PairGrant | PairRefused | HelloRefused | DeviceDrops | HostSleep => Session
    case Place | PosQuery | PosResponse | Arrival | PeerHelper => Placement
    case _ => Bulk
  }

  /** The message of a known type. */
  function MessageOf(t: Byte): (m: Message)
    requires KnownType(t)
    ensures Code(m) == t
  {
    if t < 0x08 then
      (if t == 0x01 then Hello else if t == 0x02 then HelloAck else if t == 0x03 then ListenerAlert
       else if t == 0x04 then ClipPolicy else if t == 0x05 then Heartbeat
       else if t == 0x06 then DeviceHeartbeat else SessionEnd)
    else if t < 0x20 then
      (if t == 0x08 then PairRequest else if t == 0x09 then PairGrant else if t == 0x0A then PairRefused
       else if t == 0x0B then HelloRefused else if t == 0x10 then DeviceDrops else HostSleep)
    else if t < 0x30 then
      (if t == 0x20 then Place else if t == 0x21 then PosQuery else if t == 0x22 then PosResponse
       else if t == 0x23 then Arrival else PeerHelper)
    else if t < 0x36 then
      (if t == 0x30 then ClipOffer else if t == 0x31 then ClipRequest else if t == 0x32 then ClipChunk
       else if t == 0x33 then ClipDone else if t == 0x34 then ClipCancel else ClipRetransmit)
    else if t == 0x36 then ClipCredit
    else if t == 0x37 then SealOffer
    else if t == 0x38 then SealAccept
    else if t == 0x39 then SealStale
    else ClipReceived
  }

  /** A type is known exactly when it is some message's, and bulk exactly when that message is. */
  lemma Registry(t: Byte)
    ensures KnownType(t) <==> exists m :: Code(m) == t
    ensures forall m :: Code(m) == t ==> (IsBulk(t) <==> BandOf(m) == Bulk)
  {
    if KnownType(t) {
      var m := MessageOf(t);
      assert Code(m) == t;
    }
  }

  /** No two messages share a type. */
  lemma CodesDiffer(a: Message, b: Message)
    requires Code(a) == Code(b)
    ensures a == b
  {
    MessageFound(a);
    MessageFound(b);
  }

  lemma MessageFound(m: Message)
    ensures KnownType(Code(m)) && MessageOf(Code(m)) == m
  {
  }

  /** Every message with a payload the wire allows encodes, to its type, flags and length in front of the payload. */
  lemma MessageEncodes(m: Message, flags: Byte, payload: seq<Byte>, cap: nat)
    ensures Encode(Code(m), flags, payload, cap).EncodedOk? <==> |payload| <= 4096 && |payload| + 4 <= cap
    ensures |payload| <= 4096 && |payload| + 4 <= cap ==>
              Encode(Code(m), flags, payload, cap).bytes
              == [Code(m), flags, |payload| % 256, |payload| / 256] + payload
  {
    MessageFound(m);
  }

  /** The parts of a frame. */
  predicate MadeOf(f: seq<Byte>, m: Message, flags: Byte, payload: seq<Byte>) {
    |payload| <= 4096 && f == [Code(m), flags, |payload| % 256, |payload| / 256] + payload
  }

  /** A frame is a message's type, a flags byte, the payload's length in two bytes, low first, and the payload; nothing else is one. */
  lemma FrameIs(f: seq<Byte>)
    ensures IsFrame(f) <==> exists m, flags, payload :: MadeOf(f, m, flags, payload)
  {
    if IsFrame(f) {
      DecodeEncodes(f);
      var m := MessageOf(f[0]);
      assert MadeOf(f, m, f[1], f[4..]);
    }
    if exists m, flags, payload :: MadeOf(f, m, flags, payload) {
      var m, flags, payload :| MadeOf(f, m, flags, payload);
      MessageEncodes(m, flags, payload, |f|);
      EncodeDecodes(Code(m), flags, payload, |f|, []);
    }
  }
}
