/**
  * The wire format of the helper channel: a four-byte header (type, flags,
  * little-endian payload length) followed by the payload.
  */
module Frame {
  import opened Basics

  const HEADER_SIZE := 4
  const MAX_PAYLOAD := 4096
  const MAX_SIZE := HEADER_SIZE + MAX_PAYLOAD
  const PAD: Byte := 0
  const BULK_BASE := 0x30
  const U32_MAX := 0xffff_ffff

  datatype Header = Header(kind: Byte, flags: Byte, len: nat)

  datatype Parse = Parsed(hdr: Header) | NeedMore | Oversize | UnknownType

  /** The message registry, by band. */
  predicate KnownType(t: Byte) {
    0x01 <= t <= 0x0B || t == 0x10 || t == 0x11 || 0x20 <= t <= 0x24 || 0x30 <= t <= 0x3A
  }

  predicate IsBulk(t: Byte) {
    t >= BULK_BASE
  }

  function ParseHeader(buf: seq<Byte>): Parse {
    if |buf| < HEADER_SIZE then NeedMore
    else
      var len: int := buf[2] as int + 256 * buf[3] as int;
      if len > MAX_PAYLOAD then Oversize
      else if !KnownType(buf[0]) then UnknownType
      else Parsed(Header(buf[0], buf[1], len))
  }

  /** A whole frame, nothing more: its header parses and its length is the one the header states. */
  predicate IsFrame(f: seq<Byte>) {
    ParseHeader(f).Parsed? && |f| == HEADER_SIZE + ParseHeader(f).hdr.len
  }

  datatype Decoded = Complete(frame: seq<Byte>, rest: seq<Byte>) | Partial | Bad(error: Parse)

  /** One-shot decode of the frame at the start of a buffer. */
  function Decode(s: seq<Byte>): (d: Decoded)
    ensures d.Complete? ==> IsFrame(d.frame) && s == d.frame + d.rest
    ensures d.Bad? ==> |s| >= HEADER_SIZE
  {
    match ParseHeader(s)
    case NeedMore => Partial
    case Parsed(h) =>
      if |s| < HEADER_SIZE + h.len then Partial
      else Complete(s[..HEADER_SIZE + h.len], s[HEADER_SIZE + h.len..])
    case error => Bad(error)
  }

  datatype Encoded = EncodedOk(bytes: seq<Byte>) | EncodeOversize | EncodeUnknownType | EncodeBuffer

  function Encode(kind: Byte, flags: Byte, payload: seq<Byte>, cap: nat): Encoded {
    if |payload| > MAX_PAYLOAD then EncodeOversize
    else if !KnownType(kind) then EncodeUnknownType
    else if cap < HEADER_SIZE + |payload| then EncodeBuffer
    else EncodedOk([kind, flags, |payload| % 256, |payload| / 256] + payload)
  }

  /** What is encoded decodes to the same type, flags and payload, whatever follows it. */
  lemma EncodeDecodes(kind: Byte, flags: Byte, payload: seq<Byte>, cap: nat, rest: seq<Byte>)
    requires Encode(kind, flags, payload, cap).EncodedOk?
    ensures var bytes := Encode(kind, flags, payload, cap).bytes;
            && IsFrame(bytes)
            && |bytes| <= cap
            && ParseHeader(bytes) == Parsed(Header(kind, flags, |payload|))
            && bytes[HEADER_SIZE..] == payload
            && Decode(bytes + rest) == Complete(bytes, rest)
  {
    var bytes := Encode(kind, flags, payload, cap).bytes;
    FramePrefix(bytes, rest);
  }

  /** A frame at the start of a buffer is the frame decoding finds. */
  lemma FramePrefix(f: seq<Byte>, rest: seq<Byte>)
    requires IsFrame(f)
    ensures Decode(f + rest) == Complete(f, rest)
  {
    assert (f + rest)[..|f|] == f;
    assert (f + rest)[|f|..] == rest;
  }

  /** Every well-formed frame is the encoding of its own header and payload. */
  lemma DecodeEncodes(f: seq<Byte>)
    requires IsFrame(f)
    ensures Encode(f[0], f[1], f[HEADER_SIZE..], |f|) == EncodedOk(f)
  {
    var payload := f[HEADER_SIZE..];
    assert |payload| == f[2] as int + 256 * f[3] as int;
    assert [f[0], f[1], f[2], f[3]] + payload == f;
  }

  /** A decode that waits says exactly that the buffer is a proper prefix of some frame's shape. */
  lemma PartialExtends(s: seq<Byte>, more: seq<Byte>)
    requires Decode(s).Partial? && |s| >= HEADER_SIZE
    ensures ParseHeader(s + more) == ParseHeader(s)
    ensures ParseHeader(s).Parsed? && |s| < HEADER_SIZE + ParseHeader(s).hdr.len
  {
  }
}
