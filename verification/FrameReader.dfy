/**
  * The incremental frame reader: an ordered byte stream in arbitrary slices, or
  * 64-byte reports that a lossy carrier may drop.
  *
  * `Reader` is the fixed-storage machine. What it means is stated by `Push` and
  * `Report`, functions of the bytes pending from the frame in progress.
  */
module FrameReader {
  import opened Basics
  import opened Frame

  const REPORT_SIZE := 64
  const STREAM_SIZE := REPORT_SIZE - 1
  const FRAME_START: Byte := 1
  const FRAME_CONTINUES: Byte := 0

  datatype Result = Ok(frame: seq<Byte>) | Again | Error(error: Parse)

  function SkipPad(s: seq<Byte>): (r: seq<Byte>)
    ensures |r| <= |s|
    ensures r != [] ==> r[0] != PAD
  {
    if s != [] && s[0] == PAD then SkipPad(s[1..]) else s
  }

  predicate AllPad(s: seq<Byte>) {
    forall i :: 0 <= i < |s| ==> s[i] == PAD
  }

  /** Bytes of a frame in progress: the start of a stream that decoding waits on. */
  predicate IsPending(p: seq<Byte>) {
    Decode(p).Partial? && |p| < MAX_SIZE && (p != [] ==> p[0] != PAD)
  }

  datatype PushStep = PushStep(result: Result, consumed: nat, pending: seq<Byte>)

  /** The stream a push decodes: what is pending, then the data, padding skipped only between frames. */
  function Unread(p: seq<Byte>, data: seq<Byte>): seq<Byte> {
    if p == [] then SkipPad(data) else p + data
  }

  /** A push is one decode of everything unread. */
  function Push(p: seq<Byte>, data: seq<Byte>): (step: PushStep)
    requires IsPending(p)
    ensures step.consumed <= |data|
    ensures IsPending(step.pending)
    ensures step.result.Again? ==> step.consumed == |data|
  {
    var s := Unread(p, data);
    match Decode(s)
    case Partial => PushStep(Again, |data|, s)
    case Bad(error) =>
      assert p != [] && |p| >= HEADER_SIZE ==> ParseHeader(p + data) == ParseHeader(p);
      PushStep(Error(error), |data| - (|s| - HEADER_SIZE), [])
    case Complete(frame, rest) =>
      assert p != [] && |p| >= HEADER_SIZE ==> ParseHeader(p + data) == ParseHeader(p);
      PushStep(Ok(frame), |data| - |rest|, [])
  }

  lemma Joined(p: seq<Byte>, data: seq<Byte>, start: nat, used: nat, taken: seq<Byte>)
    requires start <= used <= |data| && taken == p + data[start..used]
    ensures p + data[start..] == taken + data[used..]
  {
  }

  lemma PushOk(p: seq<Byte>, data: seq<Byte>, frame: seq<Byte>, rest: seq<Byte>)
    requires IsPending(p) && IsFrame(frame) && Unread(p, data) == frame + rest
    ensures Push(p, data) == PushStep(Ok(frame), |data| - |rest|, [])
  {
    FramePrefix(frame, rest);
  }

  lemma Appended(p: seq<Byte>, data: seq<Byte>, start: nat, filled: nat, used: nat)
    requires start <= filled <= used <= |data|
    ensures p + data[start..filled] + data[filled..used] == p + data[start..used]
  {
  }

  lemma PushPartial(p: seq<Byte>, data: seq<Byte>, taken: seq<Byte>, hdr: Header)
    requires IsPending(p) && ParseHeader(taken) == Parsed(hdr) && |taken| < HEADER_SIZE + hdr.len
    requires Unread(p, data) == taken + []
    ensures IsPending(taken) && Push(p, data) == PushStep(Again, |data|, taken)
  {
    assert taken + [] == taken;
  }

  lemma PushBad(p: seq<Byte>, data: seq<Byte>, head: seq<Byte>, rest: seq<Byte>)
    requires IsPending(p) && |head| == HEADER_SIZE && !ParseHeader(head).Parsed?
    requires Unread(p, data) == head + rest
    ensures Push(p, data) == PushStep(Error(ParseHeader(head)), |data| - |rest|, [])
  {
    assert ParseHeader(head + rest) == ParseHeader(head);
  }

  datatype ReportStep = ReportStep(result: Result, pending: seq<Byte>, resyncs: nat)

  /** The stream part of a report: a frame that completes must leave only padding behind it. */
  function Judge(p: seq<Byte>, report: seq<Byte>): (step: ReportStep)
    requires IsPending(p) && report != []
    ensures IsPending(step.pending)
  {
    var step := Push(p, report[1..]);
    if step.result.Ok? && !AllPad(report[1 + step.consumed..])
    then ReportStep(Again, [], 1)
    else ReportStep(step.result, step.pending, 0)
  }

  /** One report: byte 0 is the frame-start flag, the rest is stream. */
  function Report(p: seq<Byte>, report: seq<Byte>): (step: ReportStep)
    requires IsPending(p)
    ensures IsPending(step.pending)
  {
    if report == [] then ReportStep(Again, p, 0)
    else if report[0] == FRAME_START then
      var step := Judge([], report);
      if p == [] then step else step.(resyncs := step.resyncs + 1)
    else if p == [] then ReportStep(Again, [], 1)
    else Judge(p, report)
  }

  function SaturatingAdd(count: nat, n: nat): nat {
    if count + n <= U32_MAX then count + n else U32_MAX
  }

  /**
    * The machine: a frame-sized buffer and how much of it is filled. A complete
    * frame rests in the buffer after it is returned, until the next call.
    */
  class Reader {
    const buf: array<Byte>
    var have: nat
    var resyncs: nat

    ghost predicate Valid()
      reads this, buf
    {
      && buf.Length == MAX_SIZE
      && have <= MAX_SIZE
      && resyncs <= U32_MAX
      && (IsFrame(buf[..have]) || IsPending(buf[..have]))
    }

    ghost function Pending(): (p: seq<Byte>)
      requires Valid()
      reads this, buf
      ensures IsPending(p)
    {
      if IsFrame(buf[..have]) then [] else buf[..have]
    }

    constructor ()
      ensures Valid() && Pending() == [] && resyncs == 0 && fresh(buf)
    {
      buf := new Byte[MAX_SIZE](_ => 0);
      have := 0;
      resyncs := 0;
      new;
      assert buf[..have] == [];
    }

    /** Buffer up to `want` more bytes of the unread data. */
    method Fill(data: seq<Byte>, used: nat, want: nat) returns (take: nat)
      requires buf.Length == MAX_SIZE
      requires used <= |data|
      requires have + want <= MAX_SIZE
      modifies this`have, buf
      ensures take == if |data| - used < want then |data| - used else want
      ensures have == old(have) + take
      ensures buf[..have] == old(buf[..have]) + data[used..used + take]
    {
      take := if |data| - used < want then |data| - used else want;
      forall i | 0 <= i < take {
        buf[have + i] := data[used + i];
      }
      have := have + take;
    }

    method Release()
      requires Valid()
      modifies this`have
      ensures Valid() && buf[..have] == old(Pending()) && Pending() == old(Pending())
    {
      if have >= HEADER_SIZE {
        var parse := ParseHeader(buf[..have]);
        if parse.Parsed? && have == HEADER_SIZE + parse.hdr.len {
          have := 0;
        }
      }
    }

    /** Count the padding ahead of the next frame. */
    method SkipPadding(data: seq<Byte>) returns (used: nat)
      ensures used <= |data| && SkipPad(data) == data[used..]
    {
      used := 0;
      while used < |data| && data[used] == PAD
        invariant used <= |data|
        invariant SkipPad(data[used..]) == SkipPad(data)
      {
        assert data[used..][1..] == data[used + 1..];
        used := used + 1;
      }
    }

    method PushBytes(data: seq<Byte>) returns (result: Result, consumed: nat)
      requires Valid()
      modifies this`have, buf
      ensures Valid()
      ensures PushStep(result, consumed, Pending()) == Push(old(Pending()), data)
      ensures result.Ok? ==> buf[..have] == result.frame
    {
      Release();
      var used := 0;
      if have == 0 {
        used := SkipPadding(data);
      }
      result, consumed := Take(data, used);
    }

    /** The rest of a push, from the first byte that is not padding. */
    method Take(data: seq<Byte>, start: nat) returns (result: Result, used: nat)
      requires Valid() && IsPending(buf[..have])
      requires start <= |data| && Unread(buf[..have], data) == buf[..have] + data[start..]
      modifies this`have, buf
      ensures Valid()
      ensures PushStep(result, used, Pending()) == Push(old(buf[..have]), data)
      ensures result.Ok? ==> buf[..have] == result.frame
    {
      ghost var p := buf[..have];
      used := start;
      if have < HEADER_SIZE {
        var took := Fill(data, used, HEADER_SIZE - have);
        used := used + took;
        if have < HEADER_SIZE {
          assert buf[..have] == p + data[start..];
          return Again, used;
        }
      }
      Joined(p, data, start, used, buf[..have]);
      var parse := ParseHeader(buf[..have]);
      if !parse.Parsed? {
        PushBad(p, data, buf[..have], data[used..]);
        have := 0;
        assert buf[..have] == [];
        return Error(parse), used;
      }
      result, used := TakeBody(data, start, used, parse.hdr, p);
    }

    /** The payload of a frame whose header is buffered and parses. */
    method TakeBody(data: seq<Byte>, ghost start: nat, filled: nat, hdr: Header, ghost p: seq<Byte>)
      returns (result: Result, used: nat)
      requires buf.Length == MAX_SIZE && resyncs <= U32_MAX
      requires start <= filled <= |data| && HEADER_SIZE <= have <= HEADER_SIZE + hdr.len <= MAX_SIZE
      requires ParseHeader(buf[..have]) == Parsed(hdr)
      requires buf[..have] == p + data[start..filled]
      requires IsPending(p) && Unread(p, data) == p + data[start..]
      modifies this`have, buf
      ensures Valid()
      ensures PushStep(result, used, Pending()) == Push(p, data)
      ensures result.Ok? ==> buf[..have] == result.frame
    {
      var total := HEADER_SIZE + hdr.len;
      var took := Fill(data, filled, total - have);
      used := filled + took;
      ghost var taken := buf[..have];
      Appended(p, data, start, filled, used);
      Joined(p, data, start, used, taken);
      if have == total {
        PushOk(p, data, taken, data[used..]);
        result := Ok(buf[..total]);
      } else {
        PushPartial(p, data, taken, hdr);
        result := Again;
      }
    }

    /** Read one report: bridge a lost one, and refuse a frame completed on a neighbour's bytes. */
    method ReadReport(report: seq<Byte>) returns (result: Result)
      requires Valid()
      modifies this, buf
      ensures Valid()
      ensures var step := Report(old(Pending()), report);
              && result == step.result
              && Pending() == step.pending
              && resyncs == SaturatingAdd(old(resyncs), step.resyncs)
    {
      if |report| == 0 {
        return Again;
      }
      Release();
      var starts := report[0] == FRAME_START;
      if starts && have > 0 {
        Discard();
      } else if !starts && have == 0 {
        Resynced();
        return Again;
      }
      result := JudgeReport(report);
    }

    method JudgeReport(report: seq<Byte>) returns (result: Result)
      requires Valid() && report != []
      modifies this, buf
      ensures Valid()
      ensures var step := Judge(old(Pending()), report);
              && result == step.result
              && Pending() == step.pending
              && resyncs == SaturatingAdd(old(resyncs), step.resyncs)
    {
      var consumed;
      result, consumed := PushBytes(report[1..]);
      if result.Ok? {
        var clean := TailIsPadding(report, 1 + consumed);
        if !clean {
          Discard();
          result := Again;
        }
      }
    }

    /** Throw away the frame in the buffer, and count it. */
    method Discard()
      requires Valid()
      modifies this
      ensures Valid() && have == 0 && Pending() == [] && resyncs == SaturatingAdd(old(resyncs), 1)
    {
      have := 0;
      assert buf[..have] == [];
      Resynced();
    }

    method TailIsPadding(report: seq<Byte>, from: nat) returns (clean: bool)
      requires from <= |report|
      ensures clean == AllPad(report[from..])
    {
      var i := from;
      while i < |report|
        invariant from <= i <= |report|
        invariant forall j :: from <= j < i ==> report[j] == PAD
      {
        if report[i] != PAD {
          assert report[from..][i - from] != PAD;
          return false;
        }
        i := i + 1;
      }
      return true;
    }

    method Resynced()
      requires resyncs <= U32_MAX
      modifies this`resyncs
      ensures resyncs == SaturatingAdd(old(resyncs), 1)
    {
      if resyncs != U32_MAX {
        resyncs := resyncs + 1;
      }
    }
  }
}
