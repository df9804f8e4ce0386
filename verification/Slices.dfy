/**
  * Slice independence of the incremental reader: however a byte stream is cut
  * into pushes, the frames read are those of decoding the whole stream.
  */
module Slices {
  import opened Basics
  import opened Frame
  import opened FrameReader

  /** What reading a stream comes to: the frames in order, what is left of the last, and the error that ended it. */
  datatype Outcome = Outcome(frames: seq<seq<Byte>>, pending: seq<Byte>, error: Option<Parse>) {
    function After(earlier: seq<seq<Byte>>): Outcome {
      this.(frames := earlier + frames)
    }
  }

  /** The reference: skip padding, decode a frame, and go on behind it. */
  function DecodeAll(s: seq<Byte>): Outcome
    decreases |s|
  {
    var t := SkipPad(s);
    match Decode(t)
    case Partial => Outcome([], t, None)
    case Bad(error) => Outcome([], [], Some(error))
    case Complete(frame, rest) => DecodeAll(rest).After([frame])
  }

  function Flatten(slices: seq<seq<Byte>>): seq<Byte> {
    if slices == [] then [] else slices[0] + Flatten(slices[1..])
  }

  /** The caller's loop over one slice: push until everything offered is consumed, or an error ends it. */
  function ReadSlice(p: seq<Byte>, data: seq<Byte>): (o: Outcome)
    requires IsPending(p)
    ensures IsPending(o.pending)
    decreases |data|
  {
    if data == [] then Outcome([], p, None)
    else
      var step := Push(p, data);
      match step.result
      case Again => Outcome([], step.pending, None)
      case Error(error) => Outcome([], [], Some(error))
      case Ok(frame) =>
        PushConsumes(p, data);
        ReadSlice([], data[step.consumed..]).After([frame])
  }

  function ReadSlices(p: seq<Byte>, slices: seq<seq<Byte>>): (o: Outcome)
    requires IsPending(p)
    ensures IsPending(o.pending)
    decreases |slices|
  {
    if slices == [] then Outcome([], p, None)
    else
      var first := ReadSlice(p, slices[0]);
      if first.error.Some? then first
      else ReadSlices(first.pending, slices[1..]).After(first.frames)
  }

  /** A frame in progress never completes on nothing. */
  lemma PushConsumes(p: seq<Byte>, data: seq<Byte>)
    requires IsPending(p) && Push(p, data).result.Ok?
    ensures 0 < Push(p, data).consumed
  {
    if p != [] && |p| >= HEADER_SIZE {
      PartialExtends(p, data);
    }
  }

  lemma {:induction false} SkipPadDrops(s: seq<Byte>)
    ensures SkipPad(s) == s[|s| - |SkipPad(s)|..]
  {
    if s != [] && s[0] == PAD {
      SkipPadDrops(s[1..]);
    }
  }

  /** What a push leaves behind the frame it completes is exactly the data it did not consume. */
  lemma PushLeaves(p: seq<Byte>, data: seq<Byte>)
    requires IsPending(p) && Push(p, data).result.Ok?
    ensures 0 < Push(p, data).consumed
    ensures Decode(Unread(p, data)).rest == data[Push(p, data).consumed..]
  {
    PushConsumes(p, data);
    var d := Decode(Unread(p, data));
    LeftBehind(p, data, d.frame, d.rest);
  }

  lemma LeftBehind(p: seq<Byte>, data: seq<Byte>, frame: seq<Byte>, rest: seq<Byte>)
    requires Unread(p, data) == frame + rest && |rest| <= |data|
    ensures rest == data[|data| - |rest|..]
  {
    if p == [] {
      SkipPadDrops(data);
      var pad := data[..|data| - |SkipPad(data)|];
      assert data == pad + SkipPad(data);
      assert [] + data == (pad + frame) + rest;
      TailOf([], data, pad + frame, rest);
    } else {
      TailOf(p, data, frame, rest);
    }
  }

  lemma TailOf(a: seq<Byte>, data: seq<Byte>, b: seq<Byte>, rest: seq<Byte>)
    requires a + data == b + rest && |rest| <= |data|
    ensures rest == data[|data| - |rest|..]
  {
    assert rest == (b + rest)[|b|..];
    assert data[|data| - |rest|..] == (a + data)[|a| + |data| - |rest|..];
  }

  lemma PendingStands(p: seq<Byte>, s: seq<Byte>)
    requires IsPending(p)
    ensures SkipPad(p + s) == Unread(p, s)
  {
    if p == [] {
      assert p + s == s;
    }
  }

  lemma NoneAdded<T>(s: seq<T>)
    ensures s + [] == s && [] + s == s
  {
  }

  lemma AfterNothing(o: Outcome)
    ensures o.After([]) == o
  {
    assert [] + o.frames == o.frames;
  }

  lemma AfterTwice(o: Outcome, a: seq<seq<Byte>>, b: seq<seq<Byte>>)
    ensures o.After(b).After(a) == o.After(a + b)
  {
    assert a + (b + o.frames) == (a + b) + o.frames;
  }

  lemma PrefixPartial(p: seq<Byte>, data: seq<Byte>, more: seq<Byte>)
    requires IsPending(p) && data != [] && Decode(Unread(p, data)).Partial?
    ensures ReadSlice(p, data) == Outcome([], Unread(p, data), None)
    ensures DecodeAll(p + data + more) == DecodeAll(Unread(p, data) + more)
  {
    PendingStands(p, data);
    SkipAgain(p + data, more);
  }

  lemma PrefixBad(p: seq<Byte>, data: seq<Byte>, more: seq<Byte>)
    requires IsPending(p) && data != [] && Decode(Unread(p, data)).Bad?
    ensures ReadSlice(p, data).error.Some?
    ensures DecodeAll(p + data + more) == ReadSlice(p, data)
  {
    var s := Unread(p, data);
    PendingStands(p, data);
    SkipPadExtends(p + data, more);
    assert ParseHeader(s + more) == ParseHeader(s);
  }

  lemma PrefixComplete(p: seq<Byte>, data: seq<Byte>, more: seq<Byte>, frame: seq<Byte>, rest: seq<Byte>)
    requires IsPending(p) && data != [] && Decode(Unread(p, data)) == Complete(frame, rest)
    ensures |rest| < |data| && ReadSlice(p, data) == ReadSlice([], rest).After([frame])
    ensures DecodeAll(p + data + more) == DecodeAll(rest + more).After([frame])
  {
    var s := Unread(p, data);
    PendingStands(p, data);
    SkipPadExtends(p + data, more);
    PushLeaves(p, data);
    Regroup(frame, rest, more);
    FramePrefix(frame, rest + more);
  }

  /** What one slice reads is what the whole stream starts with; the rest of the stream carries on from its leftover. */
  lemma {:induction false} SliceIsPrefix(p: seq<Byte>, data: seq<Byte>, more: seq<Byte>)
    requires IsPending(p)
    ensures var o := ReadSlice(p, data);
            DecodeAll(p + data + more) == if o.error.Some? then o else DecodeAll(o.pending + more).After(o.frames)
    decreases |data|
  {
    if data == [] {
      assert p + data + more == p + more;
      AfterNothing(DecodeAll(p + more));
      return;
    }
    match Decode(Unread(p, data)) {
      case Partial =>
        PrefixPartial(p, data, more);
        AfterNothing(DecodeAll(Unread(p, data) + more));
      case Bad(error) =>
        PrefixBad(p, data, more);
      case Complete(frame, rest) =>
        PrefixComplete(p, data, more, frame, rest);
        NoneAdded(rest);
        SliceIsPrefix([], rest, more);
        var o := ReadSlice([], rest);
        AfterTwice(DecodeAll(o.pending + more), [frame], o.frames);
    }
  }

  /** Padding skipped at the front of a stream is skipped the same when the stream is longer. */
  lemma {:induction false} SkipPadExtends(s: seq<Byte>, more: seq<Byte>)
    ensures SkipPad(s) != [] ==> SkipPad(s + more) == SkipPad(s) + more
    ensures SkipPad(s) == [] ==> SkipPad(s + more) == SkipPad(more)
  {
    if s == [] {
      assert s + more == more;
    } else if s[0] == PAD {
      assert (s + more)[1..] == s[1..] + more;
      SkipPadExtends(s[1..], more);
    }
  }

  lemma SkipAgain(s: seq<Byte>, more: seq<Byte>)
    ensures DecodeAll(s + more) == DecodeAll(SkipPad(s) + more)
  {
    SkipPadExtends(s, more);
    if SkipPad(s) == [] {
      assert SkipPad(s) + more == more;
    }
  }

  lemma {:induction false} SlicesFromPending(p: seq<Byte>, slices: seq<seq<Byte>>)
    requires IsPending(p)
    ensures ReadSlices(p, slices) == DecodeAll(p + Flatten(slices))
    decreases |slices|
  {
    if slices == [] {
      assert p + Flatten(slices) == p;
      assert SkipPad(p) == p;
    } else {
      var o := ReadSlice(p, slices[0]);
      var more := Flatten(slices[1..]);
      Regroup(p, slices[0], more);
      SliceIsPrefix(p, slices[0], more);
      if o.error.None? {
        SlicesFromPending(o.pending, slices[1..]);
      }
    }
  }

  /**
    * Slice independence: any partition of any byte stream reads the same
    * frames, leaves the same bytes pending and ends in the same error as
    * decoding the stream whole.
    */
  lemma SliceIndependence(slices: seq<seq<Byte>>)
    ensures ReadSlices([], slices) == DecodeAll(Flatten(slices))
  {
    SlicesFromPending([], slices);
    assert [] + Flatten(slices) == Flatten(slices);
  }

  lemma ReadSliceIs(p: seq<Byte>, data: seq<Byte>, step: PushStep)
    requires IsPending(p) && data != [] && step == Push(p, data)
    ensures IsPending(step.pending) && step.consumed <= |data|
    ensures ReadSlice(p, data) == match step.result
                                  case Again => Outcome([], step.pending, None)
                                  case Error(error) => Outcome([], [], Some(error))
                                  case Ok(frame) => ReadSlice([], data[step.consumed..]).After([frame])
    ensures step.result.Ok? ==> 0 < step.consumed && step.pending == []
    ensures step.result.Error? ==> step.pending == []
    ensures step.result.Again? ==> step.consumed == |data|
  {
    if step.result.Ok? {
      PushConsumes(p, data);
    }
  }

  lemma ReadSliceEnd(p: seq<Byte>, data: seq<Byte>)
    requires IsPending(p) && data == []
    ensures ReadSlice(p, data) == Outcome([], p, None)
  {
  }

  /** One turn of the caller's loop: the outcome is what the rest reads, after the frames so far. */
  lemma NextPush(p: seq<Byte>, data: seq<Byte>, frames: seq<seq<Byte>>, step: PushStep)
    requires IsPending(p) && data != [] && step == Push(p, data)
    ensures step.consumed <= |data| && IsPending(step.pending) && (step.result.Error? || 0 < step.consumed)
    ensures ReadSlice(p, data).After(frames) == Onward(step, data[step.consumed..], frames)
  {
    ReadSliceIs(p, data, step);
    PushOnward(ReadSlice(p, data), step, data[step.consumed..], frames);
  }

  function FramesAfter(result: Result, frames: seq<seq<Byte>>): seq<seq<Byte>> {
    if result.Ok? then frames + [result.frame] else frames
  }

  function Onward(step: PushStep, rest: seq<Byte>, frames: seq<seq<Byte>>): Outcome
    requires IsPending(step.pending)
  {
    if step.result.Error? then Outcome(frames, step.pending, Some(step.result.error))
    else ReadSlice(step.pending, rest).After(FramesAfter(step.result, frames))
  }

  lemma PushOnward(o: Outcome, step: PushStep, rest: seq<Byte>, frames: seq<seq<Byte>>)
    requires IsPending(step.pending)
    requires match step.result
             case Again => rest == [] && o == Outcome([], step.pending, None)
             case Error(error) => step.pending == [] && o == Outcome([], [], Some(error))
             case Ok(frame) => step.pending == [] && o == ReadSlice([], rest).After([frame])
    ensures o.After(frames) == Onward(step, rest, frames)
  {
    NoneAdded(frames);
    if step.result.Ok? {
      AfterTwice(ReadSlice([], rest), frames, [step.result.frame]);
    } else if step.result.Again? {
      ReadSliceEnd(step.pending, rest);
    }
  }

  /** One push on the machine, and what it leaves of the slice to read. */
  method PushNext(r: Reader, data: seq<Byte>, ghost frames: seq<seq<Byte>>) returns (result: Result, consumed: nat)
    requires r.Valid() && data != []
    modifies r`have, r.buf
    ensures r.Valid() && consumed <= |data| && (result.Error? || 0 < consumed)
    ensures ReadSlice(old(r.Pending()), data).After(frames)
         == Onward(PushStep(result, consumed, r.Pending()), data[consumed..], frames)
  {
    ghost var before := r.Pending();
    result, consumed := r.PushBytes(data);
    NextPush(before, data, frames, PushStep(result, consumed, r.Pending()));
  }

  /** The caller's loop over one slice, run on the machine. */
  method ReadOne(r: Reader, data: seq<Byte>) returns (frames: seq<seq<Byte>>, error: Option<Parse>)
    requires r.Valid()
    modifies r`have, r.buf
    ensures r.Valid()
    ensures Outcome(frames, r.Pending(), error) == ReadSlice(old(r.Pending()), data)
  {
    frames, error := [], None;
    var rest := data;
    ghost var goal := ReadSlice(r.Pending(), data);
    AfterNothing(goal);
    while rest != []
      invariant r.Valid() && error.None?
      invariant goal == ReadSlice(r.Pending(), rest).After(frames)
      decreases |rest|
    {
      var result, consumed := PushNext(r, rest, frames);
      if result.Error? {
        error := Some(result.error);
        return;
      }
      frames := FramesAfter(result, frames);
      rest := rest[consumed..];
    }
    ReadSliceEnd(r.Pending(), rest);
    NoneAdded(frames);
  }

  /** Any stream in any slices, run on the machine: what comes out is the whole stream's decoding. */
  method ReadAll(r: Reader, slices: seq<seq<Byte>>) returns (frames: seq<seq<Byte>>, error: Option<Parse>)
    requires r.Valid() && r.Pending() == []
    modifies r, r.buf
    ensures r.Valid()
    ensures Outcome(frames, r.Pending(), error) == DecodeAll(Flatten(slices))
  {
    frames, error := [], None;
    var i := 0;
    AfterNothing(ReadSlices([], slices));
    SliceIndependence(slices);
    while i < |slices|
      invariant 0 <= i <= |slices|
      invariant r.Valid() && error.None?
      invariant ReadSlices([], slices) == ReadSlices(r.Pending(), slices[i..]).After(frames)
    {
      assert slices[i..][1..] == slices[i + 1..];
      var first;
      first, error := ReadOne(r, slices[i]);
      if error.Some? {
        frames := frames + first;
        return;
      }
      AfterTwice(ReadSlices(r.Pending(), slices[i + 1..]), frames, first);
      frames := frames + first;
      i := i + 1;
    }
  }
}
