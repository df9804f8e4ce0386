/**
  * The channel from end to end: frames offered to the board's queue in any
  * interleaving with its drain, reports lost in any pattern, and what the
  * helper's reader delivers.
  */
module EndToEnd {
  import opened Basics
  import opened Frame
  import opened FrameReader
  import opened OutboundQueue
  import opened Carrier
  import opened Channel

  /** A loss mask over all the reports of some frames, cut up frame by frame. */
  function SplitMask(frames: seq<seq<Byte>>, mask: seq<bool>): (masks: seq<seq<bool>>)
    requires |mask| == |CutAll(frames)|
    ensures Masks(frames, masks)
  {
    if frames == [] then []
    else
      var n := |Cut(frames[0])|;
      [mask[..n]] + SplitMask(frames[1..], mask[n..])
  }

  lemma {:induction false} KeepConcat<T>(a: seq<T>, b: seq<T>, m: seq<bool>, n: seq<bool>)
    requires |m| == |a| && |n| == |b|
    ensures Keep(a + b, m + n) == Keep(a, m) + Keep(b, n)
    decreases |a|
  {
    TailConcat(a, b);
    TailConcat(m, n);
    if a == [] {
      TailConcat(Keep(a, m), Keep(b, n));
    } else {
      KeepConcat(a[1..], b, m[1..], n);
      Regroup(if m[0] then [a[0]] else [], Keep(a[1..], m[1..]), Keep(b, n));
    }
  }

  lemma {:induction false} SplitKeeps(frames: seq<seq<Byte>>, mask: seq<bool>)
    requires |mask| == |CutAll(frames)|
    ensures Arrived(frames, SplitMask(frames, mask)) == Keep(CutAll(frames), mask)
    decreases |frames|
  {
    if frames != [] {
      var n := |Cut(frames[0])|;
      SplitKeeps(frames[1..], mask[n..]);
      assert mask == mask[..n] + mask[n..];
      KeepConcat(Cut(frames[0]), CutAll(frames[1..]), mask[..n], mask[n..]);
      assert SplitMask(frames, mask)[1..] == SplitMask(frames[1..], mask[n..]);
    }
  }

  lemma {:induction false} KeepNone<T>(s: seq<T>, mask: seq<bool>)
    requires |mask| == |s| && forall i :: 0 <= i < |mask| ==> !mask[i]
    ensures Keep(s, mask) == []
    decreases |s|
  {
    if s != [] {
      KeepNone(s[1..], mask[1..]);
    }
  }

  /** Reports not on the wire yet are as good as lost. */
  function Unsent(mask: seq<bool>, n: nat): (all: seq<bool>)
    ensures |all| == |mask| + n
  {
    mask + seq(n, _ => false)
  }

  lemma UnsentKeeps<T>(s: seq<T>, wire: seq<T>, mask: seq<bool>)
    requires wire <= s && |mask| == |wire|
    ensures Keep(s, Unsent(mask, |s| - |wire|)) == Keep(wire, mask)
  {
    var rest := s[|wire|..];
    var none := seq(|rest|, _ => false);
    assert s == wire + rest;
    KeepConcat(wire, rest, mask, none);
    KeepNone(rest, none);
    assert Keep(wire, mask) + [] == Keep(wire, mask);
  }

  lemma {:induction false} FramesGood(done: seq<Sent>)
    requires forall x :: x in done ==> IsFrame(x.frame)
    ensures AllFrames(Frames(done))
  {
    if done != [] {
      assert done[0] in done;
      FramesGood(done[1..]);
    }
  }

  lemma UnfinishedGood(s: Pump)
    requires Valid(s.q)
    ensures Unfinished(s).Holds() ==> IsFrame(Unfinished(s).frame)
  {
  }

  lemma OnWireGood(s: Pump)
    requires Inv(s)
    ensures AllFrames(OnWire(s))
  {
    FramesGood(s.done);
    UnfinishedGood(s);
  }

  /** What is known of the frames on the wire in any run, and how each report of theirs fared. */
  function Fate(s: Pump, mask: seq<bool>): (masks: seq<seq<bool>>)
    requires s.wire <= CutAll(OnWire(s)) && |mask| == |s.wire|
    ensures Masks(OnWire(s), masks)
  {
    SplitMask(OnWire(s), Unsent(mask, |CutAll(OnWire(s))| - |s.wire|))
  }

  /** What the reader makes of the reports that arrive, with what is known of each frame on the wire. */
  ghost predicate Accounted(s: Pump, mask: seq<bool>, parts: seq<seq<seq<Byte>>>)
    requires s.wire <= CutAll(OnWire(s)) && AllFrames(OnWire(s)) && |mask| == |s.wire|
  {
    var masks := Fate(s, mask);
    var run := Read([], Keep(s.wire, mask));
    && !run.failed
    && run.delivered == Join(parts)
    && Accounts(parts, OnWire(s), masks)
    && (run.delivered == Intact(OnWire(s), masks) <==> NoBorrowing([], OnWire(s), masks))
  }

  lemma ReadWire(s: Pump, mask: seq<bool>) returns (parts: seq<seq<seq<Byte>>>)
    requires s.wire <= CutAll(OnWire(s)) && AllFrames(OnWire(s)) && |mask| == |s.wire|
    ensures Accounted(s, mask, parts)
  {
    var all := CutAll(OnWire(s));
    UnsentKeeps(all, s.wire, mask);
    SplitKeeps(OnWire(s), Unsent(mask, |all| - |s.wire|));
    parts := LossyCarrier(OnWire(s), Fate(s, mask));
  }

  /**
    * For every interleaving of offers with the drain, and every loss of reports
    * on the wire: the reader fails on none of it, delivers each frame whose
    * reports have all gone out and arrived, once, intact and in the order they
    * left, and delivers exactly those if and only if no headless frame borrows.
    */
  lemma EndToEndDelivery(events: seq<Event>, mask: seq<bool>) returns (parts: seq<seq<seq<Byte>>>)
    ensures Inv(START)
    ensures var s := RunFrom(START, events);
            && s.wire <= CutAll(OnWire(s)) && AllFrames(OnWire(s))
            && (|mask| == |s.wire| ==> Accounted(s, mask, parts))
  {
    StartGood();
    var s := RunFrom(START, events);
    WirePrefix(s);
    OnWireGood(s);
    parts := [];
    if |mask| == |s.wire| {
      parts := ReadWire(s, mask);
    }
  }

  lemma {:induction false} WholeFrames(frames: seq<seq<Byte>>)
    requires AllFrames(frames)
    ensures Read([], CutAll(frames)) == Run(frames, [], false)
    decreases |frames|
  {
    if frames != [] {
      WholeFrame([], frames[0]);
      WholeFrames(frames[1..]);
      ReadConcat([], Cut(frames[0]), CutAll(frames[1..]));
      assert frames == [frames[0]] + frames[1..];
    }
  }

  lemma SentSoFar<T>(s: seq<T>, out: seq<T>) returns (mask: seq<bool>)
    requires out <= s && out != s && out != []
    ensures |mask| == |s| && mask[0] && !mask[|mask| - 1]
    ensures Keep(s, mask) == out
  {
    var kept := seq(|out|, _ => true);
    mask := Unsent(kept, |s| - |out|);
    UnsentKeeps(s, out, kept);
    KeepAll(out, kept);
  }

  /** The frame part-sent, as far as it has gone, delivers nothing. */
  lemma PartSent(f: seq<Byte>, out: seq<seq<Byte>>)
    requires IsFrame(f) && out <= Cut(f) && out != Cut(f)
    ensures var run := Read([], out); run.delivered == [] && !run.failed
  {
    if out != [] {
      var mask := SentSoFar(Cut(f), out);
      BrokenFrame([], f, mask);
    }
  }

  /**
    * On a carrier that loses nothing the reader delivers, at every moment of
    * every run, exactly the frames whose last report has gone out: each band
    * in the order its frames were accepted.
    */
  lemma NothingLost(events: seq<Event>)
    ensures Inv(START)
    ensures var s := RunFrom(START, events);
            var run := Read([], s.wire);
            && !run.failed
            && run.delivered == if LastReport(s) then OnWire(s) else Frames(s.done)
  {
    StartGood();
    var s := RunFrom(START, events);
    WirePrefix(s);
    OnWireGood(s);
    FramesGood(s.done);
    if !Unfinished(s).Holds() || LastReport(s) {
      WholeFrames(OnWire(s));
      if !LastReport(s) {
        assert OnWire(s) == Frames(s.done);
      }
    } else {
      var f := Unfinished(s).frame;
      assert OnWire(s)[|Frames(s.done)|] == f;
      DoneOnWire(s);
      PartWire(s.wire, Frames(s.done), f);
    }
  }

  /** The finished frames are on the wire, whole. */
  lemma DoneOnWire(s: Pump)
    requires Inv(s)
    ensures CutAll(Frames(s.done)) <= s.wire
  {
    if s.held.Some? && s.held.value.taken {
      HeldWire(s, s.held.value);
      DoneCredited(Credited(s), s.done, BandOf(s.q, s.held.value.bulk));
    } else {
      DoneCredited(s.wire, s.done, Current(s.q));
    }
  }

  lemma DoneCredited(credited: seq<seq<Byte>>, done: seq<Sent>, b: Band)
    requires WireOf(credited, done, b)
    ensures CutAll(Frames(done)) <= credited
  {
    CutLength(b.frame, b.sent);
    CutLength(b.frame, 0);
    var all := credited + CutFrom(b.frame, b.sent);
    assert all[..|CutAll(Frames(done))|] == CutAll(Frames(done));
  }

  lemma PartWire(wire: seq<seq<Byte>>, frames: seq<seq<Byte>>, f: seq<Byte>)
    requires AllFrames(frames) && IsFrame(f)
    requires CutAll(frames) <= wire <= CutAll(frames + [f]) && wire != CutAll(frames + [f])
    ensures Read([], wire).delivered == frames && !Read([], wire).failed
  {
    var whole := CutAll(frames);
    CutAllOf(frames, f);
    var out := wire[|whole|..];
    assert wire == whole + out;
    assert out == Cut(f)[..|out|];
    WholeFrames(frames);
    PartSent(f, out);
    ReadConcat([], whole, out);
  }
}
