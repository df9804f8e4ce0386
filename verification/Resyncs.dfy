/** How often the reader resynchronises: what its count says of the reports that were lost. */
module Resyncs {
  import opened Basics
  import opened Frame
  import opened FrameReader
  import opened Carrier

  /** The resyncs a sequence of reports causes, up to a protocol error. */
  function Count(p: seq<Byte>, reports: seq<seq<Byte>>): nat
    requires IsPending(p)
    decreases |reports|
  {
    if reports == [] then 0
    else
      var step := Report(p, reports[0]);
      step.resyncs + if step.result.Error? then 0 else Count(step.pending, reports[1..])
  }

  lemma {:induction false} CountConcat(p: seq<Byte>, a: seq<seq<Byte>>, b: seq<seq<Byte>>)
    requires IsPending(p) && !Read(p, a).failed
    ensures Count(p, a + b) == Count(p, a) + Count(Read(p, a).pending, b)
    decreases |a|
  {
    TailConcat(a, b);
    if a != [] {
      CountConcat(Report(p, a[0]).pending, a[1..], b);
    }
  }

  lemma {:induction false} QuietCount(p: seq<Byte>, reports: seq<seq<Byte>>)
    requires Started(p) && AllContinue(reports) && |p| + 63 * |reports| < Total(p)
    ensures Count(p, reports) == 0
    decreases |reports|
  {
    if reports != [] {
      ContinueOne(p, reports[0]);
      QuietCount(p + reports[0][1..], reports[1..]);
    }
  }

  lemma {:induction false} OrphanCount(reports: seq<seq<Byte>>)
    requires AllContinue(reports)
    ensures Count([], reports) == |reports|
  {
    if reports != [] {
      OrphanCount(reports[1..]);
    }
  }

  lemma LastCount(p: seq<Byte>, report: seq<Byte>)
    requires Started(p) && Continues(report) && |p| + STREAM_SIZE >= Total(p)
    ensures Count(p, [report]) == if AllPad((p + report[1..])[Total(p)..]) then 0 else 1
  {
    ContinueOne(p, report);
    assert [report][1..] == [];
  }

  /** Continuations in a frame in progress: none until it ends, one if it ends on another's bytes, and one for each after that. */
  lemma ContinuesCount(p: seq<Byte>, reports: seq<seq<Byte>>)
    requires Started(p) && AllContinue(reports)
    ensures Count(p, reports)
         == if |reports| < Needs(p) then 0
            else (if Completes(p, reports) then 0 else 1) + |reports| - Needs(p)
  {
    if |reports| < Needs(p) {
      QuietCount(p, reports);
    } else {
      EndCount(p, reports, Needs(p));
    }
  }

  lemma EndCount(p: seq<Byte>, reports: seq<seq<Byte>>, k: nat)
    requires Started(p) && AllContinue(reports) && k == Needs(p) <= |reports|
    ensures Count(p, reports) == (if Completes(p, reports) then 0 else 1) + |reports| - k
  {
    var early, last, late := reports[..k - 1], reports[k - 1], reports[k..];
    SplitAround(p, reports, k);
    TooFew(p, early);
    QuietCount(p, early);
    var begun := p + Streams(early);
    LastCount(begun, last);
    ReadLast(begun, last);
    OrphanCount(late);
    CountConcat(begun, [last], late);
    CountConcat(p, early, [last] + late);
  }

  lemma StartCount(p: seq<Byte>, f: seq<Byte>)
    requires IsPending(p) && IsFrame(f)
    ensures Report(p, ReportAt(f, 0)).resyncs == if p == [] then 0 else 1
  {
    StartReport(p, f);
    StartReport([], f);
  }

  /** What one frame's reports cause, by what was in progress and what was lost alone. */
  function Expected(p: seq<Byte>, f: seq<Byte>, mask: seq<bool>): nat
    requires p == [] || Started(p)
    requires IsFrame(f) && |mask| == |Cut(f)|
  {
    var kept := Continuations(f, mask);
    if StartKept(mask) then (if p == [] then 0 else 1)
    else if p == [] then |kept|
    else if |kept| < Needs(p) then 0
    else (if Completes(p, kept) then 0 else 1) + |kept| - Needs(p)
  }

  lemma FrameCount(p: seq<Byte>, f: seq<Byte>, mask: seq<bool>)
    requires p == [] || Started(p)
    requires IsFrame(f) && |mask| == |Cut(f)|
    ensures Count(p, Keep(Cut(f), mask)) == Expected(p, f, mask)
  {
    KeptReports(f, mask);
    var kept := Continuations(f, mask);
    if StartKept(mask) {
      StartedCount(p, f, mask);
    } else {
      assert [] + kept == kept;
      if p == [] {
        OrphanCount(kept);
      } else {
        ContinuesCount(p, kept);
      }
    }
  }

  lemma StartedCount(p: seq<Byte>, f: seq<Byte>, mask: seq<bool>)
    requires IsPending(p) && IsFrame(f) && |mask| == |Cut(f)| && StartKept(mask)
    ensures Count(p, [ReportAt(f, 0)] + Continuations(f, mask)) == if p == [] then 0 else 1
  {
    var kept := Continuations(f, mask);
    assert ([ReportAt(f, 0)] + kept)[1..] == kept;
    StartCount(p, f);
    StartReport(p, f);
    if |f| <= STREAM_SIZE {
      assert CutFrom(f, Least(|f|, STREAM_SIZE)) == [];
      assert kept == [];
    } else {
      TailCompletes(f);
      KeptFew(f, mask);
      ContinuesCount(f[..STREAM_SIZE], kept);
      if |kept| == Needs(f[..STREAM_SIZE]) {
        WholeTail(f, mask);
      }
    }
  }

  lemma KeptFew(f: seq<Byte>, mask: seq<bool>)
    requires IsFrame(f) && |mask| == |Cut(f)| && |f| > STREAM_SIZE
    ensures |Continuations(f, mask)| <= |CutFrom(f, STREAM_SIZE)|
    ensures |Continuations(f, mask)| == |CutFrom(f, STREAM_SIZE)| ==> Continuations(f, mask) == CutFrom(f, STREAM_SIZE)
  {
    KeepSome(CutFrom(f, STREAM_SIZE), mask[1..]);
    if |Continuations(f, mask)| == |CutFrom(f, STREAM_SIZE)| {
      KeepAll(CutFrom(f, STREAM_SIZE), mask[1..]);
    }
  }

  /** A frame's own continuations, all of them, end it well. */
  lemma WholeTail(f: seq<Byte>, mask: seq<bool>)
    requires IsFrame(f) && |mask| == |Cut(f)| && |f| > STREAM_SIZE && Started(f[..STREAM_SIZE])
    requires Continuations(f, mask) == CutFrom(f, STREAM_SIZE)
    ensures Completes(f[..STREAM_SIZE], Continuations(f, mask))
  {
    TailCompletes(f);
    Enough(f[..STREAM_SIZE], CutFrom(f, STREAM_SIZE));
  }

  /** The total for any frames and any loss. */
  function AllExpected(p: seq<Byte>, frames: seq<seq<Byte>>, masks: seq<seq<bool>>): nat
    requires p == [] || Started(p)
    requires AllFrames(frames) && Masks(frames, masks)
    decreases |frames|
  {
    if frames == [] then 0
    else
      FrameStep(p, frames[0], masks[0]);
      Expected(p, frames[0], masks[0]) + AllExpected(Leftover(p, frames[0], masks[0]), frames[1..], masks[1..])
  }

  /**
    * For every sequence of frames and every loss, the reader's count of resyncs is what
    * the losses amount to: one for each frame cut short by the start of another, one for
    * each continuation of a frame whose start was lost with nothing in progress, and one
    * for each frame that ended on another's bytes.
    */
  lemma {:induction false} ResyncsAreLosses(p: seq<Byte>, frames: seq<seq<Byte>>, masks: seq<seq<bool>>)
    requires p == [] || Started(p)
    requires AllFrames(frames) && Masks(frames, masks)
    ensures Count(p, Arrived(frames, masks)) == AllExpected(p, frames, masks)
    decreases |frames|
  {
    if frames != [] {
      FrameStep(p, frames[0], masks[0]);
      FrameCount(p, frames[0], masks[0]);
      CountConcat(p, Keep(Cut(frames[0]), masks[0]), Arrived(frames[1..], masks[1..]));
      ResyncsAreLosses(Leftover(p, frames[0], masks[0]), frames[1..], masks[1..]);
    }
  }

  /** And none on a carrier that loses nothing. */
  lemma {:induction false} NoLossNoResync(frames: seq<seq<Byte>>, masks: seq<seq<bool>>)
    requires AllFrames(frames) && Masks(frames, masks) && forall i :: 0 <= i < |masks| ==> AllKept(masks[i])
    ensures AllExpected([], frames, masks) == 0
    decreases |frames|
  {
    if frames != [] {
      CutLength(frames[0], 0);
      FrameStep([], frames[0], masks[0]);
      assert AllKept(masks[0]) && Leftover([], frames[0], masks[0]) == [];
      NoLossNoResync(frames[1..], masks[1..]);
    }
  }
}
