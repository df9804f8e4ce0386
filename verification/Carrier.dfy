/**
  * The lossy report carrier. Frames are cut into 64-byte reports as the emitter
  * does; any subset of the reports may be lost; the reader bridges the gaps.
  */
module Carrier {
  import opened Basics
  import opened Frame
  import opened FrameReader

  /* ---------------------------------------------------------------- emitter */

  function Padding(n: nat): seq<Byte> {
    seq(n, _ => PAD)
  }

  /** The report that carries a frame from offset `sent` on. */
  function ReportAt(f: seq<Byte>, sent: nat): (r: seq<Byte>)
    requires sent < |f|
    ensures |r| == REPORT_SIZE
  {
    var take := Least(|f| - sent, STREAM_SIZE);
    [if sent == 0 then FRAME_START else FRAME_CONTINUES] + f[sent..sent + take] + Padding(STREAM_SIZE - take)
  }

  /** All reports of a frame from offset `sent` on. */
  function CutFrom(f: seq<Byte>, sent: nat): seq<seq<Byte>>
    requires sent <= |f|
    decreases |f| - sent
  {
    if sent == |f| then []
    else [ReportAt(f, sent)] + CutFrom(f, sent + Least(|f| - sent, STREAM_SIZE))
  }

  function Cut(f: seq<Byte>): seq<seq<Byte>> {
    CutFrom(f, 0)
  }

  /** How many reports a number of stream bytes needs. */
  function ReportsFor(n: nat): nat {
    (n + 62) / 63
  }

  lemma {:induction false} CutLength(f: seq<Byte>, sent: nat)
    requires sent <= |f|
    ensures |CutFrom(f, sent)| == ReportsFor(|f| - sent)
    decreases |f| - sent
  {
    if sent < |f| {
      CutLength(f, sent + Least(|f| - sent, STREAM_SIZE));
    }
  }

  /* ------------------------------------------------------------------- loss */

  /** The reports of a sequence that a loss mask keeps. */
  function Keep<T>(s: seq<T>, mask: seq<bool>): seq<T>
    requires |mask| == |s|
  {
    if s == [] then []
    else (if mask[0] then [s[0]] else []) + Keep(s[1..], mask[1..])
  }

  predicate AllKept(mask: seq<bool>) {
    forall i :: 0 <= i < |mask| ==> mask[i]
  }

  /** One mask a frame, one bit a report. */
  predicate Masks(frames: seq<seq<Byte>>, masks: seq<seq<bool>>) {
    && |masks| == |frames|
    && forall i :: 0 <= i < |frames| ==> |masks[i]| == |Cut(frames[i])|
  }

  predicate AllFrames(frames: seq<seq<Byte>>) {
    forall i :: 0 <= i < |frames| ==> IsFrame(frames[i])
  }

  function Arrived(frames: seq<seq<Byte>>, masks: seq<seq<bool>>): seq<seq<Byte>>
    requires Masks(frames, masks)
  {
    if frames == [] then [] else Keep(Cut(frames[0]), masks[0]) + Arrived(frames[1..], masks[1..])
  }

  /** The frames every report of which arrived, in order. */
  function Intact(frames: seq<seq<Byte>>, masks: seq<seq<bool>>): seq<seq<Byte>>
    requires Masks(frames, masks)
  {
    if frames == [] then []
    else (if AllKept(masks[0]) then [frames[0]] else []) + Intact(frames[1..], masks[1..])
  }

  predicate StartKept(mask: seq<bool>) {
    mask != [] && mask[0]
  }

  /* ----------------------------------------------------------------- reader */

  datatype Run = Run(delivered: seq<seq<Byte>>, pending: seq<Byte>, failed: bool) {
    function After(earlier: seq<seq<Byte>>): Run {
      this.(delivered := earlier + delivered)
    }
  }

  /** The reader over a sequence of reports; a protocol error ends the session. */
  function Read(p: seq<Byte>, reports: seq<seq<Byte>>): (run: Run)
    requires IsPending(p)
    ensures IsPending(run.pending)
    decreases |reports|
  {
    if reports == [] then Run([], p, false)
    else
      var step := Report(p, reports[0]);
      match step.result
      case Error(_) => Run([], step.pending, true)
      case Again => Read(step.pending, reports[1..])
      case Ok(frame) => Read(step.pending, reports[1..]).After([frame])
  }

  lemma AfterTwice(r: Run, a: seq<seq<Byte>>, b: seq<seq<Byte>>)
    ensures r.After(b).After(a) == r.After(a + b)
  {
    assert a + (b + r.delivered) == (a + b) + r.delivered;
  }

  lemma AfterNothing(r: Run)
    ensures r.After([]) == r
  {
    assert [] + r.delivered == r.delivered;
  }

  /** A run over two sequences of reports is the run over the second from where the first left off. */
  lemma {:induction false} ReadConcat(p: seq<Byte>, a: seq<seq<Byte>>, b: seq<seq<Byte>>)
    requires IsPending(p)
    ensures var first := Read(p, a);
            Read(p, a + b) == if first.failed then first else Read(first.pending, b).After(first.delivered)
    decreases |a|
  {
    if a == [] {
      assert a + b == b;
      AfterNothing(Read(p, b));
    } else {
      assert (a + b)[1..] == a[1..] + b;
      var step := Report(p, a[0]);
      ReadConcat(step.pending, a[1..], b);
      if step.result.Ok? {
        var rest := Read(step.pending, a[1..]);
        AfterTwice(Read(rest.pending, b), [step.result.frame], rest.delivered);
      }
    }
  }

  /* ----------------------------------------------- the frame in progress */

  /** A frame in progress whose header has been read. */
  predicate Started(p: seq<Byte>) {
    IsPending(p) && |p| >= HEADER_SIZE
  }

  function Total(p: seq<Byte>): nat
    requires Started(p)
  {
    HEADER_SIZE + ParseHeader(p).hdr.len
  }

  predicate Continues(report: seq<Byte>) {
    |report| == REPORT_SIZE && report[0] != FRAME_START
  }

  predicate AllContinue(reports: seq<seq<Byte>>) {
    forall i :: 0 <= i < |reports| ==> Continues(reports[i])
  }

  function Streams(reports: seq<seq<Byte>>): (s: seq<Byte>)
    requires AllContinue(reports)
    ensures |s| == 63 * |reports|
  {
    if reports == [] then [] else reports[0][1..] + Streams(reports[1..])
  }

  /** One continuation report in a frame in progress, in the three ways it can go. */
  lemma ContinueOne(p: seq<Byte>, report: seq<Byte>)
    requires Started(p) && Continues(report)
    ensures var step := Report(p, report);
            var all := p + report[1..];
            var total := Total(p);
            if |all| < total then step == ReportStep(Again, all, 0) && Started(all) && Total(all) == total
            else if AllPad(all[total..]) then step == ReportStep(Ok(all[..total]), [], 0)
            else step == ReportStep(Again, [], 1)
  {
    var data := report[1..];
    var all := p + data;
    var total := Total(p);
    PartialExtends(p, data);
    if |all| >= total {
      var consumed := total - |p|;
      assert Push(p, data).consumed == consumed;
      assert all[total..] == report[1 + consumed..];
    }
  }

  /** Continuations that do not reach the end of a frame in progress only add to it. */
  lemma {:induction false} TooFew(p: seq<Byte>, reports: seq<seq<Byte>>)
    requires Started(p) && AllContinue(reports) && |p| + 63 * |reports| < Total(p)
    ensures var all := p + Streams(reports);
            Read(p, reports) == Run([], all, false) && Started(all) && Total(all) == Total(p)
    decreases |reports|
  {
    if reports == [] {
      assert p + Streams(reports) == p;
    } else {
      ContinueOne(p, reports[0]);
      var all := p + reports[0][1..];
      TooFew(all, reports[1..]);
      Regroup(p, reports[0][1..], Streams(reports[1..]));
    }
  }

  /** Continuations with nothing in progress are thrown away. */
  lemma {:induction false} Orphans(reports: seq<seq<Byte>>)
    requires AllContinue(reports)
    ensures Read([], reports) == Run([], [], false)
  {
    if reports != [] {
      Orphans(reports[1..]);
    }
  }

  lemma {:induction false} StreamsAppend(reports: seq<seq<Byte>>, last: seq<Byte>)
    requires AllContinue(reports) && Continues(last)
    ensures Streams(reports + [last]) == Streams(reports) + last[1..]
    decreases |reports|
  {
    if reports == [] {
      assert reports + [last] == [last];
    } else {
      assert (reports + [last])[1..] == reports[1..] + [last];
      StreamsAppend(reports[1..], last);
    }
  }

  lemma ReadLast(p: seq<Byte>, report: seq<Byte>)
    requires Started(p) && Continues(report) && |p| + STREAM_SIZE >= Total(p)
    ensures var all := p + report[1..];
            Read(p, [report]) == Run(if AllPad(all[Total(p)..]) then [all[..Total(p)]] else [], [], false)
  {
    ContinueOne(p, report);
    var step := Report(p, report);
    assert [report][1..] == [];
    assert Read(step.pending, []) == Run([], [], false);
  }

  /** How many continuations a frame in progress still needs. */
  function Needs(p: seq<Byte>): (k: nat)
    requires Started(p)
    ensures k >= 1 && |p| + 63 * (k - 1) < Total(p) <= |p| + 63 * k
  {
    ReportsFor(Total(p) - |p|)
  }

  /** Whether continuations complete a frame in progress: enough of them, and only padding after its last byte. */
  predicate Completes(p: seq<Byte>, reports: seq<seq<Byte>>)
    requires Started(p) && AllContinue(reports)
  {
    Needs(p) <= |reports| && AllPad((p + Streams(reports[..Needs(p)]))[Total(p)..])
  }

  lemma EndedBy(p: seq<Byte>, early: seq<seq<Byte>>, last: seq<Byte>, late: seq<seq<Byte>>)
    requires Started(p) && AllContinue(early) && Continues(last) && AllContinue(late)
    requires |p| + 63 * |early| < Total(p) <= |p| + 63 * |early| + 63
    ensures var all := p + Streams(early) + last[1..];
            Read(p, early + ([last] + late)) ==
            Run(if AllPad(all[Total(p)..]) then [all[..Total(p)]] else [], [], false)
  {
    TooFew(p, early);
    var begun := p + Streams(early);
    ReadLast(begun, last);
    ReadConcat(begun, [last], late);
    Orphans(late);
    var ended := Read(begun, [last]);
    assert ended.delivered + [] == ended.delivered;
    ReadConcat(p, early, [last] + late);
    AfterNothing(Read(begun, [last] + late));
  }

  /** The frame in progress, ended by the continuations it needs. */
  lemma Enough(p: seq<Byte>, reports: seq<seq<Byte>>)
    requires Started(p) && AllContinue(reports) && Needs(p) <= |reports|
    ensures Read(p, reports) ==
            Run(if Completes(p, reports) then [(p + Streams(reports[..Needs(p)]))[..Total(p)]] else [], [], false)
  {
    var k := Needs(p);
    var early, last, late := reports[..k - 1], reports[k - 1], reports[k..];
    SplitAround(p, reports, k);
    EndedBy(p, early, last, late);
  }

  lemma SplitAround(p: seq<Byte>, reports: seq<seq<Byte>>, k: nat)
    requires AllContinue(reports) && 0 < k <= |reports|
    ensures reports == reports[..k - 1] + ([reports[k - 1]] + reports[k..])
    ensures p + Streams(reports[..k - 1]) + reports[k - 1][1..] == p + Streams(reports[..k])
  {
    StreamsAppend(reports[..k - 1], reports[k - 1]);
    assert reports[..k] == reports[..k - 1] + [reports[k - 1]];
  }

  /**
    * Exactly what continuations do to a frame in progress, whosever bytes they
    * carry: too few leave it in progress, enough of them end it, and it is
    * delivered if and only if what follows its last byte is padding.
    */
  lemma ContinueMany(p: seq<Byte>, reports: seq<seq<Byte>>)
    requires Started(p) && AllContinue(reports)
    ensures var run := Read(p, reports);
            && !run.failed
            && (run.pending == [] || Started(run.pending))
            && run.pending == (if Needs(p) <= |reports| then [] else p + Streams(reports))
            && run.delivered ==
               if Completes(p, reports) then [(p + Streams(reports[..Needs(p)]))[..Total(p)]] else []
  {
    if Needs(p) <= |reports| {
      Enough(p, reports);
    } else {
      TooFew(p, reports);
    }
  }

  /* ------------------------------------------------------ one frame's reports */

  /** The start report of a frame begins it, whatever was in progress. */
  lemma StartReport(p: seq<Byte>, f: seq<Byte>)
    requires IsPending(p) && IsFrame(f)
    ensures var step := Report(p, ReportAt(f, 0));
            if |f| <= STREAM_SIZE then step.result == Ok(f) && step.pending == []
            else step.result == Again && step.pending == f[..STREAM_SIZE] && Started(step.pending)
                 && Total(step.pending) == |f|
  {
    var report := ReportAt(f, 0);
    var data := report[1..];
    if |f| <= STREAM_SIZE {
      assert data == f + Padding(STREAM_SIZE - |f|);
      PushOk([], data, f, Padding(STREAM_SIZE - |f|));
      assert report[1 + |f|..] == Padding(STREAM_SIZE - |f|);
    } else {
      assert data == f[..STREAM_SIZE];
      assert ParseHeader(data) == ParseHeader(f);
    }
  }

  lemma {:induction false} TailContinues(f: seq<Byte>, sent: nat)
    requires 0 < sent <= |f|
    ensures AllContinue(CutFrom(f, sent))
    decreases |f| - sent
  {
    if sent < |f| {
      TailContinues(f, sent + Least(|f| - sent, STREAM_SIZE));
    }
  }

  lemma {:induction false} TailStream(f: seq<Byte>, sent: nat)
    requires 0 < sent <= |f|
    ensures AllContinue(CutFrom(f, sent))
    ensures |f| - sent <= |Streams(CutFrom(f, sent))|
    ensures Streams(CutFrom(f, sent)) == f[sent..] + Padding(|Streams(CutFrom(f, sent))| - (|f| - sent))
    decreases |f| - sent
  {
    TailContinues(f, sent);
    if sent < |f| {
      var take := Least(|f| - sent, STREAM_SIZE);
      var next := sent + take;
      TailStream(f, next);
      var rest := Streams(CutFrom(f, next));
      assert CutFrom(f, sent)[1..] == CutFrom(f, next);
      StreamJoin(f, sent, next, rest);
    }
  }

  lemma StreamJoin(f: seq<Byte>, sent: nat, next: nat, rest: seq<Byte>)
    requires sent < |f| && next == sent + Least(|f| - sent, STREAM_SIZE)
    requires |f| - next <= |rest| && rest == f[next..] + Padding(|rest| - (|f| - next))
    requires next == |f| ==> rest == []
    ensures var all := ReportAt(f, sent)[1..] + rest;
            |f| - sent <= |all| && all == f[sent..] + Padding(|all| - (|f| - sent))
  {
    var report := ReportAt(f, sent);
    assert report[1..] == f[sent..next] + Padding(STREAM_SIZE - (next - sent));
  }

  lemma KeepAll<T>(s: seq<T>, mask: seq<bool>)
    requires |mask| == |s| && AllKept(mask)
    ensures Keep(s, mask) == s
  {
    if s != [] {
      KeepAll(s[1..], mask[1..]);
    }
  }

  lemma {:induction false} KeepSome<T>(s: seq<T>, mask: seq<bool>)
    requires |mask| == |s|
    ensures |Keep(s, mask)| <= |s|
    ensures |Keep(s, mask)| == |s| ==> AllKept(mask)
    ensures forall x :: x in Keep(s, mask) ==> x in s
  {
    if s != [] {
      KeepSome(s[1..], mask[1..]);
      assert s == [s[0]] + s[1..];
      assert mask == [mask[0]] + mask[1..];
    }
  }

  lemma KeptTailContinues(f: seq<Byte>, sent: nat, mask: seq<bool>)
    requires 0 < sent <= |f| && |mask| == |CutFrom(f, sent)|
    ensures AllContinue(Keep(CutFrom(f, sent), mask))
  {
    TailContinues(f, sent);
    KeepSome(CutFrom(f, sent), mask);
    var kept := Keep(CutFrom(f, sent), mask);
    forall i | 0 <= i < |kept|
      ensures Continues(kept[i])
    {
      assert kept[i] in kept;
    }
  }

  /** The continuation reports of a frame that a loss mask keeps. */
  function Continuations(f: seq<Byte>, mask: seq<bool>): (kept: seq<seq<Byte>>)
    requires IsFrame(f) && |mask| == |Cut(f)|
    ensures AllContinue(kept)
  {
    KeptTailContinues(f, Least(|f|, STREAM_SIZE), mask[1..]);
    Keep(CutFrom(f, Least(|f|, STREAM_SIZE)), mask[1..])
  }

  lemma KeptReports(f: seq<Byte>, mask: seq<bool>)
    requires IsFrame(f) && |mask| == |Cut(f)|
    ensures Keep(Cut(f), mask) == (if StartKept(mask) then [ReportAt(f, 0)] else []) + Continuations(f, mask)
  {
    assert Cut(f)[0] == ReportAt(f, 0) && Cut(f)[1..] == CutFrom(f, Least(|f|, STREAM_SIZE));
  }

  /** The continuations of a frame finish what its start began. */
  lemma TailCompletes(f: seq<Byte>)
    requires IsFrame(f) && |f| > STREAM_SIZE
    ensures Started(f[..STREAM_SIZE]) && Total(f[..STREAM_SIZE]) == |f|
    ensures AllContinue(CutFrom(f, STREAM_SIZE))
    ensures Needs(f[..STREAM_SIZE]) == |CutFrom(f, STREAM_SIZE)|
    ensures Read(f[..STREAM_SIZE], CutFrom(f, STREAM_SIZE)) == Run([f], [], false)
  {
    var begun := f[..STREAM_SIZE];
    assert ParseHeader(begun) == ParseHeader(f);
    var tail := CutFrom(f, STREAM_SIZE);
    TailStream(f, STREAM_SIZE);
    CutLength(f, STREAM_SIZE);
    Enough(begun, tail);
    assert tail[..|tail|] == tail;
    HeadTailPad(f, STREAM_SIZE, Padding(|Streams(tail)| - (|f| - STREAM_SIZE)));
  }

  lemma HeadTailPad<T>(f: seq<T>, n: nat, pad: seq<T>)
    requires n <= |f|
    ensures var all := f[..n] + (f[n..] + pad); all[..|f|] == f && all[|f|..] == pad
  {
    assert f[..n] + (f[n..] + pad) == f + pad;
  }

  /** A frame all of whose reports arrive is delivered, intact and alone, whatever the reader held before. */
  lemma WholeFrame(p: seq<Byte>, f: seq<Byte>)
    requires IsPending(p) && IsFrame(f)
    ensures Read(p, Cut(f)) == Run([f], [], false)
  {
    StartReport(p, f);
    var tail := CutFrom(f, Least(|f|, STREAM_SIZE));
    assert Cut(f)[0] == ReportAt(f, 0) && Cut(f)[1..] == tail;
    if |f| > STREAM_SIZE {
      TailCompletes(f);
    } else {
      assert Read([], tail) == Run([], [], false);
    }
  }

  /** A frame whose start arrives and some other report does not delivers nothing, and stays in progress. */
  lemma BrokenFrame(p: seq<Byte>, f: seq<Byte>, mask: seq<bool>)
    requires IsPending(p) && IsFrame(f) && |mask| == |Cut(f)|
    requires StartKept(mask) && !AllKept(mask)
    ensures var run := Read(p, Keep(Cut(f), mask));
            && run.delivered == [] && !run.failed && Started(run.pending)
            && run.pending == f[..Least(|f|, STREAM_SIZE)] + Streams(Continuations(f, mask))
  {
    StartReport(p, f);
    KeptReports(f, mask);
    var kept := Continuations(f, mask);
    assert ([ReportAt(f, 0)] + kept)[1..] == kept;
    LostSome(CutFrom(f, Least(|f|, STREAM_SIZE)), mask);
    assert |f| > STREAM_SIZE;
    TailCompletes(f);
    TooFew(f[..STREAM_SIZE], kept);
  }

  lemma LostSome<T>(s: seq<T>, mask: seq<bool>)
    requires |mask| == |s| + 1 && StartKept(mask) && !AllKept(mask)
    ensures |Keep(s, mask[1..])| < |s|
  {
    KeepSome(s, mask[1..]);
    assert mask == [true] + mask[1..];
  }

  /** A frame whose start is lost: what is left of it can only add to the frame in progress, or end it. */
  lemma HeadlessFrame(p: seq<Byte>, f: seq<Byte>, mask: seq<bool>)
    requires p == [] || Started(p)
    requires IsFrame(f) && |mask| == |Cut(f)| && !StartKept(mask)
    ensures var kept := Continuations(f, mask);
            var run := Read(p, Keep(Cut(f), mask));
            && !run.failed
            && (run.pending == [] || Started(run.pending))
            && run.pending == (if p == [] || Needs(p) <= |kept| then [] else p + Streams(kept))
            && |run.delivered| == if p != [] && Completes(p, kept) then 1 else 0
  {
    KeptReports(f, mask);
    var kept := Continuations(f, mask);
    assert [] + kept == kept;
    if p == [] {
      Orphans(kept);
    } else {
      ContinueMany(p, kept);
    }
  }

  /* --------------------------------------------------------- any loss at all */

  /** Whether the reports left of a headless frame complete the frame in progress before it. */
  predicate Borrows(p: seq<Byte>, f: seq<Byte>, mask: seq<bool>)
    requires p == [] || Started(p)
    requires IsFrame(f) && |mask| == |Cut(f)|
  {
    !StartKept(mask) && p != [] && Completes(p, Continuations(f, mask))
  }

  /** What of it all is in progress once a frame's reports have gone by: a start's bytes and the continuations since. */
  function Leftover(p: seq<Byte>, f: seq<Byte>, mask: seq<bool>): seq<Byte>
    requires p == [] || Started(p)
    requires IsFrame(f) && |mask| == |Cut(f)|
  {
    var kept := Continuations(f, mask);
    if AllKept(mask) then []
    else if StartKept(mask) then f[..Least(|f|, STREAM_SIZE)] + Streams(kept)
    else if p == [] || Needs(p) <= |kept| then []
    else p + Streams(kept)
  }

  /** How one frame's reports leave the reader. */
  lemma FrameStep(p: seq<Byte>, f: seq<Byte>, mask: seq<bool>)
    requires p == [] || Started(p)
    requires IsFrame(f) && |mask| == |Cut(f)|
    ensures var run := Read(p, Keep(Cut(f), mask));
            && !run.failed
            && (run.pending == [] || Started(run.pending))
            && run.pending == Leftover(p, f, mask)
            && (AllKept(mask) ==> run.delivered == [f])
            && (!AllKept(mask) && StartKept(mask) ==> run.delivered == [])
            && (!StartKept(mask) ==> |run.delivered| == if Borrows(p, f, mask) then 1 else 0)
            && (AllKept(mask) ==> StartKept(mask))
  {
    CutLength(f, 0);
    if AllKept(mask) {
      KeepAll(Cut(f), mask);
      WholeFrame(p, f);
    } else if StartKept(mask) {
      BrokenFrame(p, f, mask);
    } else {
      HeadlessFrame(p, f, mask);
    }
  }

  /** No headless frame completes the frame in progress before it: a matter of the frames and the losses, with no reader in it. */
  predicate NoBorrowing(p: seq<Byte>, frames: seq<seq<Byte>>, masks: seq<seq<bool>>)
    requires p == [] || Started(p)
    requires AllFrames(frames) && Masks(frames, masks)
    decreases |frames|
  {
    frames == [] ||
    (FrameStep(p, frames[0], masks[0]);
     && !Borrows(p, frames[0], masks[0])
     && NoBorrowing(Leftover(p, frames[0], masks[0]), frames[1..], masks[1..]))
  }

  /** The parts a run falls into, one a frame: what was delivered while its reports arrived. */
  predicate Accounts(parts: seq<seq<seq<Byte>>>, frames: seq<seq<Byte>>, masks: seq<seq<bool>>)
    requires Masks(frames, masks)
  {
    && |parts| == |frames|
    && forall i :: 0 <= i < |frames| ==>
      && |parts[i]| <= 1
      && (AllKept(masks[i]) ==> parts[i] == [frames[i]])
      && (!AllKept(masks[i]) && StartKept(masks[i]) ==> parts[i] == [])
  }

  function Join(parts: seq<seq<seq<Byte>>>): seq<seq<Byte>> {
    if parts == [] then [] else parts[0] + Join(parts[1..])
  }

  lemma {:induction false} LossyFrom(p: seq<Byte>, frames: seq<seq<Byte>>, masks: seq<seq<bool>>)
    returns (parts: seq<seq<seq<Byte>>>)
    requires p == [] || Started(p)
    requires AllFrames(frames) && Masks(frames, masks)
    ensures var run := Read(p, Arrived(frames, masks));
            && !run.failed
            && (run.pending == [] || Started(run.pending))
            && run.delivered == Join(parts)
            && Accounts(parts, frames, masks)
            && |run.delivered| >= |Intact(frames, masks)|
            && (NoBorrowing(p, frames, masks) ==> run.delivered == Intact(frames, masks))
            && (!NoBorrowing(p, frames, masks) ==> |run.delivered| > |Intact(frames, masks)|)
    decreases |frames|
  {
    if frames == [] {
      parts := [];
    } else {
      var kept := Keep(Cut(frames[0]), masks[0]);
      FrameStep(p, frames[0], masks[0]);
      var first := Read(p, kept);
      var rest := LossyFrom(first.pending, frames[1..], masks[1..]);
      ReadConcat(p, kept, Arrived(frames[1..], masks[1..]));
      parts := [first.delivered] + rest;
      AccountsCons(first.delivered, rest, frames, masks);
    }
  }

  lemma AccountsCons(first: seq<seq<Byte>>, rest: seq<seq<seq<Byte>>>, frames: seq<seq<Byte>>, masks: seq<seq<bool>>)
    requires frames != [] && Masks(frames, masks) && Accounts(rest, frames[1..], masks[1..])
    requires |first| <= 1 && (AllKept(masks[0]) ==> first == [frames[0]])
    requires !AllKept(masks[0]) && StartKept(masks[0]) ==> first == []
    ensures Accounts([first] + rest, frames, masks) && Join([first] + rest) == first + Join(rest)
  {
    assert ([first] + rest)[1..] == rest;
  }

  /**
    * The lossy carrier, for every sequence of frames and every loss. No
    * protocol error occurs. Every frame whose reports all arrive is delivered
    * once, intact and in its place; a frame that lost any report but its start
    * delivers nothing. What is delivered is exactly the intact frames if and
    * only if no headless frame borrows its way into the one before it.
    */
  lemma LossyCarrier(frames: seq<seq<Byte>>, masks: seq<seq<bool>>) returns (parts: seq<seq<seq<Byte>>>)
    requires AllFrames(frames) && Masks(frames, masks)
    ensures var run := Read([], Arrived(frames, masks));
            && !run.failed
            && run.delivered == Join(parts)
            && Accounts(parts, frames, masks)
            && (run.delivered == Intact(frames, masks) <==> NoBorrowing([], frames, masks))
  {
    parts := LossyFrom([], frames, masks);
  }

  lemma {:induction false} StartsKeptNeverBorrow(p: seq<Byte>, frames: seq<seq<Byte>>, masks: seq<seq<bool>>)
    requires p == [] || Started(p)
    requires AllFrames(frames) && Masks(frames, masks)
    requires forall i :: 0 <= i < |masks| ==> StartKept(masks[i])
    ensures NoBorrowing(p, frames, masks)
    decreases |frames|
  {
    if frames != [] {
      FrameStep(p, frames[0], masks[0]);
      StartsKeptNeverBorrow(Leftover(p, frames[0], masks[0]), frames[1..], masks[1..]);
    }
  }

  /** If no frame-start report is lost, nothing is ever delivered but the intact frames. */
  lemma NoStartLost(frames: seq<seq<Byte>>, masks: seq<seq<bool>>)
    requires AllFrames(frames) && Masks(frames, masks)
    requires forall i :: 0 <= i < |masks| ==> StartKept(masks[i])
    ensures Read([], Arrived(frames, masks)).delivered == Intact(frames, masks)
  {
    var parts := LossyCarrier(frames, masks);
    StartsKeptNeverBorrow([], frames, masks);
  }

  /**
    * Why the side condition is needed: two frames of exactly two full reports,
    * the first losing its last report and the second its start. What is
    * delivered is the head of one and the tail of the other.
    */
  lemma BorrowedTail(a: seq<Byte>, b: seq<Byte>)
    requires IsFrame(a) && IsFrame(b) && |a| == |b| == 126
    ensures |Cut(a)| == |Cut(b)| == 2
    ensures Read([], Arrived([a, b], [[true, false], [false, true]])).delivered == [a[..63] + b[63..]]
  {
    TwoReports(a);
    TwoReports(b);
    ArrivedTwo(a, b);
    HeadThenTail(a, b);
  }

  lemma ArrivedTwo(a: seq<Byte>, b: seq<Byte>)
    requires |a| == |b| == 126
    requires |Cut(a)| == |Cut(b)| == 2
    ensures Arrived([a, b], [[true, false], [false, true]]) == [ReportAt(a, 0), ReportAt(b, 63)]
  {
    TwoReports(a);
    TwoReports(b);
    KeepTwo(ReportAt(a, 0), ReportAt(a, 63));
    KeepTwo(ReportAt(b, 0), ReportAt(b, 63));
    var masks := [[true, false], [false, true]];
    var rest: seq<seq<Byte>>, lost: seq<seq<bool>> := [b], [[false, true]];
    assert [a, b][1..] == rest && masks[1..] == lost;
    assert rest[1..] == [] && lost[1..] == [];
    assert Arrived(rest, lost) == [ReportAt(b, 63)] + [];
  }

  lemma HeadThenTail(a: seq<Byte>, b: seq<Byte>)
    requires IsFrame(a) && |a| == |b| == 126
    ensures Read([], [ReportAt(a, 0), ReportAt(b, 63)]).delivered == [a[..63] + b[63..]]
  {
    var begun, tail := ReportAt(a, 0), ReportAt(b, 63);
    StartReport([], a);
    assert tail[1..] == b[63..];
    ReadLast(a[..63], tail);
    var all := a[..63] + tail[1..];
    assert all[126..] == [] && all[..126] == all;
    assert [begun, tail][1..] == [tail];
  }

  lemma KeepTwo<T>(x: T, y: T)
    ensures Keep([x, y], [true, false]) == [x]
    ensures Keep([x, y], [false, true]) == [y]
  {
    assert [x, y][1..] == [y] && [true, false][1..] == [false] && [false, true][1..] == [true];
    var none: seq<T> := [];
    assert [y][1..] == none;
    assert Keep([y], [true]) == [y] + none;
    assert Keep([y], [false]) == none + none;
  }

  lemma TwoReports(f: seq<Byte>)
    requires |f| == 126
    ensures Cut(f) == [ReportAt(f, 0), ReportAt(f, 63)]
  {
    assert CutFrom(f, 126) == [];
    assert CutFrom(f, 63) == [ReportAt(f, 63)];
    assert Cut(f) == [ReportAt(f, 0)] + [ReportAt(f, 63)];
  }

  function ChunkOf(fill: Byte): seq<Byte> {
    [0x32, 0, 122, 0] + seq(122, _ => fill)
  }

  /** A loss pattern under which a frame nobody sent is delivered. */
  lemma BrokenDelivery()
    ensures IsFrame(ChunkOf(1)) && IsFrame(ChunkOf(2))
    ensures |Cut(ChunkOf(1))| == |Cut(ChunkOf(2))| == 2
    ensures var delivered := Read([], Arrived([ChunkOf(1), ChunkOf(2)], [[true, false], [false, true]])).delivered;
            |delivered| == 1 && delivered[0] !in [ChunkOf(1), ChunkOf(2)]
  {
    var a, b := ChunkOf(1), ChunkOf(2);
    BorrowedTail(a, b);
    MixedIsNew(a, b);
  }

  lemma MixedIsNew(a: seq<Byte>, b: seq<Byte>)
    requires |a| == |b| == 126 && a[62] == a[63] == 1 && b[62] == b[63] == 2
    ensures a[..63] + b[63..] !in [a, b]
  {
    var mixed := a[..63] + b[63..];
    assert mixed[62] == 1 && mixed[63] == 2;
  }

  /** The receiving end, run on the machine: a session's reports until they run out or one is a protocol error. */
  method Receive(r: Reader, reports: seq<seq<Byte>>) returns (delivered: seq<seq<Byte>>, failed: bool)
    requires r.Valid()
    modifies r, r.buf
    ensures r.Valid()
    ensures Run(delivered, r.Pending(), failed) == Read(old(r.Pending()), reports)
  {
    delivered, failed := [], false;
    var i := 0;
    ghost var p := r.Pending();
    assert reports[0..] == reports;
    AfterNothing(Read(p, reports));
    while i < |reports|
      invariant 0 <= i <= |reports|
      invariant r.Valid() && !failed
      invariant Read(p, reports) == Read(r.Pending(), reports[i..]).After(delivered)
    {
      ghost var before := r.Pending();
      var result := r.ReadReport(reports[i]);
      NextReport(before, reports, i, delivered, result, r.Pending());
      if result.Error? {
        failed := true;
        return;
      }
      if result.Ok? {
        delivered := delivered + [result.frame];
      }
      i := i + 1;
    }
  }

  lemma NextReport(p: seq<Byte>, reports: seq<seq<Byte>>, i: nat, delivered: seq<seq<Byte>>, result: Result, next: seq<Byte>)
    requires IsPending(p) && IsPending(next) && i < |reports|
    requires Report(p, reports[i]).result == result && Report(p, reports[i]).pending == next
    ensures var run := Read(p, reports[i..]).After(delivered);
            match result
            case Error(_) => run == Run(delivered, next, true)
            case Again => run == Read(next, reports[i + 1..]).After(delivered)
            case Ok(f) => run == Read(next, reports[i + 1..]).After(delivered + [f])
  {
    assert reports[i..][1..] == reports[i + 1..];
    if result.Ok? {
      AfterTwice(Read(next, reports[i + 1..]), delivered, [result.frame]);
    }
  }
}
