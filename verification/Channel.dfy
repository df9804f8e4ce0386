/**
  * The board's outbound channel: the queue, drained one report at a time by a
  * pump that drops its lock between choosing a report and crediting it, while
  * other cores go on offering frames; and the helper's reader at the far end of
  * a carrier that may lose reports.
  */
module Channel {
  import opened Basics
  import opened Frame
  import opened FrameReader
  import opened OutboundQueue
  import opened Carrier

  /** A frame, and the band it travels in. */
  datatype Sent = Sent(bulk: bool, frame: seq<Byte>)

  /** The report the pump chose under the lock, and whether the transport has taken it. */
  datatype Held = Held(bulk: bool, take: nat, report: seq<Byte>, taken: bool)

  /** The queue and the pump, with the history a run leaves: frames accepted and finished, and reports on the wire. */
  datatype Pump = Pump(q: Queue, held: Option<Held>, accepted: seq<Sent>, done: seq<Sent>, wire: seq<seq<Byte>>)

  datatype Event =
    | OfferOne(f: seq<Byte>)
    | OfferTwo(first: seq<Byte>, second: seq<Byte>)
    | ChooseReport
    | TransportTakes
    | TransportRefuses
    | PreambleGoes
    | CreditReport

  const START := Pump(Emptied(NOTHING_REFUSED), None, [], [], [])

  function BandOf(q: Queue, bulk: bool): Band {
    if bulk then q.bulk else q.priority
  }

  predicate Sane(q: Queue) {
    q.bulk.sent <= |q.bulk.frame| && q.priority.sent <= |q.priority.frame|
  }

  /** The report the pump builds from what it peeked. */
  function Choose(q: Queue): Option<Held>
    requires Sane(q)
  {
    match Peek(q)
    case None => None
    case Some(view) =>
      var take := Least(view.remaining, STREAM_SIZE);
      Some(Held(view.bulk, take,
                [if view.remaining == view.total then FRAME_START else FRAME_CONTINUES]
                + view.at[..take] + Padding(STREAM_SIZE - take), false))
  }

  /** One step of either side. Only one drain exists, so only one report is held at a time. */
  function Step(s: Pump, e: Event): Pump
    requires Sane(s.q)
  {
    match e
    case OfferOne(f) =>
      var (q, r) := Offer(s.q, f);
      s.(q := q, accepted := s.accepted + if r == Accepted then [Sent(IsBulk(f[0]), f)] else [])
    case OfferTwo(f, g) =>
      var (q, r) := OfferPair(s.q, f, g);
      s.(q := q, accepted := s.accepted + if r == Accepted then [Sent(false, f), Sent(false, g)] else [])
    case ChooseReport =>
      if s.held.Some? then s else s.(held := Choose(s.q))
    case TransportTakes =>
      if s.held.None? || s.held.value.taken then s
      else s.(held := Some(s.held.value.(taken := true)), wire := s.wire + [s.held.value.report])
    case TransportRefuses =>
      if s.held.None? || s.held.value.taken then s else s.(held := None)
    case PreambleGoes =>
      if s.held.None? || s.held.value.taken then s else s.(q := NotePreamble(s.q, s.held.value.bulk))
    case CreditReport =>
      if s.held.None? || !s.held.value.taken then s
      else Credit(s, s.held.value, Advance(s.q, s.held.value.bulk, s.held.value.take))
  }

  function Credit(s: Pump, h: Held, q: Queue): Pump {
    var b := BandOf(s.q, h.bulk);
    s.(held := None, q := q,
       done := s.done + if b.Holds() && b.sent + h.take >= |b.frame| then [Sent(h.bulk, b.frame)] else [])
  }

  /** The frames of one band, in order. */
  function OfBand(s: seq<Sent>, bulk: bool): seq<seq<Byte>> {
    if s == [] then []
    else (if s[0].bulk == bulk then [s[0].frame] else []) + OfBand(s[1..], bulk)
  }

  function Frames(s: seq<Sent>): seq<seq<Byte>> {
    if s == [] then [] else [s[0].frame] + Frames(s[1..])
  }

  function CutAll(frames: seq<seq<Byte>>): seq<seq<Byte>> {
    if frames == [] then [] else Cut(frames[0]) + CutAll(frames[1..])
  }

  function Owed(b: Band, waiting: seq<seq<Byte>>): seq<seq<Byte>> {
    (if b.Holds() then [b.frame] else []) + waiting
  }

  function OwedIn(q: Queue, bulk: bool): seq<seq<Byte>> {
    if bulk then Owed(q.bulk, q.bulkWaiting) else Owed(q.priority, q.priorityWaiting)
  }

  /** The reports credited to the queue: all but one the transport has just taken. */
  function Credited(s: Pump): seq<seq<Byte>> {
    if s.held.Some? && s.held.value.taken && s.wire != [] then s.wire[..|s.wire| - 1] else s.wire
  }

  /** The band that is part-sent, if any. */
  function Current(q: Queue): Band {
    if q.bulk.sent > 0 then q.bulk else if q.priority.sent > 0 then q.priority else EMPTY
  }

  /** The wire is the finished frames, whole, and then the start of the frame part-sent. */
  ghost predicate WireOf(credited: seq<seq<Byte>>, done: seq<Sent>, cur: Band) {
    cur.sent <= |cur.frame| &&
    credited + CutFrom(cur.frame, cur.sent) == CutAll(Frames(done)) + Cut(cur.frame)
  }

  /** What the pump holds is still the next report of the band it was chosen from, and the other band has not begun. */
  ghost predicate HeldOf(h: Held, b: Band, other: Band, wire: seq<seq<Byte>>) {
    && b.Holds() && b.sent < |b.frame|
    && !other.InFlight()
    && h.report == ReportAt(b.frame, b.sent)
    && h.take == Least(|b.frame| - b.sent, STREAM_SIZE)
    && (h.taken ==> wire != [] && wire[|wire| - 1] == h.report)
  }

  ghost predicate HeldOk(s: Pump) {
    s.held.Some? ==>
      var h := s.held.value;
      HeldOf(h, BandOf(s.q, h.bulk), BandOf(s.q, !h.bulk), s.wire)
  }

  /** Each band is a FIFO: what it accepted is what it has finished, then what it still owes. */
  ghost predicate Fifo(s: Pump, bulk: bool) {
    OfBand(s.accepted, bulk) == OfBand(s.done, bulk) + OwedIn(s.q, bulk)
  }

  ghost predicate Inv(s: Pump) {
    && Valid(s.q)
    && HeldOk(s)
    && Fifo(s, false) && Fifo(s, true)
    && (forall x :: x in s.done ==> IsFrame(x.frame))
    && WireOf(Credited(s), s.done, Current(s.q))
  }

  /* ------------------------------------------------------- every step keeps it */

  lemma {:induction false} OfBandConcat(a: seq<Sent>, b: seq<Sent>, bulk: bool)
    ensures OfBand(a + b, bulk) == OfBand(a, bulk) + OfBand(b, bulk)
    decreases |a|
  {
    TailConcat(a, b);
    if a != [] {
      OfBandConcat(a[1..], b, bulk);
      Regroup(if a[0].bulk == bulk then [a[0].frame] else [], OfBand(a[1..], bulk), OfBand(b, bulk));
    }
  }

  lemma OfBandAppend(s: seq<Sent>, x: Sent, bulk: bool)
    ensures OfBand(s + [x], bulk) == OfBand(s, bulk) + if x.bulk == bulk then [x.frame] else []
  {
    OfBandConcat(s, [x], bulk);
    var none: seq<Sent> := [];
    assert [x][1..] == none;
    assert OfBand(none, bulk) == [];
  }

  lemma {:induction false} CutAllConcat(a: seq<seq<Byte>>, b: seq<seq<Byte>>)
    ensures CutAll(a + b) == CutAll(a) + CutAll(b)
    decreases |a|
  {
    TailConcat(a, b);
    if a != [] {
      CutAllConcat(a[1..], b);
      Regroup(Cut(a[0]), CutAll(a[1..]), CutAll(b));
    }
  }

  lemma {:induction false} FramesAppend(s: seq<Sent>, x: Sent)
    ensures Frames(s + [x]) == Frames(s) + [x.frame]
  {
    if s == [] {
      assert s + [x] == [x];
      assert Frames([x]) == [x.frame] + Frames([x][1..]);
    } else {
      assert (s + [x])[1..] == s[1..] + [x];
      FramesAppend(s[1..], x);
    }
  }

  lemma CutAllAppend(done: seq<Sent>, x: Sent)
    ensures CutAll(Frames(done + [x])) == CutAll(Frames(done)) + Cut(x.frame)
  {
    FramesAppend(done, x);
    CutAllConcat(Frames(done), [x.frame]);
    assert [x.frame][1..] == [];
    assert CutAll([x.frame]) == Cut(x.frame) + [];
  }

  /** A band that holds a frame is left alone, and one that does not has not begun. */
  predicate Undisturbed(was: Band, now: Band) {
    if was.Holds() then now == was else now.sent == 0 && !now.InFlight()
  }

  /** An offer disturbs no frame being drained, and an accepted frame is the last its band owes. */
  lemma OfferEffect(q: Queue, f: seq<Byte>)
    requires Valid(q)
    ensures var (q', r) := Offer(q, f);
            && Undisturbed(q.bulk, q'.bulk) && Undisturbed(q.priority, q'.priority)
            && (r == Accepted ==> |f| > 0)
            && forall bulk :: OwedIn(q', bulk) ==
                 OwedIn(q, bulk) + if r == Accepted && IsBulk(f[0]) == bulk then [f] else []
  {
  }

  lemma OfferPairEffect(q: Queue, f: seq<Byte>, g: seq<Byte>)
    requires Valid(q)
    ensures var (q', r) := OfferPair(q, f, g);
            && Undisturbed(q.bulk, q'.bulk) && Undisturbed(q.priority, q'.priority)
            && OwedIn(q', true) == OwedIn(q, true)
            && OwedIn(q', false) == OwedIn(q, false) + if r == Accepted then [f, g] else []
  {
  }

  /** The drain's side of the invariant survives anything that disturbs no frame being drained. */
  lemma DrainUndisturbed(s: Pump, t: Pump)
    requires s.q.bulk.Valid() && s.q.priority.Valid() && HeldOk(s) && WireOf(Credited(s), s.done, Current(s.q))
    requires t.held == s.held && t.done == s.done && t.wire == s.wire
    requires Undisturbed(s.q.bulk, t.q.bulk) && Undisturbed(s.q.priority, t.q.priority)
    ensures HeldOk(t) && Current(t.q) == Current(s.q) && WireOf(Credited(t), t.done, Current(t.q))
  {
  }

  lemma OfferStep(s: Pump, e: Event, f: seq<Byte>)
    requires Inv(s) && e == OfferOne(f)
    ensures Inv(Step(s, e))
  {
    OfferKeeps(s.q, f);
    OfferEffect(s.q, f);
    var t := Step(s, OfferOne(f));
    var taken := Offer(s.q, f).1 == Accepted;
    DrainUndisturbed(s, t);
    OfferHistory(s, t, f, taken, false);
    OfferHistory(s, t, f, taken, true);
  }

  lemma OfferHistory(s: Pump, t: Pump, f: seq<Byte>, taken: bool, bulk: bool)
    requires Fifo(s, bulk) && t.done == s.done
    requires taken ==> |f| > 0
    requires t.accepted == s.accepted + if taken then [Sent(IsBulk(f[0]), f)] else []
    requires OwedIn(t.q, bulk) == OwedIn(s.q, bulk) + if taken && IsBulk(f[0]) == bulk then [f] else []
    ensures Fifo(t, bulk)
  {
    if taken {
      OfBandAppend(s.accepted, Sent(IsBulk(f[0]), f), bulk);
    } else {
      assert s.accepted + [] == s.accepted;
    }
  }

  lemma OfferTwoStep(s: Pump, e: Event, f: seq<Byte>, g: seq<Byte>)
    requires Inv(s) && e == OfferTwo(f, g)
    ensures Inv(Step(s, e))
  {
    OfferPairKeeps(s.q, f, g);
    OfferPairEffect(s.q, f, g);
    var t := Step(s, OfferTwo(f, g));
    DrainUndisturbed(s, t);
    OfferTwoHistory(s, t, f, g, OfferPair(s.q, f, g).1 == Accepted);
  }

  lemma OfferTwoHistory(s: Pump, t: Pump, f: seq<Byte>, g: seq<Byte>, taken: bool)
    requires Fifo(s, false) && Fifo(s, true) && t.done == s.done
    requires t.accepted == s.accepted + if taken then [Sent(false, f), Sent(false, g)] else []
    requires OwedIn(t.q, true) == OwedIn(s.q, true)
    requires OwedIn(t.q, false) == OwedIn(s.q, false) + if taken then [f, g] else []
    ensures Fifo(t, false) && Fifo(t, true)
  {
    if taken {
      OfBandPair(s.accepted, f, g);
      Regroup(OfBand(s.done, false), OwedIn(s.q, false), [f, g]);
    } else {
      NothingMore(s.accepted);
      NothingMore(OwedIn(s.q, false));
    }
  }

  lemma OfBandPair(s: seq<Sent>, f: seq<Byte>, g: seq<Byte>)
    ensures var more := s + [Sent(false, f), Sent(false, g)];
            OfBand(more, false) == OfBand(s, false) + [f, g] && OfBand(more, true) == OfBand(s, true)
  {
    var x, y := Sent(false, f), Sent(false, g);
    assert s + [x, y] == (s + [x]) + [y];
    OfBandAppend(s, x, false);
    OfBandAppend(s, x, true);
    OfBandAppend(s + [x], y, false);
    OfBandAppend(s + [x], y, true);
  }

  lemma NothingMore<T>(s: seq<T>)
    ensures s + [] == s
  {
  }

  lemma PumpStepIs(s: Pump)
    requires Sane(s.q)
    ensures var free := s.held.Some? && !s.held.value.taken;
            && Step(s, ChooseReport) == (if s.held.Some? then s else s.(held := Choose(s.q)))
            && Step(s, TransportTakes) == (if !free then s
                 else s.(held := Some(s.held.value.(taken := true)), wire := s.wire + [s.held.value.report]))
            && Step(s, TransportRefuses) == (if free then s.(held := None) else s)
            && Step(s, PreambleGoes) == (if free then s.(q := NotePreamble(s.q, s.held.value.bulk)) else s)
  {
  }

  /** The history stays in step with a queue that owes and has part-sent what it did. */
  lemma SameHistory(s: Pump, t: Pump)
    requires Fifo(s, false) && Fifo(s, true) && WireOf(Credited(s), s.done, Current(s.q))
    requires t.accepted == s.accepted && t.done == s.done && Credited(t) == Credited(s)
    requires OwedIn(t.q, false) == OwedIn(s.q, false) && OwedIn(t.q, true) == OwedIn(s.q, true)
    requires Current(t.q).frame == Current(s.q).frame && Current(t.q).sent == Current(s.q).sent
    ensures Fifo(t, false) && Fifo(t, true) && WireOf(Credited(t), t.done, Current(t.q))
  {
  }

  lemma ChooseStep(s: Pump, e: Event)
    requires Inv(s) && e == ChooseReport
    ensures Inv(Step(s, e))
  {
    PumpStepIs(s);
    if s.held.None? && Choose(s.q).Some? {
      ChoiceHeld(s, Choose(s.q).value);
      ChoiceKeeps(s, Step(s, ChooseReport));
    }
  }

  lemma ChoiceHeld(s: Pump, h: Held)
    requires Valid(s.q) && Choose(s.q) == Some(h)
    ensures !h.taken && HeldOf(h, BandOf(s.q, h.bulk), BandOf(s.q, !h.bulk), s.wire)
  {
    ChosenReport(BandOf(s.q, h.bulk), h);
  }

  /** Choosing or dropping a report the transport has not taken. */
  lemma ChoiceKeeps(s: Pump, t: Pump)
    requires Inv(s) && t == s.(held := t.held) && HeldOk(t)
    requires s.held.None? || !s.held.value.taken
    requires t.held.None? || !t.held.value.taken
    ensures Inv(t)
  {
    SameHistory(s, t);
  }

  lemma ChosenReport(b: Band, h: Held)
    requires b.Holds() && b.sent < |b.frame|
    requires h.take == Least(|b.frame| - b.sent, STREAM_SIZE)
    requires h.report == [if |b.frame| - b.sent == |b.frame| then FRAME_START else FRAME_CONTINUES]
                         + b.frame[b.sent..][..h.take] + Padding(STREAM_SIZE - h.take)
    ensures h.report == ReportAt(b.frame, b.sent)
  {
    assert b.frame[b.sent..][..h.take] == b.frame[b.sent..b.sent + h.take];
  }

  lemma TakesKeeps(s: Pump, h: Held, t: Pump)
    requires Inv(s) && s.held == Some(h) && !h.taken
    requires t == s.(held := Some(h.(taken := true)), wire := s.wire + [h.report])
    ensures Inv(t)
  {
    TakenHeld(s, h, t);
    SameHistory(s, t);
  }

  lemma TakenHeld(s: Pump, h: Held, t: Pump)
    requires HeldOk(s) && s.held == Some(h) && !h.taken
    requires t == s.(held := Some(h.(taken := true)), wire := s.wire + [h.report])
    ensures Credited(s) == s.wire == Credited(t) && HeldOk(t)
  {
    assert (s.wire + [h.report])[..|s.wire|] == s.wire;
  }

  lemma TakesStep(s: Pump, e: Event)
    requires Inv(s) && e == TransportTakes
    ensures Inv(Step(s, e))
  {
    PumpStepIs(s);
    if s.held.Some? && !s.held.value.taken {
      TakesKeeps(s, s.held.value, Step(s, TransportTakes));
    }
  }

  lemma RefusesStep(s: Pump, e: Event)
    requires Inv(s) && e == TransportRefuses
    ensures Inv(Step(s, e))
  {
    PumpStepIs(s);
    if s.held.Some? && !s.held.value.taken {
      ChoiceKeeps(s, Step(s, TransportRefuses));
    }
  }

  lemma PreambleStep(s: Pump, e: Event)
    requires Inv(s) && e == PreambleGoes
    ensures Inv(Step(s, e))
  {
    PumpStepIs(s);
    if s.held.Some? && !s.held.value.taken {
      PreambleEffect(s, s.held.value, Step(s, PreambleGoes));
    }
  }

  lemma PreambleEffect(s: Pump, h: Held, t: Pump)
    requires Inv(s) && s.held == Some(h) && !h.taken
    requires t == s.(q := NotePreamble(s.q, h.bulk))
    ensures Inv(t)
  {
    PreambleQueue(s.q, h.bulk);
    assert HeldOk(t);
    SameHistory(s, t);
  }

  lemma PreambleQueue(q: Queue, bulk: bool)
    requires Valid(q) && BandOf(q, bulk).Holds() && !BandOf(q, !bulk).InFlight()
    ensures var q' := NotePreamble(q, bulk);
            && Valid(q')
            && BandOf(q', bulk) == BandOf(q, bulk).(preambleDone := true)
            && BandOf(q', !bulk) == BandOf(q, !bulk)
            && OwedIn(q', false) == OwedIn(q, false) && OwedIn(q', true) == OwedIn(q, true)
            && Current(q').frame == Current(q).frame && Current(q').sent == Current(q).sent
  {
  }

  /** A report credited to the band it was cut from, mid-frame or finishing it. */
  lemma CreditWire(credited: seq<seq<Byte>>, done: seq<Sent>, b: Band, bulk: bool)
    requires b.sent < |b.frame| && WireOf(credited, done, b)
    ensures var next := b.sent + Least(|b.frame| - b.sent, STREAM_SIZE);
            var now := credited + [ReportAt(b.frame, b.sent)];
            && WireOf(now, done, b.(sent := next))
            && (next == |b.frame| ==> now == CutAll(Frames(done + [Sent(bulk, b.frame)])))
  {
    var next := b.sent + Least(|b.frame| - b.sent, STREAM_SIZE);
    var report := ReportAt(b.frame, b.sent);
    assert credited + ([report] + CutFrom(b.frame, next)) == (credited + [report]) + CutFrom(b.frame, next);
    if next == |b.frame| {
      assert (credited + [report]) + [] == credited + [report];
      CutAllAppend(done, Sent(bulk, b.frame));
    }
  }

  /** Nothing part-sent means the wire is the finished frames and no more. */
  lemma WireEmpty(credited: seq<seq<Byte>>, done: seq<Sent>)
    ensures WireOf(credited, done, EMPTY) <==> credited == CutAll(Frames(done))
  {
    var none: seq<seq<Byte>> := [];
    assert CutFrom([], 0) == none;
    assert credited + none == credited;
    assert CutAll(Frames(done)) + none == CutAll(Frames(done));
  }

  lemma WireUnsent(credited: seq<seq<Byte>>, done: seq<Sent>, b: Band)
    requires b.sent == 0 && WireOf(credited, done, EMPTY)
    ensures WireOf(credited, done, b)
  {
    WireEmpty(credited, done);
  }

  /** What crediting does to the queue: the band moves on, or gives way to the next frame it owes. */
  lemma AdvanceEffect(q: Queue, bulk: bool, n: nat)
    requires Valid(q) && BandOf(q, bulk).Holds() && !BandOf(q, !bulk).InFlight() && n > 0
    ensures var b := BandOf(q, bulk);
            var q' := Advance(q, bulk, n);
            && Current(q') == (if b.sent + n < |b.frame| then b.(sent := b.sent + n) else EMPTY)
            && OwedIn(q', !bulk) == OwedIn(q, !bulk)
            && OwedIn(q, bulk) == (if b.sent + n < |b.frame| then [] else [b.frame]) + OwedIn(q', bulk)
  {
    assert BandOf(q, !bulk).sent == 0;
    var waiting := if bulk then q.bulkWaiting else q.priorityWaiting;
    assert waiting != [] ==> waiting[0] in waiting && waiting == [waiting[0]] + waiting[1..];
  }

  lemma HeldWire(s: Pump, h: Held)
    requires Inv(s) && s.held == Some(h) && h.taken
    ensures var b := BandOf(s.q, h.bulk);
            && WireOf(Credited(s), s.done, b)
            && b.sent < |b.frame| && IsFrame(b.frame)
            && h.take == Least(|b.frame| - b.sent, STREAM_SIZE)
            && s.wire == Credited(s) + [ReportAt(b.frame, b.sent)]
            && b.Holds() && !BandOf(s.q, !h.bulk).InFlight()
  {
    var b := BandOf(s.q, h.bulk);
    if b.sent == 0 {
      WireUnsent(Credited(s), s.done, b);
    } else {
      assert Current(s.q) == b;
    }
  }

  lemma CreditHistory(s: Pump, t: Pump, b: Band, bulk: bool, finished: bool)
    requires Fifo(s, false) && Fifo(s, true) && t.accepted == s.accepted
    requires t.done == s.done + if finished then [Sent(bulk, b.frame)] else []
    requires OwedIn(t.q, !bulk) == OwedIn(s.q, !bulk)
    requires OwedIn(s.q, bulk) == (if finished then [b.frame] else []) + OwedIn(t.q, bulk)
    ensures Fifo(t, false) && Fifo(t, true)
  {
    var moved := if finished then [b.frame] else [];
    CreditedBand(s.done, b.frame, bulk, finished);
    Regroup(OfBand(s.done, bulk), moved, OwedIn(t.q, bulk));
    assert Fifo(t, bulk) && Fifo(t, !bulk);
  }

  lemma CreditedBand(done: seq<Sent>, f: seq<Byte>, bulk: bool, finished: bool)
    ensures var now := done + if finished then [Sent(bulk, f)] else [];
            && OfBand(now, bulk) == OfBand(done, bulk) + (if finished then [f] else [])
            && OfBand(now, !bulk) == OfBand(done, !bulk)
  {
    if finished {
      OfBandAppend(done, Sent(bulk, f), bulk);
      OfBandAppend(done, Sent(bulk, f), !bulk);
    } else {
      NothingMore(done);
      NothingMore(OfBand(done, bulk));
    }
  }

  /** Everything crediting a report needs to know of the pump, and of the queue it leaves. */
  ghost predicate Crediting(s: Pump, h: Held, q: Queue) {
    var b := BandOf(s.q, h.bulk);
    var finished := b.sent + h.take >= |b.frame|;
    && Fifo(s, false) && Fifo(s, true) && (forall x :: x in s.done ==> IsFrame(x.frame))
    && b.sent < |b.frame| && IsFrame(b.frame) && h.take == Least(|b.frame| - b.sent, STREAM_SIZE)
    && WireOf(Credited(s), s.done, b) && s.wire == Credited(s) + [ReportAt(b.frame, b.sent)]
    && Valid(q)
    && Current(q) == (if finished then EMPTY else b.(sent := b.sent + h.take))
    && OwedIn(q, !h.bulk) == OwedIn(s.q, !h.bulk)
    && OwedIn(s.q, h.bulk) == (if finished then [b.frame] else []) + OwedIn(q, h.bulk)
  }

  lemma CreditReady(s: Pump, h: Held)
    requires Inv(s) && s.held == Some(h) && h.taken
    ensures Crediting(s, h, Advance(s.q, h.bulk, h.take))
  {
    HeldWire(s, h);
    AdvanceKeeps(s.q, h.bulk, h.take);
    AdvanceEffect(s.q, h.bulk, h.take);
  }

  lemma CreditParts(s: Pump, h: Held, q: Queue)
    requires Crediting(s, h, q)
    ensures Inv(Credit(s, h, q))
  {
    var b := BandOf(s.q, h.bulk);
    var t := Credit(s, h, q);
    CreditHistory(s, t, b, h.bulk, b.sent + h.take >= |b.frame|);
    CreditedWire(Credited(s), s.done, b, h.bulk, t.done, t.wire, Current(q));
  }

  lemma CreditStep(s: Pump, h: Held)
    requires Inv(s) && s.held == Some(h) && h.taken
    ensures Inv(Credit(s, h, Advance(s.q, h.bulk, h.take)))
  {
    CreditReady(s, h);
    CreditParts(s, h, Advance(s.q, h.bulk, h.take));
  }

  lemma CreditedWire(credited: seq<seq<Byte>>, done: seq<Sent>, b: Band, bulk: bool,
                     done': seq<Sent>, wire: seq<seq<Byte>>, cur: Band)
    requires b.sent < |b.frame| && WireOf(credited, done, b)
    requires wire == credited + [ReportAt(b.frame, b.sent)]
    requires var n := Least(|b.frame| - b.sent, STREAM_SIZE);
             var finished := b.sent + n >= |b.frame|;
             && done' == done + (if finished then [Sent(bulk, b.frame)] else [])
             && cur == (if finished then EMPTY else b.(sent := b.sent + n))
    ensures WireOf(wire, done', cur)
  {
    CreditWire(credited, done, b, bulk);
    if cur == EMPTY {
      WireEmpty(wire, done');
    } else {
      assert done' == done;
    }
  }

  lemma StepKeeps(s: Pump, e: Event)
    requires Inv(s)
    ensures Inv(Step(s, e))
  {
    match e {
      case OfferOne(f) => OfferStep(s, e, f);
      case OfferTwo(f, g) => OfferTwoStep(s, e, f, g);
      case ChooseReport => ChooseStep(s, e);
      case TransportTakes => TakesStep(s, e);
      case TransportRefuses => RefusesStep(s, e);
      case PreambleGoes => PreambleStep(s, e);
      case CreditReport => CreditReportStep(s, e);
    }
  }

  lemma CreditReportStep(s: Pump, e: Event)
    requires Inv(s) && e == CreditReport
    ensures Inv(Step(s, e))
  {
    if s.held.Some? && s.held.value.taken {
      CreditStep(s, s.held.value);
      CreditIs(s, s.held.value);
    } else {
      CreditIdle(s);
    }
  }

  lemma CreditIs(s: Pump, h: Held)
    requires Sane(s.q) && s.held == Some(h) && h.taken
    ensures Step(s, CreditReport) == Credit(s, h, Advance(s.q, h.bulk, h.take))
  {
  }

  lemma CreditIdle(s: Pump)
    requires Sane(s.q) && (s.held.None? || !s.held.value.taken)
    ensures Step(s, CreditReport) == s
  {
  }

  /* ------------------------------------------------------------ every run */

  /** A run from a good state, over any interleaving of offers and drain steps. */
  ghost function RunFrom(s: Pump, events: seq<Event>): (t: Pump)
    requires Inv(s)
    ensures Inv(t)
    decreases |events|
  {
    if events == [] then s
    else
      StepKeeps(s, events[0]);
      RunFrom(Step(s, events[0]), events[1..])
  }

  lemma StartGood()
    ensures Inv(START)
  {
    WireEmpty([], []);
  }

  /** The frames any of whose reports are on the wire: those finished, then the one part-sent. */
  function OnWire(s: Pump): seq<seq<Byte>> {
    Frames(s.done) + (if Unfinished(s).Holds() then [Unfinished(s).frame] else [])
  }

  /** The band whose frame has reports on the wire and is not finished. */
  function Unfinished(s: Pump): Band {
    if s.held.Some? && s.held.value.taken then BandOf(s.q, s.held.value.bulk) else Current(s.q)
  }

  lemma CutAllOf(frames: seq<seq<Byte>>, f: seq<Byte>)
    ensures CutAll(frames + [f]) == CutAll(frames) + Cut(f)
  {
    CutAllConcat(frames, [f]);
    assert [f][1..] == [];
    assert CutAll([f]) == Cut(f) + [];
  }

  /**
    * Over every interleaving: what is on the wire is a prefix of whole accepted
    * frames laid end to end, at most one band is in flight, each band is FIFO,
    * and the refusal total is the saturating sum of its causes.
    */
  lemma WholeFramesInOrder(events: seq<Event>)
    ensures Inv(START)
    ensures var s := RunFrom(START, events);
            && s.wire <= CutAll(OnWire(s))
            && (s.wire == CutAll(OnWire(s)) <==> !Unfinished(s).Holds() || LastReport(s))
            && OfBand(s.accepted, false) == OfBand(s.done, false) + OwedIn(s.q, false)
            && OfBand(s.accepted, true) == OfBand(s.done, true) + OwedIn(s.q, true)
            && !(s.q.priority.InFlight() && s.q.bulk.InFlight())
            && TallyValid(s.q.tally)
  {
    StartGood();
    var s := RunFrom(START, events);
    WirePrefix(s);
  }

  /** The transport has taken the last report of the frame in hand, and the queue has not been told yet. */
  predicate LastReport(s: Pump) {
    && s.held.Some? && s.held.value.taken
    && var b := BandOf(s.q, s.held.value.bulk);
       b.sent + s.held.value.take >= |b.frame|
  }

  lemma WirePrefix(s: Pump)
    requires Inv(s)
    ensures s.wire <= CutAll(OnWire(s))
    ensures s.wire == CutAll(OnWire(s)) <==> !Unfinished(s).Holds() || LastReport(s)
  {
    if s.held.Some? && s.held.value.taken {
      HeldPrefix(s, s.held.value);
    } else {
      CurrentPrefix(s.wire, s.done, Current(s.q));
    }
  }

  lemma HeldPrefix(s: Pump, h: Held)
    requires Inv(s) && s.held == Some(h) && h.taken
    ensures var b := BandOf(s.q, h.bulk);
            && b.Holds()
            && s.wire <= CutAll(Frames(s.done) + [b.frame])
            && (s.wire == CutAll(Frames(s.done) + [b.frame]) <==> b.sent + h.take >= |b.frame|)
  {
    HeldWire(s, h);
    TakenPrefix(Credited(s), s.done, BandOf(s.q, h.bulk), h.bulk, s.wire);
  }

  lemma TakenPrefix(credited: seq<seq<Byte>>, done: seq<Sent>, b: Band, bulk: bool, wire: seq<seq<Byte>>)
    requires b.sent < |b.frame| && WireOf(credited, done, b)
    requires wire == credited + [ReportAt(b.frame, b.sent)]
    ensures var next := b.sent + Least(|b.frame| - b.sent, STREAM_SIZE);
            && wire <= CutAll(Frames(done) + [b.frame])
            && (wire == CutAll(Frames(done) + [b.frame]) <==> next >= |b.frame|)
  {
    CreditWire(credited, done, b, bulk);
    PrefixOf(wire, CutFrom(b.frame, b.sent + Least(|b.frame| - b.sent, STREAM_SIZE)), Frames(done), b.frame);
  }

  lemma CurrentPrefix(wire: seq<seq<Byte>>, done: seq<Sent>, cur: Band)
    requires WireOf(wire, done, cur) && cur.Valid()
    ensures var frames := Frames(done) + if cur.Holds() then [cur.frame] else [];
            && wire <= CutAll(frames)
            && (wire == CutAll(frames) <==> !cur.Holds())
  {
    if cur.Holds() {
      PrefixOf(wire, CutFrom(cur.frame, cur.sent), Frames(done), cur.frame);
    } else {
      WireEmpty(wire, done);
      assert Frames(done) + [] == Frames(done);
    }
  }

  lemma PrefixOf(wire: seq<seq<Byte>>, rest: seq<seq<Byte>>, frames: seq<seq<Byte>>, f: seq<Byte>)
    requires wire + rest == CutAll(frames) + Cut(f)
    ensures wire <= CutAll(frames + [f])
    ensures wire == CutAll(frames + [f]) <==> rest == []
  {
    CutAllOf(frames, f);
    assert (wire + rest)[..|wire|] == wire;
    if rest == [] {
      assert wire + rest == wire;
    }
  }

  /* ------------------------------------------------ a priority frame's wait */

  /** A bulk frame that has begun, or that the pump has already chosen a report from. */
  predicate BulkAhead(s: Pump) {
    s.q.bulk.InFlight() || (s.held.Some? && s.held.value.bulk)
  }

  function BulkCost(s: Pump): nat {
    |OfBand(s.done, true)| + if BulkAhead(s) then 1 else 0
  }

  /** While a priority frame waits, no bulk frame but the one ahead can finish. */
  lemma WaitStep(s: Pump, e: Event)
    requires Inv(s) && s.q.priority.Holds()
    ensures BulkCost(Step(s, e)) <= BulkCost(s)
    ensures |OfBand(s.done, false)| <= |OfBand(Step(s, e).done, false)|
  {
    AcceptedGrows(s, e);
    PrefixBand(s.done, Step(s, e).done, false);
    WaitCost(s, e);
  }

  lemma WaitCost(s: Pump, e: Event)
    requires Inv(s) && s.q.priority.Holds()
    ensures BulkCost(Step(s, e)) <= BulkCost(s)
  {
    match e {
      case OfferOne(f) =>
        OfferEffect(s.q, f);
        WaitOffer(s, Step(s, e));
      case OfferTwo(f, g) =>
        OfferPairEffect(s.q, f, g);
        WaitOffer(s, Step(s, e));
      case CreditReport =>
        if s.held.Some? && s.held.value.taken {
          CreditIs(s, s.held.value);
          WaitCredit(s, s.held.value);
        } else {
          CreditIdle(s);
        }
      case _ => WaitDrain(s, e);
    }
  }

  lemma WaitOffer(s: Pump, t: Pump)
    requires t.held == s.held && t.done == s.done && Undisturbed(s.q.bulk, t.q.bulk)
    ensures BulkCost(t) <= BulkCost(s)
  {
  }

  lemma WaitDrain(s: Pump, e: Event)
    requires Inv(s) && s.q.priority.Holds()
    requires e.ChooseReport? || e.TransportTakes? || e.TransportRefuses? || e.PreambleGoes?
    ensures BulkCost(Step(s, e)) <= BulkCost(s) && Step(s, e).done == s.done
  {
  }

  lemma WaitCredit(s: Pump, h: Held)
    requires Inv(s) && s.held == Some(h) && h.taken
    ensures BulkCost(Credit(s, h, Advance(s.q, h.bulk, h.take))) <= BulkCost(s)
  {
    var b := BandOf(s.q, h.bulk);
    CreditedBand(s.done, b.frame, h.bulk, b.sent + h.take >= |b.frame|);
    AdvanceEnds(s.q, h.bulk, h.take);
  }

  /** A band credited to its end is not in flight, and the other is left alone. */
  lemma AdvanceEnds(q: Queue, bulk: bool, n: nat)
    ensures var b, t := BandOf(q, bulk), Advance(q, bulk, n);
            && BandOf(t, !bulk) == BandOf(q, !bulk)
            && (b.Holds() && b.sent + n >= |b.frame| ==> !BandOf(t, bulk).InFlight())
  {
  }

  lemma AcceptedGrows(s: Pump, e: Event)
    requires Sane(s.q)
    ensures s.accepted <= Step(s, e).accepted && s.done <= Step(s, e).done
  {
  }

  lemma PrefixBand(a: seq<Sent>, b: seq<Sent>, bulk: bool)
    requires a <= b
    ensures |OfBand(a, bulk)| <= |OfBand(b, bulk)|
  {
    assert b == a + b[|a|..];
    OfBandConcat(a, b[|a|..], bulk);
  }

  lemma {:induction false} DoneGrows(s: Pump, events: seq<Event>)
    requires Inv(s)
    ensures s.done <= RunFrom(s, events).done
    decreases |events|
  {
    if events != [] {
      StepKeeps(s, events[0]);
      AcceptedGrows(s, events[0]);
      DoneGrows(Step(s, events[0]), events[1..]);
    }
  }

  lemma {:induction false} WaitRun(s: Pump, events: seq<Event>, n: nat)
    requires Inv(s) && n <= |OfBand(s.accepted, false)|
    requires |OfBand(RunFrom(s, events).done, false)| < n
    ensures BulkCost(RunFrom(s, events)) <= BulkCost(s)
    decreases |events|
  {
    if events != [] {
      var t := Step(s, events[0]);
      StepKeeps(s, events[0]);
      AcceptedGrows(s, events[0]);
      PrefixBand(s.accepted, t.accepted, false);
      DoneGrows(s, events);
      PrefixBand(s.done, RunFrom(s, events).done, false);
      assert s.q.priority.Holds();
      WaitStep(s, events[0]);
      WaitRun(t, events[1..], n);
    }
  }

  /**
    * A priority frame waits for at most one bulk frame: in any run that has
    * still to finish a priority frame accepted before it, at most one bulk
    * frame finishes, however many are offered.
    */
  lemma PriorityWaitsForOne(s: Pump, events: seq<Event>)
    requires Inv(s)
    requires |OfBand(RunFrom(s, events).done, false)| < |OfBand(s.accepted, false)|
    ensures |OfBand(RunFrom(s, events).done, true)| <= |OfBand(s.done, true)| + 1
  {
    WaitRun(s, events, |OfBand(s.accepted, false)|);
  }

  /* ------------------------------------------------------------------ a pair */

  /** How far an admitted pair has got, and that nothing comes between its frames. */
  ghost predicate PairAt(s: Pump, before: seq<Sent>, f: seq<Byte>, g: seq<Byte>) {
    && before <= s.done
    && var since := s.done[|before|..];
       || (&& |since| <= 1 && (|since| == 1 ==> since[0].bulk && !BulkAhead(s))
           && s.q.priority.frame == f && s.q.priorityWaiting == [g])
       || (&& 1 <= |since| <= 2 && since[|since| - 1] == Sent(false, f) && (|since| == 2 ==> since[0].bulk)
           && s.q.priority.frame == g && !BulkAhead(s))
       || PairDone(since, f, g)
  }

  /** The pair is finished, next to each other, behind at most one bulk frame. */
  predicate PairDone(since: seq<Sent>, f: seq<Byte>, g: seq<Byte>) {
    || (|since| >= 2 && since[0] == Sent(false, f) && since[1] == Sent(false, g))
    || (|since| >= 3 && since[0].bulk && since[1] == Sent(false, f) && since[2] == Sent(false, g))
  }

  lemma OffersWait(q: Queue, f: seq<Byte>, g: seq<Byte>)
    requires Valid(q) && q.priority.Holds() && q.priorityWaiting != []
    ensures Offer(q, f).0.priorityWaiting == q.priorityWaiting
    ensures OfferPair(q, f, g).0.priorityWaiting == q.priorityWaiting
  {
  }

  /** What a drain step that credits nothing can do to a waiting pair: nothing. */
  lemma QuietDrain(s: Pump, e: Event)
    requires Inv(s) && s.q.priority.Holds()
    requires e == ChooseReport || e == TransportTakes || e == TransportRefuses || e == PreambleGoes
    ensures var t := Step(s, e);
            && t.q.priority.frame == s.q.priority.frame
            && t.q.priorityWaiting == s.q.priorityWaiting
            && (!BulkAhead(s) ==> !BulkAhead(t))
  {
  }

  lemma QuietStep(s: Pump, e: Event)
    requires Inv(s) && e != CreditReport && s.q.priority.Holds()
    ensures var t := Step(s, e);
            && t.q.priority.frame == s.q.priority.frame
            && (s.q.priorityWaiting != [] ==> t.q.priorityWaiting == s.q.priorityWaiting)
            && (!BulkAhead(s) ==> !BulkAhead(t))
  {
    match e {
      case OfferOne(f) =>
        OfferEffect(s.q, f);
        if s.q.priorityWaiting != [] {
          OffersWait(s.q, f, f);
        }
      case OfferTwo(f, g) =>
        OfferPairEffect(s.q, f, g);
        if s.q.priorityWaiting != [] {
          OffersWait(s.q, f, g);
        }
      case _ =>
        QuietDrain(s, e);
    }
  }

  lemma DoneOnlyOnCredit(s: Pump, e: Event)
    requires Sane(s.q) && e != CreditReport
    ensures Step(s, e).done == s.done
  {
  }

  /** What crediting a report does to the bands, seen from the priority side. */
  lemma CreditEffect(s: Pump, h: Held)
    requires Inv(s) && s.held == Some(h) && h.taken
    ensures var b := BandOf(s.q, h.bulk);
            var t := Credit(s, h, Advance(s.q, h.bulk, h.take));
            var finished := b.sent + h.take >= |b.frame|;
            && t.done == s.done + (if finished then [Sent(h.bulk, b.frame)] else [])
            && (h.bulk ==> t.q.priority == s.q.priority && t.q.priorityWaiting == s.q.priorityWaiting && BulkAhead(s))
            && (h.bulk && finished ==> !BulkAhead(t))
            && (!h.bulk ==> !BulkAhead(t))
            && (!h.bulk && finished ==> (t.q.priority, t.q.priorityWaiting) == Promoted(s.q.priorityWaiting))
            && (!h.bulk && !finished ==> t.q.priority.frame == b.frame && t.q.priorityWaiting == s.q.priorityWaiting)
  {
    HeldWire(s, h);
  }

  lemma PairCredit(s: Pump, h: Held, t: Pump, before: seq<Sent>, f: seq<Byte>, g: seq<Byte>)
    requires PairAt(s, before, f, g)
    requires var b := BandOf(s.q, h.bulk);
             var finished := b.sent + h.take >= |b.frame|;
             && t.done == s.done + (if finished then [Sent(h.bulk, b.frame)] else [])
             && (h.bulk ==> t.q.priority == s.q.priority && t.q.priorityWaiting == s.q.priorityWaiting && BulkAhead(s))
             && (h.bulk && finished ==> !BulkAhead(t))
             && (!h.bulk ==> !BulkAhead(t))
             && (!h.bulk && finished ==> (t.q.priority, t.q.priorityWaiting) == Promoted(s.q.priorityWaiting))
             && (!h.bulk && !finished ==> t.q.priority.frame == b.frame && t.q.priorityWaiting == s.q.priorityWaiting)
    ensures PairAt(t, before, f, g)
  {
    var b := BandOf(s.q, h.bulk);
    var since := s.done[|before|..];
    if b.sent + h.take >= |b.frame| {
      assert t.done[|before|..] == since + [Sent(h.bulk, b.frame)];
    } else {
      assert t.done == s.done;
    }
  }

  lemma PairQuiet(s: Pump, t: Pump, before: seq<Sent>, f: seq<Byte>, g: seq<Byte>)
    requires PairAt(s, before, f, g) && t.done == s.done
    requires s.q.priority.Holds() ==>
               && t.q.priority.frame == s.q.priority.frame
               && (s.q.priorityWaiting != [] ==> t.q.priorityWaiting == s.q.priorityWaiting)
               && (!BulkAhead(s) ==> !BulkAhead(t))
    requires f != [] && g != []
    ensures PairAt(t, before, f, g)
  {
  }

  lemma PairStep(s: Pump, e: Event, before: seq<Sent>, f: seq<Byte>, g: seq<Byte>)
    requires Inv(s) && f != [] && g != []
    requires PairAt(s, before, f, g)
    ensures PairAt(Step(s, e), before, f, g)
  {
    if e != CreditReport {
      if s.q.priority.Holds() {
        QuietStep(s, e);
      }
      DoneOnlyOnCredit(s, e);
      PairQuiet(s, Step(s, e), before, f, g);
    } else if s.held.Some? && s.held.value.taken {
      CreditEffect(s, s.held.value);
      PairCredit(s, s.held.value, Step(s, e), before, f, g);
    }
  }

  lemma {:induction false} PairRun(s: Pump, events: seq<Event>, before: seq<Sent>, f: seq<Byte>, g: seq<Byte>)
    requires Inv(s) && f != [] && g != []
    requires PairAt(s, before, f, g)
    ensures PairAt(RunFrom(s, events), before, f, g)
    decreases |events|
  {
    if events != [] {
      PairStep(s, events[0], before, f, g);
      StepKeeps(s, events[0]);
      PairRun(Step(s, events[0]), events[1..], before, f, g);
    }
  }

  /**
    * A pair the queue admits leaves adjacent, in order, behind at most one bulk
    * frame, whatever is offered meanwhile and wherever the pump was.
    */
  lemma PairLeavesAdjacent(s: Pump, f: seq<Byte>, g: seq<Byte>, events: seq<Event>)
    requires Inv(s) && OfferPair(s.q, f, g).1 == Accepted
    ensures Inv(Step(s, OfferTwo(f, g)))
    ensures PairAt(RunFrom(Step(s, OfferTwo(f, g)), events), s.done, f, g)
  {
    StepKeeps(s, OfferTwo(f, g));
    var t := Step(s, OfferTwo(f, g));
    PairAdmitted(s, f, g, t);
    PairRun(t, events, s.done, f, g);
  }

  lemma PairAdmitted(s: Pump, f: seq<Byte>, g: seq<Byte>, t: Pump)
    requires OfferPair(s.q, f, g).1 == Accepted
    requires t == s.(q := OfferPair(s.q, f, g).0, accepted := t.accepted)
    ensures PairAt(t, s.done, f, g) && f != [] && g != []
  {
    assert t.done[|s.done|..] == [];
  }
}
