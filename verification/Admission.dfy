/**
  * Which offers the outbound queue takes, over every run of the channel, what its
  * totals count, and that what it took goes out.
  */
module Admission {
  import opened Basics
  import opened Frame
  import opened OutboundQueue
  import opened Channel

  /* ------------------------------------------------------------ room for a frame */

  /** Room for a frame beside the frames of its band accepted and not finished. */
  predicate HasRoom(f: seq<Byte>, owed: nat)
    requires |f| > 0
  {
    if IsBulk(f[0]) then owed == 0 || (|f| <= 1095 && owed < 4)
    else |f| <= 128 && owed < 2
  }

  predicate GoodPair(f: seq<Byte>, g: seq<Byte>) {
    IsFrame(f) && IsFrame(g) && !IsBulk(f[0]) && !IsBulk(g[0]) && |f| <= 128 && |g| <= 128
  }

  /** An offer is accepted exactly when it is a frame and its band has room for it. */
  lemma OfferDecides(q: Queue, f: seq<Byte>)
    requires Valid(q)
    ensures var r := Offer(q, f).1;
            && (r == BadFrame <==> !IsFrame(f))
            && (IsFrame(f) ==>
                  && (r == Accepted <==> HasRoom(f, |OwedIn(q, IsBulk(f[0]))|))
                  && (r == TooLong <==> !IsBulk(f[0]) && |f| > 128))
  {
  }

  /** A pair is accepted exactly when both are short priority frames, the band owes nothing, and no bulk frame has begun. */
  lemma PairDecides(q: Queue, f: seq<Byte>, g: seq<Byte>)
    requires Valid(q)
    ensures OfferPair(q, f, g).1 == Accepted <==> GoodPair(f, g) && OwedIn(q, false) == [] && !q.bulk.InFlight()
  {
  }

  /** A reset leaves nothing owed and every total as it was. */
  lemma ResetForgets(q: Queue, cause: Cause)
    ensures OwedIn(Reset(q), false) == [] && OwedIn(Reset(q), true) == [] && Peek(Reset(q)) == None
    ensures CountOf(Reset(q).tally, cause) == CountOf(q.tally, cause) && Reset(q).tally.refused == q.tally.refused
  {
  }

  /**
    * A frame's preamble is owed until it is noted, once: then the same frame is shown
    * with none owed, and when that is finished the next of its band owes its own.
    */
  lemma PreambleOnce(q: Queue)
    requires Valid(q) && Peek(q).Some? && Peek(q).value.preambleOwed
    ensures var v := Peek(q).value;
            var noted := NotePreamble(q, v.bulk);
            && noted.bulk.sent <= |noted.bulk.frame| && noted.priority.sent <= |noted.priority.frame|
            && Peek(noted) == Some(v.(preambleOwed := false))
            && var next := Advance(noted, v.bulk, v.remaining);
               BandOf(next, v.bulk).Holds() ==> ViewOf(BandOf(next, v.bulk), v.bulk).preambleOwed
  {
    var v := Peek(q).value;
    var waiting := if v.bulk then q.bulkWaiting else q.priorityWaiting;
    assert waiting != [] ==> waiting[0] in waiting;
  }

  /** A frame that has just become its band's owes its preamble. */
  lemma NewFrameOwes(q: Queue, f: seq<Byte>)
    requires Valid(q) && !q.priority.Holds() && !q.bulk.Holds() && Offer(q, f).1 == Accepted
    ensures var t := Offer(q, f).0;
            && t.bulk.sent <= |t.bulk.frame| && t.priority.sent <= |t.priority.frame|
            && Peek(t) == Some(View(f, |f|, |f|, IsBulk(f[0]), true))
  {
    assert f[0..] == f;
  }

  /* ------------------------------------------------------------- over every run */

  /** How many frames of a band a run has accepted and not finished. */
  function Unsent(s: Pump, bulk: bool): int {
    |OfBand(s.accepted, bulk)| - |OfBand(s.done, bulk)|
  }

  /** What an offer is refused for, by the frames and the history alone. */
  function Refusal(s: Pump, e: Event): Option<Cause> {
    match e
    case OfferOne(f) => Why(f, if |f| > 0 then Unsent(s, IsBulk(f[0])) else 0)
    case OfferTwo(f, g) => WhyPair(f, g, Unsent(s, false) == 0 && !s.q.bulk.InFlight())
    case _ => None
  }

  function Why(f: seq<Byte>, owed: int): Option<Cause> {
    if !IsFrame(f) then Some(BadHeader)
    else if owed >= 0 && HasRoom(f, owed) then None
    else if IsBulk(f[0]) then Some(BulkLane)
    else Some(PriorityLane)
  }

  function WhyPair(f: seq<Byte>, g: seq<Byte>, room: bool): Option<Cause> {
    if !IsFrame(f) || !IsFrame(g) then Some(BadHeader)
    else if GoodPair(f, g) && room then None
    else Some(PriorityLane)
  }

  function Counted(t: Tally, cause: Cause, why: Option<Cause>): nat {
    if why == Some(cause) then Bump(CountOf(t, cause)) else CountOf(t, cause)
  }

  lemma OfferIs(q: Queue, f: seq<Byte>, cause: Cause)
    requires Valid(q)
    ensures var why := Why(f, if |f| > 0 then |OwedIn(q, IsBulk(f[0]))| else 0);
            && CountOf(Offer(q, f).0.tally, cause) == Counted(q.tally, cause, why)
            && (Offer(q, f).1 == Accepted <==> why.None?)
  {
    OfferDecides(q, f);
  }

  lemma PairIs(q: Queue, f: seq<Byte>, g: seq<Byte>, cause: Cause)
    requires Valid(q)
    ensures var why := WhyPair(f, g, OwedIn(q, false) == [] && !q.bulk.InFlight());
            && CountOf(OfferPair(q, f, g).0.tally, cause) == Counted(q.tally, cause, why)
            && (OfferPair(q, f, g).1 == Accepted <==> why.None?)
  {
    PairDecides(q, f, g);
  }

  /** The frames an event adds to those accepted: all it offers, unless it is refused. */
  function Taken(s: Pump, e: Event): seq<Sent> {
    if Refusal(s, e).Some? then []
    else
      match e
      case OfferOne(f) => if |f| > 0 then [Sent(IsBulk(f[0]), f)] else []
      case OfferTwo(f, g) => [Sent(false, f), Sent(false, g)]
      case _ => []
  }

  ghost function AllTaken(s: Pump, events: seq<Event>): seq<Sent>
    requires Inv(s)
    decreases |events|
  {
    if events == [] then []
    else
      StepKeeps(s, events[0]);
      Taken(s, events[0]) + AllTaken(Step(s, events[0]), events[1..])
  }

  /** The offers of a run refused for a cause. */
  ghost function Refused(s: Pump, events: seq<Event>, cause: Cause): seq<Event>
    requires Inv(s)
    decreases |events|
  {
    if events == [] then []
    else
      StepKeeps(s, events[0]);
      RefusedNow(s, events[0], cause) + Refused(Step(s, events[0]), events[1..], cause)
  }

  function RefusedNow(s: Pump, e: Event, cause: Cause): seq<Event> {
    if Refusal(s, e) == Some(cause) then [e] else []
  }

  function CountOf(t: Tally, cause: Cause): nat {
    match cause
    case PriorityLane => t.priority
    case BulkLane => t.bulk
    case BadHeader => t.badHeader
  }

  lemma UnsentIs(s: Pump, bulk: bool)
    requires Fifo(s, bulk)
    ensures Unsent(s, bulk) == |OwedIn(s.q, bulk)|
  {
  }

  lemma OfferMoves(s: Pump, f: seq<Byte>, cause: Cause)
    requires Inv(s)
    ensures var e := OfferOne(f);
            && Step(s, e).accepted == s.accepted + Taken(s, e)
            && CountOf(Step(s, e).q.tally, cause) == Counted(s.q.tally, cause, Refusal(s, e))
  {
    OfferIs(s.q, f, cause);
    UnsentIs(s, true);
    UnsentIs(s, false);
  }

  lemma PairMoves(s: Pump, f: seq<Byte>, g: seq<Byte>, cause: Cause)
    requires Inv(s)
    ensures var e := OfferTwo(f, g);
            && Step(s, e).accepted == s.accepted + Taken(s, e)
            && CountOf(Step(s, e).q.tally, cause) == Counted(s.q.tally, cause, Refusal(s, e))
  {
    PairIs(s.q, f, g, cause);
    UnsentIs(s, false);
  }

  lemma DrainMoves(s: Pump, e: Event)
    requires Sane(s.q) && !e.OfferOne? && !e.OfferTwo?
    ensures Step(s, e).accepted == s.accepted && Step(s, e).q.tally == s.q.tally
  {
  }

  lemma StepMoves(s: Pump, e: Event, cause: Cause)
    requires Inv(s)
    ensures Step(s, e).accepted == s.accepted + Taken(s, e)
    ensures CountOf(Step(s, e).q.tally, cause) == Counted(s.q.tally, cause, Refusal(s, e))
  {
    match e {
      case OfferOne(f) => OfferMoves(s, f, cause);
      case OfferTwo(f, g) => PairMoves(s, f, g, cause);
      case _ =>
        DrainMoves(s, e);
        assert s.accepted + [] == s.accepted;
    }
  }

  function Saturated(n: nat): nat {
    if n <= U32_MAX then n else U32_MAX
  }

  lemma Saturates(n: nat)
    ensures Bump(Saturated(n)) == Saturated(n + 1)
  {
  }

  lemma FirstStep(s: Pump, events: seq<Event>, cause: Cause)
    requires Inv(s) && events != []
    ensures Inv(Step(s, events[0]))
    ensures Refused(s, events, cause) == RefusedNow(s, events[0], cause) + Refused(Step(s, events[0]), events[1..], cause)
    ensures RunFrom(s, events) == RunFrom(Step(s, events[0]), events[1..])
    ensures AllTaken(s, events) == Taken(s, events[0]) + AllTaken(Step(s, events[0]), events[1..])
  {
    StepKeeps(s, events[0]);
  }

  /** A total stands for the refusals so far. */
  predicate Counts(s: Pump, cause: Cause, past: seq<Event>) {
    CountOf(s.q.tally, cause) == Saturated(|past|)
  }

  lemma StepCounts(s: Pump, e: Event, cause: Cause, past: seq<Event>)
    requires Inv(s) && Counts(s, cause, past)
    ensures Counts(Step(s, e), cause, past + RefusedNow(s, e, cause))
  {
    StepMoves(s, e, cause);
    Saturates(|past|);
  }

  lemma {:induction false} RunCounts(s: Pump, events: seq<Event>, cause: Cause, past: seq<Event>)
    requires Inv(s) && Counts(s, cause, past)
    ensures Counts(RunFrom(s, events), cause, past + Refused(s, events, cause))
    decreases |events|
  {
    if events == [] {
      NothingMore(past);
    } else {
      FirstStep(s, events, cause);
      StepCounts(s, events[0], cause, past);
      var now := RefusedNow(s, events[0], cause);
      RunCounts(Step(s, events[0]), events[1..], cause, past + now);
      Regroup(past, now, Refused(Step(s, events[0]), events[1..], cause));
    }
  }

  lemma {:induction false} RunTakes(s: Pump, events: seq<Event>)
    requires Inv(s)
    ensures RunFrom(s, events).accepted == s.accepted + AllTaken(s, events)
    decreases |events|
  {
    if events == [] {
      NothingMore(s.accepted);
    } else {
      FirstStep(s, events, BadHeader);
      StepMoves(s, events[0], BadHeader);
      var t := Step(s, events[0]);
      RunTakes(t, events[1..]);
      Regroup(s.accepted, Taken(s, events[0]), AllTaken(t, events[1..]));
    }
  }

  /**
    * Over every run, the frames accepted are exactly those offered that were frames
    * with room in their band, and each total is the number of offers refused for its
    * cause.
    */
  lemma EveryOfferCounted(events: seq<Event>, cause: Cause)
    ensures Inv(START)
    ensures var s := RunFrom(START, events);
            && s.accepted == AllTaken(START, events)
            && CountOf(s.q.tally, cause) == Saturated(|Refused(START, events, cause)|)
  {
    StartGood();
    RunTakes(START, events);
    RunCounts(START, events, cause, []);
    AfterNone(AllTaken(START, events));
    AfterNone(Refused(START, events, cause));
  }

  lemma AfterNone<T>(s: seq<T>)
    ensures [] + s == s
  {
  }

  /* ---------------------------------------------------------------- it goes out */

  function Bytes(frames: seq<seq<Byte>>): nat {
    if frames == [] then 0 else |frames[0]| + Bytes(frames[1..])
  }

  function BandLeft(b: Band, waiting: seq<seq<Byte>>): int {
    |b.frame| - b.sent + Bytes(waiting)
  }

  /** The bytes accepted and not yet credited. */
  function Left(q: Queue): int {
    BandLeft(q.bulk, q.bulkWaiting) + BandLeft(q.priority, q.priorityWaiting)
  }

  /** The pump once round: a report chosen, taken by the transport or not, and credited if it was. */
  function Round(took: bool): seq<Event> {
    [ChooseReport, if took then TransportTakes else TransportRefuses, CreditReport]
  }

  function AfterRound(s: Pump, took: bool): Pump
    requires Sane(s.q)
  {
    Step(Step(Step(s, ChooseReport), if took then TransportTakes else TransportRefuses), CreditReport)
  }

  lemma RunsOn(s: Pump, e: Event, events: seq<Event>)
    requires Inv(s)
    ensures Inv(Step(s, e)) && RunFrom(s, [e] + events) == RunFrom(Step(s, e), events)
  {
    StepKeeps(s, e);
    FirstOff(e, events);
  }

  lemma FirstOff<T>(x: T, s: seq<T>)
    ensures [x] + s != [] && ([x] + s)[0] == x && ([x] + s)[1..] == s
  {
  }

  lemma RoundIs(s: Pump, took: bool, events: seq<Event>)
    requires Inv(s)
    ensures Inv(AfterRound(s, took)) && RunFrom(s, Round(took) + events) == RunFrom(AfterRound(s, took), events)
  {
    var go := if took then TransportTakes else TransportRefuses;
    var a := Step(s, ChooseReport);
    RunsOn(s, ChooseReport, [go] + ([CreditReport] + events));
    RunsOn(a, go, [CreditReport] + events);
    RunsOn(Step(a, go), CreditReport, events);
    OneByOne(ChooseReport, go, CreditReport, events);
  }

  lemma OneByOne<T>(x: T, y: T, z: T, rest: seq<T>)
    ensures [x, y, z] + rest == [x] + ([y] + ([z] + rest))
  {
  }

  /** Whatever the queue owes, there is a report to send. */
  lemma AlwaysChooses(q: Queue)
    requires Valid(q) && (OwedIn(q, false) != [] || OwedIn(q, true) != [])
    ensures Choose(q).Some?
  {
  }

  lemma AdvanceLeaves(q: Queue, bulk: bool, n: nat)
    requires Valid(q) && BandOf(q, bulk).Holds() && n > 0
    ensures Left(Advance(q, bulk, n)) < Left(q)
  {
  }

  lemma HeldLeaves(s: Pump)
    requires Inv(s) && s.held.Some? && s.held.value.taken
    ensures Left(Step(s, CreditReport).q) < Left(s.q)
  {
    var h := s.held.value;
    CreditIs(s, h);
    HeldTakes(h, BandOf(s.q, h.bulk), BandOf(s.q, !h.bulk), s.wire);
    AdvanceLeaves(s.q, h.bulk, h.take);
  }

  lemma HeldTakes(h: Held, b: Band, other: Band, wire: seq<seq<Byte>>)
    requires HeldOf(h, b, other, wire)
    ensures b.Holds() && h.take > 0
  {
  }

  /** The report chosen, if none was held, and taken, if it was not. */
  lemma TakenUp(s: Pump)
    requires Inv(s) && (s.held.Some? || OwedIn(s.q, false) != [] || OwedIn(s.q, true) != [])
    ensures var b := Step(Step(s, ChooseReport), TransportTakes);
            b.q == s.q && b.held.Some? && b.held.value.taken
  {
    PumpStepIs(s);
    if s.held.None? {
      AlwaysChooses(s.q);
    }
    PumpStepIs(Step(s, ChooseReport));
  }

  lemma RoundLeaves(s: Pump)
    requires Inv(s) && (s.held.Some? || OwedIn(s.q, false) != [] || OwedIn(s.q, true) != [])
    ensures Left(AfterRound(s, true).q) < Left(s.q)
  {
    TakenUp(s);
    var a := Step(s, ChooseReport);
    StepKeeps(s, ChooseReport);
    StepKeeps(a, TransportTakes);
    HeldLeaves(Step(a, TransportTakes));
  }

  lemma RefusedRound(s: Pump)
    requires Inv(s)
    ensures Left(AfterRound(s, false).q) <= Left(s.q)
  {
    PumpStepIs(s);
    var a := Step(s, ChooseReport);
    StepKeeps(s, ChooseReport);
    PumpStepIs(a);
    var b := Step(a, TransportRefuses);
    StepKeeps(a, TransportRefuses);
    if b.held.Some? && b.held.value.taken {
      HeldLeaves(b);
    } else {
      CreditIdle(b);
    }
  }

  lemma RoundRests(s: Pump)
    requires Inv(s) && s.held.None? && OwedIn(s.q, false) == [] && OwedIn(s.q, true) == []
    ensures AfterRound(s, true) == s && Left(s.q) == 0
  {
    PumpStepIs(s);
    CreditIdle(s);
  }

  lemma RoundAccepts(s: Pump, took: bool)
    requires Inv(s)
    ensures AfterRound(s, took).accepted == s.accepted
  {
    var go := if took then TransportTakes else TransportRefuses;
    var a := Step(s, ChooseReport);
    StepKeeps(s, ChooseReport);
    StepKeeps(a, go);
    DrainMoves(s, ChooseReport);
    DrainMoves(a, go);
    DrainMoves(Step(a, go), CreditReport);
  }

  /** The pump round and round, and whether the transport took the report each time. */
  function Rounds(took: seq<bool>): seq<Event> {
    if took == [] then [] else Round(took[0]) + Rounds(took[1..])
  }

  function Times(took: seq<bool>): nat {
    if took == [] then 0 else (if took[0] then 1 else 0) + Times(took[1..])
  }

  /** As many reports taken as bytes left is more than enough. */
  predicate Enough(s: Pump, took: seq<bool>) {
    Left(s.q) <= Times(took)
  }

  lemma LeftCounts(s: Pump)
    requires Inv(s)
    ensures Left(s.q) >= 0
    ensures Left(s.q) == 0 ==> OwedIn(s.q, false) == [] && OwedIn(s.q, true) == [] && s.held.None?
  {
  }

  lemma StillEnough(s: Pump, took: seq<bool>)
    requires Inv(s) && took != [] && Enough(s, took)
    ensures Enough(AfterRound(s, took[0]), took[1..])
  {
    if !took[0] {
      RefusedRound(s);
    } else if s.held.Some? || OwedIn(s.q, false) != [] || OwedIn(s.q, true) != [] {
      RoundLeaves(s);
    } else {
      RoundRests(s);
    }
  }

  lemma NoneLeft(s: Pump)
    requires Inv(s) && Enough(s, [])
    ensures OwedIn(s.q, false) == [] && OwedIn(s.q, true) == []
  {
    LeftCounts(s);
  }

  lemma {:induction false} DrainedBy(s: Pump, took: seq<bool>)
    requires Inv(s) && Enough(s, took)
    ensures var t := RunFrom(s, Rounds(took));
            OwedIn(t.q, false) == [] && OwedIn(t.q, true) == [] && t.accepted == s.accepted
    decreases |took|
  {
    if took == [] {
      NoneLeft(s);
    } else {
      RoundIs(s, took[0], Rounds(took[1..]));
      StillEnough(s, took);
      RoundAccepts(s, took[0]);
      DrainedBy(AfterRound(s, took[0]), took[1..]);
    }
  }

  /**
    * Nothing is starved. From any state of any run, and whatever reports the transport
    * refuses meanwhile, once it has taken enough of them every frame accepted is
    * finished, each band in order.
    */
  lemma EverythingGoesOut(s: Pump, took: seq<bool>)
    requires Inv(s) && Enough(s, took)
    ensures var t := RunFrom(s, Rounds(took));
            && OfBand(t.done, false) == OfBand(s.accepted, false)
            && OfBand(t.done, true) == OfBand(s.accepted, true)
  {
    DrainedBy(s, took);
    var t := RunFrom(s, Rounds(took));
    NothingMore(OfBand(t.done, false));
    NothingMore(OfBand(t.done, true));
  }
}
