/**
  * The placement a board owes its helper: a PLACE frame and the POS_QUERY that
  * reads the cursor back. Either core may owe one at any time; only core 0 builds
  * the frames, outside the lock, and offers them to the queue as a pair.
  */
module OwedPlace {
  import opened Basics
  import opened OutboundQueue
  import C = Channel

  type Word = n: int | 0 <= n < 0x1_0000_0000

  const STALE_MS := 30

  /** The session's framing of a body under its next counter, which this model does not look into. */
  datatype Sealer = Sealer(place: (seq<Byte>, nat) -> seq<Byte>, query: (Byte, nat) -> seq<Byte>)

  /** The fields the lock protects, and whether core 0 has a session. */
  datatype Desk = Desk(owed: Word, sent: Word, owedAt: Word, body: seq<Byte>, id: Byte, present: bool)

  datatype Captured = Captured(owed: Word, body: seq<Byte>, id: Byte)

  predicate Owing(d: Desk) {
    d.owed != d.sent
  }

  /** Past the crossing timeout, by a signed difference of the wrapping clock. */
  predicate Stale(d: Desk, now: Word) {
    STALE_MS < (now - d.owedAt) % 0x1_0000_0000 < 0x8000_0000
  }

  function Owe(d: Desk, body: seq<Byte>, id: Byte, now: Word): Desk {
    if d.present then d.(body := body, id := id, owedAt := now, owed := (d.owed + 1) % 0x1_0000_0000) else d
  }

  /** Retire a stale placement; what is left is retired. */
  function Expire(d: Desk, now: Word): Desk {
    if Owing(d) && Stale(d, now) then d.(sent := d.owed) else d
  }

  /** The first locked section of the pump: what to build, if anything is due and the lane can take a pair. */
  function Capture(d: Desk, busy: bool): Option<Captured> {
    if Owing(d) && !busy then Some(Captured(d.owed, d.body, d.id)) else None
  }

  function Retire(d: Desk): Desk {
    d.(sent := d.owed)
  }

  /* ------------------------------------------------------ two cores, in steps */

  datatype Request = Request(body: seq<Byte>, id: Byte, at: Word)

  /** Where the pump is: between calls, with a placement copied out, or with its frames built under a counter. */
  datatype Pumping = Resting | Copied(n: nat, c: Captured) | Built(n: nat, c: Captured, counter: nat)

  /** A pair the queue took, for the `n`th placement ever owed. */
  datatype Pair = Pair(n: nat, counter: nat)

  /**
    * The desk and the session's counter; and the history: every placement owed,
    * how many of them are settled, and every pair queued.
    */
  datatype Office = Office(desk: Desk, counter: nat, pumping: Pumping,
                           requests: seq<Request>, settled: nat, pairs: seq<Pair>)

  datatype Event =
    | OwePlace(body: seq<Byte>, id: Byte, now: Word)
    | PumpCopies(now: Word)
    | PumpBuilds(ok: bool)
    | PumpOffers
    | SessionEnds
    | SessionResets(present: bool)

  /**
    * One step of either core, given whether the lane is busy and whether it takes
    * the pair offered. The pump is core 0's, so nothing else of core 0's (a session
    * starting or ending) comes in the middle of it. A session the board ends leaves
    * the placement and the queue for the pump to find; a hello acknowledged or the
    * link lost retires the one and empties the other.
    */
  function Move(o: Office, e: Event, busy: bool, taken: bool): Office {
    match e
    case OwePlace(body, id, now) =>
      if !o.desk.present then o
      else o.(desk := Owe(o.desk, body, id, now), requests := o.requests + [Request(body, id, now)])
    case PumpCopies(now) =>
      if o.pumping != Resting then o else Copy(o, Expire(o.desk, now), busy)
    case PumpBuilds(ok) =>
      if !o.pumping.Copied? then o
      else if !o.desk.present then Settle(o)
      else if !ok then o.(pumping := Resting)
      else o.(pumping := Built(o.pumping.n, o.pumping.c, o.counter), counter := o.counter + 2)
    case PumpOffers =>
      if !o.pumping.Built? then o
      else if !taken then o.(pumping := Resting)
      else Settle(o).(pairs := o.pairs + [Pair(o.pumping.n, o.pumping.counter)])
    case SessionEnds =>
      if o.pumping != Resting then o else o.(desk := o.desk.(present := false))
    case SessionResets(present) =>
      if o.pumping != Resting then o
      else o.(desk := Retire(o.desk).(present := present), settled := |o.requests|)
  }

  function Copy(o: Office, d: Desk, busy: bool): Office {
    var v := o.(desk := d, settled := if d.sent == o.desk.sent then o.settled else |o.requests|);
    match Capture(d, busy)
    case None => v
    case Some(c) => v.(pumping := Copied(|o.requests|, c))
  }

  /** The placement the pump copied out is done with; one owed since is not. */
  function Settle(o: Office): Office
    requires o.pumping != Resting
  {
    o.(desk := o.desk.(sent := o.pumping.c.owed), settled := o.pumping.n, pumping := Resting)
  }

  /* ------------------------------------------------------------- invariants */

  /** The wrapping counters stand for the counts, and the desk holds the newest placement. */
  ghost predicate Counted(o: Office) {
    && o.desk.owed == |o.requests| % 0x1_0000_0000
    && o.settled <= |o.requests| && o.desk.sent == o.settled % 0x1_0000_0000
    && (o.requests != [] ==> o.requests[|o.requests| - 1] == Request(o.desk.body, o.desk.id, o.desk.owedAt))
  }

  /** What the pump copied out is one placement's own number, body and query, and it is not settled. */
  ghost predicate Copying(o: Office) {
    o.pumping != Resting ==>
      && o.settled < o.pumping.n <= |o.requests|
      && o.pumping.c.owed == o.pumping.n % 0x1_0000_0000
      && o.requests[o.pumping.n - 1].body == o.pumping.c.body && o.requests[o.pumping.n - 1].id == o.pumping.c.id
  }

  /** Pairs are for different placements, in order, all of them settled. */
  ghost predicate Ordered(pairs: seq<Pair>, settled: nat) {
    && (forall i :: 0 <= i < |pairs| ==> 0 < pairs[i].n <= settled)
    && (forall i, j :: 0 <= i < j < |pairs| ==> pairs[i].n < pairs[j].n)
  }

  ghost predicate Inv(o: Office) {
    Counted(o) && Copying(o) && Ordered(o.pairs, o.settled)
  }

  lemma OrderedMore(pairs: seq<Pair>, settled: nat, p: Pair)
    requires Ordered(pairs, settled) && settled < p.n
    ensures Ordered(pairs + [p], p.n)
  {
  }

  lemma MoveKeepsOrder(o: Office, e: Event, busy: bool, taken: bool)
    requires Inv(o)
    ensures var t := Move(o, e, busy, taken); Ordered(t.pairs, t.settled)
  {
    if e == PumpOffers && o.pumping.Built? {
      OrderedMore(o.pairs, o.settled, Pair(o.pumping.n, o.pumping.counter));
    }
  }

  /** Every step of either core keeps the desk, the pump and the history together. */
  lemma MoveKeeps(o: Office, e: Event, busy: bool, taken: bool)
    requires Inv(o)
    ensures Inv(Move(o, e, busy, taken))
  {
    MoveKeepsOrder(o, e, busy, taken);
  }

  /**
    * A pump step that queues a pair: it is for the placement copied out, with that
    * placement's own body and query. One owed since stays owed, with its own body
    * and query, unless it is exactly a multiple of 2^32 placements newer.
    */
  lemma NewerStaysOwed(o: Office, busy: bool)
    requires Inv(o) && o.pumping.Built?
    ensures var t := Move(o, PumpOffers, busy, true);
            var n := o.pumping.n;
            && t.pairs == o.pairs + [Pair(n, o.pumping.counter)]
            && o.requests[n - 1].body == o.pumping.c.body && o.requests[n - 1].id == o.pumping.c.id
            && t.requests == o.requests
            && (Owing(t.desk) <==> (|o.requests| - n) % 0x1_0000_0000 != 0)
            && Request(t.desk.body, t.desk.id, t.desk.owedAt) == o.requests[|o.requests| - 1]
  {
  }

  /** How long ago the newest placement was owed, on the wrapping clock; one stamped ahead of it counts as new. */
  function Age(o: Office, now: Word): nat
    requires o.requests != []
  {
    var age := (now - o.requests[|o.requests| - 1].at) % 0x1_0000_0000;
    if age < 0x8000_0000 then age else 0
  }

  /**
    * A pump that rests copies out the newest placement, its own body and query, exactly
    * when it is not settled, was owed at most 30 ms ago, and the lane can take a pair;
    * one older than that is settled unsent; and otherwise nothing happens.
    */
  lemma CopiesExactly(o: Office, now: Word, busy: bool)
    requires Inv(o) && o.pumping == Resting
    ensures var t := Move(o, PumpCopies(now), busy, false);
            var unsettled := (|o.requests| - o.settled) % 0x1_0000_0000 != 0;
            && t.requests == o.requests && t.pairs == o.pairs
            && (!unsettled ==> t == o)
            && (unsettled ==>
                  && o.requests != []
                  && var newest := o.requests[|o.requests| - 1];
                     if Age(o, now) > 30 then t.settled == |o.requests| && t.pumping == Resting && !Owing(t.desk)
                     else t == o.(pumping := if busy then Resting
                                             else Copied(|o.requests|, Captured(o.desk.owed, newest.body, newest.id))))
  {
  }

  /* ------------------------------------------ the desk in front of the channel */

  datatype World = World(office: Office, channel: C.Pump)

  /** The desk's own steps, and everything else that happens on the channel: other offers, and the drain. */
  datatype Happening = AtDesk(e: Event) | OnChannel(c: C.Event)

  function PlaceOf(seal: Sealer, p: Pumping): seq<Byte>
    requires p.Built?
  {
    seal.place(p.c.body, p.counter)
  }

  function QueryOf(seal: Sealer, p: Pumping): seq<Byte>
    requires p.Built?
  {
    seal.query(p.c.id, p.counter + 1)
  }

  predicate Takes(seal: Sealer, w: World) {
    w.office.pumping.Built? &&
    OfferPair(w.channel.q, PlaceOf(seal, w.office.pumping), QueryOf(seal, w.office.pumping)).1 == Accepted
  }

  /** What a happening is to the channel. Nobody but the pump offers pairs. */
  function Seen(seal: Sealer, w: World, h: Happening): seq<C.Event> {
    match h
    case OnChannel(c) => if c.OfferTwo? then [] else [c]
    case AtDesk(e) =>
      if e.PumpOffers? && w.office.pumping.Built?
      then [C.OfferTwo(PlaceOf(seal, w.office.pumping), QueryOf(seal, w.office.pumping))]
      else []
  }

  predicate Resets(w: World, h: Happening) {
    h.AtDesk? && h.e.SessionResets? && w.office.pumping == Resting && w.channel.held.None?
  }

  function Fresh(q: Queue): C.Pump {
    C.Pump(Reset(q), None, [], [], [])
  }

  ghost function ChannelAfter(seal: Sealer, w: World, h: Happening): C.Pump
    requires C.Inv(w.channel)
  {
    if Resets(w, h) then Fresh(w.channel.q) else C.RunFrom(w.channel, Seen(seal, w, h))
  }

  function OfficeAfter(seal: Sealer, w: World, h: Happening): Office {
    if h.OnChannel? || (h.e.SessionResets? && !Resets(w, h)) then w.office
    else Move(w.office, h.e, PairBusy(w.channel.q), Takes(seal, w))
  }

  /** A queue is emptied between drains: core 0 does both. */
  ghost function Step(seal: Sealer, w: World, h: Happening): World
    requires C.Inv(w.channel)
  {
    World(OfficeAfter(seal, w, h), ChannelAfter(seal, w, h))
  }

  ghost predicate Good(w: World) {
    Inv(w.office) && C.Inv(w.channel)
  }

  lemma FreshGood(q: Queue)
    requires TallyValid(q.tally)
    ensures C.Inv(Fresh(q))
  {
    C.WireEmpty([], []);
  }

  lemma ChannelKeeps(seal: Sealer, w: World, h: Happening)
    requires C.Inv(w.channel)
    ensures C.Inv(ChannelAfter(seal, w, h))
  {
    FreshGood(w.channel.q);
  }

  lemma StepKeeps(seal: Sealer, w: World, h: Happening)
    requires Good(w)
    ensures Good(Step(seal, w, h))
  {
    ChannelKeeps(seal, w, h);
    if h.AtDesk? {
      MoveKeeps(w.office, h.e, PairBusy(w.channel.q), Takes(seal, w));
    }
  }

  ghost function Run(seal: Sealer, w: World, hs: seq<Happening>): (t: World)
    requires Good(w)
    ensures Good(t)
    decreases |hs|
  {
    if hs == [] then w
    else
      StepKeeps(seal, w, hs[0]);
      Run(seal, Step(seal, w, hs[0]), hs[1..])
  }

  const START := World(Office(Desk(0, 0, 0, [], 0, false), 0, Resting, [], 0, []), C.START)

  /**
    * Over every interleaving of the two cores: each placement is queued at most
    * once, in the order owed, and each pair queued is for one placement.
    */
  lemma NeverTwice(seal: Sealer, hs: seq<Happening>)
    ensures Good(START) && Ordered(Run(seal, START, hs).office.pairs, |Run(seal, START, hs).office.requests|)
  {
    C.StartGood();
  }

  /** No session starts, and the link stays. */
  predicate SameSession(hs: seq<Happening>) {
    forall h :: h in hs ==> !(h.AtDesk? && h.e.SessionResets?)
  }

  ghost function SeenAll(seal: Sealer, w: World, hs: seq<Happening>): seq<C.Event>
    requires Good(w)
    decreases |hs|
  {
    if hs == [] then []
    else
      StepKeeps(seal, w, hs[0]);
      Seen(seal, w, hs[0]) + SeenAll(seal, Step(seal, w, hs[0]), hs[1..])
  }

  lemma {:induction false} RunFromConcat(s: C.Pump, a: seq<C.Event>, b: seq<C.Event>)
    requires C.Inv(s)
    ensures C.RunFrom(s, a + b) == C.RunFrom(C.RunFrom(s, a), b)
    decreases |a|
  {
    TailConcat(a, b);
    if a != [] {
      C.StepKeeps(s, a[0]);
      RunFromConcat(C.Step(s, a[0]), a[1..], b);
    }
  }

  lemma {:induction false} ChannelRuns(seal: Sealer, w: World, hs: seq<Happening>)
    requires Good(w) && SameSession(hs)
    ensures Run(seal, w, hs).channel == C.RunFrom(w.channel, SeenAll(seal, w, hs))
    decreases |hs|
  {
    if hs != [] {
      assert hs[0] in hs;
      StepKeeps(seal, w, hs[0]);
      var t := Step(seal, w, hs[0]);
      ChannelRuns(seal, t, hs[1..]);
      RunFromConcat(w.channel, Seen(seal, w, hs[0]), SeenAll(seal, t, hs[1..]));
    }
  }

  /**
    * Together or not at all. When the pump offers, either both frames are
    * accepted, each for the placement copied out, and they leave adjacent behind
    * at most one bulk frame whatever else happens in that session; or neither is,
    * and the placement stays owed as it was.
    */
  lemma PlaceWithItsQuery(seal: Sealer, w: World, hs: seq<Happening>)
    requires Good(w) && w.office.pumping.Built? && SameSession(hs)
    ensures var t := Step(seal, w, AtDesk(PumpOffers));
            var place, query := PlaceOf(seal, w.office.pumping), QueryOf(seal, w.office.pumping);
            && Good(t)
            && (if Takes(seal, w)
                then && t.office.pairs == w.office.pairs + [Pair(w.office.pumping.n, w.office.pumping.counter)]
                     && t.channel.accepted == w.channel.accepted + [C.Sent(false, place), C.Sent(false, query)]
                     && C.PairAt(Run(seal, t, hs).channel, w.channel.done, place, query)
                else t.office == w.office.(pumping := Resting) && t.channel.accepted == w.channel.accepted)
  {
    StepKeeps(seal, w, AtDesk(PumpOffers));
    OffersOnce(seal, w);
    OfficeOffers(seal, w);
    if Takes(seal, w) {
      TakenPairLeaves(seal, w, Step(seal, w, AtDesk(PumpOffers)), hs);
    } else {
      assert w.channel.accepted + [] == w.channel.accepted;
    }
  }

  lemma OfficeOffers(seal: Sealer, w: World)
    requires w.office.pumping.Built?
    ensures var o := OfficeAfter(seal, w, AtDesk(PumpOffers));
            if Takes(seal, w)
            then o.pairs == w.office.pairs + [Pair(w.office.pumping.n, w.office.pumping.counter)]
            else o == w.office.(pumping := Resting)
  {
  }

  lemma TakenPairLeaves(seal: Sealer, w: World, t: World, hs: seq<Happening>)
    requires C.Inv(w.channel) && Takes(seal, w) && SameSession(hs) && Good(t)
    requires t.channel == C.Step(w.channel, C.OfferTwo(PlaceOf(seal, w.office.pumping), QueryOf(seal, w.office.pumping)))
    ensures C.PairAt(Run(seal, t, hs).channel, w.channel.done,
                     PlaceOf(seal, w.office.pumping), QueryOf(seal, w.office.pumping))
  {
    ChannelRuns(seal, t, hs);
    C.PairLeavesAdjacent(w.channel, PlaceOf(seal, w.office.pumping), QueryOf(seal, w.office.pumping),
                         SeenAll(seal, t, hs));
  }

  lemma OffersOnce(seal: Sealer, w: World)
    requires Good(w) && w.office.pumping.Built?
    ensures var p := w.office.pumping;
            var channel := C.Step(w.channel, C.OfferTwo(PlaceOf(seal, p), QueryOf(seal, p)));
            && ChannelAfter(seal, w, AtDesk(PumpOffers)) == channel
            && channel.accepted == w.channel.accepted
                 + if Takes(seal, w) then [C.Sent(false, PlaceOf(seal, p)), C.Sent(false, QueryOf(seal, p))] else []
  {
    var p := w.office.pumping;
    var e := C.OfferTwo(PlaceOf(seal, p), QueryOf(seal, p));
    C.StepKeeps(w.channel, e);
    RunOnce(w.channel, e);
  }

  lemma RunOnce(s: C.Pump, e: C.Event)
    requires C.Inv(s)
    ensures C.RunFrom(s, [e]) == C.Step(s, e)
  {
    C.StepKeeps(s, e);
    assert [e][1..] == [];
  }

  /* ------------------------------------------------------------ the machine */

  /** The fields of the lifecycle a placement uses, each method one locked section. */
  class PlaceDesk {
    const out: OutQueue
    var placeOwed: Word
    var placeSent: Word
    var placeOwedAt: Word
    var placeBody: seq<Byte>
    var placeQueryId: Byte
    var present: bool

    ghost function State(): Desk
      reads this
    {
      Desk(placeOwed, placeSent, placeOwedAt, placeBody, placeQueryId, present)
    }

    constructor (queue: OutQueue)
      ensures out == queue && State() == START.office.desk
    {
      out := queue;
      placeOwed, placeSent, placeOwedAt, placeBody, placeQueryId, present := 0, 0, 0, [], 0, false;
    }

    method OweOne(body: seq<Byte>, id: Byte, now: Word) returns (owed: bool)
      modifies this
      ensures owed == old(present) && State() == Owe(old(State()), body, id, now)
    {
      owed := present;
      if owed {
        placeBody := body;
        placeQueryId := id;
        placeOwedAt := now;
        placeOwed := (placeOwed + 1) % 0x1_0000_0000;
      }
    }

    method CopyOut(now: Word) returns (due: Option<Captured>)
      requires out.Ok()
      modifies this`placeSent
      ensures State() == Expire(old(State()), now)
      ensures due == Capture(State(), PairBusy(out.State()))
    {
      var owed := placeOwed;
      if owed != placeSent && STALE_MS < (now - placeOwedAt) % 0x1_0000_0000 < 0x8000_0000 {
        placeSent := owed;
      }
      var busy := out.PairIsBusy();
      due := if owed != placeSent && !busy then Some(Captured(owed, placeBody, placeQueryId)) else None;
    }

    /** Both frames or neither; the placement copied out is settled only with them. */
    method OfferPlacement(c: Captured, place: seq<Byte>, query: seq<Byte>) returns (queued: bool)
      requires out.Ok() && out as object != this
      modifies this`placeSent, out, out.priorityStage
      ensures out.Ok()
      ensures var (q, r) := OfferPair(old(out.State()), place, query);
              && out.State() == q && queued == (r == Accepted)
              && State() == (if queued then old(State()).(sent := c.owed) else old(State()))
    {
      var r := out.OfferTwo(place, query);
      queued := r == Accepted;
      if queued {
        placeSent := c.owed;
      }
    }
  }
}
