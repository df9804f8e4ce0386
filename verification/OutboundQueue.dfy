/**
  * The device's outbound frame queue: a priority band and a bulk band, each one
  * frame being drained and a short ring of frames waiting behind it.
  *
  * `Queue` and the functions on it say what each operation means, with the rings
  * as plain sequences; `OutQueue` is the machine with the rings.
  */
module OutboundQueue {
  import opened Basics
  import opened Frame

  const PRIORITY_MAX := 128
  const PRIORITY_DEPTH := 1
  const STAGE_MAX := 1095
  const DEPTH := 3

  /** One band's progress through the frame it holds; no frame when it holds nothing. */
  datatype Band = Band(frame: seq<Byte>, sent: nat, preambleDone: bool) {
    predicate Holds() { frame != [] }

    /** Anything of the frame has reached the transport, so it must finish before another may begin. */
    predicate InFlight() { Holds() && (sent > 0 || preambleDone) }

    predicate Valid() {
      if Holds() then IsFrame(frame) && sent < |frame| else sent == 0 && !preambleDone
    }
  }

  const EMPTY := Band([], 0, false)

  /** Frames refused, in total and by cause. Every counter saturates. */
  datatype Tally = Tally(refused: nat, priority: nat, bulk: nat, badHeader: nat)

  datatype Cause = PriorityLane | BulkLane | BadHeader

  function Bump(n: nat): nat {
    if n < U32_MAX then n + 1 else n
  }

  function Refuse(t: Tally, cause: Cause): Tally {
    var total := t.(refused := Bump(t.refused));
    match cause
    case PriorityLane => total.(priority := Bump(t.priority))
    case BulkLane => total.(bulk := Bump(t.bulk))
    case BadHeader => total.(badHeader := Bump(t.badHeader))
  }

  datatype Queue = Queue(priority: Band, priorityWaiting: seq<seq<Byte>>,
                         bulk: Band, bulkWaiting: seq<seq<Byte>>, tally: Tally)

  datatype OfferResult = Accepted | Busy | TooLong | BadFrame

  datatype View = View(at: seq<Byte>, remaining: nat, total: nat, bulk: bool, preambleOwed: bool)

  const NOTHING_REFUSED := Tally(0, 0, 0, 0)

  /** An empty queue that remembers what has been refused. */
  function Emptied(t: Tally): Queue {
    Queue(EMPTY, [], EMPTY, [], t)
  }

  predicate WellFormedPriority(f: seq<Byte>) {
    IsFrame(f) && !IsBulk(f[0]) && |f| <= PRIORITY_MAX
  }

  predicate WellFormedBulk(f: seq<Byte>) {
    IsFrame(f) && IsBulk(f[0])
  }

  /** What every operation keeps. */
  ghost predicate Valid(q: Queue) {
    && q.priority.Valid() && q.bulk.Valid()
    && (q.priority.Holds() ==> WellFormedPriority(q.priority.frame))
    && (q.bulk.Holds() ==> WellFormedBulk(q.bulk.frame))
    && |q.priorityWaiting| <= PRIORITY_DEPTH && |q.bulkWaiting| <= DEPTH
    && (forall f :: f in q.priorityWaiting ==> WellFormedPriority(f))
    && (forall f :: f in q.bulkWaiting ==> WellFormedBulk(f) && |f| <= STAGE_MAX)
    && (!q.priority.Holds() ==> q.priorityWaiting == [])
    && (!q.bulk.Holds() ==> q.bulkWaiting == [])
    && !(q.priority.InFlight() && q.bulk.InFlight())
    && TallyValid(q.tally)
  }

  /** `refused` is the saturating sum of its causes. */
  predicate TallyValid(t: Tally) {
    && t.priority <= U32_MAX && t.bulk <= U32_MAX && t.badHeader <= U32_MAX
    && t.refused == if t.priority + t.bulk + t.badHeader <= U32_MAX
                    then t.priority + t.bulk + t.badHeader else U32_MAX
  }

  /** The band that owes the next thing: bulk in flight finishes, else priority, else bulk. */
  function OwesBulk(q: Queue): Option<bool> {
    if q.bulk.InFlight() then Some(true)
    else if q.priority.Holds() then Some(false)
    else if q.bulk.Holds() then Some(true)
    else None
  }

  function Offer(q: Queue, f: seq<Byte>): (Queue, OfferResult) {
    if !IsFrame(f) then (q.(tally := Refuse(q.tally, BadHeader)), BadFrame)
    else if !IsBulk(f[0]) then
      if |f| > PRIORITY_MAX then (q.(tally := Refuse(q.tally, PriorityLane)), TooLong)
      else if !q.priority.Holds() then (q.(priority := Band(f, 0, false)), Accepted)
      else if |q.priorityWaiting| >= PRIORITY_DEPTH then (q.(tally := Refuse(q.tally, PriorityLane)), Busy)
      else (q.(priorityWaiting := q.priorityWaiting + [f]), Accepted)
    else if !q.bulk.Holds() then (q.(bulk := Band(f, 0, false)), Accepted)
    else if |f| > STAGE_MAX || |q.bulkWaiting| >= DEPTH then (q.(tally := Refuse(q.tally, BulkLane)), Busy)
    else (q.(bulkWaiting := q.bulkWaiting + [f]), Accepted)
  }

  predicate PairBusy(q: Queue) {
    q.priority.Holds() || q.priorityWaiting != [] || q.bulk.InFlight()
  }

  /** Two priority frames in order, or neither. */
  function OfferPair(q: Queue, first: seq<Byte>, second: seq<Byte>): (Queue, OfferResult) {
    if !IsFrame(first) || !IsFrame(second) then (q.(tally := Refuse(q.tally, BadHeader)), BadFrame)
    else if IsBulk(first[0]) || IsBulk(second[0]) then (q.(tally := Refuse(q.tally, PriorityLane)), BadFrame)
    else if |first| > PRIORITY_MAX || |second| > PRIORITY_MAX then (q.(tally := Refuse(q.tally, PriorityLane)), TooLong)
    else if PairBusy(q) then (q.(tally := Refuse(q.tally, PriorityLane)), Busy)
    else (q.(priority := Band(first, 0, false), priorityWaiting := [second]), Accepted)
  }

  function ViewOf(b: Band, bulk: bool): View
    requires b.sent <= |b.frame|
  {
    View(b.frame[b.sent..], |b.frame| - b.sent, |b.frame|, bulk, !b.preambleDone)
  }

  function Peek(q: Queue): Option<View>
    requires q.bulk.sent <= |q.bulk.frame| && q.priority.sent <= |q.priority.frame|
  {
    match OwesBulk(q)
    case None => None
    case Some(bulk) => Some(ViewOf(if bulk then q.bulk else q.priority, bulk))
  }

  /** The next waiting frame becomes the band's frame. */
  function Promoted(waiting: seq<seq<Byte>>): (Band, seq<seq<Byte>>) {
    if waiting == [] then (EMPTY, []) else (Band(waiting[0], 0, false), waiting[1..])
  }

  /** `n` bytes of the band the view named reached the transport. */
  function Advance(q: Queue, bulk: bool, n: nat): Queue {
    var b := if bulk then q.bulk else q.priority;
    if !b.Holds() then q
    else if b.sent + n < |b.frame| then
      var moved := b.(sent := b.sent + n);
      if bulk then q.(bulk := moved) else q.(priority := moved)
    else if bulk then
      var (next, rest) := Promoted(q.bulkWaiting);
      q.(bulk := next, bulkWaiting := rest)
    else
      var (next, rest) := Promoted(q.priorityWaiting);
      q.(priority := next, priorityWaiting := rest)
  }

  function NotePreamble(q: Queue, bulk: bool): Queue {
    if bulk then (if q.bulk.Holds() then q.(bulk := q.bulk.(preambleDone := true)) else q)
    else if q.priority.Holds() then q.(priority := q.priority.(preambleDone := true))
    else q
  }

  /** Everything queued is dropped; the four totals are kept. */
  function Reset(q: Queue): Queue {
    Emptied(q.tally)
  }

  /* ------------------------------------------------------------- invariants */

  lemma RefuseKeeps(t: Tally, cause: Cause)
    requires TallyValid(t)
    ensures TallyValid(Refuse(t, cause))
  {
  }

  lemma RefusedKeeps(q: Queue, cause: Cause)
    requires Valid(q)
    ensures Valid(q.(tally := Refuse(q.tally, cause)))
  {
    RefuseKeeps(q.tally, cause);
  }

  lemma AcceptedKeeps(q: Queue, f: seq<Byte>)
    requires Valid(q) && Offer(q, f).1 == Accepted
    ensures Valid(Offer(q, f).0)
  {
  }

  lemma RefusedOnlyCounts(q: Queue, f: seq<Byte>)
    requires Offer(q, f).1 != Accepted
    ensures Offer(q, f).0 == q.(tally := Offer(q, f).0.tally)
    ensures Offer(q, f).0.tally in {Refuse(q.tally, BadHeader), Refuse(q.tally, PriorityLane), Refuse(q.tally, BulkLane)}
  {
  }

  /** An offer keeps the queue valid, and one refused changes only the totals. */
  lemma OfferKeeps(q: Queue, f: seq<Byte>)
    requires Valid(q)
    ensures Valid(Offer(q, f).0)
    ensures Offer(q, f).1 != Accepted ==> Offer(q, f).0 == q.(tally := Offer(q, f).0.tally)
  {
    if Offer(q, f).1 == Accepted {
      AcceptedKeeps(q, f);
    } else {
      RefusedOnlyCounts(q, f);
      RefusedKeeps(q, BadHeader);
      RefusedKeeps(q, PriorityLane);
      RefusedKeeps(q, BulkLane);
    }
  }

  lemma OfferPairKeeps(q: Queue, first: seq<Byte>, second: seq<Byte>)
    requires Valid(q)
    ensures Valid(OfferPair(q, first, second).0)
    ensures OfferPair(q, first, second).1 != Accepted ==>
              OfferPair(q, first, second).0 == q.(tally := OfferPair(q, first, second).0.tally)
  {
    RefuseKeeps(q.tally, BadHeader);
    RefuseKeeps(q.tally, PriorityLane);
  }

  /**
    * Crediting a band keeps the queue valid except when it puts a second band in
    * flight: part of a frame, while the other band has begun its own.
    */
  lemma AdvanceKeeps(q: Queue, bulk: bool, n: nat)
    requires Valid(q)
    ensures var b, other := if bulk then q.bulk else q.priority, if bulk then q.priority else q.bulk;
            Valid(Advance(q, bulk, n)) <==> !(other.InFlight() && b.Holds() && 0 < n < |b.frame|)
  {
    if bulk && q.bulkWaiting != [] {
      assert q.bulkWaiting[0] in q.bulkWaiting;
    }
    if !bulk && q.priorityWaiting != [] {
      assert q.priorityWaiting[0] in q.priorityWaiting;
    }
  }

  /** And so does noting a preamble, which always puts the band that holds a frame in flight. */
  lemma PreambleKeeps(q: Queue, bulk: bool)
    requires Valid(q)
    ensures var b, other := if bulk then q.bulk else q.priority, if bulk then q.priority else q.bulk;
            Valid(NotePreamble(q, bulk)) <==> !(other.InFlight() && b.Holds())
  {
  }

  /* ------------------------------------------------------------ the machine */

  /** The index `x` steps into a ring of `n`, for less than two turns. */
  function Wrap(x: nat, n: nat): (i: nat)
    requires 0 < n && x < 2 * n
    ensures i == x % n
  {
    assert x >= n ==> x == n * 1 + (x - n);
    if x < n then x else x - n
  }

  /** A ring's frames, oldest first. */
  ghost function RingContents(slots: seq<seq<Byte>>, first: nat, used: nat): (s: seq<seq<Byte>>)
    requires first < |slots| && used <= |slots|
    ensures |s| == used
    decreases used
  {
    if used == 0 then []
    else [slots[first]] + RingContents(slots, Wrap(first + 1, |slots|), used - 1)
  }

  /** Writing the slot behind the newest frame appends to the ring. */
  lemma {:induction false} RingPut(slots: seq<seq<Byte>>, first: nat, used: nat, f: seq<Byte>)
    requires first < |slots| && used < |slots|
    ensures RingContents(slots[Wrap(first + used, |slots|) := f], first, used + 1) == RingContents(slots, first, used) + [f]
    decreases used
  {
    if used > 0 {
      var next := Wrap(first + 1, |slots|);
      assert Wrap(next + (used - 1), |slots|) == Wrap(first + used, |slots|);
      RingPut(slots, next, used - 1, f);
    }
  }

  /** Write the slot behind a ring's newest frame. */
  method Write(ring: array<seq<Byte>>, first: nat, used: nat, f: seq<Byte>)
    requires first < ring.Length && used < ring.Length
    modifies ring
    ensures RingContents(ring[..], first, used + 1) == old(RingContents(ring[..], first, used)) + [f]
  {
    RingPut(ring[..], first, used, f);
    var at := Wrap(first + used, ring.Length);
    ghost var slots := ring[..];
    ring[at] := f;
    assert ring[..] == slots[at := f];
  }

  class OutQueue {
    var priority: Band
    const priorityStage: array<seq<Byte>>
    var priorityFirst: nat
    var priorityUsed: nat
    var bulk: Band
    const stage: array<seq<Byte>>
    var stageFirst: nat
    var stageUsed: nat
    var refused: nat
    var refusedPriority: nat
    var refusedBulk: nat
    var refusedBadHeader: nat

    ghost predicate Shape()
      reads this
    {
      && priorityStage != stage
      && priorityStage.Length == PRIORITY_DEPTH && stage.Length == DEPTH
      && priorityFirst < PRIORITY_DEPTH && priorityUsed <= PRIORITY_DEPTH
      && stageFirst < DEPTH && stageUsed <= DEPTH
    }

    ghost function State(): Queue
      requires Shape()
      reads this, priorityStage, stage
    {
      Queue(priority, RingContents(priorityStage[..], priorityFirst, priorityUsed),
            bulk, RingContents(stage[..], stageFirst, stageUsed),
            Tally(refused, refusedPriority, refusedBulk, refusedBadHeader))
    }

    ghost predicate Ok()
      reads this, priorityStage, stage
    {
      Shape() && Valid(State())
    }

    constructor ()
      ensures Ok() && State() == Emptied(NOTHING_REFUSED)
      ensures fresh(priorityStage) && fresh(stage)
    {
      priority, bulk := EMPTY, EMPTY;
      priorityStage := new seq<Byte>[PRIORITY_DEPTH](_ => []);
      stage := new seq<Byte>[DEPTH](_ => []);
      priorityFirst, priorityUsed, stageFirst, stageUsed := 0, 0, 0, 0;
      refused, refusedPriority, refusedBulk, refusedBadHeader := 0, 0, 0, 0;
    }

    /** Every refusal is counted twice: in the total, and against its cause. */
    method CountRefusal(cause: Cause)
      requires Shape()
      modifies this`refused, this`refusedPriority, this`refusedBulk, this`refusedBadHeader
      ensures Shape() && State() == old(State()).(tally := Refuse(old(State()).tally, cause))
    {
      refused := Bump(refused);
      match cause {
        case PriorityLane => refusedPriority := Bump(refusedPriority);
        case BulkLane => refusedBulk := Bump(refusedBulk);
        case BadHeader => refusedBadHeader := Bump(refusedBadHeader);
      }
    }

    method OfferPriority(f: seq<Byte>) returns (result: OfferResult)
      requires Shape() && IsFrame(f) && !IsBulk(f[0])
      modifies this, priorityStage
      ensures Shape() && (State(), result) == Offer(old(State()), f)
    {
      if |f| > PRIORITY_MAX {
        CountRefusal(PriorityLane);
        return TooLong;
      }
      if priority.Holds() {
        if priorityUsed >= PRIORITY_DEPTH {
          CountRefusal(PriorityLane);
          return Busy;
        }
        Write(priorityStage, priorityFirst, priorityUsed, f);
        priorityUsed := priorityUsed + 1;
        return Accepted;
      }
      priority := Band(f, 0, false);
      return Accepted;
    }

    method OfferBulk(f: seq<Byte>) returns (result: OfferResult)
      requires Shape() && IsFrame(f) && IsBulk(f[0])
      modifies this, stage
      ensures Shape() && (State(), result) == Offer(old(State()), f)
    {
      if !bulk.Holds() {
        bulk := Band(f, 0, false);
        return Accepted;
      }
      if |f| > STAGE_MAX || stageUsed >= DEPTH {
        CountRefusal(BulkLane);
        return Busy;
      }
      Write(stage, stageFirst, stageUsed, f);
      stageUsed := stageUsed + 1;
      return Accepted;
    }

    method OfferFrame(f: seq<Byte>) returns (result: OfferResult)
      requires Ok()
      modifies this, priorityStage, stage
      ensures Ok() && (State(), result) == Offer(old(State()), f)
    {
      OfferKeeps(State(), f);
      result := OfferAny(f);
    }

    method OfferAny(f: seq<Byte>) returns (result: OfferResult)
      requires Shape()
      modifies this, priorityStage, stage
      ensures Shape() && (State(), result) == Offer(old(State()), f)
    {
      var parse := ParseHeader(f);
      if !parse.Parsed? || |f| != HEADER_SIZE + parse.hdr.len {
        CountRefusal(BadHeader);
        return BadFrame;
      }
      if !IsBulk(parse.hdr.kind) {
        result := OfferPriority(f);
      } else {
        result := OfferBulk(f);
      }
    }

    method OfferTwo(first: seq<Byte>, second: seq<Byte>) returns (result: OfferResult)
      requires Ok()
      modifies this, priorityStage
      ensures Ok() && (State(), result) == OfferPair(old(State()), first, second)
    {
      OfferPairKeeps(State(), first, second);
      result := OfferBoth(first, second);
    }

    method OfferBoth(first: seq<Byte>, second: seq<Byte>) returns (result: OfferResult)
      requires Shape()
      modifies this, priorityStage
      ensures Shape() && (State(), result) == OfferPair(old(State()), first, second)
    {
      if !IsFrame(first) || !IsFrame(second) {
        CountRefusal(BadHeader);
        return BadFrame;
      }
      if IsBulk(first[0]) || IsBulk(second[0]) {
        CountRefusal(PriorityLane);
        return BadFrame;
      }
      if |first| > PRIORITY_MAX || |second| > PRIORITY_MAX {
        CountRefusal(PriorityLane);
        return TooLong;
      }
      if priority.Holds() || priorityUsed > 0 || bulk.InFlight() {
        CountRefusal(PriorityLane);
        return Busy;
      }
      priority := Band(first, 0, false);
      priorityStage[0] := second;
      priorityFirst := 0;
      priorityUsed := 1;
      assert RingContents(priorityStage[..], priorityFirst, priorityUsed) == [second];
      return Accepted;
    }

    /** Whether a pair would have to wait. */
    method PairIsBusy() returns (busy: bool)
      requires Ok()
      ensures busy == PairBusy(State())
    {
      busy := priority.Holds() || priorityUsed > 0 || bulk.InFlight();
    }

    method PeekNext() returns (view: Option<View>)
      requires Ok()
      ensures view == Peek(State())
    {
      if bulk.InFlight() {
        return Some(ViewOf(bulk, true));
      } else if priority.Holds() {
        return Some(ViewOf(priority, false));
      } else if bulk.Holds() {
        return Some(ViewOf(bulk, true));
      }
      return None;
    }

    method Promote()
      requires Shape()
      modifies this`bulk, this`stageFirst, this`stageUsed
      ensures Shape()
      ensures var (next, rest) := Promoted(old(State()).bulkWaiting);
              State() == old(State()).(bulk := next, bulkWaiting := rest)
    {
      bulk := EMPTY;
      if stageUsed == 0 {
        return;
      }
      bulk := Band(stage[stageFirst], 0, false);
      stageFirst := Wrap(stageFirst + 1, DEPTH);
      stageUsed := stageUsed - 1;
    }

    method PromotePriority()
      requires Shape()
      modifies this`priority, this`priorityFirst, this`priorityUsed
      ensures Shape()
      ensures var (next, rest) := Promoted(old(State()).priorityWaiting);
              State() == old(State()).(priority := next, priorityWaiting := rest)
    {
      priority := EMPTY;
      if priorityUsed == 0 {
        return;
      }
      priority := Band(priorityStage[priorityFirst], 0, false);
      priorityFirst := Wrap(priorityFirst + 1, PRIORITY_DEPTH);
      priorityUsed := priorityUsed - 1;
    }

    /** Credit the band the caller was shown, not whatever is owed by now. */
    method Credit(toBulk: bool, n: nat)
      requires Ok()
      modifies this
      ensures Shape() && State() == Advance(old(State()), toBulk, n)
      ensures !old((if toBulk then priority else bulk).InFlight()) ==> Ok()
    {
      AdvanceKeeps(State(), toBulk, n);
      CreditBand(toBulk, n);
    }

    method CreditBand(toBulk: bool, n: nat)
      requires Shape() && bulk.sent <= |bulk.frame| && priority.sent <= |priority.frame|
      modifies this
      ensures Shape() && State() == Advance(old(State()), toBulk, n)
    {
      var b := if toBulk then bulk else priority;
      if !b.Holds() {
        return;
      }
      var remaining := |b.frame| - b.sent;
      var sent := b.sent + if n < remaining then n else remaining;
      if sent < |b.frame| {
        if toBulk {
          bulk := bulk.(sent := sent);
        } else {
          priority := priority.(sent := sent);
        }
        return;
      }
      if toBulk {
        Promote();
      } else {
        PromotePriority();
      }
    }

    method PreambleSent(toBulk: bool)
      requires Ok()
      modifies this`bulk, this`priority
      ensures Shape() && State() == NotePreamble(old(State()), toBulk)
      ensures !old((if toBulk then priority else bulk).InFlight()) ==> Ok()
    {
      PreambleKeeps(State(), toBulk);
      if toBulk {
        if bulk.Holds() {
          bulk := bulk.(preambleDone := true);
        }
      } else if priority.Holds() {
        priority := priority.(preambleDone := true);
      }
    }

    method Clear()
      requires Ok()
      modifies this
      ensures Ok() && State() == Reset(old(State()))
    {
      priority, bulk := EMPTY, EMPTY;
      priorityFirst, priorityUsed, stageFirst, stageUsed := 0, 0, 0, 0;
    }
  }
}
