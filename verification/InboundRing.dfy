/**
  * The inbound handoff between the two cores: a four-slot ring with one producer
  * and one consumer and no lock, indexed by byte counters that run free and wrap.
  */
module InboundRing {
  import opened Basics
  import opened Frame

  const SLOT_MAX := 1095
  const DEPTH := 4

  type Wrapping = n: int | 0 <= n < 256

  function Next(n: Wrapping): Wrapping {
    (n + 1) % 256
  }

  /** Frames waiting, as the machine computes it: a byte subtraction. */
  function Waiting(tail: Wrapping, head: Wrapping): Wrapping {
    (tail - head) % 256
  }

  function SlotAt(counter: Wrapping): (i: nat)
    ensures i < DEPTH
  {
    counter % 4
  }

  predicate Fits(f: seq<Byte>) {
    0 < |f| <= SLOT_MAX
  }

  /* ------------------------------------------- two cores, one step at a time */

  /** Where the producing core is: copying a frame into a slot it found free, or between calls. */
  datatype Producer = Resting | Copying(frame: seq<Byte>)

  /** Where the consuming core is: reading the slot it peeked, part-way through a reset, or between calls. */
  datatype Consumer = Away | Reading | Resetting(seen: Wrapping, upTo: nat)

  /**
    * The shared ring and both cores, and the history that gives it meaning: the
    * frame staged, every frame published, and how many of those are gone.
    */
  datatype World = World(slots: seq<seq<Byte>>, head: Wrapping, tail: Wrapping, staged: bool, dropped: nat,
                         producer: Producer, consumer: Consumer,
                         intent: seq<Byte>, published: seq<seq<Byte>>, gone: nat)

  datatype Event =
    | StageCheck(frame: seq<Byte>)
    | CopySome(part: seq<Byte>)
    | CopyDone
    | Publish
    | Peek
    | Release
    | ResetRead
    | ResetWrite

  /** One access to shared state by either core; a frame being copied may read as anything until it is all there. */
  function Step(w: World, e: Event): World
    requires |w.slots| == DEPTH
  {
    match e
    case StageCheck(f) =>
      if w.producer != Resting then w
      else if !Fits(f) || Waiting(w.tail, w.head) >= DEPTH
      then w.(staged := false, dropped := if w.dropped != U32_MAX then w.dropped + 1 else w.dropped)
      else w.(producer := Copying(f))
    case CopySome(part) =>
      if w.producer == Resting then w else w.(slots := w.slots[SlotAt(w.tail) := part])
    case CopyDone =>
      if w.producer == Resting then w
      else w.(slots := w.slots[SlotAt(w.tail) := w.producer.frame], staged := true, intent := w.producer.frame,
              producer := Resting)
    case Publish =>
      if w.producer != Resting || !w.staged then w
      else w.(staged := false, tail := Next(w.tail), published := w.published + [w.intent])
    case Peek =>
      if w.consumer != Away || Waiting(w.tail, w.head) == 0 then w else w.(consumer := Reading)
    case Release =>
      if w.consumer != Reading then w
      else w.(head := Next(w.head), consumer := Away, gone := w.gone + 1)
    case ResetRead =>
      if w.consumer != Away then w else w.(consumer := Resetting(w.tail, |w.published|))
    case ResetWrite =>
      if !w.consumer.Resetting? then w
      else w.(head := w.consumer.seen, gone := w.consumer.upTo, consumer := Away)
  }

  const EMPTY := World([[], [], [], []], 0, 0, false, 0, Resting, Away, [], [], 0)

  /** The frames in the ring, oldest first. */
  function Queue(w: World): seq<seq<Byte>>
    requires w.gone <= |w.published|
  {
    w.published[w.gone..]
  }

  ghost predicate Inv(w: World) {
    && |w.slots| == DEPTH
    && w.gone <= |w.published| <= w.gone + DEPTH
    && w.head == w.gone % 256 && w.tail == |w.published| % 256
    && (forall i :: w.gone <= i < |w.published| ==> w.slots[i % 4] == w.published[i])
    && (w.producer.Copying? ==> Fits(w.producer.frame) && |w.published| < w.gone + DEPTH)
    && (w.staged && w.producer.Resting? ==>
          Fits(w.intent) && |w.published| < w.gone + DEPTH && w.slots[SlotAt(w.tail)] == w.intent)
    && (w.staged ==> |w.published| < w.gone + DEPTH)
    && (w.consumer.Reading? ==> w.gone < |w.published|)
    && (w.consumer.Resetting? ==> w.gone <= w.consumer.upTo <= |w.published| && w.consumer.seen == w.consumer.upTo % 256)
    && w.dropped <= U32_MAX
  }

  /* The byte counters against the counts they stand for. */

  lemma SlotOfCount(n: nat)
    ensures SlotAt(n % 256) == n % 4
  {
    assert n == 256 * (n / 256) + n % 256;
  }

  lemma NextOfCount(n: nat)
    ensures Next(n % 256) == (n + 1) % 256
  {
  }

  lemma WaitingOfCounts(gone: nat, published: nat)
    requires gone <= published <= gone + DEPTH
    ensures Waiting(published % 256, gone % 256) == published - gone
  {
  }

  lemma CountsApart(i: nat, n: nat)
    requires i < n < i + DEPTH
    ensures i % 4 != n % 4
  {
  }

  lemma CopyKeeps(w: World, slots: seq<seq<Byte>>, f: seq<Byte>)
    requires Inv(w) && w.producer.Copying? && slots == w.slots[SlotAt(w.tail) := f]
    ensures forall i :: w.gone <= i < |w.published| ==> slots[i % 4] == w.published[i]
  {
    SlotsApart(w);
  }

  lemma PublishKeeps(w: World)
    requires Inv(w) && w.producer.Resting? && w.staged
    ensures Inv(Step(w, Publish))
  {
    SlotOfCount(|w.published|);
    NextOfCount(|w.published|);
  }

  lemma ConsumerKeeps(w: World, e: Event)
    requires Inv(w) && (e == Peek || e == Release || e == ResetRead || e == ResetWrite)
    ensures Inv(Step(w, e))
  {
    NextOfCount(w.gone);
  }

  /** Every access by either core keeps the ring and its history in step. */
  lemma StepKeeps(w: World, e: Event)
    requires Inv(w)
    ensures Inv(Step(w, e))
  {
    match e {
      case StageCheck(f) =>
      case CopySome(part) =>
        if w.producer.Copying? {
          CopyKeeps(w, Step(w, e).slots, part);
        }
      case CopyDone =>
        if w.producer.Copying? {
          CopyKeeps(w, Step(w, e).slots, w.producer.frame);
        }
      case Publish =>
        if w.producer.Resting? && w.staged {
          PublishKeeps(w);
        }
      case _ =>
        ConsumerKeeps(w, e);
    }
  }

  /** The slot behind the newest frame is none of those in use, as long as there is room. */
  lemma SlotsApart(w: World)
    requires Inv(w) && |w.published| < w.gone + DEPTH
    ensures SlotAt(w.tail) == |w.published| % 4
    ensures forall i :: w.gone <= i < |w.published| ==> i % 4 != SlotAt(w.tail)
  {
    SlotOfCount(|w.published|);
    forall i | w.gone <= i < |w.published| ensures i % 4 != |w.published| % 4 {
      CountsApart(i, |w.published|);
    }
  }

  /** A peeked slot is never written before it is released, whatever the producer does. */
  lemma PeekedSlotStands(w: World, e: Event)
    requires Inv(w) && w.consumer.Reading? && e != Release
    ensures var t := Step(w, e);
            && t.consumer.Reading?
            && t.head == w.head
            && t.slots[SlotAt(t.head)] == w.slots[SlotAt(w.head)] == w.published[w.gone]
  {
    SlotOfCount(w.gone);
    SlotOfCount(|w.published|);
    if w.producer.Copying? {
      CountsApart(w.gone, |w.published|);
    }
  }

  /** A publish appends the frame last staged, whole; after a refused stage it does nothing. */
  lemma PublishAppends(w: World)
    requires Inv(w)
    ensures Inv(Step(w, Publish))
    ensures Queue(Step(w, Publish)) == Queue(w) + (if w.producer.Resting? && w.staged then [w.intent] else [])
  {
    StepKeeps(w, Publish);
  }

  /** A release takes the oldest frame, and the slot the consumer was reading held exactly it. */
  lemma ReleaseTakes(w: World)
    requires Inv(w) && w.consumer.Reading?
    ensures Inv(Step(w, Release))
    ensures Queue(w) == [w.slots[SlotAt(w.head)]] + Queue(Step(w, Release))
  {
    StepKeeps(w, Release);
    SlotOfCount(w.gone);
    assert w.published[w.gone..] == [w.published[w.gone]] + w.published[w.gone + 1..];
  }

  /** A reset drops exactly the frames published when it looked; one published since survives. */
  lemma ResetDrops(w: World)
    requires Inv(w) && w.consumer.Resetting?
    ensures Inv(Step(w, ResetWrite))
    ensures w.gone <= w.consumer.upTo <= |w.published|
    ensures Queue(Step(w, ResetWrite)) == w.published[w.consumer.upTo..]
    ensures Step(w, ResetWrite).published == w.published && Step(w, ResetWrite).dropped == w.dropped
  {
    StepKeeps(w, ResetWrite);
  }

  /** A stage is refused, and counted, exactly when the ring is full or the frame does not fit a slot. */
  lemma StageDecides(w: World, f: seq<Byte>)
    requires Inv(w) && w.producer.Resting?
    ensures var t := Step(w, StageCheck(f));
            if 1 <= |f| <= 1095 && |Queue(w)| < 4 then t == w.(producer := Copying(f))
            else !t.staged && t.producer.Resting? && Step(t, Publish) == t
                 && t.dropped == (if w.dropped < U32_MAX then w.dropped + 1 else U32_MAX)
  {
    WaitingOfCounts(w.gone, |w.published|);
  }

  /** Nothing else changes what is queued. */
  lemma OthersLeaveQueue(w: World, e: Event)
    requires Inv(w) && e != Publish && e != Release && e != ResetWrite
    ensures Inv(Step(w, e)) && Queue(Step(w, e)) == Queue(w)
    ensures |Queue(w)| <= DEPTH
  {
    StepKeeps(w, e);
  }

  function Run(w: World, events: seq<Event>): World
    requires |w.slots| == DEPTH
    decreases |events|
  {
    if events == [] then w else Run(Step(w, events[0]), events[1..])
  }

  /** Over every interleaving of the two cores, and however often the counters wrap. */
  lemma {:induction false} RunKeeps(w: World, events: seq<Event>)
    requires Inv(w)
    ensures Inv(Run(w, events))
    decreases |events|
  {
    if events != [] {
      StepKeeps(w, events[0]);
      RunKeeps(Step(w, events[0]), events[1..]);
    }
  }

  /** From power-on: at most four frames wait, each in its slot, in the order they were published. */
  lemma PowerOnRun(events: seq<Event>)
    ensures Inv(EMPTY) && Inv(Run(EMPTY, events))
    ensures var w := Run(EMPTY, events);
            && |Queue(w)| == Waiting(w.tail, w.head) <= DEPTH
            && forall i :: 0 <= i < |Queue(w)| ==> Queue(w)[i] == w.slots[(w.gone + i) % 4]
  {
    RunKeeps(EMPTY, events);
    var w := Run(EMPTY, events);
    WaitingOfCounts(w.gone, |w.published|);
  }

  /* ------------------------------------------------------------ the machine */

  /** The slot `i` frames behind the oldest. */
  function SlotBehind(head: Wrapping, i: nat): (s: nat)
    ensures s < DEPTH
  {
    SlotAt((head + i) % 256)
  }

  lemma SlotFree(head: Wrapping, tail: Wrapping, n: nat, i: nat)
    requires Waiting(tail, head) == n < DEPTH && i < n
    ensures SlotBehind(head, i) != SlotAt(tail)
  {
    assert tail == head + n || tail == head + n - 256;
  }

  lemma SlotPublished(head: Wrapping, tail: Wrapping, n: nat)
    requires Waiting(tail, head) == n < DEPTH
    ensures SlotBehind(head, n) == SlotAt(tail) && Waiting(Next(tail), head) == n + 1
  {
    assert tail == head + n || tail == head + n - 256;
    assert (head + n) % 256 == tail;
    assert Next(tail) == if tail == 255 then 0 else tail + 1;
  }

  lemma StepOn(head: Wrapping, i: nat)
    ensures SlotBehind(Next(head), i) == SlotBehind(head, i + 1)
  {
    if head == 255 {
      Around(i);
    } else {
      assert Next(head) == head + 1;
    }
  }

  lemma Around(n: nat)
    ensures (256 + n) % 256 == n % 256
  {
  }

  /** The ring as one caller at a time sees it, fields updated in place. */
  class Ring {
    const slot: array<seq<Byte>>
    var head: Wrapping
    var tail: Wrapping
    var staged: bool
    var dropped: nat
    ghost var contents: seq<seq<Byte>>

    ghost predicate Valid()
      reads this, slot
    {
      && slot.Length == DEPTH
      && |contents| <= DEPTH
      && Waiting(tail, head) == |contents|
      && (forall i :: 0 <= i < |contents| ==> slot[SlotBehind(head, i)] == contents[i])
      && (staged ==> |contents| < DEPTH)
      && dropped <= U32_MAX
    }

    constructor ()
      ensures Valid() && contents == [] && dropped == 0 && !staged && fresh(slot)
    {
      slot := new seq<Byte>[DEPTH](_ => []);
      head, tail, staged, dropped, contents := 0, 0, false, 0, [];
    }

    method Stage(f: seq<Byte>) returns (ok: bool)
      requires Valid()
      modifies this`staged, this`dropped, slot
      ensures Valid() && contents == old(contents)
      ensures ok == (Fits(f) && |contents| < DEPTH) && staged == ok
      ensures ok ==> slot[SlotAt(tail)] == f && dropped == old(dropped)
      ensures !ok ==> slot[..] == old(slot[..]) && dropped == (if old(dropped) < U32_MAX then old(dropped) + 1 else U32_MAX)
    {
      if |f| == 0 || |f| > SLOT_MAX || Waiting(tail, head) >= DEPTH {
        staged := false;
        if dropped != U32_MAX {
          dropped := dropped + 1;
        }
        return false;
      }
      forall i | 0 <= i < |contents|
        ensures SlotBehind(head, i) != SlotAt(tail)
      {
        SlotFree(head, tail, |contents|, i);
      }
      slot[SlotAt(tail)] := f;
      staged := true;
      return true;
    }

    method Publish()
      requires Valid()
      modifies this`staged, this`tail, this`contents
      ensures Valid() && !staged
      ensures contents == old(contents) + (if old(staged) then [slot[SlotAt(old(tail))]] else [])
    {
      if !staged {
        return;
      }
      staged := false;
      SlotPublished(head, tail, |contents|);
      contents := contents + [slot[SlotAt(tail)]];
      tail := Next(tail);
    }

    method Peek() returns (f: Option<seq<Byte>>)
      requires Valid()
      ensures f == if contents == [] then None else Some(contents[0])
    {
      if Waiting(tail, head) == 0 {
        return None;
      }
      assert SlotBehind(head, 0) == SlotAt(head);
      return Some(slot[SlotAt(head)]);
    }

    method Release()
      requires Valid()
      modifies this`head, this`contents
      ensures Valid()
      ensures contents == if old(contents) == [] then [] else old(contents)[1..]
    {
      if Waiting(tail, head) == 0 {
        return;
      }
      ghost var was := head;
      head := Next(head);
      contents := contents[1..];
      forall i | 0 <= i < |contents|
        ensures slot[SlotBehind(head, i)] == contents[i]
      {
        StepOn(was, i);
      }
    }

    method Reset()
      requires Valid()
      modifies this`head, this`contents
      ensures Valid() && contents == [] && dropped == old(dropped)
    {
      head := tail;
      contents := [];
    }
  }
}
