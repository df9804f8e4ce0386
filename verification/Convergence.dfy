/**
  * Which board pulls from which. Each board's heartbeat names the image it runs,
  * and a heartbeat may arrive late, or again, or never.
  */
module Convergence {
  datatype ImageId = ImageId(version: nat, checksum: nat)

  /** Should a board running `ours` pull, having heard of `peers`? Only a following board acts at equal version. */
  predicate ShouldPull(inProgress: bool, ours: ImageId, peers: ImageId, follows: bool) {
    if inProgress then false
    else if peers.version > ours.version then true
    else if peers.version < ours.version then false
    else follows && peers.checksum != ours.checksum
  }

  /** The two boards: board B follows board A. `said` is every heartbeat a board ever sent. */
  datatype Pair<I> = Pair(a: I, b: I, pullingA: bool, pullingB: bool, saidA: set<ImageId>, saidB: set<ImageId>, completed: nat)

  datatype Event =
    | BeatA | BeatB
    | HeardByA(id: ImageId) | HeardByB(id: ImageId)
    | GiveUpA | GiveUpB
    | CompleteA | CompleteB

  /** Images change only by a pull completing, and then to the image the peer runs. */
  function Step<I>(id: I -> ImageId, s: Pair<I>, e: Event): Pair<I> {
    match e
    case BeatA => s.(saidA := s.saidA + {id(s.a)})
    case BeatB => s.(saidB := s.saidB + {id(s.b)})
    case HeardByA(x) => if x in s.saidB && ShouldPull(s.pullingA, id(s.a), x, false) then s.(pullingA := true) else s
    case HeardByB(x) => if x in s.saidA && ShouldPull(s.pullingB, id(s.b), x, true) then s.(pullingB := true) else s
    case GiveUpA => s.(pullingA := false)
    case GiveUpB => s.(pullingB := false)
    case CompleteA => if s.pullingA then s.(a := s.b, pullingA := false, completed := s.completed + 1) else s
    case CompleteB => if s.pullingB then s.(b := s.a, pullingB := false, completed := s.completed + 1) else s
  }

  function Run<I>(id: I -> ImageId, s: Pair<I>, events: seq<Event>): Pair<I>
    decreases |events|
  {
    if events == [] then s else Run(id, Step(id, s, events[0]), events[1..])
  }

  function Start<I>(a: I, b: I): Pair<I> {
    Pair(a, b, false, false, {}, {}, 0)
  }

  /** The one board that has anything to pull, decided by the images at the start. */
  predicate APulls(a: ImageId, b: ImageId) {
    b.version > a.version
  }

  predicate BPulls(a: ImageId, b: ImageId) {
    a.version > b.version || (a.version == b.version && a.checksum != b.checksum)
  }

  ghost predicate Inv<I>(id: I -> ImageId, a0: I, b0: I, s: Pair<I>) {
    && s.saidA <= {id(a0), id(s.a)} && s.saidB <= {id(b0), id(s.b)}
    && s.completed <= 1
    && (s.completed == 0 ==> s.a == a0 && s.b == b0)
    && (s.completed == 1 ==> !s.pullingA && !s.pullingB)
    && (s.completed == 1 ==> s.a == s.b && ((APulls(id(a0), id(b0)) && s.a == b0) || (BPulls(id(a0), id(b0)) && s.a == a0)))
    && (s.pullingA ==> APulls(id(a0), id(b0)))
    && (s.pullingB ==> BPulls(id(a0), id(b0)))
  }

  lemma StepKeeps<I>(id: I -> ImageId, a0: I, b0: I, s: Pair<I>, e: Event)
    requires Inv(id, a0, b0, s)
    ensures Inv(id, a0, b0, Step(id, s, e))
  {
  }

  lemma {:induction false} RunKeeps<I>(id: I -> ImageId, a0: I, b0: I, s: Pair<I>, events: seq<Event>)
    requires Inv(id, a0, b0, s)
    ensures Inv(id, a0, b0, Run(id, s, events))
    decreases |events|
  {
    if events != [] {
      StepKeeps(id, a0, b0, s, events[0]);
      RunKeeps(id, a0, b0, Step(id, s, events[0]), events[1..]);
    }
  }

  lemma {:induction false} RunConcat<I>(id: I -> ImageId, s: Pair<I>, a: seq<Event>, b: seq<Event>)
    ensures Run(id, s, a + b) == Run(id, Run(id, s, a), b)
    decreases |a|
  {
    if a == [] {
      assert a + b == b;
    } else {
      assert (a + b)[1..] == a[1..] + b;
      RunConcat(id, Step(id, s, a[0]), a[1..], b);
    }
  }

  /**
    * In every run only one board ever pulls, the same one throughout. Once a
    * pull completes both boards hold one image, and whatever heartbeats are
    * still to come no pull starts again.
    */
  lemma Converges<I>(id: I -> ImageId, a0: I, b0: I, events: seq<Event>, more: seq<Event>)
    ensures var s := Run(id, Start(a0, b0), events);
            && (s.pullingA ==> APulls(id(a0), id(b0)))
            && (s.pullingB ==> BPulls(id(a0), id(b0)))
            && !(s.pullingA && s.pullingB)
            && (s.completed > 0 ==>
                  && s.a == s.b
                  && s.a == (if APulls(id(a0), id(b0)) then b0 else a0)
                  && var t := Run(id, Start(a0, b0), events + more);
                     !t.pullingA && !t.pullingB && t.a == s.a && t.b == s.b)
  {
    var s := Run(id, Start(a0, b0), events);
    RunKeeps(id, a0, b0, Start(a0, b0), events);
    RunKeeps(id, a0, b0, Start(a0, b0), events + more);
    RunConcat(id, Start(a0, b0), events, more);
    CompletedStays(id, s, more);
  }

  lemma {:induction false} CompletedStays<I>(id: I -> ImageId, s: Pair<I>, events: seq<Event>)
    ensures Run(id, s, events).completed >= s.completed
    decreases |events|
  {
    if events != [] {
      CompletedStays(id, Step(id, s, events[0]), events[1..]);
    }
  }

  /** Until a pull completes nothing has changed. */
  lemma NothingYet<I>(id: I -> ImageId, a0: I, b0: I, events: seq<Event>)
    ensures var s := Run(id, Start(a0, b0), events); s.completed == 0 ==> s.a == a0 && s.b == b0
  {
    RunKeeps(id, a0, b0, Start(a0, b0), events);
  }

  /**
    * After any run in which no pull has completed, a board that is not pulling and hears
    * what the other runs starts to pull exactly when the other's image is newer, or, for
    * the board that follows, of the same version and not the same.
    */
  lemma HeardIsPulled<I>(id: I -> ImageId, a0: I, b0: I, events: seq<Event>)
    ensures var s := Run(id, Start(a0, b0), events);
            s.completed == 0 ==>
              var a := Step(id, Step(id, s, BeatB), HeardByA(id(b0)));
              var b := Step(id, Step(id, s, BeatA), HeardByB(id(a0)));
              && (a.pullingA <==> id(b0).version > id(a0).version || s.pullingA)
              && (b.pullingB <==> id(a0).version > id(b0).version
                                  || (id(a0).version == id(b0).version && id(a0).checksum != id(b0).checksum)
                                  || s.pullingB)
  {
    NothingYet(id, a0, b0, events);
  }

  /** So boards that run different images come to run one, whatever was lost or given up before: a beat, its hearing and the pull. */
  lemma Settles<I>(id: I -> ImageId, a0: I, b0: I, events: seq<Event>)
    requires id(a0) != id(b0)
    ensures var s := Run(id, Start(a0, b0), events);
            var more := if id(b0).version > id(a0).version then [BeatB, HeardByA(id(b0)), CompleteA]
                        else [BeatA, HeardByB(id(a0)), CompleteB];
            var t := Run(id, s, more);
            t.a == t.b && t.a == if id(b0).version > id(a0).version then b0 else a0
  {
    var s := Run(id, Start(a0, b0), events);
    RunKeeps(id, a0, b0, Start(a0, b0), events);
    HeardIsPulled(id, a0, b0, events);
    if id(b0).version > id(a0).version {
      RunThree(id, s, BeatB, HeardByA(id(b0)), CompleteA);
    } else {
      RunThree(id, s, BeatA, HeardByB(id(a0)), CompleteB);
    }
  }

  lemma RunThree<I>(id: I -> ImageId, s: Pair<I>, x: Event, y: Event, z: Event)
    ensures Run(id, s, [x, y, z]) == Step(id, Step(id, Step(id, s, x), y), z)
  {
    assert [x, y, z][1..] == [y, z] && [y, z][1..] == [z] && [z][1..] == [];
    var t := Step(id, Step(id, s, x), y);
    assert Run(id, t, [z]) == Step(id, t, z);
    assert Run(id, Step(id, s, x), [y, z]) == Run(id, t, [z]);
  }
}
