/**
  * When a pull asks again, when it is given up, and that it gets to its end: told
  * from what has happened, not from the fields that remember it.
  */
module PullProgress {
  import opened Basics
  import opened FirmwarePull

  /* -------------------------------------------------------------- what happened */

  /** A request the board tried to send, and whether the queue took it. */
  datatype Attempt = Attempt(address: nat, at: Clock, queued: bool)

  /** The attempts so far, when the pull last took a word or started, and whether any page was ever written. */
  datatype Log = Log(attempts: seq<Attempt>, word: Clock, wrote: bool)

  const NOTHING := Log([], 0, false)

  /** This pass of the task tries to send a request. */
  predicate Tries(b: Board, now: Clock, full: bool) {
    TaskRequests(b, now, full, true)
  }

  predicate Takes(w: World, a: nat) {
    MayPull(w.board) && a in w.answered && a == w.board.address && a + 4 <= IMAGE
  }

  function Logged(w: World, e: Event, log: Log): Log {
    if Over(w.board) then log
    else match e
    case Tick(now, full, queued) =>
      log.(attempts := log.attempts + (if Tries(w.board, now, full) then [Attempt(w.board.address, now, queued)] else []),
           wrote := log.wrote || TickWrites(w.board, full))
    case Deliver(a, now) => if Takes(w, a) then log.(word := now) else log
    case Heartbeat(now, wanted) => if wanted && !w.board.inProgress then log.(word := now) else log
    case _ => log
  }

  /** The fields remember what happened. */
  ghost predicate Remembers(b: Board, log: Log) {
    !Over(b) ==>
      && (b.inProgress ==> b.source == Pull && b.progressedAt == log.word)
      && (MayPull(b) && !b.byteDone ==>
            && log.attempts != []
            && log.attempts[|log.attempts| - 1].at == b.requestedAt
            && log.attempts[|log.attempts| - 1].address == b.address)
      && (b.dirty <==> log.wrote)
  }

  lemma ShapeKept(chip: Chip, image: seq<Byte>, w: World, e: Event)
    requires Shape(w.board) && |image| == IMAGE
    ensures Shape(Step(chip, image, w, e).board)
  {
    if e.Deliver? && e.address in w.answered && e.address + 4 <= IMAGE && !Over(w.board) {
      DeliverStepIs(chip, image, w, e.address, e.now);
      WordShape(chip, w.board, e.address, image[e.address..e.address + 4], e.now);
    } else if e.Tick? {
      TaskShape(chip, w.board, e.now, e.full, e.queued);
    }
  }

  lemma WordShape(chip: Chip, b: Board, a: nat, word: seq<Byte>, now: Clock)
    requires Shape(b) && |word| == 4 && a + 4 <= IMAGE
    ensures Shape(Response(chip, b, a, word, now))
  {
  }

  lemma TaskShape(chip: Chip, b: Board, now: Clock, full: bool, queued: bool)
    requires Shape(b)
    ensures Shape(Task(chip, b, now, full, queued))
  {
  }

  lemma TickRemembers(chip: Chip, image: seq<Byte>, w: World, now: Clock, full: bool, queued: bool, log: Log)
    requires Shape(w.board) && |image| == IMAGE && Remembers(w.board, log)
    ensures var e := Tick(now, full, queued); Remembers(Step(chip, image, w, e).board, Logged(w, e, log))
  {
  }

  lemma StepRemembers(chip: Chip, image: seq<Byte>, w: World, e: Event, log: Log)
    requires Shape(w.board) && |image| == IMAGE && Remembers(w.board, log)
    ensures Remembers(Step(chip, image, w, e).board, Logged(w, e, log))
  {
    match e {
      case Tick(now, full, queued) => TickRemembers(chip, image, w, now, full, queued, log);
      case _ =>
    }
  }

  ghost function Walk(chip: Chip, image: seq<Byte>, w: World, events: seq<Event>): (t: World)
    requires Shape(w.board) && |image| == IMAGE
    ensures Shape(t.board)
    decreases |events|
  {
    if events == [] then w
    else
      ShapeKept(chip, image, w, events[0]);
      Walk(chip, image, Step(chip, image, w, events[0]), events[1..])
  }

  ghost function LogOf(chip: Chip, image: seq<Byte>, w: World, events: seq<Event>, log: Log): Log
    requires Shape(w.board) && |image| == IMAGE
    decreases |events|
  {
    if events == [] then log
    else
      ShapeKept(chip, image, w, events[0]);
      LogOf(chip, image, Step(chip, image, w, events[0]), events[1..], Logged(w, events[0], log))
  }

  lemma {:induction false} WalkRemembers(chip: Chip, image: seq<Byte>, w: World, events: seq<Event>, log: Log)
    requires Shape(w.board) && |image| == IMAGE && Remembers(w.board, log)
    ensures Remembers(Walk(chip, image, w, events).board, LogOf(chip, image, w, events, log))
    decreases |events|
  {
    if events != [] {
      ShapeKept(chip, image, w, events[0]);
      StepRemembers(chip, image, w, events[0], log);
      WalkRemembers(chip, image, Step(chip, image, w, events[0]), events[1..], Logged(w, events[0], log));
    }
  }

  lemma {:induction false} RunIsWalk(chip: Chip, image: seq<Byte>, w: World, events: seq<Event>)
    requires Inv(chip, image, w)
    ensures Run(chip, image, w, events) == Walk(chip, image, w, events)
    decreases |events|
  {
    if events != [] {
      StepKeeps(chip, image, w, events[0]);
      RunIsWalk(chip, image, Step(chip, image, w, events[0]), events[1..]);
    }
  }

  /* ---------------------------------------------------------- asking again */

  /**
    * After any run, with a word outstanding: the board asked for it last at some time,
    * and a pass of the task tries again, for that same word, exactly when 100 ms or more
    * have gone since on the wrapping clock. With none outstanding it asks for the next
    * at once, unless the queue is full or the image is complete.
    */
  lemma AsksAgain(chip: Chip, image: seq<Byte>, flash: seq<Byte>, page: seq<Byte>, peerPresent: bool, events: seq<Event>,
                  now: Clock, full: bool, queued: bool)
    requires |image| == |flash| == IMAGE && |page| == PAGE
    ensures var w0 := Idle(flash, page, peerPresent);
            var w := Walk(chip, image, w0, events);
            var log := LogOf(chip, image, w0, events, NOTHING);
            var more := Logged(w, Tick(now, full, queued), log).attempts;
            MayPull(w.board) && !Over(w.board) ==>
              if w.board.byteDone
              then more == log.attempts + if full || w.board.address == IMAGE then []
                                          else [Attempt(w.board.address, now, queued)]
              else && log.attempts != [] && log.attempts[|log.attempts| - 1].address == w.board.address
                   && var last := log.attempts[|log.attempts| - 1].at;
                      more == log.attempts + if Since(now, last) >= 100_000
                                             then [Attempt(w.board.address, now, queued)] else []
    ensures Lawful(chip) ==>
              var w0 := Idle(flash, page, peerPresent);
              Inv(chip, image, w0) && Run(chip, image, w0, events) == Walk(chip, image, w0, events)
  {
    var w0 := Idle(flash, page, peerPresent);
    WalkRemembers(chip, image, w0, events, NOTHING);
    if Lawful(chip) {
      IdleGood(chip, image, flash, page, peerPresent);
      RunIsWalk(chip, image, w0, events);
    }
  }

  /** An attempt the queue takes is on the link, and the word outstanding; one it refuses is neither. */
  lemma AttemptGoesOut(chip: Chip, image: seq<Byte>, w: World, now: Clock, full: bool, queued: bool)
    requires Shape(w.board) && |image| == IMAGE && !Over(w.board) && Tries(w.board, now, full)
    ensures var t := Step(chip, image, w, Tick(now, full, queued));
            && t.requested == (if queued then w.requested + {w.board.address} else w.requested)
            && t.board.byteDone == (w.board.byteDone && !queued) && t.board.address == w.board.address
            && MayPull(t.board)
  {
    assert w.requested + {} == w.requested;
  }

  /* ----------------------------------------------------------------- giving up */

  /** Given up: to the ROM if any page was ever written and there is no peer to repair it from, and otherwise to be started again. */
  ghost predicate GivenUp(w: World, t: World, wrote: bool)
    requires Shape(t.board)
  {
    if wrote && !w.board.peerPresent
    then t.board.inRom && forall i :: 0 <= i < 4096 ==> t.board.flash[i] == 0xff
    else !t.board.inProgress && t.board.address == 0 && !Over(t.board) && t.board.flash == w.board.flash
  }

  /**
    * After any run, a pull is given up by the watch exactly when 30 s have gone since it
    * last took a word or started, and by the arrival of an answer exactly when that is
    * for another word than the one it is at.
    */
  lemma GivesUpExactly(chip: Chip, image: seq<Byte>, flash: seq<Byte>, page: seq<Byte>, peerPresent: bool,
                       events: seq<Event>, now: Clock, a: nat)
    requires |image| == |flash| == IMAGE && |page| == PAGE
    ensures var w0 := Idle(flash, page, peerPresent);
            var w := Walk(chip, image, w0, events);
            var log := LogOf(chip, image, w0, events, NOTHING);
            var t, u := Walk(chip, image, w, [Watch(now)]), Walk(chip, image, w, [Deliver(a, now)]);
            w.board.inProgress && !Over(w.board) ==>
              && (if Since(now, log.word) < 30_000_000 then t == w else GivenUp(w, t, log.wrote))
              && (a in w.answered && a + 4 <= IMAGE ==>
                    if a == w.board.address then MayPull(u.board) && u.board.address == a + 4 else GivenUp(w, u, log.wrote))
  {
    var w0 := Idle(flash, page, peerPresent);
    WalkRemembers(chip, image, w0, events, NOTHING);
    var w := Walk(chip, image, w0, events);
    WalkOne(chip, image, w, Watch(now));
    WalkOne(chip, image, w, Deliver(a, now));
    if w.board.inProgress && !Over(w.board) {
      WatchIs(chip, image, w, now);
      if a in w.answered && a + 4 <= IMAGE {
        DeliverStepIs(chip, image, w, a, now);
      }
    }
  }

  lemma WalkOne(chip: Chip, image: seq<Byte>, w: World, e: Event)
    requires Shape(w.board) && |image| == IMAGE
    ensures Walk(chip, image, w, [e]) == Step(chip, image, w, e)
  {
    ShapeKept(chip, image, w, e);
    assert [e][1..] == [];
  }

  lemma WatchIs(chip: Chip, image: seq<Byte>, w: World, now: Clock)
    requires Shape(w.board) && |image| == IMAGE && w.board.inProgress && !Over(w.board)
    ensures Step(chip, image, w, Watch(now))
         == if Since(now, w.board.progressedAt) >= 30_000_000 then w.(board := Abandon(w.board)) else w
  {
  }

  /* ---------------------------------------------------------------- to the end */

  /** A pull with words still to fetch. */
  ghost predicate Pulling(chip: Chip, image: seq<Byte>, w: World) {
    Inv(chip, image, w) && !Over(w.board) && MayPull(w.board)
  }

  /** Whatever happens while a word is waited for, short of an answer arriving or the watch giving the pull up. */
  predicate Waits(e: Event) {
    !e.Deliver? && !e.Watch?
  }

  /** The board has nothing outstanding, or has waited 100 ms. */
  predicate Due(b: Board, now: Clock) {
    b.byteDone || Since(now, b.requestedAt) >= 100_000
  }

  /** Anything lost, refused or repeated; then an attempt that goes out, its answer, and the answer's arrival. */
  datatype Word = Word(lost: seq<Event>, ask: Clock, at: Clock)

  lemma WaitIs(chip: Chip, image: seq<Byte>, w: World, e: Event)
    requires Shape(w.board) && |image| == IMAGE && !Over(w.board) && MayPull(w.board) && w.board.address < IMAGE && Waits(e)
    ensures var t := Step(chip, image, w, e);
            !Over(t.board) && MayPull(t.board) && t.board.address == w.board.address && t.skipped == w.skipped
  {
  }

  lemma {:induction false} WaitRuns(chip: Chip, image: seq<Byte>, w: World, es: seq<Event>)
    requires Pulling(chip, image, w) && w.board.address < IMAGE && forall e :: e in es ==> Waits(e)
    ensures var t := Run(chip, image, w, es);
            Pulling(chip, image, t) && t.board.address == w.board.address && t.skipped == w.skipped
    decreases |es|
  {
    if es != [] {
      assert es[0] in es;
      StepKeeps(chip, image, w, es[0]);
      WaitIs(chip, image, w, es[0]);
      WaitRuns(chip, image, Step(chip, image, w, es[0]), es[1..]);
    }
  }

  /** The attempt: the page behind is written by then, and the request is on the link. */
  lemma AskIs(chip: Chip, image: seq<Byte>, w: World, now: Clock)
    requires Shape(w.board) && Progress(w) && |image| == IMAGE && !Over(w.board) && MayPull(w.board)
    requires w.board.address < IMAGE && Due(w.board, now)
    ensures var t := Step(chip, image, w, Tick(now, false, true));
            && !Over(t.board) && MayPull(t.board) && t.board.address == w.board.address && t.skipped == w.skipped
            && w.board.address in t.requested && t.settled == w.board.address / 256
  {
  }

  lemma TakeIs(chip: Chip, image: seq<Byte>, w: World, now: Clock)
    requires Shape(w.board) && Progress(w) && |image| == IMAGE && !Over(w.board) && MayPull(w.board)
    requires w.board.address in w.answered && w.board.address + 4 <= IMAGE && w.settled == w.board.address / 256
    ensures var t := Step(chip, image, w, Deliver(w.board.address, now));
            && !Over(t.board) && MayPull(t.board) && t.board.byteDone
            && t.board.address == w.board.address + 4 && t.skipped == w.skipped
  {
    var a := w.board.address;
    DeliverStepIs(chip, image, w, a, now);
    DeliveredIs(chip, w, a, image[a..a + 4], now);
  }

  function Fetch(a: nat, word: Word): seq<Event> {
    [Tick(word.ask, false, true), Answer(a), Deliver(a, word.at)]
  }

  lemma WordAligned(a: nat)
    requires a % 4 == 0 && a < IMAGE
    ensures a + 4 <= IMAGE
  {
  }

  /** One word, whatever was lost before it. */
  lemma WordFetched(chip: Chip, image: seq<Byte>, w: World, word: Word)
    requires Pulling(chip, image, w) && w.board.address < IMAGE && Due(w.board, word.ask)
    ensures var t := Run(chip, image, w, Fetch(w.board.address, word));
            && Pulling(chip, image, t) && t.board.byteDone
            && t.board.address == w.board.address + 4 && t.skipped == w.skipped
  {
    var a := w.board.address;
    WordAligned(a);
    var w1 := Step(chip, image, w, Tick(word.ask, false, true));
    StepKeeps(chip, image, w, Tick(word.ask, false, true));
    AskIs(chip, image, w, word.ask);
    AnswerStep(chip, image, w1, a);
    var w2 := Step(chip, image, w1, Answer(a));
    StepKeeps(chip, image, w2, Deliver(a, word.at));
    TakeIs(chip, image, w2, word.at);
    RunThree(chip, image, w, w1, w2, Step(chip, image, w2, Deliver(a, word.at)), Fetch(a, word));
  }

  /** Every word from here on is fetched in the end: the attempt answered is one that is due. */
  ghost predicate Fair(chip: Chip, image: seq<Byte>, w: World, words: seq<Word>)
    requires Inv(chip, image, w)
    decreases |words|
  {
    if words == [] then true
    else
      var v := Run(chip, image, w, words[0].lost);
      && (forall e :: e in words[0].lost ==> Waits(e))
      && Due(v.board, words[0].ask)
      && Fair(chip, image, Run(chip, image, v, Fetch(v.board.address, words[0])), words[1..])
  }

  /** The events of it all. */
  ghost function EventsOf(a: nat, words: seq<Word>): seq<Event>
    decreases |words|
  {
    if words == [] then [] else words[0].lost + Fetch(a, words[0]) + EventsOf(a + 4, words[1..])
  }

  /** One word for each that is left. */
  predicate Enough(a: nat, words: seq<Word>) {
    a + 4 * |words| == IMAGE
  }

  lemma EnoughLeft(a: nat, words: seq<Word>)
    requires Enough(a, words) && words != []
    ensures a < IMAGE && Enough(a + 4, words[1..])
  {
  }

  lemma FirstWord(chip: Chip, image: seq<Byte>, w: World, words: seq<Word>)
    requires Pulling(chip, image, w) && w.board.address < IMAGE && words != [] && Fair(chip, image, w, words)
    ensures var a := w.board.address;
            var t := Run(chip, image, w, words[0].lost + Fetch(a, words[0]));
            && Pulling(chip, image, t) && t.board.byteDone && t.board.address == a + 4 && t.skipped == w.skipped
            && Fair(chip, image, t, words[1..])
  {
    var v := Run(chip, image, w, words[0].lost);
    WaitRuns(chip, image, w, words[0].lost);
    WordFetched(chip, image, v, words[0]);
    RunConcat(chip, image, w, words[0].lost, Fetch(w.board.address, words[0]));
  }

  lemma {:induction false} AllFetched(chip: Chip, image: seq<Byte>, w: World, words: seq<Word>)
    requires Pulling(chip, image, w) && Enough(w.board.address, words) && Fair(chip, image, w, words)
    requires words == [] ==> w.board.byteDone
    ensures var t := Run(chip, image, w, EventsOf(w.board.address, words));
            Pulling(chip, image, t) && t.board.byteDone && t.board.address == IMAGE && t.skipped == w.skipped
    decreases |words|
  {
    if words != [] {
      var a := w.board.address;
      EnoughLeft(a, words);
      FirstWord(chip, image, w, words);
      var first := words[0].lost + Fetch(a, words[0]);
      var t := Run(chip, image, w, first);
      AllFetched(chip, image, t, words[1..]);
      RunConcat(chip, image, w, first, EventsOf(a + 4, words[1..]));
    }
  }

  /**
    * From any pull in progress, however far it has got and whatever was lost before: if
    * every word still to come is asked for in an attempt that is answered, after any
    * number that are lost, refused or repeated, the pull comes to its last pass; and if
    * it has passed over no page that pass reboots into the peer's image.
    */
  lemma PullCompletes(chip: Chip, image: seq<Byte>, w: World, words: seq<Word>, now: Clock, queued: bool)
    requires Pulling(chip, image, w) && Enough(w.board.address, words) && Fair(chip, image, w, words)
    requires words == [] ==> w.board.byteDone
    ensures var t := Run(chip, image, w, EventsOf(w.board.address, words));
            var u := Step(chip, image, t, Tick(now, false, queued));
            && t.board.address == IMAGE && MayPull(t.board)
            && Over(u.board) && !u.board.inProgress
            && (w.skipped == {} ==> u.board.rebooting && !u.board.inRom && u.board.flash == image)
  {
    AllFetched(chip, image, w, words);
    var t := Run(chip, image, w, EventsOf(w.board.address, words));
    LastPassEnds(chip, image, t, now, queued);
    if w.skipped == {} {
      LastPassSucceeds(chip, image, t, now, queued);
    }
  }

  lemma LastPassEnds(chip: Chip, image: seq<Byte>, w: World, now: Clock, queued: bool)
    requires Shape(w.board) && |image| == IMAGE && !Over(w.board) && MayPull(w.board) && w.board.byteDone
    requires w.board.address == IMAGE
    ensures var u := Step(chip, image, w, Tick(now, false, queued)).board; Over(u) && !u.inProgress
  {
  }
}
