/** Where an edge leads: the switches core 1 decides on, and where the cursor ends up. */
module CrossingEdges {
  import opened Basics
  import opened Crossing
  import opened CrossingLayout
  import opened CrossingRuns

  /* ------------------------------------------------------- legs that are named */

  /** A chain transition from this screen, and the screen it leads to. */
  predicate Aimed(cfg: Config, output: nat, index: nat, d: Direction, screen: nat)
    requires Sound(cfg)
  {
    && output < 2 && 1 <= index <= cfg.outputs[output].count && d != NoDirection
    && var t := TransitionFor(cfg.outputs[output], index, d);
       Chain(t) && screen == NextScreen(t, index)
  }

  /** A switch to just where the layout says the edge leads. */
  predicate Named(cfg: Config, leg: Leg)
    requires Sound(cfg)
  {
    match leg.to
    case Screen(n) => Aimed(cfg, leg.output, leg.index, leg.d, n)
    case Other =>
      && leg.output < 2 && 1 <= leg.index <= cfg.outputs[leg.output].count && leg.d != NoDirection
      && TransitionFor(cfg.outputs[leg.output], leg.index, leg.d) == ToOutput
  }

  /** A switch to just where the grid of screens says the edge leads. */
  ghost predicate Mapped(cfg: Config, leg: Leg)
    requires Sound(cfg)
  {
    leg.output < 2 && Leads(cfg.outputs[leg.output], leg.index, leg.d, leg.to)
  }

  lemma NamedIsMapped(cfg: Config, leg: Leg)
    requires Sound(cfg) && Named(cfg, leg)
    ensures Mapped(cfg, leg)
  {
    TransitionIs(cfg.outputs[leg.output], leg.index, leg.d, leg.to);
  }

  predicate AllNamed(cfg: Config, a: Account)
    requires Sound(cfg)
  {
    forall i :: 0 <= i < |a.made| ==> a.made[i].d == a.edge && Named(cfg, a.made[i])
  }

  /** The index has not been touched by an answer at work. */
  predicate Untouched(c: Core0) {
    c.Off? || c.Passed?
  }

  /** Everything of the crossing is about the edge last taken. */
  ghost predicate Directed(w: World) {
    && (w.pending.phase != Idle ==> w.pending.direction == w.acc.edge)
    && (w.core1.Asking? || w.core1.Placing? || w.core1.Proceeding? || w.core1.Falling? || w.core1.Resuming?
        ==> w.core1.d == w.acc.edge)
  }

  predicate Decided(cfg: Config, output: nat, index: nat, d: Direction, t: Transition)
    requires Sound(cfg)
  {
    output < 2 && 1 <= index <= cfg.outputs[output].count && d != NoDirection
    && t != NoTransition && t == TransitionFor(cfg.outputs[output], index, d)
  }

  /** What core 1 means to do is what the layout says of where the crossing began, or of where the cursor is. */
  ghost predicate Aiming(cfg: Config, w: World)
    requires Sound(cfg) && Shape(w.desk)
  {
    var active := w.desk.active;
    && (w.pending.phase != Idle && w.pending.kind == MacPlacement ==>
          Aimed(cfg, w.pending.output, w.acc.begun, w.acc.edge, w.pending.target))
    && (w.core1.Asking? || w.core1.Placing? ==>
          && w.pending.output == active
          && Decided(cfg, active, w.acc.begun, w.acc.edge, w.core1.t)
          && (w.pending.phase == Waiting && Untouched(w.core0) ==> w.desk.index[active] == w.acc.begun))
    && (w.core1.Proceeding? && !w.acc.premature ==>
          && Decided(cfg, active, w.desk.index[active], w.acc.edge, w.core1.t)
          && (w.core0 != Off ==> w.core0.sel == Sel(active, w.desk.index[active])))
    && (w.core1.Falling? ==> Aimed(cfg, active, w.acc.begun, w.acc.edge, w.core1.screen))
  }

  ghost predicate LegInv(cfg: Config, w: World)
    requires Sound(cfg) && Shape(w.desk)
  {
    Directed(w) && Aiming(cfg, w) && (!w.acc.premature ==> AllNamed(cfg, w.acc))
  }

  lemma MadeNamed(cfg: Config, a: Account, leg: Leg)
    requires Sound(cfg) && AllNamed(cfg, a) && leg.d == a.edge && Named(cfg, leg)
    ensures AllNamed(cfg, Made(a, leg))
  {
  }

  lemma CarryLegs(cfg: Config, w: World, d: Direction, plan: Plan, now: Clock)
    requires StoreInv(cfg, w) && w.pending.phase == Idle && d == w.acc.edge
    requires !w.acc.premature ==> AllNamed(cfg, w.acc)
    ensures LegInv(cfg, Carry(cfg, w, d, Actionable(cfg, w.desk, d), plan, now))
  {
    var at := w.desk.index[w.desk.active];
    var t := Actionable(cfg, w.desk, d);
    assert t != NoTransition ==> Decided(cfg, w.desk.active, at, d, t);
    if !w.acc.premature {
      if t == ToOutput {
        MadeNamed(cfg, w.acc, Leg(w.desk.active, at, d, Other));
      } else if Chain(t) {
        MadeNamed(cfg, w.acc, Leg(w.desk.active, at, d, Screen(NextScreen(t, at))));
      }
    }
  }

  lemma TakeLegs(cfg: Config, w: World, d: Direction, plan: Plan, now: Clock)
    requires StoreInv(cfg, w) && w.pending.phase == Idle && d == w.acc.edge && w.acc.made == []
    ensures LegInv(cfg, Take(cfg, w, d, plan, now))
  {
    CarryLegs(cfg, w, d, plan, now);
  }

  lemma ProceedLegs(cfg: Config, w: World, plan: Plan)
    requires Inv(cfg, w) && LegInv(cfg, w) && (w.core1.Proceeding? || w.core1.Falling?)
    ensures LegInv(cfg, Proceed(w, plan))
  {
    if !w.acc.premature {
      var at := w.desk.index[w.desk.active];
      if w.core1.Falling? {
        MadeNamed(cfg, w.acc, Leg(w.desk.active, w.acc.begun, w.core1.d, Screen(w.core1.screen)));
      } else if w.core1.t == ToOutput {
        MadeNamed(cfg, w.acc, Leg(w.desk.active, at, w.core1.d, Other));
      } else {
        MadeNamed(cfg, w.acc, Leg(w.desk.active, at, w.core1.d, Screen(NextScreen(w.core1.t, at))));
      }
    }
  }

  lemma SettleLegs(cfg: Config, w: World, timedOut: bool)
    requires Inv(cfg, w) && LegInv(cfg, w) && w.pending.phase != Idle
    requires w.pending.kind == MacPlacement ==> w.pending.output == w.desk.active
    ensures LegInv(cfg, Settle(w, timedOut))
  {
  }

  lemma PassLegs(cfg: Config, w: World, now: Clock)
    requires Inv(cfg, w) && LegInv(cfg, w) && Free(w)
    ensures LegInv(cfg, PassStart(w, now))
  {
    if w.pending.phase != Idle && !GivesUp(w) {
      SettleLegs(cfg, w, TimedOut(w.pending, now));
    }
  }

  lemma RetryLegs(cfg: Config, w: World, r: Reply)
    requires Inv(cfg, w) && LegInv(cfg, w) && w.core1.Retrying? && w.core0 == Off
    ensures LegInv(cfg, PassRetry(w, r))
  {
  }

  lemma ReplyLegs(cfg: Config, w: World, r: Reply)
    requires Inv(cfg, w) && LegInv(cfg, w) && w.core1.Asking? && (r == ReplyRetry || w.core0 == Off)
    ensures LegInv(cfg, AskReply(w, r))
  {
  }

  lemma PlaceReplyLegs(cfg: Config, w: World, queued: bool)
    requires Inv(cfg, w) && LegInv(cfg, w) && w.core1.Placing? && (queued || w.core0 == Off)
    ensures LegInv(cfg, PlaceReply(w, queued))
  {
  }

  lemma OnwardLegs(cfg: Config, w: World, plan: Plan, now: Clock)
    requires Inv(cfg, w) && LegInv(cfg, w)
    ensures LegInv(cfg, Onward(cfg, w, plan, now))
  {
    match w.core1 {
      case Resuming(d) => CarryLegs(cfg, w, d, plan, now);
      case Proceeding(_, _) => ProceedLegs(cfg, w, plan);
      case Falling(_, _) => ProceedLegs(cfg, w, plan);
      case _ => WriteLegs(cfg, w, plan, now);
    }
  }

  lemma WriteLegs(cfg: Config, w: World, plan: Plan, now: Clock)
    requires Inv(cfg, w) && LegInv(cfg, w)
    requires !w.core1.Resuming? && !w.core1.Proceeding? && !w.core1.Falling?
    ensures LegInv(cfg, Onward(cfg, w, plan, now))
  {
    WriteKept(cfg, w, plan, now);
    if w.core1.Landing? || Selecting(w.core1) || w.core1.Writing? {
      LegsPass(cfg, w, Onward(cfg, w, plan, now));
    }
  }

  /** The edge and the crossing are as they were, and core 1 is only storing. */
  predicate LegsKept(w: World, t: World) {
    && t.pending == w.pending && Shape(t.desk)
    && t.acc.edge == w.acc.edge && t.acc.made == w.acc.made && t.acc.premature == w.acc.premature && t.acc.begun == w.acc.begun
    && (t.core1.Rest? || Selecting(t.core1) || t.core1.Writing?)
  }

  lemma WriteKept(cfg: Config, w: World, plan: Plan, now: Clock)
    requires Ready(cfg, w)
    ensures w.core1.Landing? || Selecting(w.core1) || w.core1.Writing? ==> LegsKept(w, Onward(cfg, w, plan, now))
  {
  }

  lemma LegsPass(cfg: Config, w: World, t: World)
    requires Sound(cfg) && Shape(w.desk) && LegInv(cfg, w) && LegsKept(w, t)
    ensures LegInv(cfg, t)
  {
  }

  lemma EnterLegs(cfg: Config, w: World, s: Sel, x: int, y: int, id: Byte)
    requires Inv(cfg, w) && LegInv(cfg, w)
    ensures LegInv(cfg, Enter(cfg, w, s, x, y, id))
  {
  }

  lemma Core0Legs(cfg: Config, w: World)
    requires Inv(cfg, w) && LegInv(cfg, w)
    ensures LegInv(cfg, Core0Step(cfg, w))
  {
    var t := Core0Step(cfg, w);
    assert t.acc.made == w.acc.made && t.acc.edge == w.acc.edge && t.acc.begun == w.acc.begun && t.core1 == w.core1;
    assert Directed(t);
    assert Aiming(cfg, t);
  }

  lemma ApplyLegs(cfg: Config, w: World, s: Sel, x: int, y: int, id: Byte)
    requires Inv(cfg, w) && LegInv(cfg, w) && Free(w)
    ensures LegInv(cfg, Apply(cfg, w, s, x, y, id))
  {
  }

  lemma SmallLegs(cfg: Config, w: World, e: Event)
    requires Inv(cfg, w) && LegInv(cfg, w)
    requires e.NoHelper? || e.Motion? || e.PeerMouse? || e.SwitchOutput? || e.SetLocked? || e.SetBoot?
    ensures LegInv(cfg, Step(cfg, w, e))
  {
  }

  /** Every step keeps core 1 aimed where the layout says its edge leads. */
  lemma StepLegs(cfg: Config, w: World, e: Event)
    requires Inv(cfg, w) && LegInv(cfg, w)
    ensures Shape(Step(cfg, w, e).desk) && LegInv(cfg, Step(cfg, w, e))
  {
    StepStores(cfg, w, e);
    match e {
      case Answer(s, x, y, id) => EnterLegs(cfg, w, s, x, y, id);
      case Core0Moves => Core0Legs(cfg, w);
      case Relayed(s, x, y, id) =>
        if Free(w) {
          ApplyLegs(cfg, w, s, x, y, id);
        }
      case Edge(d, plan, now) => EdgeLegs(cfg, w, e, d, plan, now);
      case Pass(now) =>
        if Free(w) {
          PassLegs(cfg, w, now);
        }
      case Replied(r) =>
        if w.core1.Asking? && (r == ReplyRetry || w.core0 == Off) {
          ReplyLegs(cfg, w, r);
        } else if w.core1.Retrying? && w.core0 == Off {
          RetryLegs(cfg, w, r);
        }
      case PlaceReplied(queued) =>
        if w.core1.Placing? && (queued || w.core0 == Off) {
          PlaceReplyLegs(cfg, w, queued);
        }
      case Continue(plan, now) => OnwardLegs(cfg, w, plan, now);
      case _ => SmallLegs(cfg, w, e);
    }
  }

  lemma EdgeLegs(cfg: Config, w: World, e: Event, d: Direction, plan: Plan, now: Clock)
    requires Inv(cfg, w) && LegInv(cfg, w) && e == Edge(d, plan, now)
    ensures Shape(Step(cfg, w, e).desk) && LegInv(cfg, Step(cfg, w, e))
  {
    if Free(w) && w.pending.phase == Idle {
      var v := w.(acc := OnEdge(w.acc, w.desk, d));
      assert StoreInv(cfg, v);
      TakeKept(cfg, v, d, plan, now);
      TakeLegs(cfg, v, d, plan, now);
    }
  }

  /* ----------------------------------------------- selections that do not overlap */

  /** Core 0 is at work on an answer while core 1 changes the output or selects a screen. */
  predicate Overlap(w: World) {
    w.core0 != Off && (w.core1.Landing? || Selecting(w.core1))
  }

  /** The answer core 0 is at work on is for the active output, and an uncorrelated one for the screen the cursor is on. */
  predicate Aligned(w: World)
    requires Shape(w.desk)
  {
    w.core0 != Off ==>
      w.core0.sel.output == w.desk.active && (w.core0.id == 0 ==> w.core0.sel.screen == w.desk.index[w.desk.active])
  }

  /** Between selections relative mode fits; inside one it is about to. */
  ghost predicate Fitting(cfg: Config, w: World)
    requires Sound(cfg) && Shape(w.desk)
  {
    var at := w.desk.index[w.desk.active];
    if w.core0.Passed? then true
    else if w.core0.Indexed? then at == w.core0.sel.screen
    else if w.core0.Moded? then RelativeFits(cfg, w)
    else if w.core1.Landing? || w.core1.Choosing? then true
    else if w.core1.Moding? then at == w.core1.sel.screen
    else RelativeFits(cfg, w)
  }

  lemma ChooseFits(cfg: Config, w: World, screen: nat, rest: seq<Write>)
    requires StoreInv(cfg, w) && !Overlap(w) && !Overlap(Choose(cfg, w, screen, rest))
    requires if w.core1.Landing? then w.core0 == Off && 1 <= screen <= cfg.outputs[w.desk.active].count else Aligned(w) && Fitting(cfg, w)
    requires w.core1.Landing? || w.core1.Writing?
    ensures Fitting(cfg, Choose(cfg, w, screen, rest))
  {
  }

  lemma OnwardFits(cfg: Config, w: World, plan: Plan, now: Clock)
    requires Inv(cfg, w) && Aligned(w) && Fitting(cfg, w) && !Overlap(w) && !Overlap(Onward(cfg, w, plan, now))
    ensures Shape(Onward(cfg, w, plan, now).desk) && Fitting(cfg, Onward(cfg, w, plan, now))
  {
    match w.core1 {
      case Resuming(d) => CarryFits(cfg, w, d, Actionable(cfg, w.desk, d), plan, now);
      case Proceeding(_, _) => ProceedFits(cfg, w, plan);
      case Falling(_, _) => ProceedFits(cfg, w, plan);
      case Landing(home, rest) =>
        ChooseFits(cfg, w, if home && cfg.outputs[w.desk.active].os == Windows then 1 else w.desk.index[w.desk.active], rest);
      case Writing(rest) =>
        if rest != [] && rest[0].ToScreen? {
          ChooseFits(cfg, w, rest[0].screen, rest[1..]);
        }
      case _ =>
    }
  }

  lemma ProceedFits(cfg: Config, w: World, plan: Plan)
    requires Sound(cfg) && Shape(w.desk) && Aligned(w) && Fitting(cfg, w) && (w.core1.Proceeding? || w.core1.Falling?)
    requires !Overlap(Proceed(w, plan))
    ensures Shape(Proceed(w, plan).desk) && Fitting(cfg, Proceed(w, plan))
  {
  }

  lemma CarryFits(cfg: Config, w: World, d: Direction, t: Transition, plan: Plan, now: Clock)
    requires Sound(cfg) && Shape(w.desk) && Aligned(w) && Fitting(cfg, w) && !w.core1.Landing? && !Selecting(w.core1)
    requires !Overlap(Carry(cfg, w, d, t, plan, now))
    ensures Shape(Carry(cfg, w, d, t, plan, now).desk) && Fitting(cfg, Carry(cfg, w, d, t, plan, now))
  {
  }

  lemma AnswersFit(cfg: Config, w: World, s: Sel, x: int, y: int, id: Byte)
    requires Inv(cfg, w) && Aligned(w) && Fitting(cfg, w) && !Overlap(w)
    ensures !Overlap(Enter(cfg, w, s, x, y, id)) ==> Fitting(cfg, Enter(cfg, w, s, x, y, id))
    ensures Shape(Core0Step(cfg, w).desk) && Fitting(cfg, Core0Step(cfg, w))
  {
  }

  lemma ApplyFits(cfg: Config, w: World, s: Sel, x: int, y: int, id: Byte)
    requires Inv(cfg, w) && Aligned(w) && Fitting(cfg, w) && Free(w)
    ensures Shape(Apply(cfg, w, s, x, y, id).desk) && Fitting(cfg, Apply(cfg, w, s, x, y, id))
  {
  }

  /** Any other step of core 1's: nothing is stored, and no selection begun. */
  lemma QuietFits(cfg: Config, w: World, e: Event)
    requires Inv(cfg, w) && Aligned(w) && Fitting(cfg, w) && !Overlap(w) && !Overlap(Step(cfg, w, e)) && Quiet(e)
    ensures Shape(Step(cfg, w, e).desk) && Fitting(cfg, Step(cfg, w, e))
  {
    QuietKept(cfg, w, e);
    QuietDesk(cfg, w, e);
    QuietCores(cfg, w, e);
  }

  lemma QuietCores(cfg: Config, w: World, e: Event)
    requires Ready(cfg, w) && Quiet(e)
    ensures var t := Step(cfg, w, e);
            && t.core0 == w.core0
            && (e.SwitchOutput? && t != w ==> t.core1.Landing?)
            && (!e.SwitchOutput? && (w.core1.Landing? || Selecting(w.core1)) ==> t.core1 == w.core1)
            && (!e.SwitchOutput? && !(w.core1.Landing? || Selecting(w.core1)) ==> !t.core1.Landing? && !Selecting(t.core1))
  {
  }

  lemma StepFits(cfg: Config, w: World, e: Event)
    requires Inv(cfg, w) && Aligned(w) && Fitting(cfg, w) && !Overlap(w) && !Overlap(Step(cfg, w, e))
    ensures Shape(Step(cfg, w, e).desk) && Fitting(cfg, Step(cfg, w, e))
  {
    match e {
      case Answer(s, x, y, id) => AnswersFit(cfg, w, s, x, y, id);
      case Core0Moves => AnswersFit(cfg, w, Sel(0, 0), 0, 0, 0);
      case Relayed(s, x, y, id) =>
        if Free(w) {
          ApplyFits(cfg, w, s, x, y, id);
        }
      case Edge(d, plan, now) => EdgeFits(cfg, w, e, d, plan, now);
      case Continue(plan, now) => OnwardFits(cfg, w, plan, now);
      case _ => QuietFits(cfg, w, e);
    }
  }

  lemma EdgeFits(cfg: Config, w: World, e: Event, d: Direction, plan: Plan, now: Clock)
    requires Inv(cfg, w) && Aligned(w) && Fitting(cfg, w) && e == Edge(d, plan, now) && !Overlap(Step(cfg, w, e))
    ensures Shape(Step(cfg, w, e).desk) && Fitting(cfg, Step(cfg, w, e))
  {
    if Free(w) && w.pending.phase == Idle {
      var v := w.(acc := OnEdge(w.acc, w.desk, d));
      TakeKept(cfg, v, d, plan, now);
      if !AsksFirst(cfg, v.desk, Actionable(cfg, v.desk, d)) {
        CarryFits(cfg, v, d, Actionable(cfg, v.desk, d), plan, now);
      }
    }
  }

  lemma OnwardAligned(cfg: Config, w: World, plan: Plan, now: Clock)
    requires Inv(cfg, w) && Aligned(w) && !Overlap(w) && !Overlap(Onward(cfg, w, plan, now))
    ensures Shape(Onward(cfg, w, plan, now).desk) && Aligned(Onward(cfg, w, plan, now))
  {
  }

  /** Without overlap, nothing takes an answer at work off the active output, or an uncorrelated one off the screen. */
  lemma StepAligned(cfg: Config, w: World, e: Event)
    requires Inv(cfg, w) && Aligned(w) && !Overlap(w) && !Overlap(Step(cfg, w, e))
    ensures Shape(Step(cfg, w, e).desk) && Aligned(Step(cfg, w, e))
  {
    match e {
      case Answer(_, _, _, _) =>
      case Core0Moves =>
      case Relayed(_, _, _, _) =>
      case Edge(d, plan, now) =>
        if Free(w) && w.pending.phase == Idle {
          TakeKept(cfg, w.(acc := OnEdge(w.acc, w.desk, d)), d, plan, now);
        }
      case Continue(plan, now) => OnwardAligned(cfg, w, plan, now);
      case _ =>
        QuietDesk(cfg, w, e);
        QuietCores(cfg, w, e);
    }
  }

  /** No state of a run overlaps. */
  ghost predicate Calm(cfg: Config, w: World, es: seq<Event>)
    requires Inv(cfg, w)
    decreases |es|
  {
    if Overlap(w) then false
    else if es == [] then true
    else
      StepKeeps(cfg, w, es[0]);
      Calm(cfg, Step(cfg, w, es[0]), es[1..])
  }

  /* ------------------------------------------------------ where an edge ends up */

  /** Both cores at rest, and no crossing pending. */
  predicate AtRest(w: World) {
    w.core1 == Rest && w.core0 == Off && w.pending.phase == Idle
  }

  /** Core 1 is on its way to a screen, or there. */
  predicate Bound(w: World, screen: nat)
    requires Shape(w.desk)
  {
    var at := w.desk.index[w.desk.active];
    match w.core1
    case Writing(rest) =>
      || (|rest| == 2 && rest[0].ToPointer? && rest[1] == ToScreen(screen))
      || (|rest| == 1 && rest[0] == ToScreen(screen))
      || (rest == [] && at == screen)
    case Choosing(_, s, rest) => rest == [] && s.screen == screen
    case Moding(_, s, rest) => rest == [] && s.screen == screen && at == screen
    case Landing(_, _) => false
    case _ => at == screen
  }

  predicate Reached(w: World, leg: Leg)
    requires Shape(w.desk)
  {
    leg.output == w.acc.from && w.acc.from < 2 &&
    match leg.to
    case Other => w.desk.active == 1 - w.acc.from
    case Screen(n) => w.desk.active == w.acc.from && Bound(w, n)
  }

  /** No switch and still on the output left; or one, and on the way to what it named. */
  ghost predicate Arriving(w: World)
    requires Shape(w.desk)
  {
    !w.acc.premature && !w.acc.switched ==>
      && w.acc.from < 2
      && (if w.acc.made == [] then w.desk.active == w.acc.from else Reached(w, w.acc.made[0]))
  }

  ghost predicate CalmInv(cfg: Config, w: World) {
    Inv(cfg, w) && LegInv(cfg, w) && Aligned(w) && Arriving(w)
  }

  /** The screen a leg names is there to be selected. */
  lemma AimedInRange(cfg: Config, output: nat, index: nat, d: Direction, screen: nat)
    requires Sound(cfg) && Aimed(cfg, output, index, d, screen)
    ensures 1 <= screen <= cfg.outputs[output].count
  {
  }

  lemma OnwardArrives(cfg: Config, w: World, plan: Plan, now: Clock)
    requires CalmInv(cfg, w) && !Overlap(w)
    ensures Shape(Onward(cfg, w, plan, now).desk) && Arriving(Onward(cfg, w, plan, now))
  {
    match w.core1 {
      case Resuming(d) => CarryArrives(cfg, w, d, Actionable(cfg, w.desk, d), plan, now);
      case Proceeding(_, _) => ProceedArrives(w, plan);
      case Falling(_, _) => ProceedArrives(w, plan);
      case Writing(_) => WriteArrives(cfg, w);
      case _ =>
    }
  }

  lemma CarryArrives(cfg: Config, w: World, d: Direction, t: Transition, plan: Plan, now: Clock)
    requires Sound(cfg) && Shape(w.desk) && Arriving(w) && |w.acc.made| <= Extra(w.acc)
    ensures Shape(Carry(cfg, w, d, t, plan, now).desk) && Arriving(Carry(cfg, w, d, t, plan, now))
  {
  }

  lemma ProceedArrives(w: World, plan: Plan)
    requires Shape(w.desk) && Arriving(w) && CrossInv(w) && (w.core1.Proceeding? || w.core1.Falling?)
    ensures Shape(Proceed(w, plan).desk) && Arriving(Proceed(w, plan))
  {
  }

  lemma WriteArrives(cfg: Config, w: World)
    requires CalmInv(cfg, w) && w.core1.Writing?
    ensures Shape(WriteNext(cfg, w).desk) && Arriving(WriteNext(cfg, w))
  {
    if !w.acc.premature && !w.acc.switched && w.acc.made != [] && w.acc.made[0].to.Screen? {
      var leg := w.acc.made[0];
      assert Named(cfg, leg);
      AimedInRange(cfg, leg.output, leg.index, leg.d, leg.to.n);
    }
  }

  lemma AnswersArrive(cfg: Config, w: World, s: Sel, x: int, y: int, id: Byte)
    requires CalmInv(cfg, w) && !Overlap(w)
    ensures Arriving(Enter(cfg, w, s, x, y, id))
    ensures Shape(Core0Step(cfg, w).desk) && Arriving(Core0Step(cfg, w))
  {
  }

  lemma ApplyArrives(cfg: Config, w: World, s: Sel, x: int, y: int, id: Byte)
    requires CalmInv(cfg, w) && Free(w)
    ensures Shape(Apply(cfg, w, s, x, y, id).desk) && Arriving(Apply(cfg, w, s, x, y, id))
  {
  }

  lemma EdgeArrives(cfg: Config, w: World, e: Event, d: Direction, plan: Plan, now: Clock)
    requires CalmInv(cfg, w) && e == Edge(d, plan, now)
    ensures Shape(Step(cfg, w, e).desk) && Arriving(Step(cfg, w, e))
  {
    if Free(w) && w.pending.phase == Idle {
      EdgeSetsOut(cfg, w, d, plan, now);
    }
  }

  /** An edge taken from rest starts afresh, whatever came before it. */
  lemma EdgeSetsOut(cfg: Config, w: World, d: Direction, plan: Plan, now: Clock)
    requires Ready(cfg, w) && AtRest(w)
    ensures Shape(Step(cfg, w, Edge(d, plan, now)).desk) && Arriving(Step(cfg, w, Edge(d, plan, now)))
  {
    var v := w.(acc := OnEdge(w.acc, w.desk, d));
    CarryArrives(cfg, v, d, Actionable(cfg, v.desk, d), plan, now);
  }

  lemma QuietArrives(cfg: Config, w: World, e: Event)
    requires CalmInv(cfg, w) && Quiet(e)
    ensures Shape(Step(cfg, w, e).desk) && Arriving(Step(cfg, w, e))
  {
    QuietDesk(cfg, w, e);
    QuietCores(cfg, w, e);
    QuietAccount(cfg, w, e);
  }

  lemma QuietAccount(cfg: Config, w: World, e: Event)
    requires Ready(cfg, w) && Quiet(e)
    ensures var t := Step(cfg, w, e);
            && t.acc.from == w.acc.from && t.acc.made == w.acc.made
            && (w.acc.premature ==> t.acc.premature) && (w.acc.switched ==> t.acc.switched)
            && (e.SwitchOutput? && t != w ==> t.acc.switched)
            && (w.core1.Writing? ==> t.core1 == w.core1 || e.SwitchOutput?)
            && (!w.core1.Writing? ==> !t.core1.Writing?)
  {
  }

  lemma StepArrives(cfg: Config, w: World, e: Event)
    requires CalmInv(cfg, w) && !Overlap(w)
    ensures Shape(Step(cfg, w, e).desk) && Arriving(Step(cfg, w, e))
  {
    match e {
      case Answer(s, x, y, id) => AnswersArrive(cfg, w, s, x, y, id);
      case Core0Moves => AnswersArrive(cfg, w, Sel(0, 0), 0, 0, 0);
      case Relayed(s, x, y, id) =>
        if Free(w) {
          ApplyArrives(cfg, w, s, x, y, id);
        }
      case Edge(d, plan, now) => EdgeArrives(cfg, w, e, d, plan, now);
      case Continue(plan, now) => OnwardArrives(cfg, w, plan, now);
      case _ => QuietArrives(cfg, w, e);
    }
  }

  lemma StepCalm(cfg: Config, w: World, e: Event)
    requires CalmInv(cfg, w) && !Overlap(w) && !Overlap(Step(cfg, w, e))
    ensures CalmInv(cfg, Step(cfg, w, e))
  {
    StepKeeps(cfg, w, e);
    StepLegs(cfg, w, e);
    StepAligned(cfg, w, e);
    StepArrives(cfg, w, e);
  }

  lemma {:induction false} RunCalm(cfg: Config, w: World, es: seq<Event>)
    requires CalmInv(cfg, w) && Calm(cfg, w, es)
    ensures CalmInv(cfg, Run(cfg, w, es))
    decreases |es|
  {
    if es != [] {
      StepKeeps(cfg, w, es[0]);
      StepCalm(cfg, w, es[0]);
      RunCalm(cfg, Step(cfg, w, es[0]), es[1..]);
    }
  }

  lemma {:induction false} RunAims(cfg: Config, w: World, es: seq<Event>)
    requires Inv(cfg, w) && LegInv(cfg, w)
    ensures LegInv(cfg, Run(cfg, w, es))
    decreases |es|
  {
    if es != [] {
      StepKeeps(cfg, w, es[0]);
      StepLegs(cfg, w, es[0]);
      RunAims(cfg, Step(cfg, w, es[0]), es[1..]);
    }
  }

  /**
    * Over every run from power-on, every switch an edge makes is over that edge and to
    * just where the grid of screens leads, unless its query was answered and then
    * called unavailable.
    */
  lemma RunLegs(cfg: Config, es: seq<Event>)
    requires Sound(cfg)
    ensures Inv(cfg, START)
    ensures var a := Run(cfg, START, es).acc;
            !a.premature ==> forall i :: 0 <= i < |a.made| ==> a.made[i].d == a.edge && Mapped(cfg, a.made[i])
  {
    StartGood(cfg);
    RunAims(cfg, START, es);
    var a := Run(cfg, START, es).acc;
    if !a.premature {
      forall i | 0 <= i < |a.made| ensures a.made[i].d == a.edge && Mapped(cfg, a.made[i]) {
        NamedIsMapped(cfg, a.made[i]);
      }
    }
  }

  /* --------------------------------------------------------- back to rest */

  /** How far core 1 is from rest: what it is about, and the stores it has left. */
  function Stage(c: Core1): nat {
    match c
    case Rest => 0
    case Retrying(_, _, _) => 5
    case Resuming(_) => 4
    case Asking(_, _, _) => 3
    case Placing(_, _, _) => 3
    case Proceeding(_, _) => 2
    case Falling(_, _) => 2
    case _ => 1
  }

  function Stores(c: Core1): nat {
    match c
    case Landing(_, rest) => 4 * |rest| + 4
    case Choosing(_, _, rest) => 4 * |rest| + 3
    case Moding(_, _, rest) => 4 * |rest| + 2
    case Writing(rest) => 4 * |rest| + 1
    case _ => 0
  }

  predicate Nearer(c: Core1, d: Core1) {
    Stage(c) < Stage(d) || (Stage(c) == Stage(d) && Stores(c) < Stores(d))
  }

  /** What core 1 is waiting for where it stands: a reply, or its own next step. */
  predicate Due(c: Core1, e: Event) {
    match c
    case Rest => false
    case Asking(_, _, _) => e.Replied?
    case Retrying(_, _, _) => e.Replied?
    case Placing(_, _, _) => e.PlaceReplied?
    case _ => e.Continue?
  }

  /** An edge, a task pass or an output switch, which core 1 starts on from rest. */
  predicate Starts(c: Core1, e: Event) {
    c == Rest && (e.Edge? || e.Pass? || e.SwitchOutput?)
  }

  /** Core 1 always winds up: what is due takes it nearer to rest, once core 0 has let the lock go, and nothing takes it back. */
  lemma WindsUp(cfg: Config, w: World, e: Event)
    requires Ready(cfg, w) && !Starts(w.core1, e)
    ensures var t := Step(cfg, w, e);
            && (Nearer(t.core1, w.core1) || t.core1 == w.core1)
            && (Due(w.core1, e) && w.core0 == Off ==> Nearer(t.core1, w.core1))
  {
    match e {
      case Continue(plan, now) => OnwardWinds(cfg, w, plan, now);
      case _ =>
    }
  }

  lemma OnwardWinds(cfg: Config, w: World, plan: Plan, now: Clock)
    requires Ready(cfg, w)
    ensures var t := Onward(cfg, w, plan, now);
            && (Nearer(t.core1, w.core1) || t.core1 == w.core1)
            && (Due(w.core1, Continue(plan, now)) && w.core0 == Off ==> Nearer(t.core1, w.core1))
  {
  }

  /** No switch since the edge last taken and the output as it was; or exactly one, to what the layout names, and the cursor there. */
  ghost predicate Arrived(cfg: Config, w: World)
    requires Sound(cfg) && Shape(w.desk)
  {
    if w.acc.made == [] then w.desk.active == w.acc.from
    else
      && |w.acc.made| == 1
      && var leg := w.acc.made[0];
         && leg.output == w.acc.from && leg.d == w.acc.edge && Mapped(cfg, leg)
         && match leg.to
            case Other => w.desk.active == 1 - w.acc.from
            case Screen(n) => w.desk.active == w.acc.from && w.desk.index[w.desk.active] == n
  }

  /**
    * Where an edge ends. After any run at all that has come to rest, an edge, and then
    * whatever replies, answers, passes and motion come, with no answer overlapping a
    * selection of core 1's from that edge on. Whenever both cores rest again, the output
    * not switched by hand since the edge last taken and its query not called unavailable
    * once answered, the edge has made no switch and left the output as it was, or exactly
    * one, to the output or the screen the layout names from where the cursor was.
    */
  lemma EdgeEnds(cfg: Config, before: seq<Event>, d: Direction, plan: Plan, now: Clock, es: seq<Event>)
    requires Sound(cfg)
    ensures Inv(cfg, START)
    ensures var w := Run(cfg, START, before);
            var edge := [Edge(d, plan, now)] + es;
            var t := Run(cfg, w, edge);
            AtRest(w) && Calm(cfg, w, edge) && AtRest(t) && !t.acc.premature && !t.acc.switched ==> Arrived(cfg, t)
  {
    StartGood(cfg);
    RunAims(cfg, START, before);
    var w := Run(cfg, START, before);
    var e := Edge(d, plan, now);
    if AtRest(w) && Calm(cfg, w, [e] + es) {
      assert ([e] + es)[1..] == es;
      StepKeeps(cfg, w, e);
      StepLegs(cfg, w, e);
      EdgeSetsOut(cfg, w, d, plan, now);
      StepAligned(cfg, w, e);
      RunCalm(cfg, Step(cfg, w, e), es);
      CalmArrived(cfg, Run(cfg, Step(cfg, w, e), es));
    }
  }

  lemma CalmArrived(cfg: Config, t: World)
    requires CalmInv(cfg, t)
    ensures AtRest(t) && !t.acc.premature && !t.acc.switched ==> Arrived(cfg, t)
  {
    if t.acc.made != [] && !t.acc.premature {
      NamedIsMapped(cfg, t.acc.made[0]);
    }
  }

  /* ------------------------------------------------------ a torn mode heals */

  /** A selection begins alone: core 1 at its guard or before it with core 0 away, or core 0 past its guard with core 1 elsewhere. */
  predicate SelectsAlone(w: World)
    requires Shape(w.desk)
  {
    || (w.core0 == Off && (w.core1.Landing? || w.core1.Choosing?))
    || (w.core0.Passed? && !Overlap(w) && Aligned(w))
  }

  /** The mode fits, with neither core at anything. */
  predicate Settled(cfg: Config, w: World)
    requires Sound(cfg) && Shape(w.desk)
  {
    w.core0 == Off && w.core1 == Rest && RelativeFits(cfg, w)
  }

  lemma {:induction false} RunFits(cfg: Config, w: World, es: seq<Event>)
    requires Inv(cfg, w) && Aligned(w) && Fitting(cfg, w) && Calm(cfg, w, es)
    ensures Fitting(cfg, Run(cfg, w, es))
    decreases |es|
  {
    if es != [] {
      StepKeeps(cfg, w, es[0]);
      StepAligned(cfg, w, es[0]);
      StepFits(cfg, w, es[0]);
      RunFits(cfg, Step(cfg, w, es[0]), es[1..]);
    }
  }

  /**
    * Relative mode, over every run. Whatever has been torn before, once a selection has
    * begun alone, or the mode fits with both cores between steps, as it does at power-on,
    * and nothing has overlapped since, it fits the screen whenever both cores rest.
    */
  lemma ModeHeals(cfg: Config, before: seq<Event>, es: seq<Event>)
    requires Sound(cfg)
    ensures Inv(cfg, START)
    ensures var w := Run(cfg, START, before);
            var t := Run(cfg, w, es);
            && (before == [] ==> Settled(cfg, w))
            && ((SelectsAlone(w) || Settled(cfg, w)) && Calm(cfg, w, es) && AtRest(t) ==> RelativeFits(cfg, t))
  {
    StartGood(cfg);
    var w := Run(cfg, START, before);
    if (SelectsAlone(w) || Settled(cfg, w)) && Calm(cfg, w, es) {
      RunFits(cfg, w, es);
    }
  }
}
