/** What holds of the crossing over every run of the two cores. */
module CrossingRuns {
  import opened Basics
  import opened Crossing

  /* -------------------------------------------------- what is stored, and by whom */

  predicate OnOutput(cfg: Config, s: Sel)
    requires Sound(cfg)
  {
    s.output < 2 && 1 <= s.screen <= cfg.outputs[s.output].count
  }

  predicate Selecting(c: Core1) {
    c.Choosing? || c.Moding?
  }

  /** Every screen index is one of its output's screens, and so is every screen about to be stored. */
  ghost predicate InRange(cfg: Config, w: World) {
    && Ready(cfg, w)
    && 1 <= w.desk.index[0] <= cfg.outputs[0].count && 1 <= w.desk.index[1] <= cfg.outputs[1].count
    && (w.core0 != Off ==> OnOutput(cfg, w.core0.sel))
    && (Selecting(w.core1) ==> OnOutput(cfg, w.core1.sel) && w.core1.sel.output == w.desk.active)
  }

  /** A selection and where the account lists it. */
  predicate Listed(a: Account, n: nat, s: Sel) {
    n < |a.sels| && a.sels[n] == s
  }

  /** The account names the selection that last stored each index, and the one that last stored the mode. */
  ghost predicate Owned(cfg: Config, w: World) {
    && Ready(cfg, w)
    && Listed(w.acc, w.acc.indexBy[0], Sel(0, w.desk.index[0])) && Listed(w.acc, w.acc.indexBy[1], Sel(1, w.desk.index[1]))
    && w.acc.modeBy < |w.acc.sels| && w.acc.sels[w.acc.modeBy].output < 2
    && w.desk.relative == ModeOf(cfg, w.acc.sels[w.acc.modeBy])
    && (w.core0 != Off ==> Listed(w.acc, w.core0.n, w.core0.sel))
    && (Selecting(w.core1) ==> Listed(w.acc, w.core1.n, w.core1.sel))
  }

  ghost predicate StoreInv(cfg: Config, w: World) {
    InRange(cfg, w) && Owned(cfg, w)
  }

  /** Nothing is stored, begun or ended of a selection. */
  predicate Kept(w: World, t: World) {
    && Shape(t.desk) && t.desk.index == w.desk.index && t.desk.relative == w.desk.relative
    && t.core0 == w.core0 && !Selecting(t.core1)
    && t.acc.sels == w.acc.sels && t.acc.indexBy == w.acc.indexBy && t.acc.modeBy == w.acc.modeBy
  }

  lemma KeptStores(cfg: Config, w: World, t: World)
    requires StoreInv(cfg, w) && Kept(w, t)
    ensures StoreInv(cfg, t)
  {
  }

  lemma CarryKept(cfg: Config, w: World, d: Direction, t: Transition, plan: Plan, now: Clock)
    requires Sound(cfg) && Shape(w.desk)
    ensures Kept(w, Carry(cfg, w, d, t, plan, now))
  {
  }

  lemma TakeKept(cfg: Config, w: World, d: Direction, plan: Plan, now: Clock)
    requires Sound(cfg) && Shape(w.desk)
    ensures Kept(w, Take(cfg, w, d, plan, now))
  {
    CarryKept(cfg, w, d, Actionable(cfg, w.desk, d), plan, now);
  }

  lemma ProceedKept(w: World, plan: Plan)
    requires Shape(w.desk) && (w.core1.Proceeding? || w.core1.Falling?)
    ensures Kept(w, Proceed(w, plan))
  {
  }

  lemma SettleKept(w: World, timedOut: bool)
    requires Shape(w.desk)
    ensures Kept(w, Settle(w, timedOut)) && Settle(w, timedOut).desk == w.desk
  {
  }

  lemma PassKept(w: World, now: Clock)
    requires Shape(w.desk) && !Selecting(w.core1)
    ensures Kept(w, PassStart(w, now)) && PassStart(w, now).desk == w.desk
  {
    SettleKept(w, TimedOut(w.pending, now));
  }

  lemma RetryKept(w: World, r: Reply)
    requires Shape(w.desk) && w.core1.Retrying?
    ensures Kept(w, PassRetry(w, r)) && PassRetry(w, r).desk == w.desk
  {
    var v := Retried(w, w.core1.now, r);
    SettleKept(v, TimedOut(v.pending, w.core1.now));
  }

  lemma ReplyKept(w: World, r: Reply)
    requires Shape(w.desk) && w.core1.Asking?
    ensures Kept(w, AskReply(w, r)) && AskReply(w, r).desk == w.desk
  {
  }

  lemma ChooseStores(cfg: Config, w: World, screen: nat, rest: seq<Write>)
    requires StoreInv(cfg, w)
    ensures StoreInv(cfg, Choose(cfg, w, screen, rest))
  {
  }

  lemma IndexStores(cfg: Config, w: World, n: nat, s: Sel)
    requires StoreInv(cfg, w) && OnOutput(cfg, s) && Listed(w.acc, n, s)
    ensures StoreInv(cfg, StoreIndex(w, n, s))
  {
  }

  lemma ModeStores(cfg: Config, w: World, n: nat, s: Sel)
    requires StoreInv(cfg, w) && OnOutput(cfg, s) && Listed(w.acc, n, s)
    ensures StoreInv(cfg, StoreMode(cfg, w, n, s))
  {
  }

  lemma MovesOn(cfg: Config, w: World, c0: Core0, c1: Core1, desk: Desk, p: Pending)
    requires StoreInv(cfg, w)
    requires c0 == Off || (w.core0 != Off && c0.n == w.core0.n && c0.sel == w.core0.sel)
    requires Selecting(c1) ==> Selecting(w.core1) && c1.n == w.core1.n && c1.sel == w.core1.sel
    requires desk == w.desk.(x := desk.x, y := desk.y)
    ensures StoreInv(cfg, w.(core0 := c0, core1 := c1, desk := desk, pending := p))
  {
  }

  lemma OnwardStores(cfg: Config, w: World, plan: Plan, now: Clock)
    requires StoreInv(cfg, w)
    ensures StoreInv(cfg, Onward(cfg, w, plan, now))
  {
    match w.core1 {
      case Proceeding(_, _) => ProceedKept(w, plan); KeptStores(cfg, w, Proceed(w, plan));
      case Falling(_, _) => ProceedKept(w, plan); KeptStores(cfg, w, Proceed(w, plan));
      case Resuming(d) =>
        var t := Actionable(cfg, w.desk, d);
        CarryKept(cfg, w, d, t, plan, now);
        KeptStores(cfg, w, Carry(cfg, w, d, t, plan, now));
      case Landing(_, rest) =>
        ChooseStores(cfg, w, if w.core1.home && cfg.outputs[w.desk.active].os == Windows then 1 else w.desk.index[w.desk.active], rest);
      case Choosing(n, s, rest) =>
        IndexStores(cfg, w, n, s);
        var v := StoreIndex(w, n, s);
        MovesOn(cfg, v, v.core0, Moding(n, s, rest), v.desk, v.pending);
      case Moding(n, s, rest) =>
        ModeStores(cfg, w, n, s);
        var v := StoreMode(cfg, w, n, s);
        MovesOn(cfg, v, v.core0, Writing(rest), v.desk, v.pending);
      case Writing(rest) => WriteStores(cfg, w);
      case _ =>
    }
  }

  lemma WriteStores(cfg: Config, w: World)
    requires StoreInv(cfg, w) && w.core1.Writing?
    ensures StoreInv(cfg, WriteNext(cfg, w))
  {
    var rest := w.core1.rest;
    if rest == [] {
      MovesOn(cfg, w, w.core0, Rest, w.desk, w.pending);
    } else if rest[0].ToPointer? {
      MovesOn(cfg, w, w.core0, Writing(rest[1..]), w.desk.(x := rest[0].x, y := rest[0].y), w.pending);
    } else {
      ChooseStores(cfg, w, rest[0].screen, rest[1..]);
    }
  }

  lemma Core0Stores(cfg: Config, w: World)
    requires StoreInv(cfg, w)
    ensures StoreInv(cfg, Core0Step(cfg, w))
  {
    match w.core0 {
      case Off =>
      case Passed(n, s, x, y, id) =>
        IndexStores(cfg, w, n, s);
        var v := StoreIndex(w, n, s);
        MovesOn(cfg, v, Indexed(n, s, x, y, id), v.core1, v.desk, v.pending);
      case Indexed(n, s, x, y, id) =>
        ModeStores(cfg, w, n, s);
        var v := StoreMode(cfg, w, n, s);
        MovesOn(cfg, v, Moded(n, s, x, y, id), v.core1, v.desk, v.pending);
      case Moded(n, s, x, y, id) =>
        MovesOn(cfg, w, Off, w.core1, w.desk.(x := x, y := y), Answered(cfg, w.pending, s, x, y));
    }
  }

  lemma EnterStores(cfg: Config, w: World, s: Sel, x: int, y: int, id: Byte)
    requires StoreInv(cfg, w)
    ensures StoreInv(cfg, Enter(cfg, w, s, x, y, id))
  {
  }

  lemma ApplyStores(cfg: Config, w: World, s: Sel, x: int, y: int, id: Byte)
    requires StoreInv(cfg, w)
    ensures StoreInv(cfg, Apply(cfg, w, s, x, y, id))
  {
    if Applies(cfg, w, s, x, y, id) {
      var n := |w.acc.sels|;
      var v := w.(acc := Issue(w.acc, s));
      assert StoreInv(cfg, v);
      IndexStores(cfg, v, n, s);
      var u := StoreIndex(v, n, s);
      ModeStores(cfg, u, n, s);
      var t := StoreMode(cfg, u, n, s);
      MovesOn(cfg, t, t.core0, t.core1, t.desk.(x := x, y := y), Answered(cfg, t.pending, s, x, y));
    }
  }

  /** Every store of either core keeps every index in range, and the account naming who stored what last. */
  lemma StepStores(cfg: Config, w: World, e: Event)
    requires StoreInv(cfg, w)
    ensures StoreInv(cfg, Step(cfg, w, e))
  {
    match e {
      case Answer(s, x, y, id) => EnterStores(cfg, w, s, x, y, id);
      case Core0Moves => Core0Stores(cfg, w);
      case Relayed(s, x, y, id) => ApplyStores(cfg, w, s, x, y, id);
      case Edge(d, plan, now) => EdgeStores(cfg, w, e, d, plan, now);
      case Continue(plan, now) => OnwardStores(cfg, w, plan, now);
      case _ => QuietStores(cfg, w, e);
    }
  }

  lemma EdgeStores(cfg: Config, w: World, e: Event, d: Direction, plan: Plan, now: Clock)
    requires StoreInv(cfg, w) && e == Edge(d, plan, now)
    ensures StoreInv(cfg, Step(cfg, w, e))
  {
    if Free(w) && w.pending.phase == Idle {
      var v := w.(acc := OnEdge(w.acc, w.desk, d));
      TakeKept(cfg, v, d, plan, now);
      KeptStores(cfg, w, Take(cfg, v, d, plan, now));
    }
  }

  predicate Quiet(e: Event) {
    e.NoHelper? || e.Motion? || e.PeerMouse? || e.Pass? || e.Replied? || e.PlaceReplied? || e.SwitchOutput?
    || e.SetLocked? || e.SetBoot?
  }

  lemma QuietKept(cfg: Config, w: World, e: Event)
    requires Ready(cfg, w) && Quiet(e)
    ensures Kept(w, Step(cfg, w, e)) || Step(cfg, w, e) == w.(desk := Step(cfg, w, e).desk)
  {
    match e {
      case Pass(now) =>
        if Free(w) {
          PassKept(w, now);
        }
      case Replied(r) =>
        if w.core1.Retrying? {
          RetryKept(w, r);
        } else if w.core1.Asking? {
          ReplyKept(w, r);
        }
      case _ =>
    }
  }

  lemma QuietDesk(cfg: Config, w: World, e: Event)
    requires Ready(cfg, w) && Quiet(e)
    ensures var t := Step(cfg, w, e);
            Shape(t.desk) && t.desk.index == w.desk.index && t.desk.relative == w.desk.relative
            && (!e.SwitchOutput? ==> t.desk.active == w.desk.active)
            && (Selecting(w.core1) ==> t.desk.active == w.desk.active)
  {
    match e {
      case Pass(now) =>
        if Free(w) {
          PassKept(w, now);
        }
      case Replied(r) =>
        if w.core1.Retrying? {
          RetryKept(w, r);
        } else if w.core1.Asking? {
          ReplyKept(w, r);
        }
      case _ =>
    }
  }

  lemma QuietStores(cfg: Config, w: World, e: Event)
    requires StoreInv(cfg, w) && Quiet(e)
    ensures StoreInv(cfg, Step(cfg, w, e))
  {
    var t := Step(cfg, w, e);
    QuietKept(cfg, w, e);
    QuietDesk(cfg, w, e);
    if Kept(w, t) {
      KeptStores(cfg, w, t);
    } else {
      SameStores(cfg, w, t);
    }
  }

  lemma SameStores(cfg: Config, w: World, t: World)
    requires StoreInv(cfg, w) && t == w.(desk := t.desk)
    requires Shape(t.desk) && t.desk.index == w.desk.index && t.desk.relative == w.desk.relative
    requires Selecting(w.core1) ==> t.desk.active == w.desk.active
    ensures StoreInv(cfg, t)
  {
  }

  /* ------------------------------------------------------------- the crossing */

  /** An output switch nobody's cursor made: it only selects a screen. */
  predicate ByHand(c: Core1) {
    (c.Landing? || c.Choosing? || c.Moding? || c.Writing?) && c.rest == []
  }

  /** The one switch an edge may make beyond the first: after a query answered and then called unavailable. */
  function Extra(a: Account): nat {
    if a.premature then 1 else 0
  }

  /** A crossing's clock is started once, or again when its query first goes out; what it waits on, and who may be at work. */
  ghost predicate Underway(w: World) {
    w.pending.phase != Idle ==>
      && w.pending.output < 2 && w.pending.id != 0
      && 1 <= w.acc.starts <= 2 && (w.acc.starts == 2 ==> w.pending.sent)
      && (w.pending.kind == MacPlacement ==> w.pending.phase != Cancelled)
      && (|w.acc.made| <= Extra(w.acc) || (w.pending.kind == MacPlacement && w.pending.phase == Reanchored))
      && (w.pending.phase == Waiting ==>
            w.core1.Rest? || w.core1.Asking? || w.core1.Placing? || w.core1.Retrying? || ByHand(w.core1))
  }

  /** What core 1 knows at each of its own steps. */
  ghost predicate Placed(w: World) {
    var p := w.pending;
    match w.core1
    case Asking(_, id, _) =>
      && p.phase != Idle && p.phase != Fallback && p.id == id && Asks(p.kind)
      && !p.sent && w.acc.starts == 1 && !w.acc.premature && w.acc.made == []
    case Placing(_, id, _) =>
      p.phase != Idle && p.phase != Fallback && p.id == id && p.kind == MacPlacement && |w.acc.made| <= Extra(w.acc)
    case Retrying(_, _, _) => p.phase != Idle && !p.sent && Asks(p.kind)
    case Proceeding(_, _) =>
      && p.phase != Waiting
      && (p.phase != Idle ==> w.acc.premature)
      && (if p.phase != Idle && Asks(p.kind) then w.acc.made == [] else |w.acc.made| <= Extra(w.acc))
      && (p.phase != Idle && p.kind == MacPlacement ==> p.phase == Reanchored)
    case Falling(_, _) => p.phase == Idle && |w.acc.made| <= Extra(w.acc)
    case Resuming(_) => p.phase == Idle && |w.acc.made| <= Extra(w.acc)
    case _ => true
  }

  ghost predicate CrossInv(w: World) {
    && Underway(w) && Placed(w)
    && |w.acc.made| <= 1 + Extra(w.acc)
    && (w.core0 != Off ==> Heeds(w.pending, w.core0.sel.output, w.core0.id))
  }

  lemma AnsweredCross(cfg: Config, w: World, s: Sel, x: int, y: int, t: World)
    requires CrossInv(w) && t == w.(pending := Answered(cfg, w.pending, s, x, y), core0 := Off, desk := t.desk, acc := t.acc)
    requires t.acc.made == w.acc.made && t.acc.premature == w.acc.premature && t.acc.starts == w.acc.starts
    ensures CrossInv(t)
  {
  }

  lemma EnterCross(cfg: Config, w: World, s: Sel, x: int, y: int, id: Byte)
    requires Ready(cfg, w) && CrossInv(w)
    ensures CrossInv(Enter(cfg, w, s, x, y, id))
  {
  }

  lemma Core0Cross(cfg: Config, w: World)
    requires Ready(cfg, w) && CrossInv(w)
    ensures CrossInv(Core0Step(cfg, w))
  {
    if w.core0.Moded? {
      AnsweredCross(cfg, w, w.core0.sel, w.core0.x, w.core0.y, Core0Step(cfg, w));
    }
  }

  lemma ApplyCross(cfg: Config, w: World, s: Sel, x: int, y: int, id: Byte)
    requires Ready(cfg, w) && CrossInv(w) && w.core0 == Off
    ensures CrossInv(Apply(cfg, w, s, x, y, id))
  {
    if Applies(cfg, w, s, x, y, id) {
      AnsweredCross(cfg, w, s, x, y, Apply(cfg, w, s, x, y, id));
    }
  }

  lemma CarryCross(cfg: Config, w: World, d: Direction, t: Transition, plan: Plan, now: Clock)
    requires Sound(cfg) && Shape(w.desk) && w.pending.phase == Idle && |w.acc.made| <= Extra(w.acc)
    requires (w.core0 != Off ==> w.core0.id == 0) && (Places(cfg, w.desk, t) ==> w.core0 == Off)
    ensures CrossInv(Carry(cfg, w, d, t, plan, now))
  {
  }

  lemma TakeCross(cfg: Config, w: World, d: Direction, plan: Plan, now: Clock)
    requires Sound(cfg) && Shape(w.desk) && w.pending.phase == Idle && w.core0 == Off
    requires w.acc.made == [] && !w.acc.premature
    ensures CrossInv(Take(cfg, w, d, plan, now))
  {
    CarryCross(cfg, w, d, Actionable(cfg, w.desk, d), plan, now);
  }

  lemma SettleCross(w: World, timedOut: bool)
    requires CrossInv(w) && w.core0 == Off && w.pending.phase != Idle
    ensures CrossInv(Settle(w, timedOut))
  {
  }

  lemma PassCross(w: World, now: Clock)
    requires CrossInv(w) && Free(w)
    ensures CrossInv(PassStart(w, now))
  {
    if w.pending.phase != Idle {
      SettleCross(w, TimedOut(w.pending, now));
    }
  }

  lemma RetryCross(w: World, r: Reply)
    requires CrossInv(w) && w.core1.Retrying? && w.core0 == Off
    ensures CrossInv(PassRetry(w, r))
  {
    if StillAsked(w.pending, w.core1) {
      var v := Retried(w, w.core1.now, r);
      assert CrossInv(v.(core1 := Rest));
      SettleCross(v.(core1 := Rest), TimedOut(v.pending, w.core1.now));
    }
  }

  lemma ReplyCross(w: World, r: Reply)
    requires CrossInv(w) && w.core1.Asking? && (r == ReplyRetry || w.core0 == Off)
    ensures CrossInv(AskReply(w, r))
  {
  }

  lemma PlaceReplyCross(w: World, queued: bool)
    requires CrossInv(w) && w.core1.Placing? && (queued || w.core0 == Off)
    ensures CrossInv(PlaceReply(w, queued))
  {
  }

  lemma OnwardCross(cfg: Config, w: World, plan: Plan, now: Clock)
    requires Ready(cfg, w) && CrossInv(w)
    ensures CrossInv(Onward(cfg, w, plan, now))
  {
    match w.core1 {
      case Resuming(d) =>
        if !Places(cfg, w.desk, Actionable(cfg, w.desk, d)) || w.core0 == Off {
          CarryCross(cfg, w, d, Actionable(cfg, w.desk, d), plan, now);
        }
      case Proceeding(_, _) => ProceedCross(w, plan);
      case Falling(_, _) => ProceedCross(w, plan);
      case _ => WritesCross(cfg, w, plan, now);
    }
  }

  lemma ProceedCross(w: World, plan: Plan)
    requires Shape(w.desk) && CrossInv(w) && (w.core1.Proceeding? || w.core1.Falling?)
    ensures CrossInv(Proceed(w, plan))
  {
  }

  lemma WritesCross(cfg: Config, w: World, plan: Plan, now: Clock)
    requires Ready(cfg, w) && CrossInv(w)
    requires !w.core1.Resuming? && !w.core1.Proceeding? && !w.core1.Falling?
    ensures CrossInv(Onward(cfg, w, plan, now))
  {
  }

  /** Every step of either core keeps the crossing in step with core 1, and its switches bounded. */
  lemma StepCross(cfg: Config, w: World, e: Event)
    requires Ready(cfg, w) && CrossInv(w)
    ensures CrossInv(Step(cfg, w, e))
  {
    match e {
      case Answer(s, x, y, id) => EnterCross(cfg, w, s, x, y, id);
      case Core0Moves => Core0Cross(cfg, w);
      case Relayed(s, x, y, id) =>
        if Free(w) {
          ApplyCross(cfg, w, s, x, y, id);
        }
      case Edge(d, plan, now) =>
        if Free(w) && w.pending.phase == Idle {
          TakeCross(cfg, w.(acc := OnEdge(w.acc, w.desk, d)), d, plan, now);
        }
      case Pass(now) =>
        if Free(w) {
          PassCross(w, now);
        }
      case Replied(r) =>
        if w.core1.Asking? && (r == ReplyRetry || w.core0 == Off) {
          ReplyCross(w, r);
        } else if w.core1.Retrying? && w.core0 == Off {
          RetryCross(w, r);
        }
      case PlaceReplied(queued) =>
        if w.core1.Placing? && (queued || w.core0 == Off) {
          PlaceReplyCross(w, queued);
        }
      case Continue(plan, now) => OnwardCross(cfg, w, plan, now);
      case _ => SmallCross(cfg, w, e);
    }
  }

  lemma SmallCross(cfg: Config, w: World, e: Event)
    requires Ready(cfg, w) && CrossInv(w)
    requires e.NoHelper? || e.Motion? || e.PeerMouse? || e.SwitchOutput? || e.SetLocked? || e.SetBoot?
    ensures CrossInv(Step(cfg, w, e))
  {
  }

  /* --------------------------------------------------------------- every run */

  ghost predicate Inv(cfg: Config, w: World) {
    StoreInv(cfg, w) && CrossInv(w)
  }

  lemma StepKeeps(cfg: Config, w: World, e: Event)
    requires Inv(cfg, w)
    ensures Inv(cfg, Step(cfg, w, e))
  {
    StepStores(cfg, w, e);
    StepCross(cfg, w, e);
  }

  ghost function Run(cfg: Config, w: World, es: seq<Event>): (t: World)
    requires Inv(cfg, w)
    ensures Inv(cfg, t)
    decreases |es|
  {
    if es == [] then w
    else
      StepKeeps(cfg, w, es[0]);
      Run(cfg, Step(cfg, w, es[0]), es[1..])
  }

  lemma StartGood(cfg: Config)
    requires Sound(cfg)
    ensures Inv(cfg, START)
  {
  }

  /** Relative reports exactly on Windows' screens beyond the main one. */
  predicate RelativeFits(cfg: Config, w: World)
    requires Sound(cfg) && Shape(w.desk)
  {
    w.desk.relative == ModeOf(cfg, Sel(w.desk.active, w.desk.index[w.desk.active]))
  }

  /**
    * Over every interleaving of the two cores, store by store: screen indices stay
    * in range; a crossing starts its clock at most twice; an edge makes at most one
    * switch, or two if a query of its was answered and then called unavailable; and
    * relative mode fits the active screen if the selection that last stored that
    * screen is the one that last stored the mode, and otherwise exactly when the two
    * selections happen to call for the same mode.
    */
  lemma EveryRun(cfg: Config, es: seq<Event>)
    requires Sound(cfg)
    ensures Inv(cfg, START)
    ensures var w := Run(cfg, START, es);
            var last, mode := w.acc.indexBy[w.desk.active], w.acc.modeBy;
            && 1 <= w.desk.index[0] <= cfg.outputs[0].count && 1 <= w.desk.index[1] <= cfg.outputs[1].count
            && (w.pending.phase != Idle ==> w.acc.starts <= 2)
            && |w.acc.made| <= (if w.acc.premature then 2 else 1)
            && last < |w.acc.sels| && mode < |w.acc.sels| && w.acc.sels[mode].output < 2
            && w.acc.sels[last] == Sel(w.desk.active, w.desk.index[w.desk.active])
            && (last == mode ==> RelativeFits(cfg, w))
            && (RelativeFits(cfg, w) <==> ModeOf(cfg, w.acc.sels[mode]) == ModeOf(cfg, w.acc.sels[last]))
  {
    StartGood(cfg);
  }

  /* ---------------------------------------------------------- while it waits */

  /** A step of an answer that has passed its tests: core 0's stores, or the whole of one relayed to core 1. */
  predicate AnswerStep(cfg: Config, w: World, e: Event)
    requires Ready(cfg, w)
  {
    (e.Core0Moves? && w.core0 != Off) || (e.Relayed? && Free(w) && Applies(cfg, w, e.s, e.x, e.y, e.id))
  }

  /** A mouse report of the other board that carries a position. */
  predicate PeerPositions(w: World, e: Event) {
    e.PeerMouse? && w.core1 == Rest && !e.bootRelative
  }

  /** The last step of an answer, which sets the pointer. */
  predicate Positions(cfg: Config, w: World, e: Event)
    requires Ready(cfg, w)
  {
    (e.Core0Moves? && w.core0.Moded?) || (e.Relayed? && AnswerStep(cfg, w, e))
  }

  /**
    * While a crossing waits, and apart from an output switch by hand: the pointer is
    * set by the last step of an answer or by a mouse report of the other board, to
    * what they say, and by nothing else; the screen and the mode are stored only by
    * an answer; and every answer at work is one under the crossing's own nonzero id
    * and output.
    */
  lemma WaitingIsHeld(cfg: Config, w: World, e: Event)
    requires Inv(cfg, w) && w.pending.phase == Waiting && !ByHand(w.core1) && !e.SwitchOutput?
    ensures var t := Step(cfg, w, e);
            && t.desk.active == w.desk.active
            && (t.desk.x, t.desk.y) == (if PeerPositions(w, e) then (e.x, e.y)
                                        else if Positions(cfg, w, e)
                                        then (if e.Relayed? then (e.x, e.y) else (w.core0.x, w.core0.y))
                                        else (w.desk.x, w.desk.y))
            && (!AnswerStep(cfg, w, e) ==> t.desk.index == w.desk.index && t.desk.relative == w.desk.relative)
            && (AnswerStep(cfg, w, e) ==>
                  var id := if e.Relayed? then e.id else w.core0.id;
                  var output := if e.Relayed? then e.s.output else w.core0.sel.output;
                  id == w.pending.id && id != 0 && output == w.pending.output)
            && (Positions(cfg, w, e) ==> t.pending.phase == Reanchored || t.pending.phase == Cancelled)
  {
    match e {
      case Pass(now) =>
        if Free(w) {
          PassKept(w, now);
        }
      case Replied(r) =>
        if w.core1.Asking? {
          ReplyKept(w, r);
        } else if w.core1.Retrying? {
          RetryKept(w, r);
        }
      case _ =>
    }
  }

  /** A correlated answer nothing waits for changes nothing, in any state. */
  lemma StrayAnswer(cfg: Config, w: World, s: Sel, x: int, y: int, id: Byte)
    requires Ready(cfg, w) && id != 0
    requires w.pending.phase != Waiting || w.pending.id != id || w.pending.output != s.output
    ensures Step(cfg, w, Answer(s, x, y, id)) == w && Step(cfg, w, Relayed(s, x, y, id)) == w
  {
  }

  /* ------------------------------------------------------------ termination */

  /** How far a crossing is from its end. */
  function Rank(p: Pending): nat {
    if p.phase == Idle then 0
    else if p.phase != Waiting then 1
    else if p.sent || p.kind == MacPlacement then 2
    else 3
  }

  lemma SettleRank(w: World, timedOut: bool)
    ensures Rank(Settle(w, timedOut).pending) <= Rank(w.pending)
  {
  }

  /** Nothing takes a crossing further from its end. */
  lemma RankNeverRises(cfg: Config, w: World, e: Event)
    requires Inv(cfg, w) && w.pending.phase != Idle
    ensures Rank(Step(cfg, w, e).pending) <= Rank(w.pending)
  {
    match e {
      case Pass(now) => SettleRank(w, TimedOut(w.pending, now));
      case Replied(r) =>
        if w.core1.Retrying? {
          var v := Retried(w, w.core1.now, r);
          SettleRank(v, TimedOut(v.pending, w.core1.now));
        }
      case Continue(plan, now) => OnwardRank(cfg, w, plan, now);
      case _ =>
    }
  }

  lemma OnwardRank(cfg: Config, w: World, plan: Plan, now: Clock)
    requires Inv(cfg, w) && w.pending.phase != Idle
    ensures Onward(cfg, w, plan, now).pending == w.pending
  {
  }

  /** A pass that has nothing to retry ends a crossing that is settled or out of time, across the wrap of the clock. */
  lemma PassEnds(cfg: Config, w: World, now: Clock)
    requires Inv(cfg, w) && Free(w)
    requires w.pending.phase == Waiting ==> Since(now, w.pending.started) >= TIMEOUT_US
    ensures var t := Step(cfg, w, Pass(now));
            if t.core1.Retrying?
            then w.pending.phase == Waiting && !w.pending.sent
                 && t == w.(core1 := Retrying(w.pending.output, w.pending.id, now))
            else t.pending.phase == Idle
  {
  }

  /** While core 1 waits for the retry, only an answer can settle the crossing. */
  lemma {:induction false} RetryWindow(cfg: Config, w: World, es: seq<Event>)
    requires Inv(cfg, w) && w.core1.Retrying? && (forall e :: e in es ==> !e.Replied?)
    ensures var t := Run(cfg, w, es);
            && t.core1 == w.core1 && t.acc.starts == w.acc.starts
            && (t.pending == w.pending
                || (w.pending.phase == Waiting && (t.pending.phase == Reanchored || t.pending.phase == Cancelled)))
    decreases |es|
  {
    if es != [] {
      assert es[0] in es;
      StepKeeps(cfg, w, es[0]);
      WindowStep(cfg, w, es[0]);
      RetryWindow(cfg, Step(cfg, w, es[0]), es[1..]);
    }
  }

  lemma WindowStep(cfg: Config, w: World, e: Event)
    requires Inv(cfg, w) && w.core1.Retrying? && !e.Replied?
    ensures var t := Step(cfg, w, e);
            && t.core1 == w.core1 && t.acc.starts == w.acc.starts
            && (t.pending == w.pending
                || (w.pending.phase == Waiting && (t.pending.phase == Reanchored || t.pending.phase == Cancelled)))
  {
  }

  /**
    * A pass 30 ms or more after the clock was last started, whatever happens while
    * it retries an unsent query: the crossing is over unless the query went out at
    * last, which starts the clock again once, or an answer came in that window,
    * which the next pass ends. So three such passes end any crossing.
    */
  lemma PassLowers(cfg: Config, w: World, now: Clock, es: seq<Event>, r: Reply)
    requires Inv(cfg, w) && Free(w) && w.pending.phase != Idle
    requires w.pending.phase == Waiting ==> Since(now, w.pending.started) >= TIMEOUT_US
    requires forall e :: e in es ==> !e.Replied?
    ensures var t := Step(cfg, w, Pass(now));
            && Inv(cfg, t)
            && (if !t.core1.Retrying? then t.pending.phase == Idle
                else
                  var u := Run(cfg, t, es);
                  u.core0 == Off ==>
                    var v := Step(cfg, u, Replied(r));
                    && Rank(v.pending) < Rank(w.pending)
                    && (v.pending.phase == Idle <==> u.pending.phase == Waiting && r != ReplySent)
                    && (v.pending.phase == Waiting ==> v.acc.starts == w.acc.starts + 1 == 2 && v.pending.started == now))
  {
    PassEnds(cfg, w, now);
    StepKeeps(cfg, w, Pass(now));
    var t := Step(cfg, w, Pass(now));
    if t.core1.Retrying? {
      RetryWindow(cfg, t, es);
    }
  }

  /** A crossing is pending at every moment of a run. */
  ghost predicate HeldThrough(cfg: Config, w: World, es: seq<Event>)
    requires Inv(cfg, w)
    decreases |es|
  {
    if w.pending.phase == Idle then false
    else if es == [] then true
    else
      StepKeeps(cfg, w, es[0]);
      HeldThrough(cfg, Step(cfg, w, es[0]), es[1..])
  }

  lemma {:induction false} RankOverRun(cfg: Config, w: World, es: seq<Event>)
    requires Inv(cfg, w) && HeldThrough(cfg, w, es)
    ensures Run(cfg, w, es).pending.phase != Idle && Rank(Run(cfg, w, es).pending) <= Rank(w.pending)
    decreases |es|
  {
    if es != [] {
      StepKeeps(cfg, w, es[0]);
      RankNeverRises(cfg, w, es[0]);
      RankOverRun(cfg, Step(cfg, w, es[0]), es[1..]);
    }
  }

  /** Anything at all, then a task pass, anything while it retries, and the retry's reply. */
  datatype TaskPass = TaskPass(before: seq<Event>, now: Clock, during: seq<Event>, reply: Reply)

  /** Each pass comes 30 ms or more after the clock was last started, and motion is held all the way. */
  ghost predicate LatePasses(cfg: Config, w: World, ps: seq<TaskPass>)
    requires Inv(cfg, w)
    decreases |ps|
  {
    if ps == [] then w.pending.phase != Idle
    else
      var p := ps[0];
      var u := Run(cfg, w, p.before);
      StepKeeps(cfg, u, Pass(p.now));
      var t := Step(cfg, u, Pass(p.now));
      var d := Run(cfg, t, p.during);
      StepKeeps(cfg, d, Replied(p.reply));
      && HeldThrough(cfg, w, p.before)
      && Free(u) && (u.pending.phase == Waiting ==> Since(p.now, u.pending.started) >= TIMEOUT_US)
      && HeldThrough(cfg, t, p.during) && (forall e :: e in p.during ==> !e.Replied?) && d.core0 == Off
      && LatePasses(cfg, Step(cfg, d, Replied(p.reply)), ps[1..])
  }

  /** Motion is never held forever: no crossing outlives three task passes that late, whatever else happens. */
  lemma {:induction false} MotionIsReleased(cfg: Config, w: World, ps: seq<TaskPass>)
    requires Inv(cfg, w) && LatePasses(cfg, w, ps)
    ensures |ps| < Rank(w.pending) <= 3
    decreases |ps|
  {
    if ps != [] {
      var p := ps[0];
      var u := Run(cfg, w, p.before);
      RankOverRun(cfg, w, p.before);
      PassLowers(cfg, u, p.now, p.during, p.reply);
      var t := Step(cfg, u, Pass(p.now));
      var d := Run(cfg, t, p.during);
      StepKeeps(cfg, d, Replied(p.reply));
      MotionIsReleased(cfg, Step(cfg, d, Replied(p.reply)), ps[1..]);
    }
  }
}
