/** Runs of the crossing, from power-on, in which what one would like to hold does not. */
module CrossingFaults {
  import opened Basics
  import opened Crossing
  import opened CrossingRuns
  import opened CrossingEdges

  /** A Windows output of four screens in a row beside a Linux output of one; every position counts as at the edge. */
  const DESKS := Config([Output(Windows, 4, Right, Top), Output(Linux, 1, NoDirection, Bottom)],
                        (p, x, y) => true, (p, x, y) => true)

  const PLAN := Plan(false, 3, 4, [], 0)
  const GO := Continue(PLAN, 0)

  /** A run, needing only the shape of the state. */
  ghost function Play(cfg: Config, w: World, es: seq<Event>): (t: World)
    requires Ready(cfg, w)
    ensures Ready(cfg, t)
    decreases |es|
  {
    if es == [] then w
    else
      StepReady(cfg, w, es[0]);
      Play(cfg, Step(cfg, w, es[0]), es[1..])
  }

  lemma StepReady(cfg: Config, w: World, e: Event)
    requires Ready(cfg, w)
    ensures Ready(cfg, Step(cfg, w, e))
  {
    match e {
      case Continue(plan, now) => OnwardReady(cfg, w, plan, now);
      case Edge(d, plan, now) =>
        if Free(w) && w.pending.phase == Idle {
          TakeKept(cfg, w.(acc := OnEdge(w.acc, w.desk, d)), d, plan, now);
        }
      case Answer(_, _, _, _) =>
      case Core0Moves =>
      case Relayed(_, _, _, _) =>
      case _ =>
        QuietKept(cfg, w, e);
        QuietDesk(cfg, w, e);
    }
  }

  lemma OnwardReady(cfg: Config, w: World, plan: Plan, now: Clock)
    requires Ready(cfg, w)
    ensures Ready(cfg, Onward(cfg, w, plan, now))
  {
    match w.core1 {
      case Resuming(d) => CarryKept(cfg, w, d, Actionable(cfg, w.desk, d), plan, now);
      case Proceeding(_, _) => ProceedKept(w, plan);
      case Falling(_, _) => ProceedKept(w, plan);
      case _ =>
    }
  }

  lemma {:induction false} RunIsPlay(cfg: Config, w: World, es: seq<Event>)
    requires Inv(cfg, w)
    ensures Run(cfg, w, es) == Play(cfg, w, es)
    decreases |es|
  {
    if es != [] {
      StepKeeps(cfg, w, es[0]);
      RunIsPlay(cfg, Step(cfg, w, es[0]), es[1..]);
    }
  }

  lemma {:induction false} PlayConcat(cfg: Config, w: World, a: seq<Event>, b: seq<Event>)
    requires Ready(cfg, w)
    ensures Play(cfg, w, a + b) == Play(cfg, Play(cfg, w, a), b)
    decreases |a|
  {
    if a == [] {
      assert a + b == b;
    } else {
      assert (a + b)[1..] == a[1..] + b;
      StepReady(cfg, w, a[0]);
      PlayConcat(cfg, Step(cfg, w, a[0]), a[1..], b);
    }
  }

  lemma PlayThree(cfg: Config, w: World, a: seq<Event>, b: seq<Event>, c: seq<Event>)
    requires Ready(cfg, w)
    ensures Play(cfg, w, a + b + c) == Play(cfg, Play(cfg, Play(cfg, w, a), b), c)
  {
    PlayConcat(cfg, w, a + b, c);
    PlayConcat(cfg, w, a, b);
  }

  /** A run by its states. */
  lemma {:induction false} PlayPath(cfg: Config, ws: seq<World>, es: seq<Event>)
    requires |ws| == |es| + 1 && Ready(cfg, ws[0])
    requires forall i :: 0 <= i < |es| ==> Ready(cfg, ws[i]) && ws[i + 1] == Step(cfg, ws[i], es[i])
    ensures Play(cfg, ws[0], es) == ws[|es|]
    decreases |es|
  {
    if es != [] {
      StepReady(cfg, ws[0], es[0]);
      PlayPath(cfg, ws[1..], es[1..]);
    }
  }

  /** A switch to a screen, with nothing else going on, is five steps of core 1's. */
  lemma SwitchRuns(cfg: Config, w: World, screen: nat, x: int, y: int)
    requires Ready(cfg, w) && w.core0 == Off && Selectable(cfg, w.desk, Sel(w.desk.active, screen))
    requires w.core1 == Writing([ToPointer(x, y), ToScreen(screen)])
    ensures var s := Sel(w.desk.active, screen);
            var v := w.(desk := w.desk.(x := x, y := y), core1 := Rest, acc := Issue(w.acc, s));
            Play(cfg, w, [GO, GO, GO, GO, GO]) == Selected(cfg, v, |w.acc.sels|, s)
  {
    var s, n := Sel(w.desk.active, screen), |w.acc.sels|;
    var rest := w.core1.rest;
    assert rest[1..] == [ToScreen(screen)] && rest[1..][1..] == [];
    var w1 := w.(desk := w.desk.(x := x, y := y), core1 := Writing([ToScreen(screen)]));
    var w2 := w1.(core1 := Choosing(n, s, []), acc := Issue(w.acc, s));
    var w3 := StoreIndex(w2, n, s).(core1 := Moding(n, s, []));
    var w4 := StoreMode(cfg, w3, n, s).(core1 := Writing([]));
    var w5 := w4.(core1 := Rest);
    assert w1 == Step(cfg, w, GO);
    assert w2 == Step(cfg, w1, GO);
    assert w3 == Step(cfg, w2, GO);
    assert w4 == Step(cfg, w3, GO);
    assert w5 == Step(cfg, w4, GO);
    PlayPath(cfg, [w, w1, w2, w3, w4, w5], [GO, GO, GO, GO, GO]);
  }

  /** On the second screen of the Windows output, in relative mode. */
  const TWO := World(Desk(0, [2, 1], true, 3, 4, false, false, false), CLEARED, 0, Off, Rest,
                     Account(Right, 0, [Leg(0, 1, Right, Screen(2))], false, false, 0, 1,
                             [Sel(0, 1), Sel(1, 1), Sel(0, 2)], [2, 1], 2))

  const TO_TWO := [Edge(Right, PLAN, 0)] + [GO, GO, GO, GO, GO]

  lemma ReachTwo()
    ensures Inv(DESKS, START) && Play(DESKS, START, TO_TWO) == TWO
  {
    StartGood(DESKS);
    var w := START.(core1 := Writing([ToPointer(3, 4), ToScreen(2)]),
                    acc := START.acc.(edge := Right, made := [Leg(0, 1, Right, Screen(2))]));
    assert w == Step(DESKS, START, Edge(Right, PLAN, 0));
    PlayPath(DESKS, [START, w], [Edge(Right, PLAN, 0)]);
    SwitchRuns(DESKS, w, 2, 3, 4);
    PlayConcat(DESKS, START, [Edge(Right, PLAN, 0)], [GO, GO, GO, GO, GO]);
    assert [1, 1][0 := 2] == [2, 1] && [0, 1][0 := 2] == [2, 1];
  }

  /** Arriving on an output is a selection too: four steps of core 1's. */
  lemma LandRuns(cfg: Config, w: World, screen: nat)
    requires Ready(cfg, w) && w.core1 == Landing(true, []) && Selectable(cfg, w.desk, Sel(w.desk.active, screen))
    requires screen == if cfg.outputs[w.desk.active].os == Windows then 1 else w.desk.index[w.desk.active]
    ensures var s := Sel(w.desk.active, screen);
            Play(cfg, w, [GO, GO, GO, GO]) == Selected(cfg, w.(core1 := Rest, acc := Issue(w.acc, s)), |w.acc.sels|, s)
  {
    var s, n := Sel(w.desk.active, screen), |w.acc.sels|;
    var w1 := w.(core1 := Choosing(n, s, []), acc := Issue(w.acc, s));
    var w2 := StoreIndex(w1, n, s).(core1 := Moding(n, s, []));
    var w3 := StoreMode(cfg, w2, n, s).(core1 := Writing([]));
    var w4 := w3.(core1 := Rest);
    assert w1 == Step(cfg, w, GO);
    assert w2 == Step(cfg, w1, GO);
    assert w3 == Step(cfg, w2, GO);
    assert w4 == Step(cfg, w3, GO);
    PlayPath(cfg, [w, w1, w2, w3, w4], [GO, GO, GO, GO]);
  }

  /** An answer that has passed its tests is three more steps of core 0's, which look at nothing again. */
  lemma AnswerRuns(cfg: Config, w: World)
    requires Ready(cfg, w) && w.core0.Passed?
    ensures Play(cfg, w, [Core0Moves, Core0Moves, Core0Moves])
            == Place(cfg, Selected(cfg, w, w.core0.n, w.core0.sel), w.core0.sel, w.core0.x, w.core0.y).(core0 := Off)
  {
    var c := w.core0;
    var w1 := StoreIndex(w, c.n, c.sel).(core0 := Indexed(c.n, c.sel, c.x, c.y, c.id));
    var w2 := StoreMode(cfg, w1, c.n, c.sel).(core0 := Moded(c.n, c.sel, c.x, c.y, c.id));
    var w3 := Place(cfg, w2, c.sel, c.x, c.y).(core0 := Off);
    assert w1 == Step(cfg, w, Core0Moves);
    assert w2 == Step(cfg, w1, Core0Moves);
    assert w3 == Step(cfg, w2, Core0Moves);
    PlayPath(cfg, [w, w1, w2, w3], [Core0Moves, Core0Moves, Core0Moves]);
  }

  /** Core 0 has passed the tests of an answer for the active output when the output is switched by hand. */
  lemma HandRuns(cfg: Config, w: World, x: int, y: int)
    requires Ready(cfg, w) && AtRest(w) && Selectable(cfg, w.desk, Sel(w.desk.active, w.desk.index[w.desk.active]))
    ensures var s := Sel(w.desk.active, w.desk.index[w.desk.active]);
            Play(cfg, w, [Answer(s, x, y, 0), SwitchOutput(1 - w.desk.active)])
            == w.(desk := w.desk.(active := 1 - w.desk.active), core0 := Passed(|w.acc.sels|, s, x, y, 0),
                  core1 := Landing(true, []), acc := Issue(w.acc, s).(switched := true))
  {
    var s := Sel(w.desk.active, w.desk.index[w.desk.active]);
    var w1 := w.(core0 := Passed(|w.acc.sels|, s, x, y, 0), acc := Issue(w.acc, s));
    var w2 := w1.(desk := w1.desk.(active := 1 - w.desk.active), core1 := Landing(true, []),
                  acc := w1.acc.(switched := true));
    assert w1 == Step(cfg, w, Answer(s, x, y, 0));
    assert w2 == Step(cfg, w1, SwitchOutput(1 - w.desk.active));
    PlayPath(cfg, [w, w1, w2], [Answer(s, x, y, 0), SwitchOutput(1 - w.desk.active)]);
  }

  const LAND := [GO, GO, GO, GO]
  const FINISH := [Core0Moves, Core0Moves, Core0Moves]

  /**
    * From any state at rest: an uncorrelated answer, the output switched by hand once
    * core 0 has passed its tests, core 1's selection there, and core 0's stores. Both
    * cores rest on the output switched to, in the mode of the screen that was left.
    */
  lemma TornByHand(cfg: Config, w: World, x: int, y: int)
    requires InRange(cfg, w) && AtRest(w)
    ensures var s := Sel(w.desk.active, w.desk.index[w.desk.active]);
            var u := Play(cfg, w, [Answer(s, x, y, 0), SwitchOutput(1 - w.desk.active)] + LAND + FINISH);
            AtRest(u) && u.desk.active == 1 - w.desk.active && u.desk.relative == ModeOf(cfg, s)
            && u.desk.index[u.desk.active]
               == (if cfg.outputs[u.desk.active].os == Windows then 1 else w.desk.index[u.desk.active])
  {
    var s := Sel(w.desk.active, w.desk.index[w.desk.active]);
    var enter := [Answer(s, x, y, 0), SwitchOutput(1 - w.desk.active)];
    HandRuns(cfg, w, x, y);
    var v := Play(cfg, w, enter);
    LandRuns(cfg, v, if cfg.outputs[v.desk.active].os == Windows then 1 else v.desk.index[v.desk.active]);
    var u := Play(cfg, v, LAND);
    AnswerRuns(cfg, u);
    PlayThree(cfg, w, enter, LAND, FINISH);
  }

  const CUT_IN := [GO, Core0Moves, Core0Moves]
  const CLOSE := [GO, Core0Moves, GO]

  lemma CutInRuns(cfg: Config, w: World)
    requires Ready(cfg, w) && w.core0.Passed? && w.core1.Choosing? && w.core1.rest == []
    ensures var c, d := w.core0, w.core1;
            Play(cfg, w, CUT_IN) == Selected(cfg, StoreIndex(w, d.n, d.sel), c.n, c.sel)
                                    .(core0 := Moded(c.n, c.sel, c.x, c.y, c.id), core1 := Moding(d.n, d.sel, []))
  {
    var c, d := w.core0, w.core1;
    var w1 := StoreIndex(w, d.n, d.sel).(core1 := Moding(d.n, d.sel, []));
    var w2 := StoreIndex(w1, c.n, c.sel).(core0 := Indexed(c.n, c.sel, c.x, c.y, c.id));
    var w3 := StoreMode(cfg, w2, c.n, c.sel).(core0 := Moded(c.n, c.sel, c.x, c.y, c.id));
    assert w1 == Step(cfg, w, GO);
    assert w2 == Step(cfg, w1, Core0Moves);
    assert w3 == Step(cfg, w2, Core0Moves);
    PlayPath(cfg, [w, w1, w2, w3], CUT_IN);
  }

  lemma CloseRuns(cfg: Config, w: World)
    requires Ready(cfg, w) && w.core0.Moded? && w.core1.Moding? && w.core1.rest == []
    ensures var c, d := w.core0, w.core1;
            Play(cfg, w, CLOSE) == Place(cfg, StoreMode(cfg, w, d.n, d.sel), c.sel, c.x, c.y).(core0 := Off, core1 := Rest)
  {
    var c, d := w.core0, w.core1;
    var w1 := StoreMode(cfg, w, d.n, d.sel).(core1 := Writing([]));
    var w2 := Place(cfg, w1, c.sel, c.x, c.y).(core0 := Off);
    var w3 := w2.(core1 := Rest);
    assert w1 == Step(cfg, w, GO);
    assert w2 == Step(cfg, w1, Core0Moves);
    assert w3 == Step(cfg, w2, GO);
    PlayPath(cfg, [w, w1, w2, w3], CLOSE);
  }

  /**
    * Two selections on one output, core 0's between core 1's two stores: core 0 has
    * the index and core 1 the mode.
    */
  lemma TornOnOutput(cfg: Config, w: World)
    requires Ready(cfg, w) && w.core0.Passed? && w.core1.Choosing? && w.core1.rest == []
    requires w.core0.sel.output == w.desk.active && w.pending.phase == Idle
    ensures var u := Play(cfg, w, CUT_IN + CLOSE);
            AtRest(u) && u.desk.active == w.desk.active
            && u.desk.index[u.desk.active] == w.core0.sel.screen && u.desk.relative == ModeOf(cfg, w.core1.sel)
  {
    CutInRuns(cfg, w);
    CloseRuns(cfg, Play(cfg, w, CUT_IN));
    PlayConcat(cfg, w, CUT_IN, CLOSE);
  }

  /**
    * From power-on: both cores at rest on the Linux output, and its reports are
    * relative.
    */
  lemma TornFromStart() returns (es: seq<Event>)
    ensures Inv(DESKS, START)
    ensures var w := Run(DESKS, START, es);
            AtRest(w) && DESKS.outputs[w.desk.active].os == Linux && w.desk.relative
  {
    ReachTwo();
    TornByHand(DESKS, TWO, 0, 0);
    var more := [Answer(Sel(0, 2), 0, 0, 0), SwitchOutput(1)] + LAND + FINISH;
    PlayConcat(DESKS, START, TO_TWO, more);
    es := TO_TWO + more;
    RunIsPlay(DESKS, START, es);
  }

  /** On the way to the second screen, the pointer set. */
  const ON_THE_WAY := START.(desk := START.desk.(x := 3, y := 4), core1 := Writing([ToScreen(2)]),
                             acc := START.acc.(edge := Right, made := [Leg(0, 1, Right, Screen(2))]))

  lemma ReachWay()
    ensures Inv(DESKS, START) && Play(DESKS, START, [Edge(Right, PLAN, 0), GO]) == ON_THE_WAY
  {
    StartGood(DESKS);
    var rest := [ToPointer(3, 4), ToScreen(2)];
    assert rest[1..] == [ToScreen(2)];
    var w := START.(core1 := Writing(rest), acc := ON_THE_WAY.acc);
    assert w == Step(DESKS, START, Edge(Right, PLAN, 0));
    assert ON_THE_WAY == Step(DESKS, w, GO);
    PlayPath(DESKS, [START, w, ON_THE_WAY], [Edge(Right, PLAN, 0), GO]);
  }

  /** Core 1 is about to store its selection of the second screen when core 0 passes an answer for the first. */
  lemma ReachBoth() returns (w: World)
    ensures Ready(DESKS, ON_THE_WAY) && Play(DESKS, ON_THE_WAY, [Answer(Sel(0, 1), 0, 0, 0), GO]) == w
    ensures w.core0.Passed? && w.core0.sel == Sel(0, 1) && w.core1.Choosing? && w.core1.sel == Sel(0, 2)
    ensures w.core1.rest == [] && w.desk.active == 0 && w.pending.phase == Idle
  {
    var rest := [ToScreen(2)];
    assert rest[1..] == [];
    var v := ON_THE_WAY.(core0 := Passed(2, Sel(0, 1), 0, 0, 0), acc := Issue(ON_THE_WAY.acc, Sel(0, 1)));
    w := v.(core1 := Choosing(3, Sel(0, 2), []), acc := Issue(v.acc, Sel(0, 2)));
    assert v == Step(DESKS, ON_THE_WAY, Answer(Sel(0, 1), 0, 0, 0));
    assert w == Step(DESKS, v, GO);
    PlayPath(DESKS, [ON_THE_WAY, v, w], [Answer(Sel(0, 1), 0, 0, 0), GO]);
  }

  /** From power-on, and with no output switch: both cores at rest on the main Windows screen, in relative mode. */
  lemma TornOnMainScreen() returns (es: seq<Event>)
    ensures Inv(DESKS, START)
    ensures var w := Run(DESKS, START, es);
            AtRest(w) && w.desk.active == 0 && w.desk.index[0] == 1 && w.desk.relative
  {
    ReachWay();
    var w := ReachBoth();
    TornOnOutput(DESKS, w);
    PlayThree(DESKS, START, [Edge(Right, PLAN, 0), GO], [Answer(Sel(0, 1), 0, 0, 0), GO], CUT_IN + CLOSE);
    es := [Edge(Right, PLAN, 0), GO] + [Answer(Sel(0, 1), 0, 0, 0), GO] + (CUT_IN + CLOSE);
    RunIsPlay(DESKS, START, es);
  }

  /* --------------------------------------------- an answer, then no helper */

  /** A query called unavailable once its answer has been applied: the edge is taken, and the crossing stays. */
  lemma CalledRuns(cfg: Config, w: World)
    requires Ready(cfg, w) && w.core1.Asking? && w.core0 == Off && Chain(w.core1.t) && w.pending.phase == Reanchored
    ensures var c := w.core1;
            var at := w.desk.index[w.desk.active];
            Play(cfg, w, [Replied(ReplyUnavailable), GO])
            == SwitchDesktop(w.(acc := w.acc.(premature := true)), c.d, at, NextScreen(c.t, at), PLAN)
  {
    var w1 := w.(core1 := Proceeding(w.core1.d, w.core1.t), acc := w.acc.(premature := true));
    var at := w.desk.index[w.desk.active];
    var w2 := SwitchDesktop(w1, w.core1.d, at, NextScreen(w.core1.t, at), PLAN);
    assert w1 == Step(cfg, w, Replied(ReplyUnavailable));
    assert w2 == Step(cfg, w1, GO);
    PlayPath(cfg, [w, w1, w2], [Replied(ReplyUnavailable), GO]);
  }

  /** And the next pass resumes it. */
  lemma ResumedRuns(cfg: Config, w: World, now: Clock)
    requires Ready(cfg, w) && Free(w) && w.pending.phase == Reanchored && w.pending.kind == ChainReanchor
    requires w.desk.active == w.pending.output && !w.desk.locked && cfg.outputs[w.desk.active].os == Windows
    ensures |Play(cfg, w, [Pass(now), GO]).acc.made|
            == |w.acc.made| + (if Actionable(cfg, w.desk, w.pending.direction) == NoTransition then 0 else 1)
  {
    var w1 := w.(pending := CLEARED, core1 := Resuming(w.pending.direction));
    var w2 := Carry(cfg, w1, w.pending.direction, Actionable(cfg, w.desk, w.pending.direction), PLAN, 0);
    assert w1 == Step(cfg, w, Pass(now));
    assert w2 == Step(cfg, w1, GO);
    PlayPath(cfg, [w, w1, w2], [Pass(now), GO]);
  }

  /**
    * A chain query answered and then called unavailable: its edge is taken, and the
    * next pass takes it again from the screen arrived on, so that there are two
    * switches exactly when the layout has a further screen or output that way.
    */
  lemma AnsweredThenUnavailable(cfg: Config, w: World, now: Clock)
    requires Ready(cfg, w) && w.core1.Asking? && w.core0 == Off && Chain(w.core1.t) && w.acc.made == []
    requires w.pending.phase == Reanchored && w.pending.kind == ChainReanchor && w.pending.direction == w.core1.d
    requires w.desk.active == w.pending.output && !w.desk.locked && cfg.outputs[w.desk.active].os == Windows
    requires Selectable(cfg, w.desk, Sel(w.desk.active, NextScreen(w.core1.t, w.desk.index[w.desk.active])))
    ensures var next := NextScreen(w.core1.t, w.desk.index[w.desk.active]);
            var u := Play(cfg, w, [Replied(ReplyUnavailable), GO] + [GO, GO, GO, GO, GO] + [Pass(now), GO]);
            |u.acc.made| == if Actionable(cfg, w.desk.(index := w.desk.index[w.desk.active := next]), w.core1.d) == NoTransition
                            then 1 else 2
  {
    CalledRuns(cfg, w);
    var next := NextScreen(w.core1.t, w.desk.index[w.desk.active]);
    var v := Play(cfg, w, [Replied(ReplyUnavailable), GO]);
    SwitchRuns(cfg, v, next, PLAN.x, PLAN.y);
    var u := Play(cfg, v, [GO, GO, GO, GO, GO]);
    ResumedRuns(cfg, u, now);
    SameWay(cfg, u.desk, w.desk.(index := w.desk.index[w.desk.active := next]), w.core1.d);
    PlayThree(cfg, w, [Replied(ReplyUnavailable), GO], [GO, GO, GO, GO, GO], [Pass(now), GO]);
  }

  lemma SameWay(cfg: Config, a: Desk, b: Desk, d: Direction)
    requires Sound(cfg) && Shape(a) && Shape(b)
    requires a.active == b.active && a.index == b.index && a.locked == b.locked && a.boot == b.boot && a.buttons == b.buttons
    ensures Actionable(cfg, a, d) == Actionable(cfg, b, d)
  {
  }

  /** The second screen's edge, its query recorded and not yet sent. */
  const ASKED := TWO.(nextId := 1, pending := Pending(Waiting, ChainReanchor, Right, 0, 1, 2, 0, false, 0),
                      core1 := Asking(Right, 1, ChainForward),
                      acc := TWO.acc.(edge := Right, from := 0, made := [], premature := false, switched := false,
                                      starts := 1, begun := 2))

  lemma ReachAsked()
    ensures Inv(DESKS, START) && Play(DESKS, START, TO_TWO + [Edge(Right, PLAN, 0)]) == ASKED
  {
    ReachTwo();
    assert ASKED == Step(DESKS, TWO, Edge(Right, PLAN, 0));
    PlayPath(DESKS, [TWO, ASKED], [Edge(Right, PLAN, 0)]);
    PlayConcat(DESKS, START, TO_TWO, [Edge(Right, PLAN, 0)]);
  }

  lemma TwiceFromAsked() returns (es: seq<Event>)
    ensures Ready(DESKS, ASKED) && |Play(DESKS, ASKED, es).acc.made| == 2
  {
    var e := Answer(Sel(0, 2), 3, 4, 1);
    var w := ASKED.(core0 := Passed(3, Sel(0, 2), 3, 4, 1), acc := Issue(ASKED.acc, Sel(0, 2)));
    assert w == Step(DESKS, ASKED, e);
    PlayPath(DESKS, [ASKED, w], [e]);
    AnswerRuns(DESKS, w);
    AnsweredThenUnavailable(DESKS, Play(DESKS, w, FINISH), 0);
    var twice := [Replied(ReplyUnavailable), GO] + [GO, GO, GO, GO, GO] + [Pass(0), GO];
    PlayThree(DESKS, ASKED, [e], FINISH, twice);
    es := [e] + FINISH + twice;
  }

  /** From power-on: one edge, and two switches. */
  lemma TwiceFromStart() returns (es: seq<Event>)
    ensures Inv(DESKS, START) && |Run(DESKS, START, es).acc.made| == 2
  {
    ReachAsked();
    var twice := TwiceFromAsked();
    PlayConcat(DESKS, START, TO_TWO + [Edge(Right, PLAN, 0)], twice);
    es := TO_TWO + [Edge(Right, PLAN, 0)] + twice;
    RunIsPlay(DESKS, START, es);
  }

  /** From power-on: a crossing waits for its answer, and the other board's mouse moves the pointer. */
  lemma PeerMovesWaiting(x: int, y: int) returns (es: seq<Event>)
    ensures Inv(DESKS, START)
    ensures var w := Run(DESKS, START, es);
            w.pending.phase == Waiting && w.pending.sent && w.desk.x == x && w.desk.y == y
  {
    ReachAsked();
    var w1 := ASKED.(pending := ASKED.pending.(sent := true), core1 := Rest);
    var w2 := w1.(desk := w1.desk.(x := x, y := y, buttons := false));
    assert w1 == Step(DESKS, ASKED, Replied(ReplySent));
    assert w2 == Step(DESKS, w1, PeerMouse(x, y, false, false));
    PlayPath(DESKS, [ASKED, w1, w2], [Replied(ReplySent), PeerMouse(x, y, false, false)]);
    PlayConcat(DESKS, START, TO_TWO + [Edge(Right, PLAN, 0)], [Replied(ReplySent), PeerMouse(x, y, false, false)]);
    es := TO_TWO + [Edge(Right, PLAN, 0)] + [Replied(ReplySent), PeerMouse(x, y, false, false)];
    RunIsPlay(DESKS, START, es);
  }
}
