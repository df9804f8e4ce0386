/** What an edge comes to: whether core 1 takes it, asks first or leaves it, and how each crossing ends. */
module CrossingOutcomes {
  import opened Basics
  import opened Crossing
  import opened CrossingLayout
  import opened CrossingRuns
  import opened CrossingEdges
  import opened CrossingFaults

  function OutputOf(cfg: Config, w: World): Output
    requires Ready(cfg, w)
  {
    cfg.outputs[w.desk.active]
  }

  function ScreenOf(w: World): nat
    requires Shape(w.desk)
  {
    w.desk.index[w.desk.active]
  }

  /** The edge may be taken: nothing forbids it, and this is where it leads. No button may be held over the border. */
  ghost predicate Open(cfg: Config, w: World, d: Direction, to: Target)
    requires Ready(cfg, w)
  {
    !w.desk.locked && !w.desk.boot && Leads(OutputOf(cfg, w), ScreenOf(w), d, to) && (to == Other ==> !w.desk.buttons)
  }

  ghost predicate Shut(cfg: Config, w: World, d: Direction)
    requires Ready(cfg, w)
  {
    forall to :: !Open(cfg, w, d, to)
  }

  lemma ActionableIs(cfg: Config, w: World, d: Direction, to: Target)
    requires InRange(cfg, w)
    ensures var t := Actionable(cfg, w.desk, d);
            Open(cfg, w, d, to) <==> match to case Other => t == ToOutput
                                              case Screen(j) => Chain(t) && j == NextScreen(t, ScreenOf(w))
  {
    if d != NoDirection {
      TransitionIs(OutputOf(cfg, w), ScreenOf(w), d, to);
    }
  }

  lemma ShutIs(cfg: Config, w: World, d: Direction)
    requires InRange(cfg, w)
    ensures Shut(cfg, w, d) <==> Actionable(cfg, w.desk, d) == NoTransition
  {
    var t := Actionable(cfg, w.desk, d);
    forall to ensures Open(cfg, w, d, to) ==> t != NoTransition {
      ActionableIs(cfg, w, d, to);
    }
    ActionableIs(cfg, w, d, Other);
    ActionableIs(cfg, w, d, Screen(NextScreen(t, ScreenOf(w))));
  }

  /* ---------------------------------------------------------------- taking an edge */

  /** Core 1 is under way to where the edge leads, and the account has the switch. */
  ghost predicate SetsOut(w: World, t: World, d: Direction, to: Target, plan: Plan)
    requires Shape(w.desk)
  {
    && t.acc.made == w.acc.made + [Leg(w.desk.active, ScreenOf(w), d, to)]
    && match to
       case Other => t.desk.active == 1 - w.desk.active && t.core1 == Landing(false, plan.rest)
       case Screen(j) => t.desk == w.desk && t.core1 == Writing([ToPointer(plan.x, plan.y), ToScreen(j)])
  }

  /** A placement of the cursor on that screen has begun. */
  predicate Begins(w: World, t: World, kind: Kind, d: Direction, target: nat)
    requires Shape(w.desk)
  {
    && t.pending.phase == Waiting && t.pending.kind == kind && t.pending.direction == d && t.pending.target == target
    && t.pending.output == w.desk.active && t.pending.id == NextId(w.nextId) && !t.pending.sent
    && t.desk == w.desk && t.acc.made == w.acc.made
  }

  /** An edge taken with the source known: over the border, to the next screen, by a placement on macOS, or not at all. */
  lemma CarriesTo(cfg: Config, w: World, d: Direction, to: Target, plan: Plan, now: Clock)
    requires InRange(cfg, w)
    ensures var t := Carry(cfg, w, d, Actionable(cfg, w.desk, d), plan, now);
            && (Shut(cfg, w, d) ==> t == w.(core1 := Rest))
            && (Open(cfg, w, d, to) ==>
                  if to == Other && plan.blocked then t == w.(desk := w.desk.(x := plan.x, y := plan.y), core1 := Rest)
                  else if to.Screen? && OutputOf(cfg, w).os == MacOs
                  then Begins(w, t, MacPlacement, d, to.n) && t.core1.Placing?
                  else SetsOut(w, t, d, to, plan))
  {
    ShutIs(cfg, w, d);
    ActionableIs(cfg, w, d, to);
  }

  /** The board asks before it leaves a screen it only estimates the cursor on: over the border, and along a Windows chain. */
  predicate MustAsk(cfg: Config, w: World, to: Target)
    requires Ready(cfg, w)
  {
    w.desk.relative && (to == Other || OutputOf(cfg, w).os == Windows)
  }

  /** An edge from rest: whether it is taken, asked about, or left, for every layout, lock and mode. */
  lemma EdgeDecides(cfg: Config, w: World, d: Direction, to: Target, plan: Plan, now: Clock)
    requires InRange(cfg, w) && AtRest(w)
    ensures var t := Step(cfg, w, Edge(d, plan, now));
            var v := w.(acc := OnEdge(w.acc, w.desk, d));
            && (Shut(cfg, w, d) ==> t == v)
            && (Open(cfg, w, d, to) ==>
                  if MustAsk(cfg, w, to)
                  then Begins(v, t, if to == Other then SourceReanchor else ChainReanchor, d, ScreenOf(w)) && t.core1.Asking?
                  else if to == Other && plan.blocked
                  then t == v.(desk := w.desk.(x := plan.x, y := plan.y))
                  else if to.Screen? && OutputOf(cfg, w).os == MacOs
                  then Begins(v, t, MacPlacement, d, to.n) && t.core1.Placing?
                  else SetsOut(v, t, d, to, plan))
  {
    var v := w.(acc := OnEdge(w.acc, w.desk, d));
    ShutIs(cfg, w, d);
    ActionableIs(cfg, w, d, to);
    SameWay(cfg, w.desk, v.desk, d);
    assert Open(cfg, w, d, to) <==> Open(cfg, v, d, to);
    CarriesTo(cfg, v, d, to, plan, now);
    ShutIs(cfg, v, d);
  }

  /** A crossing resumed is the same decision again, with nothing more to ask. */
  lemma ResumedDecides(cfg: Config, w: World, to: Target, plan: Plan, now: Clock)
    requires InRange(cfg, w) && w.core1.Resuming? && w.core0 == Off
    ensures var t := Step(cfg, w, Continue(plan, now));
            var d := w.core1.d;
            && (Shut(cfg, w, d) ==> t == w.(core1 := Rest))
            && (Open(cfg, w, d, to) ==>
                  if to == Other && plan.blocked then t == w.(desk := w.desk.(x := plan.x, y := plan.y), core1 := Rest)
                  else if to.Screen? && OutputOf(cfg, w).os == MacOs
                  then Begins(w, t, MacPlacement, d, to.n) && t.core1.Placing?
                  else SetsOut(w, t, d, to, plan))
  {
    CarriesTo(cfg, w, w.core1.d, to, plan, now);
  }

  /* ----------------------------------------------------------- how a crossing ends */

  /**
    * Which answers are taken. All must be for a screen the active output has. While a
    * crossing waits only an answer under its own number and output is, and for a placement
    * only that the cursor is on the screen it was for, where it was to be; otherwise only
    * one under no number, for the screen the cursor is on already.
    */
  lemma AnswersTaken(cfg: Config, w: World, s: Sel, x: int, y: int, id: Byte)
    requires Ready(cfg, w)
    ensures Applies(cfg, w, s, x, y, id) <==>
              && s.output == w.desk.active && 1 <= s.screen <= OutputOf(cfg, w).count
              && if w.pending.phase == Waiting
                 then && id != 0 && id == w.pending.id && s.output == w.pending.output
                      && (w.pending.kind == MacPlacement ==> s.screen == w.pending.target && cfg.confirms(w.pending, x, y))
                 else id == 0 && s.screen == ScreenOf(w)
  {
  }

  /** Motion of this board's mouse moves the pointer exactly when no crossing is pending; buttons always count. */
  lemma MotionMoves(cfg: Config, w: World, x: int, y: int, buttons: bool)
    requires Ready(cfg, w) && Free(w)
    ensures var t := Step(cfg, w, Motion(x, y, buttons));
            && t.desk.buttons == buttons && t.pending == w.pending && t.acc == w.acc
            && t.desk.x == (if w.pending.phase == Idle then x else w.desk.x)
            && t.desk.y == (if w.pending.phase == Idle then y else w.desk.y)
  {
  }

  /** A task pass drops the crossing: the output changed, a button is held over the border, or switching is locked. */
  predicate Dropped(w: World) {
    w.desk.active != w.pending.output || (w.pending.kind == SourceReanchor && w.desk.buttons) || w.desk.locked
  }

  /** An answer that bears the crossing out: the cursor is at the edge of the screen it was thought on, or placed where it was to be. */
  predicate BearsOut(cfg: Config, p: Pending, s: Sel, x: int, y: int) {
    match p.kind
    case MacPlacement => true
    case SourceReanchor => cfg.atEdge(p, x, y)
    case ChainReanchor => s.screen == p.target && cfg.atEdge(p, x, y)
  }

  /**
    * Answered: the cursor is where the answer says, on the screen it says, and the next
    * pass resumes a crossing the answer bears out and drops any other. A placement
    * confirmed is there already.
    */
  lemma AnsweredEnds(cfg: Config, w: World, s: Sel, x: int, y: int, now: Clock)
    requires Ready(cfg, w) && Free(w) && w.pending.phase == Waiting && Applies(cfg, w, s, x, y, w.pending.id)
    requires w.pending.id != 0
    ensures var t := Play(cfg, w, [Answer(s, x, y, w.pending.id)] + FINISH + [Pass(now)]);
            && t.pending == CLEARED && t.core0 == Off && t.acc.made == w.acc.made
            && t.desk.x == x && t.desk.y == y && t.desk.active == w.desk.active
            && t.desk.index == w.desk.index[s.output := s.screen] && t.desk.relative == ModeOf(cfg, s)
            && t.desk.buttons == w.desk.buttons && t.desk.locked == w.desk.locked && t.desk.boot == w.desk.boot
            && t.core1 == if Dropped(w) || !BearsOut(cfg, w.pending, s, x, y) || w.pending.kind == MacPlacement then Rest
                          else Resuming(w.pending.direction)
  {
    var n := |w.acc.sels|;
    var w1 := w.(core0 := Passed(n, s, x, y, w.pending.id), acc := Issue(w.acc, s));
    assert w1 == Step(cfg, w, Answer(s, x, y, w.pending.id));
    PlayPath(cfg, [w, w1], [Answer(s, x, y, w.pending.id)]);
    AnswerRuns(cfg, w1);
    var w2 := Play(cfg, w1, FINISH);
    PassPlays(cfg, w2, now);
    AnsweredPass(cfg, w2, now);
    PlayThree(cfg, w, [Answer(s, x, y, w.pending.id)], FINISH, [Pass(now)]);
  }

  /** A pass over a crossing that is answered. */
  lemma AnsweredPass(cfg: Config, w: World, now: Clock)
    requires Ready(cfg, w) && Free(w) && (w.pending.phase == Reanchored || w.pending.phase == Cancelled)
    ensures Step(cfg, w, Pass(now))
         == w.(pending := CLEARED,
               core1 := if Dropped(w) || w.pending.phase == Cancelled || w.pending.kind == MacPlacement then Rest
                        else Resuming(w.pending.direction))
  {
  }

  lemma PassPlays(cfg: Config, w: World, now: Clock)
    requires Ready(cfg, w)
    ensures Play(cfg, w, [Pass(now)]) == Step(cfg, w, Pass(now))
  {
    StepReady(cfg, w, Pass(now));
    PlayPath(cfg, [w, Step(cfg, w, Pass(now))], [Pass(now)]);
  }

  /**
    * Never answered, 30 ms after it went out: a crossing of the border goes ahead from
    * where the board thinks the cursor is, one along a Windows chain does not, and a
    * placement falls back on walking the cursor to the screen it was for.
    */
  lemma SilentEnds(cfg: Config, w: World, now: Clock)
    requires Ready(cfg, w) && Free(w) && w.pending.phase == Waiting && (w.pending.sent || w.pending.kind == MacPlacement)
    requires Since(now, w.pending.started) >= TIMEOUT_US
    ensures Step(cfg, w, Pass(now))
         == w.(pending := CLEARED,
               core1 := if Dropped(w) || w.pending.kind == ChainReanchor then Rest
                        else if w.pending.kind == MacPlacement then Falling(w.pending.direction, w.pending.target)
                        else Resuming(w.pending.direction))
  {
  }

  /** Before that it is left alone. */
  lemma EarlyPassWaits(cfg: Config, w: World, now: Clock)
    requires Ready(cfg, w) && Free(w) && w.pending.phase == Waiting && (w.pending.sent || w.pending.kind == MacPlacement)
    requires Since(now, w.pending.started) < TIMEOUT_US && !Dropped(w)
    ensures Step(cfg, w, Pass(now)) == w
  {
  }

  /** No helper to ask: every kind goes ahead without one. */
  lemma HelplessEnds(cfg: Config, w: World, now: Clock)
    requires Ready(cfg, w) && Free(w) && w.pending.phase == Waiting
    ensures var t := Step(cfg, w, NoHelper(w.pending.output, w.pending.id));
            && Ready(cfg, t)
            && Step(cfg, t, Pass(now))
               == w.(pending := CLEARED,
                     core1 := if Dropped(w) then Rest
                              else if w.pending.kind == MacPlacement then Falling(w.pending.direction, w.pending.target)
                              else Resuming(w.pending.direction))
  {
  }

  /** And so does a query the retry finds no helper for. */
  lemma RetriedEnds(cfg: Config, w: World, now: Clock)
    requires Ready(cfg, w) && Free(w) && w.pending.phase == Waiting && Asks(w.pending.kind) && !w.pending.sent && !Dropped(w)
    ensures var t := Step(cfg, w, Pass(now));
            && Ready(cfg, t) && t == w.(core1 := Retrying(w.pending.output, w.pending.id, now))
            && Step(cfg, t, Replied(ReplyUnavailable)) == w.(pending := CLEARED, core1 := Resuming(w.pending.direction))
  {
  }

  /* ------------------------------------------------------------------- all the way */

  /** The query an edge from here goes out under, once it has. */
  function Query(w: World, d: Direction, to: Target, now: Clock): Pending
    requires Shape(w.desk)
  {
    Pending(Waiting, if to == Other then SourceReanchor else ChainReanchor, d, w.desk.active, NextId(w.nextId),
            ScreenOf(w), 0, true, now)
  }

  lemma AskedRuns(cfg: Config, w: World, d: Direction, to: Target, plan: Plan, now: Clock)
    requires InRange(cfg, w) && AtRest(w) && Open(cfg, w, d, to) && MustAsk(cfg, w, to)
    ensures var t := Play(cfg, w, [Edge(d, plan, now), Replied(ReplySent)]);
            && t.core1 == Rest && t.core0 == Off && t.desk == w.desk && t.acc.made == []
            && t.pending == Query(w, d, to, now)
  {
    EdgeDecides(cfg, w, d, to, plan, now);
    var w1 := Step(cfg, w, Edge(d, plan, now));
    StepReady(cfg, w, Edge(d, plan, now));
    AskedIs(cfg, w, d, plan, now);
    var w2 := w1.(pending := w1.pending.(sent := true), core1 := Rest);
    assert w2 == Step(cfg, w1, Replied(ReplySent));
    PlayPath(cfg, [w, w1, w2], [Edge(d, plan, now), Replied(ReplySent)]);
  }

  lemma AskedIs(cfg: Config, w: World, d: Direction, plan: Plan, now: Clock)
    requires Ready(cfg, w) && AtRest(w) && Step(cfg, w, Edge(d, plan, now)).core1.Asking?
    ensures var t := Step(cfg, w, Edge(d, plan, now));
            && t.core0 == Off && t.core1.id == t.pending.id && t.acc.made == []
            && t.pending.position == 0 && t.pending.started == now
  {
  }

  /**
    * All the way, from rest, with the cursor only estimated: the edge, the query sent,
    * the answer that the cursor is at that edge of the screen it was thought on, core
    * 0's stores, the next pass, and core 1 sets out for just where the grid leads.
    */
  lemma AskedEdgeCrosses(cfg: Config, w: World, d: Direction, to: Target, x: int, y: int, plan: Plan, now: Clock)
    requires InRange(cfg, w) && AtRest(w)
    requires Open(cfg, w, d, to) && MustAsk(cfg, w, to) && (to == Other ==> !plan.blocked)
    requires cfg.atEdge(Query(w, d, to, now), x, y)
    ensures var ask := [Edge(d, plan, now), Replied(ReplySent)];
            var answer := [Answer(Sel(w.desk.active, ScreenOf(w)), x, y, NextId(w.nextId))] + FINISH + [Pass(now)];
            var t := Play(cfg, w, ask + answer + [Continue(plan, now)]);
            && t.acc.made == [Leg(w.desk.active, ScreenOf(w), d, to)]
            && match to
               case Other => t.desk.active == 1 - w.desk.active && t.core1 == Landing(false, plan.rest)
               case Screen(j) => t.desk.active == w.desk.active && t.core1 == Writing([ToPointer(plan.x, plan.y), ToScreen(j)])
  {
    var ask := [Edge(d, plan, now), Replied(ReplySent)];
    var s := Sel(w.desk.active, ScreenOf(w));
    var answer := [Answer(s, x, y, NextId(w.nextId))] + FINISH + [Pass(now)];
    AskedRuns(cfg, w, d, to, plan, now);
    var v := Play(cfg, w, ask);
    AnsweredEnds(cfg, v, s, x, y, now);
    var u := Play(cfg, v, answer);
    SameScreen(w.desk.index, w.desk.active);
    StillOpen(cfg, w, u, d, to);
    ResumedDecides(cfg, u, to, plan, now);
    StepReady(cfg, u, Continue(plan, now));
    PlayPath(cfg, [u, Step(cfg, u, Continue(plan, now))], [Continue(plan, now)]);
    PlayThree(cfg, w, ask, answer, [Continue(plan, now)]);
  }

  /** And on macOS: the placement queued, the readback that the cursor is on the screen beside, and it is there. */
  lemma PlacedEdgeCrosses(cfg: Config, w: World, d: Direction, j: nat, x: int, y: int, plan: Plan, now: Clock)
    requires InRange(cfg, w) && AtRest(w) && Open(cfg, w, d, Screen(j)) && OutputOf(cfg, w).os == MacOs
    requires cfg.confirms(Pending(Waiting, MacPlacement, d, w.desk.active, NextId(w.nextId), j, plan.position, false, now), x, y)
    ensures var place := [Edge(d, plan, now), PlaceReplied(true)];
            var answer := [Answer(Sel(w.desk.active, j), x, y, NextId(w.nextId))] + FINISH + [Pass(now)];
            var t := Play(cfg, w, place + answer);
            AtRest(t) && t.desk.active == w.desk.active && ScreenOf(t) == j && t.desk.x == x && t.desk.y == y
  {
    var place := [Edge(d, plan, now), PlaceReplied(true)];
    var s := Sel(w.desk.active, j);
    var answer := [Answer(s, x, y, NextId(w.nextId))] + FINISH + [Pass(now)];
    PlacedRuns(cfg, w, d, j, plan, now);
    AnsweredEnds(cfg, Play(cfg, w, place), s, x, y, now);
    PlayConcat(cfg, w, place, answer);
  }

  lemma PlacedRuns(cfg: Config, w: World, d: Direction, j: nat, plan: Plan, now: Clock)
    requires InRange(cfg, w) && AtRest(w) && Open(cfg, w, d, Screen(j)) && OutputOf(cfg, w).os == MacOs
    ensures var t := Play(cfg, w, [Edge(d, plan, now), PlaceReplied(true)]);
            && t.core1 == Rest && t.core0 == Off && t.desk == w.desk
            && t.pending == Pending(Waiting, MacPlacement, d, w.desk.active, NextId(w.nextId), j, plan.position, false, now)
  {
    EdgeDecides(cfg, w, d, Screen(j), plan, now);
    var w1 := Step(cfg, w, Edge(d, plan, now));
    StepReady(cfg, w, Edge(d, plan, now));
    PlacedIs(cfg, w, d, plan, now);
    var w2 := w1.(core1 := Rest);
    assert w2 == Step(cfg, w1, PlaceReplied(true));
    PlayPath(cfg, [w, w1, w2], [Edge(d, plan, now), PlaceReplied(true)]);
  }

  lemma PlacedIs(cfg: Config, w: World, d: Direction, plan: Plan, now: Clock)
    requires Ready(cfg, w) && AtRest(w) && Step(cfg, w, Edge(d, plan, now)).core1.Placing?
    ensures var t := Step(cfg, w, Edge(d, plan, now));
            t.core0 == Off && t.pending.position == plan.position && t.pending.started == now
  {
  }

  lemma SameScreen(index: seq<nat>, i: nat)
    requires i < |index|
    ensures index[i := index[i]] == index
  {
  }

  lemma StillOpen(cfg: Config, w: World, u: World, d: Direction, to: Target)
    requires InRange(cfg, w) && Ready(cfg, u) && u.core0 == Off && !Selecting(u.core1)
    requires u.desk.active == w.desk.active && u.desk.index == w.desk.index && u.desk.buttons == w.desk.buttons
    requires u.desk.locked == w.desk.locked && u.desk.boot == w.desk.boot
    ensures InRange(cfg, u) && (Open(cfg, u, d, to) <==> Open(cfg, w, d, to))
  {
  }
}
