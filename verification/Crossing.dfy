/**
  * The cursor crossing: core 1 takes the cursor over a screen edge, and where the
  * helper knows better than the board where the cursor is, asks it first; core 0
  * applies the helper's answers. The crossing is under a lock. What core 1 does
  * outside it is a step of its own here, and selecting a screen, which core 1 does
  * without the lock, is a guard and two stores.
  */
module Crossing {
  import opened Basics

  const TIMEOUT_US := 30000

  type Clock = t: int | 0 <= t < 0x1_0000_0000

  datatype Os = Linux | MacOs | Windows | Android | OtherOs

  datatype Direction = NoDirection | Left | Right | Top | Bottom

  datatype Output = Output(os: Os, count: nat, chain: Direction, border: Direction)

  datatype Phase = Idle | Waiting | Reanchored | Fallback | Cancelled

  datatype Kind = SourceReanchor | ChainReanchor | MacPlacement

  datatype Pending = Pending(phase: Phase, kind: Kind, direction: Direction, output: nat, id: Byte,
                             target: nat, position: nat, sent: bool, started: Clock)

  const CLEARED := Pending(Idle, SourceReanchor, NoDirection, 0, 0, 0, 0, false, 0)

  /** Both outputs, and the two position tests, which only the coordinates decide. */
  datatype Config = Config(outputs: seq<Output>,
                           atEdge: (Pending, int, int) -> bool, confirms: (Pending, int, int) -> bool)

  predicate Sound(cfg: Config) {
    |cfg.outputs| == 2 && cfg.outputs[0].count >= 1 && cfg.outputs[1].count >= 1
  }

  datatype Transition = NoTransition | ToOutput | ChainForward | ChainBack

  /** What core 1 still writes in a switch, in order. */
  datatype Write = ToPointer(x: int, y: int) | ToScreen(screen: nat)

  /** A screen of an output, selected. */
  datatype Sel = Sel(output: nat, screen: nat)

  /** Where core 0 is with an answer, all of it under the lock: what it has stored of the selection so far. */
  datatype Core0 =
    | Off
    | Passed(n: nat, sel: Sel, x: int, y: int, id: Byte)
    | Indexed(n: nat, sel: Sel, x: int, y: int, id: Byte)
    | Moded(n: nat, sel: Sel, x: int, y: int, id: Byte)

  /** Where core 1 is. */
  datatype Core1 =
    | Rest
    | Asking(d: Direction, id: Byte, t: Transition)
    | Placing(d: Direction, id: Byte, t: Transition)
    | Retrying(output: nat, id: Byte, now: Clock)
    | Proceeding(d: Direction, t: Transition)
    | Falling(d: Direction, screen: nat)
    | Resuming(d: Direction)
    | Landing(home: bool, rest: seq<Write>)
    | Choosing(n: nat, sel: Sel, rest: seq<Write>)
    | Moding(n: nat, sel: Sel, rest: seq<Write>)
    | Writing(rest: seq<Write>)

  /** The cursor state both cores share. */
  datatype Desk = Desk(active: nat, index: seq<nat>, relative: bool, x: int, y: int,
                       buttons: bool, locked: bool, boot: bool)

  /** One switch core 1 decided on: where from, over which edge, and where to. */
  datatype Target = Other | Screen(n: nat)

  datatype Leg = Leg(output: nat, index: nat, d: Direction, to: Target)

  /**
    * An account of the run. Of the edge last taken: its direction, the output it
    * left, the switches made, whether a query was answered and then called
    * unavailable, and whether the output was switched by hand meanwhile. Of the
    * crossing: how often its clock was started, and the screen it began on. And
    * every selection ever begun, with the ones that last stored each index and the
    * mode.
    */
  datatype Account = Account(edge: Direction, from: nat, made: seq<Leg>, premature: bool, switched: bool,
                             starts: nat, begun: nat,
                             sels: seq<Sel>, indexBy: seq<nat>, modeBy: nat)

  datatype World = World(desk: Desk, pending: Pending, nextId: Byte, core0: Core0, core1: Core1, acc: Account)

  /* ------------------------------------------------------------ the layout */

  function Opposite(d: Direction): Direction {
    match d
    case NoDirection => NoDirection
    case Left => Right
    case Right => Left
    case Top => Bottom
    case Bottom => Top
  }

  predicate Horizontal(d: Direction) {
    d == Left || d == Right
  }

  function TransitionFor(o: Output, screen: nat, movement: Direction): Transition {
    if movement == o.border && (screen == 1 || Horizontal(o.chain) != Horizontal(o.border)) then ToOutput
    else if movement == o.chain && screen < o.count then ChainForward
    else if movement == Opposite(o.chain) && screen > 1 then ChainBack
    else NoTransition
  }

  predicate Chain(t: Transition) {
    t == ChainForward || t == ChainBack
  }

  function NextScreen(t: Transition, screen: nat): nat {
    match t
    case ChainForward => screen + 1
    case ChainBack => if screen > 0 then screen - 1 else 0
    case _ => screen
  }

  /* --------------------------------------------------------- shared accesses */

  predicate Shape(d: Desk) {
    |d.index| == 2 && d.active < 2
  }

  function Actionable(cfg: Config, desk: Desk, d: Direction): Transition
    requires Sound(cfg) && Shape(desk)
  {
    if d == NoDirection || desk.locked || desk.boot then NoTransition
    else
      var t := TransitionFor(cfg.outputs[desk.active], desk.index[desk.active], d);
      if t == ToOutput && desk.buttons then NoTransition else t
  }

  predicate Selectable(cfg: Config, desk: Desk, s: Sel)
    requires Sound(cfg) && Shape(desk)
  {
    s.output < 2 && s.output == desk.active && 1 <= s.screen <= cfg.outputs[s.output].count
  }

  predicate ModeOf(cfg: Config, s: Sel)
    requires Sound(cfg) && s.output < 2
  {
    cfg.outputs[s.output].os == Windows && s.screen > 1
  }

  /** A selection begins: its guard has passed. */
  function Issue(a: Account, s: Sel): Account {
    a.(sels := a.sels + [s])
  }

  /** Its first store. */
  function StoreIndex(w: World, n: nat, s: Sel): World
    requires Shape(w.desk) && |w.acc.indexBy| == 2 && s.output < 2
  {
    w.(desk := w.desk.(index := w.desk.index[s.output := s.screen]),
       acc := w.acc.(indexBy := w.acc.indexBy[s.output := n]))
  }

  /** Its second. */
  function StoreMode(cfg: Config, w: World, n: nat, s: Sel): World
    requires Sound(cfg) && s.output < 2
  {
    w.(desk := w.desk.(relative := ModeOf(cfg, s)), acc := w.acc.(modeBy := n))
  }

  /** Both at once. */
  function Selected(cfg: Config, w: World, n: nat, s: Sel): World
    requires Sound(cfg) && Shape(w.desk) && |w.acc.indexBy| == 2 && s.output < 2
  {
    StoreMode(cfg, StoreIndex(w, n, s), n, s)
  }

  /** A helper's answer is looked at only in a crossing it correlates with, or uncorrelated outside one. */
  predicate Heeds(p: Pending, output: nat, id: Byte) {
    if p.phase == Waiting then id != 0 && p.output == output && p.id == id else id == 0
  }

  /** The tests an answer has to pass. */
  predicate Applies(cfg: Config, w: World, s: Sel, x: int, y: int, id: Byte)
    requires Sound(cfg) && Shape(w.desk)
  {
    && s.output < 2
    && Heeds(w.pending, s.output, id)
    && (id != 0 && w.pending.kind == MacPlacement ==> s.screen == w.pending.target && cfg.confirms(w.pending, x, y))
    && (id == 0 ==> s.screen == w.desk.index[s.output])
    && Selectable(cfg, w.desk, s)
  }

  /** The phase an accepted answer leaves. */
  function Answered(cfg: Config, p: Pending, s: Sel, x: int, y: int): Pending {
    if p.phase != Waiting || p.output != s.output then p
    else if p.kind == MacPlacement
         || ((p.kind == SourceReanchor || (p.kind == ChainReanchor && s.screen == p.target)) && cfg.atEdge(p, x, y))
    then p.(phase := Reanchored)
    else p.(phase := Cancelled)
  }

  function Place(cfg: Config, w: World, s: Sel, x: int, y: int): World {
    w.(desk := w.desk.(x := x, y := y), pending := Answered(cfg, w.pending, s, x, y))
  }

  predicate Ready(cfg: Config, w: World) {
    Sound(cfg) && Shape(w.desk) && |w.acc.indexBy| == 2
    && (w.core0.Off? || w.core0.sel.output < 2)
    && (w.core1.Choosing? || w.core1.Moding? ==> w.core1.sel.output < 2)
  }

  /** An answer relayed by the other board: core 1's own locked section, which nothing of core 0's can enter. */
  function Apply(cfg: Config, w: World, s: Sel, x: int, y: int, id: Byte): World
    requires Ready(cfg, w)
  {
    if !Applies(cfg, w, s, x, y, id) then w
    else Place(cfg, Selected(cfg, w.(acc := Issue(w.acc, s)), |w.acc.sels|, s), s, x, y)
  }

  /** Core 0 takes the lock for an answer that passes its tests. */
  function Enter(cfg: Config, w: World, s: Sel, x: int, y: int, id: Byte): World
    requires Ready(cfg, w)
  {
    if w.core0 != Off || !Applies(cfg, w, s, x, y, id) then w
    else w.(core0 := Passed(|w.acc.sels|, s, x, y, id), acc := Issue(w.acc, s))
  }

  /** And goes on with it. */
  function Core0Step(cfg: Config, w: World): World
    requires Ready(cfg, w)
  {
    match w.core0
    case Off => w
    case Passed(n, s, x, y, id) => StoreIndex(w, n, s).(core0 := Indexed(n, s, x, y, id))
    case Indexed(n, s, x, y, id) => StoreMode(cfg, w, n, s).(core0 := Moded(n, s, x, y, id))
    case Moded(n, s, x, y, id) => Place(cfg, w, s, x, y).(core0 := Off)
  }

  function Unavailable(w: World, output: nat, id: Byte): World {
    if w.pending.phase == Waiting && w.pending.output == output && w.pending.id == id
    then w.(pending := w.pending.(phase := Fallback)) else w
  }

  function NextId(id: Byte): Byte {
    if (id + 1) % 256 == 0 then 1 else (id + 1) % 256
  }

  function Since(now: Clock, start: Clock): Clock {
    (now - start) % 0x1_0000_0000
  }

  /* ------------------------------------------------------------- core 1's steps */

  /** A crossing starts: its query is recorded before it is sent. */
  function Begin(w: World, kind: Kind, d: Direction, target: nat, position: nat, now: Clock, pc: Core1): World
    requires Shape(w.desk)
  {
    w.(nextId := NextId(w.nextId),
       pending := Pending(Waiting, kind, d, w.desk.active, NextId(w.nextId), target, position, false, now),
       core1 := pc,
       acc := w.acc.(starts := 1, begun := w.desk.index[w.desk.active]))
  }

  /** What the seam and the geometry decide of a crossing, which this model leaves open. */
  datatype Plan = Plan(blocked: bool, x: int, y: int, rest: seq<Write>, position: nat)

  function Made(a: Account, leg: Leg): Account {
    a.(made := a.made + [leg])
  }

  /** Leave for the other output, or stop at the edge where the seam is blocked. */
  function Depart(w: World, d: Direction, from: nat, plan: Plan): World
    requires Shape(w.desk)
  {
    if plan.blocked then w.(desk := w.desk.(x := plan.x, y := plan.y), core1 := Rest)
    else w.(desk := w.desk.(active := 1 - w.desk.active), core1 := Landing(false, plan.rest),
            acc := Made(w.acc, Leg(w.desk.active, from, d, Other)))
  }

  function SwitchDesktop(w: World, d: Direction, from: nat, screen: nat, plan: Plan): World {
    w.(core1 := Writing([ToPointer(plan.x, plan.y), ToScreen(screen)]),
       acc := Made(w.acc, Leg(w.desk.active, from, d, Screen(screen))))
  }

  /** Taking this edge starts a placement, which needs the lock. */
  predicate Places(cfg: Config, desk: Desk, t: Transition)
    requires Sound(cfg) && Shape(desk)
  {
    Chain(t) && cfg.outputs[desk.active].os == MacOs
  }

  /** Take an edge with the source known, or not needed. */
  function Carry(cfg: Config, w: World, d: Direction, t: Transition, plan: Plan, now: Clock): World
    requires Sound(cfg) && Shape(w.desk)
  {
    var at := w.desk.index[w.desk.active];
    if t == NoTransition then w.(core1 := Rest)
    else if t == ToOutput then Depart(w, d, at, plan)
    else if Places(cfg, w.desk, t)
    then Begin(w, MacPlacement, d, NextScreen(t, at), plan.position, now, Placing(d, NextId(w.nextId), t))
    else SwitchDesktop(w, d, at, NextScreen(t, at), plan)
  }

  /** The board only estimates where the cursor is, so it asks first. */
  predicate AsksFirst(cfg: Config, desk: Desk, t: Transition)
    requires Sound(cfg) && Shape(desk)
  {
    desk.relative && (t == ToOutput || (Chain(t) && cfg.outputs[desk.active].os == Windows))
  }

  /** Take an edge from rest. */
  function Take(cfg: Config, w: World, d: Direction, plan: Plan, now: Clock): World
    requires Sound(cfg) && Shape(w.desk)
  {
    var t := Actionable(cfg, w.desk, d);
    if AsksFirst(cfg, w.desk, t)
    then Begin(w, if t == ToOutput then SourceReanchor else ChainReanchor, d, w.desk.index[w.desk.active], 0, now,
               Asking(d, NextId(w.nextId), t))
    else Carry(cfg, w, d, t, plan, now)
  }

  function OnEdge(a: Account, desk: Desk, d: Direction): Account {
    a.(edge := d, from := desk.active, made := [], premature := false, switched := false, starts := 0)
  }

  predicate Mine(p: Pending, id: Byte) {
    p.phase == Waiting && p.id == id
  }

  datatype Reply = ReplySent | ReplyRetry | ReplyUnavailable

  /** The query did not go out: the crossing is off, unless it has been answered already. */
  function NotSent(w: World, id: Byte, d: Direction, t: Transition): World {
    if Mine(w.pending, id) then w.(pending := CLEARED, core1 := Proceeding(d, t))
    else w.(core1 := Proceeding(d, t), acc := w.acc.(premature := true))
  }

  function AskReply(w: World, r: Reply): World
    requires w.core1.Asking?
  {
    match r
    case ReplySent => w.(pending := if Mine(w.pending, w.core1.id) then w.pending.(sent := true) else w.pending, core1 := Rest)
    case ReplyRetry => w.(core1 := Rest)
    case ReplyUnavailable => NotSent(w, w.core1.id, w.core1.d, w.core1.t)
  }

  function PlaceReply(w: World, queued: bool): World
    requires w.core1.Placing?
  {
    if queued then w.(core1 := Rest) else NotSent(w, w.core1.id, w.core1.d, w.core1.t)
  }

  predicate Asks(k: Kind) {
    k == SourceReanchor || k == ChainReanchor
  }

  /** The task's conditions for giving a crossing up. */
  predicate GivesUp(w: World) {
    || w.desk.active != w.pending.output
    || (w.pending.kind == SourceReanchor && w.desk.buttons)
    || w.desk.locked
    || w.pending.phase == Cancelled
  }

  /** The locked part of a task pass up to the retry, or all of it where nothing is retried. */
  function PassStart(w: World, now: Clock): World {
    if w.pending.phase == Idle then w
    else if GivesUp(w) then w.(pending := CLEARED)
    else if w.pending.phase == Waiting && Asks(w.pending.kind) && !w.pending.sent
    then w.(core1 := Retrying(w.pending.output, w.pending.id, now))
    else PassEnd(w, now)
  }

  predicate StillAsked(p: Pending, c: Core1)
    requires c.Retrying?
  {
    p.phase == Waiting && Asks(p.kind) && p.output == c.output && p.id == c.id
  }

  /** What the retry's reply makes of the crossing. */
  function Retried(w: World, now: Clock, r: Reply): World {
    match r
    case ReplySent => w.(pending := w.pending.(sent := true, started := now), acc := w.acc.(starts := w.acc.starts + 1))
    case ReplyRetry => w
    case ReplyUnavailable => w.(pending := w.pending.(phase := Fallback))
  }

  function PassRetry(w: World, r: Reply): World
    requires w.core1.Retrying?
  {
    if !StillAsked(w.pending, w.core1) then w.(core1 := Rest)
    else PassEnd(Retried(w, w.core1.now, r), w.core1.now)
  }

  /** The rest of a pass: time the query out, and end a crossing that is settled. */
  function PassEnd(w: World, now: Clock): World {
    Settle(w, TimedOut(w.pending, now))
  }

  predicate TimedOut(p: Pending, now: Clock) {
    p.phase == Waiting && Since(now, p.started) >= TIMEOUT_US
  }

  function Settle(w: World, timedOut: bool): World {
    if w.pending.phase == Waiting && !timedOut then w.(core1 := Rest)
    else w.(pending := CLEARED,
            core1 := if w.pending.kind == MacPlacement
                     then (if w.pending.phase == Reanchored then Rest else Falling(w.pending.direction, w.pending.target))
                     else if w.pending.kind == ChainReanchor && timedOut then Rest
                     else Resuming(w.pending.direction))
  }

  /** What is left to do once the query is known not to have gone out, or a placement timed out. */
  function Proceed(w: World, plan: Plan): World
    requires Shape(w.desk) && (w.core1.Proceeding? || w.core1.Falling?)
  {
    if w.core1.Falling? then SwitchDesktop(w, w.core1.d, w.acc.begun, w.core1.screen, plan)
    else
      var at := w.desk.index[w.desk.active];
      if w.core1.t == ToOutput then Depart(w, w.core1.d, at, plan)
      else SwitchDesktop(w, w.core1.d, at, NextScreen(w.core1.t, at), plan)
  }

  /** A selection's guard, on core 1. */
  function Choose(cfg: Config, w: World, screen: nat, rest: seq<Write>): World
    requires Sound(cfg) && Shape(w.desk)
  {
    var s := Sel(w.desk.active, screen);
    if Selectable(cfg, w.desk, s) then w.(core1 := Choosing(|w.acc.sels|, s, rest), acc := Issue(w.acc, s))
    else w.(core1 := Writing(rest))
  }

  /** Relative mode goes with the screen arrived on: the one left last, or Windows' main one when nothing crossed. */
  function Land(cfg: Config, w: World): World
    requires Sound(cfg) && Shape(w.desk) && w.core1.Landing?
  {
    Choose(cfg, w, if w.core1.home && cfg.outputs[w.desk.active].os == Windows then 1 else w.desk.index[w.desk.active],
           w.core1.rest)
  }

  function WriteNext(cfg: Config, w: World): World
    requires Sound(cfg) && Shape(w.desk) && w.core1.Writing?
  {
    var rest := w.core1.rest;
    if rest == [] then w.(core1 := Rest)
    else
      match rest[0]
      case ToPointer(x, y) => w.(desk := w.desk.(x := x, y := y), core1 := Writing(rest[1..]))
      case ToScreen(screen) => Choose(cfg, w, screen, rest[1..])
  }

  /** Core 1's next step on its own. */
  function Onward(cfg: Config, w: World, plan: Plan, now: Clock): World
    requires Ready(cfg, w)
  {
    match w.core1
    case Proceeding(_, _) => Proceed(w, plan)
    case Falling(_, _) => Proceed(w, plan)
    case Resuming(d) =>
      var t := Actionable(cfg, w.desk, d);
      if Places(cfg, w.desk, t) && w.core0 != Off then w else Carry(cfg, w, d, t, plan, now)
    case Landing(_, _) => Land(cfg, w)
    case Choosing(n, s, rest) => StoreIndex(w, n, s).(core1 := Moding(n, s, rest))
    case Moding(n, s, rest) => StoreMode(cfg, w, n, s).(core1 := Writing(rest))
    case Writing(_) => WriteNext(cfg, w)
    case _ => w
  }

  /* ----------------------------------------------------------------- both cores */

  datatype Event =
    | Answer(s: Sel, x: int, y: int, id: Byte)
    | Core0Moves
    | Relayed(s: Sel, x: int, y: int, id: Byte)
    | NoHelper(output: nat, id: Byte)
    | Motion(x: int, y: int, buttons: bool)
    | PeerMouse(x: int, y: int, bootRelative: bool, buttons: bool)
    | Edge(d: Direction, plan: Plan, now: Clock)
    | Pass(now: Clock)
    | Replied(r: Reply)
    | PlaceReplied(queued: bool)
    | Continue(plan: Plan, now: Clock)
    | SwitchOutput(output: nat)
    | SetLocked(locked: bool)
    | SetBoot(boot: bool)

  /** Core 1 is between its own steps and can have the lock. */
  predicate Free(w: World) {
    w.core1 == Rest && w.core0 == Off
  }

  /** Motion of this board's mouse is held while a crossing is pending; buttons are not. */
  function Move(w: World, x: int, y: int, buttons: bool): World {
    w.(desk := if w.pending.phase == Idle then w.desk.(x := x, y := y, buttons := buttons) else w.desk.(buttons := buttons))
  }

  /** A mouse report from the other board is not held. */
  function PeerMove(w: World, x: int, y: int, bootRelative: bool, buttons: bool): World {
    w.(desk := if bootRelative then w.desk.(buttons := buttons) else w.desk.(x := x, y := y, buttons := buttons))
  }

  /** One step of either core. Everything but the local helper's answers is core 1's. */
  function Step(cfg: Config, w: World, e: Event): World
    requires Ready(cfg, w)
  {
    match e
    case Answer(s, x, y, id) => Enter(cfg, w, s, x, y, id)
    case Core0Moves => Core0Step(cfg, w)
    case Relayed(s, x, y, id) => if Free(w) then Apply(cfg, w, s, x, y, id) else w
    case NoHelper(output, id) => if Free(w) then Unavailable(w, output, id) else w
    case Motion(x, y, buttons) => if Free(w) then Move(w, x, y, buttons) else w
    case PeerMouse(x, y, bootRelative, buttons) => if w.core1 == Rest then PeerMove(w, x, y, bootRelative, buttons) else w
    case Edge(d, plan, now) =>
      if Free(w) && w.pending.phase == Idle then Take(cfg, w.(acc := OnEdge(w.acc, w.desk, d)), d, plan, now) else w
    case Pass(now) => if Free(w) then PassStart(w, now) else w
    case Replied(r) =>
      if w.core1.Asking? && (r == ReplyRetry || w.core0 == Off) then AskReply(w, r)
      else if w.core1.Retrying? && w.core0 == Off then PassRetry(w, r)
      else w
    case PlaceReplied(queued) =>
      if w.core1.Placing? && (queued || w.core0 == Off) then PlaceReply(w, queued) else w
    case Continue(plan, now) => Onward(cfg, w, plan, now)
    case SwitchOutput(output) =>
      if w.core1 == Rest && output < 2
      then w.(desk := w.desk.(active := output), core1 := Landing(true, []), acc := w.acc.(switched := true)) else w
    case SetLocked(locked) => w.(desk := w.desk.(locked := locked))
    case SetBoot(boot) => w.(desk := w.desk.(boot := boot))
  }

  const START := World(Desk(0, [1, 1], false, 0, 0, false, false, false), CLEARED, 0, Off, Rest,
                       Account(NoDirection, 0, [], false, false, 0, 1, [Sel(0, 1), Sel(1, 1)], [0, 1], 0))
}
