/**
  * The helper's side of the session: one machine fed by device arrivals, channel
  * frames and a tick, on a 32-bit millisecond clock that wraps. Keys, nonces and
  * correlation values are opaque numbers; whether a decode, a tag check or a
  * derivation succeeds arrives with the input.
  */
module HelperCore {
  import opened Basics

  const HEARTBEAT_MS := 1000
  const ABSENT_MS := 3 * HEARTBEAT_MS
  const CHANNELS := 2
  const SILENCE_MS := 5000
  const HELLO_TIMEOUT_MS := 2000
  const RECONNECT_WINDOW_MS := 30000
  const RECONNECT_LIMIT := 4
  const SESSION_LOSS_WINDOW_MS := 2700000
  const SESSION_LOSS_LIMIT := 3
  const DROP_DEBOUNCE_MS := 500
  const PAIRING_RETRY_MS := 2000
  const BACKOFF_FIRST_MS := 250
  const BACKOFF_CAP_MS := 4000

  /** Milliseconds since some start. The machine keeps the low 32 bits of each, and only looks at differences. */
  type Clock = nat

  datatype Shown =
    | Quiet | Connected | ReconnectingRepeatedly | NotPaired | DeviceInConfigMode | DeviceAbsent
    | VersionIncompatible | ListenerDetected | BoardIdentityChanged | ConnectedConfigMode

  datatype Phase = Idle | AwaitingAck | Live

  datatype Identity = Normal | ConfigMode

  /** A session key by what it is derived from. */
  datatype SessionKey = SessionKey(board: nat, helperNonce: nat, boardNonce: nat)

  datatype Alert = Alert(at: Clock, window: Clock)

  /** What is forgotten with a session. */
  datatype Session = Session(phase: Phase, negotiated: bool, key: Option<SessionKey>, nonce: Option<nat>, counter: nat,
                             alert: Option<Alert>, beatAt: Option<Clock>, beatQuiet: bool)

  const FORGOTTEN := Session(Idle, false, None, None, 0, None, None, false)

  datatype Presence = Presence(holding: bool, configMode: bool, everSaw: bool, last: Identity,
                               changedAt: Option<Clock>, asleep: bool, wokeAt: Option<Clock>, startedAt: Option<Clock>)

  /** The last few teardowns, and the last few sessions lost with the board attached, oldest first. */
  datatype Rings = Rings(drops: seq<Clock>, losses: seq<Clock>)

  datatype Deferred = Deferred(state: Shown, at: Clock)

  datatype Pairing = Pairing(requestedAt: Option<Clock>, correlation: nat)

  datatype Hello = Hello(correlation: nat, sentAt: Clock, unanswered: bool)

  datatype Helper = Helper(state: Shown, session: Session, presence: Presence, rings: Rings,
                           deferred: Option<Deferred>, pairing: Pairing, hello: Hello, boardKey: Option<nat>,
                           lastSentAt: Clock, lastFrameAt: Clock, backoff: nat, channels: nat)

  /** Before anything has happened, with the board's key as stored. */
  function Init(boardKey: Option<nat>): Helper {
    Helper(Quiet, FORGOTTEN, Presence(false, false, false, Normal, None, false, None, None), Rings([], []),
           None, Pairing(None, 0), Hello(0, 0, false), boardKey, 0, 0, BACKOFF_FIRST_MS, 0)
  }

  predicate AllowsBulk(s: Shown) {
    s == Connected || s == ConnectedConfigMode || s == ReconnectingRepeatedly || s == ListenerDetected
  }

  predicate CanSendBulk(h: Helper) {
    h.session.phase == Live && h.session.negotiated
  }

  /** An unsigned 32-bit difference. */
  function Since(now: Clock, then_: Clock): (gap: nat)
    ensures gap < 0x1_0000_0000
    ensures then_ <= now ==> gap <= now - then_
  {
    (now - then_) % 0x1_0000_0000
  }

  /** The low 32 bits are all a difference needs. */
  lemma SinceOfLowBits(now: Clock, then_: Clock)
    ensures Since(now % 0x1_0000_0000, then_ % 0x1_0000_0000) == Since(now, then_)
  {
    var m := 0x1_0000_0000;
    assert now - then_ == now % m - then_ % m + m * (now / m - then_ / m);
  }

  predicate Elapsed(now: Clock, since: Clock, span: int) {
    Since(now, since) >= span
  }

  function Started(h: Helper, now: Clock): Helper {
    if h.presence.startedAt.Some? then h else h.(presence := h.presence.(startedAt := Some(now)))
  }

  function NextBackoff(delay: nat): nat {
    if 2 * delay > BACKOFF_CAP_MS then BACKOFF_CAP_MS else 2 * delay
  }

  /* -------------------------------------------------------- the reconnect rate */

  function Push(ring: seq<Clock>, cap: nat, now: Clock): seq<Clock>
    requires cap > 0
  {
    (if |ring| >= cap then ring[|ring| - cap + 1..] else ring) + [now]
  }

  predicate RateReached(ring: seq<Clock>, need: nat, window: int, now: Clock) {
    |ring| >= need && ring != [] && Since(now, ring[0]) <= window
  }

  /** Whether a teardown counts: not a sleep's, not of nothing, and not the last one again. */
  predicate Counts(h: Helper, now: Clock) {
    && !h.presence.asleep
    && (h.presence.wokeAt.Some? ==> Elapsed(now, h.presence.wokeAt.value, RECONNECT_WINDOW_MS))
    && (h.presence.holding || h.session.phase != Idle)
    && (h.rings.drops != [] ==> Since(now, h.rings.drops[|h.rings.drops| - 1]) >= DROP_DEBOUNCE_MS)
  }

  function RecordDrop(h: Helper, now: Clock): Helper {
    if Counts(h, now) then h.(rings := h.rings.(drops := Push(h.rings.drops, RECONNECT_LIMIT, now))) else h
  }

  predicate StandsAlone(drops: seq<Clock>, now: Clock) {
    drops == [] || Since(now, drops[|drops| - 1]) > RECONNECT_WINDOW_MS
  }

  predicate Reconnecting(r: Rings, now: Clock) {
    || RateReached(r.drops, RECONNECT_LIMIT, RECONNECT_WINDOW_MS, now)
    || RateReached(r.losses, SESSION_LOSS_LIMIT, SESSION_LOSS_WINDOW_MS, now)
  }

  /** Why a connection is dropped, as far as the long window cares. */
  datatype Why = BoardUnpaired | TransportFailed | OtherReason

  predicate OnPurpose(h: Helper, why: Why, now: Clock) {
    why == BoardUnpaired
    || (why == TransportFailed && h.presence.changedAt.Some?
        && !Elapsed(now, h.presence.changedAt.value, RECONNECT_WINDOW_MS))
  }

  predicate AddsLoss(h: Helper, why: Why, now: Clock) {
    Counts(h, now) && StandsAlone(h.rings.drops, now) && !OnPurpose(h, why, now)
  }

  function AbsentState(h: Helper): Shown {
    if h.presence.configMode then DeviceInConfigMode else DeviceAbsent
  }

  /** A session this end gives up on. */
  function Drop(h: Helper, now: Clock, why: Why): Helper {
    var r := RecordDrop(h, now).rings;
    var rings := if AddsLoss(h, why, now) then r.(losses := Push(r.losses, SESSION_LOSS_LIMIT, now)) else r;
    var falsified := h.state == Connected || h.state == ConnectedConfigMode || h.state == Quiet;
    h.(rings := rings, session := FORGOTTEN, presence := h.presence.(holding := false),
       deferred := Some(Deferred(AbsentState(h), now)),
       state := if falsified && Reconnecting(rings, now) then ReconnectingRepeatedly else h.state,
       backoff := NextBackoff(h.backoff))
  }

  /* ------------------------------------------------------------ device presence */

  function Left(h: Helper, reason: Shown, now: Clock): Helper {
    h.(rings := RecordDrop(h, now).rings.(losses := []), session := FORGOTTEN,
       deferred := Some(Deferred(reason, now)), presence := h.presence.(holding := false))
  }

  /** The identity now shown; a change of it clears the short window. */
  function SetMode(h: Helper, which: Identity, changed: bool, now: Clock): Helper {
    var moded := h.(presence := h.presence.(configMode := which == ConfigMode));
    if changed
    then moded.(rings := moded.rings.(drops := []), presence := moded.presence.(changedAt := Some(now)))
    else moded
  }

  /** Open the channels of the identity that appeared. */
  function Welcome(h: Helper, which: Identity): Helper {
    if which == ConfigMode then h.(backoff := BACKOFF_FIRST_MS)
    else h.(deferred := None, backoff := BACKOFF_FIRST_MS,
            state := if h.state == DeviceAbsent || h.state == DeviceInConfigMode || h.state == ConnectedConfigMode
                     then Quiet else h.state)
  }

  function Appeared(h0: Helper, which: Identity, now: Clock): Helper {
    var h := Started(h0, now);
    var changed := h.presence.everSaw && h.presence.last != which;
    var seen := h.(presence := h.presence.(everSaw := true, last := which));
    if which == ConfigMode && h.presence.configMode && h.presence.holding then seen
    else
      var left := if which == ConfigMode || h.presence.configMode then Left(seen, DeviceInConfigMode, now) else seen;
      Welcome(SetMode(left, which, changed, now), which)
  }

  function Disappeared(h0: Helper, now: Clock): Helper {
    var h := Left(Started(h0, now), DeviceAbsent, now);
    h.(presence := h.presence.(configMode := false))
  }

  function HostSleeps(h: Helper, asleep: bool, now: Clock): Helper {
    h.(presence := h.presence.(asleep := asleep,
                               wokeAt := if h.presence.asleep && !asleep then Some(now) else h.presence.wokeAt))
  }

  /* ------------------------------------------------------------------ the hello */

  /** What an attempt at a hello draws and comes to. */
  datatype HelloTry = HelloTry(nonce: nat, correlation: nat, ok: bool)

  /** What an attempt at a pair request draws and comes to. */
  datatype RequestTry = RequestTry(correlation: nat, ok: bool)

  /** The nonce is replaced before anything can fail. */
  function BuildHello(h: Helper, t: HelloTry): Helper {
    h.(session := h.session.(nonce := Some(t.nonce)), hello := h.hello.(correlation := t.correlation))
  }

  function BuildRequest(h: Helper, t: RequestTry, now: Clock): Helper {
    if !t.ok then h else h.(pairing := Pairing(Some(now), t.correlation), lastSentAt := now)
  }

  function AcquisitionRefused(h0: Helper, now: Clock): Helper {
    var h := Started(h0, now);
    h.(session := FORGOTTEN, presence := h.presence.(holding := false),
       deferred := if h.deferred.Some? then h.deferred else Some(Deferred(AbsentState(h), now)),
       backoff := NextBackoff(h.backoff))
  }

  /** With no board key there is no hello to say: ask to be paired. */
  function AskUnpaired(h: Helper, now: Clock, request: RequestTry): Helper {
    BuildRequest(h.(backoff := BACKOFF_FIRST_MS, deferred := None, session := h.session.(phase := Live),
                    state := NotPaired), request, now)
  }

  function SayHello(h: Helper, now: Clock, hello: HelloTry, request: RequestTry): Helper {
    var sent := BuildHello(h.(session := h.session.(phase := AwaitingAck), hello := h.hello.(sentAt := now),
                              lastSentAt := now), hello);
    if !hello.ok then AcquisitionRefused(sent, now)
    else
      var said := sent.(deferred := None);
      if said.state == ReconnectingRepeatedly && said.hello.unanswered then BuildRequest(said, request, now) else said
  }

  function Acquired(h0: Helper, count: nat, now: Clock, hello: HelloTry, request: RequestTry): Helper {
    var h1 := Started(h0.(session := FORGOTTEN, channels := count), now);
    var h := h1.(presence := h1.presence.(holding := true), lastFrameAt := now);
    if h.boardKey.None? then AskUnpaired(h, now, request) else SayHello(h, now, hello, request)
  }

  /* -------------------------------------------------------------- the hello ack */

  /** What a HELLO_ACK comes to before it is acted on. */
  datatype Ack = AckBad | AckGood(boardNonce: nat, correlation: nat, channels: nat)

  function ConnectedState(h: Helper): Shown {
    if h.presence.configMode then ConnectedConfigMode else Connected
  }

  function OnAck(h: Helper, ack: Ack, now: Clock): Helper {
    if h.session.phase != AwaitingAck then h
    else if h.boardKey.None? || h.session.nonce.None? || ack.AckBad? then Drop(h, now, OtherReason)
    else if ack.correlation != h.hello.correlation then h
    else if ack.channels == 0 || ack.channels > CHANNELS || ack.channels > h.channels then Drop(h, now, OtherReason)
    else
      h.(session := h.session.(key := Some(SessionKey(h.boardKey.value, h.session.nonce.value, ack.boardNonce)),
                               counter := 0, phase := Live, negotiated := true),
         backoff := BACKOFF_FIRST_MS, lastFrameAt := now, hello := h.hello.(unanswered := false),
         state := if Reconnecting(h.rings, now) then ReconnectingRepeatedly else ConnectedState(h))
  }

  datatype Refusal = RefusalBad | RefusalUnpaired(correlation: nat) | RefusalVersion(correlation: nat)

  function OnHelloRefused(h: Helper, r: Refusal, now: Clock): Helper {
    if h.session.phase != AwaitingAck then h
    else if r.RefusalBad? then Drop(h, now, OtherReason)
    else if r.correlation != h.hello.correlation then h
    else if r.RefusalUnpaired? then
      h.(backoff := BACKOFF_FIRST_MS, session := FORGOTTEN.(phase := Live),
         pairing := h.pairing.(requestedAt := None), state := NotPaired)
    else h.(backoff := BACKOFF_FIRST_MS, session := FORGOTTEN, state := VersionIncompatible)
  }

  /* -------------------------------------------------------------------- pairing */

  datatype Grant = GrantBad | GrantGood(board: nat, correlation: nat)

  /** A grant that answers the request outstanding. */
  predicate Answers(h: Helper, g: Grant) {
    h.session.phase != Idle && h.pairing.requestedAt.Some? && g.GrantGood? && g.correlation == h.pairing.correlation
  }

  /** A grant whose key is taken: it answers, names no other board than the one pinned, and makes a hello. */
  predicate Takes(h: Helper, g: Grant, hello: HelloTry) {
    Answers(h, g) && (h.boardKey.Some? ==> h.boardKey.value == g.board) && hello.ok
  }

  function OnGrant(h: Helper, g: Grant, hello: HelloTry, now: Clock): Helper {
    if !Answers(h, g) then h
    else if h.boardKey.Some? && h.boardKey.value != g.board then
      h.(pairing := h.pairing.(requestedAt := None), state := BoardIdentityChanged)
    else
      var built := BuildHello(h, hello);
      if !hello.ok then built
      else built.(boardKey := Some(g.board), pairing := built.pairing.(requestedAt := None),
                  hello := built.hello.(sentAt := now), lastSentAt := now,
                  session := built.session.(phase := AwaitingAck))
  }

  /* ------------------------------------------------------------ session traffic */

  datatype Content = SessionEnd(unpaired: bool) | Beat | AlertFrame(window: Clock) | Other

  /** An authenticated frame, as opening it went. */
  datatype Opened = TagFailed(chunk: bool) | Refused | Good(content: Content)

  function OnBeat(h: Helper, now: Clock): Helper {
    if h.session.phase == Idle then h
    else h.(session := h.session.(beatAt := Some(now), beatQuiet := h.session.beatAt.None? && h.session.beatQuiet))
  }

  /** Authenticated traffic proves the board alive, and stands in for its beat. */
  function Heard(h: Helper, content: Content, now: Clock): Helper {
    h.(lastFrameAt := now,
       session := if h.session.beatAt.Some? && !content.Beat?
                  then h.session.(beatAt := Some(now), beatQuiet := false) else h.session)
  }

  function OnContent(h: Helper, content: Content, now: Clock): Helper {
    match content
    case SessionEnd(unpaired) =>
      if h.session.phase == Idle then h else Drop(h, now, if unpaired then BoardUnpaired else OtherReason)
    case Beat => OnBeat(h, now)
    case AlertFrame(window) =>
      h.(session := h.session.(alert := Some(Alert(now, window))), state := ListenerDetected)
    case Other => h
  }

  function OnAuthenticated(h: Helper, f: Opened, now: Clock): Helper {
    if h.session.key.None? then h
    else
      match f
      case TagFailed(chunk) => if chunk then h else Drop(h, now, OtherReason)
      case Refused => h
      case Good(content) => OnContent(Heard(h, content, now), content, now)
  }

  /* ----------------------------------------------------------------------- tick */

  /** The grace after a mode change or a wake, closed once past so that a wrap cannot reopen it. */
  function CloseWindows(p: Presence, now: Clock): Presence {
    p.(changedAt := if p.changedAt.Some? && Elapsed(now, p.changedAt.value, RECONNECT_WINDOW_MS) then None else p.changedAt,
       wokeAt := if p.wokeAt.Some? && Elapsed(now, p.wokeAt.value, RECONNECT_WINDOW_MS) then None else p.wokeAt)
  }

  /** A report deferred until it is still true, or of a device that was never there. */
  function ShowDeferred(h: Helper, now: Clock): Helper {
    if h.deferred.Some? then
      if Elapsed(now, h.deferred.value.at, SILENCE_MS) then h.(deferred := None, state := h.deferred.value.state) else h
    else if !h.presence.everSaw && h.presence.startedAt.Some? && Elapsed(now, h.presence.startedAt.value, SILENCE_MS)
    then h.(state := DeviceAbsent)
    else h
  }

  function Settle(h: Helper, now: Clock): Helper {
    ShowDeferred(h.(presence := CloseWindows(h.presence, now)), now)
  }

  /** Readings that have aged out. */
  function AgeOut(h: Helper, now: Clock): Helper {
    var a := if h.state == ReconnectingRepeatedly && h.session.negotiated && !Reconnecting(h.rings, now)
             then h.(state := ConnectedState(h)) else h;
    var b := if a.state == ListenerDetected && a.session.negotiated && a.session.alert.Some?
                && Elapsed(now, a.session.alert.value.at, a.session.alert.value.window)
             then a.(session := a.session.(alert := None), state := ConnectedState(a)) else a;
    if b.session.negotiated && b.session.beatAt.Some? && !b.session.beatQuiet
       && Elapsed(now, b.session.beatAt.value, ABSENT_MS)
    then b.(session := b.session.(beatQuiet := true)) else b
  }

  /** Whether a tick of a live session fills an idle direction. */
  predicate OwesBeat(h: Helper, now: Clock) {
    h.session.key.Some? && Elapsed(now, h.lastSentAt, HEARTBEAT_MS)
  }

  function SpendCounter(h: Helper): Helper {
    h.(session := h.session.(counter := (h.session.counter + 1) % 0x1_0000_0000_0000_0000))
  }

  predicate Silent(h: Helper, now: Clock) {
    h.session.negotiated && Elapsed(now, h.lastFrameAt, ABSENT_MS)
  }

  function LiveTick(h: Helper, now: Clock, beatOk: bool, request: RequestTry): Helper {
    if Silent(h, now) then Drop(h, now, OtherReason)
    else
      var aged := AgeOut(h, now);
      var beat := if OwesBeat(aged, now) && beatOk then SpendCounter(aged) else aged;
      if beat.state == NotPaired
         && (beat.pairing.requestedAt.Some? ==> Elapsed(now, beat.pairing.requestedAt.value, PAIRING_RETRY_MS))
      then BuildRequest(beat, request, now) else beat
  }

  function Tick(h0: Helper, now: Clock, beatOk: bool, request: RequestTry): Helper {
    var h := Settle(Started(h0, now), now);
    match h.session.phase
    case AwaitingAck =>
      if Elapsed(now, h.hello.sentAt, HELLO_TIMEOUT_MS)
      then Drop(h.(hello := h.hello.(unanswered := true)), now, OtherReason) else h
    case Live => LiveTick(h, now, beatOk, request)
    case Idle => h
  }

  /** A frame for the platform, under the session key. */
  predicate Emits(h: Helper, ok: bool) {
    CanSendBulk(h) && h.session.key.Some? && ok
  }

  function Emit(h: Helper, ok: bool): Helper {
    if Emits(h, ok) then SpendCounter(h) else h
  }

  function NoteSent(h: Helper, now: Clock): Helper {
    Started(h, now).(lastSentAt := now)
  }
}
