/** What holds of the helper over every sequence of inputs. */
module HelperRuns {
  import opened Basics
  import opened HelperCore

  datatype Input =
    | DeviceAppeared(which: Identity)
    | DeviceDisappeared
    | HostSleep(asleep: bool)
    | ChannelsAcquired(count: nat, hello: HelloTry, request: RequestTry)
    | ChannelsRefused
    | StreamBreaks
    | AckArrives(ack: Ack)
    | RefusalArrives(refusal: Refusal)
    | GrantArrives(grant: Grant, hello: HelloTry)
    | FrameArrives(frame: Opened)
    | NothingArrives
    | TransportFails
    | Ticks(beatOk: bool, request: RequestTry)
    | EmitFrame(ok: bool)
    | FrameSent

  function Next(h: Helper, i: Input, now: Clock): Helper {
    match i
    case DeviceAppeared(which) => Appeared(h, which, now)
    case DeviceDisappeared => Disappeared(h, now)
    case HostSleep(asleep) => HostSleeps(h, asleep, now)
    case ChannelsAcquired(count, hello, request) => Acquired(h, count, now, hello, request)
    case ChannelsRefused => AcquisitionRefused(h, now)
    case StreamBreaks => Drop(Started(h, now), now, OtherReason)
    case AckArrives(ack) => OnAck(Started(h, now), ack, now)
    case RefusalArrives(r) => OnHelloRefused(Started(h, now), r, now)
    case GrantArrives(g, hello) => OnGrant(Started(h, now), g, hello, now)
    case FrameArrives(f) => OnAuthenticated(Started(h, now), f, now)
    case NothingArrives => Started(h, now)
    case TransportFails => Drop(Started(h, now), now, TransportFailed)
    case Ticks(beatOk, request) => Tick(h, now, beatOk, request)
    case EmitFrame(ok) => Emit(h, ok)
    case FrameSent => NoteSent(h, now)
  }

  /* --------------------------------------------------------- a live session */

  /** A session in progress has seen a device and owes no report of its absence. */
  ghost predicate Underway(h: Helper) {
    h.session.phase != Idle ==> h.deferred.None? && h.presence.everSaw
  }

  /** A live negotiated session holds keys and shows a state that allows bulk, or that the board's identity changed. */
  ghost predicate LiveShown(h: Helper) {
    CanSendBulk(h) ==>
      && h.session.key.Some?
      && (AllowsBulk(h.state) || h.state == BoardIdentityChanged)
      && (h.state == ConnectedConfigMode ==> h.presence.configMode)
  }

  ghost predicate SessionInv(h: Helper) {
    Underway(h) && LiveShown(h)
  }

  lemma StartedKeeps(h: Helper, now: Clock)
    requires SessionInv(h)
    ensures SessionInv(Started(h, now))
  {
  }

  lemma IdleKeeps(h: Helper)
    requires h.session == FORGOTTEN
    ensures SessionInv(h)
  {
  }

  lemma AuthenticatedKeeps(h: Helper, f: Opened, now: Clock)
    requires SessionInv(h)
    ensures SessionInv(OnAuthenticated(h, f, now))
  {
  }

  lemma SettleKeeps(h: Helper, now: Clock)
    requires SessionInv(h)
    ensures SessionInv(Settle(h, now)) && Settle(h, now).session == h.session
  {
  }

  lemma AgeOutKeeps(h: Helper, now: Clock)
    requires SessionInv(h)
    ensures SessionInv(AgeOut(h, now))
  {
  }

  lemma LiveTickKeeps(h: Helper, now: Clock, beatOk: bool, request: RequestTry)
    requires SessionInv(h)
    ensures SessionInv(LiveTick(h, now, beatOk, request))
  {
    if Silent(h, now) {
      IdleKeeps(Drop(h, now, OtherReason));
    } else {
      AgeOutKeeps(h, now);
    }
  }

  lemma TickKeeps(h: Helper, now: Clock, beatOk: bool, request: RequestTry)
    requires SessionInv(h)
    ensures SessionInv(Tick(h, now, beatOk, request))
  {
    StartedKeeps(h, now);
    SettleKeeps(Started(h, now), now);
    var s := Settle(Started(h, now), now);
    if s.session.phase == Live {
      LiveTickKeeps(s, now, beatOk, request);
    }
  }

  /**
    * Every input keeps it, as long as channels are acquired only once a device has
    * appeared.
    */
  lemma SessionKeeps(h: Helper, i: Input, now: Clock)
    requires SessionInv(h) && (i.ChannelsAcquired? ==> h.presence.everSaw)
    ensures SessionInv(Next(h, i, now))
  {
    match i {
      case FrameArrives(f) =>
        StartedKeeps(h, now);
        AuthenticatedKeeps(Started(h, now), f, now);
      case Ticks(beatOk, request) => TickKeeps(h, now, beatOk, request);
      case _ =>
    }
  }

  /** Inputs over time, channels acquired only once a device has appeared. */
  predicate AfterSeen(h: Helper, fed: seq<(Input, Clock)>)
    decreases |fed|
  {
    fed == [] || ((fed[0].0.ChannelsAcquired? ==> h.presence.everSaw) && AfterSeen(Next(h, fed[0].0, fed[0].1), fed[1..]))
  }

  function Fed(h: Helper, fed: seq<(Input, Clock)>): Helper
    decreases |fed|
  {
    if fed == [] then h else Fed(Next(h, fed[0].0, fed[0].1), fed[1..])
  }

  /** The session's invariant over every such run, whatever the clock does. */
  lemma {:induction false} LiveSessionHolds(h: Helper, fed: seq<(Input, Clock)>)
    requires SessionInv(h) && AfterSeen(h, fed)
    ensures SessionInv(Fed(h, fed))
    decreases |fed|
  {
    if fed != [] {
      SessionKeeps(h, fed[0].0, fed[0].1);
      LiveSessionHolds(Next(h, fed[0].0, fed[0].1), fed[1..]);
    }
  }

  /** What is deferred is only ever that the device is away. */
  ghost predicate PlainDeferral(h: Helper) {
    h.deferred.Some? ==> h.deferred.value.state == DeviceAbsent || h.deferred.value.state == DeviceInConfigMode
  }

  /** The board a grant names that answers a request and is not the pinned one. */
  function Mismatch(h: Helper, i: Input): Option<nat> {
    if i.GrantArrives? && Answers(h, i.grant) && h.boardKey.Some? && h.boardKey.value != i.grant.board
    then Some(i.grant.board) else None
  }

  /** The board's identity is said to have changed only by a grant that answers and names another board. */
  lemma IdentityChangedOnlyByGrant(h: Helper, i: Input, now: Clock)
    requires PlainDeferral(h)
    ensures var t := Next(h, i, now);
            && PlainDeferral(t)
            && (t.state == BoardIdentityChanged && h.state != BoardIdentityChanged ==> Mismatch(h, i).Some?)
  {
    match i {
      case DeviceAppeared(which) => AppearedShows(h, which, now);
      case FrameArrives(f) => FrameShows(Started(h, now), f, now);
      case Ticks(beatOk, request) => TickShows(h, now, beatOk, request);
      case _ =>
    }
  }

  lemma AppearedShows(h: Helper, which: Identity, now: Clock)
    requires PlainDeferral(h)
    ensures var t := Appeared(h, which, now);
            PlainDeferral(t) && (t.state == BoardIdentityChanged ==> h.state == BoardIdentityChanged)
  {
  }

  lemma FrameShows(h: Helper, f: Opened, now: Clock)
    requires PlainDeferral(h)
    ensures var t := OnAuthenticated(h, f, now);
            PlainDeferral(t) && (t.state == BoardIdentityChanged ==> h.state == BoardIdentityChanged)
  {
  }

  lemma LiveTickShows(h: Helper, now: Clock, beatOk: bool, request: RequestTry)
    requires PlainDeferral(h)
    ensures var t := LiveTick(h, now, beatOk, request);
            PlainDeferral(t) && (t.state == BoardIdentityChanged ==> h.state == BoardIdentityChanged)
  {
  }

  lemma TickShows(h: Helper, now: Clock, beatOk: bool, request: RequestTry)
    requires PlainDeferral(h)
    ensures var t := Tick(h, now, beatOk, request);
            PlainDeferral(t) && (t.state == BoardIdentityChanged ==> h.state == BoardIdentityChanged)
  {
    var s := Settle(Started(h, now), now);
    assert PlainDeferral(s) && (s.state == BoardIdentityChanged ==> h.state == BoardIdentityChanged);
    LiveTickShows(s, now, beatOk, request);
  }

  /* ------------------------------------------------------------ the pinned key */

  /** The key an input has the platform store. */
  function Stored(h: Helper, i: Input): Option<nat> {
    if i.GrantArrives? && Takes(h, i.grant, i.hello) then Some(i.grant.board) else None
  }

  /** Whether an input builds a pair request. */
  predicate Requests(h: Helper, i: Input, now: Clock) {
    match i
    case ChannelsAcquired(_, hello, request) =>
      request.ok && (h.boardKey.None? || (hello.ok && h.state == ReconnectingRepeatedly && h.hello.unanswered))
    case Ticks(_, request) =>
      var s := Settle(Started(h, now), now);
      && request.ok && s.session.phase == Live && !Silent(s, now)
      && AgeOut(s, now).state == NotPaired
      && (s.pairing.requestedAt.Some? ==> Elapsed(now, s.pairing.requestedAt.value, PAIRING_RETRY_MS))
    case _ => false
  }

  /**
    * A pinned key never changes. One is taken only out of a grant that answers a
    * request outstanding, which is then no longer so; only building a request
    * makes one outstanding again.
    */
  lemma PinStays(h: Helper, i: Input, now: Clock)
    ensures var t := Next(h, i, now);
            && (h.boardKey.Some? ==> t.boardKey == h.boardKey)
            && (t.boardKey == match Stored(h, i) case Some(k) => Some(k) case None => h.boardKey)
            && (Stored(h, i).Some? ==> Answers(h, i.grant) && t.pairing.requestedAt.None?)
            && (t.pairing.requestedAt.Some? ==> h.pairing.requestedAt.Some? || Requests(h, i, now))
            && (Requests(h, i, now) ==> Stored(h, i).None? && t.pairing.requestedAt.Some?)
  {
    match i {
      case DeviceAppeared(which) => AppearedPins(h, which, now);
      case ChannelsAcquired(count, hello, request) => AcquiredPins(h, count, now, hello, request);
      case FrameArrives(f) => FramePins(Started(h, now), f, now);
      case Ticks(beatOk, request) => TickPins(h, now, beatOk, request);
      case _ =>
    }
  }

  lemma AppearedPins(h: Helper, which: Identity, now: Clock)
    ensures var t := Appeared(h, which, now); t.boardKey == h.boardKey && t.pairing == h.pairing
  {
  }

  lemma AcquiredPins(h: Helper, count: nat, now: Clock, hello: HelloTry, request: RequestTry)
    ensures var t := Acquired(h, count, now, hello, request);
            && t.boardKey == h.boardKey
            && t.pairing == if Requests(h, ChannelsAcquired(count, hello, request), now)
                            then Pairing(Some(now), request.correlation) else h.pairing
  {
  }

  lemma FramePins(h: Helper, f: Opened, now: Clock)
    ensures var t := OnAuthenticated(h, f, now); t.boardKey == h.boardKey && t.pairing == h.pairing
  {
  }

  lemma TickPins(h: Helper, now: Clock, beatOk: bool, request: RequestTry)
    ensures var t := Tick(h, now, beatOk, request);
            && t.boardKey == h.boardKey
            && t.pairing == if Requests(h, Ticks(beatOk, request), now)
                            then Pairing(Some(now), request.correlation) else h.pairing
  {
    var s := Settle(Started(h, now), now);
    assert s.boardKey == h.boardKey && s.pairing == h.pairing;
    LiveTickPins(s, now, beatOk, request);
  }

  lemma LiveTickPins(h: Helper, now: Clock, beatOk: bool, request: RequestTry)
    ensures var t := LiveTick(h, now, beatOk, request);
            && t.boardKey == h.boardKey
            && t.pairing == if request.ok && !Silent(h, now) && AgeOut(h, now).state == NotPaired
                               && (h.pairing.requestedAt.Some? ==> Elapsed(now, h.pairing.requestedAt.value, PAIRING_RETRY_MS))
                            then Pairing(Some(now), request.correlation) else h.pairing
  {
    assert AgeOut(h, now).boardKey == h.boardKey && AgeOut(h, now).pairing == h.pairing;
  }

  /** A grant with no request outstanding, such as one that comes again, does nothing at all. */
  lemma RepeatedGrantIgnored(h: Helper, g: Grant, hello: HelloTry, now: Clock)
    requires h.pairing.requestedAt.None? && h.presence.startedAt.Some?
    ensures Next(h, GrantArrives(g, hello), now) == h
  {
  }

  /* ---------------------------------------------------------- frames under keys */

  /** A frame built under a session key: the how-manieth, and the counter it carries. */
  datatype Built = Built(key: SessionKey, nth: nat, counter: nat)

  /** The nonce an input draws, if it draws one. */
  function Drawn(h: Helper, i: Input): Option<nat> {
    match i
    case ChannelsAcquired(_, hello, _) => if h.boardKey.Some? then Some(hello.nonce) else None
    case GrantArrives(g, hello) =>
      if Answers(h, g) && (h.boardKey.Some? ==> h.boardKey.value == g.board) then Some(hello.nonce) else None
    case _ => None
  }

  /** Whether an input builds a frame under the session key. */
  predicate Builds(h: Helper, i: Input, now: Clock) {
    match i
    case EmitFrame(ok) => Emits(h, ok)
    case Ticks(beatOk, _) =>
      var s := Settle(Started(h, now), now);
      s.session.phase == Live && !Silent(s, now) && OwesBeat(AgeOut(s, now), now) && beatOk
    case _ => false
  }

  /** The frames built so far, how many of them under the key held now, and every nonce drawn. */
  datatype Ledger = Ledger(built: seq<Built>, spent: nat, used: set<nat>)

  function Account(l: Ledger, h: Helper, i: Input, now: Clock): Ledger {
    AccountOf(l, h.session, Next(h, i, now).session, Drawn(h, i), Builds(h, i, now))
  }

  /** Every frame's counter is its number under its key, and a key's frames are numbered in order. */
  ghost predicate Numbered(built: seq<Built>) {
    && (forall i :: 0 <= i < |built| ==> built[i].counter == built[i].nth % 0x1_0000_0000_0000_0000)
    && (forall i, j :: 0 <= i < j < |built| && built[i].key == built[j].key ==> built[i].nth < built[j].nth)
  }

  ghost predicate LedgerInv(l: Ledger, h: Helper) {
    LedgerOf(l, h.session)
  }

  /** All that a step does to what frames are built from. */
  ghost predicate Moves(s: Session, u: Session, drawn: Option<nat>, builds: bool) {
    && (builds ==> s.key.Some? && u.key == s.key && s.phase == Live && u.phase == Live)
    && (u.nonce.Some? ==> u.nonce == if drawn.Some? then drawn else s.nonce)
    && (u.phase == AwaitingAck ==> drawn.Some? || s.phase == AwaitingAck)
    && (u.key.Some? ==>
          || (u.key == s.key && u.counter == if builds then (s.counter + 1) % 0x1_0000_0000_0000_0000 else s.counter)
          || (&& !builds && drawn.None? && s.phase == AwaitingAck && s.nonce.Some? && u.phase == Live
              && u.key.value.helperNonce == s.nonce.value && u.counter == 0))
  }

  lemma TickMoves(h: Helper, now: Clock, beatOk: bool, request: RequestTry)
    ensures Moves(h.session, Tick(h, now, beatOk, request).session, None, Builds(h, Ticks(beatOk, request), now))
  {
    var s := Settle(Started(h, now), now);
    assert s.session == h.session;
    LiveTickMoves(s, now, beatOk, request);
  }

  lemma LiveTickMoves(h: Helper, now: Clock, beatOk: bool, request: RequestTry)
    ensures h.session.phase == Live ==>
              Moves(h.session, LiveTick(h, now, beatOk, request).session, None,
                    !Silent(h, now) && OwesBeat(AgeOut(h, now), now) && beatOk)
  {
    var a := AgeOut(h, now).session;
    assert a.key == h.session.key && a.counter == h.session.counter && a.nonce == h.session.nonce && a.phase == h.session.phase;
  }

  lemma FrameMoves(h: Helper, f: Opened, now: Clock)
    ensures Moves(h.session, OnAuthenticated(h, f, now).session, None, false)
  {
  }

  lemma AppearedMoves(h: Helper, which: Identity, now: Clock)
    ensures Moves(h.session, Appeared(h, which, now).session, None, false)
  {
  }

  lemma NextMoves(h: Helper, i: Input, now: Clock)
    ensures Moves(h.session, Next(h, i, now).session, Drawn(h, i), Builds(h, i, now))
  {
    match i {
      case DeviceAppeared(which) => AppearedMoves(h, which, now);
      case FrameArrives(f) => FrameMoves(Started(h, now), f, now);
      case Ticks(beatOk, request) => TickMoves(h, now, beatOk, request);
      case _ =>
    }
  }

  /** A key made from the nonce just answered is one no frame was built under. */
  lemma AccountKeeps(l: Ledger, h: Helper, i: Input, now: Clock)
    requires LedgerInv(l, h) && (Drawn(h, i).Some? ==> Drawn(h, i).value !in l.used)
    ensures LedgerInv(Account(l, h, i, now), Next(h, i, now))
  {
    NextMoves(h, i, now);
    LedgerMoves(l, h.session, Next(h, i, now).session, Drawn(h, i), Builds(h, i, now));
  }

  function AccountOf(l: Ledger, s: Session, u: Session, drawn: Option<nat>, builds: bool): Ledger {
    var used := if drawn.Some? then l.used + {drawn.value} else l.used;
    if builds && s.key.Some? then Ledger(l.built + [Built(s.key.value, l.spent, s.counter)], l.spent + 1, used)
    else Ledger(l.built, if u.key.Some? && u.key != s.key then 0 else l.spent, used)
  }

  ghost predicate LedgerOf(l: Ledger, s: Session) {
    && Numbered(l.built)
    && (forall b :: b in l.built ==> b.key.helperNonce in l.used)
    && (s.nonce.Some? ==> s.nonce.value in l.used)
    && (s.key.Some? ==>
          && s.key.value.helperNonce in l.used
          && s.counter == l.spent % 0x1_0000_0000_0000_0000
          && forall b :: b in l.built && b.key == s.key.value ==> b.nth < l.spent)
    && (s.phase == AwaitingAck && s.nonce.Some? ==>
          && (forall b :: b in l.built ==> b.key.helperNonce != s.nonce.value)
          && (s.key.Some? ==> s.key.value.helperNonce != s.nonce.value))
  }

  lemma LedgerMoves(l: Ledger, s: Session, u: Session, drawn: Option<nat>, builds: bool)
    requires LedgerOf(l, s) && Moves(s, u, drawn, builds) && (drawn.Some? ==> drawn.value !in l.used)
    ensures LedgerOf(AccountOf(l, s, u, drawn, builds), u)
  {
    if builds {
      var b := Built(s.key.value, l.spent, s.counter);
      NumberedMore(l.built, b);
      CounterNext(l.spent);
    }
  }

  lemma CounterNext(n: nat)
    ensures (n % 0x1_0000_0000_0000_0000 + 1) % 0x1_0000_0000_0000_0000 == (n + 1) % 0x1_0000_0000_0000_0000
  {
  }

  lemma NumberedMore(built: seq<Built>, b: Built)
    requires Numbered(built) && b.counter == b.nth % 0x1_0000_0000_0000_0000
    requires forall c :: c in built && c.key == b.key ==> c.nth < b.nth
    ensures Numbered(built + [b])
  {
  }

  /* ----------------------------------------------------------------- drop rings */

  predicate Apart(ring: seq<Clock>, gap: nat) {
    forall k :: 0 < k < |ring| ==> ring[k - 1] + gap <= ring[k]
  }

  function Newest(ring: seq<Clock>): Clock
    requires ring != []
  {
    ring[|ring| - 1]
  }

  /** Teardowns half a second apart, losses more than the short window apart, and no loss newer than the last teardown. */
  ghost predicate RingsOk(r: Rings, time: Clock) {
    && |r.drops| <= RECONNECT_LIMIT && Apart(r.drops, DROP_DEBOUNCE_MS)
    && |r.losses| <= SESSION_LOSS_LIMIT && Apart(r.losses, RECONNECT_WINDOW_MS + 1)
    && (r.drops != [] ==> Newest(r.drops) <= time)
    && (r.losses != [] ==> r.drops != [] && Newest(r.losses) <= Newest(r.drops))
  }

  /** What the machine knows of a device that is there, or is not. */
  ghost predicate PresenceOk(h: Helper, present: bool) {
    && (!present ==> h.rings.losses == [] && !h.presence.holding && h.session.phase == Idle)
    && (h.presence.configMode ==> h.presence.everSaw && h.presence.last == ConfigMode)
    && (h.presence.everSaw && h.presence.last == ConfigMode && !h.presence.configMode ==> !present)
  }

  lemma PushApart(ring: seq<Clock>, cap: nat, gap: nat, now: Clock)
    requires cap > 0 && |ring| <= cap && Apart(ring, gap) && (ring != [] ==> Newest(ring) + gap <= now)
    ensures var r := Push(ring, cap, now); |r| <= cap && Apart(r, gap) && Newest(r) == now
  {
  }

  lemma RecordOk(h: Helper, now: Clock)
    requires RingsOk(h.rings, now)
    ensures RingsOk(RecordDrop(h, now).rings, now) && RecordDrop(h, now).rings.losses == h.rings.losses
    ensures Counts(h, now) ==> RecordDrop(h, now).rings.drops != [] && Newest(RecordDrop(h, now).rings.drops) == now
  {
    if Counts(h, now) {
      PushApart(h.rings.drops, RECONNECT_LIMIT, DROP_DEBOUNCE_MS, now);
    }
  }

  lemma DropOk(h: Helper, now: Clock, why: Why)
    requires RingsOk(h.rings, now)
    ensures RingsOk(Drop(h, now, why).rings, now)
  {
    RecordOk(h, now);
    if AddsLoss(h, why, now) {
      PushApart(h.rings.losses, SESSION_LOSS_LIMIT, RECONNECT_WINDOW_MS + 1, now);
    }
  }

  lemma LeftOk(h: Helper, reason: Shown, now: Clock)
    requires RingsOk(h.rings, now)
    ensures RingsOk(Left(h, reason, now).rings, now) && Left(h, reason, now).rings.losses == []
  {
    RecordOk(h, now);
  }

  /** An appearance that clears the short window finds the long one empty. */
  lemma AppearedOk(h: Helper, which: Identity, now: Clock, present: bool)
    requires RingsOk(h.rings, now) && PresenceOk(h, present)
    ensures RingsOk(Appeared(h, which, now).rings, now) && PresenceOk(Appeared(h, which, now), true)
  {
    AppearedIs(h, which, now);
    var s := Started(h, now);
    LeftOk(s.(presence := s.presence.(everSaw := true, last := which)), DeviceInConfigMode, now);
  }

  /** The rings an appearance leaves, and what is known of the device. */
  lemma AppearedIs(h: Helper, which: Identity, now: Clock)
    ensures var t := Appeared(h, which, now);
            var s := Started(h, now);
            var seen := s.(presence := s.presence.(everSaw := true, last := which));
            var held := which == ConfigMode && h.presence.configMode && h.presence.holding;
            var left := if which == ConfigMode || h.presence.configMode
                        then Left(seen, DeviceInConfigMode, now).rings else h.rings;
            && t.rings == (if held then h.rings
                           else if h.presence.everSaw && h.presence.last != which then left.(drops := []) else left)
            && t.presence.everSaw && t.presence.last == which && t.presence.configMode == (which == ConfigMode)
  {
  }

  lemma TickOk(h: Helper, now: Clock, beatOk: bool, request: RequestTry, present: bool)
    requires RingsOk(h.rings, now) && PresenceOk(h, present)
    ensures RingsOk(Tick(h, now, beatOk, request).rings, now) && PresenceOk(Tick(h, now, beatOk, request), present)
  {
    var s := Settle(Started(h, now), now);
    assert s.rings == h.rings && s.session == h.session && PresenceOk(s, present);
    if s.session.phase == AwaitingAck {
      DropOk(s.(hello := s.hello.(unanswered := true)), now, OtherReason);
    } else if s.session.phase == Live {
      LiveTickOk(s, now, beatOk, request, present);
    }
  }

  lemma LiveTickOk(h: Helper, now: Clock, beatOk: bool, request: RequestTry, present: bool)
    requires RingsOk(h.rings, now) && PresenceOk(h, present) && h.session.phase == Live
    ensures RingsOk(LiveTick(h, now, beatOk, request).rings, now) && PresenceOk(LiveTick(h, now, beatOk, request), present)
  {
    DropOk(h, now, OtherReason);
    var a := AgeOut(h, now);
    assert a.rings == h.rings && a.presence == h.presence && a.session.phase == h.session.phase;
  }

  lemma DropPresence(h: Helper, now: Clock, why: Why, present: bool)
    requires PresenceOk(h, present)
    ensures PresenceOk(Drop(h, now, why), present)
  {
  }

  lemma ContentOk(h: Helper, content: Content, now: Clock, present: bool)
    requires RingsOk(h.rings, now) && PresenceOk(h, present)
    ensures RingsOk(OnContent(h, content, now).rings, now) && PresenceOk(OnContent(h, content, now), present)
  {
    if content.SessionEnd? && h.session.phase != Idle {
      var why := if content.unpaired then BoardUnpaired else OtherReason;
      DropOk(h, now, why);
      DropPresence(h, now, why, present);
    }
  }

  lemma FrameOk(h: Helper, f: Opened, now: Clock, present: bool)
    requires RingsOk(h.rings, now) && PresenceOk(h, present)
    ensures RingsOk(OnAuthenticated(h, f, now).rings, now) && PresenceOk(OnAuthenticated(h, f, now), present)
  {
    match f {
      case TagFailed(_) =>
        DropOk(h, now, OtherReason);
        DropPresence(h, now, OtherReason, present);
      case Refused =>
      case Good(content) => ContentOk(Heard(h, content, now), content, now, present);
    }
  }

  lemma AckOk(h: Helper, ack: Ack, now: Clock, present: bool)
    requires RingsOk(h.rings, now) && PresenceOk(h, present)
    ensures RingsOk(OnAck(h, ack, now).rings, now) && PresenceOk(OnAck(h, ack, now), present)
  {
    DropOk(h, now, OtherReason);
    DropPresence(h, now, OtherReason, present);
  }

  lemma RefusalOk(h: Helper, r: Refusal, now: Clock, present: bool)
    requires RingsOk(h.rings, now) && PresenceOk(h, present)
    ensures RingsOk(OnHelloRefused(h, r, now).rings, now) && PresenceOk(OnHelloRefused(h, r, now), present)
  {
    DropOk(h, now, OtherReason);
    DropPresence(h, now, OtherReason, present);
  }

  /** Whether a device is there after an input. */
  function PresentAfter(present: bool, i: Input): bool {
    if i.DeviceAppeared? then true else if i.DeviceDisappeared? then false else present
  }

  /** Every input keeps the rings, as long as channels are acquired only while a device is there. */
  lemma RingsKeep(h: Helper, i: Input, now: Clock, present: bool)
    requires RingsOk(h.rings, now) && PresenceOk(h, present) && (i.ChannelsAcquired? ==> present)
    ensures RingsOk(Next(h, i, now).rings, now) && PresenceOk(Next(h, i, now), PresentAfter(present, i))
  {
    var s := Started(h, now);
    match i {
      case DeviceAppeared(which) => AppearedOk(h, which, now, present);
      case DeviceDisappeared => LeftOk(s, DeviceAbsent, now);
      case StreamBreaks => BreakOk(s, now, OtherReason, present);
      case TransportFails => BreakOk(s, now, TransportFailed, present);
      case AckArrives(ack) => AckOk(s, ack, now, present);
      case RefusalArrives(r) => RefusalOk(s, r, now, present);
      case FrameArrives(f) => FrameOk(s, f, now, present);
      case Ticks(beatOk, request) => TickOk(h, now, beatOk, request, present);
      case ChannelsAcquired(count, hello, request) => AcquiredOk(h, count, now, hello, request);
      case GrantArrives(g, hello) => GrantOk(s, g, hello, now, present);
      case _ => QuietOk(h, i, now, present);
    }
  }

  lemma BreakOk(h: Helper, now: Clock, why: Why, present: bool)
    requires RingsOk(h.rings, now) && PresenceOk(h, present)
    ensures RingsOk(Drop(h, now, why).rings, now) && PresenceOk(Drop(h, now, why), present)
  {
    DropOk(h, now, why);
    DropPresence(h, now, why, present);
  }

  lemma QuietOk(h: Helper, i: Input, now: Clock, present: bool)
    requires PresenceOk(h, present)
    requires i.HostSleep? || i.ChannelsRefused? || i.NothingArrives? || i.EmitFrame? || i.FrameSent?
    ensures Next(h, i, now).rings == h.rings && PresenceOk(Next(h, i, now), present)
  {
  }

  lemma AcquiredOk(h: Helper, count: nat, now: Clock, hello: HelloTry, request: RequestTry)
    requires PresenceOk(h, true)
    ensures var t := Acquired(h, count, now, hello, request); t.rings == h.rings && PresenceOk(t, true)
  {
  }

  lemma GrantOk(h: Helper, g: Grant, hello: HelloTry, now: Clock, present: bool)
    requires PresenceOk(h, present)
    ensures var t := OnGrant(h, g, hello, now); t.rings == h.rings && PresenceOk(t, present)
  {
  }

  /** Within the short window of the last counted teardown. */
  predicate InBurst(h: Helper, now: Clock) {
    h.rings.drops != [] && Since(now, Newest(h.rings.drops)) <= RECONNECT_WINDOW_MS
  }

  /** How the long ring moves: not at all, emptied, or by an entry for a teardown that stands alone. */
  ghost predicate LossesMove(h: Helper, losses: seq<Clock>, now: Clock) {
    || losses == h.rings.losses || losses == []
    || (!InBurst(h, now) && losses == Push(h.rings.losses, SESSION_LOSS_LIMIT, now))
  }

  lemma DropLosses(h: Helper, now: Clock, why: Why)
    ensures LossesMove(h, Drop(h, now, why).rings.losses, now)
  {
  }

  lemma AppearedLosses(h: Helper, which: Identity, now: Clock)
    ensures LossesMove(h, Appeared(h, which, now).rings.losses, now)
  {
    AppearedIs(h, which, now);
  }

  lemma FrameLosses(h: Helper, f: Opened, now: Clock)
    ensures LossesMove(h, OnAuthenticated(h, f, now).rings.losses, now)
  {
    if f.Good? {
      var heard := Heard(h, f.content, now);
      DropLosses(heard, now, BoardUnpaired);
      DropLosses(heard, now, OtherReason);
    }
  }

  lemma TickLosses(h: Helper, now: Clock, beatOk: bool, request: RequestTry)
    ensures LossesMove(h, Tick(h, now, beatOk, request).rings.losses, now)
  {
    var s := Settle(Started(h, now), now);
    assert s.rings == h.rings;
    if s.session.phase == AwaitingAck {
      DropLosses(s.(hello := s.hello.(unanswered := true)), now, OtherReason);
    } else if s.session.phase == Live {
      LiveTickLosses(s, now, beatOk, request);
    }
  }

  lemma LiveTickLosses(h: Helper, now: Clock, beatOk: bool, request: RequestTry)
    requires h.session.phase == Live
    ensures LossesMove(h, LiveTick(h, now, beatOk, request).rings.losses, now)
  {
    DropLosses(h, now, OtherReason);
    var a := AgeOut(h, now);
    assert a.rings == h.rings;
  }

  lemma AckLosses(h: Helper, ack: Ack, now: Clock)
    ensures LossesMove(h, OnAck(h, ack, now).rings.losses, now)
  {
    DropLosses(h, now, OtherReason);
  }

  lemma RefusalLosses(h: Helper, r: Refusal, now: Clock)
    ensures LossesMove(h, OnHelloRefused(h, r, now).rings.losses, now)
  {
    DropLosses(h, now, OtherReason);
  }

  lemma SameLosses(h: Helper, s: Helper, losses: seq<Clock>, now: Clock)
    requires s.rings == h.rings && LossesMove(s, losses, now)
    ensures LossesMove(h, losses, now)
  {
  }

  lemma QuietLosses(h: Helper, i: Input, now: Clock)
    requires i.DeviceDisappeared? || i.HostSleep? || i.ChannelsAcquired? || i.ChannelsRefused? || i.GrantArrives?
             || i.NothingArrives? || i.EmitFrame? || i.FrameSent?
    ensures Next(h, i, now).rings.losses == h.rings.losses || Next(h, i, now).rings.losses == []
  {
  }

  /** Any input. */
  lemma NextLosses(h: Helper, i: Input, now: Clock)
    ensures LossesMove(h, Next(h, i, now).rings.losses, now)
  {
    var s := Started(h, now);
    match i {
      case DeviceAppeared(which) => AppearedLosses(h, which, now);
      case StreamBreaks => DropLosses(s, now, OtherReason); SameLosses(h, s, Next(h, i, now).rings.losses, now);
      case TransportFails => DropLosses(s, now, TransportFailed); SameLosses(h, s, Next(h, i, now).rings.losses, now);
      case AckArrives(ack) => AckLosses(s, ack, now); SameLosses(h, s, Next(h, i, now).rings.losses, now);
      case RefusalArrives(r) => RefusalLosses(s, r, now); SameLosses(h, s, Next(h, i, now).rings.losses, now);
      case FrameArrives(f) => FrameLosses(s, f, now); SameLosses(h, s, Next(h, i, now).rings.losses, now);
      case Ticks(beatOk, request) => TickLosses(h, now, beatOk, request);
      case _ => QuietLosses(h, i, now);
    }
  }

  /** Every input that moves a ring comes within the short window of the last counted teardown. */
  predicate Burst(h: Helper, fed: seq<(Input, Clock)>)
    decreases |fed|
  {
    fed == [] || ((Next(h, fed[0].0, fed[0].1).rings == h.rings || InBurst(h, fed[0].1))
                  && Burst(Next(h, fed[0].0, fed[0].1), fed[1..]))
  }

  lemma {:induction false} BurstAddsNone(h: Helper, fed: seq<(Input, Clock)>)
    requires Burst(h, fed)
    ensures Fed(h, fed).rings.losses == h.rings.losses || Fed(h, fed).rings.losses == []
    decreases |fed|
  {
    if fed != [] {
      NextLosses(h, fed[0].0, fed[0].1);
      BurstAddsNone(Next(h, fed[0].0, fed[0].1), fed[1..]);
    }
  }

  /**
    * A teardown, and then however many more, each within the short window of the one
    * before, whatever else comes between: the long ring gets one entry at most, for
    * the first of them.
    */
  lemma OneLossABurst(h: Helper, first: Input, now: Clock, fed: seq<(Input, Clock)>)
    requires Burst(Next(h, first, now), fed)
    ensures var losses := Fed(Next(h, first, now), fed).rings.losses;
            losses == h.rings.losses || losses == [] || losses == Push(h.rings.losses, SESSION_LOSS_LIMIT, now)
  {
    NextLosses(h, first, now);
    BurstAddsNone(Next(h, first, now), fed);
  }

  /** The long window is empty after every departure. */
  lemma DepartureEmpties(h: Helper, now: Clock)
    ensures Next(h, DeviceDisappeared, now).rings.losses == []
  {
  }

  /* -------------------------------------------------------- what is reported */

  /** The `n`th newest of a ring's times is within the window, on the machine's clock. */
  predicate Recent(ring: seq<Clock>, n: nat, window: int, now: Clock)
    requires n > 0
  {
    |ring| >= n && Since(now, ring[|ring| - n]) <= window
  }

  /**
    * A counted teardown of a connection is shown exactly when it is the fourth
    * within thirty seconds, whatever it was for, or when three losses are within the
    * long window, this one being the third if it is a loss.
    */
  lemma LoopIsShown(h: Helper, now: Clock, why: Why)
    requires RingsOk(h.rings, now) && Counts(h, now)
    requires h.state == Connected || h.state == ConnectedConfigMode || h.state == Quiet
    ensures var shown := Drop(h, now, why).state == ReconnectingRepeatedly;
            && (shown <==> || Recent(h.rings.drops, 3, RECONNECT_WINDOW_MS, now)
                           || Recent(h.rings.losses, if AddsLoss(h, why, now) then 2 else 3, SESSION_LOSS_WINDOW_MS, now))
            && (!shown ==> Drop(h, now, why).state == h.state)
  {
    PushedRate(h.rings.drops, RECONNECT_LIMIT, RECONNECT_WINDOW_MS, now);
    PushedRate(h.rings.losses, SESSION_LOSS_LIMIT, SESSION_LOSS_WINDOW_MS, now);
  }

  lemma PushedRate(ring: seq<Clock>, limit: nat, window: int, now: Clock)
    requires 1 < limit && |ring| <= limit
    ensures RateReached(Push(ring, limit, now), limit, window, now) <==> Recent(ring, limit - 1, window, now)
  {
    var r := Push(ring, limit, now);
    if |ring| >= limit - 1 {
      assert |r| == limit && r[0] == ring[|ring| - (limit - 1)];
    }
  }

  /** A deferred report is made by the first tick five seconds on, and not before. */
  lemma DeferralIsShown(h: Helper, now: Clock, beatOk: bool, request: RequestTry)
    requires SessionInv(h) && h.deferred.Some?
    ensures var t := Tick(h, now, beatOk, request);
            if Elapsed(now, h.deferred.value.at, SILENCE_MS)
            then t.state == h.deferred.value.state && t.deferred.None?
            else t.state == h.state && t.deferred == h.deferred
  {
  }

  /** Refusals do not push the deadline out: the clock runs from the first. */
  lemma {:induction false} RefusalsKeepDeadline(h: Helper, times: seq<Clock>)
    requires h.deferred.Some?
    ensures Refusals(h, times).deferred == h.deferred
    decreases |times|
  {
    if times != [] {
      RefusalsKeepDeadline(Next(h, ChannelsRefused, times[0]), times[1..]);
    }
  }

  function Refusals(h: Helper, times: seq<Clock>): Helper
    decreases |times|
  {
    if times == [] then h else Refusals(Next(h, ChannelsRefused, times[0]), times[1..])
  }

  /** The retry delay doubles with each refusal from a quarter of a second, and stops at four seconds. */
  lemma {:induction false} BackoffDoubles(h: Helper, times: seq<Clock>)
    requires h.backoff <= BACKOFF_CAP_MS
    ensures Refusals(h, times).backoff == Least(h.backoff * Doubled(|times|), BACKOFF_CAP_MS)
    decreases |times|
  {
    if times != [] {
      var t := Next(h, ChannelsRefused, times[0]);
      BackoffDoubles(t, times[1..]);
      DoubledNext(h.backoff, |times| - 1);
    }
  }

  function Doubled(n: nat): nat {
    if n == 0 then 1 else 2 * Doubled(n - 1)
  }

  lemma DoubledNext(b: nat, n: nat)
    ensures Least(Least(2 * b, BACKOFF_CAP_MS) * Doubled(n), BACKOFF_CAP_MS) == Least(b * Doubled(n + 1), BACKOFF_CAP_MS)
  {
    DoubledPositive(n);
    assert b * Doubled(n + 1) == 2 * b * Doubled(n);
    if 2 * b > BACKOFF_CAP_MS {
      GrowsBy(BACKOFF_CAP_MS, Doubled(n));
      GrowsBy(2 * b, Doubled(n));
    }
  }

  lemma {:induction false} DoubledPositive(n: nat)
    ensures Doubled(n) >= 1
  {
    if n > 0 {
      DoubledPositive(n - 1);
    }
  }

  lemma GrowsBy(a: nat, k: nat)
    requires k >= 1
    ensures a <= a * k
  {
  }

  /** A live session is dropped by a tick exactly when the board has been silent too long. */
  lemma SilenceEnds(h: Helper, now: Clock, beatOk: bool, request: RequestTry)
    requires SessionInv(h) && CanSendBulk(h) && h.presence.startedAt.Some?
    ensures var t := Tick(h, now, beatOk, request);
            if Elapsed(now, h.lastFrameAt, ABSENT_MS)
            then t.session == FORGOTTEN && t.deferred == Some(Deferred(AbsentState(h), now)) && !t.presence.holding
            else CanSendBulk(t) && t.session.key == h.session.key
  {
    var s := Settle(Started(h, now), now);
    assert s.session == h.session && s.lastFrameAt == h.lastFrameAt && AbsentState(s) == AbsentState(h);
    var a := AgeOut(s, now);
    assert a.session.key == s.session.key && a.session.phase == Live && a.session.negotiated;
  }

  /* ------------------------------------------------------------------ every run */

  datatype World = World(h: Helper, time: Clock, present: bool, ledger: Ledger, stored: seq<nat>, asked: nat,
                         others: seq<nat>)

  datatype Event = At(time: Clock, input: Input)

  function Step(w: World, e: Event): World {
    World(Next(w.h, e.input, e.time), e.time, PresentAfter(w.present, e.input),
          Account(w.ledger, w.h, e.input, e.time),
          w.stored + (match Stored(w.h, e.input) case Some(k) => [k] case None => []),
          if Requests(w.h, e.input, e.time) then w.asked + 1 else w.asked,
          w.others + (match Mismatch(w.h, e.input) case Some(k) => [k] case None => []))
  }

  /** Time goes on, channels are acquired only while a device is there, and every nonce drawn is new. */
  predicate Allowed(w: World, e: Event) {
    && w.time <= e.time
    && (e.input.ChannelsAcquired? ==> w.present)
    && (Drawn(w.h, e.input).Some? ==> Drawn(w.h, e.input).value !in w.ledger.used)
  }

  function Run(w: World, es: seq<Event>): World
    decreases |es|
  {
    if es == [] then w else Run(Step(w, es[0]), es[1..])
  }

  predicate AllAllowed(w: World, es: seq<Event>)
    decreases |es|
  {
    es == [] || (Allowed(w, es[0]) && AllAllowed(Step(w, es[0]), es[1..]))
  }

  function StartWith(boardKey: Option<nat>): World {
    World(Init(boardKey), 0, false, Ledger([], 0, {}), [], 0, [])
  }

  /** Keys are stored only one to a request, all of them the one pinned. */
  ghost predicate PinsOk(w: World) {
    && |w.stored| + (if w.h.pairing.requestedAt.Some? then 1 else 0) <= w.asked
    && forall k :: k in w.stored ==> w.h.boardKey == Some(k)
  }

  /** A changed identity is shown only once a grant that answered named a board other than the pinned one. */
  ghost predicate NamedOther(w: World) {
    && PlainDeferral(w.h)
    && (w.h.state == BoardIdentityChanged ==> w.others != [])
    && forall k :: k in w.others ==> w.h.boardKey.Some? && w.h.boardKey.value != k
  }

  ghost predicate Inv(w: World) {
    && SessionInv(w.h) && NamedOther(w)
    && RingsOk(w.h.rings, w.time) && PresenceOk(w.h, w.present)
    && (w.present ==> w.h.presence.everSaw)
    && LedgerInv(w.ledger, w.h)
    && PinsOk(w)
  }

  lemma RingsLater(r: Rings, time: Clock, later: Clock)
    requires RingsOk(r, time) && time <= later
    ensures RingsOk(r, later)
  {
  }

  lemma EverSaw(h: Helper, i: Input, now: Clock)
    ensures h.presence.everSaw || i.DeviceAppeared? ==> Next(h, i, now).presence.everSaw
  {
    if i.DeviceAppeared? {
      AppearedSaw(h, i.which, now);
    } else if i.Ticks? {
      TickSaw(h, now, i.beatOk, i.request);
    }
  }

  lemma AppearedSaw(h: Helper, which: Identity, now: Clock)
    ensures Appeared(h, which, now).presence.everSaw
  {
  }

  lemma TickSaw(h: Helper, now: Clock, beatOk: bool, request: RequestTry)
    ensures Tick(h, now, beatOk, request).presence.everSaw == h.presence.everSaw
  {
    var s := Settle(Started(h, now), now);
    assert s.presence.everSaw == h.presence.everSaw;
    LiveTickSaw(s, now, beatOk, request);
  }

  lemma LiveTickSaw(h: Helper, now: Clock, beatOk: bool, request: RequestTry)
    ensures LiveTick(h, now, beatOk, request).presence.everSaw == h.presence.everSaw
  {
    assert AgeOut(h, now).presence == h.presence;
  }

  lemma PinsKeep(w: World, e: Event)
    requires PinsOk(w)
    ensures PinsOk(Step(w, e))
  {
    PinStays(w.h, e.input, e.time);
  }

  lemma OthersKeep(w: World, e: Event)
    requires NamedOther(w)
    ensures NamedOther(Step(w, e))
  {
    PinStays(w.h, e.input, e.time);
    IdentityChangedOnlyByGrant(w.h, e.input, e.time);
  }

  lemma StepKeeps(w: World, e: Event)
    requires Inv(w) && Allowed(w, e)
    ensures Inv(Step(w, e))
  {
    OthersKeep(w, e);
    SessionKeeps(w.h, e.input, e.time);
    RingsLater(w.h.rings, w.time, e.time);
    RingsKeep(w.h, e.input, e.time, w.present);
    EverSaw(w.h, e.input, e.time);
    AccountKeeps(w.ledger, w.h, e.input, e.time);
    PinsKeep(w, e);
  }

  lemma {:induction false} RunKeeps(w: World, es: seq<Event>)
    requires Inv(w) && AllAllowed(w, es)
    ensures Inv(Run(w, es))
    decreases |es|
  {
    if es != [] {
      StepKeeps(w, es[0]);
      RunKeeps(Step(w, es[0]), es[1..]);
    }
  }

  /** Two frames under one key and counter are the same frame, or 2^64 frames of that session apart. */
  lemma DifferentCounters(built: seq<Built>, i: nat, j: nat)
    requires Numbered(built) && i < j < |built|
    requires built[i].key == built[j].key && built[i].counter == built[j].counter
    ensures built[j].nth - built[i].nth >= 0x1_0000_0000_0000_0000
  {
  }

  /**
    * Over every run with fresh nonces in which channels are acquired only while a
    * device is there. A live negotiated session holds keys, owes no deferred report
    * and shows a state that allows bulk, or that the board's identity changed. No
    * two frames share a session key and counter, short of 2^64 in one session. Keys
    * stored are one to a request and all of them the pinned one. A changed identity is
    * shown only after a grant that answered named another board than the pinned one.
    * Entries of the short ring are 500 ms apart or more, those of the long ring more
    * than 30 s.
    */
  lemma EveryRun(boardKey: Option<nat>, es: seq<Event>)
    requires AllAllowed(StartWith(boardKey), es)
    ensures var w := Run(StartWith(boardKey), es);
            && (CanSendBulk(w.h) ==>
                  && w.h.session.key.Some? && w.h.deferred.None?
                  && (AllowsBulk(w.h.state) || w.h.state == BoardIdentityChanged))
            && (forall i, j :: 0 <= i < j < |w.ledger.built|
                  && w.ledger.built[i].key == w.ledger.built[j].key
                  && w.ledger.built[i].counter == w.ledger.built[j].counter
                  ==> w.ledger.built[j].nth - w.ledger.built[i].nth >= 0x1_0000_0000_0000_0000)
            && |w.stored| <= w.asked && (forall k :: k in w.stored ==> w.h.boardKey == Some(k))
            && (w.h.state == BoardIdentityChanged ==> w.others != [] && w.h.boardKey.Some?)
            && (forall k :: k in w.others ==> w.h.boardKey != Some(k))
            && Apart(w.h.rings.drops, DROP_DEBOUNCE_MS) && Apart(w.h.rings.losses, RECONNECT_WINDOW_MS + 1)
            && (!w.present ==> w.h.rings.losses == [])
  {
    var s := StartWith(boardKey);
    RunKeeps(s, es);
    var others := Run(s, es).others;
    assert others != [] ==> others[0] in others;
    AllDifferent(Run(s, es).ledger.built);
  }

  lemma AllDifferent(built: seq<Built>)
    requires Numbered(built)
    ensures forall i, j :: 0 <= i < j < |built| && built[i].key == built[j].key && built[i].counter == built[j].counter
              ==> built[j].nth - built[i].nth >= 0x1_0000_0000_0000_0000
  {
    forall i, j | 0 <= i < j < |built| && built[i].key == built[j].key && built[i].counter == built[j].counter
      ensures built[j].nth - built[i].nth >= 0x1_0000_0000_0000_0000
    {
      DifferentCounters(built, i, j);
    }
  }

  /** A board key pinned at the start, or at any time, is the one pinned at the end of any run from there. */
  lemma {:induction false} PinnedForGood(w: World, es: seq<Event>)
    requires w.h.boardKey.Some?
    ensures Run(w, es).h.boardKey == w.h.boardKey
    decreases |es|
  {
    if es != [] {
      PinStays(w.h, es[0].input, es[0].time);
      PinnedForGood(Step(w, es[0]), es[1..]);
    }
  }
}
