/** Why the helper shows what it shows: every state has its cause among the inputs, and every cause shows. */
module HelperCauses {
  import opened Basics
  import opened HelperCore
  import opened HelperRuns

  /** What the inputs have said so far. */
  datatype Cause =
    | NoKeyYet
    | SaidUnpaired
    | SaidVersion
    | NamedAnother
    | HeardAlert
    | TookAck
    | SawConfigMode
    | FullWindow

  /** An ack that ends the handshake: to the hello outstanding, for a number of channels that were asked for. */
  predicate GoodAck(h: Helper, ack: Ack) {
    && h.session.phase == AwaitingAck && h.boardKey.Some? && h.session.nonce.Some?
    && ack.AckGood? && ack.correlation == h.hello.correlation
    && 1 <= ack.channels <= CHANNELS && ack.channels <= h.channels
  }

  predicate MatchingRefusal(h: Helper, r: Refusal) {
    h.session.phase == AwaitingAck && !r.RefusalBad? && r.correlation == h.hello.correlation
  }

  /** What an input says. */
  predicate Says(h: Helper, i: Input, now: Clock, c: Cause) {
    match c
    case NoKeyYet => i.ChannelsAcquired? && h.boardKey.None?
    case SaidUnpaired => i.RefusalArrives? && i.refusal.RefusalUnpaired? && MatchingRefusal(h, i.refusal)
    case SaidVersion => i.RefusalArrives? && i.refusal.RefusalVersion? && MatchingRefusal(h, i.refusal)
    case NamedAnother => Mismatch(h, i).Some?
    case HeardAlert => i.FrameArrives? && i.frame.Good? && i.frame.content.AlertFrame? && h.session.key.Some?
    case TookAck => i.AckArrives? && GoodAck(h, i.ack)
    case SawConfigMode => i == DeviceAppeared(ConfigMode)
    case FullWindow => Reconnecting(Next(h, i, now).rings, now)
  }

  /** What has to have been said for a state to be shown. */
  predicate Justified(s: Shown, said: set<Cause>) {
    match s
    case Connected => TookAck in said
    case ConnectedConfigMode => TookAck in said && SawConfigMode in said
    case ReconnectingRepeatedly => FullWindow in said
    case NotPaired => NoKeyYet in said || SaidUnpaired in said
    case DeviceInConfigMode => SawConfigMode in said
    case VersionIncompatible => SaidVersion in said
    case ListenerDetected => HeardAlert in said
    case BoardIdentityChanged => NamedAnother in said
    case Quiet => true
    case DeviceAbsent => true
  }

  function Said(h: Helper, i: Input, now: Clock, before: set<Cause>): set<Cause> {
    before + (set c: Cause | Says(h, i, now, c))
  }

  function AllSaid(h: Helper, fed: seq<(Input, Clock)>, before: set<Cause>): set<Cause>
    decreases |fed|
  {
    if fed == [] then before
    else AllSaid(Next(h, fed[0].0, fed[0].1), fed[1..], Said(h, fed[0].0, fed[0].1, before))
  }

  ghost predicate CauseInv(h: Helper, said: set<Cause>) {
    && Justified(h.state, said)
    && (h.deferred.Some? ==> Justified(h.deferred.value.state, said))
    && (h.presence.configMode ==> SawConfigMode in said)
    && (h.session.negotiated ==> TookAck in said)
  }

  lemma MoreSaid(h: Helper, a: set<Cause>, b: set<Cause>)
    requires CauseInv(h, a) && a <= b
    ensures CauseInv(h, b)
  {
  }

  lemma DropCause(h: Helper, now: Clock, why: Why, said: set<Cause>)
    requires CauseInv(h, said) && (Reconnecting(Drop(h, now, why).rings, now) ==> FullWindow in said)
    ensures CauseInv(Drop(h, now, why), said)
  {
  }

  lemma AppearedCause(h: Helper, which: Identity, now: Clock, said: set<Cause>)
    requires CauseInv(h, said) && (which == ConfigMode ==> SawConfigMode in said)
    ensures CauseInv(Appeared(h, which, now), said)
  {
  }

  lemma AcquiredCause(h: Helper, count: nat, now: Clock, hello: HelloTry, request: RequestTry, said: set<Cause>)
    requires CauseInv(h, said) && (h.boardKey.None? ==> NoKeyYet in said)
    ensures CauseInv(Acquired(h, count, now, hello, request), said)
  {
  }

  lemma AckCause(h: Helper, ack: Ack, now: Clock, said: set<Cause>)
    requires CauseInv(h, said) && (GoodAck(h, ack) ==> TookAck in said)
    requires Reconnecting(OnAck(h, ack, now).rings, now) ==> FullWindow in said
    ensures CauseInv(OnAck(h, ack, now), said)
  {
  }

  lemma RefusalCause(h: Helper, r: Refusal, now: Clock, said: set<Cause>)
    requires CauseInv(h, said) && (Reconnecting(OnHelloRefused(h, r, now).rings, now) ==> FullWindow in said)
    requires MatchingRefusal(h, r) && r.RefusalUnpaired? ==> SaidUnpaired in said
    requires MatchingRefusal(h, r) && r.RefusalVersion? ==> SaidVersion in said
    ensures CauseInv(OnHelloRefused(h, r, now), said)
  {
  }

  lemma GrantCause(h: Helper, g: Grant, hello: HelloTry, now: Clock, said: set<Cause>)
    requires CauseInv(h, said) && (Mismatch(h, GrantArrives(g, hello)).Some? ==> NamedAnother in said)
    ensures CauseInv(OnGrant(h, g, hello, now), said)
  {
  }

  lemma FrameCause(h: Helper, f: Opened, now: Clock, said: set<Cause>)
    requires CauseInv(h, said) && (Reconnecting(OnAuthenticated(h, f, now).rings, now) ==> FullWindow in said)
    requires f.Good? && f.content.AlertFrame? && h.session.key.Some? ==> HeardAlert in said
    ensures CauseInv(OnAuthenticated(h, f, now), said)
  {
    if f.Good? {
      assert CauseInv(Heard(h, f.content, now), said);
    }
  }

  lemma TickCause(h: Helper, now: Clock, beatOk: bool, request: RequestTry, said: set<Cause>)
    requires CauseInv(h, said) && (Reconnecting(Tick(h, now, beatOk, request).rings, now) ==> FullWindow in said)
    ensures CauseInv(Tick(h, now, beatOk, request), said)
  {
    var s := Settle(Started(h, now), now);
    assert CauseInv(s, said);
    if s.session.phase == AwaitingAck && Elapsed(now, s.hello.sentAt, HELLO_TIMEOUT_MS) {
      DropCause(s.(hello := s.hello.(unanswered := true)), now, OtherReason, said);
    } else if s.session.phase == Live {
      LiveTickCause(s, now, beatOk, request, said);
    }
  }

  lemma LiveTickCause(h: Helper, now: Clock, beatOk: bool, request: RequestTry, said: set<Cause>)
    requires CauseInv(h, said)
    requires Silent(h, now) && Reconnecting(Drop(h, now, OtherReason).rings, now) ==> FullWindow in said
    ensures CauseInv(LiveTick(h, now, beatOk, request), said)
  {
    if Silent(h, now) {
      DropCause(h, now, OtherReason, said);
    } else {
      assert CauseInv(AgeOut(h, now), said);
    }
  }

  /** One input of any kind. */
  lemma NextCause(h: Helper, i: Input, now: Clock, said: set<Cause>)
    requires CauseInv(h, said)
    ensures CauseInv(Next(h, i, now), Said(h, i, now, said))
  {
    var more := Said(h, i, now, said);
    MoreSaid(h, said, more);
    var s := Started(h, now);
    assert CauseInv(s, more) && s.session == h.session && s.hello == h.hello && s.boardKey == h.boardKey;
    match i {
      case DeviceAppeared(which) => AppearedCause(h, which, now, more);
      case StreamBreaks => DropCause(s, now, OtherReason, more);
      case TransportFails => DropCause(s, now, TransportFailed, more);
      case ChannelsAcquired(count, hello, request) => AcquiredCause(h, count, now, hello, request, more);
      case AckArrives(ack) => AckCause(s, ack, now, more);
      case RefusalArrives(r) => RefusalCause(s, r, now, more);
      case GrantArrives(g, hello) => GrantCause(s, g, hello, now, more);
      case FrameArrives(f) => FrameCause(s, f, now, more);
      case Ticks(beatOk, request) => TickCause(h, now, beatOk, request, more);
      case _ => QuietCause(h, i, now, more);
    }
  }

  lemma QuietCause(h: Helper, i: Input, now: Clock, said: set<Cause>)
    requires CauseInv(h, said)
    requires i.DeviceDisappeared? || i.HostSleep? || i.ChannelsRefused? || i.NothingArrives? || i.EmitFrame? || i.FrameSent?
    ensures CauseInv(Next(h, i, now), said)
  {
  }

  lemma {:induction false} FedCause(h: Helper, fed: seq<(Input, Clock)>, said: set<Cause>)
    requires CauseInv(h, said)
    ensures CauseInv(Fed(h, fed), AllSaid(h, fed, said))
    decreases |fed|
  {
    if fed != [] {
      NextCause(h, fed[0].0, fed[0].1, said);
      FedCause(Next(h, fed[0].0, fed[0].1), fed[1..], Said(h, fed[0].0, fed[0].1, said));
    }
  }

  /**
    * Over every sequence of inputs, whatever the clock does, what is shown and what is
    * about to be shown has been said: incompatible versions only by a refusal of the
    * hello outstanding that named the version, no pairing only by one that named it or
    * for want of a key, and so on for every state.
    */
  lemma EveryStateHasItsCause(boardKey: Option<nat>, fed: seq<(Input, Clock)>)
    ensures var h := Fed(Init(boardKey), fed);
            var said := AllSaid(Init(boardKey), fed, {});
            Justified(h.state, said) && (h.deferred.Some? ==> Justified(h.deferred.value.state, said))
  {
    FedCause(Init(boardKey), fed, {});
  }

  /* ------------------------------------------------------------- every cause shows */

  /** What was said is what is shown next, and what it does to the session and the key. */
  lemma CauseShows(h: Helper, i: Input, now: Clock)
    ensures var t := Next(h, i, now);
            && (Says(h, i, now, SaidUnpaired) ==>
                  t.state == NotPaired && t.session == FORGOTTEN.(phase := Live) && t.boardKey == h.boardKey
                  && t.pairing.requestedAt.None?)
            && (Says(h, i, now, SaidVersion) ==>
                  t.state == VersionIncompatible && t.session == FORGOTTEN && t.boardKey == h.boardKey
                  && t.pairing == h.pairing)
            && (Says(h, i, now, NoKeyYet) ==> t.state == NotPaired && t.session.phase == Live && !t.session.negotiated)
            && (Says(h, i, now, NamedAnother) ==> t.state == BoardIdentityChanged && t.boardKey == h.boardKey)
            && (Says(h, i, now, HeardAlert) ==> t.state == ListenerDetected)
            && (Says(h, i, now, TookAck) ==>
                  && CanSendBulk(t) && t.session.counter == 0
                  && t.session.key == Some(SessionKey(h.boardKey.value, h.session.nonce.value, i.ack.boardNonce))
                  && t.state == if Reconnecting(h.rings, now) then ReconnectingRepeatedly
                                else if h.presence.configMode then ConnectedConfigMode else Connected)
  {
  }

  /**
    * A device that comes and goes. In its normal identity it is there: nothing of its
    * absence is shown or owed. In config mode, unless its channels are already held, and
    * when it goes, the session is forgotten and its absence owed from now on.
    */
  lemma PresenceShows(h: Helper, now: Clock)
    ensures var t := Next(h, DeviceAppeared(Normal), now);
            && t.deferred.None? && !t.presence.configMode && t.presence.everSaw
            && t.state != DeviceAbsent && t.state != DeviceInConfigMode && t.state != ConnectedConfigMode
    ensures var t := Next(h, DeviceAppeared(ConfigMode), now);
            && t.presence.configMode && t.presence.everSaw && t.state == h.state
            && (if h.presence.configMode && h.presence.holding then t.session == h.session && t.deferred == h.deferred
                else t.session == FORGOTTEN && t.deferred == Some(Deferred(DeviceInConfigMode, now)))
    ensures var t := Next(h, DeviceDisappeared, now);
            && t.session == FORGOTTEN && t.deferred == Some(Deferred(DeviceAbsent, now))
            && !t.presence.configMode && !t.presence.holding && t.state == h.state
  {
    var t := Next(h, DeviceAppeared(Normal), now);
    assert t.deferred.None?;
  }

  /** Only that ack ends a handshake, and only a new one or a teardown ends the session it makes. */
  lemma OnlyAckConnects(h: Helper, i: Input, now: Clock)
    ensures CanSendBulk(Next(h, i, now)) && !CanSendBulk(h) ==> Says(h, i, now, TookAck)
  {
    if i.Ticks? {
      TickConnects(h, now, i.beatOk, i.request);
    } else if i.DeviceAppeared? {
      AppearedConnects(h, i.which, now);
    } else if i.FrameArrives? {
      FrameConnects(Started(h, now), i.frame, now);
    }
  }

  lemma AppearedConnects(h: Helper, which: Identity, now: Clock)
    ensures CanSendBulk(Appeared(h, which, now)) ==> CanSendBulk(h)
  {
  }

  lemma FrameConnects(h: Helper, f: Opened, now: Clock)
    ensures CanSendBulk(OnAuthenticated(h, f, now)) ==> CanSendBulk(h)
  {
  }

  lemma TickConnects(h: Helper, now: Clock, beatOk: bool, request: RequestTry)
    ensures CanSendBulk(Tick(h, now, beatOk, request)) ==> CanSendBulk(h)
  {
    var s := Settle(Started(h, now), now);
    assert s.session == h.session;
    if s.session.phase == Live && !Silent(s, now) {
      var a := AgeOut(s, now);
      assert a.session.phase == s.session.phase && a.session.negotiated == s.session.negotiated;
    }
  }

  /* ------------------------------------------------------ an unpaired helper asks */

  /** Live, told or knowing that it is not paired, with nothing asked yet. */
  predicate Wanting(h: Helper) {
    && h.state == NotPaired && h.session.phase == Live && !h.session.negotiated && h.session.key.None?
    && h.deferred.None? && h.presence.everSaw && h.pairing.requestedAt.None?
  }

  lemma WantingTick(h: Helper, now: Clock, beatOk: bool, request: RequestTry)
    requires Wanting(h)
    ensures var t := Tick(h, now, beatOk, request);
            && t.boardKey == h.boardKey
            && (if request.ok then t.pairing == Pairing(Some(now), request.correlation) && t.state == NotPaired else Wanting(t))
  {
    var s := Settle(Started(h, now), now);
    assert Wanting(s) && s.boardKey == h.boardKey;
    var a := AgeOut(s, now);
    assert a == s;
  }

  /** Ticks, none of which can build a request. */
  predicate BarrenTicks(fed: seq<(Input, Clock)>) {
    forall i :: 0 <= i < |fed| ==> fed[i].0.Ticks? && !fed[i].0.request.ok
  }

  lemma {:induction false} StillWanting(h: Helper, fed: seq<(Input, Clock)>)
    requires Wanting(h) && BarrenTicks(fed)
    ensures Wanting(Fed(h, fed)) && Fed(h, fed).boardKey == h.boardKey
    decreases |fed|
  {
    if fed != [] {
      assert fed[0].0.Ticks? && !fed[0].0.request.ok;
      WantingTick(h, fed[0].1, fed[0].0.beatOk, fed[0].0.request);
      StillWanting(Next(h, fed[0].0, fed[0].1), fed[1..]);
    }
  }

  /**
    * Refused as unpaired, the helper asks to be paired again at the first tick that can
    * build a request, however many before it cannot, and keeps its pin.
    */
  lemma UnpairedAsks(h: Helper, r: Refusal, now: Clock, fed: seq<(Input, Clock)>, later: Clock, beatOk: bool, request: RequestTry)
    requires SessionInv(h) && MatchingRefusal(h, r) && r.RefusalUnpaired? && BarrenTicks(fed) && request.ok
    ensures var t := Fed(Next(h, RefusalArrives(r), now), fed);
            var u := Next(t, Ticks(beatOk, request), later);
            && Wanting(t) && t.boardKey == h.boardKey
            && Requests(t, Ticks(beatOk, request), later)
            && u.pairing == Pairing(Some(later), request.correlation) && u.boardKey == h.boardKey && u.state == NotPaired
  {
    CauseShows(h, RefusalArrives(r), now);
    var s := Next(h, RefusalArrives(r), now);
    assert Wanting(s);
    StillWanting(s, fed);
    var t := Fed(s, fed);
    WantingTick(t, later, beatOk, request);
    var v := Settle(Started(t, later), later);
    assert Wanting(v) && AgeOut(v, later) == v;
  }

  /* ------------------------------------------------------------- from cold to live */

  /** A board whose key is stored: it appears, its channels are acquired, it acks the hello, and the session is live under a key of both nonces. */
  lemma KnownBoardConnects(board: nat, t0: Clock, t1: Clock, t2: Clock, count: nat, hello: HelloTry, request: RequestTry, ack: Ack)
    requires hello.ok && ack.AckGood? && ack.correlation == hello.correlation && 1 <= ack.channels <= CHANNELS
    requires ack.channels <= count
    ensures var h := Fed(Init(Some(board)), [(DeviceAppeared(Normal), t0), (ChannelsAcquired(count, hello, request), t1),
                                             (AckArrives(ack), t2)]);
            && CanSendBulk(h) && h.state == Connected && h.boardKey == Some(board)
            && h.session.key == Some(SessionKey(board, hello.nonce, ack.boardNonce))
  {
    var h0 := Init(Some(board));
    var h1 := Next(h0, DeviceAppeared(Normal), t0);
    var h2 := Next(h1, ChannelsAcquired(count, hello, request), t1);
    assert h2.session.phase == AwaitingAck && h2.session.nonce == Some(hello.nonce) && h2.boardKey == Some(board);
    assert h2.hello.correlation == hello.correlation && h2.channels == count && h2.rings == Rings([], []);
    assert !h2.presence.configMode;
    CauseShows(h2, AckArrives(ack), t2);
    FedThree(h0, (DeviceAppeared(Normal), t0), (ChannelsAcquired(count, hello, request), t1), (AckArrives(ack), t2));
  }

  lemma FedThree(h: Helper, a: (Input, Clock), b: (Input, Clock), c: (Input, Clock))
    ensures Fed(h, [a, b, c]) == Next(Next(Next(h, a.0, a.1), b.0, b.1), c.0, c.1)
  {
    assert [a, b, c][1..] == [b, c] && [b, c][1..] == [c] && [c][1..] == [];
    var h1 := Next(h, a.0, a.1);
    var h2 := Next(h1, b.0, b.1);
    assert Fed(h2, [c]) == Next(h2, c.0, c.1);
    assert Fed(h1, [b, c]) == Fed(h2, [c]);
  }

  /** A helper with no key: it asks, the grant that answers is pinned, and the hello it then says makes a session under that board's key. */
  lemma UnknownBoardPairs(h: Helper, now: Clock, grant: Grant, hello: HelloTry, ack: Ack, later: Clock)
    requires h.boardKey.None? && Answers(h, grant) && hello.ok
    requires ack.AckGood? && ack.correlation == hello.correlation && 1 <= ack.channels <= CHANNELS && ack.channels <= h.channels
    ensures var t := Next(h, GrantArrives(grant, hello), now);
            var u := Next(t, AckArrives(ack), later);
            && Stored(h, GrantArrives(grant, hello)) == Some(grant.board)
            && t.boardKey == Some(grant.board) && t.pairing.requestedAt.None?
            && CanSendBulk(u) && u.session.key == Some(SessionKey(grant.board, hello.nonce, ack.boardNonce))
  {
    CauseShows(Next(h, GrantArrives(grant, hello), now), AckArrives(ack), later);
  }

  /* ------------------------------------------------------------------- its clocks */

  /** A hello is given up by a tick exactly when it has gone unanswered too long. */
  lemma HelloTimesOut(h: Helper, now: Clock, beatOk: bool, request: RequestTry)
    requires SessionInv(h) && h.session.phase == AwaitingAck
    ensures var t := Tick(h, now, beatOk, request);
            if Since(now, h.hello.sentAt) >= HELLO_TIMEOUT_MS
            then t.session == FORGOTTEN && t.hello.unanswered && t.deferred.Some? && t.deferred.value.at == now
            else t.session == h.session && t.state == h.state
  {
    var s := Settle(Started(h, now), now);
    assert s.session == h.session && s.hello == h.hello && s.state == h.state;
  }

  /** A live tick builds a beat exactly when nothing was sent for the beat's interval. */
  lemma BeatFillsSilence(h: Helper, now: Clock, beatOk: bool, request: RequestTry)
    requires SessionInv(h) && CanSendBulk(h) && Since(now, h.lastFrameAt) < ABSENT_MS
    ensures Tick(h, now, beatOk, request).session.counter
         == if beatOk && Since(now, h.lastSentAt) >= HEARTBEAT_MS
            then (h.session.counter + 1) % 0x1_0000_0000_0000_0000 else h.session.counter
  {
    var s := Settle(Started(h, now), now);
    assert s.session == h.session && s.lastSentAt == h.lastSentAt && s.lastFrameAt == h.lastFrameAt;
    var a := AgeOut(s, now);
    assert a.session.counter == h.session.counter && a.session.key == h.session.key && a.lastSentAt == h.lastSentAt;
  }

  /* --------------------------------------------------------------------- asleep */

  /** Nothing tells the helper of a sleep or a waking. */
  predicate Asleep(fed: seq<(Input, Clock)>) {
    forall i :: 0 <= i < |fed| ==> !fed[i].0.HostSleep?
  }

  lemma AsleepStep(h: Helper, i: Input, now: Clock)
    requires h.presence.asleep && !i.HostSleep?
    ensures var t := Next(h, i, now);
            t.presence.asleep && (t.rings.drops == h.rings.drops || t.rings.drops == [])
            && (t.rings.losses == h.rings.losses || t.rings.losses == [])
  {
    var s := Started(h, now);
    assert s.presence.asleep && s.rings == h.rings;
    match i {
      case DeviceAppeared(which) => AppearedAsleep(h, which, now);
      case FrameArrives(f) => FrameAsleep(s, f, now);
      case Ticks(beatOk, request) => TickAsleep(h, now, beatOk, request);
      case _ =>
    }
  }

  lemma AppearedAsleep(h: Helper, which: Identity, now: Clock)
    requires h.presence.asleep
    ensures var t := Appeared(h, which, now);
            t.presence.asleep && (t.rings.drops == h.rings.drops || t.rings.drops == [])
            && (t.rings.losses == h.rings.losses || t.rings.losses == [])
  {
    AppearedIs(h, which, now);
  }

  lemma FrameAsleep(h: Helper, f: Opened, now: Clock)
    requires h.presence.asleep
    ensures OnAuthenticated(h, f, now).presence.asleep && OnAuthenticated(h, f, now).rings == h.rings
  {
    if f.Good? {
      var heard := Heard(h, f.content, now);
      assert heard.presence == h.presence && heard.rings == h.rings;
    }
  }

  lemma TickAsleep(h: Helper, now: Clock, beatOk: bool, request: RequestTry)
    requires h.presence.asleep
    ensures Tick(h, now, beatOk, request).presence.asleep && Tick(h, now, beatOk, request).rings == h.rings
  {
    var s := Settle(Started(h, now), now);
    assert s.presence.asleep && s.rings == h.rings;
    if s.session.phase == Live && !Silent(s, now) {
      assert AgeOut(s, now).presence == s.presence && AgeOut(s, now).rings == s.rings;
    }
  }

  /** While the computer sleeps no teardown counts, whatever arrives. */
  lemma {:induction false} SleepIsNotCounted(h: Helper, fed: seq<(Input, Clock)>)
    requires h.presence.asleep && Asleep(fed)
    ensures var t := Fed(h, fed);
            (t.rings.drops == h.rings.drops || t.rings.drops == []) && (t.rings.losses == h.rings.losses || t.rings.losses == [])
    decreases |fed|
  {
    if fed != [] {
      assert !fed[0].0.HostSleep?;
      AsleepStep(h, fed[0].0, fed[0].1);
      SleepIsNotCounted(Next(h, fed[0].0, fed[0].1), fed[1..]);
    }
  }
}
