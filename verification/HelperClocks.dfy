/** What the helper's clocks promise: how long a session outlives silence, a reading stands, and a grace lasts; and what counts as a loss. */
module HelperClocks {
  import opened Basics
  import opened HelperCore
  import opened HelperRuns
  import opened HelperCauses

  /* -------------------------------------------------------------- signs of life */

  /** An input that proves the board alive: channels just acquired, the ack, or a frame that authenticates. */
  predicate SignOfLife(h: Helper, i: Input) {
    i.ChannelsAcquired? || (i.AckArrives? && GoodAck(h, i.ack)) || (i.FrameArrives? && i.frame.Good? && h.session.key.Some?)
  }

  /** The last of them is what is remembered, and nothing else is. */
  lemma LifeIsRemembered(h: Helper, i: Input, now: Clock)
    ensures Next(h, i, now).lastFrameAt == if SignOfLife(h, i) then now else h.lastFrameAt
  {
    match i {
      case DeviceAppeared(which) => AppearedLife(h, which, now);
      case Ticks(beatOk, request) => TickLife(h, now, beatOk, request);
      case FrameArrives(f) => FrameLife(Started(h, now), f, now);
      case _ =>
    }
  }

  lemma AppearedLife(h: Helper, which: Identity, now: Clock)
    ensures Appeared(h, which, now).lastFrameAt == h.lastFrameAt
  {
  }

  lemma FrameLife(h: Helper, f: Opened, now: Clock)
    ensures OnAuthenticated(h, f, now).lastFrameAt == if f.Good? && h.session.key.Some? then now else h.lastFrameAt
  {
  }

  lemma TickLife(h: Helper, now: Clock, beatOk: bool, request: RequestTry)
    ensures Tick(h, now, beatOk, request).lastFrameAt == h.lastFrameAt
  {
    var s := Settle(Started(h, now), now);
    assert s.lastFrameAt == h.lastFrameAt;
    if s.session.phase == Live {
      LiveTickLeaves(s, now, beatOk, request);
    }
  }

  lemma LiveTickLeaves(h: Helper, now: Clock, beatOk: bool, request: RequestTry)
    ensures var t := LiveTick(h, now, beatOk, request);
            && t.lastFrameAt == h.lastFrameAt
            && t.presence.changedAt == h.presence.changedAt && t.presence.wokeAt == h.presence.wokeAt
  {
    if !Silent(h, now) {
      var a := AgeOut(h, now);
      assert a.lastFrameAt == h.lastFrameAt && a.presence == h.presence;
    }
  }

  /** When a sign of life last came, over a run. */
  function LastLife(h: Helper, fed: seq<(Input, Clock)>, before: Clock): Clock
    decreases |fed|
  {
    if fed == [] then before
    else LastLife(Next(h, fed[0].0, fed[0].1), fed[1..], if SignOfLife(h, fed[0].0) then fed[0].1 else before)
  }

  lemma {:induction false} LifeOverRun(h: Helper, fed: seq<(Input, Clock)>)
    ensures Fed(h, fed).lastFrameAt == LastLife(h, fed, h.lastFrameAt)
    decreases |fed|
  {
    if fed != [] {
      LifeIsRemembered(h, fed[0].0, fed[0].1);
      LifeOverRun(Next(h, fed[0].0, fed[0].1), fed[1..]);
    }
  }

  /** After any run, a tick ends a live session exactly when no sign of life has come for the whole of the silence allowed. */
  lemma SilenceSinceLife(boardKey: Option<nat>, fed: seq<(Input, Clock)>, now: Clock, beatOk: bool, request: RequestTry)
    requires AfterSeen(Init(boardKey), fed)
    ensures var h := Fed(Init(boardKey), fed);
            var t := Next(h, Ticks(beatOk, request), now);
            CanSendBulk(h) && h.presence.startedAt.Some? ==>
              if Since(now, LastLife(Init(boardKey), fed, 0)) >= ABSENT_MS then t.session == FORGOTTEN && !t.presence.holding
              else CanSendBulk(t) && t.session.key == h.session.key
  {
    LiveSessionHolds(Init(boardKey), fed);
    LifeOverRun(Init(boardKey), fed);
    var h := Fed(Init(boardKey), fed);
    if CanSendBulk(h) && h.presence.startedAt.Some? {
      SilenceEnds(h, now, beatOk, request);
    }
  }

  /** A frame whose tag fails ends the session, unless it is a clipboard chunk, which is only not used. */
  lemma BadTagEnds(h: Helper, chunk: bool, now: Clock)
    requires h.session.key.Some?
    ensures var t := Next(h, FrameArrives(TagFailed(chunk)), now);
            if chunk then t == Started(h, now)
            else t.session == FORGOTTEN && !t.presence.holding && t.deferred == Some(Deferred(AbsentState(h), now))
  {
  }

  /* ------------------------------------------------------------- readings age out */

  /** The rate is in one of the windows now. */
  predicate RateStands(r: Rings, now: Clock) {
    || (|r.drops| >= 4 && Since(now, r.drops[0]) <= RECONNECT_WINDOW_MS)
    || (|r.losses| >= 3 && Since(now, r.losses[0]) <= SESSION_LOSS_WINDOW_MS)
  }

  function ConnectedShown(h: Helper): Shown {
    if h.presence.configMode then ConnectedConfigMode else Connected
  }

  /** A session that is up shows the reconnect rate for just as long as it stands, and a listener for just the window the board named. */
  lemma ReadingsAge(h: Helper, now: Clock, beatOk: bool, request: RequestTry)
    requires SessionInv(h) && CanSendBulk(h) && Since(now, h.lastFrameAt) < ABSENT_MS
    ensures var t := Next(h, Ticks(beatOk, request), now);
            && (h.state == ReconnectingRepeatedly ==>
                  t.state == if RateStands(h.rings, now) then ReconnectingRepeatedly else ConnectedShown(h))
            && (h.state == ListenerDetected && h.session.alert.Some? ==>
                  t.state == if Since(now, h.session.alert.value.at) < h.session.alert.value.window
                             then ListenerDetected else ConnectedShown(h))
            && (h.state == Connected || h.state == ConnectedConfigMode ==> t.state == h.state)
  {
    var s := Settle(Started(h, now), now);
    assert s.session == h.session && s.state == h.state && s.rings == h.rings && s.lastFrameAt == h.lastFrameAt;
    assert s.presence.configMode == h.presence.configMode;
    AgedShows(s, now);
  }

  lemma AgedShows(h: Helper, now: Clock)
    requires CanSendBulk(h)
    ensures var a := AgeOut(h, now);
            && (h.state == ReconnectingRepeatedly ==>
                  a.state == if RateStands(h.rings, now) then ReconnectingRepeatedly else ConnectedShown(h))
            && (h.state == ListenerDetected && h.session.alert.Some? ==>
                  a.state == if Since(now, h.session.alert.value.at) < h.session.alert.value.window
                             then ListenerDetected else ConnectedShown(h))
            && (h.state == Connected || h.state == ConnectedConfigMode ==> a.state == h.state)
  {
  }

  /** The alert and the window it stands for are the last ones heard. */
  lemma AlertIsRemembered(h: Helper, window: Clock, now: Clock)
    requires h.session.key.Some?
    ensures var t := Next(h, FrameArrives(Good(AlertFrame(window))), now);
            t.session.alert == Some(Alert(now, window)) && t.session.key == h.session.key && t.session.phase == h.session.phase
  {
  }

  /* ---------------------------------------------------------------- what is a loss */

  /** The first thirty seconds after a change of identity or a waking. */
  predicate Within(since: Option<Clock>, now: Clock) {
    since.Some? && Since(now, since.value) < 30_000
  }

  /** A teardown that is one: of a connection there was, not of a computer asleep or just awake, and not the last one again. */
  predicate IsTeardown(h: Helper, now: Clock) {
    && (h.presence.holding || h.session.phase != Idle)
    && !h.presence.asleep && !Within(h.presence.wokeAt, now)
    && (h.rings.drops == [] || Since(now, Newest(h.rings.drops)) >= 500)
  }

  /**
    * A teardown goes into the short window exactly when it is one, and into the long one
    * exactly when besides it stands alone, the board did not end the session as unpaired,
    * and it is not the transport failing just after a change of identity.
    */
  lemma DropCountsExactly(h: Helper, now: Clock, why: Why)
    requires RingsOk(h.rings, now)
    ensures var r := Drop(h, now, why).rings;
            var alone := h.rings.drops == [] || Since(now, Newest(h.rings.drops)) > 30_000;
            && r.drops == (if IsTeardown(h, now) then Push(h.rings.drops, 4, now) else h.rings.drops)
            && r.losses == (if IsTeardown(h, now) && alone && why != BoardUnpaired
                               && !(why == TransportFailed && Within(h.presence.changedAt, now))
                            then Push(h.rings.losses, 3, now) else h.rings.losses)
  {
  }

  /** Which inputs are which teardown. */
  lemma TeardownsAre(h: Helper, now: Clock)
    ensures Next(h, StreamBreaks, now) == Drop(Started(h, now), now, OtherReason)
    ensures Next(h, TransportFails, now) == Drop(Started(h, now), now, TransportFailed)
    ensures h.session.key.Some? && h.session.phase != Idle ==>
              forall unpaired :: Next(h, FrameArrives(Good(SessionEnd(unpaired))), now).rings
                                 == Drop(h, now, if unpaired then BoardUnpaired else OtherReason).rings
  {
    forall unpaired | h.session.key.Some? && h.session.phase != Idle
      ensures Next(h, FrameArrives(Good(SessionEnd(unpaired))), now).rings
              == Drop(h, now, if unpaired then BoardUnpaired else OtherReason).rings
    {
      EndedIs(h, unpaired, now);
    }
  }

  lemma EndedIs(h: Helper, unpaired: bool, now: Clock)
    requires h.session.key.Some? && h.session.phase != Idle
    ensures Next(h, FrameArrives(Good(SessionEnd(unpaired))), now).rings
         == Drop(h, now, if unpaired then BoardUnpaired else OtherReason).rings
  {
    var why := if unpaired then BoardUnpaired else OtherReason;
    var s := Heard(Started(h, now), SessionEnd(unpaired), now);
    SameRings(h, s, now, why);
    assert Next(h, FrameArrives(Good(SessionEnd(unpaired))), now) == Drop(s, now, why);
  }

  lemma SameRings(a: Helper, b: Helper, now: Clock, why: Why)
    requires a.rings == b.rings && a.session.phase == b.session.phase && a.presence == b.presence.(startedAt := a.presence.startedAt)
    ensures Drop(a, now, why).rings == Drop(b, now, why).rings
  {
  }

  /** A grace is closed by the first tick past it, so that the clock's wrap cannot open it again, and stands until then. */
  lemma GraceCloses(h: Helper, now: Clock, beatOk: bool, request: RequestTry)
    ensures var p := Next(h, Ticks(beatOk, request), now).presence;
            && p.changedAt == (if Within(h.presence.changedAt, now) then h.presence.changedAt else None)
            && p.wokeAt == (if Within(h.presence.wokeAt, now) then h.presence.wokeAt else None)
  {
    SettledGrace(h, now);
    var s := Settle(Started(h, now), now);
    if s.session.phase == Live {
      LiveTickLeaves(s, now, beatOk, request);
    }
  }

  lemma SettledGrace(h: Helper, now: Clock)
    ensures var p := Settle(Started(h, now), now).presence;
            && p.changedAt == (if Within(h.presence.changedAt, now) then h.presence.changedAt else None)
            && p.wokeAt == (if Within(h.presence.wokeAt, now) then h.presence.wokeAt else None)
  {
  }

  /** And opened by what it is for. */
  lemma GraceOpens(h: Helper, which: Identity, now: Clock)
    ensures h.presence.asleep ==> Next(h, HostSleep(false), now).presence.wokeAt == Some(now)
    ensures h.presence.everSaw && h.presence.last != which && !(which == ConfigMode && h.presence.configMode && h.presence.holding)
            ==> Next(h, DeviceAppeared(which), now).presence.changedAt == Some(now)
                && Next(h, DeviceAppeared(which), now).rings.drops == []
  {
    AppearedIs(h, which, now);
  }

  /* --------------------------------------------------------- what else is kept */

  /** An input on which the helper sends something at once: a hello, a pair request, or whatever the platform reports sent. */
  predicate Sends(h: Helper, i: Input, now: Clock) {
    || i.FrameSent?
    || (i.ChannelsAcquired? && h.boardKey.Some?)
    || Requests(h, i, now)
    || (i.GrantArrives? && Takes(h, i.grant, i.hello))
  }

  /** The last time something was sent is remembered, and nothing else is. */
  lemma SendingIsRemembered(h: Helper, i: Input, now: Clock)
    ensures Next(h, i, now).lastSentAt == if Sends(h, i, now) then now else h.lastSentAt
  {
    match i {
      case DeviceAppeared(which) => AppearedSent(h, which, now);
      case Ticks(beatOk, request) => TickSent(h, now, beatOk, request);
      case FrameArrives(f) => FrameSentAt(Started(h, now), f, now);
      case _ =>
    }
  }

  lemma AppearedSent(h: Helper, which: Identity, now: Clock)
    ensures Appeared(h, which, now).lastSentAt == h.lastSentAt
  {
  }

  lemma FrameSentAt(h: Helper, f: Opened, now: Clock)
    ensures OnAuthenticated(h, f, now).lastSentAt == h.lastSentAt
  {
  }

  lemma TickSent(h: Helper, now: Clock, beatOk: bool, request: RequestTry)
    ensures Tick(h, now, beatOk, request).lastSentAt
         == if Requests(h, Ticks(beatOk, request), now) then now else h.lastSentAt
  {
    var s := Settle(Started(h, now), now);
    assert s.lastSentAt == h.lastSentAt;
    if s.session.phase == Live && !Silent(s, now) {
      var a := AgeOut(s, now);
      assert a.lastSentAt == s.lastSentAt && a.pairing == s.pairing;
    }
  }

  /** Whether the last hello went unanswered: one given up did, and an ack says that one did not. */
  lemma UnansweredIs(h: Helper, i: Input, now: Clock)
    requires SessionInv(h)
    ensures Next(h, i, now).hello.unanswered
         == if Says(h, i, now, TookAck) then false
            else if i.Ticks? && h.session.phase == AwaitingAck && Since(now, h.hello.sentAt) >= 2000 then true
            else h.hello.unanswered
  {
    match i {
      case DeviceAppeared(which) => AppearedHello(h, which, now);
      case Ticks(beatOk, request) => TickHello(h, now, beatOk, request);
      case FrameArrives(f) => FrameHello(Started(h, now), f, now);
      case _ =>
    }
  }

  lemma AppearedHello(h: Helper, which: Identity, now: Clock)
    ensures Appeared(h, which, now).hello == h.hello
  {
  }

  lemma FrameHello(h: Helper, f: Opened, now: Clock)
    ensures OnAuthenticated(h, f, now).hello == h.hello
  {
  }

  lemma TickHello(h: Helper, now: Clock, beatOk: bool, request: RequestTry)
    ensures Tick(h, now, beatOk, request).hello.unanswered
         == (h.hello.unanswered || (h.session.phase == AwaitingAck && Since(now, h.hello.sentAt) >= 2000))
  {
    var s := Settle(Started(h, now), now);
    assert s.hello == h.hello && s.session == h.session;
    if s.session.phase == Live {
      LiveTickHello(s, now, beatOk, request);
    }
  }

  lemma LiveTickHello(h: Helper, now: Clock, beatOk: bool, request: RequestTry)
    ensures LiveTick(h, now, beatOk, request).hello == h.hello
  {
    if !Silent(h, now) {
      assert AgeOut(h, now).hello == h.hello;
    }
  }

  /** An input after which the next retry is soon again: the device comes, or an end of the handshake other than a failure. */
  predicate Eases(h: Helper, i: Input, now: Clock) {
    || (i.DeviceAppeared? && !(i.which == ConfigMode && h.presence.configMode && h.presence.holding))
    || Says(h, i, now, NoKeyYet) || Says(h, i, now, SaidUnpaired) || Says(h, i, now, SaidVersion) || Says(h, i, now, TookAck)
  }

  /** The retry delay goes back to a quarter of a second then, and otherwise stays or doubles, up to four. */
  lemma BackoffMoves(h: Helper, i: Input, now: Clock)
    ensures var t := Next(h, i, now);
            if Eases(h, i, now) then t.backoff == 250
            else t.backoff == h.backoff || t.backoff == Least(2 * h.backoff, 4000)
  {
    match i {
      case DeviceAppeared(which) => AppearedBackoff(h, which, now);
      case Ticks(beatOk, request) => TickBackoff(h, now, beatOk, request);
      case FrameArrives(f) => FrameBackoff(Started(h, now), f, now);
      case _ =>
    }
  }

  lemma AppearedBackoff(h: Helper, which: Identity, now: Clock)
    ensures Appeared(h, which, now).backoff
         == if which == ConfigMode && h.presence.configMode && h.presence.holding then h.backoff else 250
  {
  }

  lemma FrameBackoff(h: Helper, f: Opened, now: Clock)
    ensures var b := OnAuthenticated(h, f, now).backoff; b == h.backoff || b == Least(2 * h.backoff, 4000)
  {
  }

  lemma TickBackoff(h: Helper, now: Clock, beatOk: bool, request: RequestTry)
    ensures var b := Tick(h, now, beatOk, request).backoff; b == h.backoff || b == Least(2 * h.backoff, 4000)
  {
    var s := Settle(Started(h, now), now);
    assert s.backoff == h.backoff;
    if s.session.phase == Live && !Silent(s, now) {
      assert AgeOut(s, now).backoff == s.backoff;
    }
  }

  /** A device that was never there is shown absent by the first tick five seconds after the helper started, and not before. */
  lemma NeverSeenIsShown(h: Helper, now: Clock, beatOk: bool, request: RequestTry)
    requires SessionInv(h) && !h.presence.everSaw && h.deferred.None? && h.presence.startedAt.Some?
    ensures Next(h, Ticks(beatOk, request), now).state
         == if Since(now, h.presence.startedAt.value) >= 5000 then DeviceAbsent else h.state
  {
  }

  /** The board's own beat is heard, and any other frame that authenticates stands in for one. */
  lemma BeatIsHeard(h: Helper, now: Clock)
    requires h.session.key.Some? && h.session.phase != Idle
    ensures Next(h, FrameArrives(Good(Beat)), now).session.beatAt == Some(now)
    ensures h.session.beatAt.Some? ==>
              var s := Next(h, FrameArrives(Good(Other)), now).session; s.beatAt == Some(now) && !s.beatQuiet
  {
  }

  /** And is held quiet by the first tick after it has been missing for the silence allowed. */
  lemma BeatGoesQuiet(h: Helper, now: Clock, beatOk: bool, request: RequestTry)
    requires SessionInv(h) && CanSendBulk(h) && Since(now, h.lastFrameAt) < ABSENT_MS && h.session.beatAt.Some?
    ensures Next(h, Ticks(beatOk, request), now).session.beatQuiet
       <==> h.session.beatQuiet || Since(now, h.session.beatAt.value) >= ABSENT_MS
  {
    var s := Settle(Started(h, now), now);
    assert s.lastFrameAt == h.lastFrameAt && s.session == h.session;
    QuietAges(s, now);
  }

  lemma QuietAges(h: Helper, now: Clock)
    ensures CanSendBulk(h) && h.session.beatAt.Some? ==>
              (AgeOut(h, now).session.beatQuiet <==> h.session.beatQuiet || Since(now, h.session.beatAt.value) >= ABSENT_MS)
  {
  }
}
