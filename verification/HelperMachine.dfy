/** The helper's machine, its fields updated in place by each input. */
module HelperMachine {
  import opened Basics
  import opened HelperCore

  class Machine {
    var state: Shown
    var session: Session
    var presence: Presence
    const recentDrops: array<Clock>
    var dropCount: nat
    const recentLosses: array<Clock>
    var lossCount: nat
    var deferred: Option<Deferred>
    var pairing: Pairing
    var hello: Hello
    var boardKey: Option<nat>
    var lastSentAt: Clock
    var lastFrameAt: Clock
    var backoff: nat
    var channels: nat

    ghost predicate Ok()
      reads this
    {
      && recentDrops != recentLosses
      && recentDrops.Length == RECONNECT_LIMIT && dropCount <= RECONNECT_LIMIT
      && recentLosses.Length == SESSION_LOSS_LIMIT && lossCount <= SESSION_LOSS_LIMIT
    }

    ghost function State(): Helper
      requires Ok()
      reads this, recentDrops, recentLosses
    {
      Helper(state, session, presence, Rings(recentDrops[..dropCount], recentLosses[..lossCount]),
                    deferred, pairing, hello, boardKey, lastSentAt, lastFrameAt, backoff, channels)
    }

    constructor (pinned: Option<nat>)
      ensures Ok() && fresh(recentDrops) && fresh(recentLosses)
      ensures State() == Init(pinned)
    {
      state, session, deferred := Quiet, FORGOTTEN, None;
      presence := Presence(false, false, false, Normal, None, false, None, None);
      recentDrops := new Clock[RECONNECT_LIMIT](_ => 0);
      recentLosses := new Clock[SESSION_LOSS_LIMIT](_ => 0);
      dropCount, lossCount := 0, 0;
      pairing, hello, boardKey := Pairing(None, 0), Hello(0, 0, false), pinned;
      lastSentAt, lastFrameAt, backoff, channels := 0, 0, BACKOFF_FIRST_MS, 0;
    }

    /** Append to a ring, moving the others down over the oldest when it is full. */
    static method PushTime(ring: array<Clock>, count: nat, now: Clock) returns (after: nat)
      requires 0 < ring.Length && count <= ring.Length
      modifies ring
      ensures after <= ring.Length && ring[..after] == Push(old(ring[..count]), ring.Length, now)
    {
      after := count;
      if after == ring.Length {
        for i := 0 to ring.Length - 1
          invariant forall k :: 0 <= k < i ==> ring[k] == old(ring[k + 1])
          invariant forall k :: i <= k < ring.Length ==> ring[k] == old(ring[k])
        {
          ring[i] := ring[i + 1];
        }
        after := after - 1;
        assert ring[..after] == old(ring[..count])[1..];
      }
      ring[after] := now;
      after := after + 1;
    }

    method NoteStarted(now: Clock)
      requires Ok()
      modifies this`presence
      ensures Ok() && State() == Started(old(State()), now)
    {
      if presence.startedAt.None? {
        presence := presence.(startedAt := Some(now));
      }
    }

    method CountDrop(now: Clock) returns (counted: bool)
      requires Ok()
      modifies this`dropCount, recentDrops
      ensures Ok() && State() == RecordDrop(old(State()), now) && counted == Counts(old(State()), now)
    {
      if presence.asleep || (presence.wokeAt.Some? && !Elapsed(now, presence.wokeAt.value, RECONNECT_WINDOW_MS)) {
        return false;
      }
      if !presence.holding && session.phase == Idle {
        return false;
      }
      if dropCount > 0 && Since(now, recentDrops[dropCount - 1]) < DROP_DEBOUNCE_MS {
        return false;
      }
      dropCount := PushTime(recentDrops, dropCount, now);
      return true;
    }

    method IsReconnecting(now: Clock) returns (repeatedly: bool)
      requires Ok()
      ensures repeatedly == Reconnecting(State().rings, now)
    {
      repeatedly := (dropCount >= RECONNECT_LIMIT && Since(now, recentDrops[0]) <= RECONNECT_WINDOW_MS)
                    || (lossCount >= SESSION_LOSS_LIMIT && Since(now, recentLosses[0]) <= SESSION_LOSS_WINDOW_MS);
    }

    /** Both rings take a teardown, each on its own terms. */
    method CountTeardown(now: Clock, why: Why)
      requires Ok()
      modifies this`dropCount, this`lossCount, recentDrops, recentLosses
      ensures Ok()
      ensures var h := old(State());
              var r := RecordDrop(h, now).rings;
              State() == h.(rings := if AddsLoss(h, why, now)
                                     then r.(losses := Push(r.losses, SESSION_LOSS_LIMIT, now)) else r)
    {
      var alone := dropCount == 0 || Since(now, recentDrops[dropCount - 1]) > RECONNECT_WINDOW_MS;
      var counted := CountDrop(now);
      if counted && alone && !OnPurposeNow(why, now) {
        lossCount := PushTime(recentLosses, lossCount, now);
      }
    }

    function OnPurposeNow(why: Why, now: Clock): bool
      reads this
    {
      why == BoardUnpaired
      || (why == TransportFailed && presence.changedAt.Some?
          && !Elapsed(now, presence.changedAt.value, RECONNECT_WINDOW_MS))
    }

    method DropConnection(now: Clock, why: Why)
      requires Ok()
      modifies this, recentDrops, recentLosses
      ensures Ok() && State() == Drop(old(State()), now, why)
    {
      CountTeardown(now, why);
      ghost var counted := State();
      session := FORGOTTEN;
      presence := presence.(holding := false);
      deferred := Some(Deferred(if presence.configMode then DeviceInConfigMode else DeviceAbsent, now));
      var repeatedly := IsReconnecting(now);
      if (state == Connected || state == ConnectedConfigMode || state == Quiet) && repeatedly {
        state := ReconnectingRepeatedly;
      }
      backoff := NextBackoff(backoff);
      assert State().rings == counted.rings;
    }

    method DeviceLeft(reason: Shown, now: Clock)
      requires Ok()
      modifies this, recentDrops
      ensures Ok() && State() == Left(old(State()), reason, now)
    {
      var _ := CountDrop(now);
      lossCount := 0;
      session := FORGOTTEN;
      deferred := Some(Deferred(reason, now));
      if presence.holding {
        presence := presence.(holding := false);
      }
    }

    method ChangeMode(which: Identity, changed: bool, now: Clock)
      requires Ok()
      modifies this`presence, this`dropCount
      ensures Ok() && State() == SetMode(old(State()), which, changed, now)
    {
      presence := presence.(configMode := which == ConfigMode);
      if changed {
        dropCount := 0;
        presence := presence.(changedAt := Some(now));
      }
    }

    method OpenChannels(which: Identity)
      requires Ok()
      modifies this`backoff, this`deferred, this`state
      ensures Ok() && State() == Welcome(old(State()), which)
    {
      backoff := BACKOFF_FIRST_MS;
      if which == ConfigMode {
        return;
      }
      deferred := None;
      if state == DeviceAbsent || state == DeviceInConfigMode || state == ConnectedConfigMode {
        state := Quiet;
      }
    }

    method DeviceAppears(which: Identity, now: Clock)
      requires Ok()
      modifies this, recentDrops
      ensures Ok() && State() == Appeared(old(State()), which, now)
    {
      NoteStarted(now);
      var changed := presence.everSaw && presence.last != which;
      presence := presence.(everSaw := true, last := which);
      if which == ConfigMode && presence.configMode && presence.holding {
        return;
      }
      if which == ConfigMode || presence.configMode {
        DeviceLeft(DeviceInConfigMode, now);
      }
      ChangeMode(which, changed, now);
      OpenChannels(which);
    }

    method DeviceDisappears(now: Clock)
      requires Ok()
      modifies this, recentDrops
      ensures Ok() && State() == Disappeared(old(State()), now)
    {
      NoteStarted(now);
      DeviceLeft(DeviceAbsent, now);
      presence := presence.(configMode := false);
    }

    method MakeRequest(t: RequestTry, now: Clock)
      requires Ok()
      modifies this`pairing, this`lastSentAt
      ensures Ok() && State() == BuildRequest(old(State()), t, now)
    {
      if !t.ok {
        return;
      }
      pairing := Pairing(Some(now), t.correlation);
      lastSentAt := now;
    }

    method RefuseAcquisition(now: Clock)
      requires Ok()
      modifies this
      ensures Ok() && State() == AcquisitionRefused(old(State()), now)
    {
      NoteStarted(now);
      session := FORGOTTEN;
      presence := presence.(holding := false);
      if deferred.None? {
        deferred := Some(Deferred(if presence.configMode then DeviceInConfigMode else DeviceAbsent, now));
      }
      backoff := NextBackoff(backoff);
    }

    method AskToBePaired(now: Clock, request: RequestTry)
      requires Ok()
      modifies this
      ensures Ok() && State() == AskUnpaired(old(State()), now, request)
    {
      backoff := BACKOFF_FIRST_MS;
      deferred := None;
      session := session.(phase := Live);
      state := NotPaired;
      MakeRequest(request, now);
    }

    method Greet(now: Clock, greeting: HelloTry, request: RequestTry)
      requires Ok()
      modifies this
      ensures Ok() && State() == SayHello(old(State()), now, greeting, request)
    {
      session := session.(phase := AwaitingAck, nonce := Some(greeting.nonce));
      hello := hello.(sentAt := now, correlation := greeting.correlation);
      lastSentAt := now;
      if !greeting.ok {
        RefuseAcquisition(now);
        return;
      }
      deferred := None;
      if state == ReconnectingRepeatedly && hello.unanswered {
        MakeRequest(request, now);
      }
    }

    method AcquireChannels(count: nat, now: Clock, greeting: HelloTry, request: RequestTry)
      requires Ok()
      modifies this
      ensures Ok() && State() == Acquired(old(State()), count, now, greeting, request)
    {
      session := FORGOTTEN;
      channels := count;
      NoteStarted(now);
      presence := presence.(holding := true);
      lastFrameAt := now;
      assert State().rings == old(State()).rings;
      if boardKey.None? {
        AskToBePaired(now, request);
      } else {
        Greet(now, greeting, request);
      }
    }

    method TakeAck(ack: Ack, now: Clock)
      requires Ok()
      modifies this, recentDrops, recentLosses
      ensures Ok() && State() == OnAck(old(State()), ack, now)
    {
      if session.phase != AwaitingAck {
        return;
      }
      if boardKey.None? || session.nonce.None? || ack.AckBad? {
        DropConnection(now, OtherReason);
        return;
      }
      if ack.correlation != hello.correlation {
        return;
      }
      if ack.channels == 0 || ack.channels > CHANNELS || ack.channels > channels {
        DropConnection(now, OtherReason);
        return;
      }
      var repeatedly := IsReconnecting(now);
      session := session.(key := Some(SessionKey(boardKey.value, session.nonce.value, ack.boardNonce)),
                          counter := 0, phase := Live, negotiated := true);
      backoff := BACKOFF_FIRST_MS;
      lastFrameAt := now;
      hello := hello.(unanswered := false);
      state := if repeatedly then ReconnectingRepeatedly
               else if presence.configMode then ConnectedConfigMode else Connected;
    }

    method TakeGrant(g: Grant, greeting: HelloTry, now: Clock) returns (store: Option<nat>)
      requires Ok()
      modifies this
      ensures Ok() && State() == OnGrant(old(State()), g, greeting, now)
      ensures store == if Takes(old(State()), g, greeting) then Some(g.board) else None
    {
      if session.phase == Idle || pairing.requestedAt.None? || g.GrantBad? || g.correlation != pairing.correlation {
        return None;
      }
      if boardKey.Some? && boardKey.value != g.board {
        pairing := pairing.(requestedAt := None);
        state := BoardIdentityChanged;
        return None;
      }
      session := session.(nonce := Some(greeting.nonce));
      hello := hello.(correlation := greeting.correlation);
      if !greeting.ok {
        return None;
      }
      boardKey := Some(g.board);
      pairing := pairing.(requestedAt := None);
      hello := hello.(sentAt := now);
      lastSentAt := now;
      session := session.(phase := AwaitingAck);
      return Some(g.board);
    }

    method TakeRefusal(r: Refusal, now: Clock)
      requires Ok()
      modifies this, recentDrops, recentLosses
      ensures Ok() && State() == OnHelloRefused(old(State()), r, now)
    {
      if session.phase != AwaitingAck {
        return;
      }
      if r.RefusalBad? {
        DropConnection(now, OtherReason);
        return;
      }
      if r.correlation != hello.correlation {
        return;
      }
      backoff := BACKOFF_FIRST_MS;
      session := FORGOTTEN;
      if r.RefusalUnpaired? {
        session := session.(phase := Live);
        pairing := pairing.(requestedAt := None);
        state := NotPaired;
        return;
      }
      state := VersionIncompatible;
    }

    /** What an authenticated frame says, once it has proved the board alive. */
    method TakeContent(content: Content, now: Clock)
      requires Ok()
      modifies this, recentDrops, recentLosses
      ensures Ok() && State() == OnContent(old(State()), content, now)
    {
      match content {
        case SessionEnd(unpaired) =>
          if session.phase != Idle {
            DropConnection(now, if unpaired then BoardUnpaired else OtherReason);
          }
        case Beat =>
          if session.phase != Idle {
            session := session.(beatAt := Some(now), beatQuiet := session.beatAt.None? && session.beatQuiet);
          }
        case AlertFrame(window) =>
          session := session.(alert := Some(Alert(now, window)));
          state := ListenerDetected;
        case Other =>
      }
    }

    method TakeFrame(f: Opened, now: Clock)
      requires Ok()
      modifies this, recentDrops, recentLosses
      ensures Ok() && State() == OnAuthenticated(old(State()), f, now)
    {
      if session.key.None? {
        return;
      }
      match f {
        case TagFailed(chunk) =>
          if !chunk {
            DropConnection(now, OtherReason);
          }
        case Refused =>
        case Good(content) =>
          lastFrameAt := now;
          if session.beatAt.Some? && !content.Beat? {
            session := session.(beatAt := Some(now), beatQuiet := false);
          }
          TakeContent(content, now);
      }
    }

    method ClosePast(now: Clock)
      requires Ok()
      modifies this`presence
      ensures Ok() && State() == old(State()).(presence := CloseWindows(old(presence), now))
    {
      if presence.changedAt.Some? && Elapsed(now, presence.changedAt.value, RECONNECT_WINDOW_MS) {
        presence := presence.(changedAt := None);
      }
      if presence.wokeAt.Some? && Elapsed(now, presence.wokeAt.value, RECONNECT_WINDOW_MS) {
        presence := presence.(wokeAt := None);
      }
    }

    method ShowHeldBack(now: Clock)
      requires Ok()
      modifies this`deferred, this`state
      ensures Ok() && State() == ShowDeferred(old(State()), now)
    {
      if deferred.Some? {
        if Elapsed(now, deferred.value.at, SILENCE_MS) {
          state := deferred.value.state;
          deferred := None;
        }
      } else if !presence.everSaw && presence.startedAt.Some? && Elapsed(now, presence.startedAt.value, SILENCE_MS) {
        state := DeviceAbsent;
      }
    }

    method AgeReadings(now: Clock)
      requires Ok()
      modifies this`state, this`session
      ensures Ok() && State() == AgeOut(old(State()), now)
    {
      var repeatedly := IsReconnecting(now);
      if state == ReconnectingRepeatedly && session.negotiated && !repeatedly {
        state := if presence.configMode then ConnectedConfigMode else Connected;
      }
      if state == ListenerDetected && session.negotiated && session.alert.Some?
         && Elapsed(now, session.alert.value.at, session.alert.value.window) {
        session := session.(alert := None);
        state := if presence.configMode then ConnectedConfigMode else Connected;
      }
      if session.negotiated && session.beatAt.Some? && !session.beatQuiet
         && Elapsed(now, session.beatAt.value, ABSENT_MS) {
        session := session.(beatQuiet := true);
      }
    }

    method TickLive(now: Clock, beatOk: bool, request: RequestTry)
      requires Ok()
      modifies this, recentDrops, recentLosses
      ensures Ok() && State() == LiveTick(old(State()), now, beatOk, request)
    {
      if session.negotiated && Elapsed(now, lastFrameAt, ABSENT_MS) {
        DropConnection(now, OtherReason);
        return;
      }
      AgeReadings(now);
      if session.key.Some? && Elapsed(now, lastSentAt, HEARTBEAT_MS) && beatOk {
        session := session.(counter := (session.counter + 1) % 0x1_0000_0000_0000_0000);
      }
      if state == NotPaired
         && (pairing.requestedAt.None? || Elapsed(now, pairing.requestedAt.value, PAIRING_RETRY_MS)) {
        MakeRequest(request, now);
      }
    }

    method TickOnce(now: Clock, beatOk: bool, request: RequestTry)
      requires Ok()
      modifies this, recentDrops, recentLosses
      ensures Ok() && State() == Tick(old(State()), now, beatOk, request)
    {
      NoteStarted(now);
      ClosePast(now);
      ShowHeldBack(now);
      if session.phase == AwaitingAck {
        if Elapsed(now, hello.sentAt, HELLO_TIMEOUT_MS) {
          hello := hello.(unanswered := true);
          DropConnection(now, OtherReason);
        }
        return;
      }
      if session.phase == Live {
        TickLive(now, beatOk, request);
      }
    }

    method EmitOne(ok: bool) returns (counter: Option<nat>)
      requires Ok()
      modifies this`session
      ensures Ok() && State() == Emit(old(State()), ok)
      ensures counter == if Emits(old(State()), ok) then Some(old(session).counter) else None
    {
      if !(session.phase == Live && session.negotiated) || session.key.None? || !ok {
        return None;
      }
      counter := Some(session.counter);
      session := session.(counter := (session.counter + 1) % 0x1_0000_0000_0000_0000);
    }
  }
}
