/** The cursor state as the firmware keeps it: fields and an array, updated in place. */
module CrossingMachine {
  import opened Basics
  import opened Crossing

  class CursorState {
    const cfg: Config
    var active: nat
    const index: array<nat>
    var relative: bool
    var x: int
    var y: int
    var buttons: bool
    var locked: bool
    var boot: bool
    var pending: Pending
    var nextId: Byte
    ghost var core1: Core1
    ghost var acc: Account

    ghost predicate Ok()
      reads this, index
    {
      Sound(cfg) && index.Length == 2 && active < 2 && |acc.indexBy| == 2
      && (core1.Choosing? || core1.Moding? ==> core1.sel.output < 2)
    }

    /** Between the locked sections of core 0. */
    ghost function State(): World
      requires Ok()
      reads this, index
    {
      World(Desk(active, index[..], relative, x, y, buttons, locked, boot), pending, nextId, Off, core1, acc)
    }

    constructor (c: Config)
      requires Sound(c)
      ensures Ok() && cfg == c && State() == START && fresh(index)
    {
      cfg := c;
      active, relative, x, y, buttons, locked, boot := 0, false, 0, 0, false, false, false;
      pending, nextId, core1, acc := CLEARED, 0, Rest, START.acc;
      index := new nat[2](_ => 1);
    }

    /** A guard and two stores. */
    method SelectScreen(output: nat, screen: nat) returns (ok: bool)
      requires Ok()
      modifies this`relative, this`acc, index
      ensures Ok() && ok == Selectable(cfg, old(State()).desk, Sel(output, screen))
      ensures var w, s := old(State()), Sel(output, screen);
              State() == if ok then Selected(cfg, w.(acc := Issue(w.acc, s)), |w.acc.sels|, s) else w
    {
      if output >= 2 || output != active || screen == 0 || screen > cfg.outputs[output].count {
        return false;
      }
      ghost var was := index[..];
      index[output] := screen;
      assert index[..] == was[output := screen];
      relative := cfg.outputs[output].os == Windows && screen > 1;
      acc := acc.(sels := acc.sels + [Sel(output, screen)], indexBy := acc.indexBy[output := |acc.sels|], modeBy := |acc.sels|);
      return true;
    }

    method ApplyPosition(output: nat, screen: nat, px: int, py: int, id: Byte) returns (applied: bool)
      requires Ok()
      modifies this, index
      ensures Ok() && State() == Apply(cfg, old(State()), Sel(output, screen), px, py, id)
      ensures applied == Applies(cfg, old(State()), Sel(output, screen), px, py, id)
    {
      if output >= 2 {
        return false;
      }
      if (pending.phase == Waiting && (id == 0 || pending.output != output || pending.id != id))
         || (id != 0 && pending.phase != Waiting) {
        return false;
      }
      if id != 0 && pending.kind == MacPlacement && (screen != pending.target || !cfg.confirms(pending, px, py)) {
        return false;
      }
      if id == 0 && screen != index[output] {
        return false;
      }
      applied := SelectScreen(output, screen);
      if applied {
        x := px;
        y := py;
        pending := Answered(cfg, pending, Sel(output, screen), px, py);
      }
    }

    /** Record a query before it is sent. */
    method BeginQuery(kind: Kind, d: Direction, target: nat, position: nat, now: Clock, ghost pc: Core1)
      requires Ok() && !pc.Choosing? && !pc.Moding?
      modifies this
      ensures Ok() && State() == Begin(old(State()), kind, d, target, position, now, pc)
    {
      nextId := (nextId + 1) % 256;
      if nextId == 0 {
        nextId := nextId + 1;
      }
      pending := Pending(Waiting, kind, d, active, nextId, target, position, false, now);
      core1, acc := pc, acc.(starts := 1, begun := index[active]);
    }

    method QueryUnavailable(output: nat, id: Byte)
      requires Ok()
      modifies this`pending
      ensures Ok() && State() == Unavailable(old(State()), output, id)
    {
      if pending.phase == Waiting && pending.output == output && pending.id == id {
        pending := pending.(phase := Fallback);
      }
    }

    /** A task pass up to its retry. */
    method StartPass(now: Clock) returns (retry: bool)
      requires Ok()
      modifies this
      ensures Ok() && State() == PassStart(old(State()), now)
      ensures retry ==> State() == old(State()).(core1 := Retrying(old(pending).output, old(pending).id, now))
    {
      if pending.phase == Idle {
        return false;
      }
      if active != pending.output || (pending.kind == SourceReanchor && buttons) || locked
         || pending.phase == Cancelled {
        pending := CLEARED;
        return false;
      }
      if pending.phase == Waiting && Asks(pending.kind) && !pending.sent {
        core1 := Retrying(pending.output, pending.id, now);
        return true;
      }
      EndPass(now);
      return false;
    }

    /** The rest of a pass once the retry has a reply. */
    method RetryPass(output: nat, id: Byte, now: Clock, reply: Reply)
      requires Ok() && core1 == Retrying(output, id, now)
      modifies this
      ensures Ok() && State() == PassRetry(old(State()), reply)
    {
      if pending.phase != Waiting || !Asks(pending.kind) || pending.output != output || pending.id != id {
        core1 := Rest;
        return;
      }
      if reply == ReplySent {
        pending := pending.(sent := true, started := now);
        acc := acc.(starts := acc.starts + 1);
      } else if reply == ReplyUnavailable {
        pending := pending.(phase := Fallback);
      }
      EndPass(now);
    }

    method EndPass(now: Clock)
      requires Ok()
      modifies this
      ensures Ok() && State() == PassEnd(old(State()), now)
    {
      var timedOut := false;
      if pending.phase == Waiting && Since(now, pending.started) >= TIMEOUT_US {
        pending := pending.(phase := Fallback);
        timedOut := true;
      }
      if pending.phase == Waiting {
        core1 := Rest;
        return;
      }
      if pending.kind == MacPlacement && pending.phase == Reanchored {
        pending := CLEARED;
        core1 := Rest;
        return;
      }
      core1 := if pending.kind == MacPlacement then Falling(pending.direction, pending.target)
               else if pending.kind == ChainReanchor && timedOut then Rest
               else Resuming(pending.direction);
      pending := CLEARED;
    }
  }
}
