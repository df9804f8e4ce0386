/**
  * The authenticated frame's counter: a sliding anti-replay window in one 64-bit
  * mask, and what it stands for, the set of every counter ever accepted.
  */
module ReplayWindow {
  import opened Basics
  import opened Frame

  const U64 := 0x1_0000_0000_0000_0000
  const WINDOW := 64

  type Counter = n: int | 0 <= n < U64

  /* -------------------------------------------------- bits of a 64-bit word */

  predicate Bit(n: nat, k: nat) {
    if k == 0 then n % 2 == 1 else Bit(n / 2, k - 1)
  }

  /** Bits all the way: shifting left without a width. */
  function ShiftLeft(n: nat, s: nat): nat {
    if s == 0 then n else 2 * ShiftLeft(n, s - 1)
  }

  /** OR with the word whose only bit is bit `k`. */
  function OrBit(n: nat, k: nat): nat {
    if k == 0 then (if n % 2 == 1 then n else n + 1) else 2 * OrBit(n / 2, k - 1) + n % 2
  }

  lemma Pow2Word()
    ensures Pow2(64) == U64
  {
    assert Pow2(8) == 256;
    assert Pow2(16) == 65536 by { assert Pow2(12) == 4096; }
    assert Pow2(24) == 0x100_0000 by { assert Pow2(20) == 0x10_0000; }
    assert Pow2(32) == 0x1_0000_0000 by { assert Pow2(28) == 0x1000_0000; }
    assert Pow2(40) == 0x100_0000_0000 by { assert Pow2(36) == 0x10_0000_0000; }
    assert Pow2(48) == 0x1_0000_0000_0000 by { assert Pow2(44) == 0x1000_0000_0000; }
    assert Pow2(56) == 0x100_0000_0000_0000 by { assert Pow2(52) == 0x10_0000_0000_0000; }
    assert Pow2(60) == 0x1000_0000_0000_0000;
  }

  lemma {:induction false} BitOfShift(n: nat, s: nat, k: nat)
    ensures Bit(ShiftLeft(n, s), k) <==> k >= s && Bit(n, k - s)
    decreases s
  {
    if s > 0 && k > 0 {
      BitOfShift(n, s - 1, k - 1);
    }
  }

  lemma {:induction false} BitOfOr(n: nat, d: nat, k: nat)
    ensures Bit(OrBit(n, d), k) <==> k == d || Bit(n, k)
    decreases d
  {
    if d > 0 && k > 0 {
      BitOfOr(n / 2, d - 1, k - 1);
    }
  }

  lemma HalfOfLow(n: nat, p: nat)
    requires p > 0
    ensures (n % (2 * p)) / 2 == (n / 2) % p && (n % (2 * p)) % 2 == n % 2
  {
    var q, r := n / (2 * p), n % (2 * p);
    assert n == 2 * (q * p) + r by { assert (2 * p) * q == 2 * (q * p); }
    assert n / 2 == q * p + r / 2;
    ModOf(n / 2, q, p, r / 2);
  }

  lemma ModOf(n: nat, q: nat, p: nat, r: nat)
    requires p > 0 && n == q * p + r && r < p
    ensures n % p == r
  {
    var d: int, m: int := n / p - q, p;
    assert n == m * (n / p) + n % p;
    assert m * (n / p) - q * m == m * d;
    assert d >= 1 ==> m * d >= m;
    assert d <= -1 ==> m * d <= -m;
  }

  lemma {:induction false} BitOfLow(n: nat, w: nat, k: nat)
    requires k < w
    ensures Bit(n % Pow2(w), k) <==> Bit(n, k)
    decreases w
  {
    HalfOfLow(n, Pow2(w - 1));
    if k > 0 {
      BitOfLow(n / 2, w - 1, k - 1);
    }
  }

  lemma {:induction false} OrBound(n: nat, d: nat, w: nat)
    requires d < w && n < Pow2(w)
    ensures OrBit(n, d) < Pow2(w)
    decreases d
  {
    var half := Pow2(w - 1);
    assert Pow2(w) == 2 * half;
    if d > 0 {
      OrBound(n / 2, d - 1, w - 1);
      assert OrBit(n / 2, d - 1) < half;
    }
  }

  /** A 64-bit shift left drops what leaves the word. */
  function ShiftWord(n: Counter, s: nat): Counter {
    ShiftLeft(n, s) % U64
  }

  /** The window slid forward by a jump, with the new highest marked. */
  function Slide(seen: Counter, shift: nat): (r: Counter)
    requires 0 < shift
  {
    if shift >= WINDOW then 1
    else
      Pow2Word();
      OrBound(ShiftWord(seen, shift), 0, 64);
      OrBit(ShiftWord(seen, shift), 0)
  }

  lemma BitOfSlide(seen: Counter, shift: nat, k: nat)
    requires 0 < shift && k < WINDOW
    ensures Bit(Slide(seen, shift), k) <==> k == 0 || (k >= shift && Bit(seen, k - shift))
  {
    Pow2Word();
    if shift >= WINDOW {
      OnlyLowBit(k);
    } else {
      BitOfOr(ShiftWord(seen, shift), 0, k);
      BitOfLow(ShiftLeft(seen, shift), 64, k);
      BitOfShift(seen, shift, k);
    }
  }

  lemma {:induction false} NoBits(k: nat)
    ensures !Bit(0, k)
  {
    if k > 0 {
      NoBits(k - 1);
    }
  }

  lemma OnlyLowBit(k: nat)
    ensures Bit(1, k) <==> k == 0
  {
    if k > 0 {
      NoBits(k - 1);
    }
  }

  /* ------------------------------------------------------------ the window */

  datatype Window = Window(highest: Counter, seen: Counter, accepted: Counter, any: bool)

  const UNUSED := Window(0, 0, 0, false)

  /** Would this counter be accepted? */
  predicate Acceptable(w: Window, c: Counter) {
    if !w.any then true
    else if c > w.highest then true
    else if w.highest - c >= WINDOW then false
    else !Bit(w.seen, w.highest - c)
  }

  function Increment(n: Counter): Counter {
    (n + 1) % U64
  }

  function Accept(w: Window, c: Counter): Window {
    if !w.any then Window(c, 1, 1, true)
    else if c > w.highest then Window(c, Slide(w.seen, c - w.highest), Increment(w.accepted), true)
    else if w.highest - c < WINDOW then
      Pow2Word();
      OrBound(w.seen, w.highest - c, 64);
      w.(seen := OrBit(w.seen, w.highest - c), accepted := Increment(w.accepted))
    else w
  }

  function Built(w: Window): Counter {
    if w.any then Increment(w.highest) else 0
  }

  function Missed(w: Window): Counter {
    if Built(w) > w.accepted then Built(w) - w.accepted else 0
  }

  /* ------------------------------------------------- the set it stands for */

  /** The window is an account of the set of counters accepted. */
  ghost predicate Represents(w: Window, accepted: set<Counter>) {
    && (w.any <==> accepted != {})
    && (!w.any ==> w == UNUSED)
    && (w.any ==> w.highest in accepted && forall c :: c in accepted ==> c <= w.highest)
    && (w.any ==> forall k :: 0 <= k < WINDOW ==>
          (Bit(w.seen, k) <==> k <= w.highest && (w.highest - k) in accepted))
    && w.accepted == |accepted| % U64
  }

  /** Acceptance decided on the set alone. */
  ghost predicate Fresh(accepted: set<Counter>, highest: Counter, c: Counter) {
    accepted == {} || c > highest || (highest - c < 64 && c !in accepted)
  }

  /**
    * The mask decides exactly what the set would: nothing is accepted twice, and
    * a counter not seen and fewer than 64 behind is always accepted.
    */
  lemma AcceptableIsFresh(w: Window, accepted: set<Counter>, c: Counter)
    requires Represents(w, accepted)
    ensures Acceptable(w, c) <==> Fresh(accepted, w.highest, c)
    ensures c in accepted ==> !Acceptable(w, c)
    ensures c !in accepted && (w.any ==> w.highest - c < 64) ==> Acceptable(w, c)
  {
    if w.any && 0 <= w.highest - c < WINDOW {
      assert Bit(w.seen, w.highest - c) <==> (w.highest - (w.highest - c)) in accepted;
    }
  }

  lemma SizeAfter(accepted: set<Counter>, c: Counter)
    requires c !in accepted
    ensures |accepted + {c}| % U64 == (|accepted| % U64 + 1) % U64
  {
    assert |accepted + {c}| == |accepted| + 1;
  }

  lemma AcceptAhead(w: Window, accepted: set<Counter>, c: Counter)
    requires Represents(w, accepted) && w.any && c > w.highest
    ensures Represents(Accept(w, c), accepted + {c})
  {
    var shift := c - w.highest;
    var after := accepted + {c};
    forall k | 0 <= k < WINDOW
      ensures Bit(Accept(w, c).seen, k) <==> k <= c && (c - k) in after
    {
      BitOfSlide(w.seen, shift, k);
      if k >= shift {
        assert Bit(w.seen, k - shift) <==> k - shift <= w.highest && (w.highest - (k - shift)) in accepted;
        assert c - k == w.highest - (k - shift);
      } else if 0 < k {
        assert c - k > w.highest;
      }
    }
    SizeAfter(accepted, c);
  }

  lemma AcceptBehind(w: Window, accepted: set<Counter>, c: Counter)
    requires Represents(w, accepted) && w.any && c !in accepted
    requires 0 <= w.highest - c < WINDOW
    ensures Represents(Accept(w, c), accepted + {c})
  {
    var after := accepted + {c};
    forall k | 0 <= k < WINDOW
      ensures Bit(Accept(w, c).seen, k) <==> k <= w.highest && (w.highest - k) in after
    {
      BitOfOr(w.seen, w.highest - c, k);
      assert Bit(w.seen, k) <==> k <= w.highest && (w.highest - k) in accepted;
    }
    SizeAfter(accepted, c);
  }

  /** Recording an acceptable counter adds exactly it to the set. */
  lemma AcceptAdds(w: Window, accepted: set<Counter>, c: Counter)
    requires Represents(w, accepted) && Acceptable(w, c)
    ensures c !in accepted
    ensures Represents(Accept(w, c), accepted + {c})
  {
    AcceptableIsFresh(w, accepted, c);
    if !w.any {
      forall k | 0 <= k < WINDOW
        ensures Bit(1, k) <==> k <= c && (c - k) in accepted + {c}
      {
        OnlyLowBit(k);
      }
      SizeAfter(accepted, c);
    } else if c > w.highest {
      AcceptAhead(w, accepted, c);
    } else {
      AcceptBehind(w, accepted, c);
    }
  }

  /* ------------------------------------------------------ what went missing */

  /** The counters up to the highest that never arrived. */
  ghost function Gaps(accepted: set<Counter>, highest: Counter): set<Counter> {
    UpTo(highest) - accepted
  }

  ghost function UpTo(n: Counter): (s: set<Counter>)
    ensures forall c: Counter :: c in s <==> c <= n
    ensures |s| == n + 1
  {
    if n == 0 then {0}
    else
      var s := UpTo(n - 1);
      assert n !in s;
      s + {n}
  }

  /**
    * `missed` is the number of gaps below the highest counter accepted, and
    * reads zero at the very top of the counter space, where the count of frames
    * built turns over; so it is right there exactly when nothing is missing.
    */
  lemma MissedIsGaps(w: Window, accepted: set<Counter>)
    requires Represents(w, accepted) && w.any
    ensures w.highest < U64 - 1 ==> Missed(w) == |Gaps(accepted, w.highest)| && w.accepted == |accepted|
    ensures w.highest == U64 - 1 ==> Missed(w) == 0
    ensures Missed(w) == |Gaps(accepted, w.highest)| <==> w.highest < U64 - 1 || |accepted| == U64
  {
    var all := UpTo(w.highest);
    assert accepted <= all;
    assert all == accepted + Gaps(accepted, w.highest);
    assert |all| == |accepted| + |Gaps(accepted, w.highest)|;
  }

  /* ---------------------------------------------------- authenticated frames */

  const COUNTER_SIZE := 8
  const TAG_SIZE := 16
  const PREFIX_SIZE := 24

  /** The tag under one key: of the header as it is on the wire, the counter and the body. */
  type TagOf = (Byte, Byte, nat, Counter, seq<Byte>) -> seq<Byte>

  ghost predicate TagsAreWhole(tag: TagOf) {
    forall kind, flags, len, c, body :: |tag(kind, flags, len, c, body)| == TAG_SIZE
  }

  function LittleEndian(n: nat, size: nat): (s: seq<Byte>)
    ensures |s| == size
  {
    if size == 0 then [] else [n % 256] + LittleEndian(n / 256, size - 1)
  }

  function FromLittleEndian(s: seq<Byte>): nat {
    if s == [] then 0 else s[0] + 256 * FromLittleEndian(s[1..])
  }

  function Pow256(size: nat): (p: nat)
    ensures p > 0
  {
    if size == 0 then 1 else 256 * Pow256(size - 1)
  }

  lemma {:induction false} LittleEndianReads(n: nat, size: nat)
    requires n < Pow256(size)
    ensures FromLittleEndian(LittleEndian(n, size)) == n
    decreases size
  {
    if size > 0 {
      LittleEndianReads(n / 256, size - 1);
      assert LittleEndian(n, size)[1..] == LittleEndian(n / 256, size - 1);
    }
  }

  lemma {:induction false} FromLittleEndianBound(s: seq<Byte>)
    ensures FromLittleEndian(s) < Pow256(|s|)
  {
    if s != [] {
      FromLittleEndianBound(s[1..]);
    }
  }

  lemma CounterSpace()
    ensures Pow256(8) == U64
  {
    assert Pow256(2) == 0x1_0000;
    assert Pow256(4) == 0x1_0000_0000;
    assert Pow256(6) == 0x1_0000_0000_0000;
  }

  function PeekCounter(payload: seq<Byte>): Counter
    requires |payload| >= COUNTER_SIZE
  {
    CounterSpace();
    FromLittleEndianBound(payload[..COUNTER_SIZE]);
    FromLittleEndian(payload[..COUNTER_SIZE])
  }

  datatype BuiltFrame = Framed(bytes: seq<Byte>) | TooLong | NoRoom

  /** A complete authenticated frame: header, counter, tag, body. */
  function AuthFrame(tag: TagOf, kind: Byte, flags: Byte, c: Counter, body: seq<Byte>, cap: nat): BuiltFrame {
    var len := PREFIX_SIZE + |body|;
    if len > MAX_PAYLOAD then TooLong
    else if cap < HEADER_SIZE + len then NoRoom
    else Framed([kind, flags, len % 256, len / 256] + LittleEndian(c, COUNTER_SIZE)
                + tag(kind, flags, len, c, body) + body)
  }

  datatype Opened = Body(body: seq<Byte>) | Short | BadTag | Replayed

  /** Verify one received frame: the tag first, the counter second, and recorded only when both pass. */
  function Open(tag: TagOf, hdr: Header, payload: seq<Byte>, w: Window): (Opened, Window)
    requires |payload| == hdr.len
  {
    if hdr.len < PREFIX_SIZE then (Short, w)
    else
      var c := PeekCounter(payload);
      var body := payload[PREFIX_SIZE..];
      if tag(hdr.kind, hdr.flags, hdr.len, c, body) != payload[COUNTER_SIZE..PREFIX_SIZE] then (BadTag, w)
      else if !Acceptable(w, c) then (Replayed, w)
      else (Body(body), Accept(w, c))
  }

  /** A frame built under the key opens to its body if and only if its counter is acceptable, and then it is recorded. */
  lemma BuiltOpens(tag: TagOf, kind: Byte, flags: Byte, c: Counter, body: seq<Byte>, cap: nat, w: Window)
    requires TagsAreWhole(tag) && AuthFrame(tag, kind, flags, c, body, cap).Framed?
    ensures var bytes := AuthFrame(tag, kind, flags, c, body, cap).bytes;
            var hdr := Header(kind, flags, PREFIX_SIZE + |body|);
            && |bytes| == HEADER_SIZE + hdr.len <= cap
            && (KnownType(kind) ==> ParseHeader(bytes) == Parsed(hdr) && IsFrame(bytes))
            && PeekCounter(bytes[HEADER_SIZE..]) == c
            && Open(tag, hdr, bytes[HEADER_SIZE..], w) ==
               if Acceptable(w, c) then (Body(body), Accept(w, c)) else (Replayed, w)
  {
    var len := PREFIX_SIZE + |body|;
    var count, t := LittleEndian(c, COUNTER_SIZE), tag(kind, flags, len, c, body);
    var bytes := AuthFrame(tag, kind, flags, c, body, cap).bytes;
    assert |t| == TAG_SIZE;
    var payload := bytes[HEADER_SIZE..];
    assert payload == count + t + body;
    assert payload[..COUNTER_SIZE] == count;
    assert payload[COUNTER_SIZE..PREFIX_SIZE] == t;
    assert payload[PREFIX_SIZE..] == body;
    CounterSpace();
    LittleEndianReads(c, COUNTER_SIZE);
  }

  /* -------------------------------------------------------------- every run */

  datatype Received = Received(hdr: Header, payload: seq<Byte>)

  ghost predicate Arrivals(frames: seq<Received>) {
    forall f :: f in frames ==> |f.payload| == f.hdr.len
  }

  /** The counter a frame spends, if it is accepted. */
  function Spent(tag: TagOf, f: Received, w: Window): seq<Counter>
    requires |f.payload| == f.hdr.len
  {
    if Open(tag, f.hdr, f.payload, w).0.Body? then [PeekCounter(f.payload)] else []
  }

  /** The window after a run, and the counters accepted in it, in order. */
  ghost function Receive(tag: TagOf, w: Window, frames: seq<Received>): (Window, seq<Counter>)
    requires Arrivals(frames)
    decreases |frames|
  {
    if frames == [] then (w, [])
    else
      assert frames[0] in frames;
      var (last, rest) := Receive(tag, Open(tag, frames[0].hdr, frames[0].payload, w).1, frames[1..]);
      (last, Spent(tag, frames[0], w) + rest)
  }

  ghost predicate Distinct(s: seq<Counter>) {
    forall i, j :: 0 <= i < j < |s| ==> s[i] != s[j]
  }

  /** A frame whose tag does not verify, or that is replayed or too short, never moves the state. */
  lemma OnlyBodiesMove(tag: TagOf, f: Received, w: Window, accepted: set<Counter>)
    requires |f.payload| == f.hdr.len && Represents(w, accepted)
    ensures var (r, next) := Open(tag, f.hdr, f.payload, w);
            if r.Body? then
              && PeekCounter(f.payload) !in accepted
              && Represents(next, accepted + {PeekCounter(f.payload)})
            else next == w
  {
    var (r, next) := Open(tag, f.hdr, f.payload, w);
    if r.Body? {
      AcceptAdds(w, accepted, PeekCounter(f.payload));
    }
  }

  lemma SpentAdds(tag: TagOf, f: Received, w: Window, accepted: set<Counter>)
    requires |f.payload| == f.hdr.len && Represents(w, accepted)
    ensures Represents(Open(tag, f.hdr, f.payload, w).1, accepted + set c | c in Spent(tag, f, w))
    ensures forall c :: c in Spent(tag, f, w) ==> c !in accepted
  {
    OnlyBodiesMove(tag, f, w, accepted);
    var first := Spent(tag, f, w);
    if first == [] {
      assert accepted + (set c | c in first) == accepted;
    } else {
      var c0 := PeekCounter(f.payload);
      assert first == [c0];
      assert accepted + (set c | c in first) == accepted + {c0};
    }
  }

  lemma {:induction false} RunRefines(tag: TagOf, w: Window, frames: seq<Received>, before: set<Counter>)
    requires Arrivals(frames) && Represents(w, before)
    ensures var (last, cs) := Receive(tag, w, frames);
            && Represents(last, before + set c | c in cs)
            && Distinct(cs)
            && forall c :: c in cs ==> c !in before
    decreases |frames|
  {
    if frames == [] {
      assert before + (set c: Counter | c in []) == before;
    } else {
      assert frames[0] in frames;
      SpentAdds(tag, frames[0], w, before);
      var first := Spent(tag, frames[0], w);
      var next := Open(tag, frames[0].hdr, frames[0].payload, w).1;
      RunRefines(tag, next, frames[1..], before + set c | c in first);
      JoinAccepted(before, first, Receive(tag, next, frames[1..]).1);
    }
  }

  lemma JoinAccepted(before: set<Counter>, first: seq<Counter>, rest: seq<Counter>)
    requires |first| <= 1 && Distinct(rest)
    requires forall c :: c in first ==> c !in before
    requires forall c :: c in rest ==> c !in before && c !in first
    ensures before + (set c | c in first + rest) == before + (set c | c in first) + (set c | c in rest)
    ensures Distinct(first + rest)
    ensures forall c :: c in first + rest ==> c !in before
  {
    var all := first + rest;
    forall i, j | 0 <= i < j < |all|
      ensures all[i] != all[j]
    {
      assert j >= |first| && all[j] == rest[j - |first|] && all[j] in rest;
      assert i < |first| ==> all[i] in first;
    }
  }

  /**
    * Over any run of frames from a new session the window is an account of
    * exactly the counters accepted, and no counter is accepted twice.
    */
  lemma NoReplay(tag: TagOf, frames: seq<Received>)
    requires Arrivals(frames)
    ensures var (w, cs) := Receive(tag, UNUSED, frames);
            Represents(w, set c | c in cs) && Distinct(cs)
  {
    RunRefines(tag, UNUSED, frames, {});
    var (_, cs) := Receive(tag, UNUSED, frames);
    assert {} + (set c | c in cs) == set c | c in cs;
  }

  /** The receiver's state, updated in place. */
  class CounterWindow {
    var highest: Counter
    var seen: Counter
    var accepted: Counter
    var any: bool

    function State(): Window
      reads this
    {
      Window(highest, seen, accepted, any)
    }

    constructor ()
      ensures State() == UNUSED
    {
      highest, seen, accepted, any := 0, 0, 0, false;
    }

    method Record(c: Counter)
      modifies this
      ensures State() == Accept(old(State()), c)
    {
      if !any {
        any, highest, seen, accepted := true, c, 1, 1;
        return;
      }
      if c > highest {
        seen := Slide(seen, c - highest);
        highest := c;
        accepted := Increment(accepted);
        return;
      }
      if highest - c < WINDOW {
        Pow2Word();
        OrBound(seen, highest - c, 64);
        seen := OrBit(seen, highest - c);
        accepted := Increment(accepted);
      }
    }

    method OpenFrame(tag: TagOf, hdr: Header, payload: seq<Byte>, ghost before: set<Counter>) returns (r: Opened)
      requires |payload| == hdr.len && Represents(State(), before)
      modifies this
      ensures (r, State()) == Open(tag, hdr, payload, old(State()))
      ensures if r.Body? then Represents(State(), before + {PeekCounter(payload)}) else State() == old(State())
    {
      OnlyBodiesMove(tag, Received(hdr, payload), State(), before);
      if hdr.len < PREFIX_SIZE {
        return Short;
      }
      var c := PeekCounter(payload);
      var body := payload[PREFIX_SIZE..];
      var expected := tag(hdr.kind, hdr.flags, hdr.len, c, body);
      if expected != payload[COUNTER_SIZE..PREFIX_SIZE] {
        return BadTag;
      }
      if !Acceptable(State(), c) {
        return Replayed;
      }
      Record(c);
      return Body(body);
    }
  }
}
