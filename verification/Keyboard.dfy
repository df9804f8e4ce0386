/**
  * What a board makes of its keyboards' reports: the keys they hold, combined, and
  * the latch that keeps a chord's keys from the OS until each is let go.
  */
module Keyboard {
  import opened Basics
  import opened Hotkeys

  const DEVICES := 4
  const NO_KEYS: Keys := [0, 0, 0, 0, 0, 0]

  datatype Report = Report(modifier: Modifiers, keys: Keys)

  const EMPTY := Report({}, NO_KEYS)

  /* ------------------------------------------------------------- key slots */

  /** The keys in some slots. */
  function KeySet(s: seq<Byte>): set<Byte> {
    set k | k in s && k != 0
  }

  lemma KeySetConcat(a: seq<Byte>, b: seq<Byte>)
    ensures KeySet(a + b) == KeySet(a) + KeySet(b)
  {
  }

  /** The first slot from `i` on that is free, or the number of slots. */
  function FirstFree(keys: Keys, i: nat): (r: nat)
    requires i <= CAPACITY
    ensures i <= r <= CAPACITY
    ensures r < CAPACITY ==> keys[r] == 0
    ensures forall j :: i <= j < r ==> keys[j] != 0
    decreases CAPACITY - i
  {
    if i < CAPACITY && keys[i] != 0 then FirstFree(keys, i + 1) else i
  }

  /** A key in the first free slot, if it has none and one is free. */
  function Put(keys: Keys, k: Byte): (r: Keys) {
    var free := FirstFree(keys, 0);
    if k == 0 || k in keys || free == CAPACITY then keys else keys[free := k]
  }

  function PutAll(keys: Keys, more: seq<Byte>): Keys
    decreases |more|
  {
    if more == [] then keys else PutAll(Put(keys, more[0]), more[1..])
  }

  predicate Distinct(keys: Keys) {
    forall i, j :: 0 <= i < j < CAPACITY && keys[i] != 0 ==> keys[i] != keys[j]
  }

  lemma {:induction false} FullCount(s: seq<Byte>)
    requires (forall i :: 0 <= i < |s| ==> s[i] != 0) && (forall i, j :: 0 <= i < j < |s| ==> s[i] != s[j])
    ensures |KeySet(s)| == |s|
  {
    if s != [] {
      var t := s[1..];
      FullCount(t);
      assert s[0] !in KeySet(t);
      assert KeySet(s) == KeySet(t) + {s[0]};
    }
  }

  lemma PutSets(keys: Keys, at: nat, k: Byte)
    requires at < CAPACITY && keys[at] == 0 && k != 0
    ensures KeySet(keys[at := k]) == KeySet(keys) + KeySet([k])
  {
    var r := keys[at := k];
    forall x ensures x in KeySet(r) <==> x in KeySet(keys) || x in KeySet([k]) {
      if x in KeySet(keys) {
        var i :| 0 <= i < CAPACITY && keys[i] == x;
        assert r[i] == x;
      }
      if x == k {
        assert r[at] == k;
      }
    }
  }

  /** The keys of some slots put in one by one, as long as there is a slot for them. */
  function Fill(held: set<Byte>, more: seq<Byte>): set<Byte>
    decreases |more|
  {
    if more == [] then held
    else Fill(if more[0] == 0 || |held| >= CAPACITY then held else held + {more[0]}, more[1..])
  }

  lemma PutFills(keys: Keys, k: Byte)
    requires Distinct(keys)
    ensures Distinct(Put(keys, k))
    ensures KeySet(Put(keys, k)) == if k == 0 || |KeySet(keys)| >= CAPACITY then KeySet(keys) else KeySet(keys) + {k}
  {
    RoomIs(keys);
    if k != 0 && k !in keys && FirstFree(keys, 0) < CAPACITY {
      PutSets(keys, FirstFree(keys, 0), k);
    }
  }

  /** There is a slot free exactly when fewer keys than slots are held. */
  lemma RoomIs(keys: Keys)
    requires Distinct(keys)
    ensures FirstFree(keys, 0) == CAPACITY <==> |KeySet(keys)| >= CAPACITY
  {
    var free := FirstFree(keys, 0);
    SlotsCount(keys);
    if free == CAPACITY {
      FullCount(keys);
    } else if |KeySet(keys)| == CAPACITY {
      SixFill(keys);
    }
  }

  /** What the slots hold in the end, whether or not all goes in. */
  lemma {:induction false} PutAllFills(keys: Keys, more: seq<Byte>)
    requires Distinct(keys)
    ensures Distinct(PutAll(keys, more)) && KeySet(PutAll(keys, more)) == Fill(KeySet(keys), more)
    decreases |more|
  {
    if more != [] {
      PutFills(keys, more[0]);
      PutAllFills(Put(keys, more[0]), more[1..]);
    }
  }

  lemma KeySetFirst(s: seq<Byte>)
    requires s != []
    ensures KeySet(s) == (if s[0] == 0 then {} else {s[0]}) + KeySet(s[1..])
  {
    assert s == [s[0]] + s[1..];
  }

  lemma {:induction false} FillBounds(held: set<Byte>, more: seq<Byte>)
    requires |held| <= CAPACITY
    ensures held <= Fill(held, more) <= held + KeySet(more) && |Fill(held, more)| <= CAPACITY
    decreases |more|
  {
    if more != [] {
      KeySetFirst(more);
      FillBounds(if more[0] == 0 || |held| >= CAPACITY then held else held + {more[0]}, more[1..]);
    }
  }

  lemma {:induction false} FullStays(held: set<Byte>, more: seq<Byte>)
    requires |held| >= CAPACITY
    ensures Fill(held, more) == held
    decreases |more|
  {
    if more != [] {
      FullStays(held, more[1..]);
    }
  }

  /** All of it goes in exactly when together it is no more than the slots. */
  lemma FillsAll(held: set<Byte>, more: seq<Byte>)
    requires |held| <= CAPACITY
    ensures KeySet(more) <= Fill(held, more) <==> |held + KeySet(more)| <= CAPACITY
    ensures |held + KeySet(more)| <= CAPACITY ==> Fill(held, more) == held + KeySet(more)
  {
    FillBounds(held, more);
    if KeySet(more) <= Fill(held, more) {
      assert held + KeySet(more) == Fill(held, more);
    }
    if |held + KeySet(more)| <= CAPACITY {
      RoomForAll(held, more);
    }
  }

  lemma {:induction false} RoomForAll(held: set<Byte>, more: seq<Byte>)
    requires |held + KeySet(more)| <= CAPACITY
    ensures Fill(held, more) == held + KeySet(more)
    decreases |more|
  {
    if more != [] {
      KeySetFirst(more);
      var next := if more[0] == 0 || |held| >= CAPACITY then held else held + {more[0]};
      if |held| >= CAPACITY {
        SameCount(held, held + KeySet(more));
      }
      assert next + KeySet(more[1..]) == held + KeySet(more);
      RoomForAll(next, more[1..]);
    }
  }

  lemma SameCount(a: set<Byte>, b: set<Byte>)
    requires a <= b && |b| <= |a|
    ensures a == b
  {
    assert b == a + (b - a) && |b| == |a| + |b - a|;
  }

  lemma {:induction false} CountLess(a: set<Byte>, b: set<Byte>)
    requires a <= b
    ensures |a| <= |b|
  {
    if a != {} {
      var x :| x in a;
      CountLess(a - {x}, b - {x});
    }
  }

  /** Six slots hold at most six keys. */
  lemma {:induction false} SlotsCount(s: seq<Byte>)
    ensures |KeySet(s)| <= |s|
  {
    if s != [] {
      SlotsCount(s[1..]);
      CountLess(KeySet(s), KeySet(s[1..]) + {s[0]});
    }
  }

  /** Six keys leave no slot free. */
  lemma SixFill(keys: Keys)
    requires |KeySet(keys)| == CAPACITY
    ensures 0 !in keys
  {
    if 0 in keys {
      var i :| 0 <= i < CAPACITY && keys[i] == 0;
      var others := keys[..i] + keys[i + 1..];
      forall k | k in KeySet(keys) ensures k in KeySet(others) {
        var j :| 0 <= j < CAPACITY && keys[j] == k;
        assert others[if j < i then j else j - 1] == k;
      }
      CountLess(KeySet(keys), KeySet(others));
      SlotsCount(others);
    }
  }

  /* -------------------------------------------------------------- the latch */

  function Hold(latch: Report, chord: Hotkey): Report {
    Report(latch.modifier + chord.modifier,
           PutAll(latch.keys, chord.keys[..if chord.keyCount < CAPACITY then chord.keyCount else CAPACITY]))
  }

  function ReleaseKeys(latch: Keys, held: Keys): Keys {
    seq(CAPACITY, i requires 0 <= i < CAPACITY => if Contains(held, latch[i]) then latch[i] else 0)
  }

  function Release(latch: Report, held: Report): Report {
    Report(latch.modifier * held.modifier, ReleaseKeys(latch.keys, held.keys))
  }

  function Unlatched(latch: Keys, s: seq<Byte>): (r: seq<Byte>)
    ensures |r| <= |s|
  {
    if s == [] then []
    else
      var rest := Unlatched(latch, s[..|s| - 1]);
      var k := s[|s| - 1];
      if k != 0 && !Contains(latch, k) then rest + [k] else rest
  }

  function Padded(s: seq<Byte>): Keys
    requires |s| <= CAPACITY
  {
    s + seq(CAPACITY - |s|, _ => 0)
  }

  /** A report bound for the OS: the latched keys out, the others packed at the front. */
  function Mask(latch: Report, report: Report): Report {
    Report(report.modifier - latch.modifier, Padded(Unlatched(latch.keys, report.keys)))
  }

  lemma ReleaseKeeps(latch: Keys, held: Keys)
    requires Distinct(latch)
    ensures Distinct(ReleaseKeys(latch, held))
    ensures KeySet(ReleaseKeys(latch, held)) == KeySet(latch) * KeySet(held)
  {
    var r := ReleaseKeys(latch, held);
    forall x | x in KeySet(latch) * KeySet(held) ensures x in r {
      var i :| 0 <= i < CAPACITY && latch[i] == x;
      assert r[i] == x;
    }
  }

  lemma {:induction false} UnlatchedKeys(latch: Keys, s: seq<Byte>)
    ensures KeySet(Unlatched(latch, s)) == KeySet(s) - KeySet(latch)
    ensures forall k :: k in Unlatched(latch, s) ==> k != 0
  {
    if s != [] {
      var t, k := s[..|s| - 1], s[|s| - 1];
      UnlatchedKeys(latch, t);
      assert s == t + [k];
      KeySetConcat(t, [k]);
      KeySetConcat(Unlatched(latch, t), [k]);
    }
  }

  /** Masking removes exactly the latched keys and modifiers. */
  lemma MaskRemoves(latch: Report, report: Report)
    ensures KeySet(Mask(latch, report).keys) == KeySet(report.keys) - KeySet(latch.keys)
    ensures Mask(latch, report).modifier == report.modifier - latch.modifier
  {
    UnlatchedKeys(latch.keys, report.keys);
    var s := Unlatched(latch.keys, report.keys);
    var pad := seq(CAPACITY - |s|, _ => 0);
    assert KeySet(s + pad) == KeySet(s);
  }

  /* -------------------------------------------------- keyboards on one board */

  /** Each device's last report, the largest device that reported, and the latch. */
  datatype Board = Board(states: seq<Report>, largest: nat, latch: Report)

  predicate Shape(b: Board) {
    |b.states| == DEVICES && b.largest < DEVICES
  }

  /** The keys the first `n` devices hold, combined. */
  function HeldBy(states: seq<Report>, n: nat): Report
    requires n <= |states|
  {
    if n == 0 then EMPTY
    else
      var before := HeldBy(states, n - 1);
      Report(before.modifier + states[n - 1].modifier, PutAll(before.keys, states[n - 1].keys))
  }

  function Held(b: Board): Report
    requires Shape(b)
  {
    HeldBy(b.states, b.largest + 1)
  }

  /** What any report for an OS is built from. */
  function LocalReport(b: Board): Report
    requires Shape(b)
  {
    Mask(b.latch, Held(b))
  }

  function Update(b: Board, device: nat, r: Report): (t: Board)
    requires Shape(b)
    ensures Shape(t)
  {
    if device >= DEVICES then b
    else b.(states := b.states[device := r], largest := if b.largest < device then device else b.largest)
  }

  /** The chord a report completes whose keys the OS must not see. */
  function Chord(table: seq<Hotkey>, r: Report): Option<Hotkey> {
    var m := Resolve(table, r.modifier, r.keys);
    if m.Some? && !PassesToOs(m.value) then m else None
  }

  /** Only the mouse zoom's chord is left to the OS; any other that resolves is held back. */
  lemma OnlyZoomPasses(table: seq<Hotkey>, r: Report)
    ensures var m := Resolve(table, r.modifier, r.keys);
            Chord(table, r) == if m.Some? && m.value.action == 1 then None else m
  {
  }

  /** A device reports. */
  function Process(table: seq<Hotkey>, b: Board, device: nat, r: Report): (t: Board)
    requires Shape(b)
    ensures Shape(t)
  {
    var u := Update(b, device, r);
    var released := Release(u.latch, Held(u));
    u.(latch := match Chord(table, r)
                case None => released
                case Some(chord) => Hold(released, chord))
  }

  /** Every key forgotten, as a switch of output or a lost keyboard does. The latch stays. */
  function Forget(b: Board): (t: Board)
    requires Shape(b)
    ensures Shape(t)
  {
    b.(states := [EMPTY, EMPTY, EMPTY, EMPTY])
  }

  const POWER_ON := Board([EMPTY, EMPTY, EMPTY, EMPTY], 0, EMPTY)

  /** A slot of the device table, as the host driver assigns them. */
  type Slot = d: nat | d < DEVICES

  /** A keyboard reports, under the bindings then in force, or every key is forgotten. */
  datatype Event = Reported(table: seq<Hotkey>, device: Slot, r: Report) | Forgotten

  function Run(es: seq<Event>): (b: Board)
    ensures Shape(b)
  {
    if es == [] then POWER_ON
    else
      var b := Run(es[..|es| - 1]);
      match es[|es| - 1]
      case Reported(table, device, r) => Process(table, b, device, r)
      case Forgotten => Forget(b)
  }

  /* ------------------------------------------------------ what is really down */

  /** Each keyboard's last report since the keys were last forgotten. */
  function Last(es: seq<Event>): (s: seq<Report>)
    ensures |s| == DEVICES
  {
    if es == [] then [EMPTY, EMPTY, EMPTY, EMPTY]
    else
      match es[|es| - 1]
      case Reported(_, device, r) => Last(es[..|es| - 1])[device := r]
      case Forgotten => [EMPTY, EMPTY, EMPTY, EMPTY]
  }

  function KeysOf(states: seq<Report>, n: nat): set<Byte>
    requires n <= |states|
  {
    if n == 0 then {} else KeysOf(states, n - 1) + KeySet(states[n - 1].keys)
  }

  function ModifiersOf(states: seq<Report>, n: nat): set<nat>
    requires n <= |states|
  {
    if n == 0 then {} else ModifiersOf(states, n - 1) + states[n - 1].modifier
  }

  /** The keys that find one of the six slots of one report for all keyboards, the first of them first. */
  function CombinedOf(states: seq<Report>, n: nat): set<Byte>
    requires n <= |states|
  {
    if n == 0 then {} else Fill(CombinedOf(states, n - 1), states[n - 1].keys)
  }

  function KeysDown(es: seq<Event>): set<Byte> {
    KeysOf(Last(es), DEVICES)
  }

  function ModifiersDown(es: seq<Event>): set<nat> {
    ModifiersOf(Last(es), DEVICES)
  }

  /** The keys down that the board sees: the reports alone decide it. */
  function Combined(es: seq<Event>): set<Byte> {
    CombinedOf(Last(es), DEVICES)
  }

  /** The keyboards together never hold more keys than one report has slots. */
  ghost predicate Fits(es: seq<Event>) {
    forall j :: 0 <= j <= |es| ==> |KeysDown(es[..j])| <= CAPACITY
  }

  lemma {:induction false} KeysOfSome(states: seq<Report>, n: nat, i: nat)
    requires i < n <= |states|
    ensures KeySet(states[i].keys) <= KeysOf(states, n) && states[i].modifier <= ModifiersOf(states, n)
  {
    if i < n - 1 {
      KeysOfSome(states, n - 1, i);
    }
  }

  /** The board sees no key that is not down, and all of them when they fit. */
  lemma {:induction false} CombinedBounds(states: seq<Report>, n: nat)
    requires n <= |states|
    ensures CombinedOf(states, n) <= KeysOf(states, n) && |CombinedOf(states, n)| <= CAPACITY
    ensures |KeysOf(states, n)| <= CAPACITY ==> CombinedOf(states, n) == KeysOf(states, n)
  {
    if n > 0 {
      CombinedBounds(states, n - 1);
      FillBounds(CombinedOf(states, n - 1), states[n - 1].keys);
      if |KeysOf(states, n)| <= CAPACITY {
        CountLess(KeysOf(states, n - 1), KeysOf(states, n));
        RoomForAll(KeysOf(states, n - 1), states[n - 1].keys);
      }
    }
  }

  /** The keyboards above the largest that reported hold nothing. */
  predicate Unheard(b: Board) {
    |b.states| == DEVICES && forall i :: b.largest < i < DEVICES ==> b.states[i] == EMPTY
  }

  lemma NoKeys()
    ensures KeySet(NO_KEYS) == {}
  {
  }

  lemma {:induction false} FillNothing(held: set<Byte>, zeros: seq<Byte>)
    requires forall i :: 0 <= i < |zeros| ==> zeros[i] == 0
    ensures Fill(held, zeros) == held && KeySet(zeros) == {}
    decreases |zeros|
  {
    if zeros != [] {
      FillNothing(held, zeros[1..]);
    }
  }

  lemma {:induction false} NoneAbove(states: seq<Report>, m: nat, n: nat)
    requires m <= n <= |states| && forall i :: m <= i < n ==> states[i] == EMPTY
    ensures KeysOf(states, n) == KeysOf(states, m) && ModifiersOf(states, n) == ModifiersOf(states, m)
    ensures CombinedOf(states, n) == CombinedOf(states, m)
    decreases n
  {
    if m < n {
      NoneAbove(states, m, n - 1);
      FillNothing(CombinedOf(states, n - 1), states[n - 1].keys);
    }
  }

  lemma {:induction false} HeldIs(states: seq<Report>, n: nat)
    requires n <= |states|
    ensures HeldBy(states, n).modifier == ModifiersOf(states, n)
    ensures Distinct(HeldBy(states, n).keys) && KeySet(HeldBy(states, n).keys) == CombinedOf(states, n)
  {
    if n == 0 {
      NoKeys();
    } else {
      HeldIs(states, n - 1);
      PutAllFills(HeldBy(states, n - 1).keys, states[n - 1].keys);
    }
  }

  /** The six slots of a board's combined report hold just that. */
  lemma BoardHolds(b: Board)
    requires Shape(b) && Unheard(b)
    ensures Held(b).modifier == ModifiersOf(b.states, DEVICES)
    ensures Distinct(Held(b).keys) && KeySet(Held(b).keys) == CombinedOf(b.states, DEVICES)
  {
    HeldIs(b.states, b.largest + 1);
    NoneAbove(b.states, b.largest + 1, DEVICES);
  }

  /* ---------------------------------------------------------- the latch's runs */

  /** The keys of the chord a report completes. */
  function ChordSlots(table: seq<Hotkey>, r: Report): seq<Byte> {
    match Chord(table, r)
    case None => []
    case Some(chord) => chord.keys[..if chord.keyCount < CAPACITY then chord.keyCount else CAPACITY]
  }

  function ChordKeys(table: seq<Hotkey>, r: Report): set<Byte> {
    KeySet(ChordSlots(table, r))
  }

  function ChordModifiers(table: seq<Hotkey>, r: Report): set<nat> {
    match Chord(table, r)
    case None => {}
    case Some(chord) => chord.modifier
  }

  /** A chord is made of keys the report holds. */
  lemma ChordIsHeld(table: seq<Hotkey>, r: Report)
    ensures ChordKeys(table, r) <= KeySet(r.keys) && ChordModifiers(table, r) <= r.modifier
  {
    ResolvedMatches(table, r.modifier, r.keys);
  }

  /** One report: the latch lets go of what the board does not see held, and takes of the chord what finds a slot. */
  lemma ProcessLatches(table: seq<Hotkey>, b: Board, device: Slot, r: Report)
    requires Shape(b) && Unheard(b) && Distinct(b.latch.keys)
    ensures var t := Process(table, b, device, r);
            var states := b.states[device := r];
            && t.states == states && Unheard(t) && Distinct(t.latch.keys)
            && t.latch.modifier == b.latch.modifier * ModifiersOf(states, DEVICES) + ChordModifiers(table, r)
            && KeySet(t.latch.keys)
               == Fill(KeySet(b.latch.keys) * CombinedOf(states, DEVICES), ChordSlots(table, r))
  {
    var u := Update(b, device, r);
    BoardHolds(u);
    ReleaseKeeps(b.latch.keys, Held(u).keys);
    PutAllFills(ReleaseKeys(b.latch.keys, Held(u).keys), ChordSlots(table, r));
  }

  lemma LastSnoc(t: seq<Event>, e: Event)
    ensures Last(t + [e]) == if e.Reported? then Last(t)[e.device := e.r] else [EMPTY, EMPTY, EMPTY, EMPTY]
  {
    assert (t + [e])[..|t|] == t;
  }

  lemma RunSnoc(t: seq<Event>, e: Event)
    ensures Run(t + [e]) == match e case Reported(table, device, r) => Process(table, Run(t), device, r)
                                    case Forgotten => Forget(Run(t))
  {
    assert (t + [e])[..|t|] == t;
  }

  /** The board knows each keyboard's last report. */
  lemma {:induction false} RunGood(es: seq<Event>)
    ensures Run(es).states == Last(es) && Unheard(Run(es)) && Distinct(Run(es).latch.keys)
  {
    if es != [] {
      var t, e := es[..|es| - 1], es[|es| - 1];
      assert es == t + [e];
      RunGood(t);
      if e.Reported? {
        ProcessLatches(e.table, Run(t), e.device, e.r);
      }
    }
  }

  function Latched(es: seq<Event>): set<Byte> {
    KeySet(Run(es).latch.keys)
  }

  /** The run ends in a report. */
  predicate JustReported(es: seq<Event>) {
    es != [] && es[|es| - 1].Reported?
  }

  /** The chord the last report of a run completes. */
  function NewKeys(es: seq<Event>): set<Byte> {
    if JustReported(es) then ChordKeys(es[|es| - 1].table, es[|es| - 1].r) else {}
  }

  function NewModifiers(es: seq<Event>): set<nat> {
    if JustReported(es) then ChordModifiers(es[|es| - 1].table, es[|es| - 1].r) else {}
  }

  /** What the latch still holds when it comes to that chord. */
  function Kept(es: seq<Event>): set<Byte> {
    if JustReported(es) then Latched(es[..|es| - 1]) * Combined(es) else {}
  }

  /** The chord's keys that find a slot in the latch. */
  function Taken(es: seq<Event>): set<Byte> {
    if JustReported(es) then Fill(Kept(es), ChordSlots(es[|es| - 1].table, es[|es| - 1].r)) * NewKeys(es) else {}
  }

  lemma LatchedFew(es: seq<Event>)
    ensures |Latched(es)| <= CAPACITY && |Kept(es)| <= CAPACITY
  {
    SlotsCount(Run(es).latch.keys);
    if JustReported(es) {
      SlotsCount(Run(es[..|es| - 1]).latch.keys);
      CountLess(Kept(es), Latched(es[..|es| - 1]));
    }
  }

  /** A chord is taken whole exactly when it and what is still latched are no more keys than the latch has slots. */
  lemma ChordIsTaken(es: seq<Event>)
    ensures Taken(es) == NewKeys(es) <==> |Kept(es) + NewKeys(es)| <= CAPACITY
    ensures NewKeys(es) <= Combined(es) ==> Taken(es) == NewKeys(es)
  {
    LatchedFew(es);
    if JustReported(es) {
      var slots := ChordSlots(es[|es| - 1].table, es[|es| - 1].r);
      FillsAll(Kept(es), slots);
      if NewKeys(es) <= Combined(es) {
        CombinedBounds(Last(es), DEVICES);
        CountLess(Kept(es) + NewKeys(es), Combined(es));
      }
    }
  }

  /** One step of the latch, on sets. */
  lemma LatchStep(t: seq<Event>, e: Event)
    ensures Latched(t + [e]) == if e.Reported? then Latched(t) * Combined(t + [e]) + Taken(t + [e]) else Latched(t)
    ensures Run(t + [e]).latch.modifier
         == if e.Reported? then Run(t).latch.modifier * ModifiersDown(t + [e]) + NewModifiers(t + [e])
            else Run(t).latch.modifier
  {
    var es := t + [e];
    RunGood(t);
    RunSnoc(t, e);
    LastSnoc(t, e);
    if e.Reported? {
      Ends(t, e);
      ProcessLatches(e.table, Run(t), e.device, e.r);
      LatchedFew(es);
      FillBounds(Kept(es), ChordSlots(e.table, e.r));
    }
  }

  lemma Ends(t: seq<Event>, e: Event)
    ensures (t + [e])[..|t + [e]| - 1] == t && (t + [e])[|t + [e]| - 1] == e
  {
  }

  /* ------------------------------------------------------------- ever since */

  /** At every report from the `i`th event on, `x` is among what the run so far shows. */
  predicate Stays<T(==)>(es: seq<Event>, i: nat, x: T, shown: seq<Event> -> set<T>) {
    forall j :: i <= j < |es| && es[j].Reported? ==> x in shown(es[..j + 1])
  }

  /** The `i`th event brought `x`, and it was shown at every report since. */
  predicate Since<T(==)>(es: seq<Event>, i: nat, x: T, brought: seq<Event> -> set<T>, shown: seq<Event> -> set<T>) {
    i < |es| && es[i].Reported? && x in brought(es[..i + 1]) && Stays(es, i + 1, x, shown)
  }

  ghost predicate Ever<T>(es: seq<Event>, x: T, brought: seq<Event> -> set<T>, shown: seq<Event> -> set<T>) {
    exists i :: Since(es, i, x, brought, shown)
  }

  lemma Prefixes(t: seq<Event>, e: Event, j: nat)
    ensures j < |t| ==> (t + [e])[j] == t[j] && (t + [e])[..j + 1] == t[..j + 1]
    ensures (t + [e])[|t|] == e && (t + [e])[..|t| + 1] == t + [e]
  {
  }

  lemma StaysSnoc<T>(t: seq<Event>, e: Event, i: nat, x: T, shown: seq<Event> -> set<T>)
    requires i <= |t|
    ensures Stays(t + [e], i, x, shown) <==> Stays(t, i, x, shown) && (e.Reported? ==> x in shown(t + [e]))
  {
    Prefixes(t, e, |t|);
    if Stays(t + [e], i, x, shown) {
      forall j | i <= j < |t| && t[j].Reported? ensures x in shown(t[..j + 1]) {
        Prefixes(t, e, j);
      }
    }
    if Stays(t, i, x, shown) && (e.Reported? ==> x in shown(t + [e])) {
      forall j | i <= j < |t + [e]| && (t + [e])[j].Reported? ensures x in shown((t + [e])[..j + 1]) {
        Prefixes(t, e, j);
      }
    }
  }

  lemma SinceSnoc<T>(t: seq<Event>, e: Event, i: nat, x: T, brought: seq<Event> -> set<T>, shown: seq<Event> -> set<T>)
    ensures Since(t + [e], i, x, brought, shown)
        <==> (if i < |t| then Since(t, i, x, brought, shown) && (e.Reported? ==> x in shown(t + [e]))
              else i == |t| && e.Reported? && x in brought(t + [e]))
  {
    if i <= |t| {
      Prefixes(t, e, i);
    }
    if i < |t| {
      StaysSnoc(t, e, i + 1, x, shown);
    }
  }

  lemma EverSnoc<T>(t: seq<Event>, e: Event, x: T, brought: seq<Event> -> set<T>, shown: seq<Event> -> set<T>)
    ensures Ever(t + [e], x, brought, shown)
        <==> (Ever(t, x, brought, shown) && (e.Reported? ==> x in shown(t + [e])))
             || (e.Reported? && x in brought(t + [e]))
  {
    if Ever(t + [e], x, brought, shown) {
      var i :| Since(t + [e], i, x, brought, shown);
      SinceSnoc(t, e, i, x, brought, shown);
    }
    if Ever(t, x, brought, shown) && (e.Reported? ==> x in shown(t + [e])) {
      var i :| Since(t, i, x, brought, shown);
      SinceSnoc(t, e, i, x, brought, shown);
    }
    SinceSnoc(t, e, |t|, x, brought, shown);
  }

  /** A chord with `k` was completed, and some keyboard has held `k` ever since. */
  ghost predicate EverSince(es: seq<Event>, k: Byte) {
    Ever(es, k, NewKeys, KeysDown)
  }

  ghost predicate ModifierEverSince(es: seq<Event>, m: nat) {
    Ever(es, m, NewModifiers, ModifiersDown)
  }

  /** A chord with `k` was completed and found `k` a slot, and the board has seen `k` held ever since. */
  ghost predicate EverShown(es: seq<Event>, k: Byte) {
    Ever(es, k, Taken, Combined)
  }

  /** The latch over every run, of any keyboards under whatever bindings come into force. */
  lemma {:induction false} LatchIs(es: seq<Event>)
    ensures forall k :: k in Latched(es) <==> EverShown(es, k)
    ensures forall m :: m in Run(es).latch.modifier <==> ModifierEverSince(es, m)
  {
    if es == [] {
      NoKeys();
    } else {
      var t, e := es[..|es| - 1], es[|es| - 1];
      assert es == t + [e];
      LatchIs(t);
      LatchStep(t, e);
      forall k ensures k in Latched(es) <==> EverShown(es, k) {
        EverSnoc(t, e, k, Taken, Combined);
        assert k in Latched(t) <==> EverShown(t, k);
      }
      forall m ensures m in Run(es).latch.modifier <==> ModifierEverSince(es, m) {
        EverSnoc(t, e, m, NewModifiers, ModifiersDown);
      }
    }
  }

  /**
    * What an OS is told, over every run: exactly the modifiers down but those of
    * chords not let go since, and exactly the keys the board sees but those of chords
    * that found a slot and have been seen ever since. So a chord's key that is still
    * held is typed if and only if it has been out of the board's sight since.
    */
  lemma TypedExactly(es: seq<Event>)
    ensures forall m :: m in LocalReport(Run(es)).modifier <==> m in ModifiersDown(es) && !ModifierEverSince(es, m)
    ensures forall k :: k in KeySet(LocalReport(Run(es)).keys) <==> k in Combined(es) && !EverShown(es, k)
  {
    var b := Run(es);
    RunGood(es);
    BoardHolds(b);
    MaskRemoves(b.latch, Held(b));
    LatchIs(es);
  }

  /* ----------------------------------------------- when the board sees it all */

  /** Every chord so far was seen whole when it was completed, and so taken whole. */
  ghost predicate ChordsSeen(es: seq<Event>) {
    forall j :: 0 <= j <= |es| ==> NewKeys(es[..j]) <= Combined(es[..j])
  }

  lemma SinceSame<T>(es: seq<Event>, i: nat, x: T, b: seq<Event> -> set<T>, c: seq<Event> -> set<T>,
                     f: seq<Event> -> set<T>, g: seq<Event> -> set<T>)
    requires forall j :: 0 <= j <= |es| ==> b(es[..j]) == c(es[..j]) && f(es[..j]) == g(es[..j])
    ensures Since(es, i, x, b, f) ==> Since(es, i, x, c, g)
  {
    if Since(es, i, x, b, f) {
      assert b(es[..i + 1]) == c(es[..i + 1]);
      forall j | i + 1 <= j < |es| && es[j].Reported? ensures x in g(es[..j + 1]) {
        assert f(es[..j + 1]) == g(es[..j + 1]);
      }
    }
  }

  lemma EverSame<T>(es: seq<Event>, x: T, b: seq<Event> -> set<T>, c: seq<Event> -> set<T>,
                    f: seq<Event> -> set<T>, g: seq<Event> -> set<T>)
    requires forall j :: 0 <= j <= |es| ==> b(es[..j]) == c(es[..j]) && f(es[..j]) == g(es[..j])
    ensures Ever(es, x, b, f) <==> Ever(es, x, c, g)
  {
    if Ever(es, x, b, f) {
      var i :| Since(es, i, x, b, f);
      SinceSame(es, i, x, b, c, f, g);
    }
    if Ever(es, x, c, g) {
      var i :| Since(es, i, x, c, g);
      SinceSame(es, i, x, c, b, g, f);
    }
  }

  /** With every chord seen whole, a condition on the reports alone, slots do not come into it. */
  lemma SeenIsTaken(es: seq<Event>, k: Byte)
    requires ChordsSeen(es)
    ensures EverShown(es, k) <==> Ever(es, k, NewKeys, Combined)
    ensures k in KeySet(LocalReport(Run(es)).keys) <==> k in Combined(es) && !Ever(es, k, NewKeys, Combined)
  {
    TypedExactly(es);
    forall j | 0 <= j <= |es| ensures Taken(es[..j]) == NewKeys(es[..j]) {
      ChordIsTaken(es[..j]);
    }
    EverSame(es, k, Taken, NewKeys, Combined, Combined);
  }

  lemma NewIsDown(es: seq<Event>)
    ensures NewKeys(es) <= KeysDown(es)
  {
    if JustReported(es) {
      var t, e := es[..|es| - 1], es[|es| - 1];
      assert es == t + [e];
      LastSnoc(t, e);
      ChordIsHeld(e.table, e.r);
      KeysOfSome(Last(es), DEVICES, e.device);
    }
  }

  /** With no more keys down than slots, the board sees them all, and what it has seen ever since is what is held ever since. */
  lemma FitsShown(es: seq<Event>, k: Byte)
    requires Fits(es)
    ensures Combined(es) == KeysDown(es) && (EverShown(es, k) <==> EverSince(es, k))
  {
    forall j | 0 <= j <= |es|
      ensures Combined(es[..j]) == KeysDown(es[..j]) && Taken(es[..j]) == NewKeys(es[..j])
    {
      CombinedBounds(Last(es[..j]), DEVICES);
      NewIsDown(es[..j]);
      ChordIsTaken(es[..j]);
    }
    assert es[..|es|] == es;
    EverSame(es, k, Taken, NewKeys, Combined, KeysDown);
  }

  /** So the latch is then exactly the keys of chords completed and not let go since. */
  lemma LatchIsHeldChords(es: seq<Event>)
    requires Fits(es)
    ensures forall k :: k in Latched(es) <==> EverSince(es, k)
  {
    LatchIs(es);
    forall k ensures EverShown(es, k) <==> EverSince(es, k) {
      FitsShown(es, k);
    }
  }

  /** And no key of a chord is typed before it has been let go, while every other key that is down is. */
  lemma ChordNeverTyped(es: seq<Event>)
    requires Fits(es)
    ensures forall k :: k in KeySet(LocalReport(Run(es)).keys) <==> k in KeysDown(es) && !EverSince(es, k)
  {
    TypedExactly(es);
    forall k ensures (EverShown(es, k) <==> EverSince(es, k)) && Combined(es) == KeysDown(es) {
      FitsShown(es, k);
    }
  }

  /** All reports come from one keyboard. */
  predicate OneKeyboard(es: seq<Event>, device: Slot) {
    forall i :: 0 <= i < |es| && es[i].Reported? ==> es[i].device == device
  }

  lemma {:induction false} OthersSilent(es: seq<Event>, device: Slot)
    requires OneKeyboard(es, device)
    ensures forall i :: 0 <= i < DEVICES && i != device ==> Last(es)[i] == EMPTY
  {
    if es != [] {
      OthersSilent(es[..|es| - 1], device);
    }
  }

  lemma AloneFits(states: seq<Report>, device: Slot)
    requires |states| == DEVICES && forall i :: 0 <= i < DEVICES && i != device ==> states[i] == EMPTY
    ensures |KeysOf(states, DEVICES)| <= CAPACITY
  {
    NoneAbove(states, device + 1, DEVICES);
    NoneAbove(states, 0, device);
    assert KeysOf(states, device + 1) == KeySet(states[device].keys);
    SlotsCount(states[device].keys);
  }

  /** One keyboard always fits. */
  lemma OneKeyboardFits(es: seq<Event>, device: Slot)
    requires OneKeyboard(es, device)
    ensures Fits(es)
  {
    forall j | 0 <= j <= |es| ensures |KeysDown(es[..j])| <= CAPACITY {
      OthersSilent(es[..j], device);
      AloneFits(Last(es[..j]), device);
    }
  }

  /* ---------------------------------------------------- a chord's key typed */

  /** Six keys on the first keyboard are all the board sees. */
  lemma SixCrowd(states: seq<Report>, six: Keys)
    requires |states| == DEVICES && states[0].keys == six && |KeySet(six)| == CAPACITY
    ensures CombinedOf(states, DEVICES) == KeySet(six)
  {
    assert CombinedOf(states, 0) == {};
    RoomForAll({}, six);
    assert CombinedOf(states, 1) == KeySet(six);
    FullStays(KeySet(six), states[1].keys);
    assert CombinedOf(states, 2) == KeySet(six);
    FullStays(KeySet(six), states[2].keys);
    assert CombinedOf(states, 3) == KeySet(six);
    FullStays(KeySet(six), states[3].keys);
  }

  lemma NotBrought(t: seq<Event>, table: seq<Hotkey>, r: Report, k: Byte)
    requires k !in r.keys
    ensures k !in Taken(t + [Reported(table, 0, r)])
  {
    ChordIsHeld(table, r);
  }

  lemma StillHeld(t: seq<Event>, table: seq<Hotkey>, r: Report, k: Byte)
    requires EverSince(t, k) && k in KeySet(Last(t)[1].keys)
    ensures var es := t + [Reported(table, 0, r)]; EverSince(es, k) && Last(es) == Last(t)[0 := r]
  {
    var e := Reported(table, 0, r);
    LastSnoc(t, e);
    KeysOfSome(Last(t)[0 := r], DEVICES, 1);
    EverSnoc(t, e, k, NewKeys, KeysDown);
  }

  lemma SixHide(t: seq<Event>, table: seq<Hotkey>, six: Report, k: Byte)
    requires |KeySet(six.keys)| == CAPACITY && k !in six.keys
    ensures !EverShown(t + [Reported(table, 0, six)], k)
  {
    var e := Reported(table, 0, six);
    LastSnoc(t, e);
    SixCrowd(Last(t + [e]), six.keys);
    NotBrought(t, table, six, k);
    EverSnoc(t, e, k, Taken, Combined);
  }

  /**
    * The failing family, after any run. A keyboard holds a key of a chord; six other
    * keys on the keyboard before it put it out of the board's sight, so the latch lets
    * it go; and as soon as the board sees it again it is typed, though nobody has let
    * go of it.
    */
  lemma CrowdedOut(t: seq<Event>, table: seq<Hotkey>, k: Byte, six: Report, fewer: Report)
    requires EverSince(t, k) && k in KeySet(Last(t)[1].keys)
    requires |KeySet(six.keys)| == CAPACITY && k !in six.keys && k !in fewer.keys
    requires k in CombinedOf(Last(t)[0 := fewer], DEVICES)
    ensures var es := t + [Reported(table, 0, six)] + [Reported(table, 0, fewer)];
            k in KeySet(LocalReport(Run(es)).keys) && EverSince(es, k)
  {
    var s, e := t + [Reported(table, 0, six)], Reported(table, 0, fewer);
    StillHeld(t, table, six, k);
    Overwritten(Last(t), six, fewer);
    StillHeld(s, table, fewer, k);
    SixHide(t, table, six, k);
    NotBrought(s, table, fewer, k);
    EverSnoc(s, e, k, Taken, Combined);
    TypedExactly(s + [e]);
  }

  lemma Overwritten(states: seq<Report>, a: Report, b: Report)
    requires |states| == DEVICES
    ensures states[0 := a][0 := b] == states[0 := b] && states[0 := a][1] == states[1]
  {
  }

  /** The pairing chord: both modifiers and its one key. */
  lemma PairingIsChord(r: Report)
    requires r == Report({0, 5}, [0x13, 0, 0, 0, 0, 0])
    ensures ChordKeys([], r) == {0x13} == KeySet(r.keys)
  {
    var m, k := r.modifier, r.keys;
    assert !Contains(k, FIXED[0].keys[0]);
    assert !Matches(FIXED[0], m, k);
    assert Contains(k, FIXED[1].keys[0]);
    assert Matches(FIXED[1], m, k);
    assert Match(FIXED[1..], m, k) == Some(FIXED[1]);
    assert FIXED[1].keys[..1] == [0x13];
  }

  lemma FiveAndOne(states: seq<Report>, fewer: Report, r: Report, k: Byte)
    requires states == [fewer, r, EMPTY, EMPTY] && KeySet(r.keys) == {k} && 0 in fewer.keys
    ensures k in CombinedOf(states, DEVICES)
  {
    NoneAbove(states, 2, DEVICES);
    assert KeysOf(states, 1) == KeySet(fewer.keys);
    SlotsCount(fewer.keys);
    if |KeySet(fewer.keys)| == CAPACITY {
      SixFill(fewer.keys);
    }
    CombinedBounds(states, DEVICES);
  }

  /** One report completes the chord. */
  lemma ChordFirst(t: seq<Event>, table: seq<Hotkey>, r: Report, k: Byte)
    requires t == [Reported(table, 1, r)] && k in ChordKeys(table, r)
    ensures EverSince(t, k) && Last(t) == [EMPTY, r, EMPTY, EMPTY] && k in KeySet(r.keys)
  {
    var none: seq<Event> := [];
    assert none + t == t;
    LastSnoc(none, t[0]);
    EverSnoc(none, t[0], k, NewKeys, KeysDown);
    ChordIsHeld(table, r);
  }

  lemma CrowdedSoon(t: seq<Event>, table: seq<Hotkey>, r: Report, k: Byte, six: Report, fewer: Report)
    requires t == [Reported(table, 1, r)] && k in ChordKeys(table, r) && KeySet(r.keys) == {k}
    requires |KeySet(six.keys)| == CAPACITY && k !in six.keys && 0 in fewer.keys && k !in fewer.keys
    ensures var es := t + [Reported(table, 0, six)] + [Reported(table, 0, fewer)];
            k in KeySet(LocalReport(Run(es)).keys) && EverSince(es, k)
  {
    ChordFirst(t, table, r, k);
    assert Last(t)[0 := fewer] == [fewer, r, EMPTY, EMPTY];
    FiveAndOne(Last(t)[0 := fewer], fewer, r, k);
    CrowdedOut(t, table, k, six, fewer);
  }

  /** The pairing chord on the second keyboard, and six letters on the first. */
  lemma CrowdedPairing(none: seq<Hotkey>, r: Report, six: Report, fewer: Report)
    requires none == [] && r == Report({0, 5}, [0x13, 0, 0, 0, 0, 0])
    requires six == Report({}, [10, 11, 12, 13, 14, 15]) && fewer == Report({}, [10, 11, 12, 13, 14, 0])
    ensures var es := [Reported(none, 1, r)] + [Reported(none, 0, six)] + [Reported(none, 0, fewer)];
            0x13 in KeySet(LocalReport(Run(es)).keys) && EverSince(es, 0x13)
  {
    PairingIsChord(r);
    FullCount(six.keys);
    CrowdedSoon([Reported(none, 1, r)], none, r, 0x13, six, fewer);
  }

  /* ------------------------------------------------------------ the machine */

  /** The first free slot, if `k` needs one and there is one. */
  method PutKey(slots: array<Byte>, k: Byte)
    requires slots.Length == CAPACITY
    modifies slots
    ensures slots[..] == Put(old(slots[..]), k)
  {
    var held := HasKey(slots, k);
    if k == 0 || held {
      return;
    }
    ghost var was := slots[..];
    for i := 0 to CAPACITY
      invariant slots[..] == was && FirstFree(was, 0) == FirstFree(was, i)
    {
      if slots[i] == 0 {
        slots[i] := k;
        return;
      }
    }
  }

  method HasKey(slots: array<Byte>, k: Byte) returns (found: bool)
    requires slots.Length == CAPACITY
    ensures found == (k in slots[..])
  {
    for i := 0 to CAPACITY
      invariant k !in slots[..i]
    {
      if slots[i] == k {
        return true;
      }
    }
    assert slots[..CAPACITY] == slots[..];
    return false;
  }

  method PutKeys(slots: array<Byte>, more: seq<Byte>)
    requires slots.Length == CAPACITY
    modifies slots
    ensures slots[..] == PutAll(old(slots[..]), more)
  {
    var rest := more;
    while rest != []
      invariant PutAll(slots[..], rest) == PutAll(old(slots[..]), more)
      decreases |rest|
    {
      PutKey(slots, rest[0]);
      rest := rest[1..];
    }
  }

  /** The latch, updated in place. */
  class HotkeyLatch {
    var modifier: Modifiers
    const keys: array<Byte>

    ghost predicate Valid()
      reads this
    {
      keys.Length == CAPACITY
    }

    ghost function State(): Report
      requires Valid()
      reads this, keys
    {
      Report(modifier, keys[..])
    }

    constructor ()
      ensures Valid() && fresh(keys) && State() == EMPTY
    {
      modifier := {};
      keys := new Byte[CAPACITY](_ => 0);
    }

    method HoldChord(chord: Hotkey)
      requires Valid()
      modifies this`modifier, keys
      ensures Valid() && State() == Hold(old(State()), chord)
    {
      modifier := modifier + chord.modifier;
      PutKeys(keys, chord.keys[..if chord.keyCount < CAPACITY then chord.keyCount else CAPACITY]);
    }

    method ReleaseTo(held: Report)
      requires Valid()
      modifies this`modifier, keys
      ensures Valid() && State() == Release(old(State()), held)
    {
      modifier := modifier * held.modifier;
      for i := 0 to CAPACITY
        invariant modifier == old(modifier) * held.modifier
        invariant forall j :: 0 <= j < i ==> keys[j] == if Contains(held.keys, old(keys[j])) then old(keys[j]) else 0
        invariant forall j :: i <= j < CAPACITY ==> keys[j] == old(keys[j])
      {
        if !Contains(held.keys, keys[i]) {
          keys[i] := 0;
        }
      }
      assert keys[..] == ReleaseKeys(old(keys[..]), held.keys);
    }

    /** Take the latched keys out of a report's slots, keeping the others in front. */
    method MaskSlots(slots: array<Byte>)
      requires Valid() && slots.Length == CAPACITY && slots != keys
      modifies slots
      ensures slots[..] == Padded(Unlatched(keys[..], old(slots[..])))
    {
      ghost var was := slots[..];
      var kept := 0;
      for i := 0 to CAPACITY
        invariant 0 <= kept <= i && slots[..kept] == Unlatched(keys[..], was[..i])
        invariant forall j :: i <= j < CAPACITY ==> slots[j] == was[j]
      {
        assert was[..i + 1][..i] == was[..i];
        var latched := HasKey(keys, slots[i]);
        if slots[i] != 0 && !latched {
          slots[kept] := slots[i];
          kept := kept + 1;
        }
      }
      assert was[..CAPACITY] == was;
      ZeroFrom(slots, kept);
    }
  }

  method ZeroFrom(slots: array<Byte>, start: nat)
    requires slots.Length == CAPACITY && start <= CAPACITY
    modifies slots
    ensures slots[..] == Padded(old(slots[..start]))
  {
    for i := start to CAPACITY
      invariant slots[..start] == old(slots[..start])
      invariant forall j :: start <= j < i ==> slots[j] == 0
    {
      slots[i] := 0;
    }
  }

  /** The keyboards a board has, and its latch. */
  class Keyboards {
    const states: array<Report>
    var largest: nat
    const latch: HotkeyLatch

    ghost predicate Valid()
      reads this, states, latch, latch.keys
    {
      states.Length == DEVICES && largest < DEVICES && latch.Valid()
    }

    ghost function State(): Board
      requires Valid()
      reads this, states, latch, latch.keys
    {
      Board(states[..], largest, latch.State())
    }

    constructor ()
      ensures Valid() && State() == POWER_ON
    {
      states := new Report[DEVICES](_ => EMPTY);
      largest := 0;
      latch := new HotkeyLatch();
      new;
      assert states[..] == POWER_ON.states;
    }

    /** The keys all local keyboards hold. */
    method CombineHeld() returns (held: Report)
      requires Valid()
      ensures held == Held(State())
    {
      var slots := new Byte[CAPACITY](_ => 0);
      var modifier: Modifiers := {};
      assert slots[..] == NO_KEYS;
      for i := 0 to largest + 1
        invariant Report(modifier, slots[..]) == HeldBy(states[..], i)
      {
        modifier := modifier + states[i].modifier;
        PutKeys(slots, states[i].keys);
      }
      return Report(modifier, slots[..]);
    }

    /** The same, less what is latched. */
    method CombineLocal() returns (report: Report)
      requires Valid()
      ensures report == LocalReport(State())
    {
      var held := CombineHeld();
      var slots := new Byte[CAPACITY](i requires 0 <= i < CAPACITY => held.keys[i]);
      assert slots[..] == held.keys;
      latch.MaskSlots(slots);
      return Report(held.modifier - latch.modifier, slots[..]);
    }

    /** One report from a device: what happens to the keys and the latch. */
    method ProcessReport(table: seq<Hotkey>, device: nat, r: Report)
      requires Valid()
      modifies this, states, latch, latch.keys
      ensures Valid() && State() == Process(table, old(State()), device, r)
    {
      UpdateState(device, r);
      var held := CombineHeld();
      latch.ReleaseTo(held);
      var chord := Chord(table, r);
      if chord.Some? {
        latch.HoldChord(chord.value);
      }
    }

    method UpdateState(device: nat, r: Report)
      requires Valid()
      modifies this, states
      ensures Valid() && State() == Update(old(State()), device, r)
    {
      if device >= DEVICES {
        return;
      }
      states[device] := r;
      assert states[..] == old(states[..])[device := r];
      if largest < device {
        largest := device;
      }
    }
  }
}
