/**
  * Hotkey bindings: ordered once so that the first match is a most specific one,
  * then matched against what a keyboard reports. The eight modifier bits are a set.
  */
module Hotkeys {
  import opened Basics

  const CAPACITY := 6
  const ACTION_COUNT := 13
  const MOUSE_ZOOM: Byte := 1
  const CONFIG_ENABLE: Byte := 10
  const PAIR: Byte := 0xfe

  type Modifiers = m: set<nat> | forall b :: b in m ==> b < 8

  /** Six key slots; an empty one is zero. */
  type Keys = k: seq<Byte> | |k| == CAPACITY witness [0, 0, 0, 0, 0, 0]

  datatype Hotkey = Hotkey(modifier: Modifiers, keys: Keys, keyCount: nat, action: Byte)

  function Specificity(h: Hotkey): nat {
    |h.modifier| + h.keyCount
  }

  /* -------------------------------------------------------------- ordering */

  /** `x` behind everything at least as specific. */
  function Insert(s: seq<Hotkey>, x: Hotkey): (r: seq<Hotkey>)
    ensures |r| == |s| + 1
  {
    if s != [] && Specificity(s[|s| - 1]) < Specificity(x)
    then Insert(s[..|s| - 1], x) + [s[|s| - 1]]
    else s + [x]
  }

  function Prepared(s: seq<Hotkey>): (r: seq<Hotkey>)
    ensures |r| == |s|
  {
    if s == [] then [] else Insert(Prepared(s[..|s| - 1]), s[|s| - 1])
  }

  predicate Descending(s: seq<Hotkey>) {
    forall i, j :: 0 <= i < j < |s| ==> Specificity(s[i]) >= Specificity(s[j])
  }

  /** The bindings of one specificity, in order. */
  function OfRank(s: seq<Hotkey>, rank: nat): seq<Hotkey> {
    if s == [] then []
    else OfRank(s[..|s| - 1], rank) + if Specificity(s[|s| - 1]) == rank then [s[|s| - 1]] else []
  }

  lemma RankSnoc(s: seq<Hotkey>, x: Hotkey, rank: nat)
    ensures OfRank(s + [x], rank) == OfRank(s, rank) + if Specificity(x) == rank then [x] else []
  {
    assert (s + [x])[..|s|] == s;
  }

  lemma {:induction false} InsertDescends(s: seq<Hotkey>, x: Hotkey)
    requires Descending(s)
    ensures Descending(Insert(s, x))
    ensures forall y :: y in Insert(s, x) ==> y in s || y == x
  {
    if s != [] && Specificity(s[|s| - 1]) < Specificity(x) {
      var t := s[..|s| - 1];
      InsertDescends(t, x);
      forall i, j | 0 <= i < j < |Insert(s, x)|
        ensures Specificity(Insert(s, x)[i]) >= Specificity(Insert(s, x)[j])
      {
        if j == |t| + 1 {
          assert Insert(s, x)[i] in Insert(t, x);
        }
      }
    }
  }

  lemma {:induction false} InsertPermutes(s: seq<Hotkey>, x: Hotkey)
    ensures multiset(Insert(s, x)) == multiset(s) + multiset{x}
  {
    if s != [] && Specificity(s[|s| - 1]) < Specificity(x) {
      InsertPermutes(s[..|s| - 1], x);
      assert s == s[..|s| - 1] + [s[|s| - 1]];
    }
  }

  lemma SwapsPast(a: seq<Hotkey>, x: Hotkey, last: Hotkey, rank: nat)
    requires Specificity(last) < Specificity(x)
    ensures a + (if Specificity(x) == rank then [x] else []) + (if Specificity(last) == rank then [last] else [])
         == a + (if Specificity(last) == rank then [last] else []) + (if Specificity(x) == rank then [x] else [])
  {
  }

  /** A binding goes behind all of its own rank. */
  lemma {:induction false} InsertIsStable(s: seq<Hotkey>, x: Hotkey, rank: nat)
    ensures OfRank(Insert(s, x), rank) == OfRank(s, rank) + if Specificity(x) == rank then [x] else []
  {
    if s != [] && Specificity(s[|s| - 1]) < Specificity(x) {
      var t, last := s[..|s| - 1], s[|s| - 1];
      InsertIsStable(t, x, rank);
      RankSnoc(Insert(t, x), last, rank);
      SwapsPast(OfRank(t, rank), x, last, rank);
    } else {
      RankSnoc(s, x, rank);
    }
  }

  /** Preparing is a stable descending sort: a permutation, with bindings of one specificity in the order they came. */
  lemma {:induction false} PreparedSorts(s: seq<Hotkey>)
    ensures Descending(Prepared(s))
    ensures multiset(Prepared(s)) == multiset(s)
    ensures forall rank :: OfRank(Prepared(s), rank) == OfRank(s, rank)
  {
    if s != [] {
      var t, x := s[..|s| - 1], s[|s| - 1];
      assert s == t + [x];
      PreparedSorts(t);
      InsertDescends(Prepared(t), x);
      forall rank ensures OfRank(Prepared(s), rank) == OfRank(s, rank) {
        InsertIsStable(Prepared(t), x, rank);
      }
      InsertPermutes(Prepared(t), x);
    }
  }

  lemma PreparedNext(s: seq<Hotkey>, i: nat)
    requires i < |s|
    ensures Prepared(s[..i + 1]) == Insert(Prepared(s[..i]), s[i])
    ensures Prepared(s[..1]) == s[..1]
  {
    assert s[..i + 1][..i] == s[..i];
    assert s[..1][..0] == [];
  }

  /** Insertion in place, one binding at a time. */
  method Prepare(a: array<Hotkey>)
    modifies a
    ensures a[..] == Prepared(old(a[..]))
  {
    if a.Length == 0 {
      return;
    }
    ghost var was := a[..];
    PreparedNext(was, 0);
    for i := 1 to a.Length
      invariant a[..i] == Prepared(was[..i])
      invariant forall k :: i <= k < a.Length ==> a[k] == was[k]
    {
      PreparedNext(was, i);
      InsertAt(a, i);
    }
    assert was[..a.Length] == was;
  }

  lemma {:induction false} InsertPast(s: seq<Hotkey>, position: nat, x: Hotkey)
    requires position <= |s| && forall k :: position <= k < |s| ==> Specificity(s[k]) < Specificity(x)
    requires position > 0 ==> Specificity(s[position - 1]) >= Specificity(x)
    ensures Insert(s, x) == s[..position] + [x] + s[position..]
  {
    if position < |s| {
      var t := s[..|s| - 1];
      assert s == t + [s[|s| - 1]];
      InsertPast(t, position, x);
      LastOnTop(s, t, s[|s| - 1], position, x);
    } else {
      AtTheEnd(s, x);
    }
  }

  lemma LastOnTop<T>(s: seq<T>, t: seq<T>, last: T, p: nat, x: T)
    requires p <= |t| && s == t + [last]
    ensures t[..p] + [x] + t[p..] + [last] == s[..p] + [x] + s[p..]
  {
  }

  lemma AtTheEnd<T>(s: seq<T>, x: T)
    ensures s + [x] == s[..|s|] + [x] + s[|s|..]
  {
  }

  lemma Inserted(t: seq<Hotkey>, before: seq<Hotkey>, position: nat, x: Hotkey)
    requires position <= |before| && |t| == |before| + 1 && t[position] == x
    requires forall k :: 0 <= k < position ==> t[k] == before[k]
    requires forall k :: position < k < |t| ==> t[k] == before[k - 1]
    requires forall k :: position <= k < |before| ==> Specificity(before[k]) < Specificity(x)
    requires position > 0 ==> Specificity(before[position - 1]) >= Specificity(x)
    ensures t == Insert(before, x)
  {
    InsertPast(before, position, x);
  }

  /** Move the binding at `i` down past those less specific. */
  method InsertAt(a: array<Hotkey>, i: nat)
    requires i < a.Length
    modifies a
    ensures a[..i + 1] == Insert(old(a[..i]), old(a[i]))
    ensures forall k :: i < k < a.Length ==> a[k] == old(a[k])
  {
    var candidate := a[i];
    var position := i;
    ghost var before := a[..i];
    while position > 0 && Specificity(a[position - 1]) < Specificity(candidate)
      invariant position <= i
      invariant forall k :: 0 <= k < position ==> a[k] == before[k]
      invariant forall k :: position < k <= i ==> a[k] == before[k - 1]
      invariant forall k :: i < k < a.Length ==> a[k] == old(a[k])
      invariant forall k :: position <= k < i ==> Specificity(before[k]) < Specificity(candidate)
    {
      a[position] := a[position - 1];
      position := position - 1;
    }
    a[position] := candidate;
    Inserted(a[..i + 1], before, position, candidate);
  }

  /* -------------------------------------------------------------- matching */

  predicate Contains(keys: Keys, wanted: Byte) {
    wanted != 0 && wanted in keys
  }

  predicate Matches(h: Hotkey, modifier: Modifiers, keys: Keys) {
    && h.keyCount <= CAPACITY
    && h.modifier <= modifier
    && forall i :: 0 <= i < h.keyCount ==> Contains(keys, h.keys[i])
  }

  /** The first binding that matches. */
  function Match(s: seq<Hotkey>, modifier: Modifiers, keys: Keys): Option<Hotkey> {
    if s == [] then None
    else if Matches(s[0], modifier, keys) then Some(s[0])
    else Match(s[1..], modifier, keys)
  }

  lemma {:induction false} MatchIsFirst(s: seq<Hotkey>, modifier: Modifiers, keys: Keys)
    ensures Match(s, modifier, keys).None? <==> forall h :: h in s ==> !Matches(h, modifier, keys)
    ensures Match(s, modifier, keys).Some? ==>
              exists i :: 0 <= i < |s| && s[i] == Match(s, modifier, keys).value && Matches(s[i], modifier, keys)
                          && forall j :: 0 <= j < i ==> !Matches(s[j], modifier, keys)
  {
    if s != [] && !Matches(s[0], modifier, keys) {
      MatchIsFirst(s[1..], modifier, keys);
      if Match(s, modifier, keys).Some? {
        var i :| 0 <= i < |s[1..]| && s[1..][i] == Match(s, modifier, keys).value && Matches(s[1..][i], modifier, keys)
                 && forall j :: 0 <= j < i ==> !Matches(s[1..][j], modifier, keys);
        assert s[i + 1] == s[1..][i];
        forall j | 0 <= j < i + 1 ensures !Matches(s[j], modifier, keys) {
          if j > 0 {
            assert s[j] == s[1..][j - 1];
          }
        }
      }
    } else if s != [] {
      assert s[0] in s;
    }
  }

  /**
    * Matching a prepared table finds a binding exactly when one matches, and then
    * one that no matching binding is more specific than; among equals, the one the
    * table had first.
    */
  lemma MatchIsMostSpecific(table: seq<Hotkey>, modifier: Modifiers, keys: Keys)
    ensures var m := Match(Prepared(table), modifier, keys);
            if m.None? then forall h :: h in table ==> !Matches(h, modifier, keys)
            else && m.value in table && Matches(m.value, modifier, keys)
                 && (forall h :: h in table && Matches(h, modifier, keys) ==> Specificity(h) <= Specificity(m.value))
                 && Match(OfRank(table, Specificity(m.value)), modifier, keys) == m
  {
    var s := Prepared(table);
    PreparedSorts(table);
    MatchIsFirst(s, modifier, keys);
    SameMembers(table, s);
    var m := Match(s, modifier, keys);
    if m.Some? {
      var i :| 0 <= i < |s| && s[i] == m.value && Matches(s[i], modifier, keys)
               && forall j :: 0 <= j < i ==> !Matches(s[j], modifier, keys);
      RankMatch(s, i, modifier, keys, Specificity(m.value));
    }
  }

  lemma SameMembers(s: seq<Hotkey>, t: seq<Hotkey>)
    requires multiset(s) == multiset(t)
    ensures forall h :: h in s <==> h in t
  {
    forall h ensures h in s <==> h in t {
      assert h in s <==> h in multiset(s);
      assert h in t <==> h in multiset(t);
    }
  }

  /** The first match of a list is the first match of its own rank. */
  lemma {:induction false} RankMatch(s: seq<Hotkey>, i: nat, modifier: Modifiers, keys: Keys, rank: nat)
    requires i < |s| && Matches(s[i], modifier, keys) && Specificity(s[i]) == rank
    requires forall j :: 0 <= j < i ==> !Matches(s[j], modifier, keys)
    ensures Match(OfRank(s, rank), modifier, keys) == Some(s[i])
  {
    var t, x := s[..|s| - 1], s[|s| - 1];
    if i == |t| {
      RankNone(t, modifier, keys, rank);
      MatchAppend(OfRank(t, rank), x, modifier, keys);
    } else {
      RankMatch(t, i, modifier, keys, rank);
      if Specificity(x) == rank {
        MatchAppend(OfRank(t, rank), x, modifier, keys);
      } else {
        assert OfRank(t, rank) + [] == OfRank(t, rank);
      }
    }
  }

  lemma {:induction false} RankNone(s: seq<Hotkey>, modifier: Modifiers, keys: Keys, rank: nat)
    requires forall j :: 0 <= j < |s| ==> !Matches(s[j], modifier, keys)
    ensures Match(OfRank(s, rank), modifier, keys) == None
  {
    if s != [] {
      var t, x := s[..|s| - 1], s[|s| - 1];
      RankNone(t, modifier, keys, rank);
      if Specificity(x) == rank {
        MatchAppend(OfRank(t, rank), x, modifier, keys);
      } else {
        assert OfRank(t, rank) + [] == OfRank(t, rank);
      }
    }
  }

  lemma {:induction false} MatchAppend(s: seq<Hotkey>, x: Hotkey, modifier: Modifiers, keys: Keys)
    ensures Match(s + [x], modifier, keys)
         == (if Match(s, modifier, keys).Some? then Match(s, modifier, keys)
             else if Matches(x, modifier, keys) then Some(x) else None)
  {
    if s == [] {
      assert s + [x] == [x] && [x][1..] == [];
    } else {
      assert (s + [x])[1..] == s[1..] + [x];
      MatchAppend(s[1..], x, modifier, keys);
    }
  }

  /** The scan itself. */
  method FindMatch(a: array<Hotkey>, modifier: Modifiers, keys: Keys) returns (m: Option<Hotkey>)
    ensures m == Match(a[..], modifier, keys)
  {
    assert a[0..] == a[..];
    for i := 0 to a.Length
      invariant Match(a[..], modifier, keys) == Match(a[i..], modifier, keys)
    {
      var h := a[i];
      assert a[i..][1..] == a[i + 1..];
      if h.keyCount > CAPACITY || !(h.modifier <= modifier) {
        continue;
      }
      var k := 0;
      while k < h.keyCount && Contains(keys, h.keys[k])
        invariant 0 <= k <= h.keyCount && forall j :: 0 <= j < k ==> Contains(keys, h.keys[j])
      {
        k := k + 1;
      }
      if k == h.keyCount {
        return Some(h);
      }
    }
    return None;
  }

  const FIXED: seq<Hotkey> := [
    Hotkey({0, 5}, [0x06, 0x12, 0, 0, 0, 0], 2, CONFIG_ENABLE),
    Hotkey({0, 5}, [0x13, 0, 0, 0, 0, 0], 1, PAIR)]

  /** The fixed chords win over the table; a binding of no known action is no match. */
  function Resolve(table: seq<Hotkey>, modifier: Modifiers, keys: Keys): Option<Hotkey> {
    var fixed := Match(FIXED, modifier, keys);
    var m := if fixed.Some? then fixed else Match(table, modifier, keys);
    if m.Some? && (m.value.action < ACTION_COUNT || m.value.action == PAIR) then m else None
  }

  /** A chord whose keys the OS still gets. */
  predicate PassesToOs(h: Hotkey) {
    h.action == MOUSE_ZOOM
  }

  lemma ResolvedMatches(table: seq<Hotkey>, modifier: Modifiers, keys: Keys)
    ensures var m := Resolve(table, modifier, keys); m.Some? ==> Matches(m.value, modifier, keys)
  {
    MatchIsFirst(FIXED, modifier, keys);
    MatchIsFirst(table, modifier, keys);
  }

  /** The fingers hold it: every modifier of a binding and every one of its keys. */
  predicate FingersHold(h: Hotkey, modifier: Modifiers, keys: Keys) {
    && h.keyCount <= 6
    && (forall b :: b in h.modifier ==> b in modifier)
    && (forall k :: k in h.keys[..h.keyCount] ==> k != 0 && k in keys)
  }

  lemma FingersMatch(h: Hotkey, modifier: Modifiers, keys: Keys)
    ensures Matches(h, modifier, keys) <==> FingersHold(h, modifier, keys)
  {
    if Matches(h, modifier, keys) {
      forall k | k in h.keys[..h.keyCount] ensures k != 0 && k in keys {
        var i :| 0 <= i < h.keyCount && h.keys[i] == k;
        assert Contains(keys, h.keys[i]);
      }
    }
    if FingersHold(h, modifier, keys) {
      forall i | 0 <= i < h.keyCount ensures Contains(keys, h.keys[i]) {
        assert h.keys[i] in h.keys[..h.keyCount];
      }
    }
  }

  lemma FixedHeld(modifier: Modifiers, keys: Keys)
    ensures Match(FIXED, modifier, keys)
         == if 0 in modifier && 5 in modifier && 0x06 in keys && 0x12 in keys then Some(FIXED[0])
            else if 0 in modifier && 5 in modifier && 0x13 in keys then Some(FIXED[1])
            else None
  {
    assert FIXED[0].keys[0] == 0x06 && FIXED[0].keys[1] == 0x12 && FIXED[1].keys[0] == 0x13;
    assert Matches(FIXED[0], modifier, keys) <==> 0 in modifier && 5 in modifier && 0x06 in keys && 0x12 in keys;
    assert Matches(FIXED[1], modifier, keys) <==> 0 in modifier && 5 in modifier && 0x13 in keys;
    var rest := FIXED[1..];
    assert rest[0] == FIXED[1] && rest[1..] == [];
    assert Match(rest[1..], modifier, keys) == None;
    assert Match(rest, modifier, keys) == if Matches(FIXED[1], modifier, keys) then Some(FIXED[1]) else None;
  }

  /**
    * What a report resolves to under any bindings. Left Ctrl and Right Shift with C and O
    * is always the way into configuration, with P always pairing. Otherwise it is a
    * binding the fingers hold that none they hold is more specific than, if it has an
    * action; and nothing when they hold none.
    */
  lemma ResolveDecides(bindings: seq<Hotkey>, modifier: Modifiers, keys: Keys)
    ensures var m := Resolve(Prepared(bindings), modifier, keys);
            var fixed := 0 in modifier && 5 in modifier;
            if fixed && 0x06 in keys && 0x12 in keys then m.Some? && m.value.action == 10
            else if fixed && 0x13 in keys then m.Some? && m.value.action == 0xfe
            else && (m.Some? ==>
                       && m.value in bindings && FingersHold(m.value, modifier, keys)
                       && (m.value.action < 13 || m.value.action == 0xfe)
                       && forall h :: h in bindings && FingersHold(h, modifier, keys) ==> Specificity(h) <= Specificity(m.value))
                 && ((forall h :: h in bindings ==> !FingersHold(h, modifier, keys)) ==> m.None?)
                 && ((exists h :: h in bindings && FingersHold(h, modifier, keys))
                     && (forall h :: h in bindings && FingersHold(h, modifier, keys) ==> h.action < 13 || h.action == 0xfe)
                     ==> m.Some?)
  {
    FixedHeld(modifier, keys);
    MatchIsMostSpecific(bindings, modifier, keys);
    forall h ensures Matches(h, modifier, keys) <==> FingersHold(h, modifier, keys) {
      FingersMatch(h, modifier, keys);
    }
  }
}
