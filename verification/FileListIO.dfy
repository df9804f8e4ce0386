/** The file list's encoder and decoder as they work: a buffer filled piece by piece, and a cursor moved over text. */
module FileListIO {
  import opened Basics
  import opened FileNames
  import opened FileList

  /* -------------------------------------------------------------- encoding */

  /** Append `text` at `at` if it fits below `cap`. */
  method Put(out: array<char>, at: nat, cap: nat, text: string) returns (ok: bool, end: nat)
    requires at <= cap <= out.Length
    modifies out
    ensures ok == (at + |text| <= cap) && end == (if ok then at + |text| else at)
    ensures out[..end] == old(out[..at]) + if ok then text else ""
  {
    if at + |text| > cap {
      return false, at;
    }
    forall i | 0 <= i < |text| {
      out[at + i] := text[i];
    }
    ok, end := true, at + |text|;
    assert out[at..end] == text;
    assert out[..at] == old(out[..at]);
    assert out[..end] == out[..at] + out[at..end];
  }

  /** The decimal digits of a value, divided down from the back. */
  method WriteDecimal(size: nat) returns (digits: string)
    ensures digits == Decimal(size)
  {
    var value := size;
    digits := [Digit(value % 10)];
    value := value / 10;
    while value != 0
      invariant Decimal(size) == (if value == 0 then digits else Decimal(value) + digits)
    {
      digits := [Digit(value % 10)] + digits;
      value := value / 10;
    }
  }

  /** The parts of an item, one after the other while they fit. */
  method PutParts(out: array<char>, start: nat, cap: nat, open: string, name: string, key: string, digits: string)
    returns (ok: bool, at: nat)
    requires start <= cap <= out.Length
    modifies out
    ensures var item := open + (name + (key + (digits + "}")));
            && ok == (start + |item| <= cap)
            && (ok ==> at == start + |item| && out[..at] == old(out[..start]) + item)
  {
    ghost var before := out[..start];
    ok, at := Put(out, start, cap, open);
    if !ok { return; }
    ok, at := Put(out, at, cap, name);
    if !ok { return; }
    ok, at := Put(out, at, cap, key);
    if !ok { return; }
    ok, at := Put(out, at, cap, digits);
    if !ok { return; }
    ok, at := Put(out, at, cap, "}");
    if !ok { return; }
    PiecesJoin(before, open, name, key, digits, "}");
  }

  method CleanName(name: string) returns (cleaned: string)
    ensures cleaned == Clean(name, NAME_CAP)
  {
    var scratch := new char[256];
    var n := CleanInto(name, scratch);
    return scratch[..n];
  }

  method PutItem(out: array<char>, start: nat, cap: nat, name: string, size: nat) returns (ok: bool, at: nat)
    requires start <= cap <= out.Length
    modifies out
    ensures var item := ItemText(name, size);
            && ok == (start + |item| <= cap)
            && (ok ==> at == start + |item| && out[..at] == old(out[..start]) + item)
  {
    var digits := WriteDecimal(size);
    ItemPieces(name, size);
    ok, at := PutParts(out, start, cap, Key("{", NAME_KEY) + "\"", name, "\"" + Key(",", SIZE_KEY), digits);
  }

  lemma ItemPieces(name: string, size: nat)
    ensures ItemText(name, size)
         == Key("{", NAME_KEY) + "\"" + (name + ("\"" + Key(",", SIZE_KEY) + (Decimal(size) + "}")))
  {
    JoinSix(Key("{", NAME_KEY) + "\"", name, "\"", Key(",", SIZE_KEY), Decimal(size), "}");
  }

  lemma JoinSix(a: string, b: string, c: string, d: string, e: string, f: string)
    ensures a + b + c + (d + e + f) == a + (b + (c + d + (e + f)))
  {
  }

  lemma PiecesJoin(s: string, a: string, b: string, c: string, d: string, e: string)
    ensures s + a + b + c + d + e == s + (a + (b + (c + (d + e))))
  {
  }

  /** What one turn of the encoder's loop writes. */
  function TurnText(i: nat, name: string, size: nat): string {
    (if i > 0 then "," else "") + ItemText(name, size)
  }

  lemma Joined(a: string, b: string, c: string)
    ensures a + b + c == a + (b + c) && a + "" == a
  {
  }

  method PutTurn(out: array<char>, start: nat, cap: nat, i: nat, name: string, size: nat) returns (ok: bool, at: nat)
    requires start <= cap <= out.Length
    modifies out
    ensures var t := TurnText(i, name, size);
            && ok == (start + |t| <= cap)
            && (ok ==> at == start + |t| && out[..at] == old(out[..start]) + t)
  {
    ghost var before, item := out[..start], ItemText(name, size);
    ok, at := true, start;
    if i > 0 {
      ok, at := Put(out, at, cap, ",");
      if !ok { return; }
    }
    ok, at := PutItem(out, at, cap, name, size);
    Joined(before, if i > 0 then "," else "", item);
  }

  /** The cleaned name of an entry, which is never empty. */
  method CleanAt(es: seq<Entry>, i: nat) returns (name: string)
    requires i < |es|
    ensures name == Cleaned(es)[i].name && name != ""
  {
    name := CleanName(es[i].name);
    CleanAgain(es[i].name);
  }

  /** What is written and the entries from `i` on make up the list. */
  ghost predicate Upto(written: string, es: seq<Entry>, i: nat, json: string)
    requires i <= |es|
  {
    written + Text(es, i) == json
  }

  /** One turn of the loop: what is written, and the text still to come, go on making up the list. */
  method PutEntry(es: seq<Entry>, i: nat, out: array<char>, start: nat, cap: nat, ghost json: string)
    returns (ok: bool, at: nat)
    requires i < |es| && start <= cap <= out.Length && Upto(out[..start], Cleaned(es), i, json)
    modifies out
    ensures if ok then at <= cap && Upto(out[..at], Cleaned(es), i + 1, json) else |json| > cap
  {
    var name := CleanAt(es, i);
    TextSteps(out[..start], Cleaned(es), i);
    ok, at := PutTurn(out, start, cap, i, name, es[i].size);
  }

  /** The entries in turn, while they fit below `cap`. */
  method PutEntries(es: seq<Entry>, out: array<char>, start: nat, cap: nat, ghost json: string)
    returns (ok: bool, at: nat)
    requires start <= cap <= out.Length && Upto(out[..start], Cleaned(es), 0, json)
    modifies out
    ensures if ok then at <= cap && out[..at] + "]" == json else |json| > cap
  {
    ok, at := true, start;
    var i := 0;
    while ok && i < |es|
      invariant i <= |es|
      invariant if ok then at <= cap && Upto(out[..at], Cleaned(es), i, json) else |json| > cap
      decreases |es| - i
    {
      ok, at := PutEntry(es, i, out, at, cap, json);
      i := i + 1;
    }
    if ok {
      ListEnds(out[..at], Cleaned(es), json);
    }
  }

  lemma ListEnds(written: string, es: seq<Entry>, json: string)
    requires Upto(written, es, |es|, json)
    ensures written + "]" == json
  {
  }

  /** The whole list between its brackets. */
  method PutList(out: array<char>, cap: nat, es: seq<Entry>, ghost json: string) returns (ok: bool, at: nat)
    requires cap <= out.Length && json == "[" + Text(Cleaned(es), 0)
    modifies out
    ensures ok == (|json| <= cap)
    ensures ok ==> at == |json| && out[..at] == json
  {
    ok, at := Put(out, 0, cap, "[");
    if !ok { return; }
    ok, at := PutEntries(es, out, at, cap, json);
    if !ok { return; }
    ok, at := Put(out, at, cap, "]");
  }

  lemma TextSteps(done: string, es: seq<Entry>, i: nat)
    requires i < |es|
    ensures done + Text(es, i) == done + TurnText(i, es[i].name, es[i].size) + Text(es, i + 1)
  {
    TextJoins(done, if i > 0 then "," else "", ItemText(es[i].name, es[i].size), Text(es, i + 1));
  }

  /** Encode a list into a buffer: the length written, or -1. */
  method EncodeInto(es: seq<Entry>, out: array<char>) returns (r: int)
    modifies out
    ensures r == (match Encode(es, out.Length) case Some(json) => |json| case None => -1)
    ensures Encode(es, out.Length).Some? ==> r <= out.Length && out[..r] == Encode(es, out.Length).value
  {
    if |es| == 0 || |es| > LIST_MAX {
      return -1;
    }
    var cap := if out.Length > META_MAX then META_MAX else out.Length;
    var ok, at := PutList(out, cap, es, "[" + Text(Cleaned(es), 0));
    return if ok then at else -1;
  }

  lemma TextJoins(done: string, comma: string, item: string, rest: string)
    ensures done + (comma + item + rest) == done + (comma + item) + rest
  {
  }

  /* -------------------------------------------------------------- decoding */

  /** A position in a text, moved forward by each thing taken from it. */
  class Cursor {
    const text: string
    var at: nat

    ghost predicate Valid()
      reads this
    {
      at <= |text|
    }

    ghost function Rest(): string
      requires Valid()
      reads this
    {
      text[at..]
    }

    constructor (json: string)
      ensures Valid() && Rest() == json
    {
      text, at := json, 0;
    }

    method SkipBlanks()
      requires Valid()
      modifies this
      ensures Valid() && Rest() == SkipSpace(old(Rest())) && at >= old(at)
    {
      while at < |text| && Space(text[at])
        invariant old(at) <= at && Valid() && SkipSpace(Rest()) == SkipSpace(old(Rest()))
      {
        assert text[at..][1..] == text[at + 1..];
        at := at + 1;
      }
    }

    /** The rest is what a parser left, if it succeeded. */
    ghost predicate Left(r: Option<string>)
      requires Valid()
      reads this
    {
      r.Some? ==> Rest() == r.value
    }

    method TakeWord(expected: string) returns (ok: bool)
      requires Valid()
      modifies this
      ensures Valid() && ok == TakeText(old(Rest()), expected).Some? && Left(TakeText(old(Rest()), expected))
    {
      SkipBlanks();
      var n := |expected|;
      if |text| - at < n {
        return false;
      }
      Sliced(text, at, n);
      if text[at..at + n] != expected {
        return false;
      }
      at := at + n;
      return true;
    }

    /** How far the closing quote is, if no escape stands before it. */
    method FindQuote() returns (r: Option<nat>)
      requires Valid()
      ensures r == StringEnd(Rest())
    {
      var n := 0;
      while at + n < |text| && text[at + n] != '"'
        invariant 0 <= n <= |text| - at
        invariant StringEnd(Rest()) == Plus(StringEnd(text[at + n..]), n)
      {
        assert text[at + n..][1..] == text[at + n + 1..];
        if text[at + n] == '\\' { return None; }
        n := n + 1;
      }
      return if at + n >= |text| then None else Some(n);
    }

    method TakeQuoted() returns (name: Option<string>)
      requires Valid()
      modifies this
      ensures Valid()
      ensures var r := TakeString(old(Rest()));
              && name == (if r.Some? then Some(r.value.0) else None)
              && (r.Some? ==> Rest() == r.value.1)
    {
      var ok := TakeWord("\"");
      if !ok { return None; }
      var n := FindQuote();
      if n.None? || n.value > NAME_MAX { return None; }
      Sliced(text, at, n.value);
      Sliced(text, at, n.value + 1);
      name := Some(text[at..at + n.value]);
      at := at + n.value + 1;
    }

    /** The digits ahead, unless they overflow. */
    method ReadDigits() returns (size: Option<U64>)
      requires Valid()
      modifies this
      ensures Valid() && at >= old(at)
      ensures at == old(at) && size.Some? ==> at == |text| || !IsDigit(text[at])
      ensures var r := Digits(old(Rest()), 0);
              && size == (if r.Some? then Some(r.value.0) else None)
              && (r.Some? ==> Rest() == r.value.1)
    {
      var value: U64 := 0;
      while at < |text| && IsDigit(text[at])
        invariant Valid() && at >= old(at) && Digits(Rest(), value) == Digits(old(Rest()), 0)
      {
        assert Rest()[0] == text[at] && Rest()[1..] == text[at + 1..];
        var digit := text[at] as int - '0' as int;
        if value > (U64_MAX - digit) / 10 { return None; }
        value := value * 10 + digit;
        at := at + 1;
      }
      size := Some(value);
    }

    method TakeNumber() returns (size: Option<U64>)
      requires Valid()
      modifies this
      ensures Valid()
      ensures var r := TakeU64(old(Rest()));
              && size == (if r.Some? then Some(r.value.0) else None)
              && (r.Some? ==> Rest() == r.value.1)
    {
      SkipBlanks();
      var start := at;
      ghost var t := Rest();
      size := ReadDigits();
      if size.Some? && at == start { return None; }
    }

    method TakeMember(mark: string, key: string) returns (ok: bool)
      requires Valid()
      modifies this
      ensures Valid() && ok == TakeKey(old(Rest()), mark, key).Some? && Left(TakeKey(old(Rest()), mark, key))
    {
      ok := TakeWord(mark);
      if !ok { return; }
      ok := TakeWord(key);
      if !ok { return; }
      ok := TakeWord(":");
    }

    method TakeCleanName() returns (name: Option<string>)
      requires Valid()
      modifies this
      ensures Valid()
      ensures var r := TakeName(old(Rest()), IsClean);
              && name == (if r.Some? then Some(r.value.0) else None)
              && (r.Some? ==> Rest() == r.value.1)
    {
      var ok := TakeMember("{", NAME_KEY);
      if !ok { return None; }
      name := TakeQuoted();
      if name.None? { return; }
      var clean := CheckClean(name.value);
      if !clean { return None; }
    }

    method TakeItem() returns (e: Option<Entry>)
      requires Valid()
      modifies this
      ensures Valid()
      ensures var r := TakeEntry(old(Rest()), IsClean);
              && e == (if r.Some? then Some(r.value.0) else None)
              && (r.Some? ==> Rest() == r.value.1)
    {
      var name := TakeCleanName();
      if name.None? { return None; }
      var size := TakeSizeMember();
      if size.None? { return None; }
      e := Some(Entry(name.value, size.value));
    }

    method TakeSizeMember() returns (size: Option<U64>)
      requires Valid()
      modifies this
      ensures Valid()
      ensures var r := TakeSize(old(Rest()));
              && size == (if r.Some? then Some(r.value.0) else None)
              && (r.Some? ==> Rest() == r.value.1)
    {
      var ok := TakeMember(",", SIZE_KEY);
      if !ok { return None; }
      size := TakeNumber();
      if size.None? { return; }
      ok := TakeWord("}");
      if !ok { return None; }
    }

    method TakeSeparator(list: Listing) returns (ok: bool)
      requires Valid()
      modifies this
      ensures Valid() && ok == Separator(old(Rest()), list).Some? && Left(Separator(old(Rest()), list))
    {
      ok := true;
      if |list.entries| > 0 {
        ok := TakeWord(",");
      }
    }

    /** One turn of the loop: the list with one more entry. */
    method TakeTurn(list: Listing) returns (longer: Option<Listing>)
      requires Valid()
      modifies this
      ensures Valid()
      ensures var r := Turn(old(Rest()), list, IsClean);
              && longer == (if r.Some? then Some(r.value.0) else None)
              && (r.Some? ==> Rest() == r.value.1)
    {
      var ok := TakeSeparator(list);
      if !ok { return None; }
      if |list.entries| >= LIST_MAX { return None; }
      var e := TakeItem();
      if e.None? { return None; }
      longer := Append(list, e.value);
      if longer.None? { return; }
      SkipBlanks();
    }
  }

  lemma Sliced(text: string, at: nat, n: nat)
    requires at + n <= |text|
    ensures text[at..][..n] == text[at..at + n] && text[at..][n..] == text[at + n..]
  {
  }

  function Plus(r: Option<nat>, n: nat): Option<nat> {
    if r.None? then None else Some(r.value + n)
  }

  /** Read a list, or refuse it. */
  method DecodeText(json: string) returns (r: Option<Listing>)
    ensures r == Decode(json)
  {
    var c := new Cursor(json);
    var ok := c.TakeWord("[");
    if !ok { return None; }
    c.SkipBlanks();
    var list := Listing([], 0);
    ghost var entries := Entries(c.Rest(), list, IsClean);
    if c.at == |c.text| { return None; }
    while c.text[c.at] != ']'
      invariant c.Valid() && c.at < |c.text|
      invariant Entries(c.Rest(), list, IsClean) == entries
      decreases |c.Rest()|
    {
      EntriesTurn(c.Rest(), list, IsClean, Turn(c.Rest(), list, IsClean));
      var longer := c.TakeTurn(list);
      if longer.None? { return None; }
      list := longer.value;
      if c.at == |c.text| { return None; }
    }
    ok := c.TakeWord("]");
    if !ok { return None; }
    c.SkipBlanks();
    return if c.at == |c.text| && |list.entries| > 0 then Some(list) else None;
  }
}
