/**
  * The language of file lists: every way to spell one, with blanks between its tokens,
  * and that the decoder reads exactly those.
  */
module FileGrammar {
  import opened Basics
  import opened FileNames
  import opened FileList

  /* ---------------------------------------------------------------- how it is spelled */

  /** Blanks, tabs and line ends. */
  predicate Blanks(w: string) {
    forall i :: 0 <= i < |w| ==> w[i] as int == 32 || w[i] as int == 9 || w[i] as int == 10 || w[i] as int == 13
  }

  /** A token after some blanks, and what follows it. */
  function Lexed(w: string, t: string, rest: string): string {
    w + (t + rest)
  }

  /** The blanks before each token of an entry. */
  datatype Gaps = Gaps(brace: string, name: string, colon: string, quote: string,
                       comma: string, size: string, colon2: string, number: string, close: string)

  predicate AllBlank(g: Gaps) {
    && Blanks(g.brace) && Blanks(g.name) && Blanks(g.colon) && Blanks(g.quote)
    && Blanks(g.comma) && Blanks(g.size) && Blanks(g.colon2) && Blanks(g.number) && Blanks(g.close)
  }

  /** A number written out, leading zeros allowed. */
  predicate IsNumber(d: string) {
    d != "" && AllDigits(d)
  }

  predicate AllDigits(d: string) {
    d == "" || (48 <= d[0] as int <= 57 && AllDigits(d[1..]))
  }

  function Value(d: string, v: nat): nat
    requires AllDigits(d)
    decreases |d|
  {
    if d == "" then v else Value(d[1..], 10 * v + (d[0] as int - 48))
  }

  /** A name as it stands between quotes: at most 255 bytes, and neither a quote nor a backslash. */
  predicate Quotable(name: string) {
    |name| <= 255 && forall i :: 0 <= i < |name| ==> name[i] as int != 34 && name[i] as int != 92
  }

  function Quoted(name: string, rest: string): string {
    "\"" + (name + ("\"" + rest))
  }

  function SizeSpelled(g: Gaps, digits: string, rest: string): string {
    Lexed(g.comma, ",", Lexed(g.size, "\"size\"", Lexed(g.colon2, ":", Lexed(g.number, digits, Lexed(g.close, "}", rest)))))
  }

  function ItemSpelled(g: Gaps, name: string, digits: string, rest: string): string {
    Lexed(g.brace, "{", Lexed(g.name, "\"name\"", Lexed(g.colon, ":", g.quote + Quoted(name, SizeSpelled(g, digits, rest)))))
  }

  /** An entry as spelled: the blanks before its comma and its tokens, its name, and the digits of its size. */
  datatype Item = Item(sep: string, gaps: Gaps, name: string, digits: string)

  predicate GoodItem(it: Item) {
    Blanks(it.sep) && AllBlank(it.gaps) && Quotable(it.name) && IsNumber(it.digits) && Value(it.digits, 0) <= U64_MAX
  }

  predicate GoodItems(items: seq<Item>) {
    items == [] || (GoodItem(items[0]) && GoodItems(items[1..]))
  }

  predicate AllClean(items: seq<Item>) {
    items == [] || (IsClean(items[0].name) && AllClean(items[1..]))
  }

  /** Entries one after another, a comma before each but the first. */
  function Spelled(first: bool, items: seq<Item>, end: string): string
    decreases |items|
  {
    if items == [] then end
    else
      var it := items[0];
      var text := ItemSpelled(it.gaps, it.name, it.digits, Spelled(false, items[1..], end));
      if first then text else Lexed(it.sep, ",", text)
  }

  function ListSpelled(lead: string, items: seq<Item>, last: string, tail: string): string {
    Lexed(lead, "[", Spelled(true, items, Lexed(last, "]", tail)))
  }

  function EntryOf(it: Item): Entry
    requires GoodItem(it)
  {
    Entry(it.name, Value(it.digits, 0))
  }

  function EntriesOf(items: seq<Item>): (es: seq<Entry>)
    requires GoodItems(items)
    ensures |es| == |items|
  {
    if items == [] then [] else [EntryOf(items[0])] + EntriesOf(items[1..])
  }

  /* ------------------------------------------------------------ it reads all of them */

  lemma {:induction false} BlankIs(c: char)
    ensures Space(c) <==> c as int == 32 || c as int == 9 || c as int == 10 || c as int == 13
  {
  }

  lemma {:induction false} SkipsBlanks(w: string, s: string)
    requires Blanks(w)
    ensures SkipSpace(w + s) == SkipSpace(s)
  {
    if w == "" {
      assert w + s == s;
    } else {
      assert (w + s)[1..] == w[1..] + s && (w + s)[0] == w[0];
      BlankIs(w[0]);
      SkipsBlanks(w[1..], s);
    }
  }

  lemma {:induction false} LexReads(w: string, t: string, rest: string)
    requires Blanks(w) && t != "" && !Space(t[0])
    ensures TakeText(Lexed(w, t, rest), t) == Some(rest)
  {
    SkipsBlanks(w, t + rest);
    assert (t + rest)[..|t|] == t && (t + rest)[|t|..] == rest;
  }

  lemma {:induction false} KeyLexes(w: string, mark: string, w1: string, key: string, w2: string, rest: string)
    requires Blanks(w) && Blanks(w1) && Blanks(w2) && mark != "" && !Space(mark[0]) && key != "" && !Space(key[0])
    ensures TakeKey(Lexed(w, mark, Lexed(w1, key, Lexed(w2, ":", rest))), mark, key) == Some(rest)
  {
    LexReads(w, mark, Lexed(w1, key, Lexed(w2, ":", rest)));
    LexReads(w1, key, Lexed(w2, ":", rest));
    LexReads(w2, ":", rest);
  }

  lemma {:induction false} QuoteEnds(name: string, rest: string)
    requires forall i :: 0 <= i < |name| ==> name[i] as int != 34 && name[i] as int != 92
    ensures StringEnd(name + ("\"" + rest)) == Some(|name|)
  {
    var s := name + ("\"" + rest);
    if name == "" {
      assert s == "\"" + rest;
    } else {
      assert s[1..] == name[1..] + ("\"" + rest) && s[0] == name[0];
      QuoteEnds(name[1..], rest);
    }
  }

  lemma {:induction false} NameLexes(w: string, name: string, rest: string)
    requires Blanks(w) && Quotable(name)
    ensures TakeString(w + Quoted(name, rest)) == Some((name, rest))
  {
    var t := name + ("\"" + rest);
    assert w + Quoted(name, rest) == Lexed(w, "\"", t);
    LexReads(w, "\"", t);
    QuoteEnds(name, rest);
    assert t[..|name|] == name && t[|name| + 1..] == rest;
  }

  lemma {:induction false} ValueGrows(d: string, v: nat)
    requires AllDigits(d)
    ensures v <= Value(d, v)
    decreases |d|
  {
    if d != "" {
      ValueGrows(d[1..], 10 * v + (d[0] as int - 48));
    }
  }

  lemma {:induction false} DigitsLex(d: string, v: U64, rest: string)
    requires AllDigits(d)
    requires (rest == "" || !IsDigit(rest[0])) && Value(d, v) <= U64_MAX
    ensures Digits(d + rest, v) == Some((Value(d, v), rest))
    decreases |d|
  {
    TailConcat(d, rest);
    if d != "" {
      var digit := d[0] as int - 48;
      ValueGrows(d[1..], 10 * v + digit);
      NoOverflow(v, digit);
      DigitsNext(d[0], d[1..] + rest, d + rest, v);
      DigitsLex(d[1..], 10 * v + digit, rest);
    }
  }

  lemma {:induction false} DigitsNext(c: char, t: string, s: string, v: U64)
    requires s != "" && s[0] == c && s[1..] == t && 48 <= c as int <= 57
    requires 10 * v + (c as int - 48) <= U64_MAX && v <= (U64_MAX - (c as int - 48)) / 10
    ensures Digits(s, v) == Digits(t, 10 * v + (c as int - 48))
  {
  }

  lemma {:induction false} NoOverflow(v: nat, digit: nat)
    requires 10 * v + digit <= U64_MAX && digit < 10
    ensures v <= (U64_MAX - digit) / 10
  {
  }

  lemma {:induction false} NumberLexes(w: string, d: string, rest: string)
    requires Blanks(w) && IsNumber(d) && Value(d, 0) <= U64_MAX && (rest == "" || !IsDigit(rest[0]))
    ensures TakeU64(Lexed(w, d, rest)) == Some((Value(d, 0), rest))
  {
    SkipsBlanks(w, d + rest);
    BlankIs(d[0]);
    assert (d + rest)[0] == d[0];
    DigitsLex(d, 0, rest);
  }

  lemma {:induction false} AfterNumber(w: string, rest: string)
    requires Blanks(w)
    ensures var s := Lexed(w, "}", rest); s != "" && !IsDigit(s[0])
  {
    if w != "" {
      assert Lexed(w, "}", rest)[0] == w[0];
    }
  }

  lemma {:induction false} SizeLexes(g: Gaps, digits: string, rest: string)
    requires AllBlank(g) && IsNumber(digits) && Value(digits, 0) <= U64_MAX
    ensures TakeSize(SizeSpelled(g, digits, rest)) == Some((Value(digits, 0), rest))
  {
    var s2 := Lexed(g.close, "}", rest);
    var s1 := Lexed(g.number, digits, s2);
    KeyLexes(g.comma, ",", g.size, "\"size\"", g.colon2, s1);
    AfterNumber(g.close, rest);
    NumberLexes(g.number, digits, s2);
    LexReads(g.close, "}", rest);
  }

  lemma {:induction false} ItemLexes(it: Item, rest: string, ok: string -> bool)
    requires GoodItem(it)
    ensures TakeEntry(ItemSpelled(it.gaps, it.name, it.digits, rest), ok) == if ok(it.name) then Some((EntryOf(it), rest)) else None
  {
    var g := it.gaps;
    var s2 := SizeSpelled(g, it.digits, rest);
    var s1 := g.quote + Quoted(it.name, s2);
    KeyLexes(g.brace, "{", g.name, "\"name\"", g.colon, s1);
    NameLexes(g.quote, it.name, s2);
    SizeLexes(g, it.digits, rest);
  }

  /** A list read so far, with the entries of some items added. */
  function Longer(list: Listing, items: seq<Item>): Listing
    requires GoodItems(items)
  {
    Listing(list.entries + EntriesOf(items), list.total + Sum(EntriesOf(items)))
  }

  predicate Acceptable(list: Listing, items: seq<Item>)
    requires GoodItems(items)
  {
    && |list.entries| + |items| <= 64
    && list.total + Sum(EntriesOf(items)) <= U64_MAX
    && AllClean(items)
  }

  lemma {:induction false} StartsItem(first: bool, items: seq<Item>, end: string)
    requires GoodItems(items) && items != []
    ensures var s := SkipSpace(Spelled(first, items, end)); s != "" && s[0] != ']'
  {
    var it := items[0];
    var more := Spelled(false, items[1..], end);
    var text := ItemSpelled(it.gaps, it.name, it.digits, more);
    if first {
      var after := Lexed(it.gaps.name, "\"name\"", Lexed(it.gaps.colon, ":", it.gaps.quote + Quoted(it.name, SizeSpelled(it.gaps, it.digits, more))));
      SkipsBlanks(it.gaps.brace, "{" + after);
    } else {
      SkipsBlanks(it.sep, "," + text);
    }
  }

  lemma {:induction false} SkipTwice(s: string)
    ensures SkipSpace(SkipSpace(s)) == SkipSpace(s)
  {
    if s != "" && Space(s[0]) {
      SkipTwice(s[1..]);
    }
  }

  lemma {:induction false} SkippedFirst(s: string, t: string)
    ensures TakeText(SkipSpace(s), t) == TakeText(s, t)
  {
    SkipTwice(s);
  }

  lemma {:induction false} KeySkipped(s: string, mark: string, key: string)
    ensures TakeKey(SkipSpace(s), mark, key) == TakeKey(s, mark, key)
  {
    SkippedFirst(s, mark);
  }

  lemma {:induction false} NameSkipped(s: string, ok: string -> bool)
    ensures TakeName(SkipSpace(s), ok) == TakeName(s, ok)
  {
    KeySkipped(s, "{", NAME_KEY);
  }

  lemma {:induction false} EntrySkipped(s: string, ok: string -> bool)
    ensures TakeEntry(SkipSpace(s), ok) == TakeEntry(s, ok)
  {
    NameSkipped(s, ok);
  }

  lemma {:induction false} TurnOf(s: string, s1: string, list: Listing, e: Entry, rest: string)
    requires Separator(s, list) == Some(s1) && |list.entries| < LIST_MAX
    requires TakeEntry(s1, IsClean) == Some((e, rest)) && Append(list, e).Some?
    ensures Turn(s, list, IsClean) == Some((Append(list, e).value, SkipSpace(rest)))
  {
  }

  lemma {:induction false} RoomForOne(list: Listing, items: seq<Item>)
    requires GoodItems(items) && items != [] && Acceptable(list, items)
    ensures |list.entries| < LIST_MAX && Append(list, EntryOf(items[0])).Some? && IsClean(items[0].name)
  {
    SumFirst(items);
  }

  /** One turn of the decoder over one more item. */
  lemma {:induction false} TurnLexes(items: seq<Item>, end: string, list: Listing)
    requires GoodItems(items) && items != [] && Acceptable(list, items)
    ensures Append(list, EntryOf(items[0])).Some?
    ensures Turn(SkipSpace(Spelled(list.entries == [], items, end)), list, IsClean)
         == Some((Append(list, EntryOf(items[0])).value, SkipSpace(Spelled(false, items[1..], end))))
  {
    var it := items[0];
    var more := Spelled(false, items[1..], end);
    var text := ItemSpelled(it.gaps, it.name, it.digits, more);
    var s := SkipSpace(Spelled(list.entries == [], items, end));
    RoomForOne(list, items);
    ItemLexes(it, more, IsClean);
    if list.entries == [] {
      EntrySkipped(text, IsClean);
      TurnOf(s, s, list, EntryOf(it), more);
    } else {
      CommaLexes(it.sep, text);
      TurnOf(s, text, list, EntryOf(it), more);
    }
  }

  lemma {:induction false} CommaLexes(sep: string, text: string)
    requires Blanks(sep)
    ensures TakeText(SkipSpace(Lexed(sep, ",", text)), ",") == Some(text)
  {
    SkippedFirst(Lexed(sep, ",", text), ",");
    LexReads(sep, ",", text);
  }

  lemma {:induction false} SumFirst(items: seq<Item>)
    requires GoodItems(items) && items != []
    ensures Sum(EntriesOf(items)) == EntryOf(items[0]).size + Sum(EntriesOf(items[1..]))
  {
    assert EntriesOf(items)[1..] == EntriesOf(items[1..]);
  }

  lemma {:induction false} LongerOn(list: Listing, items: seq<Item>)
    requires GoodItems(items) && items != [] && Acceptable(list, items)
    ensures var next := Append(list, EntryOf(items[0]));
            next.Some? && Acceptable(next.value, items[1..]) && Longer(next.value, items[1..]) == Longer(list, items)
            && next.value.entries != []
  {
    SumFirst(items);
    Regroup(list.entries, [EntryOf(items[0])], EntriesOf(items[1..]));
  }

  lemma {:induction false} EntriesLex(items: seq<Item>, last: string, tail: string, list: Listing)
    requires GoodItems(items) && Acceptable(list, items) && Blanks(last)
    ensures Entries(SkipSpace(Spelled(list.entries == [], items, Lexed(last, "]", tail))), list, IsClean)
         == Some((Longer(list, items), "]" + tail))
    decreases |items|
  {
    var end := Lexed(last, "]", tail);
    if items == [] {
      NoMoreEntries(last, tail, list);
    } else {
      EntriesStep(items, end, list);
      LongerOn(list, items);
      EntriesLex(items[1..], last, tail, Append(list, EntryOf(items[0])).value);
    }
  }

  lemma {:induction false} NoMoreEntries(last: string, tail: string, list: Listing)
    requires Blanks(last)
    ensures Entries(SkipSpace(Lexed(last, "]", tail)), list, IsClean) == Some((list, "]" + tail)) && Longer(list, []) == list
  {
    SkipsBlanks(last, "]" + tail);
    assert list.entries + [] == list.entries;
  }

  lemma {:induction false} EntriesStep(items: seq<Item>, end: string, list: Listing)
    requires GoodItems(items) && items != [] && Acceptable(list, items)
    ensures Append(list, EntryOf(items[0])).Some?
    ensures Entries(SkipSpace(Spelled(list.entries == [], items, end)), list, IsClean)
         == Entries(SkipSpace(Spelled(false, items[1..], end)), Append(list, EntryOf(items[0])).value, IsClean)
  {
    StartsItem(list.entries == [], items, end);
    TurnLexes(items, end, list);
    EntriesTurn(SkipSpace(Spelled(list.entries == [], items, end)), list, IsClean,
                Some((Append(list, EntryOf(items[0])).value, SkipSpace(Spelled(false, items[1..], end)))));
  }

  /** Every spelling of 1 to 64 entries with clean names and sizes that sum within 64 bits reads as those entries. */
  lemma {:induction false} SpellingReads(lead: string, items: seq<Item>, last: string, tail: string)
    requires GoodItems(items) && items != [] && Acceptable(Listing([], 0), items)
    requires Blanks(lead) && Blanks(last) && Blanks(tail)
    ensures Decode(ListSpelled(lead, items, last, tail)) == Some(Listing(EntriesOf(items), Sum(EntriesOf(items))))
  {
    var none := Listing([], 0);
    var s := Spelled(true, items, Lexed(last, "]", tail));
    LexReads(lead, "[", s);
    EntriesLex(items, last, tail, none);
    Closes(tail);
    FromNone(items);
    DecodeIs(ListSpelled(lead, items, last, tail), s, Longer(none, items), tail);
  }

  lemma {:induction false} Closes(tail: string)
    requires Blanks(tail)
    ensures TakeText("]" + tail, "]") == Some(tail) && SkipSpace(tail) == ""
  {
    assert Lexed("", "]", tail) == "]" + tail;
    LexReads("", "]", tail);
    SkipsBlanks(tail, "");
    assert tail + "" == tail;
  }

  lemma {:induction false} FromNone(items: seq<Item>)
    requires GoodItems(items)
    ensures Longer(Listing([], 0), items) == Listing(EntriesOf(items), Sum(EntriesOf(items)))
  {
    assert [] + EntriesOf(items) == EntriesOf(items);
  }

  lemma {:induction false} DecodeIs(json: string, s: string, list: Listing, tail: string)
    requires TakeText(json, "[") == Some(s) && Entries(SkipSpace(s), Listing([], 0), IsClean) == Some((list, "]" + tail))
    requires TakeText("]" + tail, "]") == Some(tail) && SkipSpace(tail) == "" && list.entries != []
    ensures Decode(json) == Some(list)
  {
  }

  /* -------------------------------------------------------- and reads nothing else */

  lemma {:induction false} SkippedIs(s: string) returns (w: string)
    ensures Blanks(w) && s == w + SkipSpace(s)
  {
    if s != "" && Space(s[0]) {
      var v := SkippedIs(s[1..]);
      w := [s[0]] + v;
      BlankIs(s[0]);
    } else {
      w := "";
    }
  }

  lemma {:induction false} TextIs(s: string, t: string) returns (w: string)
    requires TakeText(s, t).Some?
    ensures Blanks(w) && s == Lexed(w, t, TakeText(s, t).value)
  {
    w := SkippedIs(s);
    var u := SkipSpace(s);
    assert u == t + u[|t|..];
  }

  lemma {:induction false} KeyIs(s: string, mark: string, key: string) returns (w: string, w1: string, w2: string)
    requires TakeKey(s, mark, key).Some?
    ensures Blanks(w) && Blanks(w1) && Blanks(w2)
    ensures s == Lexed(w, mark, Lexed(w1, key, Lexed(w2, ":", TakeKey(s, mark, key).value)))
  {
    w := TextIs(s, mark);
    var s1 := TakeText(s, mark).value;
    w1 := TextIs(s1, key);
    w2 := TextIs(TakeText(s1, key).value, ":");
  }

  lemma {:induction false} StringIs(s: string)
    requires StringEnd(s).Some?
    ensures var n := StringEnd(s).value;
            n < |s| && s[n] as int == 34 && forall i :: 0 <= i < n ==> s[i] as int != 34 && s[i] as int != 92
  {
    if s[0] != '"' {
      StringIs(s[1..]);
    }
  }

  lemma {:induction false} NameIs(s: string) returns (w: string)
    requires TakeString(s).Some?
    ensures var (name, rest) := TakeString(s).value; Blanks(w) && Quotable(name) && s == w + Quoted(name, rest)
  {
    w := TextIs(s, "\"");
    var t := TakeText(s, "\"").value;
    StringIs(t);
    var n := StringEnd(t).value;
    assert t == t[..n] + ("\"" + t[n + 1..]);
  }

  lemma {:induction false} DigitsAre(s: string, v: U64) returns (d: string)
    requires Digits(s, v).Some?
    ensures AllDigits(d)
    ensures var (value, rest) := Digits(s, v).value; s == d + rest && value == Value(d, v)
    ensures s != "" && IsDigit(s[0]) ==> d != ""
    decreases |s|
  {
    if s == "" || !IsDigit(s[0]) {
      d := "";
    } else {
      var digit := s[0] as int - '0' as int;
      var more := DigitsAre(s[1..], v * 10 + digit);
      d := [s[0]] + more;
      assert d[1..] == more;
    }
  }

  lemma {:induction false} NumberIs(s: string) returns (w: string, d: string)
    requires TakeU64(s).Some?
    ensures var (value, rest) := TakeU64(s).value;
            Blanks(w) && IsNumber(d) && value == Value(d, 0) <= U64_MAX && s == Lexed(w, d, rest)
  {
    w := SkippedIs(s);
    var t := SkipSpace(s);
    d := DigitsAre(t, 0);
  }

  lemma {:induction false} EntryIs(s: string, ok: string -> bool) returns (it: Item)
    requires TakeEntry(s, ok).Some?
    ensures var (e, rest) := TakeEntry(s, ok).value;
            && GoodItem(it) && it.sep == "" && EntryOf(it) == e && ok(it.name)
            && s == ItemSpelled(it.gaps, it.name, it.digits, rest)
  {
    var b, n, c := KeyIs(s, "{", NAME_KEY);
    var s1 := TakeKey(s, "{", NAME_KEY).value;
    var q := NameIs(s1);
    var (name, s2) := TakeString(s1).value;
    var m, z, c2 := KeyIs(s2, ",", SIZE_KEY);
    var s3 := TakeKey(s2, ",", SIZE_KEY).value;
    var u, d := NumberIs(s3);
    var s4 := TakeU64(s3).value.1;
    var x := TextIs(s4, "}");
    it := Item("", Gaps(b, n, c, q, m, z, c2, u, x), name, d);
  }

  /** Blanks in front of what follows an entry belong to its separator, or to the end. */
  function Padded(w: string, items: seq<Item>): seq<Item> {
    if items == [] then [] else [items[0].(sep := w + items[0].sep)] + items[1..]
  }

  lemma {:induction false} PaddedIs(w: string, items: seq<Item>, last: string, tail: string)
    requires GoodItems(items) && Blanks(w)
    ensures GoodItems(Padded(w, items)) && EntriesOf(Padded(w, items)) == EntriesOf(items)
    ensures w + Spelled(false, items, Lexed(last, "]", tail))
         == Spelled(false, Padded(w, items), Lexed(if items == [] then w + last else last, "]", tail))
  {
    if items == [] {
      Regroup(w, last, "]" + tail);
    } else {
      var p := Padded(w, items);
      assert p[1..] == items[1..];
      var text := ItemSpelled(items[0].gaps, items[0].name, items[0].digits, Spelled(false, items[1..], Lexed(last, "]", tail)));
      Regroup(w, items[0].sep, "," + text);
      assert p[0].gaps == items[0].gaps && EntryOf(p[0]) == EntryOf(items[0]);
    }
  }

  lemma {:induction false} TurnIs(s: string, list: Listing) returns (it: Item, rest: string)
    requires Turn(s, list, IsClean).Some?
    ensures GoodItem(it) && IsClean(it.name) && Append(list, EntryOf(it)) == Some(Turn(s, list, IsClean).value.0)
    ensures Turn(s, list, IsClean).value.1 == SkipSpace(rest)
    ensures var text := ItemSpelled(it.gaps, it.name, it.digits, rest);
            s == if list.entries == [] then text else Lexed(it.sep, ",", text)
  {
    var s1 := if list.entries == [] then s else TakeText(s, ",").value;
    it := EntryIs(s1, IsClean);
    rest := TakeEntry(s1, IsClean).value.1;
    if list.entries != [] {
      var w := TextIs(s, ",");
      it := it.(sep := w);
    }
  }

  lemma {:induction false} EntriesAre(s: string, list: Listing) returns (items: seq<Item>, last: string, tail: string)
    requires Entries(s, list, IsClean).Some?
    ensures var (final, rest) := Entries(s, list, IsClean).value;
            && GoodItems(items) && Blanks(last)
            && s == Spelled(list.entries == [], items, Lexed(last, "]", tail)) && rest == "]" + tail
            && final == Longer(list, items)
            && AllClean(items)
    decreases |s|
  {
    if s[0] == ']' {
      items, last, tail := [], "", s[1..];
      assert s == "]" + s[1..];
    } else {
      var it, rest := TurnIs(s, list);
      var (longer, next) := Turn(s, list, IsClean).value;
      var more, l, t := EntriesAre(next, longer);
      var w := SkippedIs(rest);
      PaddedIs(w, more, l, t);
      items, last, tail := [it] + Padded(w, more), if more == [] then w + l else l, t;
      ItemsOn(list, it, more, Padded(w, more), longer);
      NamesOn(it, more, w);
    }
  }

  lemma {:induction false} ItemsOn(list: Listing, it: Item, more: seq<Item>, padded: seq<Item>, longer: Listing)
    requires GoodItem(it) && GoodItems(more) && GoodItems(padded) && EntriesOf(padded) == EntriesOf(more)
    requires Append(list, EntryOf(it)) == Some(longer)
    ensures GoodItems([it] + padded) && ([it] + padded)[0] == it && ([it] + padded)[1..] == padded
    ensures Longer(longer, more) == Longer(list, [it] + padded)
  {
    var items := [it] + padded;
    assert items[1..] == padded;
    SumFirst(items);
    Regroup(list.entries, [EntryOf(it)], EntriesOf(more));
  }

  lemma {:induction false} NamesOn(it: Item, more: seq<Item>, w: string)
    requires IsClean(it.name) && AllClean(more)
    ensures AllClean([it] + Padded(w, more))
  {
    var p := Padded(w, more);
    assert ([it] + p)[1..] == p;
    if more != [] {
      assert p[1..] == more[1..];
    }
  }

  /**
    * The decoder accepts a text if and only if it spells a list: an opening bracket, 1 to
    * 64 entries with a comma before each but the first, each a brace, the name in quotes
    * and the size in digits under their keys in that order, a closing bracket, blanks
    * anywhere between and nothing else; with every name clean and the sizes summing
    * within 64 bits. And it reads just the entries spelled.
    */
  lemma {:induction false} AcceptedIsSpelled(json: string) returns (lead: string, items: seq<Item>, last: string, tail: string)
    requires Decode(json).Some?
    ensures GoodItems(items) && items != [] && Acceptable(Listing([], 0), items)
    ensures Blanks(lead) && Blanks(last) && Blanks(tail)
    ensures json == ListSpelled(lead, items, last, tail)
    ensures Decode(json).value == Listing(EntriesOf(items), Sum(EntriesOf(items)))
  {
    var w, found: seq<Item>;
    lead, w, found, last, tail := AcceptedParts(json);
    FirstPadded(w, found, last, tail);
    items := found[0 := found[0].(gaps := found[0].gaps.(brace := w + found[0].gaps.brace))];
  }

  lemma {:induction false} AcceptedParts(json: string) returns (lead: string, w: string, items: seq<Item>, last: string, tail: string)
    requires Decode(json).Some?
    ensures GoodItems(items) && items != [] && Acceptable(Listing([], 0), items)
    ensures Blanks(lead) && Blanks(w) && Blanks(last) && Blanks(tail)
    ensures json == Lexed(lead, "[", w + Spelled(true, items, Lexed(last, "]", tail)))
    ensures Decode(json).value == Listing(EntriesOf(items), Sum(EntriesOf(items)))
  {
    lead := TextIs(json, "[");
    var s := TakeText(json, "[").value;
    w := SkippedIs(s);
    DecodedIsGood(json);
    items, last, tail := EntriesAre(SkipSpace(s), Listing([], 0));
    TailIs(tail);
    FromNone(items);
  }

  lemma {:induction false} TailIs(tail: string)
    ensures TakeText("]" + tail, "]") == Some(tail)
    ensures SkipSpace(tail) == "" ==> Blanks(tail)
  {
    assert Lexed("", "]", tail) == "]" + tail;
    LexReads("", "]", tail);
    var w := SkippedIs(tail);
    assert w + "" == w;
  }

  /** Blanks after the opening bracket belong to the first brace. */
  lemma {:induction false} FirstPadded(w: string, items: seq<Item>, last: string, tail: string)
    requires GoodItems(items) && items != [] && Blanks(w)
    ensures var p := items[0 := items[0].(gaps := items[0].gaps.(brace := w + items[0].gaps.brace))];
            && GoodItems(p) && EntriesOf(p) == EntriesOf(items)
            && (AllClean(items) ==> AllClean(p))
            && w + Spelled(true, items, Lexed(last, "]", tail)) == Spelled(true, p, Lexed(last, "]", tail))
  {
    var p := items[0 := items[0].(gaps := items[0].gaps.(brace := w + items[0].gaps.brace))];
    assert p[1..] == items[1..];
    var g, it := items[0].gaps, items[0];
    var more := Spelled(false, items[1..], Lexed(last, "]", tail));
    var after := Lexed(g.name, "\"name\"", Lexed(g.colon, ":", g.quote + Quoted(it.name, SizeSpelled(g, it.digits, more))));
    Regroup(w, g.brace, "{" + after);
    assert EntryOf(p[0]) == EntryOf(items[0]);
  }
}
