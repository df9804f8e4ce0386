/**
  * The file list of a clipboard offer: names and sizes as JSON without escapes,
  * written by one end and read by the other. A `char` is one byte.
  */
module FileList {
  import opened Basics
  import opened FileNames

  const LIST_MAX := 64
  const META_MAX := 1024
  const U64_MAX := 0xffff_ffff_ffff_ffff

  type U64 = v: nat | v <= U64_MAX

  datatype Entry = Entry(name: string, size: U64)

  datatype Listing = Listing(entries: seq<Entry>, total: nat)

  function Sum(es: seq<Entry>): nat {
    if es == [] then 0 else es[0].size + Sum(es[1..])
  }

  lemma {:induction false} SumSnoc(es: seq<Entry>, e: Entry)
    ensures Sum(es + [e]) == Sum(es) + e.size
  {
    if es == [] {
      assert es + [e] == [e];
      assert [e][1..] == [];
    } else {
      assert (es + [e])[1..] == es[1..] + [e];
      SumSnoc(es[1..], e);
    }
  }

  /* -------------------------------------------------------------- encoding */

  function Digit(d: nat): (c: char)
    requires d < 10
    ensures '0' <= c <= '9' && c as int == '0' as int + d
  {
    ('0' as int + d) as char
  }

  function Decimal(v: nat): (s: string)
    ensures s != ""
  {
    if v < 10 then [Digit(v)] else Decimal(v / 10) + [Digit(v % 10)]
  }

  const NAME_KEY := "\"name\""
  const SIZE_KEY := "\"size\""

  /** A key after the mark that stands before it, up to the colon. */
  function Key(mark: string, key: string): string {
    mark + key + ":"
  }

  function SizePart(size: nat): string {
    Key(",", SIZE_KEY) + Decimal(size) + "}"
  }

  function ItemText(name: string, size: nat): string {
    Key("{", NAME_KEY) + "\"" + name + "\"" + SizePart(size)
  }

  /** The entries with their names cleaned. */
  function Cleaned(es: seq<Entry>): (r: seq<Entry>)
    ensures |r| == |es|
    ensures forall i :: 0 <= i < |es| ==> r[i] == Entry(Clean(es[i].name, NAME_CAP), es[i].size)
  {
    if es == [] then [] else [Entry(Clean(es[0].name, NAME_CAP), es[0].size)] + Cleaned(es[1..])
  }

  /** The text from entry `i` to the end of the list. */
  function Text(es: seq<Entry>, i: nat): string
    requires i <= |es|
    decreases |es| - i
  {
    if i == |es| then "]" else (if i > 0 then "," else "") + ItemText(es[i].name, es[i].size) + Text(es, i + 1)
  }

  /** The list as JSON, if there are 1 to 64 entries and it fits. */
  function Encode(es: seq<Entry>, cap: nat): Option<string> {
    if es == [] || |es| > LIST_MAX then None
    else
      var json := "[" + Text(Cleaned(es), 0);
      if |json| <= cap && |json| <= META_MAX then Some(json) else None
  }

  /* -------------------------------------------------------------- decoding */

  predicate Space(c: char) {
    c == ' ' || c == '\t' || c == '\n' || c == '\r'
  }

  function SkipSpace(s: string): (r: string)
    ensures |r| <= |s|
    ensures r != "" ==> !Space(r[0])
  {
    if s != "" && Space(s[0]) then SkipSpace(s[1..]) else s
  }

  function TakeText(s: string, expected: string): (r: Option<string>)
    ensures r.Some? ==> |r.value| + |expected| <= |s|
  {
    var t := SkipSpace(s);
    if |t| < |expected| || t[..|expected|] != expected then None else Some(t[|expected|..])
  }

  /** How many bytes stand before the closing quote, if no escape does. */
  function StringEnd(s: string): (r: Option<nat>)
    ensures r.Some? ==> r.value < |s|
  {
    if s == "" then None
    else if s[0] == '"' then Some(0)
    else if s[0] == '\\' then None
    else
      var n :- StringEnd(s[1..]);
      Some(n + 1)
  }

  function TakeString(s: string): (r: Option<(string, string)>)
    ensures r.Some? ==> |r.value.0| <= NAME_MAX && |r.value.1| < |s|
  {
    var t :- TakeText(s, "\"");
    var n :- StringEnd(t);
    if n > NAME_MAX then None else Some((t[..n], t[n + 1..]))
  }

  predicate IsDigit(c: char) {
    '0' <= c <= '9'
  }

  /** The digits at the front of `s` read on from `value`, unless they overflow. */
  function Digits(s: string, value: U64): (r: Option<(U64, string)>)
    ensures r.Some? ==> |r.value.1| <= |s|
  {
    if s == "" || !IsDigit(s[0]) then Some((value, s))
    else
      var digit := s[0] as int - '0' as int;
      if value > (U64_MAX - digit) / 10 then None else Digits(s[1..], value * 10 + digit)
  }

  function TakeU64(s: string): (r: Option<(U64, string)>)
    ensures r.Some? ==> |r.value.1| <= |s|
  {
    var t := SkipSpace(s);
    if t == "" || !IsDigit(t[0]) then None else Digits(t, 0)
  }

  function TakeKey(s: string, mark: string, key: string): (r: Option<string>)
    ensures r.Some? ==> |r.value| + |mark| + |key| < |s|
  {
    var s1 :- TakeText(s, mark);
    var s2 :- TakeText(s1, key);
    TakeText(s2, ":")
  }

  /** `{"name":` and a name in quotes, if it passes the check. */
  function TakeName(s: string, ok: string -> bool): (r: Option<(string, string)>)
    ensures r.Some? ==> |r.value.1| < |s| && ok(r.value.0) && |r.value.0| <= NAME_MAX
  {
    var s1 :- TakeKey(s, "{", NAME_KEY);
    var (name, s2) :- TakeString(s1);
    if ok(name) then Some((name, s2)) else None
  }

  /** `,"size":`, a number and the closing brace. */
  function TakeSize(s: string): (r: Option<(U64, string)>)
    ensures r.Some? ==> |r.value.1| < |s|
  {
    var s1 :- TakeKey(s, ",", SIZE_KEY);
    var (size, s2) :- TakeU64(s1);
    var s3 :- TakeText(s2, "}");
    Some((size, s3))
  }

  function TakeEntry(s: string, ok: string -> bool): (r: Option<(Entry, string)>)
    ensures r.Some? ==> |r.value.1| < |s| && ok(r.value.0.name) && |r.value.0.name| <= NAME_MAX
  {
    var (name, s1) :- TakeName(s, ok);
    var (size, s2) :- TakeSize(s1);
    Some((Entry(name, size), s2))
  }

  /** The list with one more entry, unless that overflows the total. */
  function Append(list: Listing, e: Entry): Option<Listing> {
    if list.total + e.size > U64_MAX then None
    else Some(Listing(list.entries + [e], list.total + e.size))
  }

  function Separator(s: string, list: Listing): (r: Option<string>)
    ensures r.Some? ==> |r.value| <= |s|
  {
    if list.entries == [] then Some(s) else TakeText(s, ",")
  }

  /** One turn of the loop: a comma if entries came before, room for one more, and the entry. */
  function Turn(s: string, list: Listing, ok: string -> bool): (r: Option<(Listing, string)>)
    ensures r.Some? ==> |r.value.1| < |s|
  {
    var s1 :- Separator(s, list);
    if |list.entries| >= LIST_MAX then None
    else
      var (e, s2) :- TakeEntry(s1, ok);
      var longer :- Append(list, e);
      Some((longer, SkipSpace(s2)))
  }

  /** The entries from `s` on, with `list` already read. */
  function Entries(s: string, list: Listing, ok: string -> bool): (r: Option<(Listing, string)>)
    decreases |s|
  {
    if s == "" then None
    else if s[0] == ']' then Some((list, s))
    else
      var (longer, rest) :- Turn(s, list, ok);
      Entries(rest, longer, ok)
  }

  function Decode(json: string): Option<Listing> {
    var s :- TakeText(json, "[");
    var (list, s1) :- Entries(SkipSpace(s), Listing([], 0), IsClean);
    var s2 :- TakeText(s1, "]");
    if SkipSpace(s2) == "" && list.entries != [] then Some(list) else None
  }

  /* ------------------------------------------------- what a decoder promises */

  /** A listing as the decoder hands it on, its names checked by `ok`. */
  predicate Good(list: Listing, ok: string -> bool) {
    && |list.entries| <= LIST_MAX
    && list.total == Sum(list.entries) <= U64_MAX
    && forall i :: 0 <= i < |list.entries| ==> ok(list.entries[i].name) && |list.entries[i].name| <= NAME_MAX
  }

  lemma AppendKeepsGood(list: Listing, e: Entry, ok: string -> bool)
    requires Good(list, ok) && |list.entries| < LIST_MAX && ok(e.name) && |e.name| <= NAME_MAX
    ensures Append(list, e).Some? ==> Good(Append(list, e).value, ok)
  {
    SumSnoc(list.entries, e);
  }

  /** What a turn that succeeds did. */
  lemma TurnAppends(s: string, list: Listing, ok: string -> bool) returns (e: Entry)
    requires Turn(s, list, ok).Some?
    ensures ok(e.name) && |e.name| <= NAME_MAX && |list.entries| < LIST_MAX
    ensures Append(list, e) == Some(Turn(s, list, ok).value.0)
  {
    var s1 := if list.entries == [] then s else TakeText(s, ",").value;
    e := TakeEntry(s1, ok).value.0;
  }

  lemma {:induction false} EntriesAreGood(s: string, list: Listing, ok: string -> bool)
    requires Good(list, ok)
    ensures var r := Entries(s, list, ok); r.Some? ==> Good(r.value.0, ok)
    decreases |s|
  {
    if s != "" && s[0] != ']' && Turn(s, list, ok).Some? {
      var (longer, rest) := Turn(s, list, ok).value;
      var e := TurnAppends(s, list, ok);
      AppendKeepsGood(list, e, ok);
      EntriesAreGood(rest, longer, ok);
    }
  }

  /** Whatever bytes arrive, an accepted list has clean names and an exact total. */
  lemma DecodedIsGood(json: string)
    ensures Decode(json).Some? ==> Good(Decode(json).value, IsClean) && Decode(json).value.entries != []
  {
    if Decode(json).Some? {
      EntriesAreGood(SkipSpace(TakeText(json, "[").value), Listing([], 0), IsClean);
    }
  }

  /* ------------------------------------------------------------ round trip */

  lemma TextReads(expected: string, rest: string)
    requires expected != "" && !Space(expected[0])
    ensures TakeText(expected + rest, expected) == Some(rest)
  {
  }

  lemma {:induction false} StringEndsAt(name: string, rest: string)
    requires forall i :: 0 <= i < |name| ==> name[i] != '"' && name[i] != '\\'
    ensures StringEnd(name + "\"" + rest) == Some(|name|)
  {
    var s := name + "\"" + rest;
    if name != "" {
      assert s[1..] == name[1..] + "\"" + rest;
      StringEndsAt(name[1..], rest);
    }
  }

  lemma StringReads(name: string, rest: string)
    requires Plain(name) && |name| <= NAME_MAX
    ensures TakeString("\"" + name + "\"" + rest) == Some((name, rest))
  {
    var t := name + "\"" + rest;
    assert "\"" + name + "\"" + rest == "\"" + t;
    TextReads("\"", t);
    StringEndsAt(name, rest);
    assert t[..|name|] == name && t[|name| + 1..] == rest;
  }

  lemma {:induction false} DigitsRead(v: U64, rest: string)
    ensures Digits(Decimal(v) + rest, 0) == Digits(rest, v)
    decreases v
  {
    if v < 10 {
      DigitReads(v, 0, rest);
    } else {
      var d := Digit(v % 10);
      assert Decimal(v) + rest == Decimal(v / 10) + ([d] + rest);
      DigitsRead(v / 10, [d] + rest);
      DigitReads(v % 10, v / 10, rest);
    }
  }

  lemma DigitReads(d: nat, value: U64, rest: string)
    requires d < 10 && 10 * value + d <= U64_MAX
    ensures Digits([Digit(d)] + rest, value) == Digits(rest, 10 * value + d)
  {
    assert ([Digit(d)] + rest)[1..] == rest;
  }

  lemma {:induction false} DecimalIsDigits(v: nat)
    ensures IsDigit(Decimal(v)[0])
  {
    if v >= 10 {
      DecimalIsDigits(v / 10);
    }
  }

  lemma NumberReads(v: U64, rest: string)
    requires rest != "" && !IsDigit(rest[0])
    ensures TakeU64(Decimal(v) + rest) == Some((v, rest))
  {
    DecimalIsDigits(v);
    DigitsRead(v, rest);
  }

  lemma Chain(a: string, b: string, c: string, d: string)
    ensures a + b + c + d == a + (b + (c + d))
  {
  }

  lemma KeyReads(mark: string, key: string, rest: string)
    requires mark != "" && !Space(mark[0]) && key != "" && !Space(key[0])
    ensures TakeKey(Key(mark, key) + rest, mark, key) == Some(rest)
  {
    var s2 := ":" + rest;
    var s1 := key + s2;
    Chain(mark, key, ":", rest);
    TextReads(mark, s1);
    TextReads(key, s2);
    TextReads(":", rest);
  }

  lemma NameReads(name: string, size: nat, rest: string, ok: string -> bool)
    requires Plain(name) && |name| <= NAME_MAX
    ensures TakeName(ItemText(name, size) + rest, ok)
         == (if ok(name) then Some((name, SizePart(size) + rest)) else None)
  {
    var tail := SizePart(size) + rest;
    var s1 := "\"" + name + "\"" + tail;
    assert ItemText(name, size) + rest == Key("{", NAME_KEY) + s1;
    KeyReads("{", NAME_KEY, s1);
    StringReads(name, tail);
  }

  lemma SizeReads(size: U64, rest: string)
    ensures TakeSize(SizePart(size) + rest) == Some((size, rest))
  {
    var s2 := "}" + rest;
    var s1 := Decimal(size) + s2;
    Chain(Key(",", SIZE_KEY), Decimal(size), "}", rest);
    KeyReads(",", SIZE_KEY, s1);
    NumberReads(size, s2);
    TextReads("}", rest);
  }

  /** One item read back: its name if that passes the check, and its size. */
  lemma ItemReads(name: string, size: U64, rest: string, ok: string -> bool)
    requires Plain(name) && |name| <= NAME_MAX
    ensures TakeEntry(ItemText(name, size) + rest, ok) == (if ok(name) then Some((Entry(name, size), rest)) else None)
  {
    NameReads(name, size, rest, ok);
    SizeReads(size, rest);
  }

  lemma ItemStarts(name: string, size: nat)
    ensures var t := ItemText(name, size); t != "" && t[0] == '{'
  {
  }

  lemma TextStarts(es: seq<Entry>, i: nat)
    requires i <= |es|
    ensures var t := Text(es, i); t != "" && SkipSpace(t) == t && (t[0] == ']' <==> i == |es|)
  {
    if i < |es| {
      ItemStarts(es[i].name, es[i].size);
    }
  }

  /** One turn of the decoder's loop over an item and whatever follows it. */
  lemma TurnReads(name: string, size: U64, rest: string, list: Listing, ok: string -> bool)
    requires Plain(name) && |name| <= NAME_MAX && SkipSpace(rest) == rest && |list.entries| < LIST_MAX
    ensures Turn((if list.entries != [] then "," else "") + ItemText(name, size) + rest, list, ok)
         == (if !ok(name) || Append(list, Entry(name, size)).None? then None
             else Some((Append(list, Entry(name, size)).value, rest)))
  {
    var s1 := ItemText(name, size) + rest;
    if list.entries != [] {
      assert "," + ItemText(name, size) + rest == "," + s1;
      TextReads(",", s1);
    } else {
      assert "" + ItemText(name, size) + rest == s1;
    }
    ItemReads(name, size, rest, ok);
  }

  /** Names as the cleaner leaves them. */
  predicate Writable(es: seq<Entry>) {
    && |es| <= LIST_MAX
    && forall i :: 0 <= i < |es| ==> Plain(es[i].name) && |es[i].name| <= NAME_MAX
  }

  predicate AllPass(es: seq<Entry>, i: nat, ok: string -> bool) {
    forall k :: i <= k < |es| ==> ok(es[k].name)
  }

  lemma EntriesTurn(s: string, list: Listing, ok: string -> bool, turn: Option<(Listing, string)>)
    requires s != "" && s[0] != ']' && Turn(s, list, ok) == turn
    ensures Entries(s, list, ok) == if turn.None? then None else Entries(turn.value.1, turn.value.0, ok)
  {
  }

  lemma TurnReadsText(es: seq<Entry>, i: nat, list: Listing, ok: string -> bool)
    requires i < |es| && Writable(es) && |list.entries| == i
    ensures Turn(Text(es, i), list, ok)
         == (if !ok(es[i].name) || Append(list, es[i]).None? then None
             else Some((Append(list, es[i]).value, Text(es, i + 1))))
  {
    var e, rest := es[i], Text(es, i + 1);
    TextStarts(es, i + 1);
    assert Text(es, i) == (if i > 0 then "," else "") + ItemText(e.name, e.size) + rest;
    TurnReads(e.name, e.size, rest, list, ok);
  }

  lemma EntryReads(es: seq<Entry>, i: nat, list: Listing, ok: string -> bool)
    requires i < |es| && Writable(es) && |list.entries| == i
    ensures Entries(Text(es, i), list, ok)
         == (if !ok(es[i].name) || Append(list, es[i]).None? then None
             else Entries(Text(es, i + 1), Append(list, es[i]).value, ok))
  {
    var turn := Turn(Text(es, i), list, ok);
    TextStarts(es, i);
    TurnReadsText(es, i, list, ok);
    EntriesTurn(Text(es, i), list, ok, turn);
  }

  /** What reading on from entry `i` comes to. */
  function Outcome(es: seq<Entry>, i: nat, ok: string -> bool): Option<(Listing, string)> {
    if AllPass(es, i, ok) && Sum(es) <= U64_MAX then Some((Listing(es, Sum(es)), "]")) else None
  }

  lemma TakeSnoc<T>(s: seq<T>, i: nat)
    requires i < |s|
    ensures s[..i] + [s[i]] == s[..i + 1]
  {
  }

  lemma SumStep(es: seq<Entry>, i: nat)
    requires i < |es|
    ensures Sum(es[..i]) + es[i].size == Sum(es[..i + 1]) <= Sum(es)
    ensures es[..i] + [es[i]] == es[..i + 1]
  {
    TakeSnoc(es, i);
    SumSnoc(es[..i], es[i]);
    SumMonotone(es, i + 1);
  }

  lemma OutcomeStep(es: seq<Entry>, i: nat, ok: string -> bool, sum: nat)
    requires i < |es| && sum <= Sum(es)
    ensures Outcome(es, i, ok) == if ok(es[i].name) && sum <= U64_MAX then Outcome(es, i + 1, ok) else None
  {
    assert AllPass(es, i, ok) == (ok(es[i].name) && AllPass(es, i + 1, ok));
  }

  /** The listing with the first `i` entries read. */
  function SoFar(es: seq<Entry>, i: nat): Listing
    requires i <= |es|
  {
    Listing(es[..i], Sum(es[..i]))
  }

  lemma AppendSoFar(es: seq<Entry>, i: nat)
    requires i < |es|
    ensures SoFar(es, i + 1).total <= Sum(es)
    ensures Append(SoFar(es, i), es[i])
         == (if SoFar(es, i + 1).total <= U64_MAX then Some(SoFar(es, i + 1)) else None)
  {
    SumStep(es, i);
    AppendIs(SoFar(es, i), es[i], SoFar(es, i + 1));
  }

  lemma AppendIs(list: Listing, e: Entry, longer: Listing)
    requires longer.entries == list.entries + [e] && longer.total == list.total + e.size
    ensures Append(list, e) == if longer.total <= U64_MAX then Some(longer) else None
  {
  }

  lemma {:induction false} EntriesRead(es: seq<Entry>, i: nat, ok: string -> bool)
    requires i <= |es| && Writable(es) && SoFar(es, i).total <= U64_MAX
    ensures Entries(Text(es, i), SoFar(es, i), ok) == Outcome(es, i, ok)
    decreases |es| - i
  {
    if i == |es| {
      assert es[..i] == es;
    } else {
      AppendSoFar(es, i);
      OutcomeStep(es, i, ok, SoFar(es, i + 1).total);
      EntryReads(es, i, SoFar(es, i), ok);
      if ok(es[i].name) && SoFar(es, i + 1).total <= U64_MAX {
        EntriesRead(es, i + 1, ok);
      }
    }
  }

  lemma {:induction false} SumMonotone(es: seq<Entry>, i: nat)
    requires i <= |es|
    ensures Sum(es[..i]) <= Sum(es)
  {
    if i > 0 {
      assert es[..i][1..] == es[1..][..i - 1];
      SumMonotone(es[1..], i - 1);
    }
  }

  lemma {:induction false} CleanedSum(es: seq<Entry>)
    ensures Sum(Cleaned(es)) == Sum(es)
  {
    if es != [] {
      assert Cleaned(es)[1..] == Cleaned(es[1..]);
      CleanedSum(es[1..]);
    }
  }

  predicate KeepsTails(es: seq<Entry>) {
    forall i :: 0 <= i < |es| ==> !LosesTail(es[i].name)
  }

  lemma CleanedShape(es: seq<Entry>)
    requires |es| <= LIST_MAX
    ensures Writable(Cleaned(es)) && (AllPass(Cleaned(es), 0, IsClean) <==> KeepsTails(es))
  {
    var ces := Cleaned(es);
    forall i | 0 <= i < |es|
      ensures Plain(ces[i].name) && |ces[i].name| <= NAME_MAX && (IsClean(ces[i].name) <==> !LosesTail(es[i].name))
    {
      CleanAgain(es[i].name);
    }
  }

  /** Text over any names is read back if each passes the check and the total fits. */
  lemma ListReads(es: seq<Entry>)
    requires es != [] && Writable(es)
    ensures Decode("[" + Text(es, 0))
         == (if AllPass(es, 0, IsClean) && Sum(es) <= U64_MAX then Some(Listing(es, Sum(es))) else None)
  {
    TextReads("[", Text(es, 0));
    TextStarts(es, 0);
    assert es[..0] == [];
    EntriesRead(es, 0, IsClean);
    TextReads("]", "");
    assert "]" + "" == "]";
  }

  /**
    * The round trip. What the encoder writes, the decoder reads back as the same
    * sizes, their total and the cleaned names in order, exactly when no name lost
    * its stripped tail to the prefix and the sizes sum below 2^64. Otherwise the
    * far end refuses the whole list.
    */
  lemma RoundTrip(es: seq<Entry>, cap: nat)
    requires Encode(es, cap).Some?
    ensures Decode(Encode(es, cap).value)
         == (if KeepsTails(es) && Sum(es) <= U64_MAX then Some(Listing(Cleaned(es), Sum(es))) else None)
  {
    CleanedShape(es);
    CleanedSum(es);
    ListReads(Cleaned(es));
  }

  /** A list the decoder accepted is written back, room allowing, as one it reads the same. */
  lemma DecodedReencodes(json: string, cap: nat)
    requires Decode(json).Some?
    requires Encode(Decode(json).value.entries, cap).Some?
    ensures Decode(Encode(Decode(json).value.entries, cap).value) == Decode(json)
  {
    var es := Decode(json).value.entries;
    DecodedIsGood(json);
    forall i | 0 <= i < |es| ensures Cleaned(es)[i] == es[i] && !LosesTail(es[i].name) {
      CleanAgain(es[i].name);
    }
    assert Cleaned(es) == es;
    RoundTrip(es, cap);
  }

  lemma Around(mid: string, s: string)
    requires |mid| == 249 && Plain(mid) && s == "CON." + mid + ".x"
    ensures |s| == 255 && Plain(s)
    ensures s[0] == 'C' && s[1] == 'O' && s[2] == 'N' && s[3] == '.' && s[253] == '.' && s[254] == 'x'
  {
    assert forall i :: 4 <= i < 253 ==> s[i] == mid[i - 4];
  }

  /** A device name at the limit that has a dot one byte from its end. */
  lemma TailLost(mid: string)
    requires |mid| == 249 && Plain(mid)
    ensures LosesTail("CON." + mid + ".x")
  {
    var s := "CON." + mid + ".x";
    Around(mid, s);
    ReplacePlain(s);
    assert Body(s) == s;
    StemFrom(s, 3);
    assert Last(MakeRoom(s)) == s[253];
  }

  /** Such a name goes out on the wire and is refused by the far end, whatever its middle. */
  lemma RefusedByFarEnd(mid: string)
    requires |mid| == 249 && Plain(mid)
    ensures var es := [Entry("CON." + mid + ".x", 0)];
            Encode(es, META_MAX).Some? && Decode(Encode(es, META_MAX).value) == None
  {
    var e := Entry("CON." + mid + ".x", 0);
    var es := [e];
    TailLost(mid);
    CleanAgain(e.name);
    var c := Cleaned(es);
    ItemFits(c[0].name, 0);
    assert Text(c, 1) == "]";
    assert Text(c, 0) == "" + ItemText(c[0].name, c[0].size) + Text(c, 1);
    RoundTrip(es, META_MAX);
  }

  lemma ItemFits(name: string, size: nat)
    requires |name| <= NAME_MAX && size < 10
    ensures |ItemText(name, size)| <= 300
  {
  }
}
