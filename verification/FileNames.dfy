/**
  * Names for files on their way between two systems: cleaned into what both of
  * them will open. A `char` here is one byte of the UTF-8 text.
  */
module FileNames {
  const NAME_MAX: nat := 255
  const FALLBACK := "file"

  /* ----------------------------------------------------------------- names */

  predicate Forbidden(c: char) {
    c as int < 0x20 || c as int == 0x7f || c in "/\\:*?\"<>|"
  }

  /** A UTF-8 continuation byte. */
  predicate Continuation(c: char) {
    0x80 <= c as int < 0xc0
  }

  /** What Windows strips from the end of a name. */
  predicate Trailing(c: char) {
    c == ' ' || c == '.'
  }

  function Upper(c: char): char {
    if 'a' <= c <= 'z' then (c as int - 32) as char else c
  }

  predicate MatchesUpper(name: string, upper: string)
    requires |name| >= |upper|
  {
    forall i :: 0 <= i < |upper| ==> Upper(name[i]) == upper[i]
  }

  function StemLength(name: string): (n: nat)
    ensures n <= |name|
  {
    if name == [] || name[0] == '.' then 0 else 1 + StemLength(name[1..])
  }

  /** A stem Windows takes for a device: CON, PRN, AUX, NUL, and COM and LPT with a digit. */
  predicate Reserved(name: string) {
    var stem := StemLength(name);
    if stem == 3 then
      MatchesUpper(name, "CON") || MatchesUpper(name, "PRN") || MatchesUpper(name, "AUX") || MatchesUpper(name, "NUL")
    else
      stem == 4 && '0' <= name[3] <= '9' && (MatchesUpper(name, "COM") || MatchesUpper(name, "LPT"))
  }

  function Replace(s: string): (r: string)
    ensures |r| == |s|
    ensures forall i :: 0 <= i < |s| ==> r[i] == if Forbidden(s[i]) then '_' else s[i]
  {
    if s == [] then [] else [if Forbidden(s[0]) then '_' else s[0]] + Replace(s[1..])
  }

  /** Back off over continuation bytes to the start of a character. */
  function BackOff(s: string, at: nat): (k: nat)
    requires at < |s|
    ensures k <= at && (k == 0 || !Continuation(s[k]))
    ensures forall i :: k < i <= at ==> Continuation(s[i])
  {
    if at > 0 && Continuation(s[at]) then BackOff(s, at - 1) else at
  }

  function Strip(s: string): (r: string)
    ensures |r| <= |s| && r == s[..|r|]
    ensures r != [] ==> !Trailing(r[|r| - 1])
  {
    if s != [] && Trailing(s[|s| - 1]) then Strip(s[..|s| - 1]) else s
  }

  /** As much of a name as fits, cut between characters. */
  function Truncate(name: string): (r: string)
    ensures |r| <= NAME_MAX && |r| <= |name| && r == name[..|r|]
    ensures |name| <= NAME_MAX ==> r == name
  {
    if |name| <= NAME_MAX then name else name[..BackOff(name, NAME_MAX)]
  }

  /** Room for one more byte in a name at the limit, made between characters. */
  function MakeRoom(s: string): (r: string)
    requires |s| <= NAME_MAX
    ensures |r| < NAME_MAX && |r| <= |s| && r == s[..|r|]
    ensures |s| < NAME_MAX ==> r == s
  {
    if |s| < NAME_MAX then s else s[..BackOff(s, NAME_MAX - 1)]
  }

  /** The name with forbidden bytes replaced and its end stripped. */
  function Body(name: string): string {
    Strip(Replace(Truncate(name)))
  }

  /** A name both systems will open. Empty only when `cap` is too small for the result. */
  function Clean(name: string, cap: nat): string {
    if cap < |Truncate(name)| then ""
    else
      var body := Body(name);
      if body == "" then (if cap < |FALLBACK| then "" else FALLBACK)
      else if !Reserved(body) then body
      else if |body| + 1 > cap then ""
      else "_" + MakeRoom(body)
  }

  const NAME_CAP := NAME_MAX + 1

  /** Already exactly what cleaning would produce. */
  predicate IsClean(name: string) {
    name != "" && Clean(name, NAME_CAP) == name
  }

  /** Making room for the prefix left a trailing dot or space, which cleaning does not strip again. */
  predicate LosesTail(name: string) {
    var body := Body(name);
    body != "" && Reserved(body) && |body| == NAME_MAX && Trailing(Last(MakeRoom(body)))
  }

  function Last(s: string): char {
    if s == "" then '_' else s[|s| - 1]
  }

  /* -------------------------------------------------- cleaning, and again */

  lemma {:induction false} StemShape(name: string)
    ensures forall i :: 0 <= i < StemLength(name) ==> name[i] != '.'
    ensures StemLength(name) < |name| ==> name[StemLength(name)] == '.'
  {
    if name != [] && name[0] != '.' {
      StemShape(name[1..]);
    }
  }

  /** A cleaned body has nothing left to replace. */
  predicate Plain(s: string) {
    forall i :: 0 <= i < |s| ==> !Forbidden(s[i])
  }

  lemma ReplacePlain(s: string)
    requires Plain(s)
    ensures Replace(s) == s
  {
  }

  lemma BodyShape(name: string)
    ensures var b := Body(name); |b| <= NAME_MAX && Plain(b) && (b != "" ==> !Trailing(Last(b)))
  {
    var r := Replace(Truncate(name));
    assert Plain(r);
    assert Strip(r) == r[..|Strip(r)|];
  }

  /** A plain name within the limit cleans to itself if it ends well and is no device. */
  lemma PlainIsClean(s: string)
    requires s != "" && |s| <= NAME_MAX && Plain(s)
    ensures IsClean(s) <==> !Trailing(Last(s)) && !Reserved(s)
  {
    ReplacePlain(s);
    assert Truncate(s) == s;
    if !Trailing(Last(s)) {
      assert Body(s) == s;
      if Reserved(s) {
        assert Clean(s, NAME_CAP) != s by {
          if Clean(s, NAME_CAP) == s {
            UnderscoreNotReserved(MakeRoom(s));
          }
        }
      }
    } else {
      assert |Body(s)| < |s|;
      StrippedDiffers(s);
    }
  }

  lemma LastPrefixed(b: string)
    ensures Last("_" + b) == Last(b)
  {
  }

  /** What cleaning makes of a name that ends badly is not that name. */
  lemma StrippedDiffers(s: string)
    requires s != "" && |s| <= NAME_MAX && Plain(s) && Trailing(Last(s))
    ensures Clean(s, NAME_CAP) != s
  {
    ReplacePlain(s);
    var b := Body(s);
    assert |b| < |s|;
    var c := Clean(s, NAME_CAP);
    if b == "" {
      assert Last(FALLBACK) == 'e';
    } else if Reserved(b) {
      LastPrefixed(b);
    }
  }

  /** A prefixed name is no device. */
  lemma UnderscoreNotReserved(s: string)
    ensures !Reserved("_" + s)
  {
    var p := "_" + s;
    assert p[0] == '_' && Upper(p[0]) == '_';
    assert "CON"[0] == 'C' && "PRN"[0] == 'P' && "AUX"[0] == 'A' && "NUL"[0] == 'N' && "COM"[0] == 'C' && "LPT"[0] == 'L';
  }

  lemma FallbackIsClean()
    ensures IsClean(FALLBACK)
  {
    assert Plain(FALLBACK);
    assert StemLength(FALLBACK) == 4 by {
      assert FALLBACK[1..] == "ile" && "ile"[1..] == "le" && "le"[1..] == "e" && "e"[1..] == "";
      assert StemLength("e") == 1;
      assert StemLength("le") == 2;
    }
    assert !Reserved(FALLBACK);
    PlainIsClean(FALLBACK);
  }

  /** The stem of a device name leaves something in front of the first dot, so making room never empties it. */
  lemma RoomLeaves(s: string)
    requires |s| == NAME_MAX && Reserved(s) && Plain(s)
    ensures MakeRoom(s) != ""
  {
    StemShape(s);
    var stem := StemLength(s);
    assert s[stem] == '.' && !Continuation('.');
  }

  lemma PrefixedAgain(name: string)
    requires Body(name) != "" && Reserved(Body(name))
    ensures var c := Clean(name, NAME_CAP);
            && c == "_" + MakeRoom(Body(name)) && |c| <= NAME_MAX && Plain(c)
            && (IsClean(c) <==> !LosesTail(name))
  {
    var b := Body(name);
    BodyShape(name);
    var m := MakeRoom(b);
    if |b| == NAME_MAX {
      RoomLeaves(b);
    }
    PlainPrefixed(b, m);
    LastPrefixed(m);
    UnderscoreNotReserved(m);
    PlainIsClean("_" + m);
  }

  lemma PlainPrefixed(b: string, m: string)
    requires Plain(b) && |m| <= |b| && m == b[..|m|]
    ensures Plain("_" + m)
  {
    var c := "_" + m;
    assert forall i :: 1 <= i < |c| ==> c[i] == b[i - 1];
  }

  lemma PlainAgain(name: string)
    requires Body(name) == "" || !Reserved(Body(name))
    ensures var c := Clean(name, NAME_CAP);
            && c != "" && |c| <= NAME_MAX && Plain(c) && IsClean(c)
  {
    BodyShape(name);
    if Body(name) == "" {
      assert Plain(FALLBACK);
      FallbackIsClean();
    } else {
      PlainIsClean(Body(name));
    }
  }

  /**
    * Cleaning is idempotent exactly when making room for the prefix does not
    * leave a trailing dot or space. With room for any name, the result is never
    * empty and always fits.
    */
  lemma CleanAgain(name: string)
    ensures var c := Clean(name, NAME_CAP);
            && c != "" && |c| <= NAME_MAX && Plain(c)
            && (IsClean(c) <==> !LosesTail(name))
  {
    if Body(name) != "" && Reserved(Body(name)) {
      PrefixedAgain(name);
    } else {
      PlainAgain(name);
    }
  }

  /* ------------------------------------------------- cleaning into a buffer */

  lemma {:induction false} StemFrom(name: string, k: nat)
    requires k <= |name| && (forall i :: 0 <= i < k ==> name[i] != '.')
    requires k < |name| ==> name[k] == '.'
    ensures StemLength(name) == k
  {
    if k > 0 {
      StemFrom(name[1..], k - 1);
    }
  }

  lemma {:induction false} StripFrom(s: string, k: nat)
    requires k <= |s| && (forall i :: k <= i < |s| ==> Trailing(s[i]))
    ensures Strip(s) == Strip(s[..k])
  {
    if k == |s| {
      assert s[..k] == s;
    } else {
      assert s[..|s| - 1][..k] == s[..k];
      StripFrom(s[..|s| - 1], k);
    }
  }

  /** Whether the first `len` bytes of the buffer name a device. */
  method StemIsReserved(name: array<char>, len: nat) returns (reserved: bool)
    requires len <= name.Length
    ensures reserved == Reserved(name[..len])
  {
    var stem := 0;
    while stem < len && name[stem] != '.'
      invariant stem <= len && forall i :: 0 <= i < stem ==> name[i] != '.'
    {
      stem := stem + 1;
    }
    StemFrom(name[..len], stem);
    if stem == 3 {
      var a := MatchUpper(name, len, "CON");
      var b := MatchUpper(name, len, "PRN");
      var c := MatchUpper(name, len, "AUX");
      var d := MatchUpper(name, len, "NUL");
      return a || b || c || d;
    }
    if stem == 4 && '0' <= name[3] <= '9' {
      var a := MatchUpper(name, len, "COM");
      var b := MatchUpper(name, len, "LPT");
      return a || b;
    }
    return false;
  }

  method MatchUpper(name: array<char>, len: nat, upper: string) returns (same: bool)
    requires |upper| <= len <= name.Length
    ensures same == MatchesUpper(name[..len], upper)
  {
    for i := 0 to |upper|
      invariant forall k :: 0 <= k < i ==> Upper(name[..len][k]) == upper[k]
    {
      if Upper(name[i]) != upper[i] {
        assert Upper(name[..len][i]) != upper[i];
        return false;
      }
    }
    return true;
  }

  /** How much of a name fits, found byte by byte from the limit. */
  method Fitting(name: string) returns (take: nat)
    ensures take <= |name| && name[..take] == Truncate(name)
  {
    take := if |name| < NAME_MAX then |name| else NAME_MAX;
    if take < |name| {
      while take > 0 && Continuation(name[take])
        invariant take <= NAME_MAX && BackOff(name, take) == BackOff(name, NAME_MAX)
      {
        take := take - 1;
      }
    }
  }

  /** Copy the first `take` bytes with the forbidden ones replaced, as far as the buffer goes. */
  method CopyReplaced(name: string, take: nat, out: array<char>) returns (at: nat)
    requires take <= |name|
    modifies out
    ensures at == (if take <= out.Length then take else out.Length)
    ensures at == take ==> out[..at] == Replace(name[..take])
  {
    at := 0;
    while at < take && at < out.Length
      invariant at <= take && at <= out.Length
      invariant forall i :: 0 <= i < at ==> out[i] == if Forbidden(name[i]) then '_' else name[i]
    {
      out[at] := if Forbidden(name[at]) then '_' else name[at];
      at := at + 1;
    }
    if at == take {
      assert forall i :: 0 <= i < at ==> out[..at][i] == Replace(name[..take])[i];
    }
  }

  method StripEnd(out: array<char>, len: nat) returns (at: nat)
    requires len <= out.Length
    ensures at <= len && out[..at] == Strip(out[..len])
  {
    at := len;
    while at > 0 && Trailing(out[at - 1])
      invariant at <= len && forall i :: at <= i < len ==> Trailing(out[i])
    {
      at := at - 1;
    }
    StripFrom(out[..len], at);
    assert out[..len][..at] == out[..at];
  }

  /** How much of the name stays when the prefix goes in front. */
  method RoomFor(out: array<char>, len: nat) returns (at: nat)
    requires len <= NAME_MAX && len < out.Length
    ensures at <= len && out[..at] == MakeRoom(out[..len])
  {
    at := len;
    if at + 1 > NAME_MAX {
      at := NAME_MAX - 1;
      while at > 0 && Continuation(out[at])
        invariant at < NAME_MAX && BackOff(out[..len], at) == BackOff(out[..len], NAME_MAX - 1)
      {
        at := at - 1;
      }
      assert out[..len][..at] == out[..at];
    }
  }

  /** Put the prefix in front, making room for it between characters. */
  method Prefix(out: array<char>, len: nat) returns (at: nat)
    requires len <= NAME_MAX && len < out.Length
    modifies out
    ensures at <= out.Length && out[..at] == "_" + MakeRoom(old(out[..len]))
  {
    at := RoomFor(out, len);
    at := PutInFront(out, at);
  }

  method PutInFront(out: array<char>, len: nat) returns (at: nat)
    requires len < out.Length
    modifies out
    ensures at == len + 1 && out[..at] == "_" + old(out[..len])
  {
    forall i | 0 <= i < len {
      out[i + 1] := out[i];
    }
    out[0] := '_';
    at := len + 1;
  }

  /** Clean a name into a buffer; 0 when it cannot hold the result. */
  method CleanInto(name: string, out: array<char>) returns (at: nat)
    modifies out
    ensures at <= out.Length && out[..at] == Clean(name, out.Length)
  {
    at := 0;
    if out.Length == 0 {
      return;
    }
    var take := Fitting(name);
    at := CopyReplaced(name, take, out);
    if at < take {
      return 0;
    }
    at := StripEnd(out, at);
    if at == 0 {
      if out.Length < |FALLBACK| {
        return 0;
      }
      forall i | 0 <= i < |FALLBACK| {
        out[i] := FALLBACK[i];
      }
      assert out[..|FALLBACK|] == FALLBACK;
      return |FALLBACK|;
    }
    var reserved := StemIsReserved(out, at);
    if reserved {
      if at + 1 > out.Length {
        return 0;
      }
      at := Prefix(out, at);
    }
  }

  /** Cleaned into a scratch buffer and compared. */
  method CheckClean(name: string) returns (clean: bool)
    ensures clean == IsClean(name)
  {
    var cleaned := new char[256];
    var n := CleanInto(name, cleaned);
    if n != |name| || n == 0 {
      return false;
    }
    clean := SameBytes(cleaned, name);
  }

  method SameBytes(a: array<char>, s: string) returns (same: bool)
    requires |s| <= a.Length
    ensures same == (a[..|s|] == s)
  {
    for i := 0 to |s|
      invariant forall k :: 0 <= k < i ==> a[k] == s[k]
    {
      if a[i] != s[i] {
        assert a[..|s|][i] != s[i];
        return false;
      }
    }
    return true;
  }
}
