/** Which names are devices and which bytes are forbidden, name by name and byte by byte; and what cleaning makes of any name. */
module DeviceNames {
  import opened FileNames

  /** The stems Windows takes for devices, whatever follows their first dot. */
  const DEVICES: set<string> := {
    "CON", "PRN", "AUX", "NUL",
    "COM0", "COM1", "COM2", "COM3", "COM4", "COM5", "COM6", "COM7", "COM8", "COM9",
    "LPT0", "LPT1", "LPT2", "LPT3", "LPT4", "LPT5", "LPT6", "LPT7", "LPT8", "LPT9"}

  /** The bytes no name may hold: the controls, delete, and " * / : < > ? \ | by their codes. */
  predicate BadByte(c: char) {
    var n := c as int;
    || 0 <= n <= 31 || n == 127
    || n == 34 || n == 42 || n == 47 || n == 58 || n == 60 || n == 62 || n == 63 || n == 92 || n == 124
  }

  function Capital(c: char): char {
    if 97 <= c as int <= 122 then (c as int - 32) as char else c
  }

  function Capitals(s: string): (r: string)
    ensures |r| == |s| && forall i :: 0 <= i < |s| ==> r[i] == Capital(s[i])
  {
    if s == "" then "" else [Capital(s[0])] + Capitals(s[1..])
  }

  /** What is before the first dot. */
  function Stem(name: string): string {
    if name == "" || name[0] == '.' then "" else [name[0]] + Stem(name[1..])
  }

  predicate IsDevice(name: string) {
    Capitals(Stem(name)) in DEVICES
  }

  /* ------------------------------------------------- the code's tests are these */

  lemma BadByteIs(c: char)
    ensures Forbidden(c) <==> BadByte(c)
  {
    assert '"' as int == 34 && '*' as int == 42 && '/' as int == 47 && ':' as int == 58 && '<' as int == 60;
    assert '>' as int == 62 && '?' as int == 63 && '\\' as int == 92 && '|' as int == 124;
    var marks := "/\\:*?\"<>|";
    assert marks == ['/', '\\', ':', '*', '?', '"', '<', '>', '|'];
  }

  lemma {:induction false} StemIs(name: string)
    ensures |Stem(name)| == StemLength(name) && Stem(name) == name[..StemLength(name)]
  {
    if name != "" && name[0] != '.' {
      StemIs(name[1..]);
    }
  }

  lemma FourLetters(s: string, a: char, b: char, c: char, d: char)
    requires |s| == 4
    ensures s == [a, b, c, d] <==> s[0] == a && s[1] == b && s[2] == c && s[3] == d
  {
  }

  lemma BareIs(s: string)
    requires |s| == 3
    ensures s in DEVICES <==> s == ['C', 'O', 'N'] || s == ['P', 'R', 'N'] || s == ['A', 'U', 'X'] || s == ['N', 'U', 'L']
  {
  }

  predicate PortOf(s: string, a: char, b: char, c: char) {
    |s| == 4 && s[0] == a && s[1] == b && s[2] == c && '0' <= s[3] <= '9'
  }

  lemma PortIs(s: string)
    requires |s| == 4
    ensures s in DEVICES <==> PortOf(s, 'C', 'O', 'M') || PortOf(s, 'L', 'P', 'T')
  {
    if PortOf(s, 'C', 'O', 'M') {
      ComIs(s);
    } else if PortOf(s, 'L', 'P', 'T') {
      LptIs(s);
    }
  }

  lemma ComIs(s: string)
    requires PortOf(s, 'C', 'O', 'M')
    ensures s in DEVICES
  {
    var d := s[3];
    FourLetters(s, 'C', 'O', 'M', d);
    assert d == '0' || d == '1' || d == '2' || d == '3' || d == '4' || d == '5' || d == '6' || d == '7' || d == '8' || d == '9';
  }

  lemma LptIs(s: string)
    requires PortOf(s, 'L', 'P', 'T')
    ensures s in DEVICES
  {
    var d := s[3];
    FourLetters(s, 'L', 'P', 'T', d);
    assert d == '0' || d == '1' || d == '2' || d == '3' || d == '4' || d == '5' || d == '6' || d == '7' || d == '8' || d == '9';
  }

  lemma OtherLengths(s: string)
    requires |s| != 3 && |s| != 4
    ensures s !in DEVICES
  {
  }

  lemma MatchesThree(name: string, s: string, upper: string)
    requires |name| >= |s| >= 3 && |upper| == 3 && forall i :: 0 <= i < |s| ==> s[i] == Capital(name[i])
    ensures MatchesUpper(name, upper) <==> s[0] == upper[0] && s[1] == upper[1] && s[2] == upper[2]
  {
  }

  lemma CapitalDigit(c: char)
    ensures '0' <= c <= '9' <==> '0' <= Capital(c) <= '9'
  {
  }

  /** A name is taken for a device exactly when its stem, in capitals, is one of them. */
  lemma DeviceIs(name: string)
    ensures Reserved(name) <==> IsDevice(name)
  {
    StemIs(name);
    var s := Capitals(Stem(name));
    if |s| == 3 {
      BareIs(s);
      MatchesThree(name, s, "CON");
      MatchesThree(name, s, "PRN");
      MatchesThree(name, s, "AUX");
      MatchesThree(name, s, "NUL");
    } else if |s| == 4 {
      PortIs(s);
      MatchesThree(name, s, "COM");
      MatchesThree(name, s, "LPT");
      CapitalDigit(name[3]);
    } else {
      OtherLengths(s);
    }
  }

  /* --------------------------------------------------------------- what comes out */

  /** No name comes out of cleaning a device, empty, too long or with a byte it may not hold, whatever went in. */
  lemma CleanIsSafe(name: string)
    ensures var c := Clean(name, NAME_CAP);
            && 1 <= |c| <= 255 && !IsDevice(c)
            && forall i :: 0 <= i < |c| ==> !BadByte(c[i])
  {
    var c := Clean(name, NAME_CAP);
    CleanAgain(name);
    DeviceIs(c);
    if Body(name) != "" && Reserved(Body(name)) {
      UnderscoreNotReserved(MakeRoom(Body(name)));
    } else if Body(name) == "" {
      FallbackIsClean();
      PlainIsClean(FALLBACK);
    }
    forall i | 0 <= i < |c| ensures !BadByte(c[i]) {
      BadByteIs(c[i]);
    }
  }

  /** A dot or a space. */
  predicate Loose(c: char) {
    c as int == 46 || c as int == 32
  }

  /** `b` is `name` with bad bytes made underscores and every loose byte off its end. */
  ghost predicate Tidied(name: string, b: string) {
    && |b| <= |name|
    && (forall i :: 0 <= i < |b| ==> b[i] == if BadByte(name[i]) then '_' else name[i])
    && (forall i :: |b| <= i < |name| ==> Loose(name[i]))
    && (b != "" ==> !Loose(b[|b| - 1]))
  }

  lemma LooseIs(c: char)
    ensures Trailing(c) <==> Loose(c)
    ensures BadByte(c) ==> !Loose(c)
  {
    assert '.' as int == 46 && ' ' as int == 32;
  }

  lemma {:induction false} StripTidies(r: string)
    ensures forall i :: |Strip(r)| <= i < |r| ==> Trailing(r[i])
  {
    if r != "" && Trailing(r[|r| - 1]) {
      StripTidies(r[..|r| - 1]);
    }
  }

  lemma BodyTidies(name: string)
    requires |name| <= 255
    ensures Tidied(name, Body(name))
  {
    assert Truncate(name) == name;
    var r := Replace(name);
    StripTidies(r);
    var b := Body(name);
    forall i | 0 <= i < |name| ensures r[i] == if BadByte(name[i]) then '_' else name[i] {
      BadByteIs(name[i]);
    }
    forall i | |b| <= i < |name| ensures Loose(name[i]) {
      LooseIs(r[i]);
      LooseIs('_');
    }
    if b != "" {
      LooseIs(b[|b| - 1]);
    }
  }

  /** There is only one way to tidy a name. */
  lemma TidiedOnce(name: string, a: string, b: string)
    requires Tidied(name, a) && Tidied(name, b)
    ensures a == b
  {
    NotShorter(name, a, b);
    NotShorter(name, b, a);
  }

  lemma NotShorter(name: string, a: string, b: string)
    requires Tidied(name, a) && Tidied(name, b)
    ensures |b| <= |a|
  {
    if b != "" {
      LooseIs(name[|b| - 1]);
    }
  }

  /**
    * What any name within the limit comes to: tidied; "file" if that leaves nothing; and
    * with an underscore in front exactly when it is then a device.
    */
  lemma CleanExactly(name: string, b: string)
    requires |name| <= 255 && Tidied(name, b)
    ensures var c := Clean(name, NAME_CAP);
            if b == "" then c == "file"
            else if !IsDevice(b) then c == b
            else c == "_" + MakeRoom(b)
  {
    BodyTidies(name);
    TidiedOnce(name, b, Body(name));
    DeviceIs(b);
    assert Truncate(name) == name;
  }

  /** What gives way to the underscore: nothing, but of a name at the limit its last character. */
  lemma RoomIs(b: string)
    requires 1 <= |b| <= 255 && IsDevice(b) && forall i :: 0 <= i < |b| ==> !BadByte(b[i])
    ensures var m := MakeRoom(b);
            if |b| < 255 then m == b
            else 1 <= |m| < 255 && m == b[..|m|] && !Continuation(b[|m|]) && forall i :: |m| < i < 255 ==> Continuation(b[i])
  {
    if |b| == 255 {
      DeviceIs(b);
      forall i | 0 <= i < |b| ensures !Forbidden(b[i]) {
        BadByteIs(b[i]);
      }
      RoomLeaves(b);
    }
  }

  /** So a good name that ends well is changed exactly when it is a device. */
  lemma ChangedExactly(name: string)
    requires 1 <= |name| <= 255 && !Loose(name[|name| - 1]) && forall i :: 0 <= i < |name| ==> !BadByte(name[i])
    ensures Clean(name, NAME_CAP) != name <==> IsDevice(name)
    ensures IsClean(name) <==> !IsDevice(name)
  {
    assert Tidied(name, name);
    CleanExactly(name, name);
    CleanIsSafe(name);
  }

  /** A name beyond the limit is cut to it first, and back to where a character begins. */
  lemma LongNames(name: string) returns (k: nat)
    requires |name| > 255
    ensures k <= 255 && (k == 0 || !Continuation(name[k])) && forall i :: k < i <= 255 ==> Continuation(name[i])
    ensures Clean(name, NAME_CAP) == Clean(name[..k], NAME_CAP)
  {
    k := BackOff(name, 255);
    assert Truncate(name[..k]) == name[..k] == Truncate(name);
  }
}
