/** The text form of a view: operator<< and operator>>. */
module ViewText {
  import opened Messages

  /** A view as it is printed: failed holds the flags as bytes. */
  datatype TextView = TextView(
    vid: int,
    members: seq<nat>,
    memberIps: seq<string>,
    failed: seq<int>,
    nFailed: int,
    numMembers: int,
    myRank: int)

  const EMPTY := TextView(0, [], [], [], 0, 0, 0)

  const INT_LIMIT := 0x8000_0000
  const ID_LIMIT := 0x1_0000_0000

  /** What the C++ types allow: 32-bit signed numbers, 32-bit node ids. */
  predicate Typed(v: TextView) {
    && -INT_LIMIT <= v.vid < INT_LIMIT && -INT_LIMIT <= v.nFailed < INT_LIMIT
    && -INT_LIMIT <= v.numMembers < INT_LIMIT && -INT_LIMIT <= v.myRank < INT_LIMIT
    && forall i :: 0 <= i < |v.members| ==> v.members[i] < ID_LIMIT
  }

  predicate IsSpace(c: char) {
    c == ' ' || c == '\n' || c == '\t' || c == '\r' || c == '\U{0B}' || c == '\U{0C}'
  }

  predicate IsDigit(c: char) {
    '0' <= c <= '9'
  }

  /** A non-empty stretch without white space. */
  predicate IsWord(s: string) {
    s != [] && forall i :: 0 <= i < |s| ==> !IsSpace(s[i])
  }

  // ---------------------------------------------------------------- numbers

  function Digit(d: nat): (c: char)
    requires d < 10
    ensures IsDigit(c)
  {
    '0' + d as char
  }

  function ShowNat(n: nat): (s: string)
    ensures |s| > 0 && forall i :: 0 <= i < |s| ==> IsDigit(s[i])
  {
    if n < 10 then [Digit(n)] else ShowNat(n / 10) + [Digit(n % 10)]
  }

  function ShowInt(n: int): (s: string)
    ensures |s| > 0
  {
    if n < 0 then "-" + ShowNat(-n) else ShowNat(n)
  }

  /** How many of the characters from `at` on are digits. */
  function DigitsEnd(s: string, at: nat): (e: nat)
    requires at <= |s|
    ensures at <= e <= |s|
    ensures forall i :: at <= i < e ==> IsDigit(s[i])
    ensures e == |s| || !IsDigit(s[e])
    decreases |s| - at
  {
    if at < |s| && IsDigit(s[at]) then DigitsEnd(s, at + 1) else at
  }

  function ValueOf(digits: string): nat
    requires forall i :: 0 <= i < |digits| ==> IsDigit(digits[i])
  {
    if digits == [] then 0
    else
      var last := digits[|digits| - 1];
      assert IsDigit(last);
      10 * ValueOf(digits[..|digits| - 1]) + (last as int - '0' as int)
  }

  function SpaceEnd(s: string, at: nat): (e: nat)
    requires at <= |s|
    ensures at <= e <= |s|
    ensures forall i :: at <= i < e ==> IsSpace(s[i])
    ensures e == |s| || !IsSpace(s[e])
    decreases |s| - at
  {
    if at < |s| && IsSpace(s[at]) then SpaceEnd(s, at + 1) else at
  }

  /** std::stoi: white space, a sign, digits, and whatever else; it throws without digits or out of range. */
  function ReadInt(line: string): Option<int> {
    var start := SpaceEnd(line, 0);
    var signed := start < |line| && (line[start] == '-' || line[start] == '+');
    var from := if signed then start + 1 else start;
    var end := DigitsEnd(line, from);
    if end == from then None
    else
      var size := ValueOf(line[from..end]);
      var n: int := if signed && line[start] == '-' then 0 - size else size;
      if -INT_LIMIT <= n < INT_LIMIT then Some(n) else None
  }

  lemma {:induction false} ShowNatValue(n: nat)
    ensures ValueOf(ShowNat(n)) == n
  {
    if n >= 10 {
      ShowNatValue(n / 10);
      assert ShowNat(n)[..|ShowNat(n)| - 1] == ShowNat(n / 10);
    } else {
      assert ShowNat(n)[..0] == [];
    }
  }

  /** Reading back a printed number, whatever white-space-free text precedes its end. */
  lemma ShownIntRead(n: int)
    requires -INT_LIMIT <= n < INT_LIMIT
    ensures ReadInt(ShowInt(n)) == Some(n)
  {
    var line := ShowInt(n);
    var size := if n < 0 then -n else n;
    ShowNatValue(size);
    assert SpaceEnd(line, 0) == 0;
    var from := if n < 0 then 1 else 0;
    assert line[from..] == ShowNat(size);
    forall i | from <= i < |line| ensures IsDigit(line[i]) {
      assert line[i] == ShowNat(size)[i - from];
    }
    assert DigitsEnd(line, from) == |line|;
    assert line[from..|line|] == ShowNat(size);
  }

  // ---------------------------------------------------------------- lines and words

  predicate OneLine(s: string) {
    forall i :: 0 <= i < |s| ==> s[i] != '\n'
  }

  /** Where the next line ends. */
  function LineEnd(s: string, at: nat): (e: nat)
    requires at <= |s|
    ensures at <= e <= |s|
    ensures forall i :: at <= i < e ==> s[i] != '\n'
    ensures e == |s| || s[e] == '\n'
    decreases |s| - at
  {
    if at < |s| && s[at] != '\n' then LineEnd(s, at + 1) else at
  }

  /** std::getline: the next line, and the text after it; nothing at the end of the text. */
  function GetLine(text: string): Option<(string, string)> {
    if text == [] then None
    else
      var e := LineEnd(text, 0);
      Some((text[..e], if e < |text| then text[e + 1..] else []))
  }

  function WordEnd(s: string, at: nat): (e: nat)
    requires at <= |s|
    ensures at <= e <= |s|
    ensures forall i :: at <= i < e ==> !IsSpace(s[i])
    ensures e == |s| || IsSpace(s[e])
    decreases |s| - at
  {
    if at < |s| && !IsSpace(s[at]) then WordEnd(s, at + 1) else at
  }

  /** The white-space separated words of a line. */
  function Words(s: string): (w: seq<string>)
    ensures forall i :: 0 <= i < |w| ==> IsWord(w[i])
    decreases |s|
  {
    var start := SpaceEnd(s, 0);
    if start == |s| then []
    else
      var end := WordEnd(s, start);
      [s[start..end]] + Words(s[end..])
  }

  /** Numbers read one after another from a line, up to the first thing that is not a node id. */
  function Numbers(s: string): seq<nat>
    decreases |s|
  {
    var start := SpaceEnd(s, 0);
    var end := DigitsEnd(s, start);
    if end == start || ValueOf(s[start..end]) >= ID_LIMIT then []
    else [ValueOf(s[start..end])] + Numbers(s[end..])
  }

  /** Words each followed by a space. */
  function Spaced(words: seq<string>): string {
    if words == [] then [] else words[0] + " " + Spaced(words[1..])
  }

  function Shown(members: seq<nat>): (w: seq<string>)
    ensures |w| == |members|
  {
    seq(|members|, i requires 0 <= i < |members| => ShowNat(members[i]))
  }

  function Flags(failed: seq<int>): (w: seq<string>)
    ensures |w| == |failed|
  {
    seq(|failed|, i requires 0 <= i < |failed| => if failed[i] != 0 then "T" else "F")
  }

  function FlagsRead(words: seq<string>): seq<int> {
    seq(|words|, i requires 0 <= i < |words| => if words[i] == "T" then 1 else 0)
  }

  // ---------------------------------------------------------------- printing and parsing

  function Line(s: string): string {
    s + "\n"
  }

  function Print(v: TextView): string {
    Line(ShowInt(v.vid)) + (Line(Spaced(Shown(v.members))) + (Line(Spaced(v.memberIps)) + (Line(Spaced(Flags(v.failed)))
      + (Line(ShowInt(v.nFailed)) + (Line(ShowInt(v.numMembers)) + Line(ShowInt(v.myRank)))))))
  }

  /** The lines of a text that getline finds, at most `k` of them. */
  function Lines(text: string, k: nat): seq<string>
    decreases k
  {
    if k == 0 then []
    else
      match GetLine(text)
      case None => []
      case Some((line, rest)) => [line] + Lines(rest, k - 1)
  }

  /** The number on line k; the old value if the text ends before it; nothing if stoi throws. */
  function IntOn(lines: seq<string>, k: nat, old': int): Option<int> {
    if k < |lines| then ReadInt(lines[k]) else Some(old')
  }

  /** operator>>: each line that is there adds to, or sets, one field; it throws if a number does not parse. */
  function Parse(text: string, into: TextView): Option<TextView> {
    var lines := Lines(text, 7);
    var vid, nFailed := IntOn(lines, 0, into.vid), IntOn(lines, 4, into.nFailed);
    var numMembers, myRank := IntOn(lines, 5, into.numMembers), IntOn(lines, 6, into.myRank);
    if vid.None? || nFailed.None? || numMembers.None? || myRank.None? then None
    else
      Some(TextView(
        vid.value,
        into.members + (if 1 < |lines| then Numbers(lines[1]) else []),
        into.memberIps + (if 2 < |lines| then Words(lines[2]) else []),
        into.failed + (if 3 < |lines| then FlagsRead(Words(lines[3])) else []),
        nFailed.value, numMembers.value, myRank.value))
  }

  // ---------------------------------------------------------------- the program's loops

  lemma {:induction false} SpacedAppend(words: seq<string>, w: string)
    ensures Spaced(words + [w]) == Spaced(words) + w + " "
    decreases |words|
  {
    if words == [] {
      assert [w][1..] == [];
      assert [] + [w] == [w];
    } else {
      assert (words + [w])[1..] == words[1..] + [w];
      SpacedAppend(words[1..], w);
    }
  }

  /** Every word of a list, each followed by a space, then the end of the line. */
  method WriteLine(words: seq<string>) returns (text: string)
    ensures text == Line(Spaced(words))
  {
    text := [];
    var i := 0;
    while i < |words|
      invariant 0 <= i <= |words|
      invariant text == Spaced(words[..i])
    {
      SpacedAppend(words[..i], words[i]);
      assert words[..i + 1] == words[..i] + [words[i]];
      text := text + words[i] + " ";
      i := i + 1;
    }
    assert words[..i] == words;
    text := text + "\n";
  }

  method WriteView(v: TextView) returns (text: string)
    ensures text == Print(v)
  {
    hide ShowInt, Shown, Spaced, Flags, Line;
    var vid, nFailed := Line(ShowInt(v.vid)), Line(ShowInt(v.nFailed));
    var numMembers, myRank := Line(ShowInt(v.numMembers)), Line(ShowInt(v.myRank));
    var members := WriteLine(Shown(v.members));
    var ips := WriteLine(v.memberIps);
    var failed := WriteLine(Flags(v.failed));
    text := vid;
    text := text + members;
    text := text + ips;
    text := text + failed;
    text := text + nFailed;
    text := text + numMembers;
    text := text + myRank;
    Regroup(vid, members, ips, failed, nFailed, numMembers, myRank);
  }

  lemma Regroup(a: string, b: string, c: string, d: string, e: string, f: string, g: string)
    ensures a + b + c + d + e + f + g == a + (b + (c + (d + (e + (f + g)))))
  {
  }

  /** The failure flags of a line, read word by word. */
  method ReadFlags(line: string) returns (failed: seq<int>)
    ensures failed == FlagsRead(Words(line))
  {
    failed := [];
    var rest := line;
    while true
      invariant failed + FlagsRead(Words(rest)) == FlagsRead(Words(line))
      decreases |rest|
    {
      hide Words;
      var start := SpaceEnd(rest, 0);
      WordsStep(rest);
      if start == |rest| {
        break;
      }
      var end := WordEnd(rest, start);
      var word := rest[start..end];
      FlagsReadStep(word, Words(rest[end..]));
      failed := failed + [if word == "T" then 1 else 0];
      rest := rest[end..];
    }
  }

  lemma WordsStep(s: string)
    ensures var start := SpaceEnd(s, 0);
            if start == |s| then Words(s) == []
            else Words(s) == [s[start..WordEnd(s, start)]] + Words(s[WordEnd(s, start)..]) && WordEnd(s, start) > 0
  {
  }

  lemma NumbersStep(s: string)
    ensures var start := SpaceEnd(s, 0);
            var end := DigitsEnd(s, start);
            Numbers(s) == if end == start || ValueOf(s[start..end]) >= ID_LIMIT then []
                          else [ValueOf(s[start..end])] + Numbers(s[end..])
  {
  }

  lemma FlagsReadStep(word: string, rest: seq<string>)
    ensures FlagsRead([word] + rest) == [if word == "T" then 1 else 0] + FlagsRead(rest)
  {
  }

  // ---------------------------------------------------------------- reading back

  lemma {:induction false} LineEndIs(s: string, rest: string, at: nat)
    requires OneLine(s) && at <= |s|
    ensures LineEnd(Line(s) + rest, at) == |s|
    decreases |s| - at
  {
    if at < |s| {
      LineEndIs(s, rest, at + 1);
    }
  }

  lemma GetLineOf(s: string, rest: string)
    requires OneLine(s)
    ensures GetLine(Line(s) + rest) == Some((s, rest))
  {
    LineEndIs(s, rest, 0);
    var text := Line(s) + rest;
    assert text[..|s|] == s && text[|s| + 1..] == rest;
  }

  lemma LinesOf(s: string, rest: string, k: nat)
    requires OneLine(s) && k > 0
    ensures Lines(Line(s) + rest, k) == [s] + Lines(rest, k - 1)
  {
    GetLineOf(s, rest);
  }

  lemma {:induction false} SpacedOneLine(words: seq<string>)
    requires forall i :: 0 <= i < |words| ==> OneLine(words[i])
    ensures OneLine(Spaced(words))
    decreases |words|
  {
    if words != [] {
      SpacedOneLine(words[1..]);
    }
  }

  lemma {:induction false} WordEndIs(w: string, rest: string, at: nat)
    requires IsWord(w) && at <= |w|
    ensures WordEnd(w + " " + rest, at) == |w|
    decreases |w| - at
  {
    if at < |w| {
      WordEndIs(w, rest, at + 1);
    }
  }

  lemma SkipSpaceWords(s: string)
    ensures Words(" " + s) == Words(s)
  {
    hide Words, SpaceEnd, WordEnd;
    SpaceEndShift(s, 0);
    var t, a := " " + s, SpaceEnd(s, 0);
    SpaceFirst(s);
    WordsStep(s);
    WordsStep(t);
    if a < |s| {
      WordEndShift(s, a);
      assert t[a + 1..WordEnd(t, a + 1)] == s[a..WordEnd(s, a)];
      assert t[WordEnd(t, a + 1)..] == s[WordEnd(s, a)..];
    }
  }

  lemma SkipSpaceNumbers(s: string)
    ensures Numbers(" " + s) == Numbers(s)
  {
    hide Numbers, SpaceEnd, DigitsEnd, ValueOf;
    SpaceEndShift(s, 0);
    var t, a := " " + s, SpaceEnd(s, 0);
    SpaceFirst(s);
    NumbersStep(s);
    NumbersStep(t);
    DigitsEndShift(s, a);
    assert t[a + 1..DigitsEnd(t, a + 1)] == s[a..DigitsEnd(s, a)];
    assert t[DigitsEnd(t, a + 1)..] == s[DigitsEnd(s, a)..];
  }

  lemma SpaceFirst(s: string)
    ensures SpaceEnd(" " + s, 0) == SpaceEnd(" " + s, 1)
  {
  }

  lemma {:induction false} SpaceEndShift(s: string, at: nat)
    requires at <= |s|
    ensures SpaceEnd(" " + s, at + 1) == SpaceEnd(s, at) + 1
    decreases |s| - at
  {
    if at < |s| && IsSpace(s[at]) {
      SpaceEndShift(s, at + 1);
    }
  }

  lemma {:induction false} WordEndShift(s: string, at: nat)
    requires at <= |s|
    ensures WordEnd(" " + s, at + 1) == WordEnd(s, at) + 1
    decreases |s| - at
  {
    if at < |s| && !IsSpace(s[at]) {
      WordEndShift(s, at + 1);
    }
  }

  lemma {:induction false} DigitsEndShift(s: string, at: nat)
    requires at <= |s|
    ensures DigitsEnd(" " + s, at + 1) == DigitsEnd(s, at) + 1
    decreases |s| - at
  {
    if at < |s| && IsDigit(s[at]) {
      DigitsEndShift(s, at + 1);
    }
  }

  /** Words printed with spaces after them are read back. */
  lemma {:induction false} WordsOfSpaced(words: seq<string>)
    requires forall i :: 0 <= i < |words| ==> IsWord(words[i])
    ensures Words(Spaced(words)) == words
    decreases |words|
  {
    if words != [] {
      var w, rest := words[0], Spaced(words[1..]);
      var s := w + " " + rest;
      assert IsWord(w);
      WordEndIs(w, rest, 0);
      assert SpaceEnd(s, 0) == 0;
      assert s[0..|w|] == w && s[|w|..] == " " + rest;
      SkipSpaceWords(rest);
      WordsOfSpaced(words[1..]);
    }
  }

  lemma {:induction false} DigitsEndIs(w: string, rest: string, at: nat)
    requires at <= |w| && forall i :: 0 <= i < |w| ==> IsDigit(w[i])
    ensures DigitsEnd(w + " " + rest, at) == |w|
    decreases |w| - at
  {
    if at < |w| {
      DigitsEndIs(w, rest, at + 1);
    }
  }

  lemma FirstNumber(m: nat, rest: string)
    requires m < ID_LIMIT
    ensures Numbers(ShowNat(m) + " " + rest) == [m] + Numbers(rest)
  {
    hide Numbers, ValueOf, ShowNat;
    var w := ShowNat(m);
    var s := w + " " + rest;
    DigitsEndIs(w, rest, 0);
    ShowNatValue(m);
    NumbersStep(s);
    assert s[0] == w[0] && IsDigit(w[0]);
    assert SpaceEnd(s, 0) == 0;
    assert s[0..|w|] == w && s[|w|..] == " " + rest;
    SkipSpaceNumbers(rest);
  }

  /** Node ids printed with spaces after them are read back. */
  lemma {:induction false} NumbersOfSpaced(members: seq<nat>)
    requires forall i :: 0 <= i < |members| ==> members[i] < ID_LIMIT
    ensures Numbers(Spaced(Shown(members))) == members
    decreases |members|
  {
    hide Numbers, ShowNat;
    if members == [] {
      NoNumbers();
    } else {
      assert Shown(members)[1..] == Shown(members[1..]);
      FirstNumber(members[0], Spaced(Shown(members[1..])));
      NumbersOfSpaced(members[1..]);
    }
  }

  lemma NoNumbers()
    ensures Numbers([]) == []
  {
  }

  lemma ShownOneLine(n: int)
    ensures OneLine(ShowInt(n))
  {
  }

  /** Non-empty addresses without white space, and flags that are 0 or 1. */
  predicate Printable(v: TextView) {
    && (forall i :: 0 <= i < |v.memberIps| ==> IsWord(v.memberIps[i]))
    && forall i :: 0 <= i < |v.failed| ==> v.failed[i] == 0 || v.failed[i] == 1
  }

  function PrintedLines(v: TextView): seq<string> {
    [ShowInt(v.vid), Spaced(Shown(v.members)), Spaced(v.memberIps), Spaced(Flags(v.failed)),
     ShowInt(v.nFailed), ShowInt(v.numMembers), ShowInt(v.myRank)]
  }

  lemma PrintsLines(v: TextView)
    requires Printable(v)
    ensures Lines(Print(v), 7) == PrintedLines(v)
  {
    hide Lines, ShowInt, Spaced, OneLine, IsWord, Line;
    SevenOneLine(v);
    var l := PrintedLines(v);
    LinesOf(l[6], [], 1);
    LinesOf(l[5], Line(l[6]), 2);
    LinesOf(l[4], Line(l[5]) + Line(l[6]), 3);
    LinesOf(l[3], Line(l[4]) + (Line(l[5]) + Line(l[6])), 4);
    LinesOf(l[2], Line(l[3]) + (Line(l[4]) + (Line(l[5]) + Line(l[6]))), 5);
    LinesOf(l[1], Line(l[2]) + (Line(l[3]) + (Line(l[4]) + (Line(l[5]) + Line(l[6])))), 6);
    LinesOf(l[0], Line(l[1]) + (Line(l[2]) + (Line(l[3]) + (Line(l[4]) + (Line(l[5]) + Line(l[6]))))), 7);
    assert Line(l[6]) + [] == Line(l[6]);
    NoLines();
  }

  lemma NoLines()
    ensures Lines([], 0) == []
  {
  }

  lemma SevenOneLine(v: TextView)
    requires Printable(v)
    ensures forall k :: 0 <= k < 7 ==> OneLine(PrintedLines(v)[k])
  {
    hide ShowInt, Spaced;
    ShownOneLine(v.vid);
    ShownOneLine(v.nFailed);
    ShownOneLine(v.numMembers);
    ShownOneLine(v.myRank);
    SpacedOneLine(Shown(v.members));
    SpacedOneLine(v.memberIps);
    SpacedOneLine(Flags(v.failed));
  }

  lemma FlagsReadBack(failed: seq<int>)
    requires forall i :: 0 <= i < |failed| ==> failed[i] == 0 || failed[i] == 1
    ensures FlagsRead(Words(Spaced(Flags(failed)))) == failed
  {
    WordsOfSpaced(Flags(failed));
  }

  lemma PrintedReadsBack(v: TextView)
    requires Typed(v) && Printable(v)
    ensures Parse(Print(v), EMPTY) == Some(v)
  {
    hide Lines, ShowInt, Spaced, Words, Numbers, ReadInt, Print, FlagsRead, Flags, IsWord;
    PrintsLines(v);
    ShownIntRead(v.vid);
    ShownIntRead(v.nFailed);
    ShownIntRead(v.numMembers);
    ShownIntRead(v.myRank);
    NumbersOfSpaced(v.members);
    WordsOfSpaced(v.memberIps);
    FlagsReadBack(v.failed);
    assert [] + v.members == v.members && [] + v.memberIps == v.memberIps && [] + v.failed == v.failed;
  }

  /** Whatever is parsed has white-space-free addresses and flags 0 or 1. */
  lemma ParsedIsPrintable(text: string)
    ensures Parse(text, EMPTY).Some? ==> Printable(Parse(text, EMPTY).value)
  {
    hide Lines, ReadInt, Numbers;
  }

  /** Parsing a printed view gives it back exactly when its addresses are words and its flags 0 or 1. */
  lemma ViewRoundTripIff(v: TextView)
    requires Typed(v)
    ensures Parse(Print(v), EMPTY) == Some(v) <==> Printable(v)
  {
    hide Parse, Print, Printable;
    ParsedIsPrintable(Print(v));
    if Printable(v) {
      PrintedReadsBack(v);
    }
  }

  // ---------------------------------------------------------------- what exactly is printed and read

  /** The flags of a view are printed as T for a member that has failed and F for one that has not. */
  lemma FlagWords(failed: seq<int>, i: nat)
    requires i < |failed|
    ensures Flags(failed)[i] in {"T", "F"} && (Flags(failed)[i] == "T" <==> failed[i] != 0)
  {
  }

  function Pow10(k: nat): nat {
    if k == 0 then 1 else 10 * Pow10(k - 1)
  }

  /** Numbers are decimal: a digit counts for ten to the power of how many follow it. */
  lemma {:induction false} DigitWeight(ds: string, i: nat, d: char)
    requires i < |ds| && IsDigit(d) && forall k :: 0 <= k < |ds| ==> IsDigit(ds[k])
    ensures ValueOf(ds[i := d]) == ValueOf(ds) + (d as int - ds[i] as int) * Pow10(|ds| - 1 - i)
    decreases |ds|
  {
    var last := |ds| - 1;
    if i < last {
      DigitWeight(ds[..last], i, d);
      assert ds[i := d][..last] == ds[..last][i := d];
      Tenfold(d as int - ds[i] as int, Pow10(last - 1 - i));
    } else {
      assert ds[i := d][..last] == ds[..last];
    }
  }

  lemma Tenfold(x: int, p: int)
    ensures 10 * (x * p) == x * (10 * p)
  {
  }

  /** They are printed as short as they can be. */
  lemma {:induction false} NoLeadingZero(n: nat)
    ensures ValueOf(ShowNat(n)) == n && (ShowNat(n)[0] == '0' ==> n == 0 && |ShowNat(n)| == 1)
  {
    ShowNatValue(n);
    if n >= 10 {
      NoLeadingZero(n / 10);
    }
  }

  /** A list is printed word by word, with one space after each. */
  lemma {:induction false} SpacedAt(words: seq<string>, i: nat)
    requires i < |words|
    ensures Spaced(words) == Spaced(words[..i]) + words[i] + " " + Spaced(words[i + 1..])
  {
    if i == 0 {
      assert words[..0] == [];
    } else {
      SpacedAt(words[1..], i - 1);
      assert words[1..][..i - 1] == words[1..i] == words[..i][1..] && words[1..][i..] == words[i + 1..];
      Regrouped(words[0], Spaced(words[1..i]), words[i], Spaced(words[i + 1..]));
    }
  }

  lemma Regrouped(a: string, b: string, w: string, c: string)
    ensures a + " " + (b + w + " " + c) == (a + " " + b) + w + " " + c
  {
  }

  lemma {:induction false} SpacesEnd(ws: string, rest: string, at: nat)
    requires at <= |ws| && (forall i :: 0 <= i < |ws| ==> IsSpace(ws[i])) && (rest == [] || !IsSpace(rest[0]))
    ensures SpaceEnd(ws + rest, at) == |ws|
    decreases |ws| - at
  {
    if at < |ws| {
      SpacesEnd(ws, rest, at + 1);
    }
  }

  lemma {:induction false} DigitsStop(before: string, digits: string, rest: string, at: nat)
    requires at <= |digits| && (forall i :: 0 <= i < |digits| ==> IsDigit(digits[i])) && (rest == [] || !IsDigit(rest[0]))
    ensures DigitsEnd(before + digits + rest, |before| + at) == |before| + |digits|
    decreases |digits| - at
  {
    if at < |digits| {
      DigitsStop(before, digits, rest, at + 1);
    }
  }

  /**
   stoi, on any line: white space, at most one sign, digits, and anything that does not go on
   with a digit.  It gives the number these digits stand for, with its sign, if that is a
   32-bit signed number, and throws if it is not or if there are no digits.
   */
  lemma ReadIntExactly(ws: string, sign: string, digits: string, rest: string)
    requires forall i :: 0 <= i < |ws| ==> IsSpace(ws[i])
    requires sign in {"", "+", "-"} && (forall i :: 0 <= i < |digits| ==> IsDigit(digits[i])) && (rest == [] || !IsDigit(rest[0]))
    requires sign + digits == [] && rest != [] ==> !IsSpace(rest[0]) && rest[0] != '+' && rest[0] != '-'
    ensures var n: int := if sign == "-" then 0 - ValueOf(digits) else ValueOf(digits);
            ReadInt(ws + sign + digits + rest)
            == if digits != [] && -0x8000_0000 <= n < 0x8000_0000 then Some(n) else None
  {
    hide ReadInt, ValueOf, SpaceEnd, DigitsEnd, IsSpace, IsDigit;
    SignPlace(ws, sign, digits, rest);
    DigitsStop(ws + sign, digits, rest, 0);
    InTheMiddle(ws + sign, digits, rest);
    assert |sign| <= 1;
    ReadIntAt(ws + sign + digits + rest, |ws|, |ws| + |sign|, digits);
  }

  lemma InTheMiddle(a: string, b: string, c: string)
    ensures (a + b + c)[|a|..|a| + |b|] == b
  {
  }

  lemma ReadIntAt(line: string, at: nat, from: nat, digits: string)
    requires SpaceEnd(line, 0) == at && at <= from <= at + 1 && from + |digits| <= |line|
    requires from == at + 1 <==> at < |line| && (line[at] == '-' || line[at] == '+')
    requires DigitsEnd(line, from) == from + |digits| && line[from..from + |digits|] == digits
    ensures var n: int := if from == at + 1 && line[at] == '-' then 0 - ValueOf(digits) else ValueOf(digits);
            ReadInt(line) == if digits != [] && -0x8000_0000 <= n < 0x8000_0000 then Some(n) else None
  {
    hide ValueOf, SpaceEnd, DigitsEnd;
  }

  /** Where the sign is looked for, and what is there. */
  lemma SignPlace(ws: string, sign: string, digits: string, rest: string)
    requires forall i :: 0 <= i < |ws| ==> IsSpace(ws[i])
    requires sign in {"", "+", "-"} && (forall i :: 0 <= i < |digits| ==> IsDigit(digits[i])) && (rest == [] || !IsDigit(rest[0]))
    requires sign + digits == [] && rest != [] ==> !IsSpace(rest[0]) && rest[0] != '+' && rest[0] != '-'
    ensures var line := ws + sign + digits + rest;
            && SpaceEnd(line, 0) == |ws|
            && (sign == "" ==> |ws| == |line| || (line[|ws|] != '+' && line[|ws|] != '-'))
            && (sign != "" ==> |ws| < |line| && line[|ws|..|ws| + 1] == sign && line[|ws|] == sign[0])
  {
    hide SpaceEnd;
    var after := sign + digits + rest;
    assert ws + sign + digits + rest == ws + after;
    if sign != "" {
      assert after[0] == sign[0];
    } else if digits != [] {
      assert after[0] == digits[0] && IsDigit(digits[0]);
    } else if rest != [] {
      assert after[0] == rest[0];
    }
    SpacesEnd(ws, after, 0);
  }

  /** Lines one after another. */
  function Text(lines: seq<string>): string {
    if lines == [] then [] else Line(lines[0]) + Text(lines[1..])
  }

  lemma {:induction false} LinesOfText(lines: seq<string>, k: nat)
    requires |lines| <= k && forall i :: 0 <= i < |lines| ==> OneLine(lines[i])
    ensures Lines(Text(lines), k) == lines
    decreases |lines|
  {
    hide OneLine, Lines, Line;
    if lines == [] {
      NoMoreLines(k);
    } else {
      assert lines == [lines[0]] + lines[1..];
      LinesOf(lines[0], Text(lines[1..]), k);
      LinesOfText(lines[1..], k - 1);
    }
  }

  lemma NoMoreLines(k: nat)
    ensures Lines([], k) == []
  {
  }

  lemma PrintIsText(v: TextView)
    ensures Print(v) == Text(PrintedLines(v))
  {
    hide ShowInt, Spaced, Line, Flags, Shown;
    var l := PrintedLines(v);
    LastText(l[6]);
    TwoTexts(l[5], l[6..]);
    TwoTexts(l[4], l[5..]);
    TwoTexts(l[3], l[4..]);
    TwoTexts(l[2], l[3..]);
    TwoTexts(l[1], l[2..]);
    TwoTexts(l[0], l[1..]);
    assert l[6..] == [l[6]];
    forall k | 0 <= k < 6 ensures l[k..] == [l[k]] + l[k + 1..] {
    }
    assert l[0..] == l;
  }

  lemma TwoTexts(line: string, lines: seq<string>)
    ensures Text([line] + lines) == Line(line) + Text(lines)
  {
    assert ([line] + lines)[1..] == lines;
  }

  lemma LastText(line: string)
    ensures Text([line]) == Line(line)
  {
    assert [line][1..] == [];
  }

  /**
   Reading into any view the first k of the lines a view was printed as: numbers replace what
   was there, lists are added to it, and what belongs to the missing lines stays.
   */
  lemma ReadsAsFarAsItGoes(v: TextView, k: nat, into: TextView)
    requires Typed(v) && Printable(v) && k <= 7
    ensures Parse(Text(PrintedLines(v)[..k]), into) == Some(TextView(
              if k > 0 then v.vid else into.vid,
              if k > 1 then into.members + v.members else into.members,
              if k > 2 then into.memberIps + v.memberIps else into.memberIps,
              if k > 3 then into.failed + v.failed else into.failed,
              if k > 4 then v.nFailed else into.nFailed,
              if k > 5 then v.numMembers else into.numMembers,
              if k > 6 then v.myRank else into.myRank))
    ensures Text(PrintedLines(v)[..7]) == Print(v)
  {
    hide Lines, ShowInt, Spaced, Words, Numbers, ReadInt, Print, FlagsRead, Flags, IsWord, Text, OneLine;
    PrintIsText(v);
    assert PrintedLines(v)[..7] == PrintedLines(v);
    SevenOneLine(v);
    LinesOfText(PrintedLines(v)[..k], 7);
    ShownIntRead(v.vid);
    ShownIntRead(v.nFailed);
    ShownIntRead(v.numMembers);
    ShownIntRead(v.myRank);
    NumbersOfSpaced(v.members);
    WordsOfSpaced(v.memberIps);
    FlagsReadBack(v.failed);
    assert into.members + [] == into.members && into.memberIps + [] == into.memberIps && into.failed + [] == into.failed;
  }
}
