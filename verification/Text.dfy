/** The string operations of Rust's standard library that the modelled code uses. */
module Text {
  import opened Protocol

  predicate HasPrefix(s: string, prefix: string) {
    prefix <= s
  }

  predicate HasSuffix(s: string, suffix: string) {
    |suffix| <= |s| && s[|s| - |suffix|..] == suffix
  }

  predicate Contains(s: string, part: string) {
    HasPrefix(s, part) || (s != "" && Contains(s[1..], part))
  }

  lemma {:induction false} OccursBetween(before: string, part: string, after: string)
    ensures Contains(before + part + after, part)
    decreases |before|
  {
    var s := before + part + after;
    if before == "" {
      assert s == part + after;
    } else {
      assert s[1..] == before[1..] + part + after;
      OccursBetween(before[1..], part, after);
    }
  }

  /** A part occurs in a text exactly if it stands between two others. */
  lemma {:induction false} ContainsIff(s: string, part: string)
    ensures Contains(s, part) <==> exists before, after :: s == before + part + after
    decreases |s|
  {
    if HasPrefix(s, part) {
      assert s == "" + part + s[|part|..];
    } else if Contains(s, part) {
      ContainsIff(s[1..], part);
      var before, after :| s[1..] == before + part + after;
      assert s == ([s[0]] + before) + part + after;
    }
    if before, after :| s == before + part + after {
      OccursBetween(before, part, after);
    }
  }

  /** The place of the first separator, or the length of the text. */
  function IndexOf(s: string, c: char): (i: nat)
    ensures i <= |s| && c !in s[..i] && (i < |s| ==> s[i] == c)
  {
    if s == [] || s[0] == c then 0 else
      var i := 1 + IndexOf(s[1..], c);
      assert s[..i] == [s[0]] + s[1..][..i - 1];
      i
  }

  /** `split(c)`: one part more than there are separators. */
  function Split(s: string, c: char): (parts: seq<string>)
    ensures |parts| >= 1
    decreases |s|
  {
    var i := IndexOf(s, c);
    if i == |s| then [s] else [s[..i]] + Split(s[i + 1..], c)
  }

  function Join(parts: seq<string>, c: char): string
    requires |parts| >= 1
  {
    if |parts| == 1 then parts[0] else parts[0] + [c] + Join(parts[1..], c)
  }

  ghost predicate NoneHas(parts: seq<string>, c: char) {
    forall i :: 0 <= i < |parts| ==> c !in parts[i]
  }

  /** Splitting takes a text apart at its separators, and joining puts it together again. */
  lemma {:induction false} SplitThenJoin(s: string, c: char)
    ensures Join(Split(s, c), c) == s && NoneHas(Split(s, c), c)
    decreases |s|
  {
    var i := IndexOf(s, c);
    if i == |s| {
      assert s[..i] == s;
    } else {
      SplitThenJoin(s[i + 1..], c);
      assert s == s[..i] + [c] + s[i + 1..];
      assert Split(s, c)[1..] == Split(s[i + 1..], c);
    }
  }

  lemma FirstSeparator(head: string, tail: string, c: char)
    requires c !in head
    ensures IndexOf(head + [c] + tail, c) == |head|
  {
    var s := head + [c] + tail;
    assert s[|head|] == c;
    assert forall j :: 0 <= j < |head| ==> s[j] == head[j];
  }

  lemma NoSeparator(s: string, c: char)
    requires c !in s
    ensures IndexOf(s, c) == |s|
  {
  }

  /** The parts of a text are determined by the text: splitting undoes joining. */
  lemma {:induction false} JoinThenSplit(parts: seq<string>, c: char)
    requires |parts| >= 1 && NoneHas(parts, c)
    ensures Split(Join(parts, c), c) == parts
    decreases |parts|
  {
    if |parts| == 1 {
      NoSeparator(parts[0], c);
    } else {
      FirstSeparator(parts[0], Join(parts[1..], c), c);
      var s := Join(parts, c);
      assert s[..|parts[0]|] == parts[0] && s[|parts[0]| + 1..] == Join(parts[1..], c);
      JoinThenSplit(parts[1..], c);
    }
  }

  /** A joined text ends with its last part. */
  lemma {:induction false} JoinEndsWithLast(parts: seq<string>, c: char)
    requires |parts| >= 1
    ensures HasSuffix(Join(parts, c), parts[|parts| - 1])
    decreases |parts|
  {
    if |parts| > 1 {
      JoinEndsWithLast(parts[1..], c);
      var rest := Join(parts[1..], c);
      var last := parts[|parts| - 1];
      assert Join(parts, c) == (parts[0] + [c]) + rest;
      assert Join(parts, c)[|Join(parts, c)| - |last|..] == rest[|rest| - |last|..];
    }
  }

  /** The characters with Unicode's White_Space property. */
  predicate IsWhite(c: char) {
    var n := c as int;
    9 <= n <= 13 || n == 32 || n == 0x85 || n == 0xA0 || n == 0x1680 || 0x2000 <= n <= 0x200A
    || n == 0x2028 || n == 0x2029 || n == 0x202F || n == 0x205F || n == 0x3000
  }

  function TrimStart(s: string): string {
    if s != [] && IsWhite(s[0]) then TrimStart(s[1..]) else s
  }

  function TrimEnd(s: string): string {
    if s != [] && IsWhite(s[|s| - 1]) then TrimEnd(s[..|s| - 1]) else s
  }

  function Trim(s: string): string {
    TrimEnd(TrimStart(s))
  }

  predicate AllWhite(pad: string) {
    forall i :: 0 <= i < |pad| ==> IsWhite(pad[i])
  }

  lemma {:induction false} TrimStartIs(s: string) returns (pad: string)
    ensures s == pad + TrimStart(s) && AllWhite(pad)
    ensures TrimStart(s) != "" ==> !IsWhite(TrimStart(s)[0])
    decreases |s|
  {
    if s != "" && IsWhite(s[0]) {
      var rest := TrimStartIs(s[1..]);
      pad := [s[0]] + rest;
    } else {
      pad := "";
    }
  }

  lemma {:induction false} TrimEndIs(s: string) returns (pad: string)
    ensures s == TrimEnd(s) + pad && AllWhite(pad)
    ensures TrimEnd(s) != "" ==> !IsWhite(TrimEnd(s)[|TrimEnd(s)| - 1])
    decreases |s|
  {
    if s != "" && IsWhite(s[|s| - 1]) {
      var rest := TrimEndIs(s[..|s| - 1]);
      pad := rest + [s[|s| - 1]];
    } else {
      pad := "";
    }
  }

  /** Trimming takes white space away and nothing else, and leaves none at either end. */
  lemma TrimIs(s: string) returns (before: string, after: string)
    ensures s == before + Trim(s) + after && AllWhite(before) && AllWhite(after)
    ensures Trim(s) != "" ==> !IsWhite(Trim(s)[0]) && !IsWhite(Trim(s)[|Trim(s)| - 1])
  {
    var t := TrimStart(s);
    before := TrimStartIs(s);
    after := TrimEndIs(t);
    assert t == TrimEnd(t) + after;
  }

  lemma {:induction false} TrimDropsStart(pad: string, text: string)
    requires AllWhite(pad) && text != "" && !IsWhite(text[0])
    ensures TrimStart(pad + text) == text
    decreases |pad|
  {
    if pad == "" {
      assert pad + text == text;
    } else {
      assert (pad + text)[1..] == pad[1..] + text;
      TrimDropsStart(pad[1..], text);
    }
  }

  lemma {:induction false} TrimDropsEnd(text: string, pad: string)
    requires AllWhite(pad) && text != "" && !IsWhite(text[|text| - 1])
    ensures TrimEnd(text + pad) == text
    decreases |pad|
  {
    if pad == "" {
      assert text + pad == text;
    } else {
      assert (text + pad)[..|text + pad| - 1] == text + pad[..|pad| - 1];
      TrimDropsEnd(text, pad[..|pad| - 1]);
    }
  }

  function WithoutCarriageReturn(line: string): string {
    if HasSuffix(line, "\r") then line[..|line| - 1] else line
  }

  function LinesOf(parts: seq<string>): (lines: seq<string>)
    requires |parts| >= 1
    ensures |parts| - 1 <= |lines| <= |parts|
    ensures |lines| == |parts| <==> parts[|parts| - 1] != ""
    ensures forall i :: 0 <= i < |parts| - 1 ==> lines[i] == WithoutCarriageReturn(parts[i])
    ensures |lines| == |parts| ==> lines[|parts| - 1] == parts[|parts| - 1]
  {
    var last := parts[|parts| - 1];
    seq(|parts| - 1, i requires 0 <= i < |parts| - 1 => WithoutCarriageReturn(parts[i]))
    + if last == "" then [] else [last]
  }

  /**
    `lines()`: what newlines end, each without a carriage return before its newline, and a last line without either.
   */
  function Lines(s: string): seq<string> {
    LinesOf(Split(s, '\n'))
  }

  /** Some lines, each with its end: a newline, or a carriage return and a newline. */
  function Ended(lines: seq<string>, crs: seq<bool>): string
    requires |lines| == |crs|
  {
    if lines == [] then ""
    else lines[0] + (if crs[0] then "\r\n" else "\n") + Ended(lines[1..], crs[1..])
  }

  lemma SplitFirst(line: string, rest: string, c: char)
    requires c !in line
    ensures Split(line + [c] + rest, c) == [line] + Split(rest, c)
  {
    FirstSeparator(line, rest, c);
    var s := line + [c] + rest;
    assert s[..|line|] == line && s[|line| + 1..] == rest;
  }

  lemma LinesOfMore(first: string, parts: seq<string>)
    requires |parts| >= 1
    ensures LinesOf([first] + parts) == [WithoutCarriageReturn(first)] + LinesOf(parts)
  {
    var all := [first] + parts;
    assert all[|all| - 1] == parts[|parts| - 1];
    forall i | 0 <= i < |LinesOf(all)|
      ensures LinesOf(all)[i] == ([WithoutCarriageReturn(first)] + LinesOf(parts))[i]
    {
      if i > 0 {
        assert all[i] == parts[i - 1];
      }
    }
  }

  lemma CarriageReturnGoes(line: string)
    ensures WithoutCarriageReturn(line + "\r") == line
    ensures line == "" || line[|line| - 1] != '\r' ==> WithoutCarriageReturn(line) == line
  {
    assert (line + "\r")[|line|..] == "\r";
    if HasSuffix(line, "\r") {
      assert line[|line| - 1] == line[|line| - 1..][0];
    }
  }

  lemma LinesOfFirst(first: string, rest: string)
    requires '\n' !in first
    ensures Lines(first + ['\n'] + rest) == [WithoutCarriageReturn(first)] + Lines(rest)
  {
    SplitFirst(first, rest, '\n');
    LinesOfMore(first, Split(rest, '\n'));
  }

  lemma FirstEnded(line: string, cr: bool) returns (first: string)
    requires '\n' !in line && (line == "" || line[|line| - 1] != '\r')
    ensures '\n' !in first && WithoutCarriageReturn(first) == line
    ensures line + (if cr then "\r\n" else "\n") == first + ['\n']
  {
    CarriageReturnGoes(line);
    first := line + if cr then "\r" else "";
  }

  lemma NoLines()
    ensures Lines("") == []
  {
    NoSeparator("", '\n');
  }

  /** The lines of a text are what was ended by newlines, whether or not there were carriage returns before them. */
  lemma {:induction false} LinesAreRead(lines: seq<string>, crs: seq<bool>)
    requires |lines| == |crs| && NoneHas(lines, '\n')
    requires forall i :: 0 <= i < |lines| ==> lines[i] == "" || lines[i][|lines[i]| - 1] != '\r'
    ensures Lines(Ended(lines, crs)) == lines
    decreases |lines|
  {
    if lines == [] {
      NoLines();
    } else {
      LinesAreRead(lines[1..], crs[1..]);
      var first := FirstEnded(lines[0], crs[0]);
      LinesOfFirst(first, Ended(lines[1..], crs[1..]));
    }
  }
}
