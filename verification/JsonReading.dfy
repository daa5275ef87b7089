/** Reading the JSON text of path list messages: nothing of a message is lost in it (protocol/messages.rs). */
module JsonReading {
  import opened Protocol
  import opened JsonText

  function HexValue(c: char): Option<nat> {
    if '0' <= c <= '9' then Some(c as nat - '0' as nat)
    else if 'a' <= c <= 'f' then Some(c as nat - 'a' as nat + 10)
    else None
  }

  /** One character of a JSON string and what follows it, or nothing if no JSON string goes on like this. */
  function Unescaped(s: string): Option<(char, string)>
    requires s != ""
  {
    if s[0] != '\\' then if s[0] == '"' || s[0] as int < 0x20 then None else Some((s[0], s[1..]))
    else if |s| < 2 then None
    else match s[1]
      case '"' => Some(('"', s[2..]))
      case '\\' => Some(('\\', s[2..]))
      case 'b' => Some((8 as char, s[2..]))
      case 't' => Some((9 as char, s[2..]))
      case 'n' => Some((10 as char, s[2..]))
      case 'f' => Some((12 as char, s[2..]))
      case 'r' => Some((13 as char, s[2..]))
      case 'u' =>
        if |s| < 6 || s[2] != '0' || s[3] != '0' || HexValue(s[4]).None? || HexValue(s[5]).None? then None
        else Some(((16 * HexValue(s[4]).value + HexValue(s[5]).value) as char, s[6..]))
      case _ => None
  }

  lemma ControlIsRead(c: char, rest: string)
    requires c as int < 0x20 && c as int !in {8, 9, 10, 12, 13}
    ensures Unescaped(Escaped(c) + rest) == Some((c, rest))
  {
    var s := Escaped(c) + rest;
    var high, low := c as int / 16, c as int % 16;
    assert s[4] == HEX[high] && s[5] == HEX[low] && s[6..] == rest;
    HexIsRead(high);
    HexIsRead(low);
  }

  lemma HexIsRead(n: nat)
    requires n < 16
    ensures HexValue(HEX[n]) == Some(n)
  {
  }

  lemma ShortEscapeIsRead(c: char, rest: string)
    requires c == '"' || c == '\\' || c as int in {8, 9, 10, 12, 13}
    ensures Unescaped(Escaped(c) + rest) == Some((c, rest))
  {
    var s := Escaped(c) + rest;
    assert |Escaped(c)| == 2 && s[0] == Escaped(c)[0] && s[1] == Escaped(c)[1] && s[2..] == rest;
  }

  lemma EscapedIsRead(c: char, rest: string)
    ensures Unescaped(Escaped(c) + rest) == Some((c, rest))
  {
    if c == '"' || c == '\\' || c as int in {8, 9, 10, 12, 13} {
      ShortEscapeIsRead(c, rest);
    } else if c as int < 0x20 {
      ControlIsRead(c, rest);
    } else {
      assert (Escaped(c) + rest)[1..] == rest;
    }
  }

  /** The rest of a JSON string whose opening quote has been read, and what follows its closing one. */
  function StringIn(s: string): Option<(string, string)>
    decreases |s|
  {
    if s == "" then None
    else if s[0] == '"' then Some(("", s[1..]))
    else match Unescaped(s)
      case None => None
      case Some((c, rest)) =>
        if |rest| >= |s| then None
        else match StringIn(rest)
          case None => None
          case Some((more, after)) => Some(([c] + more, after))
  }

  /** The rest of a JSON array of strings, at an item, and what follows its closing bracket. */
  function ItemsIn(s: string): Option<(seq<string>, string)>
    decreases |s|
  {
    if s == "" || s[0] != '"' then None
    else match StringIn(s[1..])
      case None => None
      case Some((item, rest)) =>
        if |rest| >= |s| || rest == "" then None
        else if rest[0] == ']' then Some(([item], rest[1..]))
        else if rest[0] != ',' then None
        else match ItemsIn(rest[1..])
          case None => None
          case Some((more, after)) => Some(([item] + more, after))
  }

  function ArrayIn(s: string): Option<(seq<string>, string)> {
    if s == "" then None else if s[0] == ']' then Some(([], s[1..])) else ItemsIn(s)
  }

  function HeadText(kind: PathListKind): string {
    match kind
    case BuildPaths => "{\"type\":\"build_paths\",\"paths\":["
    case MissingPaths => "{\"type\":\"missing_paths\",\"paths\":["
    case OutputClosure => "{\"type\":\"output_closure\",\"paths\":["
    case OutputRequest => "{\"type\":\"output_request\",\"paths\":["
  }

  /** What the text of a path list message says, if it is one of this kind. */
  function ChunkText(s: string, kind: PathListKind): Option<(seq<Path>, bool)> {
    if !(HeadText(kind) <= s) then None
    else match ArrayIn(s[|HeadText(kind)|..])
      case None => None
      case Some((paths, tail)) =>
        if tail == ",\"done\":true}" then Some((paths, true))
        else if tail == ",\"done\":false}" then Some((paths, false))
        else None
  }

  lemma EscapedStart(c: char)
    ensures Escaped(c) != "" && Escaped(c)[0] != '"'
  {
  }

  lemma {:induction false} StringReads(text: string, rest: string)
    ensures StringIn(EscapedAll(text) + "\"" + rest) == Some((text, rest))
  {
    var s := EscapedAll(text) + "\"" + rest;
    if text == "" {
      assert s == "\"" + rest;
      assert s[0] == '"' && s[1..] == rest;
    } else {
      var after := EscapedAll(text[1..]) + "\"" + rest;
      assert s == Escaped(text[0]) + after;
      EscapedStart(text[0]);
      EscapedIsRead(text[0], after);
      StringReads(text[1..], rest);
      assert [text[0]] + text[1..] == text;
    }
  }

  lemma QuotedReads(path: Path, rest: string)
    ensures var s := Quoted(path) + rest;
            s[0] == '"' && StringIn(s[1..]) == Some((path, rest)) && |rest| < |s|
  {
    var s := Quoted(path) + rest;
    assert s[1..] == EscapedAll(path) + "\"" + rest;
    StringReads(path, rest);
  }

  /** A last item and the closing bracket. */
  lemma LastItemRead(path: Path, rest: string)
    ensures ItemsIn(Quoted(path) + ("]" + rest)) == Some(([path], rest))
  {
    var after := "]" + rest;
    QuotedReads(path, after);
    assert after[0] == ']' && after[1..] == rest;
  }

  /** An item, a comma, and the items after it. */
  lemma ItemRead(path: Path, more: string, paths: seq<Path>, rest: string)
    requires ItemsIn(more) == Some((paths, rest))
    ensures ItemsIn(Quoted(path) + ("," + more)) == Some(([path] + paths, rest))
  {
    var after := "," + more;
    QuotedReads(path, after);
    assert after[0] == ',' && after[1..] == more;
  }

  lemma QuotedAllOne(paths: seq<Path>, rest: string)
    requires |paths| == 1
    ensures QuotedAll(paths) + "]" + rest == Quoted(paths[0]) + ("]" + rest)
  {
  }

  lemma QuotedAllMore(paths: seq<Path>, rest: string)
    requires |paths| > 1
    ensures QuotedAll(paths) + "]" + rest == Quoted(paths[0]) + ("," + (QuotedAll(paths[1..]) + "]" + rest))
  {
    Nested(Quoted(paths[0]), ",", QuotedAll(paths[1..]), "]", rest);
  }

  lemma Nested(a: string, b: string, c: string, d: string, e: string)
    ensures a + b + c + d + e == a + (b + (c + d + e))
  {
  }

  lemma {:induction false} ItemsRead(paths: seq<Path>, rest: string)
    requires paths != []
    ensures ItemsIn(QuotedAll(paths) + "]" + rest) == Some((paths, rest))
    decreases |paths|
  {
    if |paths| == 1 {
      QuotedAllOne(paths, rest);
      LastItemRead(paths[0], rest);
      assert [paths[0]] == paths;
    } else {
      QuotedAllMore(paths, rest);
      ItemsRead(paths[1..], rest);
      ItemRead(paths[0], QuotedAll(paths[1..]) + "]" + rest, paths[1..], rest);
      assert [paths[0]] + paths[1..] == paths;
    }
  }

  lemma QuotedAllStart(paths: seq<Path>)
    requires paths != []
    ensures QuotedAll(paths) != "" && QuotedAll(paths)[0] == '"'
  {
    assert Quoted(paths[0])[0] == '"';
  }

  lemma ArrayReads(paths: seq<Path>, rest: string)
    ensures ArrayIn(QuotedAll(paths) + "]" + rest) == Some((paths, rest))
  {
    var s := QuotedAll(paths) + "]" + rest;
    if paths == [] {
      assert s == "]" + rest;
      assert s[1..] == rest;
    } else {
      QuotedAllStart(paths);
      ItemsRead(paths, rest);
    }
  }

  lemma HeadOfBuildPaths()
    ensures ChunkHead(BuildPaths) == HeadText(BuildPaths)
  {
  }

  lemma HeadOfMissingPaths()
    ensures ChunkHead(MissingPaths) == HeadText(MissingPaths)
  {
  }

  lemma HeadOfOutputClosure()
    ensures ChunkHead(OutputClosure) == HeadText(OutputClosure)
  {
  }

  lemma HeadOfOutputRequest()
    ensures ChunkHead(OutputRequest) == HeadText(OutputRequest)
  {
  }

  lemma HeadIsText(kind: PathListKind)
    ensures ChunkHead(kind) == HeadText(kind)
  {
    match kind {
      case BuildPaths => HeadOfBuildPaths();
      case MissingPaths => HeadOfMissingPaths();
      case OutputClosure => HeadOfOutputClosure();
      case OutputRequest => HeadOfOutputRequest();
    }
  }

  lemma HeadChars(kind: PathListKind)
    ensures var head := HeadText(kind);
            && |head| > 16
            && head[9] == (match kind case BuildPaths => 'b' case MissingPaths => 'm' case _ => 'o')
            && (kind == OutputClosure ==> head[16] == 'c') && (kind == OutputRequest ==> head[16] == 'r')
  {
  }

  /** A text starts like a message of one kind only. */
  lemma HeadsDiffer(s: string, kind: PathListKind, other: PathListKind)
    requires HeadText(kind) <= s && HeadText(other) <= s
    ensures kind == other
  {
    HeadChars(kind);
    HeadChars(other);
    assert s[9] == HeadText(kind)[9] == HeadText(other)[9];
    assert s[16] == HeadText(kind)[16] == HeadText(other)[16];
  }

  lemma TailIsText(done: bool)
    ensures ChunkTail(done) == "]" + TailText(done)
  {
  }

  function TailText(done: bool): string {
    if done then ",\"done\":true}" else ",\"done\":false}"
  }

  lemma Regrouped(a: string, b: string, c: string, d: string)
    ensures a + b + (c + d) == a + (b + c + d)
  {
  }

  lemma SplitJson(kind: PathListKind, paths: seq<Path>, done: bool)
    ensures ChunkJson(kind, paths, done) == HeadText(kind) + (QuotedAll(paths) + "]" + TailText(done))
  {
    HeadIsText(kind);
    TailIsText(done);
    Regrouped(HeadText(kind), QuotedAll(paths), "]", TailText(done));
  }

  lemma TailsDiffer()
    ensures ",\"done\":true}" != ",\"done\":false}"
  {
    assert ",\"done\":true}"[8] == 't' && ",\"done\":false}"[8] == 'f';
  }

  /** The text of a path list message says which list it is, which paths it carries and whether it is the last chunk. */
  lemma ChunkReadsBack(kind: PathListKind, paths: seq<Path>, done: bool, other: PathListKind)
    ensures ChunkText(ChunkJson(kind, paths, done), other) == if other == kind then Some((paths, done)) else None
  {
    SplitJson(kind, paths, done);
    ArrayReads(paths, TailText(done));
    var items := QuotedAll(paths) + "]" + TailText(done);
    var s := HeadText(kind) + items;
    if other == kind {
      assert s[|HeadText(kind)|..] == items;
      TailsDiffer();
    } else if HeadText(other) <= s {
      HeadsDiffer(s, kind, other);
    }
  }
}
