/**
  Reading the head of an HTTP request on the client's local cache server (client_cache/mod.rs): bytes arrive in any
  split into reads, and the reader stops at the blank line or when its buffer is too large.
 */
module HttpHead {
  import opened Protocol
  import opened Wire
  import opened Text

  const READ_SIZE: nat := 1024
  const MAX_HEAD: nat := 16 * 1024
  const END: seq<byte> := [13, 10, 13, 10]

  datatype HttpError = Closed | HeadTooLarge | NotUtf8 | MissingPart | InvalidLine

  // ---------------------------------------------------------------- reading

  /** A blank line ends at this offset. */
  predicate EndsAt(b: seq<byte>, e: nat) {
    4 <= e <= |b| && b[e - 4..e] == END
  }

  /** Carriage return, line feed, carriage return, line feed: the end of an HTTP head. */
  predicate BlankLineAt(b: seq<byte>, e: nat) {
    4 <= e <= |b| && b[e - 4] == 13 && b[e - 3] == 10 && b[e - 2] == 13 && b[e - 1] == 10
  }

  lemma EndIsBlankLine(b: seq<byte>, e: nat)
    ensures EndsAt(b, e) <==> BlankLineAt(b, e)
  {
    if 4 <= e <= |b| {
      var end := b[e - 4..e];
      assert end[0] == b[e - 4] && end[1] == b[e - 3] && end[2] == b[e - 2] && end[3] == b[e - 1];
    }
  }

  function HasEnd(b: seq<byte>): bool {
    |b| >= 4 && (b[..4] == END || HasEnd(b[1..]))
  }

  lemma {:induction false} HasEndIff(b: seq<byte>)
    ensures HasEnd(b) <==> exists e: nat :: EndsAt(b, e)
    decreases |b|
  {
    if |b| >= 4 {
      HasEndIff(b[1..]);
      if b[..4] == END {
        assert EndsAt(b, 4);
      }
      if HasEnd(b[1..]) {
        var e: nat :| EndsAt(b[1..], e);
        assert b[1..][e - 4..e] == b[e - 3..e + 1];
        assert EndsAt(b, e + 1);
      }
      if e: nat :| EndsAt(b, e) && e > 4 {
        assert b[1..][e - 5..e - 1] == b[e - 4..e];
        assert EndsAt(b[1..], e - 1);
      }
    }
  }

  /** What the successive reads of a connection return before it is closed. */
  predicate AreReads(arrivals: seq<seq<byte>>) {
    forall i :: 0 <= i < |arrivals| ==> 1 <= |arrivals[i]| <= READ_SIZE
  }

  function Flat(arrivals: seq<seq<byte>>): seq<byte> {
    if arrivals == [] then [] else arrivals[0] + Flat(arrivals[1..])
  }

  function HeadFrom(buf: seq<byte>, arrivals: seq<seq<byte>>): Result<seq<byte>, HttpError>
    decreases |arrivals|
  {
    if arrivals == [] then Err(Closed)
    else
      var grown := buf + arrivals[0];
      if HasEnd(grown) then Ok(grown)
      else if |grown| > MAX_HEAD then Err(HeadTooLarge)
      else HeadFrom(grown, arrivals[1..])
  }

  class TcpStream {
    var arrivals: seq<seq<byte>>

    constructor (arrivals: seq<seq<byte>>)
      ensures this.arrivals == arrivals
    {
      this.arrivals := arrivals;
    }

    method Read() returns (chunk: seq<byte>)
      modifies this
      ensures if old(arrivals) == [] then chunk == [] && arrivals == []
              else chunk == old(arrivals)[0] && arrivals == old(arrivals)[1..]
    {
      if arrivals == [] {
        chunk := [];
      } else {
        chunk := arrivals[0];
        arrivals := arrivals[1..];
      }
    }
  }

  /** The buffer never holds more than one read beyond the limit. */
  method ReadHead(stream: TcpStream) returns (head: Result<seq<byte>, HttpError>)
    requires AreReads(stream.arrivals)
    modifies stream
    ensures head == HeadFrom([], old(stream.arrivals))
    ensures head.Ok? ==> |head.value| <= MAX_HEAD + READ_SIZE
  {
    var buf: seq<byte> := [];
    while true
      invariant AreReads(stream.arrivals) && |buf| <= MAX_HEAD
      invariant HeadFrom(buf, stream.arrivals) == HeadFrom([], old(stream.arrivals))
      decreases |stream.arrivals|
    {
      var chunk := stream.Read();
      if |chunk| == 0 {
        return Err(Closed);
      }
      buf := buf + chunk;
      assert |buf| <= MAX_HEAD + READ_SIZE;
      if HasEnd(buf) {
        return Ok(buf);
      }
      if |buf| > MAX_HEAD {
        return Err(HeadTooLarge);
      }
    }
  }

  // ---------------------------------------------------------------- which heads are accepted

  /** The first blank line ends here. */
  ghost predicate FirstEnd(b: seq<byte>, e: nat) {
    EndsAt(b, e) && forall f: nat :: EndsAt(b, f) ==> e <= f
  }

  lemma EndInPrefix(a: seq<byte>, b: seq<byte>, e: nat)
    ensures e <= |a| ==> (EndsAt(a + b, e) <==> EndsAt(a, e))
  {
    if 4 <= e <= |a| {
      assert (a + b)[e - 4..e] == a[e - 4..e];
    }
  }

  lemma PrefixHasEndIff(a: seq<byte>, b: seq<byte>, e: nat)
    requires FirstEnd(a + b, e)
    ensures HasEnd(a) <==> e <= |a|
  {
    HasEndIff(a);
    EndInPrefix(a, b, e);
    if f: nat :| EndsAt(a, f) {
      EndInPrefix(a, b, f);
    }
  }

  /** If the blank line comes early enough, every split into reads is accepted with all of it in the buffer. */
  lemma {:induction false} EarlyEndIsAccepted(buf: seq<byte>, arrivals: seq<seq<byte>>, e: nat)
    requires AreReads(arrivals) && FirstEnd(buf + Flat(arrivals), e) && |buf| < e <= MAX_HEAD + 1
    ensures var head := HeadFrom(buf, arrivals);
            head.Ok? && e <= |head.value| && head.value <= buf + Flat(arrivals)
    decreases |arrivals|
  {
    assert arrivals == [] ==> buf + Flat(arrivals) == buf;
    var grown := buf + arrivals[0];
    assert buf + Flat(arrivals) == grown + Flat(arrivals[1..]);
    PrefixHasEndIff(grown, Flat(arrivals[1..]), e);
    if |grown| < e {
      EarlyEndIsAccepted(grown, arrivals[1..], e);
    }
  }

  /** What is accepted contains the blank line within what one more read than the limit can hold. */
  lemma {:induction false} AcceptedHasEarlyEnd(buf: seq<byte>, arrivals: seq<seq<byte>>)
    requires AreReads(arrivals) && |buf| <= MAX_HEAD && HeadFrom(buf, arrivals).Ok?
    ensures var head := HeadFrom(buf, arrivals).value;
            HasEnd(head) && |head| <= MAX_HEAD + READ_SIZE && head <= buf + Flat(arrivals)
    decreases |arrivals|
  {
    var grown := buf + arrivals[0];
    assert buf + Flat(arrivals) == grown + Flat(arrivals[1..]);
    if !HasEnd(grown) {
      AcceptedHasEarlyEnd(grown, arrivals[1..]);
    }
  }

  /** Reads of the largest size for as long as there are bytes. */
  function Greedy(data: seq<byte>): (arrivals: seq<seq<byte>>)
    ensures AreReads(arrivals)
    decreases |data|
  {
    if data == [] then [] else if |data| <= READ_SIZE then [data] else [data[..READ_SIZE]] + Greedy(data[READ_SIZE..])
  }

  lemma {:induction false} GreedyIsSplit(data: seq<byte>)
    ensures Flat(Greedy(data)) == data
    decreases |data|
  {
    if |data| > READ_SIZE {
      GreedyIsSplit(data[READ_SIZE..]);
      assert Greedy(data)[1..] == Greedy(data[READ_SIZE..]);
      assert data == data[..READ_SIZE] + data[READ_SIZE..];
    } else if data != [] {
      assert Flat([data]) == data + Flat([]);
    }
  }

  /** Reads of the largest size accept every blank line that ends within 17,408 bytes. */
  lemma {:induction false} GreedyAccepts(buf: seq<byte>, data: seq<byte>, e: nat)
    requires |buf| <= MAX_HEAD && |buf| % READ_SIZE == 0
    requires FirstEnd(buf + data, e) && |buf| < e <= MAX_HEAD + READ_SIZE
    ensures HeadFrom(buf, Greedy(data)).Ok?
    decreases |data|
  {
    var arrivals := Greedy(data);
    if |data| > READ_SIZE {
      var grown, others := buf + data[..READ_SIZE], data[READ_SIZE..];
      assert arrivals[0] == data[..READ_SIZE] && arrivals[1..] == Greedy(others);
      assert buf + data == grown + others;
      PrefixHasEndIff(grown, others, e);
      if |grown| < e {
        assert |grown| <= MAX_HEAD;
        GreedyAccepts(grown, others, e);
      }
    } else {
      assert buf + data == buf + data + [];
      PrefixHasEndIff(buf + data, [], e);
      assert arrivals == [data];
    }
  }

  /** One byte, then reads of the largest size: the buffer is checked right beyond the limit. */
  function Shifted(data: seq<byte>): (arrivals: seq<seq<byte>>)
    requires data != []
    ensures AreReads(arrivals)
  {
    [data[..1]] + Greedy(data[1..])
  }

  lemma {:induction false} ShiftedRefuses(buf: seq<byte>, data: seq<byte>, e: nat)
    requires |buf| <= MAX_HEAD && |buf| % READ_SIZE == 1
    requires FirstEnd(buf + data, e) && MAX_HEAD + 1 < e
    ensures HeadFrom(buf, Greedy(data)) == Err(HeadTooLarge)
    decreases |data|
  {
    var arrivals := Greedy(data);
    assert |data| > READ_SIZE;
    var grown, others := buf + data[..READ_SIZE], data[READ_SIZE..];
    assert arrivals[0] == data[..READ_SIZE] && arrivals[1..] == Greedy(others);
    assert buf + data == grown + others;
    PrefixHasEndIff(grown, others, e);
    if |grown| <= MAX_HEAD {
      ShiftedRefuses(grown, others, e);
    }
  }

  ghost predicate EverySplitAccepted(data: seq<byte>) {
    forall arrivals :: AreReads(arrivals) && Flat(arrivals) == data ==> HeadFrom([], arrivals).Ok?
  }

  ghost predicate SomeSplitAccepted(data: seq<byte>) {
    exists arrivals :: AreReads(arrivals) && Flat(arrivals) == data && HeadFrom([], arrivals).Ok?
  }

  lemma FirstEndExists(b: seq<byte>, f: nat) returns (e: nat)
    requires EndsAt(b, f)
    ensures FirstEnd(b, e) && e <= f
    decreases f
  {
    if g: nat :| EndsAt(b, g) && g < f {
      e := FirstEndExists(b, g);
    } else {
      e := f;
    }
  }

  lemma EverySplitIff(data: seq<byte>, e: nat)
    requires FirstEnd(data, e)
    ensures EverySplitAccepted(data) <==> e <= MAX_HEAD + 1
  {
    if e <= MAX_HEAD + 1 {
      forall arrivals | AreReads(arrivals) && Flat(arrivals) == data
        ensures HeadFrom([], arrivals).Ok?
      {
        assert [] + Flat(arrivals) == data;
        EarlyEndIsAccepted([], arrivals, e);
      }
    } else {
      var arrivals := Shifted(data);
      GreedyIsSplit(data[1..]);
      assert arrivals[1..] == Greedy(data[1..]) && Flat(arrivals) == data;
      var one := [] + data[..1];
      assert data == one + data[1..];
      PrefixHasEndIff(one, data[1..], e);
      ShiftedRefuses(one, data[1..], e);
      assert HeadFrom([], arrivals) == HeadFrom(one, arrivals[1..]);
    }
  }

  lemma SomeSplitIff(data: seq<byte>, e: nat)
    requires FirstEnd(data, e)
    ensures SomeSplitAccepted(data) <==> e <= MAX_HEAD + READ_SIZE
  {
    if e <= MAX_HEAD + READ_SIZE {
      assert [] + data == data;
      GreedyIsSplit(data);
      GreedyAccepts([], data, e);
    }
    if SomeSplitAccepted(data) {
      var arrivals :| AreReads(arrivals) && Flat(arrivals) == data && HeadFrom([], arrivals).Ok?;
      AcceptedHasEarlyEnd([], arrivals);
      var head := HeadFrom([], arrivals).value;
      assert [] + Flat(arrivals) == data;
      assert data == head + data[|head|..];
      PrefixHasEndIff(head, data[|head|..], e);
    }
  }

  lemma NoEndIsRefused(data: seq<byte>)
    requires SomeSplitAccepted(data)
    ensures exists e: nat :: EndsAt(data, e)
  {
    var arrivals :| AreReads(arrivals) && Flat(arrivals) == data && HeadFrom([], arrivals).Ok?;
    AcceptedHasEarlyEnd([], arrivals);
    var head := HeadFrom([], arrivals).value;
    assert [] + Flat(arrivals) == data;
    HasEndIff(head);
    var e: nat :| EndsAt(head, e);
    assert data == head + data[|head|..];
    EndInPrefix(head, data[|head|..], e);
  }

  /**
    Every split of some bytes into reads is accepted exactly if a blank line ends within the first 16,385 of them, and
    some split is accepted exactly if one ends within the first 17,408; in between it depends on how they arrive.
   */
  lemma AcceptedWhateverTheSplitIff(data: seq<byte>)
    ensures EverySplitAccepted(data) <==> exists e: nat :: BlankLineAt(data, e) && e <= 16_385
    ensures SomeSplitAccepted(data) <==> exists e: nat :: BlankLineAt(data, e) && e <= 17_408
  {
    forall e: nat {
      EndIsBlankLine(data, e);
    }
    GreedyIsSplit(data);
    if f: nat :| EndsAt(data, f) {
      var e := FirstEndExists(data, f);
      EverySplitIff(data, e);
      SomeSplitIff(data, e);
    } else if SomeSplitAccepted(data) {
      NoEndIsRefused(data);
    }
  }

  /** A head that is refused is too large exactly if more than 16,384 bytes came, and otherwise cut off. */
  lemma {:induction false} RefusedHeadTells(buf: seq<byte>, arrivals: seq<seq<byte>>)
    requires |buf| <= 16_384 && HeadFrom(buf, arrivals).Err?
    ensures HeadFrom(buf, arrivals) == Err(if |buf + Flat(arrivals)| > 16_384 then HeadTooLarge else Closed)
    decreases |arrivals|
  {
    if arrivals != [] {
      var grown := buf + arrivals[0];
      assert buf + Flat(arrivals) == grown + Flat(arrivals[1..]);
      if |grown| <= MAX_HEAD {
        RefusedHeadTells(grown, arrivals[1..]);
      }
    }
  }

  // ---------------------------------------------------------------- the request line

  datatype HttpMethod = Get | Head | Other

  datatype HttpRequest = HttpRequest(method_: HttpMethod, target: string)

  /** `split_whitespace`. */
  function Words(s: string): seq<string>
    decreases |s|
  {
    var t := TrimStart(s);
    if t == "" then []
    else
      TrimStartShortens(s);
      [t[..WordEnd(t)]] + Words(t[WordEnd(t)..])
  }

  function WordEnd(s: string): (n: nat)
    ensures n <= |s| && (s != "" && !IsWhite(s[0]) ==> n > 0)
  {
    if s == "" || IsWhite(s[0]) then 0 else 1 + WordEnd(s[1..])
  }

  lemma {:induction false} TrimStartShortens(s: string)
    ensures |TrimStart(s)| <= |s| && (TrimStart(s) != "" ==> !IsWhite(TrimStart(s)[0]))
  {
    if s != "" && IsWhite(s[0]) {
      TrimStartShortens(s[1..]);
    }
  }

  function ParseLine(line: string): Result<HttpRequest, HttpError> {
    var parts := Words(line);
    if |parts| < 3 then Err(MissingPart)
    else if !HasPrefix(parts[2], "HTTP/1.") || |parts| > 3 then Err(InvalidLine)
    else Ok(HttpRequest(if parts[0] == "GET" then Get else if parts[0] == "HEAD" then Head else Other, parts[1]))
  }

  /** UTF-8 decoding is a library's; on ASCII it is the identity. */
  type Decoder = seq<byte> -> Option<string>

  predicate IsAsciiBytes(b: seq<byte>) {
    forall i :: 0 <= i < |b| ==> b[i] < 0x80
  }

  function AsChars(b: seq<byte>): (s: string)
    requires IsAsciiBytes(b)
    ensures |s| == |b| && forall i :: 0 <= i < |s| ==> s[i] == b[i] as char
  {
    seq(|b|, i requires 0 <= i < |b| => b[i] as char)
  }

  ghost predicate DecodesAscii(decode: Decoder) {
    forall b :: IsAsciiBytes(b) ==> decode(b) == Some(AsChars(b))
  }

  function ParseHead(decode: Decoder, head: seq<byte>): Result<HttpRequest, HttpError> {
    match decode(head)
    case None => Err(NotUtf8)
    case Some(text) =>
      var lines := Lines(text);
      if lines == [] then Err(MissingPart) else ParseLine(lines[0])
  }

  function Request(decode: Decoder, arrivals: seq<seq<byte>>): Result<HttpRequest, HttpError> {
    match HeadFrom([], arrivals)
    case Err(error) => Err(error)
    case Ok(head) => ParseHead(decode, head)
  }

  method ReadHttpRequest(stream: TcpStream, decode: Decoder) returns (request: Result<HttpRequest, HttpError>)
    requires AreReads(stream.arrivals)
    modifies stream
    ensures request == Request(decode, old(stream.arrivals))
  {
    var head := ReadHead(stream);
    if head.Err? {
      return Err(head.error);
    }
    var text := decode(head.value);
    if text.None? {
      return Err(NotUtf8);
    }
    var lines := Lines(text.value);
    if lines == [] {
      return Err(MissingPart);
    }
    var parts := Words(lines[0]);
    if |parts| < 1 {
      return Err(MissingPart);
    }
    var requestMethod := if parts[0] == "GET" then Get else if parts[0] == "HEAD" then Head else Other;
    if |parts| < 2 {
      return Err(MissingPart);
    }
    if |parts| < 3 {
      return Err(MissingPart);
    }
    if !HasPrefix(parts[2], "HTTP/1.") || |parts| > 3 {
      return Err(InvalidLine);
    }
    request := Ok(HttpRequest(requestMethod, parts[1]));
  }

  // ---------------------------------------------------------------- the same request whatever the split

  function FirstLine(text: string): string {
    WithoutCarriageReturn(text[..IndexOf(text, '\n')])
  }

  lemma FirstOfLines(text: string)
    requires '\n' in text
    ensures Lines(text) != [] && Lines(text)[0] == FirstLine(text)
  {
    var i := IndexOf(text, '\n');
    assert text[..|text|] == text;
    assert Split(text, '\n')[0] == text[..i];
    assert |Split(text, '\n')| >= 2;
  }

  lemma {:induction false} IndexInPrefix(a: string, b: string, c: char)
    requires c in a
    ensures IndexOf(a + b, c) == IndexOf(a, c) < |a|
  {
    if a[0] != c {
      assert (a + b)[1..] == a[1..] + b;
      IndexInPrefix(a[1..], b, c);
    }
  }

  /** The first line of a head is the first line of all that was sent. */
  lemma FirstLineOfHead(head: seq<byte>, data: seq<byte>, e: nat)
    requires IsAsciiBytes(data) && head <= data && EndsAt(data, e) && e <= |head|
    ensures IsAsciiBytes(head)
    ensures Lines(AsChars(head)) != [] && Lines(AsChars(head))[0] == FirstLine(AsChars(data))
  {
    var text, all := AsChars(head), AsChars(data);
    assert data[e - 1] == data[e - 4..e][3] == 10;
    assert head[e - 1] == data[e - 1];
    assert text[e - 1] == '\n';
    FirstOfLines(text);
    assert all == text + all[|text|..];
    IndexInPrefix(text, all[|text|..], '\n');
    assert all[..IndexOf(text, '\n')] == text[..IndexOf(text, '\n')];
  }

  /**
    ASCII bytes whose blank line ends by byte 16,385 are the same request however they are split into reads: it is
    the one that their first line asks for (section 3 of RFC 9112).
   */
  lemma SameRequestWhateverTheSplit(decode: Decoder, arrivals: seq<seq<byte>>, e: nat)
    requires DecodesAscii(decode) && AreReads(arrivals) && IsAsciiBytes(Flat(arrivals))
    requires FirstEnd(Flat(arrivals), e) && e <= MAX_HEAD + 1
    ensures Request(decode, arrivals) == ParseLine(FirstLine(AsChars(Flat(arrivals))))
  {
    var data := Flat(arrivals);
    assert [] + data == data;
    EarlyEndIsAccepted([], arrivals, e);
    var head := HeadFrom([], arrivals).value;
    FirstLineOfHead(head, data, e);
    assert decode(head) == Some(AsChars(head));
  }

  predicate IsWord(s: string) {
    s != "" && forall i :: 0 <= i < |s| ==> !IsWhite(s[i])
  }

  predicate AreWords(words: seq<string>) {
    forall i :: 0 <= i < |words| ==> IsWord(words[i])
  }

  /** White space around and between some words: at either end there may be none. */
  predicate ArePads(pads: seq<string>) {
    && (forall i :: 0 <= i < |pads| ==> AllWhite(pads[i]))
    && (forall i :: 0 < i < |pads| - 1 ==> pads[i] != "")
  }

  function Woven(pads: seq<string>, words: seq<string>): string
    requires |pads| == |words| + 1
  {
    if words == [] then pads[0] else pads[0] + words[0] + Woven(pads[1..], words[1..])
  }

  lemma {:induction false} WordEnds(word: string, rest: string)
    requires (forall i :: 0 <= i < |word| ==> !IsWhite(word[i])) && (rest == "" || IsWhite(rest[0]))
    ensures WordEnd(word + rest) == |word|
  {
    if word == "" {
      assert word + rest == rest;
    } else {
      assert (word + rest)[1..] == word[1..] + rest;
      WordEnds(word[1..], rest);
    }
  }

  lemma FirstWord(pad: string, word: string, rest: string)
    requires AllWhite(pad) && IsWord(word) && (rest == "" || IsWhite(rest[0]))
    ensures Words(pad + word + rest) == [word] + Words(rest)
  {
    assert pad + word + rest == pad + (word + rest);
    TrimDropsStart(pad, word + rest);
    WordEnds(word, rest);
    assert (word + rest)[..|word|] == word && (word + rest)[|word|..] == rest;
  }

  lemma {:induction false} WhiteHasNoWords(pad: string)
    requires AllWhite(pad)
    ensures TrimStart(pad) == "" && Words(pad) == []
  {
    if pad != "" {
      WhiteHasNoWords(pad[1..]);
    }
  }

  lemma WovenStart(pads: seq<string>, words: seq<string>)
    requires |pads| == |words| + 1 && ArePads(pads) && (words == [] || pads[0] != "")
    ensures var s := Woven(pads, words); s == "" || IsWhite(s[0])
  {
    assert words != [] ==> Woven(pads, words)[0] == pads[0][0];
  }

  lemma WovenStep(pads: seq<string>, words: seq<string>)
    requires |pads| == |words| + 1 && ArePads(pads) && AreWords(words) && words != []
    ensures Words(Woven(pads, words)) == [words[0]] + Words(Woven(pads[1..], words[1..]))
    ensures ArePads(pads[1..]) && AreWords(words[1..])
  {
    WovenStart(pads[1..], words[1..]);
    FirstWord(pads[0], words[0], Woven(pads[1..], words[1..]));
  }

  lemma {:induction false} WordsOfWoven(pads: seq<string>, words: seq<string>)
    requires |pads| == |words| + 1 && ArePads(pads) && AreWords(words)
    ensures Words(Woven(pads, words)) == words
    decreases |words|
  {
    if words == [] {
      WhiteHasNoWords(pads[0]);
    } else {
      WovenStep(pads, words);
      WordsOfWoven(pads[1..], words[1..]);
    }
  }

  lemma {:induction false} WordEndIs(s: string)
    ensures forall i :: 0 <= i < WordEnd(s) ==> !IsWhite(s[i])
    ensures WordEnd(s) < |s| ==> IsWhite(s[WordEnd(s)])
  {
    if s != "" && !IsWhite(s[0]) {
      WordEndIs(s[1..]);
    }
  }

  /** One word and what follows it, woven. */
  lemma WovenOneMore(pad: string, word: string, rest: string, others: seq<string>, words: seq<string>)
    requires AllWhite(pad) && IsWord(word) && |others| == |words| + 1 && ArePads(others) && AreWords(words)
    requires rest == Woven(others, words) && (words != [] ==> others[0] != "")
    ensures Woven([pad] + others, [word] + words) == pad + word + rest
    ensures ArePads([pad] + others) && AreWords([word] + words)
  {
    assert ([pad] + others)[1..] == others && ([word] + words)[1..] == words;
  }

  lemma WordsStep(s: string) returns (pad: string, word: string, rest: string)
    requires TrimStart(s) != ""
    ensures s == pad + word + rest && AllWhite(pad) && IsWord(word) && (rest == "" || IsWhite(rest[0]))
    ensures Words(s) == [word] + Words(rest) && |rest| < |s|
    ensures IsWhite(s[0]) ==> pad != ""
  {
    var t := TrimStart(s);
    pad := TrimStartIs(s);
    TrimStartShortens(s);
    WordEndIs(t);
    word, rest := t[..WordEnd(t)], t[WordEnd(t)..];
  }

  lemma {:induction false} EveryLineIsWoven(s: string) returns (pads: seq<string>)
    ensures |pads| == |Words(s)| + 1 && ArePads(pads) && AreWords(Words(s)) && s == Woven(pads, Words(s))
    ensures s != "" && IsWhite(s[0]) ==> pads[0] != ""
    decreases |s|
  {
    if TrimStart(s) == "" {
      var pad := TrimStartIs(s);
      pads := [pad];
    } else {
      var pad, word, rest := WordsStep(s);
      var others := EveryLineIsWoven(rest);
      if rest == "" {
        assert Words(rest) == [];
      }
      WovenOneMore(pad, word, rest, others, Words(rest));
      pads := [pad] + others;
    }
  }

  /**
    A request line is read as what its words say, however much white space is around and between them: it takes a
    method, a target and a version of HTTP/1, and nothing more.  Every line is some words in white space.
   */
  lemma RequestLineIsRead(pads: seq<string>, words: seq<string>)
    requires |pads| == |words| + 1 && ArePads(pads) && AreWords(words)
    ensures ParseLine(Woven(pads, words)) ==
            if |words| < 3 then Err(MissingPart)
            else if |words| > 3 || !HasPrefix(words[2], "HTTP/1.") then Err(InvalidLine)
            else Ok(HttpRequest(if words[0] == "GET" then Get else if words[0] == "HEAD" then Head else Other,
                                words[1]))
  {
    WordsOfWoven(pads, words);
  }
}
