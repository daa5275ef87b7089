/** Lines with ANSI escape sequences on a status line of limited width (client_status.rs). */
module AnsiText {
  const ESC: char := '\U{1b}'
  const RESET: string := [ESC, '[', '0', 'm']

  predicate IsLetter(c: char) {
    'a' <= c <= 'z' || 'A' <= c <= 'Z'
  }

  /** An escape sequence starts here: ESC and a bracket.  A lone ESC is a visible character. */
  predicate IsEscape(s: string) {
    |s| >= 2 && s[0] == ESC && s[1] == '['
  }

  /** Up to and including the first letter, or all of it. */
  function LetterEnd(s: string): (n: nat)
    ensures n <= |s|
    ensures (n > 0 && IsLetter(s[n - 1])) || n == |s|
    ensures forall i :: 0 <= i < n - 1 ==> !IsLetter(s[i])
  {
    if s == "" then 0 else if IsLetter(s[0]) then 1 else 1 + LetterEnd(s[1..])
  }

  function EscapeLen(s: string): (n: nat)
    requires IsEscape(s)
    ensures 2 <= n <= |s|
  {
    1 + LetterEnd(s[1..])
  }

  /** How many columns a line takes. */
  function Width(s: string): nat
    decreases |s|
  {
    if s == "" then 0
    else if IsEscape(s) then Width(s[EscapeLen(s)..])
    else 1 + Width(s[1..])
  }

  /** The characters that are kept within some columns: escapes always, until a visible one no longer fits. */
  function Kept(s: string, columns: nat): string
    decreases |s|
  {
    if s == "" then ""
    else if IsEscape(s) then s[..EscapeLen(s)] + Kept(s[EscapeLen(s)..], columns)
    else if columns > 0 then [s[0]] + Kept(s[1..], columns - 1)
    else ""
  }

  /** An escape sequence is among what is kept. */
  predicate KeepsEscape(s: string, columns: nat)
    decreases |s|
  {
    if s == "" then false
    else if IsEscape(s) then true
    else columns > 0 && KeepsEscape(s[1..], columns - 1)
  }

  function Truncated(s: string, columns: nat): string {
    Kept(s, columns) + if KeepsEscape(s, columns) then RESET else ""
  }

  // ---------------------------------------------------------------- the loops

  /** The character iterator skips to the end of an escape sequence. */
  method SkipEscape(line: string, from: nat) returns (next: nat)
    requires from <= |line| && IsEscape(line[from..])
    ensures next == from + EscapeLen(line[from..])
  {
    next := from + 1;
    while next < |line|
      invariant from + 1 <= next <= |line|
      invariant LetterEnd(line[from + 1..]) == next - from - 1 + LetterEnd(line[next..])
    {
      var ch := line[next];
      assert line[next..][1..] == line[next + 1..];
      next := next + 1;
      if IsLetter(ch) {
        break;
      }
    }
    assert line[from..][1..] == line[from + 1..];
  }

  method VisibleWidth(line: string) returns (width: nat)
    ensures width == Width(line)
  {
    width := 0;
    var i := 0;
    assert line[0..] == line;
    while i < |line|
      invariant 0 <= i <= |line| && width + Width(line[i..]) == Width(line)
    {
      if line[i] == ESC && i + 1 < |line| && line[i + 1] == '[' {
        var next := SkipEscape(line, i);
        assert line[i..][next - i..] == line[next..];
        i := next;
      } else {
        assert line[i..][1..] == line[i + 1..];
        width := width + 1;
        i := i + 1;
      }
    }
  }

  /** How far the loop is: what is out already, and what will be kept of the rest. */
  predicate Remains(line: string, columns: nat, out: string, sawEscape: bool, i: nat, width: nat) {
    && i <= |line| && width <= columns
    && Kept(line, columns) == out + Kept(line[i..], columns - width)
    && (KeepsEscape(line, columns) <==> sawEscape || KeepsEscape(line[i..], columns - width))
  }

  lemma RemainsAtEscape(line: string, columns: nat, out: string, sawEscape: bool, i: nat, width: nat, next: nat)
    requires Remains(line, columns, out, sawEscape, i, width)
    requires IsEscape(line[i..]) && next == i + EscapeLen(line[i..])
    ensures Remains(line, columns, out + line[i..next], true, next, width)
  {
    var more := Kept(line[next..], columns - width);
    assert line[i..][..next - i] == line[i..next] && line[i..][next - i..] == line[next..];
    assert Kept(line[i..], columns - width) == line[i..next] + more;
    assert out + (line[i..next] + more) == (out + line[i..next]) + more;
  }

  lemma RemainsAtVisible(line: string, columns: nat, out: string, sawEscape: bool, i: nat, width: nat)
    requires Remains(line, columns, out, sawEscape, i, width)
    requires i < |line| && !IsEscape(line[i..]) && width < columns
    ensures Remains(line, columns, out + [line[i]], sawEscape, i + 1, width + 1)
  {
    var more := Kept(line[i + 1..], columns - width - 1);
    assert line[i..][1..] == line[i + 1..];
    assert Kept(line[i..], columns - width) == [line[i]] + more;
    assert out + ([line[i]] + more) == (out + [line[i]]) + more;
  }

  lemma RemainsAtEnd(line: string, columns: nat, out: string, sawEscape: bool, i: nat, width: nat)
    requires Remains(line, columns, out, sawEscape, i, width)
    requires i == |line| || (!IsEscape(line[i..]) && width == columns)
    ensures out == Kept(line, columns) && (sawEscape <==> KeepsEscape(line, columns))
  {
    assert Kept(line[i..], columns - width) == "";
  }

  method TruncateVisible(line: string, columns: nat) returns (out: string)
    ensures out == Truncated(line, columns)
  {
    var sawEscape;
    out, sawEscape := KeepVisible(line, columns);
    if sawEscape {
      out := out + RESET;
    }
  }

  method KeepVisible(line: string, columns: nat) returns (out: string, sawEscape: bool)
    ensures out == Kept(line, columns) && (sawEscape <==> KeepsEscape(line, columns))
  {
    out, sawEscape := "", false;
    var width, i := 0, 0;
    assert line[0..] == line;
    while i < |line|
      invariant 0 <= i <= |line| && width <= columns
      invariant Remains(line, columns, out, sawEscape, i, width)
    {
      if line[i] == ESC && i + 1 < |line| && line[i + 1] == '[' {
        var next := SkipEscape(line, i);
        RemainsAtEscape(line, columns, out, sawEscape, i, width, next);
        sawEscape := true;
        out := out + line[i..next];
        i := next;
      } else if width < columns {
        RemainsAtVisible(line, columns, out, sawEscape, i, width);
        out := out + [line[i]];
        width := width + 1;
        i := i + 1;
      } else {
        break;
      }
    }
    RemainsAtEnd(line, columns, out, sawEscape, i, width);
  }

  // ---------------------------------------------------------------- what it means

  function Min(a: nat, b: nat): nat {
    if a <= b then a else b
  }

  predicate HasLetter(s: string) {
    LetterEnd(s) > 0 && IsLetter(s[LetterEnd(s) - 1])
  }

  lemma {:induction false} LetterEndKept(s: string, more: string)
    requires HasLetter(s)
    ensures LetterEnd(s[..LetterEnd(s)] + more) == LetterEnd(s)
  {
    if !IsLetter(s[0]) {
      LetterEndKept(s[1..], more);
      var n := LetterEnd(s[1..]);
      assert (s[..n + 1] + more)[1..] == s[1..][..n] + more;
    }
  }

  lemma {:induction false} LetterEndGoesOn(s: string, more: string)
    requires !HasLetter(s)
    ensures LetterEnd(s + more) == |s| + LetterEnd(more)
  {
    if s == "" {
      assert s + more == more;
    } else {
      LetterEndGoesOn(s[1..], more);
      assert (s + more)[1..] == s[1..] + more;
    }
  }

  /** A terminated escape sequence is the same sequence whatever follows it. */
  lemma TerminatedStays(s: string, more: string)
    requires IsEscape(s) && IsLetter(s[EscapeLen(s) - 1])
    ensures var n := EscapeLen(s); IsEscape(s[..n] + more) && EscapeLen(s[..n] + more) == n
  {
    var n := EscapeLen(s);
    LetterEndKept(s[1..], more);
    assert (s[..n] + more)[1..] == s[1..][..n - 1] + more;
  }

  /** One that the line ends within goes on into what follows. */
  lemma UnterminatedGoesOn(s: string, more: string)
    requires IsEscape(s) && !IsLetter(s[EscapeLen(s) - 1])
    ensures EscapeLen(s) == |s| && IsEscape(s + more) && EscapeLen(s + more) == |s| + LetterEnd(more)
  {
    var rest := s[1..];
    assert s[EscapeLen(s) - 1] == rest[LetterEnd(rest) - 1];
    LetterEndGoesOn(rest, more);
    EscapeGoesOn(s, more);
  }

  lemma EscapeGoesOn(s: string, more: string)
    requires IsEscape(s)
    ensures IsEscape(s + more) && EscapeLen(s + more) == 1 + LetterEnd(s[1..] + more)
  {
    assert (s + more)[1..] == s[1..] + more;
  }

  lemma ResetIsOneEscape()
    ensures Width(RESET) == 0 && LetterEnd(RESET) == |RESET|
  {
    assert LetterEnd(RESET[3..]) == 1;
    assert RESET[1..][1..] == RESET[2..] && RESET[2..][1..] == RESET[3..];
    assert EscapeLen(RESET) == 4;
    assert RESET[4..] == "";
  }

  /** A visible character is still visible in front of what is kept after it. */
  lemma VisibleStays(s: string, columns: nat, more: string)
    requires s != "" && !IsEscape(s) && columns > 0 && (more == "" || more == RESET)
    ensures !IsEscape([s[0]] + (Kept(s[1..], columns - 1) + more))
  {
    KeptIsPrefix(s[1..], columns - 1);
  }

  lemma {:induction false} KeptIsPrefix(s: string, columns: nat)
    ensures Kept(s, columns) <= s
    decreases |s|
  {
    if s == "" {
    } else if IsEscape(s) {
      var n := EscapeLen(s);
      KeptIsPrefix(s[n..], columns);
      assert s == s[..n] + s[n..];
    } else if columns > 0 {
      KeptIsPrefix(s[1..], columns - 1);
      assert s == [s[0]] + s[1..];
    }
  }

  lemma WidthAtVisible(c: char, rest: string)
    requires !IsEscape([c] + rest)
    ensures Width([c] + rest) == 1 + Width(rest)
  {
    assert ([c] + rest)[1..] == rest;
  }

  /** What is kept, with or without a reset after it, takes as many columns as fit. */
  lemma {:induction false} KeptWidth(s: string, columns: nat, more: string)
    requires more == "" || more == RESET
    ensures Width(Kept(s, columns) + more) == Min(Width(s), columns)
    decreases |s|
  {
    if s != "" && IsEscape(s) {
      KeptWidthAtEscape(s, columns, more);
    } else if s != "" && columns > 0 {
      KeptWidth(s[1..], columns - 1, more);
      KeptWidthAtVisible(s, columns, more);
    } else {
      ResetIsOneEscape();
      assert "" + more == more;
    }
  }

  lemma KeptWidthAtVisible(s: string, columns: nat, more: string)
    requires s != "" && !IsEscape(s) && columns > 0 && (more == "" || more == RESET)
    requires Width(Kept(s[1..], columns - 1) + more) == Min(Width(s[1..]), columns - 1)
    ensures Width(Kept(s, columns) + more) == Min(Width(s), columns)
  {
    var rest := Kept(s[1..], columns - 1) + more;
    VisibleStays(s, columns, more);
    WidthAtVisible(s[0], rest);
    assert Kept(s, columns) + more == [s[0]] + rest;
    assert Width(s) == 1 + Width(s[1..]);
  }

  lemma {:induction false} KeptWidthAtEscape(s: string, columns: nat, more: string)
    requires IsEscape(s) && (more == "" || more == RESET)
    ensures Width(Kept(s, columns) + more) == Min(Width(s), columns)
    decreases |s|, 0
  {
    var n := EscapeLen(s);
    var rest := Kept(s[n..], columns) + more;
    assert Kept(s, columns) + more == s[..n] + rest;
    if IsLetter(s[n - 1]) {
      KeptWidth(s[n..], columns, more);
      TerminatedStays(s, rest);
      assert (s[..n] + rest)[n..] == rest;
    } else {
      UnterminatedGoesOn(s, more);
      ResetIsOneEscape();
      assert s[..n] == s && rest == more && s[n..] == "";
      assert (s + more)[|s + more|..] == "";
    }
  }

  /** A lone escape character or an unterminated sequence at the cut does not change how wide the result is. */
  lemma TruncatedWidth(s: string, columns: nat)
    ensures Width(Truncated(s, columns)) == Min(Width(s), columns)
  {
    KeptWidth(s, columns, if KeepsEscape(s, columns) then RESET else "");
  }

  predicate HasEscape(s: string) {
    exists i :: 0 <= i < |s| - 1 && s[i] == ESC && s[i + 1] == '['
  }

  lemma {:induction false} KeepsEscapeIff(s: string, columns: nat)
    ensures KeepsEscape(s, columns) <==> HasEscape(Kept(s, columns))
    decreases |s|
  {
    var kept := Kept(s, columns);
    if s == "" {
    } else if IsEscape(s) {
      assert kept[0] == ESC && kept[1] == '[';
    } else if columns > 0 {
      var rest := Kept(s[1..], columns - 1);
      KeepsEscapeIff(s[1..], columns - 1);
      KeptIsPrefix(s[1..], columns - 1);
      assert kept == [s[0]] + rest;
      if HasEscape(rest) {
        var i :| 0 <= i < |rest| - 1 && rest[i] == ESC && rest[i + 1] == '[';
        assert kept[i + 1] == ESC && kept[i + 1 + 1] == '[';
      }
      if HasEscape(kept) {
        var i :| 0 <= i < |kept| - 1 && kept[i] == ESC && kept[i + 1] == '[';
        assert i > 0;
        assert rest[i - 1] == ESC && rest[i - 1 + 1] == '[';
      }
    }
  }

  /** The result is a prefix of the line, and a reset exactly if an escape sequence is in that prefix. */
  lemma TruncatedIsPrefix(s: string, columns: nat)
    ensures Kept(s, columns) <= s
    ensures Truncated(s, columns) == Kept(s, columns) + if HasEscape(Kept(s, columns)) then RESET else ""
  {
    KeptIsPrefix(s, columns);
    KeepsEscapeIff(s, columns);
  }

  /** Nothing more would fit: the prefix is the whole line, or it is full and a visible character comes next. */
  lemma {:induction false} KeptIsLongest(s: string, columns: nat)
    ensures var kept := Kept(s, columns);
            kept == s || (kept < s && Width(kept) == columns && !IsEscape(s[|kept|..]))
    decreases |s|
  {
    KeptIsPrefix(s, columns);
    KeptWidth(s, columns, "");
    assert Kept(s, columns) + "" == Kept(s, columns);
    if s == "" {
    } else if IsEscape(s) {
      var n := EscapeLen(s);
      KeptIsLongest(s[n..], columns);
      KeptWidth(s[n..], columns, "");
      var rest := Kept(s[n..], columns);
      assert rest + "" == rest;
      assert s[|Kept(s, columns)|..] == s[n..][|rest|..];
    } else if columns > 0 {
      KeptIsLongest(s[1..], columns - 1);
      KeptWidth(s[1..], columns - 1, "");
      var rest := Kept(s[1..], columns - 1);
      assert rest + "" == rest;
      assert s[|Kept(s, columns)|..] == s[1..][|rest|..];
    }
  }

  // ---------------------------------------------------------------- lines as they are made

  /** A character that takes a column, or a whole escape sequence that takes none. */
  datatype Token = Shown(c: char) | Sequence(body: string, last: char)

  predicate IsToken(t: Token) {
    match t
    case Shown(c) => c as int != 0x1b
    case Sequence(body, last) =>
      && ('a' <= last <= 'z' || 'A' <= last <= 'Z')
      && forall i :: 0 <= i < |body| ==> !('a' <= body[i] <= 'z') && !('A' <= body[i] <= 'Z')
  }

  predicate AreTokens(tokens: seq<Token>) {
    forall i :: 0 <= i < |tokens| ==> IsToken(tokens[i])
  }

  function Spelt(t: Token): string {
    match t
    case Shown(c) => [c]
    case Sequence(body, last) => "\U{1b}[" + body + [last]
  }

  function Line(tokens: seq<Token>): string {
    if tokens == [] then "" else Spelt(tokens[0]) + Line(tokens[1..])
  }

  function ShownIn(tokens: seq<Token>): nat {
    if tokens == [] then 0 else (if tokens[0].Shown? then 1 else 0) + ShownIn(tokens[1..])
  }

  lemma {:induction false} LetterEndAt(front: string, last: char, rest: string)
    requires IsLetter(last) && forall i :: 0 <= i < |front| ==> !IsLetter(front[i])
    ensures LetterEnd(front + [last] + rest) == |front| + 1
  {
    if front == "" {
      assert front + [last] + rest == [last] + rest;
    } else {
      assert (front + [last] + rest)[1..] == front[1..] + [last] + rest;
      LetterEndAt(front[1..], last, rest);
    }
  }

  lemma SequenceIsEscape(t: Token, rest: string)
    requires t.Sequence? && IsToken(t)
    ensures var s := Spelt(t) + rest;
            IsEscape(s) && EscapeLen(s) == |Spelt(t)| && s[..EscapeLen(s)] == Spelt(t) && s[EscapeLen(s)..] == rest
  {
    var s := Spelt(t) + rest;
    LetterEndAt("[" + t.body, t.last, rest);
    assert s[1..] == "[" + t.body + [t.last] + rest;
  }

  lemma ShownIsVisible(t: Token, rest: string)
    requires t.Shown? && IsToken(t)
    ensures var s := Spelt(t) + rest; s != "" && !IsEscape(s) && s[0] == t.c && s[1..] == rest
  {
  }

  /** A line is as wide as it has characters that are shown. */
  lemma {:induction false} WidthOfTokens(tokens: seq<Token>)
    requires AreTokens(tokens)
    ensures Width(Line(tokens)) == ShownIn(tokens)
    decreases |tokens|
  {
    if tokens != [] {
      WidthOfTokens(tokens[1..]);
      if tokens[0].Shown? {
        ShownIsVisible(tokens[0], Line(tokens[1..]));
      } else {
        SequenceIsEscape(tokens[0], Line(tokens[1..]));
      }
    }
  }

  predicate HasSequence(tokens: seq<Token>) {
    tokens != [] && (tokens[0].Sequence? || HasSequence(tokens[1..]))
  }

  /** The first n tokens are what is kept. */
  predicate IsCut(tokens: seq<Token>, columns: nat, n: nat) {
    && n <= |tokens| && ShownIn(tokens[..n]) <= columns
    && (n < |tokens| ==> tokens[n].Shown? && ShownIn(tokens[..n]) == columns)
    && Kept(Line(tokens), columns) == Line(tokens[..n])
    && (KeepsEscape(Line(tokens), columns) <==> HasSequence(tokens[..n]))
  }

  lemma HeadOfPrefix(tokens: seq<Token>, n: nat)
    requires 0 < n <= |tokens|
    ensures tokens[..n][0] == tokens[0] && tokens[..n][1..] == tokens[1..][..n - 1]
  {
  }

  lemma CutAfterSequence(tokens: seq<Token>, columns: nat, n: nat)
    requires AreTokens(tokens) && tokens != [] && tokens[0].Sequence? && IsCut(tokens[1..], columns, n)
    ensures IsCut(tokens, columns, n + 1)
  {
    SequenceIsEscape(tokens[0], Line(tokens[1..]));
    HeadOfPrefix(tokens, n + 1);
  }

  lemma CutAfterShown(tokens: seq<Token>, columns: nat, n: nat)
    requires AreTokens(tokens) && tokens != [] && tokens[0].Shown? && columns > 0 && IsCut(tokens[1..], columns - 1, n)
    ensures IsCut(tokens, columns, n + 1)
  {
    ShownIsVisible(tokens[0], Line(tokens[1..]));
    HeadOfPrefix(tokens, n + 1);
  }

  lemma CutAtOnce(tokens: seq<Token>)
    requires AreTokens(tokens) && (tokens == [] || tokens[0].Shown?)
    ensures IsCut(tokens, 0, 0)
  {
    if tokens != [] {
      ShownIsVisible(tokens[0], Line(tokens[1..]));
    }
  }

  lemma {:induction false} KeptTokens(tokens: seq<Token>, columns: nat) returns (n: nat)
    requires AreTokens(tokens)
    ensures IsCut(tokens, columns, n)
    decreases |tokens|
  {
    if tokens == [] {
      n := 0;
    } else if tokens[0].Sequence? {
      var m := KeptTokens(tokens[1..], columns);
      CutAfterSequence(tokens, columns, m);
      n := m + 1;
    } else if columns > 0 {
      var m := KeptTokens(tokens[1..], columns - 1);
      CutAfterShown(tokens, columns, m);
      n := m + 1;
    } else {
      CutAtOnce(tokens);
      n := 0;
    }
  }

  /**
    A line is cut before the first character that does not fit, with the sequences before it; if there are any, the
    colours are reset.
   */
  lemma TruncatedTokens(tokens: seq<Token>, columns: nat) returns (n: nat)
    requires AreTokens(tokens)
    ensures n <= |tokens| && ShownIn(tokens[..n]) <= columns
    ensures n < |tokens| ==> tokens[n].Shown? && ShownIn(tokens[..n]) == columns
    ensures Truncated(Line(tokens), columns) ==
            Line(tokens[..n]) + if HasSequence(tokens[..n]) then "\U{1b}[0m" else ""
  {
    n := KeptTokens(tokens, columns);
  }
}
