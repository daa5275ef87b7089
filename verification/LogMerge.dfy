/**
  Log lines of a build: the server forwards the two output streams of `nix-store` line by line as they come (nix.rs,
  server/build.rs), and the client prints them until the build is finished (client/session.rs).
 */
module LogMerge {
  import opened Protocol

  // ---------------------------------------------------------------- merges

  /** `log` is made of both sequences, each in its own order. */
  predicate IsMerge(a: seq<string>, b: seq<string>, log: seq<string>)
    decreases |log|
  {
    if log == [] then a == [] && b == []
    else
      || (a != [] && log[0] == a[0] && IsMerge(a[1..], b, log[1..]))
      || (b != [] && log[0] == b[0] && IsMerge(a, b[1..], log[1..]))
  }

  lemma {:induction false} MergeIsComplete(a: seq<string>, b: seq<string>, log: seq<string>)
    requires IsMerge(a, b, log)
    ensures |log| == |a| + |b| && multiset(log) == multiset(a) + multiset(b)
    decreases |log|
  {
    if log != [] {
      assert log == [log[0]] + log[1..];
      if a != [] && log[0] == a[0] && IsMerge(a[1..], b, log[1..]) {
        MergeIsComplete(a[1..], b, log[1..]);
        assert a == [a[0]] + a[1..];
      } else {
        MergeIsComplete(a, b[1..], log[1..]);
        assert b == [b[0]] + b[1..];
      }
    }
  }

  // ---------------------------------------------------------------- the select loop

  /**
    Which branch each turn of the loop takes when both streams can be read, and the turn at which reading a line or
    handing it on fails, if any.
   */
  datatype Schedule = Schedule(first: nat -> bool, fails: nat -> bool)

  datatype Streamed = Streamed(log: seq<string>, complete: bool)

  /** The loop from its n-th turn on. */
  function Stream(s: Schedule, n: nat, out: seq<string>, err: seq<string>, outDone: bool, errDone: bool): Streamed
    decreases |out| + |err|, (if outDone then 0 else 1) + (if errDone then 0 else 1)
  {
    if outDone && errDone then Streamed([], true)
    else if s.fails(n) then Streamed([], false)
    else if !outDone && (errDone || s.first(n)) then
      if out == [] then Stream(s, n + 1, out, err, true, errDone)
      else
        var more := Stream(s, n + 1, out[1..], err, outDone, errDone);
        Streamed([out[0]] + more.log, more.complete)
    else
      if err == [] then Stream(s, n + 1, out, err, outDone, true)
      else
        var more := Stream(s, n + 1, out, err[1..], outDone, errDone);
        Streamed([err[0]] + more.log, more.complete)
  }

  /** The loop runs until both of its flags are set. */
  method StreamChildLines(s: Schedule, stdout: seq<string>, stderr: seq<string>)
    returns (log: seq<string>, complete: bool)
    ensures Streamed(log, complete) == Stream(s, 0, stdout, stderr, false, false)
  {
    var out, err := stdout, stderr;
    var stdoutDone, stderrDone := false, false;
    var n := 0;
    log := [];
    while !stdoutDone || !stderrDone
      invariant Stream(s, 0, stdout, stderr, false, false) ==
        Prepend(log, Stream(s, n, out, err, stdoutDone, stderrDone))
      decreases |out| + |err|, (if stdoutDone then 0 else 1) + (if stderrDone then 0 else 1)
    {
      if s.fails(n) {
        return log, false;
      }
      if !stdoutDone && (stderrDone || s.first(n)) {
        if out == [] {
          stdoutDone := true;
        } else {
          PrependTwice(log, out[0], Stream(s, n + 1, out[1..], err, stdoutDone, stderrDone));
          log := log + [out[0]];
          out := out[1..];
        }
      } else {
        if err == [] {
          stderrDone := true;
        } else {
          PrependTwice(log, err[0], Stream(s, n + 1, out, err[1..], stdoutDone, stderrDone));
          log := log + [err[0]];
          err := err[1..];
        }
      }
      n := n + 1;
    }
    complete := true;
  }

  function Prepend(log: seq<string>, more: Streamed): (r: Streamed)
    ensures log == [] ==> r == more
  {
    Streamed(log + more.log, more.complete)
  }

  lemma PrependTwice(log: seq<string>, line: string, more: Streamed)
    ensures Prepend(log, Prepend([line], more)) == Prepend(log + [line], more)
  {
    assert log + ([line] + more.log) == (log + [line]) + more.log;
  }

  /** A loop that ends has forwarded all lines of both streams, each stream in its order. */
  lemma {:induction false} StreamedIsMerge(s: Schedule, n: nat, out: seq<string>, err: seq<string>, outDone: bool,
                                           errDone: bool)
    requires (outDone ==> out == []) && (errDone ==> err == []) && Stream(s, n, out, err, outDone, errDone).complete
    ensures IsMerge(out, err, Stream(s, n, out, err, outDone, errDone).log)
    decreases |out| + |err|, (if outDone then 0 else 1) + (if errDone then 0 else 1)
  {
    if outDone && errDone {
    } else if !outDone && (errDone || s.first(n)) {
      if out == [] {
        StreamedIsMerge(s, n + 1, out, err, true, errDone);
      } else {
        StreamedIsMerge(s, n + 1, out[1..], err, outDone, errDone);
        var more := Stream(s, n + 1, out[1..], err, outDone, errDone).log;
        assert ([out[0]] + more)[1..] == more;
      }
    } else {
      if err == [] {
        StreamedIsMerge(s, n + 1, out, err, outDone, true);
      } else {
        StreamedIsMerge(s, n + 1, out, err[1..], outDone, errDone);
        var more := Stream(s, n + 1, out, err[1..], outDone, errDone).log;
        assert ([err[0]] + more)[1..] == more;
      }
    }
  }

  /** A loop that fails has forwarded the lines that it took, in the same way. */
  lemma {:induction false} FailedIsMergeOfPrefixes(s: Schedule, n: nat, out: seq<string>, err: seq<string>,
                                                   outDone: bool, errDone: bool)
    returns (i: nat, j: nat)
    ensures i <= |out| && j <= |err|
    ensures IsMerge(out[..i], err[..j], Stream(s, n, out, err, outDone, errDone).log)
    decreases |out| + |err|, (if outDone then 0 else 1) + (if errDone then 0 else 1)
  {
    if (outDone && errDone) || s.fails(n) {
      i, j := 0, 0;
    } else if !outDone && (errDone || s.first(n)) {
      if out == [] {
        i, j := FailedIsMergeOfPrefixes(s, n + 1, out, err, true, errDone);
      } else {
        i, j := FailedIsMergeOfPrefixes(s, n + 1, out[1..], err, outDone, errDone);
        var more := Stream(s, n + 1, out[1..], err, outDone, errDone).log;
        assert ([out[0]] + more)[1..] == more && out[..i + 1][1..] == out[1..][..i];
        i := i + 1;
      }
    } else {
      if err == [] {
        i, j := FailedIsMergeOfPrefixes(s, n + 1, out, err, outDone, true);
      } else {
        i, j := FailedIsMergeOfPrefixes(s, n + 1, out, err[1..], outDone, errDone);
        var more := Stream(s, n + 1, out, err[1..], outDone, errDone).log;
        assert ([err[0]] + more)[1..] == more && err[..j + 1][1..] == err[1..][..j];
        j := j + 1;
      }
    }
  }

  /** Which of the two streams each line of a merge comes from. */
  function PicksOf(a: seq<string>, b: seq<string>, log: seq<string>): (picks: seq<bool>)
    requires IsMerge(a, b, log)
    ensures |picks| == |log|
    decreases |log|
  {
    if log == [] then []
    else if a != [] && log[0] == a[0] && IsMerge(a[1..], b, log[1..]) then [true] + PicksOf(a[1..], b, log[1..])
    else [false] + PicksOf(a, b[1..], log[1..])
  }

  predicate Follows(s: Schedule, n: nat, picks: seq<bool>) {
    forall i: nat :: i < |picks| ==> s.first(n + i) == picks[i]
  }

  lemma NothingLeft(s: Schedule, n: nat)
    requires forall i :: !s.fails(i)
    ensures Stream(s, n, [], [], false, false) == Streamed([], true)
  {
    assert Stream(s, n + 2, [], [], true, true) == Streamed([], true);
    assert Stream(s, n + 1, [], [], true, false) == Stream(s, n + 2, [], [], true, true);
    assert Stream(s, n + 1, [], [], false, true) == Stream(s, n + 2, [], [], true, true);
  }

  lemma {:induction false} FollowedStream(s: Schedule, n: nat, a: seq<string>, b: seq<string>, log: seq<string>)
    requires IsMerge(a, b, log) && Follows(s, n, PicksOf(a, b, log)) && forall i :: !s.fails(i)
    ensures Stream(s, n, a, b, false, false) == Streamed(log, true)
    decreases |log|
  {
    if log == [] {
      NothingLeft(s, n);
    } else {
      var picks := PicksOf(a, b, log);
      assert s.first(n + 0) == picks[0];
      assert forall i: nat :: i < |picks| - 1 ==> s.first(n + 1 + i) == picks[1..][i] by {
        forall i: nat | i < |picks| - 1
          ensures s.first(n + 1 + i) == picks[1..][i]
        {
          assert s.first(n + (i + 1)) == picks[i + 1];
        }
      }
      if picks[0] {
        FollowedStream(s, n + 1, a[1..], b, log[1..]);
      } else {
        FollowedStream(s, n + 1, a, b[1..], log[1..]);
      }
      assert log == [log[0]] + log[1..];
    }
  }

  /** Every merge can come about: the order across the two streams is left open. */
  lemma EveryMergeIsPossible(a: seq<string>, b: seq<string>, log: seq<string>)
    requires IsMerge(a, b, log)
    ensures exists s :: Stream(s, 0, a, b, false, false) == Streamed(log, true)
  {
    var picks := PicksOf(a, b, log);
    var s := Schedule((n: nat) => n < |picks| && picks[n], (n: nat) => false);
    assert Follows(s, 0, picks);
    FollowedStream(s, 0, a, b, log);
  }

  // ---------------------------------------------------------------- the client

  datatype Ending = Finished(success: bool) | ServerError(message: string) | Unexpected | StreamEnded

  /** What the client prints from the messages of a build, how the build ended, and the messages left. */
  datatype Printed = Printed(lines: seq<string>, ending: Ending, rest: seq<Message>)

  function Print(messages: seq<Message>): Printed
    decreases |messages|
  {
    if messages == [] then Printed([], StreamEnded, [])
    else match messages[0]
      case BuildStarted => Print(messages[1..])
      case NixLog(line) => var more := Print(messages[1..]); more.(lines := [line] + more.lines)
      case BuildFinished(success) => Printed([], Finished(success), messages[1..])
      case Error(message) => Printed([], ServerError(message), messages[1..])
      case _ => Printed([], Unexpected, messages[1..])
  }

  method ReadBuildMessages(messages: seq<Message>) returns (lines: seq<string>, ending: Ending, rest: seq<Message>)
    ensures Printed(lines, ending, rest) == Print(messages)
  {
    lines := [];
    rest := messages;
    while rest != []
      invariant Print(messages) == Print(rest).(lines := lines + Print(rest).lines)
      decreases |rest|
    {
      var message := rest[0];
      var more := Print(rest[1..]).lines;
      rest := rest[1..];
      match message {
        case BuildStarted =>
        case NixLog(line) =>
          assert lines + ([line] + more) == (lines + [line]) + more;
          lines := lines + [line];
        case BuildFinished(success) => ending := Finished(success); return;
        case Error(text) => ending := ServerError(text); return;
        case _ => ending := Unexpected; return;
      }
    }
    ending := StreamEnded;
  }

  function LinesOf(messages: seq<Message>): seq<string> {
    if messages == [] then []
    else (if messages[0].NixLog? then [messages[0].line] else []) + LinesOf(messages[1..])
  }

  predicate IsProgress(m: Message) {
    m == BuildStarted || m.NixLog?
  }

  /** The client prints all log lines up to the first message that is neither a line nor the start; this one ends it. */
  lemma {:induction false} PrintEndsAt(messages: seq<Message>) returns (k: nat)
    ensures k <= |messages| && forall j :: 0 <= j < k ==> IsProgress(messages[j])
    ensures Print(messages).lines == LinesOf(messages[..k])
    ensures k == |messages| ==> Print(messages).ending == StreamEnded && Print(messages).rest == []
    ensures k < |messages| ==>
              && !IsProgress(messages[k]) && Print(messages).rest == messages[k + 1..]
              && Print(messages).ending ==
                 (if messages[k].BuildFinished? then Finished(messages[k].success)
                  else if messages[k].Error? then ServerError(messages[k].message)
                  else Unexpected)
    decreases |messages|
  {
    k := 0;
    if messages != [] && IsProgress(messages[0]) {
      var rest := PrintEndsAt(messages[1..]);
      k := rest + 1;
      assert messages[..k][1..] == messages[1..][..rest];
    }
  }

  /** The messages that forward these lines. */
  function Logs(lines: seq<string>): seq<Message> {
    if lines == [] then [] else [NixLog(lines[0])] + Logs(lines[1..])
  }

  lemma {:induction false} LogsArePrinted(lines: seq<string>, last: Message, rest: seq<Message>)
    requires last.BuildFinished? || last.Error?
    ensures Print(Logs(lines) + [last] + rest) ==
            Printed(lines, if last.BuildFinished? then Finished(last.success) else ServerError(last.message), rest)
    decreases |lines|
  {
    var messages := Logs(lines) + [last] + rest;
    if lines == [] {
      assert messages[1..] == rest;
    } else {
      assert messages[1..] == Logs(lines[1..]) + [last] + rest;
      LogsArePrinted(lines[1..], last, rest);
    }
  }

  /**
    From the build's two output streams to the terminal: what the client prints before the build is finished is all
    lines of both streams, nothing lost or doubled, each stream in its order.
   */
  lemma ClientPrintsMerge(s: Schedule, stdout: seq<string>, stderr: seq<string>, success: bool, rest: seq<Message>)
    requires Stream(s, 0, stdout, stderr, false, false).complete
    ensures var log := Stream(s, 0, stdout, stderr, false, false).log;
            && Print([BuildStarted] + (Logs(log) + [BuildFinished(success)] + rest)) ==
               Printed(log, Finished(success), rest)
            && IsMerge(stdout, stderr, log)
            && multiset(log) == multiset(stdout) + multiset(stderr)
  {
    var log := Stream(s, 0, stdout, stderr, false, false).log;
    var messages := Logs(log) + [BuildFinished(success)] + rest;
    StreamedIsMerge(s, 0, stdout, stderr, false, false);
    MergeIsComplete(stdout, stderr, log);
    LogsArePrinted(log, BuildFinished(success), rest);
    assert ([BuildStarted] + messages)[1..] == messages;
  }
}
