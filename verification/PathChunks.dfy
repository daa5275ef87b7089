/** Path lists in chunks over a byte stream (protocol/path_chunks.rs). */
module PathChunks {
  import opened Protocol
  import opened Wire

  datatype Limits = Limits(chunks: nat, paths: nat, bytes: nat)

  /** The server's limits (server/mod.rs); the client uses the same numbers (client/session.rs). */
  const PATH_LIST_LIMITS: Limits := Limits(512, 100_000, 16 * 1024 * 1024)

  const USIZE_MAX: nat := 0xFFFF_FFFF_FFFF_FFFF

  datatype ReadError =
    | OnWire(error: WireError)
    | PeerError(message: string)
    | Unexpected
    | TooManyChunks
    | TooManyPaths
    | CountOverflow
    | TooManyBytes

  // ---------------------------------------------------------------- sizes

  /** The length of a character and of a path in UTF-8. */
  function CharLen(c: char): nat {
    if c as int < 0x80 then 1 else if c as int < 0x800 then 2 else if c as int < 0x1_0000 then 3 else 4
  }

  function PathLen(path: Path): nat {
    if path == [] then 0 else CharLen(path[0]) + PathLen(path[1..])
  }

  function Bytes(paths: seq<Path>): nat {
    if paths == [] then 0 else PathLen(paths[0]) + Bytes(paths[1..])
  }

  lemma {:induction false} BytesAppend(a: seq<Path>, b: seq<Path>)
    ensures Bytes(a + b) == Bytes(a) + Bytes(b)
  {
    if a == [] {
      assert a + b == b;
    } else {
      assert (a + b)[1..] == a[1..] + b;
      BytesAppend(a[1..], b);
    }
  }

  // ---------------------------------------------------------------- writing

  /** The messages of a list: an empty list is one empty chunk. */
  function ChunksOf(kind: PathListKind, paths: seq<Path>): seq<Message> {
    if IsLastChunk(paths) then [PathList(kind, paths, true)]
    else [PathList(kind, HeadChunk(paths), false)] + ChunksOf(kind, paths[PATH_CHUNK_SIZE..])
  }

  predicate Fits(codec: Codec, m: Message) {
    |codec.encode(m)| <= MAX_MESSAGE_LEN
  }

  predicate AllFit(codec: Codec, messages: seq<Message>) {
    forall i :: 0 <= i < |messages| ==> Fits(codec, messages[i])
  }

  /** The frames of the messages before the first that does not fit. */
  function FramesOf(codec: Codec, messages: seq<Message>): seq<byte> {
    if messages == [] || !Fits(codec, messages[0]) then []
    else Frame(codec.encode(messages[0])) + FramesOf(codec, messages[1..])
  }

  lemma {:induction false} FramesAppend(codec: Codec, messages: seq<Message>, m: Message)
    requires AllFit(codec, messages)
    ensures FramesOf(codec, messages + [m]) ==
            FramesOf(codec, messages) + if Fits(codec, m) then Frame(codec.encode(m)) else []
  {
    if messages == [] {
      assert messages + [m] == [m] && [m][1..] == [];
    } else {
      assert (messages + [m])[1..] == messages[1..] + [m];
      FramesAppend(codec, messages[1..], m);
    }
  }

  lemma {:induction false} FramesOfPrefix(codec: Codec, messages: seq<Message>, k: nat)
    requires k < |messages| && AllFit(codec, messages[..k]) && !Fits(codec, messages[k])
    ensures FramesOf(codec, messages) == FramesOf(codec, messages[..k])
  {
    if k > 0 {
      assert messages[..k][0] == messages[0] && messages[..k][1..] == messages[1..][..k - 1];
      FramesOfPrefix(codec, messages[1..], k - 1);
    }
  }

  /** `chunks(512).len()` and the k-th of those chunks. */
  function BlockCount(n: nat): nat {
    (n + PATH_CHUNK_SIZE - 1) / PATH_CHUNK_SIZE
  }

  function Block(paths: seq<Path>, k: nat): seq<Path>
    requires k * PATH_CHUNK_SIZE <= |paths|
  {
    HeadChunk(paths[k * PATH_CHUNK_SIZE..])
  }

  lemma BlocksAfterFirst(n: nat)
    requires n > PATH_CHUNK_SIZE
    ensures BlockCount(n) == 1 + BlockCount(n - PATH_CHUNK_SIZE)
  {
  }

  /** The k-th message carries the k-th block of 512 paths, and the last one says so. */
  lemma {:induction false} ChunkAt(kind: PathListKind, paths: seq<Path>, k: nat)
    requires paths != [] && k < BlockCount(|paths|)
    ensures |ChunksOf(kind, paths)| == BlockCount(|paths|) && k * PATH_CHUNK_SIZE < |paths|
    ensures ChunksOf(kind, paths)[k] == PathList(kind, Block(paths, k), k == BlockCount(|paths|) - 1)
    decreases |paths|
  {
    if IsLastChunk(paths) {
      assert paths[0..] == paths;
    } else {
      var rest := paths[PATH_CHUNK_SIZE..];
      BlocksAfterFirst(|paths|);
      ChunkAt(kind, rest, if k == 0 then 0 else k - 1);
      if k == 0 {
        assert paths[0..] == paths;
      } else {
        assert ChunksOf(kind, paths)[k] == ChunksOf(kind, rest)[k - 1];
        assert rest[(k - 1) * PATH_CHUNK_SIZE..] == paths[k * PATH_CHUNK_SIZE..];
      }
    }
  }

  lemma FramesAdvance(codec: Codec, messages: seq<Message>, k: nat)
    requires k < |messages| && AllFit(codec, messages[..k])
    ensures Fits(codec, messages[k]) ==>
              AllFit(codec, messages[..k + 1])
              && FramesOf(codec, messages[..k + 1]) == FramesOf(codec, messages[..k]) + Frame(codec.encode(messages[k]))
    ensures !Fits(codec, messages[k]) ==>
              !AllFit(codec, messages) && FramesOf(codec, messages) == FramesOf(codec, messages[..k])
  {
    if Fits(codec, messages[k]) {
      assert messages[..k + 1] == messages[..k] + [messages[k]];
      FramesAppend(codec, messages[..k], messages[k]);
    } else {
      FramesOfPrefix(codec, messages, k);
    }
  }

  /** What the k-th turn of the writer comes to: the chunk it sends, and all that is sent once that chunk is. */
  lemma BlockAdvances(codec: Codec, kind: PathListKind, paths: seq<Path>, k: nat)
    requires paths != [] && k < BlockCount(|paths|) == |ChunksOf(kind, paths)| && k * PATH_CHUNK_SIZE <= |paths|
    requires AllFit(codec, ChunksOf(kind, paths)[..k])
    ensures var messages, m := ChunksOf(kind, paths), PathList(kind, Block(paths, k), k == BlockCount(|paths|) - 1);
            if Fits(codec, m) then
              && AllFit(codec, messages[..k + 1])
              && FramesOf(codec, messages[..k + 1]) == FramesOf(codec, messages[..k]) + Frame(codec.encode(m))
            else !AllFit(codec, messages) && FramesOf(codec, messages) == FramesOf(codec, messages[..k])
  {
    ChunkAt(kind, paths, k);
    FramesAdvance(codec, ChunksOf(kind, paths), k);
  }

  lemma BlockExists(n: nat, k: nat)
    requires k < BlockCount(n)
    ensures k * PATH_CHUNK_SIZE <= n
  {
  }

  /** Sends a list chunk by chunk; on a chunk that does not fit it stops with an error. */
  method Write(stream: ByteStream, codec: Codec, paths: seq<Path>, kind: PathListKind) returns (sent: bool)
    modifies stream
    ensures sent <==> AllFit(codec, ChunksOf(kind, paths))
    ensures stream.bytes == old(stream.bytes) + FramesOf(codec, ChunksOf(kind, paths))
  {
    if paths == [] {
      sent := stream.WriteJson(codec, PathList(kind, [], true));
      var only := ChunksOf(kind, paths);
      assert only == [PathList(kind, [], true)] && only[1..] == [];
      assert FramesOf(codec, only[1..]) == [] && (sent <==> Fits(codec, only[0]));
      return;
    }
    sent := WriteBlocks(stream, codec, paths, kind);
  }

  method WriteBlocks(stream: ByteStream, codec: Codec, paths: seq<Path>, kind: PathListKind) returns (sent: bool)
    requires paths != []
    modifies stream
    ensures sent <==> AllFit(codec, ChunksOf(kind, paths))
    ensures stream.bytes == old(stream.bytes) + FramesOf(codec, ChunksOf(kind, paths))
  {
    ghost var messages := ChunksOf(kind, paths);
    ghost var before := stream.bytes;
    var count := BlockCount(|paths|);
    ChunkAt(kind, paths, 0);
    var index := 0;
    while index < count
      invariant 0 <= index <= count == |messages|
      invariant AllFit(codec, messages[..index])
      invariant stream.bytes == before + FramesOf(codec, messages[..index])
    {
      BlockExists(|paths|, index);
      BlockAdvances(codec, kind, paths, index);
      sent := stream.WriteJson(codec, PathList(kind, Block(paths, index), index == count - 1));
      if !sent {
        return;
      }
      index := index + 1;
    }
    assert messages[..index] == messages;
    sent := true;
  }

  // ---------------------------------------------------------------- reading

  /** The loop of the reader: what it has kept, its counters, and the stream. */
  datatype Loop = Loop(paths: seq<Path>, chunks: nat, pathBytes: nat, rest: seq<byte>)

  function SaturatingAdd(a: nat, b: nat): nat {
    if a + b > USIZE_MAX then USIZE_MAX else a + b
  }

  /** The counters after one more chunk, or the limit that it breaks. */
  function Counted(paths: seq<Path>, chunks: nat, pathBytes: nat, chunk: seq<Path>, limits: Limits)
    : Result<(nat, nat), ReadError>
  {
    if chunks + 1 > limits.chunks then Err(TooManyChunks)
    else if SaturatingAdd(|paths|, |chunk|) > limits.paths then Err(TooManyPaths)
    else if pathBytes + Bytes(chunk) > USIZE_MAX then Err(CountOverflow)
    else if pathBytes + Bytes(chunk) > limits.bytes then Err(TooManyBytes)
    else Ok((chunks + 1, pathBytes + Bytes(chunk)))
  }

  datatype Chunk = Chunk(paths: seq<Path>, done: bool)

  function ChunkIn(kind: PathListKind, read: Result<Message, WireError>): Result<Chunk, ReadError> {
    match read
    case Err(error) => Err(OnWire(error))
    case Ok(PathList(k, paths, done)) => if k == kind then Ok(Chunk(paths, done)) else Err(Unexpected)
    case Ok(Error(message)) => Err(PeerError(message))
    case Ok(_) => Err(Unexpected)
  }

  /** One turn of the loop: an error, or the new loop and whether the list is complete. */
  datatype Turn = Failed(error: ReadError, rest: seq<byte>) | Continued(loop: Loop) | Finished(loop: Loop)

  function TurnWith(loop: Loop, limits: Option<Limits>, chunk: Chunk, rest: seq<byte>): Turn {
    var counted :=
      if limits.Some? then Counted(loop.paths, loop.chunks, loop.pathBytes, chunk.paths, limits.value)
      else Ok((loop.chunks, loop.pathBytes));
    match counted
    case Err(error) => Failed(error, rest)
    case Ok((chunks, pathBytes)) =>
      var next := Loop(loop.paths + chunk.paths, chunks, pathBytes, rest);
      if chunk.done then Finished(next) else Continued(next)
  }

  function TurnOf(codec: Codec, kind: PathListKind, limits: Option<Limits>, loop: Loop): (t: Turn)
    ensures !t.Failed? ==> |t.loop.rest| < |loop.rest|
  {
    var read := ReadOne(codec, loop.rest);
    match ChunkIn(kind, read.result)
    case Err(error) => Failed(error, read.rest)
    case Ok(chunk) => TurnWith(loop, limits, chunk, read.rest)
  }

  datatype Outcome = Outcome(result: Result<seq<Path>, ReadError>, rest: seq<byte>)

  function ReadFrom(codec: Codec, kind: PathListKind, limits: Option<Limits>, loop: Loop): Outcome
    decreases |loop.rest|
  {
    match TurnOf(codec, kind, limits, loop)
    case Failed(error, rest) => Outcome(Err(error), rest)
    case Finished(next) => Outcome(Ok(next.paths), next.rest)
    case Continued(next) => ReadFrom(codec, kind, limits, next)
  }

  function ReadPaths(codec: Codec, kind: PathListKind, limits: Option<Limits>, bytes: seq<byte>): Outcome {
    ReadFrom(codec, kind, limits, Loop([], 0, 0, bytes))
  }

  class ReadState {
    var chunks: nat
    var pathBytes: nat

    constructor ()
      ensures chunks == 0 && pathBytes == 0
    {
      chunks, pathBytes := 0, 0;
    }

    /** On success the counters include the chunk; after an error the reader gives up and they no longer matter. */
    method CheckLimits(paths: seq<Path>, chunk: seq<Path>, limits: Limits) returns (broken: Option<ReadError>)
      modifies this
      ensures match Counted(paths, old(chunks), old(pathBytes), chunk, limits)
              case Err(error) => broken == Some(error)
              case Ok((c, b)) => broken == None && chunks == c && pathBytes == b
    {
      chunks := chunks + 1;
      if chunks > limits.chunks {
        return Some(TooManyChunks);
      }
      if SaturatingAdd(|paths|, |chunk|) > limits.paths {
        return Some(TooManyPaths);
      }
      if pathBytes + Bytes(chunk) > USIZE_MAX {
        return Some(CountOverflow);
      }
      pathBytes := pathBytes + Bytes(chunk);
      if pathBytes > limits.bytes {
        return Some(TooManyBytes);
      }
      broken := None;
    }
  }

  method ReadChunk(stream: ByteStream, codec: Codec, kind: PathListKind) returns (chunk: Result<Chunk, ReadError>)
    modifies stream
    ensures var read := ReadOne(codec, old(stream.bytes));
            chunk == ChunkIn(kind, read.result) && stream.bytes == read.rest
  {
    var message := stream.ReadJson(codec);
    if message.Err? {
      chunk := Err(OnWire(message.error));
    } else if message.value.PathList? && message.value.kind == kind {
      chunk := Ok(Chunk(message.value.paths, message.value.done));
    } else if message.value.Error? {
      chunk := Err(PeerError(message.value.message));
    } else {
      chunk := Err(Unexpected);
    }
  }

  method ReadLoop(stream: ByteStream, codec: Codec, kind: PathListKind, limits: Option<Limits>)
    returns (result: Result<seq<Path>, ReadError>)
    modifies stream
    ensures Outcome(result, stream.bytes) == ReadPaths(codec, kind, limits, old(stream.bytes))
  {
    var paths: seq<Path> := [];
    var state := new ReadState();
    while true
      invariant ReadFrom(codec, kind, limits, Loop(paths, state.chunks, state.pathBytes, stream.bytes))
                == ReadPaths(codec, kind, limits, old(stream.bytes))
      decreases |stream.bytes|
    {
      ghost var loop := Loop(paths, state.chunks, state.pathBytes, stream.bytes);
      var chunk := ReadChunk(stream, codec, kind);
      if chunk.Err? {
        return Err(chunk.error);
      }
      if limits.Some? {
        var broken := state.CheckLimits(paths, chunk.value.paths, limits.value);
        if broken.Some? {
          return Err(broken.value);
        }
      }
      paths := paths + chunk.value.paths;
      assert TurnOf(codec, kind, limits, loop) == TurnWith(loop, limits, chunk.value, stream.bytes);
      if chunk.value.done {
        return Ok(paths);
      }
    }
  }

  // ---------------------------------------------------------------- round trip

  predicate Within(limits: Limits, chunks: nat, paths: nat, bytes: nat) {
    chunks <= limits.chunks && paths <= limits.paths && bytes <= limits.bytes
  }

  /** Limits that the counters can express. */
  predicate Sane(limits: Limits) {
    limits.paths < USIZE_MAX && limits.bytes <= USIZE_MAX
  }

  lemma {:induction false} ChunkCountIs(kind: PathListKind, paths: seq<Path>)
    ensures |ChunksOf(kind, paths)| == ChunkCount(paths)
    decreases |paths|
  {
    if !IsLastChunk(paths) {
      ChunkCountIs(kind, paths[PATH_CHUNK_SIZE..]);
    }
  }

  /** The first turn on a written list reads its first chunk and leaves the others. */
  lemma FirstTurn(codec: Codec, kind: PathListKind, limits: Option<Limits>, loop: Loop, paths: seq<Path>,
                  rest: seq<byte>)
    requires Faithful(codec) && AllFit(codec, ChunksOf(kind, paths))
    requires loop.rest == FramesOf(codec, ChunksOf(kind, paths)) + rest
    ensures var others := if IsLastChunk(paths) then rest
                  else FramesOf(codec, ChunksOf(kind, paths[PATH_CHUNK_SIZE..])) + rest;
            TurnOf(codec, kind, limits, loop) ==
              TurnWith(loop, limits, Chunk(HeadChunk(paths), IsLastChunk(paths)), others)
  {
    var messages := ChunksOf(kind, paths);
    var others := if IsLastChunk(paths) then rest else FramesOf(codec, ChunksOf(kind, paths[PATH_CHUNK_SIZE..])) + rest;
    assert Fits(codec, messages[0]);
    assert FramesOf(codec, messages) == Frame(codec.encode(messages[0])) + FramesOf(codec, messages[1..]);
    if IsLastChunk(paths) {
      assert FramesOf(codec, messages[1..]) == [];
    } else {
      assert messages[1..] == ChunksOf(kind, paths[PATH_CHUNK_SIZE..]);
    }
    assert loop.rest == Frame(codec.encode(messages[0])) + others;
    FrameRoundTrip(codec, messages[0], others);
  }

  /** What the reader makes of the next message, wherever it is in the list. */
  lemma NextMessageIsJudged(codec: Codec, kind: PathListKind, limits: Option<Limits>, loop: Loop, m: Message,
                            rest: seq<byte>)
    requires Faithful(codec) && Fits(codec, m) && loop.rest == Frame(codec.encode(m)) + rest
    ensures m.Error? ==> ReadFrom(codec, kind, limits, loop) == Outcome(Err(PeerError(m.message)), rest)
    ensures !m.Error? && !(m.PathList? && m.kind == kind) ==>
              ReadFrom(codec, kind, limits, loop) == Outcome(Err(Unexpected), rest)
    ensures m.PathList? && m.kind == kind && limits == None ==>
              ReadFrom(codec, kind, limits, loop) ==
              if m.done then Outcome(Ok(loop.paths + m.paths), rest)
              else ReadFrom(codec, kind, limits, Loop(loop.paths + m.paths, loop.chunks, loop.pathBytes, rest))
  {
    FrameRoundTrip(codec, m, rest);
  }

  /** The limit that a chunk breaks first, if any: chunks, then paths, then bytes. */
  function BrokenFirst(loop: Loop, limits: Limits, chunk: seq<Path>): Option<ReadError> {
    var bytes := loop.pathBytes + Bytes(chunk);
    if loop.chunks + 1 > limits.chunks then Some(TooManyChunks)
    else if |loop.paths| + |chunk| > limits.paths then Some(TooManyPaths)
    else if bytes > 0xFFFF_FFFF_FFFF_FFFF then Some(CountOverflow)
    else if bytes > limits.bytes then Some(TooManyBytes)
    else None
  }

  lemma CountedTells(loop: Loop, limits: Limits, chunk: seq<Path>)
    requires limits.paths < 0xFFFF_FFFF_FFFF_FFFF
    ensures Counted(loop.paths, loop.chunks, loop.pathBytes, chunk, limits) ==
            match BrokenFirst(loop, limits, chunk)
            case Some(error) => Err(error)
            case None => Ok((loop.chunks + 1, loop.pathBytes + Bytes(chunk)))
  {
  }

  lemma TurnAtFrame(codec: Codec, kind: PathListKind, limits: Option<Limits>, loop: Loop, chunk: seq<Path>, done: bool,
                    rest: seq<byte>)
    requires Faithful(codec) && Fits(codec, PathList(kind, chunk, done))
    requires loop.rest == Frame(codec.encode(PathList(kind, chunk, done))) + rest
    ensures TurnOf(codec, kind, limits, loop) == TurnWith(loop, limits, Chunk(chunk, done), rest)
  {
    FrameRoundTrip(codec, PathList(kind, chunk, done), rest);
  }

  /** The first limit that a chunk breaks is the one that is reported; the order is chunks, paths, bytes. */
  lemma FirstBrokenLimitIsTold(codec: Codec, kind: PathListKind, limits: Limits, loop: Loop, chunk: seq<Path>,
                               done: bool, rest: seq<byte>)
    requires Faithful(codec) && Fits(codec, PathList(kind, chunk, done))
    requires loop.rest == Frame(codec.encode(PathList(kind, chunk, done))) + rest
    requires limits.paths < 0xFFFF_FFFF_FFFF_FFFF
    ensures var next := Loop(loop.paths + chunk, loop.chunks + 1, loop.pathBytes + Bytes(chunk), rest);
            ReadFrom(codec, kind, Some(limits), loop) ==
            match BrokenFirst(loop, limits, chunk)
            case Some(error) => Outcome(Err(error), rest)
            case None => if done then Outcome(Ok(next.paths), rest) else ReadFrom(codec, kind, Some(limits), next)
  {
    TurnAtFrame(codec, kind, Some(limits), loop, chunk, done, rest);
    TurnTells(loop, limits, chunk, done, rest);
    ReadFollowsTurn(codec, kind, Some(limits), loop);
  }

  lemma TurnTells(loop: Loop, limits: Limits, chunk: seq<Path>, done: bool, rest: seq<byte>)
    requires limits.paths < 0xFFFF_FFFF_FFFF_FFFF
    ensures var next := Loop(loop.paths + chunk, loop.chunks + 1, loop.pathBytes + Bytes(chunk), rest);
            TurnWith(loop, Some(limits), Chunk(chunk, done), rest) ==
            match BrokenFirst(loop, limits, chunk)
            case Some(error) => Failed(error, rest)
            case None => if done then Finished(next) else Continued(next)
  {
    CountedTells(loop, limits, chunk);
  }

  lemma ReadFollowsTurn(codec: Codec, kind: PathListKind, limits: Option<Limits>, loop: Loop)
    ensures ReadFrom(codec, kind, limits, loop) ==
            match TurnOf(codec, kind, limits, loop)
            case Failed(error, rest) => Outcome(Err(error), rest)
            case Finished(next) => Outcome(Ok(next.paths), next.rest)
            case Continued(next) => ReadFrom(codec, kind, limits, next)
  {
  }

  lemma OthersFit(codec: Codec, kind: PathListKind, paths: seq<Path>)
    requires AllFit(codec, ChunksOf(kind, paths)) && !IsLastChunk(paths)
    ensures AllFit(codec, ChunksOf(kind, paths[PATH_CHUNK_SIZE..]))
  {
    var messages := ChunksOf(kind, paths);
    assert messages[1..] == ChunksOf(kind, paths[PATH_CHUNK_SIZE..]);
    assert forall i :: 0 <= i < |messages| - 1 ==> messages[1..][i] == messages[i + 1];
  }

  lemma HeadAndTail(paths: seq<Path>)
    requires !IsLastChunk(paths)
    ensures paths == HeadChunk(paths) + paths[PATH_CHUNK_SIZE..]
    ensures Bytes(paths) == Bytes(HeadChunk(paths)) + Bytes(paths[PATH_CHUNK_SIZE..])
    ensures ChunkCount(paths) == 1 + ChunkCount(paths[PATH_CHUNK_SIZE..])
  {
    assert paths == HeadChunk(paths) + paths[PATH_CHUNK_SIZE..];
    BytesAppend(HeadChunk(paths), paths[PATH_CHUNK_SIZE..]);
  }

  predicate IsLimitError(error: ReadError) {
    error.TooManyChunks? || error.TooManyPaths? || error.CountOverflow? || error.TooManyBytes?
  }

  /** A turn goes on exactly if the loop is within the limits after it. */
  predicate Allowed(limits: Option<Limits>, chunks: nat, paths: nat, bytes: nat) {
    limits.None? || Within(limits.value, chunks, paths, bytes)
  }

  function Extended(limits: Option<Limits>, loop: Loop, chunk: seq<Path>, rest: seq<byte>): Loop {
    Loop(loop.paths + chunk,
         if limits.Some? then loop.chunks + 1 else loop.chunks,
         if limits.Some? then loop.pathBytes + Bytes(chunk) else loop.pathBytes, rest)
  }

  lemma TurnDecides(limits: Option<Limits>, loop: Loop, chunk: Chunk, rest: seq<byte>)
    requires limits.Some? ==> Sane(limits.value)
    ensures var turn := TurnWith(loop, limits, chunk, rest);
            var next := Extended(limits, loop, chunk.paths, rest);
            if Allowed(limits, loop.chunks + 1, |loop.paths| + |chunk.paths|, loop.pathBytes + Bytes(chunk.paths))
            then turn == if chunk.done then Finished(next) else Continued(next)
            else turn.Failed? && IsLimitError(turn.error)
  {
  }

  /** What reading the rest of a written list comes to. */
  ghost predicate ReadsAsAllowed(limits: Option<Limits>, loop: Loop, paths: seq<Path>, rest: seq<byte>,
                                 outcome: Outcome) {
    if Allowed(limits, loop.chunks + ChunkCount(paths), |loop.paths| + |paths|, loop.pathBytes + Bytes(paths))
    then outcome == Outcome(Ok(loop.paths + paths), rest)
    else outcome.result.Err? && IsLimitError(outcome.result.error)
  }

  lemma MoreIsAllowed(limits: Option<Limits>, loop: Loop, paths: seq<Path>, others: seq<byte>, rest: seq<byte>,
                      outcome: Outcome)
    requires !IsLastChunk(paths)
    requires ReadsAsAllowed(limits, Extended(limits, loop, HeadChunk(paths), others), paths[PATH_CHUNK_SIZE..],
                            rest, outcome)
    ensures ReadsAsAllowed(limits, loop, paths, rest, outcome)
  {
    HeadAndTail(paths);
    assert loop.paths + HeadChunk(paths) + paths[PATH_CHUNK_SIZE..] == loop.paths + paths;
  }

  lemma RefusedForGood(limits: Option<Limits>, loop: Loop, paths: seq<Path>, rest: seq<byte>, error: ReadError,
                       rest': seq<byte>)
    requires IsLimitError(error)
    requires !Allowed(limits, loop.chunks + 1, |loop.paths| + |HeadChunk(paths)|,
                      loop.pathBytes + Bytes(HeadChunk(paths)))
    ensures ReadsAsAllowed(limits, loop, paths, rest, Outcome(Err(error), rest'))
  {
    if !IsLastChunk(paths) {
      HeadAndTail(paths);
    }
  }

  predicate HeadAllowed(limits: Option<Limits>, loop: Loop, paths: seq<Path>) {
    Allowed(limits, loop.chunks + 1, |loop.paths| + |HeadChunk(paths)|, loop.pathBytes + Bytes(HeadChunk(paths)))
  }

  lemma ListTurn(codec: Codec, kind: PathListKind, limits: Option<Limits>, loop: Loop,
                 paths: seq<Path>, others: seq<byte>, rest: seq<byte>)
    requires Faithful(codec) && AllFit(codec, ChunksOf(kind, paths)) && (limits.Some? ==> Sane(limits.value))
    requires loop.rest == FramesOf(codec, ChunksOf(kind, paths)) + rest
    requires others == if IsLastChunk(paths) then rest
                       else FramesOf(codec, ChunksOf(kind, paths[PATH_CHUNK_SIZE..])) + rest
    ensures var turn := TurnOf(codec, kind, limits, loop);
            var next := Extended(limits, loop, HeadChunk(paths), others);
            if HeadAllowed(limits, loop, paths) then turn ==
              if IsLastChunk(paths) then Finished(next) else Continued(next)
            else turn.Failed? && IsLimitError(turn.error)
  {
    FirstTurn(codec, kind, limits, loop, paths, rest);
    TurnDecides(limits, loop, Chunk(HeadChunk(paths), IsLastChunk(paths)), others);
  }

  lemma ReadsLast(limits: Option<Limits>, loop: Loop, paths: seq<Path>, rest: seq<byte>)
    requires IsLastChunk(paths) && HeadAllowed(limits, loop, paths)
    ensures var next := Extended(limits, loop, HeadChunk(paths), rest);
            ReadsAsAllowed(limits, loop, paths, rest, Outcome(Ok(next.paths), next.rest))
  {
  }

  lemma {:induction false} ReadsOn(codec: Codec, kind: PathListKind, limits: Option<Limits>, loop: Loop,
                                   paths: seq<Path>, rest: seq<byte>)
    requires Faithful(codec) && AllFit(codec, ChunksOf(kind, paths)) && (limits.Some? ==> Sane(limits.value))
    requires loop.rest == FramesOf(codec, ChunksOf(kind, paths)) + rest
    ensures ReadsAsAllowed(limits, loop, paths, rest, ReadFrom(codec, kind, limits, loop))
    decreases |paths|, 1
  {
    if IsLastChunk(paths) {
      ListTurn(codec, kind, limits, loop, paths, rest, rest);
      if HeadAllowed(limits, loop, paths) { ReadsLast(limits, loop, paths, rest); }
    } else {
      ReadsOnward(codec, kind, limits, loop, paths, rest);
    }
    if !HeadAllowed(limits, loop, paths) {
      var turn := TurnOf(codec, kind, limits, loop);
      RefusedForGood(limits, loop, paths, rest, turn.error, turn.rest);
    }
  }

  lemma {:induction false} ReadsOnward(codec: Codec, kind: PathListKind, limits: Option<Limits>, loop: Loop,
                                       paths: seq<Path>, rest: seq<byte>)
    requires Faithful(codec) && AllFit(codec, ChunksOf(kind, paths)) && (limits.Some? ==> Sane(limits.value))
    requires loop.rest == FramesOf(codec, ChunksOf(kind, paths)) + rest && !IsLastChunk(paths)
    ensures HeadAllowed(limits, loop, paths) ==>
              ReadsAsAllowed(limits, loop, paths, rest, ReadFrom(codec, kind, limits, loop))
    ensures !HeadAllowed(limits, loop, paths) ==>
              TurnOf(codec, kind, limits, loop).Failed? && IsLimitError(TurnOf(codec, kind, limits, loop).error)
    decreases |paths|, 0
  {
    var others := FramesOf(codec, ChunksOf(kind, paths[PATH_CHUNK_SIZE..])) + rest;
    ListTurn(codec, kind, limits, loop, paths, others, rest);
    if HeadAllowed(limits, loop, paths) {
      var next := Extended(limits, loop, HeadChunk(paths), others);
      OthersFit(codec, kind, paths);
      ReadsOn(codec, kind, limits, next, paths[PATH_CHUNK_SIZE..], rest);
      MoreIsAllowed(limits, loop, paths, others, rest, ReadFrom(codec, kind, limits, next));
    }
  }

  /**
    A list written in chunks and framed reads back as the same list, with exactly its own bytes consumed, if and only
    if its chunks, its paths and its bytes are within the reader's limits; otherwise a limit is reported.
   */
  lemma ReadsBackIff(codec: Codec, kind: PathListKind, limits: Limits, paths: seq<Path>, rest: seq<byte>)
    requires Faithful(codec) && AllFit(codec, ChunksOf(kind, paths)) && Sane(limits)
    ensures var outcome := ReadPaths(codec, kind, Some(limits), FramesOf(codec, ChunksOf(kind, paths)) + rest);
            && (outcome == Outcome(Ok(paths), rest) <==> Within(limits, |ChunksOf(kind, paths)|, |paths|, Bytes(paths)))
            && (outcome != Outcome(Ok(paths), rest) ==> outcome.result.Err?)
  {
    var bytes := FramesOf(codec, ChunksOf(kind, paths)) + rest;
    ChunkCountIs(kind, paths);
    ReadsOn(codec, kind, Some(limits), Loop([], 0, 0, bytes), paths, rest);
    assert [] + paths == paths;
  }

  /** Without limits every list reads back. */
  lemma ReadsBackUnlimited(codec: Codec, kind: PathListKind, paths: seq<Path>, rest: seq<byte>)
    requires Faithful(codec) && AllFit(codec, ChunksOf(kind, paths))
    ensures ReadPaths(codec, kind, None, FramesOf(codec, ChunksOf(kind, paths)) + rest) == Outcome(Ok(paths), rest)
  {
    var bytes := FramesOf(codec, ChunksOf(kind, paths)) + rest;
    ReadsOn(codec, kind, None, Loop([], 0, 0, bytes), paths, rest);
    assert [] + paths == paths;
  }

  lemma {:induction false} ChunkCountBound(paths: seq<Path>)
    ensures (ChunkCount(paths) - 1) * PATH_CHUNK_SIZE <= |paths|
    decreases |paths|
  {
    if !IsLastChunk(paths) {
      ChunkCountBound(paths[PATH_CHUNK_SIZE..]);
    }
  }

  /** Under the program's own limits the chunk limit rejects no list that the other two accept. */
  lemma ChunkLimitNeverBinds(codec: Codec, kind: PathListKind, paths: seq<Path>, rest: seq<byte>)
    requires Faithful(codec) && AllFit(codec, ChunksOf(kind, paths))
    ensures ReadPaths(codec, kind, Some(PATH_LIST_LIMITS), FramesOf(codec, ChunksOf(kind, paths)) + rest)
            == Outcome(Ok(paths), rest)
            <==> |paths| <= 100_000 && Bytes(paths) <= 16 * 1024 * 1024
  {
    ReadsBackIff(codec, kind, PATH_LIST_LIMITS, paths, rest);
    ChunkCountIs(kind, paths);
    ChunkCountBound(paths);
  }

  // ---------------------------------------------------------------- any peer

  ghost predicate LoopWithin(limits: Limits, loop: Loop) {
    Within(limits, loop.chunks, |loop.paths|, loop.pathBytes) && loop.pathBytes == Bytes(loop.paths)
  }

  /** The loop is within the limits before each of its turns and when it ends. */
  ghost predicate AlwaysWithin(codec: Codec, kind: PathListKind, limits: Limits, loop: Loop)
    decreases |loop.rest|
  {
    LoopWithin(limits, loop) &&
    match TurnOf(codec, kind, Some(limits), loop)
    case Failed(_, _) => true
    case Finished(next) => LoopWithin(limits, next)
    case Continued(next) => AlwaysWithin(codec, kind, limits, next)
  }

  /** How many messages the reader takes off the stream. */
  function Consumed(codec: Codec, kind: PathListKind, limits: Limits, loop: Loop): nat
    decreases |loop.rest|
  {
    match TurnOf(codec, kind, Some(limits), loop)
    case Failed(_, _) => 1
    case Finished(_) => 1
    case Continued(next) => 1 + Consumed(codec, kind, limits, next)
  }

  /** A decoded path list is no longer than its encoding: no escape of JSON is shorter than what it stands for. */
  ghost predicate Compact(codec: Codec) {
    forall body: seq<byte> :: codec.decode(body).Some? && codec.decode(body).value.PathList? ==>
      Bytes(codec.decode(body).value.paths) <= |body|
  }

  lemma TurnStaysWithin(codec: Codec, kind: PathListKind, limits: Limits, loop: Loop)
    requires LoopWithin(limits, loop) && Sane(limits)
    ensures var turn := TurnOf(codec, kind, Some(limits), loop);
            !turn.Failed? ==> LoopWithin(limits, turn.loop) && turn.loop.chunks == loop.chunks + 1
  {
    var read := ReadOne(codec, loop.rest);
    var chunk := ChunkIn(kind, read.result);
    if chunk.Ok? {
      BytesAppend(loop.paths, chunk.value.paths);
    }
  }

  lemma {:induction false} StaysWithin(codec: Codec, kind: PathListKind, limits: Limits, loop: Loop)
    requires LoopWithin(limits, loop) && Sane(limits)
    ensures AlwaysWithin(codec, kind, limits, loop)
    ensures Consumed(codec, kind, limits, loop) <= limits.chunks - loop.chunks + 1
    decreases |loop.rest|
  {
    TurnStaysWithin(codec, kind, limits, loop);
    var turn := TurnOf(codec, kind, Some(limits), loop);
    if turn.Continued? {
      StaysWithin(codec, kind, limits, turn.loop);
    }
  }

  lemma TurnDoesNotOverflow(codec: Codec, kind: PathListKind, limits: Limits, loop: Loop)
    requires LoopWithin(limits, loop) && limits.bytes + MAX_MESSAGE_LEN <= USIZE_MAX && Compact(codec)
    ensures var turn := TurnOf(codec, kind, Some(limits), loop); turn.Failed? ==> turn.error != CountOverflow
  {
    var read := ReadOne(codec, loop.rest);
    if read.result.Ok? && read.result.value.PathList? {
      var body := loop.rest[4..][..FromBytes(loop.rest[..4])];
      assert codec.decode(body) == Some(read.result.value);
      assert Bytes(read.result.value.paths) <= MAX_MESSAGE_LEN;
    }
  }

  lemma {:induction false} NeverOverflows(codec: Codec, kind: PathListKind, limits: Limits, loop: Loop)
    requires LoopWithin(limits, loop) && Sane(limits) && limits.bytes + MAX_MESSAGE_LEN <= USIZE_MAX && Compact(codec)
    ensures ReadFrom(codec, kind, Some(limits), loop).result != Err(CountOverflow)
    decreases |loop.rest|
  {
    TurnStaysWithin(codec, kind, limits, loop);
    TurnDoesNotOverflow(codec, kind, limits, loop);
    var turn := TurnOf(codec, kind, Some(limits), loop);
    if turn.Continued? {
      NeverOverflows(codec, kind, limits, turn.loop);
    }
  }

  /**
    Whatever bytes a peer sends, and even if it never says that the list is done: the reader takes at most one message
    more than the chunk limit, what it has kept is within the limits at every turn, and its byte counter does not
    overflow.
   */
  lemma AnyPeerIsBounded(codec: Codec, kind: PathListKind, bytes: seq<byte>)
    requires Compact(codec)
    ensures var start := Loop([], 0, 0, bytes);
            && Consumed(codec, kind, PATH_LIST_LIMITS, start) <= PATH_LIST_LIMITS.chunks + 1
            && AlwaysWithin(codec, kind, PATH_LIST_LIMITS, start)
            && ReadPaths(codec, kind, Some(PATH_LIST_LIMITS), bytes).result != Err(CountOverflow)
  {
    StaysWithin(codec, kind, PATH_LIST_LIMITS, Loop([], 0, 0, bytes));
    NeverOverflows(codec, kind, PATH_LIST_LIMITS, Loop([], 0, 0, bytes));
  }

  /**
    The bound on messages is exact: a peer that keeps sending empty chunks is cut off at the first beyond the limit.
   */
  lemma {:induction false} EmptyChunksAreCutOff(codec: Codec, kind: PathListKind, limits: Limits, loop: Loop,
                                                messages: seq<Message>)
    requires Faithful(codec) && Sane(limits) && LoopWithin(limits, loop) && AllFit(codec, messages)
    requires forall i :: 0 <= i < |messages| ==> messages[i] == PathList(kind, [], false)
    requires |messages| == limits.chunks + 1 - loop.chunks && loop.rest == FramesOf(codec, messages)
    ensures ReadFrom(codec, kind, Some(limits), loop).result == Err(TooManyChunks)
    ensures Consumed(codec, kind, limits, loop) == limits.chunks + 1 - loop.chunks
    decreases |messages|
  {
    assert Fits(codec, messages[0]);
    assert FramesOf(codec, messages) == Frame(codec.encode(messages[0])) + FramesOf(codec, messages[1..]);
    FrameRoundTrip(codec, messages[0], FramesOf(codec, messages[1..]));
    if loop.chunks < limits.chunks {
      var next := TurnOf(codec, kind, Some(limits), loop).loop;
      assert next.paths == loop.paths;
      assert AllFit(codec, messages[1..]) by {
        assert forall i :: 0 <= i < |messages| - 1 ==> messages[1..][i] == messages[i + 1];
      }
      EmptyChunksAreCutOff(codec, kind, limits, next, messages[1..]);
    }
  }
}
