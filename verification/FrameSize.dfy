/**
  How large the messages that carry store paths become on the wire (protocol/messages.rs, protocol/path_chunks.rs,
  protocol/wire.rs).
 */
module FrameSize {
  import opened Protocol
  import opened Wire
  import opened PathChunks
  import opened CachePath
  import opened JsonText

  // ---------------------------------------------------------------- what the codec writes

  ghost predicate WritesChunk(codec: Codec, kind: PathListKind, paths: seq<Path>, done: bool) {
    |codec.encode(PathList(kind, paths, done))| == PathLen(ChunkJson(kind, paths, done))
  }

  ghost predicate WritesReply(codec: Codec, paths: seq<Path>) {
    |codec.encode(OutputCacheReady(paths))| == PathLen(CacheReadyJson(paths))
  }

  /** The codec writes the JSON text of these messages in UTF-8. */
  ghost predicate WritesJson(codec: Codec) {
    && (forall kind, paths, done :: WritesChunk(codec, kind, paths, done))
    && (forall paths :: WritesReply(codec, paths))
  }

  // ---------------------------------------------------------------- no character needs escaping

  predicate IsPlain(c: char) {
    0x20 <= c as int < 0x80 && c != '"' && c != '\\'
  }

  predicate AllPlain(s: string) {
    forall i :: 0 <= i < |s| ==> IsPlain(s[i])
  }

  lemma {:induction false} PlainStaysPlain(s: string)
    requires AllPlain(s)
    ensures EscapedAll(s) == s
  {
    if s != "" {
      PlainStaysPlain(s[1..]);
    }
  }

  predicate IsAscii(s: string) {
    forall i :: 0 <= i < |s| ==> s[i] as int < 0x80
  }

  lemma {:induction false} AsciiLen(s: string)
    requires IsAscii(s)
    ensures PathLen(s) == |s|
  {
    if s != "" {
      AsciiLen(s[1..]);
    }
  }

  lemma HashIsPlain(hash: string)
    requires ValidStem(hash)
    ensures AllPlain(hash)
  {
    StemChars(hash);
  }

  lemma NameIsPlain(name: string)
    requires ValidName(name)
    ensures AllPlain(name)
  {
    forall i | 0 <= i < |name|
      ensures IsPlain(name[i])
    {
      assert IsNameChar(name[i]);
    }
  }

  lemma PlainConcat(a: string, b: string)
    requires AllPlain(a) && AllPlain(b)
    ensures AllPlain(a + b)
  {
  }

  lemma StorePathIsPlain(path: Path)
    requires ValidStorePath(path)
    ensures AllPlain(path)
  {
    StorePathParts(path);
    var hash, name :| ValidStem(hash) && ValidName(name) && path == STORE_PREFIX + hash + "-" + name;
    HashIsPlain(hash);
    NameIsPlain(name);
    PlainConcat(STORE_PREFIX, hash);
    PlainConcat(STORE_PREFIX + hash, "-");
    PlainConcat(STORE_PREFIX + hash + "-", name);
  }

  ghost predicate PlainPaths(paths: seq<Path>) {
    forall i :: 0 <= i < |paths| ==> AllPlain(paths[i])
  }

  lemma StorePathsArePlain(paths: seq<Path>)
    requires AllValid(paths)
    ensures PlainPaths(paths)
  {
    forall i | 0 <= i < |paths|
      ensures AllPlain(paths[i])
    {
      StorePathIsPlain(paths[i]);
    }
  }

  lemma QuotedPlain(path: Path)
    requires AllPlain(path)
    ensures IsAscii(Quoted(path)) && |Quoted(path)| == PathLen(path) + 2
  {
    PlainStaysPlain(path);
    AsciiLen(path);
  }

  lemma AsciiConcat(a: string, b: string)
    requires IsAscii(a) && IsAscii(b)
    ensures IsAscii(a + b)
  {
  }

  /** The exact length of a list of paths that need no escaping: two quotes each and a comma between any two. */
  lemma {:induction false} QuotedAllLen(paths: seq<Path>)
    requires PlainPaths(paths)
    ensures IsAscii(QuotedAll(paths))
    ensures |QuotedAll(paths)| + (if paths == [] then 0 else 1) == Bytes(paths) + 3 * |paths|
    decreases |paths|
  {
    if paths != [] {
      QuotedPlain(paths[0]);
      QuotedAllLen(paths[1..]);
      if |paths| > 1 {
        AsciiConcat(Quoted(paths[0]), ",");
        AsciiConcat(Quoted(paths[0]) + ",", QuotedAll(paths[1..]));
      }
    }
  }

  function Commas(paths: seq<Path>): nat {
    if paths == [] then 0 else |paths| - 1
  }

  lemma TaggedLen(head: string, paths: seq<Path>, tail: string)
    requires IsAscii(head) && IsAscii(tail) && PlainPaths(paths)
    ensures PathLen(Tagged(head, paths, tail)) == |head| + Bytes(paths) + 2 * |paths| + Commas(paths) + |tail|
  {
    QuotedAllLen(paths);
    AsciiConcat(head, QuotedAll(paths));
    AsciiConcat(head + QuotedAll(paths), tail);
    AsciiLen(Tagged(head, paths, tail));
  }

  lemma TagIsAscii(kind: PathListKind)
    ensures IsAscii(Tag(kind)) && |Tag(kind)| <= 14
  {
  }

  lemma ChunkHeadLen(kind: PathListKind)
    ensures IsAscii(ChunkHead(kind)) && |ChunkHead(kind)| == 20 + |Tag(kind)|
  {
    TagIsAscii(kind);
    AsciiConcat("{\"type\":\"", Tag(kind));
    AsciiConcat("{\"type\":\"" + Tag(kind), "\",\"paths\":[");
  }

  lemma ChunkTailLen(done: bool)
    ensures IsAscii(ChunkTail(done)) && |ChunkTail(done)| == if done then 14 else 15
  {
  }

  /** The exact length of a chunk of paths that need no escaping. */
  lemma ChunkJsonLen(kind: PathListKind, paths: seq<Path>, done: bool)
    requires PlainPaths(paths)
    ensures PathLen(ChunkJson(kind, paths, done))
            == |Tag(kind)| + (if done then 34 else 35) + Bytes(paths) + 2 * |paths| + Commas(paths)
  {
    ChunkHeadLen(kind);
    ChunkTailLen(done);
    TaggedLen(ChunkHead(kind), paths, ChunkTail(done));
  }

  lemma CacheReadyEnds()
    ensures IsAscii(CACHE_READY_HEAD) && |CACHE_READY_HEAD| == 43
    ensures IsAscii(CACHE_READY_TAIL) && |CACHE_READY_TAIL| == 2
  {
  }

  lemma CacheReadyLen(paths: seq<Path>)
    requires PlainPaths(paths)
    ensures PathLen(CacheReadyJson(paths)) == 45 + Bytes(paths) + 2 * |paths| + Commas(paths)
  {
    CacheReadyEnds();
    TaggedLen(CACHE_READY_HEAD, paths, CACHE_READY_TAIL);
  }

  // ---------------------------------------------------------------- chunks fit

  /** The longest store path of which any 512 fit into one frame. */
  const MAX_FITTING_PATH: nat := 2044

  predicate NoneLonger(paths: seq<Path>, len: nat) {
    forall i :: 0 <= i < |paths| ==> |paths[i]| <= len
  }

  lemma {:induction false} BytesBound(paths: seq<Path>, len: nat)
    requires PlainPaths(paths) && NoneLonger(paths, len)
    ensures Bytes(paths) <= len * |paths|
    decreases |paths|
  {
    if paths != [] {
      AsciiLen(paths[0]);
      BytesBound(paths[1..], len);
      assert len * |paths| == len + len * |paths[1..]|;
    }
  }

  lemma BlockFits(codec: Codec, kind: PathListKind, paths: seq<Path>, done: bool)
    requires WritesJson(codec) && PlainPaths(paths) && NoneLonger(paths, MAX_FITTING_PATH) && |paths| <= PATH_CHUNK_SIZE
    ensures Fits(codec, PathList(kind, paths, done))
  {
    ChunkJsonLen(kind, paths, done);
    BytesBound(paths, MAX_FITTING_PATH);
    assert WritesChunk(codec, kind, paths, done);
  }

  lemma {:induction false} BlocksFit(codec: Codec, kind: PathListKind, paths: seq<Path>)
    requires WritesJson(codec) && PlainPaths(paths) && NoneLonger(paths, MAX_FITTING_PATH)
    ensures AllFit(codec, ChunksOf(kind, paths))
    decreases |paths|
  {
    if IsLastChunk(paths) {
      BlockFits(codec, kind, paths, true);
    } else {
      BlockFits(codec, kind, HeadChunk(paths), false);
      BlocksFit(codec, kind, paths[PATH_CHUNK_SIZE..]);
    }
  }

  /**
    A list of store paths of at most 2,044 bytes each is written with every frame within the wire limit, and so it is
    read back exactly if it has at most 100,000 paths and 16 MiB.
   */
  lemma StorePathListsRoundTrip(codec: Codec, kind: PathListKind, paths: seq<Path>, rest: seq<byte>)
    requires Faithful(codec) && WritesJson(codec) && AllValid(paths) && NoneLonger(paths, MAX_FITTING_PATH)
    ensures AllFit(codec, ChunksOf(kind, paths))
    ensures ReadPaths(codec, kind, Some(PATH_LIST_LIMITS), FramesOf(codec, ChunksOf(kind, paths)) + rest)
            == Outcome(Ok(paths), rest)
            <==> |paths| <= 100_000 && Bytes(paths) <= 16 * 1024 * 1024
  {
    StorePathsArePlain(paths);
    BlocksFit(codec, kind, paths);
    ChunkLimitNeverBinds(codec, kind, paths, rest);
  }

  function Repeat(c: char, n: nat): (s: string)
    ensures |s| == n && forall i :: 0 <= i < n ==> s[i] == c
  {
    seq(n, _ => c)
  }

  const ZERO_HASH: string := "00000000000000000000000000000000"

  /** A store path of a given length. */
  function PathOfLength(n: nat): (path: Path)
    requires n >= 45
    ensures |path| == n
  {
    STORE_PREFIX + ZERO_HASH + "-" + Repeat('a', n - 44)
  }

  lemma PathOfLengthIsValid(n: nat)
    requires n >= 45
    ensures ValidStorePath(PathOfLength(n))
  {
    StorePathOf(ZERO_HASH, Repeat('a', n - 44));
  }

  lemma {:induction false} BytesOfEqual(paths: seq<Path>, len: nat)
    requires PlainPaths(paths) && forall i :: 0 <= i < |paths| ==> |paths[i]| == len
    ensures Bytes(paths) == len * |paths|
    decreases |paths|
  {
    if paths != [] {
      AsciiLen(paths[0]);
      BytesOfEqual(paths[1..], len);
      assert len * |paths| == len + len * |paths[1..]|;
    }
  }

  /** The bound is exact: 512 paths of one byte more are not written, whatever list they belong to. */
  lemma OneByteMoreDoesNotFit(codec: Codec, kind: PathListKind)
    requires WritesJson(codec)
    ensures var paths := seq(PATH_CHUNK_SIZE, _ => PathOfLength(MAX_FITTING_PATH + 1));
            AllValid(paths) && !AllFit(codec, ChunksOf(kind, paths))
  {
    var path := PathOfLength(MAX_FITTING_PATH + 1);
    var paths: seq<Path> := seq(PATH_CHUNK_SIZE, _ => path);
    PathOfLengthIsValid(MAX_FITTING_PATH + 1);
    StorePathsArePlain(paths);
    BytesOfEqual(paths, MAX_FITTING_PATH + 1);
    ChunkJsonLen(kind, paths, true);
    assert WritesChunk(codec, kind, paths, true);
    assert ChunksOf(kind, paths)[0] == PathList(kind, paths, true);
    assert !Fits(codec, ChunksOf(kind, paths)[0]);
  }

  // ---------------------------------------------------------------- the reply that is not chunked

  /** The list of paths to copy is sent in one message: it is written exactly if it comes to at most this much. */
  lemma CacheReadyFitsIff(codec: Codec, paths: seq<Path>)
    requires WritesJson(codec) && AllValid(paths)
    ensures Fits(codec, OutputCacheReady(paths)) <==> Bytes(paths) + 2 * |paths| + Commas(paths) <= 1_048_531
  {
    StorePathsArePlain(paths);
    CacheReadyLen(paths);
    assert WritesReply(codec, paths);
  }

  /** For n paths of one length the reply is written exactly if n times that length and three comes to at most this. */
  lemma EqualReplyFitsIff(codec: Codec, paths: seq<Path>, len: nat)
    requires WritesJson(codec) && AllValid(paths) && paths != [] && forall i :: 0 <= i < |paths| ==> |paths[i]| == len
    ensures Bytes(paths) == len * |paths|
    ensures Fits(codec, OutputCacheReady(paths)) <==> (len + 3) * |paths| <= 1_048_532
  {
    StorePathsArePlain(paths);
    BytesOfEqual(paths, len);
    CacheReadyFitsIff(codec, paths);
    assert (len + 3) * |paths| == len * |paths| + 3 * |paths|;
  }

  /** Five decimal digits, all of them in the alphabet of hashes. */
  function Digits(k: nat): (s: string)
    requires k < 100_000
    ensures |s| == 5 && AllBase32(s)
  {
    [NIX_BASE32[k / 10_000], NIX_BASE32[k / 1000 % 10], NIX_BASE32[k / 100 % 10],
     NIX_BASE32[k / 10 % 10], NIX_BASE32[k % 10]]
  }

  lemma DigitIs(a: nat, b: nat)
    requires a < 10 && b < 10 && NIX_BASE32[a] == NIX_BASE32[b]
    ensures a == b
  {
  }

  lemma DigitsTell(j: nat, k: nat)
    requires j < 100_000 && k < 100_000 && Digits(j) == Digits(k)
    ensures j == k
  {
    var s, t := Digits(j), Digits(k);
    assert s[0] == t[0] && s[1] == t[1] && s[2] == t[2] && s[3] == t[3] && s[4] == t[4];
    DigitIs(j / 10_000, k / 10_000);
    DigitIs(j / 1000 % 10, k / 1000 % 10);
    DigitIs(j / 100 % 10, k / 100 % 10);
    DigitIs(j / 10 % 10, k / 10 % 10);
    DigitIs(j % 10, k % 10);
    DigitsMakeUp(j);
    DigitsMakeUp(k);
  }

  lemma DigitsMakeUp(k: nat)
    ensures k == 10_000 * (k / 10_000) + 1000 * (k / 1000 % 10) + 100 * (k / 100 % 10) + 10 * (k / 10 % 10) + k % 10
  {
    assert k / 10 / 10 == k / 100 && k / 100 / 10 == k / 1000 && k / 1000 / 10 == k / 10_000;
  }

  /** The k-th of many store paths of 80 bytes: they differ in their hashes. */
  function CountedHash(k: nat): (hash: string)
    requires k < 100_000
    ensures ValidStem(hash) && hash[27..] == Digits(k)
  {
    Repeat('0', 27) + Digits(k)
  }

  const NAME_OF_36: string := "some-library-with-a-name-1.2.3-amd64"

  function CountedPath(k: nat): (path: Path)
    requires k < 100_000
    ensures |path| == 80
  {
    STORE_PREFIX + CountedHash(k) + "-" + NAME_OF_36
  }

  lemma NameOf36IsValid()
    ensures ValidName(NAME_OF_36)
  {
  }

  lemma CountedPathIs(k: nat)
    requires k < 100_000
    ensures ValidStorePath(CountedPath(k)) && Hash(CountedPath(k)) == CountedHash(k)
  {
    NameOf36IsValid();
    StorePathOf(CountedHash(k), NAME_OF_36);
  }

  function CountedPaths(n: nat): (paths: seq<Path>)
    requires n <= 100_000
    ensures |paths| == n && forall k :: 0 <= k < n ==> paths[k] == CountedPath(k)
  {
    seq(n, k requires 0 <= k < n => CountedPath(k))
  }

  lemma CountedPathsAre(n: nat)
    requires n <= 100_000
    ensures AllValid(CountedPaths(n)) && DistinctHashes(CountedPaths(n)) && NoneLonger(CountedPaths(n), 80)
  {
    var paths := CountedPaths(n);
    forall k | 0 <= k < n
      ensures ValidStorePath(paths[k]) && Hash(paths[k]) == CountedHash(k)
    {
      CountedPathIs(k);
    }
    forall j, k | 0 <= j < k < n
      ensures Hashes(paths)[j] != Hashes(paths)[k]
    {
      if Hashes(paths)[j] == Hashes(paths)[k] {
        assert CountedHash(j)[27..] == CountedHash(k)[27..];
        DigitsTell(j, k);
      }
    }
  }

  lemma CountedRequestIsAccepted(codec: Codec, n: nat, rest: seq<byte>)
    requires Faithful(codec) && WritesJson(codec) && n <= 100_000
    ensures ReadPaths(codec, OutputRequest, Some(PATH_LIST_LIMITS),
                      FramesOf(codec, ChunksOf(OutputRequest, CountedPaths(n))) + rest)
            == Outcome(Ok(CountedPaths(n)), rest)
  {
    var paths := CountedPaths(n);
    CountedPathsAre(n);
    CountedAre80(n);
    BytesOf80(paths);
    assert NoneLonger(paths, MAX_FITTING_PATH);
    StorePathListsRoundTrip(codec, OutputRequest, paths, rest);
  }

  lemma CountedAre80(n: nat)
    requires n <= 100_000
    ensures AllValid(CountedPaths(n)) && forall k :: 0 <= k < n ==> |CountedPaths(n)[k]| == 80
  {
    forall k | 0 <= k < n
      ensures ValidStorePath(CountedPaths(n)[k])
    {
      CountedPathIs(k);
    }
  }

  lemma BytesOf80(paths: seq<Path>)
    requires AllValid(paths) && forall k :: 0 <= k < |paths| ==> |paths[k]| == 80
    ensures Bytes(paths) == 80 * |paths|
  {
    StorePathsArePlain(paths);
    BytesOfEqual(paths, 80);
  }

  lemma ReplyOf80FitsIff(codec: Codec, paths: seq<Path>)
    requires WritesJson(codec) && AllValid(paths) && paths != [] && forall k :: 0 <= k < |paths| ==> |paths[k]| == 80
    ensures Fits(codec, OutputCacheReady(paths)) <==> |paths| <= 12_632
  {
    EqualReplyFitsIff(codec, paths, 80);
  }

  /**
    Requests that every chunk and every limit lets through and whose reply is not sent: of n store paths of 80 bytes, no
    two with the same hash, all are accepted and read back up to the limit of 100,000, and the reply is sent exactly if
    they are at most 12,632.  With more the server reports an error instead of the outputs.
   */
  lemma AcceptedRequestWithoutReply(codec: Codec, n: nat, rest: seq<byte>)
    requires Faithful(codec) && WritesJson(codec) && 0 < n <= 100_000
    ensures AllValid(CountedPaths(n)) && DistinctHashes(CountedPaths(n))
    ensures ReadPaths(codec, OutputRequest, Some(PATH_LIST_LIMITS),
                      FramesOf(codec, ChunksOf(OutputRequest, CountedPaths(n))) + rest)
            == Outcome(Ok(CountedPaths(n)), rest)
    ensures Fits(codec, OutputCacheReady(CountedPaths(n))) <==> n <= 12_632
  {
    CountedPathsAre(n);
    CountedRequestIsAccepted(codec, n, rest);
    CountedAre80(n);
    ReplyOf80FitsIff(codec, CountedPaths(n));
  }
}
