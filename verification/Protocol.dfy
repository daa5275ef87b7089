/** The messages of the control streams and the options and results shared by every module. */
module Protocol {
  datatype Option<+T> = None | Some(value: T)

  datatype Result<+T, +E> = Ok(value: T) | Err(error: E)

  type Path = string

  /** One chunk of a path list: the message that carries it says which of the four lists it belongs to. */
  datatype PathListKind = BuildPaths | MissingPaths | OutputClosure | OutputRequest

  /** Messages that one control stream can carry. */
  datatype Message =
    | Hello(version: nat, nodeId: string)
    | AuthTrustedClient
    | AuthTicket(secret: string)
    | AuthOk
    | BuildRequest(installable: string, drvPath: Path)
    | PathList(kind: PathListKind, paths: seq<Path>, done: bool)
    | BuildQueued
    | InputUploadReady
    | BuildStarted
    | NixLog(line: string)
    | BuildFinished(success: bool)
    | OutputCacheReady(copyPaths: seq<Path>)
    | OutputCacheDone
    | Done
    | Error(message: string)

  const VERSION: nat := 5

  /** How many paths one chunk of a path list carries at most. */
  const PATH_CHUNK_SIZE: nat := 512

  /** The number of chunks a list is sent in: an empty list is still one (empty, final) chunk. */
  function ChunkCount(paths: seq<Path>): (n: nat)
    ensures n >= 1
  {
    if |paths| <= PATH_CHUNK_SIZE then 1 else 1 + ChunkCount(paths[PATH_CHUNK_SIZE..])
  }

  /** The first chunk of a nonempty remainder and whether it is the last one. */
  function HeadChunk(paths: seq<Path>): seq<Path> {
    if |paths| <= PATH_CHUNK_SIZE then paths else paths[..PATH_CHUNK_SIZE]
  }

  predicate IsLastChunk(paths: seq<Path>) {
    |paths| <= PATH_CHUNK_SIZE
  }

  /** Cutting a head chunk off what is left of a list moves the cut forward, and a last chunk reaches the end. */
  lemma HeadChunkAdvances(paths: seq<Path>, sent: nat)
    requires sent <= |paths|
    ensures var rest := paths[sent..];
            var next := sent + |HeadChunk(rest)|;
            && next <= |paths|
            && paths[..sent] + HeadChunk(rest) == paths[..next]
            && paths[..next] <= paths
            && (IsLastChunk(rest) ==> next == |paths| && paths[..next] == paths)
            && (!IsLastChunk(rest) ==> sent < next && paths[next..] == rest[PATH_CHUNK_SIZE..])
  {
  }
}
