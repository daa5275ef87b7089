/**
  The JSON text of the messages that carry store paths: compact, as section 7 of RFC 8259 allows it, and the way
  serde_json writes it (protocol/messages.rs).
 */
module JsonText {
  import opened Protocol

  const HEX: string := "0123456789abcdef"

  /** A character inside a JSON string: quotation marks, backslashes and control characters are escaped. */
  function Escaped(c: char): string {
    if c == '"' then "\\\""
    else if c == '\\' then "\\\\"
    else if c as int == 8 then "\\b"
    else if c as int == 9 then "\\t"
    else if c as int == 10 then "\\n"
    else if c as int == 12 then "\\f"
    else if c as int == 13 then "\\r"
    else if c as int < 0x20 then "\\u00" + [HEX[c as int / 16], HEX[c as int % 16]]
    else [c]
  }

  function EscapedAll(s: string): string {
    if s == "" then "" else Escaped(s[0]) + EscapedAll(s[1..])
  }

  function Quoted(s: string): string {
    "\"" + EscapedAll(s) + "\""
  }

  function QuotedAll(paths: seq<Path>): string {
    if paths == [] then ""
    else if |paths| == 1 then Quoted(paths[0])
    else Quoted(paths[0]) + "," + QuotedAll(paths[1..])
  }

  function Tag(kind: PathListKind): string {
    match kind
    case BuildPaths => "build_paths"
    case MissingPaths => "missing_paths"
    case OutputClosure => "output_closure"
    case OutputRequest => "output_request"
  }

  function Tagged(head: string, paths: seq<Path>, tail: string): string {
    head + QuotedAll(paths) + tail
  }

  function ChunkHead(kind: PathListKind): string {
    "{\"type\":\"" + Tag(kind) + "\",\"paths\":["
  }

  function ChunkTail(done: bool): string {
    "],\"done\":" + (if done then "true" else "false") + "}"
  }

  function ChunkJson(kind: PathListKind, paths: seq<Path>, done: bool): string {
    Tagged(ChunkHead(kind), paths, ChunkTail(done))
  }

  const CACHE_READY_HEAD: string := "{\"type\":\"output_cache_ready\",\"copy_paths\":["
  const CACHE_READY_TAIL: string := "]}"

  function CacheReadyJson(paths: seq<Path>): string {
    Tagged(CACHE_READY_HEAD, paths, CACHE_READY_TAIL)
  }
}
