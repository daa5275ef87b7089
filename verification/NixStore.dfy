/**
  Lists of store paths around the Nix commands (nix.rs), and the request for outputs that the server checks
  (server/output_cache.rs).  `nix-store` itself is a parameter: what it prints for its arguments.
 */
module NixStore {
  import opened Protocol
  import opened Text
  import opened CachePath

  datatype StoreError = CommandFailed | BadPath | NotBuilt

  /** The lines that a command prints, or its failure. */
  type Printed = Result<seq<string>, StoreError>

  // ---------------------------------------------------------------- lists

  function Filter(paths: seq<Path>, keep: set<Path>): seq<Path> {
    if paths == [] then [] else (if paths[0] in keep then [paths[0]] else []) + Filter(paths[1..], keep)
  }

  /** The first occurrences, in order. */
  function Dedup(paths: seq<Path>): seq<Path> {
    if paths == [] then []
    else
      var last := paths[|paths| - 1];
      var init := paths[..|paths| - 1];
      Dedup(init) + if last in init then [] else [last]
  }

  ghost predicate Distinct(paths: seq<Path>) {
    forall i, j :: 0 <= i < j < |paths| ==> paths[i] != paths[j]
  }

  /** Places in a list of n elements, in order. */
  predicate ArePlaces(places: seq<nat>, n: nat) {
    && (forall k :: 0 <= k < |places| ==> places[k] < n)
    && (forall j, k :: 0 <= j < k < |places| ==> places[j] < places[k])
  }

  /** The elements at these places. */
  predicate IsPick<T(==)>(picked: seq<T>, all: seq<T>, places: seq<nat>) {
    && |picked| == |places| && ArePlaces(places, |all|)
    && forall k :: 0 <= k < |picked| ==> picked[k] == all[places[k]]
  }

  /** A list grows by one element, which is picked or not. */
  lemma PickOneMore<T>(picked: seq<T>, all: seq<T>, last: T, places: seq<nat>, taken: bool)
    requires IsPick(picked, all, places)
    ensures IsPick(picked + if taken then [last] else [], all + [last], places + if taken then [|all|] else [])
    ensures forall i: nat :: i < |all| ==> (i in places + (if taken then [|all|] else []) <==> i in places)
    ensures |all| in places + (if taken then [|all|] else []) <==> taken
  {
  }

  lemma {:induction false} FilterOneMore(paths: seq<Path>, path: Path, keep: set<Path>)
    ensures Filter(paths + [path], keep) == Filter(paths, keep) + if path in keep then [path] else []
  {
    if paths == [] {
      assert [path][1..] == [];
    } else {
      var head := if paths[0] in keep then [paths[0]] else [];
      var last := if path in keep then [path] else [];
      assert (paths + [path])[0] == paths[0] && (paths + [path])[1..] == paths[1..] + [path];
      FilterOneMore(paths[1..], path, keep);
      assert head + (Filter(paths[1..], keep) + last) == (head + Filter(paths[1..], keep)) + last;
    }
  }

  /** Filtering picks the elements to keep, each as often as it occurs, in their order. */
  lemma {:induction false} FilterPicks(paths: seq<Path>, keep: set<Path>) returns (places: seq<nat>)
    ensures IsPick(Filter(paths, keep), paths, places)
    ensures forall i: nat :: i < |paths| ==> (i in places <==> paths[i] in keep)
    decreases |paths|
  {
    places := [];
    if paths != [] {
      var init, last := paths[..|paths| - 1], paths[|paths| - 1];
      var front := FilterPicks(init, keep);
      assert paths == init + [last];
      FilterOneMore(init, last, keep);
      PickOneMore(Filter(init, keep), init, last, front, last in keep);
      places := front + if last in keep then [|init|] else [];
    }
  }

  /** Deduplication picks the first occurrence of each element, in their order. */
  lemma {:induction false} DedupPicks(paths: seq<Path>) returns (places: seq<nat>)
    ensures IsPick(Dedup(paths), paths, places)
    ensures forall i: nat :: i < |paths| ==> (i in places <==> paths[i] !in paths[..i])
    decreases |paths|
  {
    places := [];
    if paths != [] {
      var init, last := paths[..|paths| - 1], paths[|paths| - 1];
      var front := DedupPicks(init);
      assert paths == init + [last];
      PickOneMore(Dedup(init), init, last, front, last !in init);
      places := front + if last in init then [] else [|init|];
      assert forall i: nat :: i < |init| ==> init[..i] == paths[..i] && init[i] == paths[i];
    }
  }

  lemma {:induction false} DedupKeepsPaths(paths: seq<Path>)
    ensures forall p :: p in Dedup(paths) <==> p in paths
    ensures Distinct(Dedup(paths))
    decreases |paths|
  {
    if paths != [] {
      DedupKeepsPaths(paths[..|paths| - 1]);
      assert paths == paths[..|paths| - 1] + [paths[|paths| - 1]];
    }
  }

  lemma {:induction false} DedupOfDistinct(paths: seq<Path>)
    requires Distinct(paths)
    ensures Dedup(paths) == paths
    decreases |paths|
  {
    if paths != [] {
      DedupOfDistinct(paths[..|paths| - 1]);
      assert paths == paths[..|paths| - 1] + [paths[|paths| - 1]];
    }
  }

  lemma {:induction false} FilterFacts(paths: seq<Path>, keep: set<Path>)
    ensures forall p :: p in Filter(paths, keep) <==> p in paths && p in keep
    ensures Distinct(paths) ==> Distinct(Filter(paths, keep))
  {
    if paths != [] {
      FilterFacts(paths[1..], keep);
      assert paths == [paths[0]] + paths[1..];
    }
  }

  lemma {:induction false} FilterDepends(paths: seq<Path>, a: set<Path>, b: set<Path>)
    requires forall p :: p in paths ==> (p in a <==> p in b)
    ensures Filter(paths, a) == Filter(paths, b)
  {
    if paths != [] {
      assert forall p :: p in paths[1..] ==> p in paths;
      FilterDepends(paths[1..], a, b);
    }
  }

  // ---------------------------------------------------------------- parsing lines

  function NonEmptyLine(line: string): Option<string> {
    var trimmed := Trim(line);
    if trimmed != "" then Some(trimmed) else None
  }

  /** The store paths of some lines, blank lines skipped; any other line is an error. */
  function Parse(lines: seq<string>): Result<seq<Path>, StoreError>
    decreases |lines|
  {
    if lines == [] then Ok([])
    else
      var init := Parse(lines[..|lines| - 1]);
      match NonEmptyLine(lines[|lines| - 1])
      case None => init
      case Some(path) =>
        if init.Err? then init else if ValidStorePath(path) then Ok(init.value + [path]) else Err(BadPath)
  }

  /** The lines are blank or store paths, but for the white space around them. */
  predicate AllParse(lines: seq<string>) {
    forall i :: 0 <= i < |lines| ==> Trim(lines[i]) == "" || ValidStorePath(Trim(lines[i]))
  }

  function Trimmed(lines: seq<string>): (trimmed: seq<string>)
    ensures |trimmed| == |lines| && forall i :: 0 <= i < |lines| ==> trimmed[i] == Trim(lines[i])
  {
    seq(|lines|, i requires 0 <= i < |lines| => Trim(lines[i]))
  }

  lemma ParseOneMore(init: seq<string>, last: string)
    ensures Parse(init + [last]) ==
            if Parse(init).Err? || Trim(last) == "" then Parse(init)
            else if ValidStorePath(Trim(last)) then Ok(Parse(init).value + [Trim(last)]) else Err(BadPath)
    ensures AllParse(init + [last]) <==> AllParse(init) && (Trim(last) == "" || ValidStorePath(Trim(last)))
    ensures Trimmed(init + [last]) == Trimmed(init) + [Trim(last)]
  {
    var lines := init + [last];
    assert lines[..|lines| - 1] == init && lines[|init|] == last;
    assert forall i :: 0 <= i < |init| ==> lines[i] == init[i];
  }

  /** Lines parse exactly if each is blank or a store path. */
  lemma {:induction false} ParseOkIff(lines: seq<string>)
    ensures Parse(lines).Ok? <==> AllParse(lines)
    ensures Parse(lines).Err? ==> Parse(lines) == Err(BadPath)
    decreases |lines|
  {
    if lines != [] {
      var init, last := lines[..|lines| - 1], lines[|lines| - 1];
      assert lines == init + [last];
      ParseOkIff(init);
      ParseOneMore(init, last);
    }
  }

  function NonEmpty(texts: seq<string>): seq<string>
    decreases |texts|
  {
    if texts == [] then []
    else NonEmpty(texts[..|texts| - 1]) + if texts[|texts| - 1] != "" then [texts[|texts| - 1]] else []
  }

  lemma {:induction false} NonEmptyPicks(texts: seq<string>) returns (places: seq<nat>)
    ensures IsPick(NonEmpty(texts), texts, places)
    ensures forall i: nat :: i < |texts| ==> (i in places <==> texts[i] != "")
    decreases |texts|
  {
    places := [];
    if texts != [] {
      var init, last := texts[..|texts| - 1], texts[|texts| - 1];
      assert texts == init + [last];
      var front := NonEmptyPicks(init);
      PickOneMore(NonEmpty(init), init, last, front, last != "");
      places := front + if last != "" then [|init|] else [];
      assert forall i: nat :: i < |init| ==> init[i] == texts[i];
    }
  }

  lemma {:induction false} ParsedAreNonEmpty(lines: seq<string>)
    requires Parse(lines).Ok?
    ensures Parse(lines).value == NonEmpty(Trimmed(lines))
    decreases |lines|
  {
    if lines != [] {
      var init, last := lines[..|lines| - 1], lines[|lines| - 1];
      assert lines == init + [last];
      ParseOneMore(init, last);
      ParsedAreNonEmpty(init);
      assert Trimmed(lines)[..|init|] == Trimmed(init);
    }
  }

  /** They parse to the store paths on the lines that are not blank, all of them, in order. */
  lemma ParsePicks(lines: seq<string>) returns (places: seq<nat>)
    requires Parse(lines).Ok?
    ensures IsPick(Parse(lines).value, Trimmed(lines), places)
    ensures forall i: nat :: i < |lines| ==> (i in places <==> Trimmed(lines)[i] != "")
  {
    ParsedAreNonEmpty(lines);
    places := NonEmptyPicks(Trimmed(lines));
  }

  lemma {:induction false} ParsePrefix(lines: seq<string>, k: nat)
    requires k <= |lines| && Parse(lines[..k]).Err?
    ensures Parse(lines) == Parse(lines[..k])
    decreases |lines|
  {
    if k < |lines| {
      var init := lines[..|lines| - 1];
      assert lines[..k] == init[..k];
      ParsePrefix(init, k);
    } else {
      assert lines[..k] == lines;
    }
  }

  lemma ParseNext(lines: seq<string>, k: nat)
    requires k < |lines|
    ensures Parse(lines[..k + 1]) ==
            match NonEmptyLine(lines[k])
            case None => Parse(lines[..k])
            case Some(path) =>
              if Parse(lines[..k]).Err? then Parse(lines[..k])
              else if ValidStorePath(path) then Ok(Parse(lines[..k]).value + [path]) else Err(BadPath)
  {
    assert lines[..k + 1][..k] == lines[..k];
  }

  // ---------------------------------------------------------------- the closure of a path

  lemma DedupNext(paths: seq<Path>, path: Path)
    ensures Dedup(paths + [path]) == Dedup(paths) + if path in paths then [] else [path]
  {
    assert (paths + [path])[..|paths|] == paths;
  }

  function DedupAll(all: Result<seq<Path>, StoreError>): Result<seq<Path>, StoreError> {
    match all
    case Err(error) => Err(error)
    case Ok(paths) => Ok(Dedup(paths))
  }

  /** The paths that `nix-store -qR` prints, each once, in the order in which it first printed them. */
  method QueryClosure(paths: seq<Path>, printed: Printed) returns (closure: Result<seq<Path>, StoreError>)
    ensures closure ==
            if paths == [] then Ok([]) else if printed.Err? then printed else DedupAll(Parse(printed.value))
  {
    if paths == [] {
      return Ok([]);
    }
    if printed.Err? {
      return printed;
    }
    closure := DedupLines(printed.value);
  }

  method DedupLines(lines: seq<string>) returns (closure: Result<seq<Path>, StoreError>)
    ensures closure == DedupAll(Parse(lines))
  {
    var seen: set<Path> := {};
    var kept: seq<Path> := [];
    ghost var all: seq<Path> := [];
    var i := 0;
    while i < |lines|
      invariant 0 <= i <= |lines|
      invariant Parse(lines[..i]) == Ok(all) && kept == Dedup(all)
      invariant forall p :: p in seen <==> p in all
    {
      ParseNext(lines, i);
      var line := NonEmptyLine(lines[i]);
      if line.Some? {
        var path := line.value;
        if !ValidStorePath(path) {
          ParsePrefix(lines, i + 1);
          return Err(BadPath);
        }
        DedupNext(all, path);
        if path !in seen {
          seen := seen + {path};
          kept := kept + [path];
        }
        all := all + [path];
      }
      i := i + 1;
    }
    assert lines[..i] == lines;
    closure := Ok(kept);
  }

  lemma {:induction false} ParsedIsValid(lines: seq<string>)
    requires Parse(lines).Ok?
    ensures AllValid(Parse(lines).value)
    decreases |lines|
  {
    if lines != [] {
      ParsedIsValid(lines[..|lines| - 1]);
    }
  }

  // ---------------------------------------------------------------- missing paths

  /** What `nix-store --check-validity --print-invalid` prints for the paths it is given. */
  type Checker = seq<Path> -> Printed

  /** It prints exactly those that the store does not hold, unless it fails. */
  ghost predicate Honest(checker: Checker, held: set<Path>) {
    forall asked: seq<Path> :: checker(asked).Ok? ==>
      Parse(checker(asked).value).Ok?
      && forall p :: p in Parse(checker(asked).value).value <==> p in asked && p !in held
  }

  /** Some paths together with those of a result. */
  function Plus(found: set<Path>, others: Result<set<Path>, StoreError>): (r: Result<set<Path>, StoreError>)
    ensures found == {} ==> r == others
  {
    if others.Err? then others else
      assert found == {} ==> found + others.value == others.value;
      Ok(found + others.value)
  }

  lemma PlusTwice(a: set<Path>, b: set<Path>, others: Result<set<Path>, StoreError>)
    ensures Plus(a, Plus(b, others)) == Plus(a + b, others)
  {
    if others.Ok? {
      assert a + (b + others.value) == a + b + others.value;
    }
  }

  function Found(lines: Printed): Result<set<Path>, StoreError> {
    match lines
    case Err(error) => Err(error)
    case Ok(lines) =>
      match Parse(lines)
      case Err(error) => Err(error)
      case Ok(paths) => Ok(set p | p in paths)
  }

  /** The union of what the checker prints for consecutive chunks. */
  function Invalid(checker: Checker, size: nat, paths: seq<Path>): Result<set<Path>, StoreError>
    requires size > 0
    decreases |paths|
  {
    if paths == [] then Ok({})
    else
      var k := if size <= |paths| then size else |paths|;
      match Found(checker(paths[..k]))
      case Err(error) => Err(error)
      case Ok(found) => Plus(found, Invalid(checker, size, paths[k..]))
  }

  method MissingPaths(checker: Checker, size: nat, paths: seq<Path>) returns (missing: Result<seq<Path>, StoreError>)
    requires size > 0
    ensures missing ==
            match Invalid(checker, size, paths) case Err(error) => Err(error) case Ok(found) => Ok(Filter(paths, found))
  {
    if paths == [] {
      return Ok([]);
    }
    var found: set<Path> := {};
    var from := 0;
    assert paths[0..] == paths;
    while from < |paths|
      invariant 0 <= from <= |paths|
      invariant Invalid(checker, size, paths) == Plus(found, Invalid(checker, size, paths[from..]))
    {
      var to := if from + size <= |paths| then from + size else |paths|;
      assert paths[from..][..to - from] == paths[from..to] && paths[from..][to - from..] == paths[to..];
      var printed := checker(paths[from..to]);
      if printed.Err? {
        return Err(printed.error);
      }
      var parsed := ParseLines(printed.value);
      if parsed.Err? {
        return Err(parsed.error);
      }
      var chunkFound := set p | p in parsed.value;
      PlusTwice(found, chunkFound, Invalid(checker, size, paths[to..]));
      found := found + chunkFound;
      from := to;
    }
    assert paths[from..] == [];
    assert found + {} == found;
    missing := Ok(Filter(paths, found));
  }

  method ParseLines(lines: seq<string>) returns (parsed: Result<seq<Path>, StoreError>)
    ensures parsed == Parse(lines)
  {
    var paths: seq<Path> := [];
    var i := 0;
    while i < |lines|
      invariant 0 <= i <= |lines| && Parse(lines[..i]) == Ok(paths)
    {
      ParseNext(lines, i);
      var line := NonEmptyLine(lines[i]);
      if line.Some? {
        if !ValidStorePath(line.value) {
          ParsePrefix(lines, i + 1);
          return Err(BadPath);
        }
        paths := paths + [line.value];
      }
      i := i + 1;
    }
    assert lines[..i] == lines;
    parsed := Ok(paths);
  }

  function ChunkFrom(paths: seq<Path>, from: nat, size: nat): seq<Path>
    requires from <= |paths|
  {
    paths[from..if from + size <= |paths| then from + size else |paths|]
  }

  /** One of the chunks that the checker is asked about. */
  predicate IsChunk(paths: seq<Path>, size: nat, j: nat, chunk: seq<Path>) {
    j * size < |paths| && chunk == ChunkFrom(paths, j * size, size)
  }

  ghost predicate AllAnswered(checker: Checker, size: nat, paths: seq<Path>) {
    forall j: nat, chunk :: IsChunk(paths, size, j, chunk) ==> Found(checker(chunk)).Ok?
  }

  /** The answer is an error exactly if the checker fails, or prints no store paths, for some chunk. */
  lemma {:induction false} InvalidOkIff(checker: Checker, size: nat, paths: seq<Path>)
    requires size > 0
    ensures Invalid(checker, size, paths).Ok? <==> AllAnswered(checker, size, paths)
    decreases |paths|
  {
    if paths != [] {
      var k := if size <= |paths| then size else |paths|;
      InvalidOkIff(checker, size, paths[k..]);
      ChunksAfterFirst(checker, size, paths);
    }
  }

  lemma ChunkMoves(paths: seq<Path>, size: nat, j: nat, chunk: seq<Path>)
    requires 0 < size <= |paths|
    ensures IsChunk(paths[size..], size, j, chunk) <==> IsChunk(paths, size, j + 1, chunk)
  {
    assert (j + 1) * size == j * size + size;
    if j * size < |paths[size..]| {
      SliceMoves(paths, size, j * size);
    }
  }

  lemma SliceMoves(paths: seq<Path>, size: nat, from: nat)
    requires from + size <= |paths|
    ensures ChunkFrom(paths[size..], from, size) == ChunkFrom(paths, from + size, size)
  {
  }

  lemma FirstChunk(paths: seq<Path>, size: nat, chunk: seq<Path>)
    requires size > 0 && paths != []
    ensures IsChunk(paths, size, 0, chunk) <==> chunk == paths[..if size <= |paths| then size else |paths|]
    ensures size >= |paths| ==> forall j: nat :: IsChunk(paths, size, j, chunk) ==> j == 0
  {
    forall j: nat | j > 0
      ensures j * size >= size
    {
      assert j * size == (j - 1) * size + size;
    }
  }

  lemma ChunksAfterFirst(checker: Checker, size: nat, paths: seq<Path>)
    requires size > 0 && paths != []
    ensures var k := if size <= |paths| then size else |paths|;
            AllAnswered(checker, size, paths) <==>
              Found(checker(paths[..k])).Ok? && AllAnswered(checker, size, paths[k..])
  {
    var k := if size <= |paths| then size else |paths|;
    FirstChunk(paths, size, paths[..k]);
    if AllAnswered(checker, size, paths) {
      forall j: nat, chunk | IsChunk(paths[k..], size, j, chunk)
        ensures Found(checker(chunk)).Ok?
      {
        if size <= |paths| {
          ChunkMoves(paths, size, j, chunk);
        }
      }
    }
    if Found(checker(paths[..k])).Ok? && AllAnswered(checker, size, paths[k..]) {
      forall j: nat, chunk | IsChunk(paths, size, j, chunk)
        ensures Found(checker(chunk)).Ok?
      {
        FirstChunk(paths, size, chunk);
        if j > 0 {
          ChunkMoves(paths, size, j - 1, chunk);
        }
      }
    }
  }

  lemma {:induction false} InvalidIsNotHeld(checker: Checker, held: set<Path>, size: nat, paths: seq<Path>)
    requires size > 0 && Honest(checker, held) && Invalid(checker, size, paths).Ok?
    ensures forall p :: p in Invalid(checker, size, paths).value <==> p in paths && p !in held
    decreases |paths|
  {
    if paths != [] {
      var k := if size <= |paths| then size else |paths|;
      InvalidIsNotHeld(checker, held, size, paths[k..]);
      assert paths == paths[..k] + paths[k..];
      var found := Found(checker(paths[..k])).value;
      assert forall p :: p in found <==> p in paths[..k] && p !in held;
    }
  }

  /**
    Asking in chunks makes no difference: whatever the chunk size, the missing paths are the paths that the store does
    not hold, in their order and with their repetitions.
   */
  lemma ChunkingMakesNoDifference(checker: Checker, held: set<Path>, size: nat, paths: seq<Path>)
    requires size > 0 && Honest(checker, held) && Invalid(checker, size, paths).Ok?
    ensures Filter(paths, Invalid(checker, size, paths).value) == Filter(paths, (set p | p in paths) - held)
  {
    InvalidIsNotHeld(checker, held, size, paths);
    FilterDepends(paths, Invalid(checker, size, paths).value, (set p | p in paths) - held);
  }

  // ---------------------------------------------------------------- the request for outputs

  function RequestError(request: seq<Path>, allowed: set<Path>): Option<StoreError>
    decreases |request|
  {
    if request == [] then None
    else if !ValidStorePath(request[0]) then Some(BadPath)
    else if request[0] !in allowed then Some(NotBuilt)
    else RequestError(request[1..], allowed)
  }

  method RequestedOutputPaths(request: seq<Path>, closure: seq<Path>) returns (requested: Result<seq<Path>, StoreError>)
    ensures requested ==
            match RequestError(request, set p | p in closure)
            case Some(error) => Err(error)
            case None => Ok(Dedup(request))
  {
    var allowed := set p | p in closure;
    var seen: set<Path> := {};
    var kept: seq<Path> := [];
    var i := 0;
    while i < |request|
      invariant 0 <= i <= |request|
      invariant RequestError(request, allowed) == RequestError(request[i..], allowed)
      invariant kept == Dedup(request[..i])
      invariant forall p :: p in seen <==> p in request[..i]
    {
      var path := request[i];
      assert request[i..][1..] == request[i + 1..];
      if !ValidStorePath(path) {
        return Err(BadPath);
      }
      if path !in allowed {
        return Err(NotBuilt);
      }
      assert request[..i + 1] == request[..i] + [path];
      DedupNext(request[..i], path);
      if path !in seen {
        seen := seen + {path};
        kept := kept + [path];
      }
      i := i + 1;
    }
    assert request[..i] == request;
    requested := Ok(kept);
  }

  /** A request is refused exactly if one of its paths is no store path or not in the closure. */
  lemma {:induction false} RefusedIff(request: seq<Path>, allowed: set<Path>)
    ensures RequestError(request, allowed).None? <==>
              forall i :: 0 <= i < |request| ==> ValidStorePath(request[i]) && request[i] in allowed
    decreases |request|
  {
    if request != [] {
      RefusedIff(request[1..], allowed);
      assert forall i :: 0 <= i < |request| - 1 ==> request[1..][i] == request[i + 1];
      if RequestError(request, allowed).None? {
        assert forall i :: 0 < i < |request| ==> request[i] == request[1..][i - 1];
      }
    }
  }

  /** A refused request is refused for its first bad path: as no store path, or else as one that was not built. */
  lemma {:induction false} RefusalTells(request: seq<Path>, allowed: set<Path>) returns (i: nat)
    requires RequestError(request, allowed).Some?
    ensures i < |request| && forall j :: 0 <= j < i ==> ValidStorePath(request[j]) && request[j] in allowed
    ensures !(ValidStorePath(request[i]) && request[i] in allowed)
    ensures RequestError(request, allowed) == Some(if ValidStorePath(request[i]) then NotBuilt else BadPath)
    decreases |request|
  {
    if ValidStorePath(request[0]) && request[0] in allowed {
      var rest := RefusalTells(request[1..], allowed);
      i := rest + 1;
      assert forall j :: 0 < j < |request| ==> request[j] == request[1..][j - 1];
    } else {
      i := 0;
    }
  }

  /**
    The two ends agree on what is to be copied: for the closure that the server found, the server's list of requested
    paths is the list of those that the client does not hold; the request is never refused, and it is empty exactly if
    the client holds the whole closure.
   */
  lemma RequestIsMissing(lines: seq<string>, checker: Checker, held: set<Path>, size: nat)
    requires size > 0 && Parse(lines).Ok? && Honest(checker, held)
    requires Invalid(checker, size, Dedup(Parse(lines).value)).Ok?
    ensures var closure := Dedup(Parse(lines).value);
            var missing := Filter(closure, Invalid(checker, size, closure).value);
            && RequestError(missing, set p | p in closure).None?
            && Dedup(missing) == missing
            && (forall p :: p in missing <==> p in closure && p !in held)
            && (missing == [] <==> forall p :: p in closure ==> p in held)
  {
    var all := Parse(lines).value;
    var closure := Dedup(all);
    var invalid := Invalid(checker, size, closure).value;
    var missing := Filter(closure, invalid);
    ParsedIsValid(lines);
    DedupKeepsPaths(all);
    InvalidIsNotHeld(checker, held, size, closure);
    FilterFacts(closure, invalid);
    DedupOfDistinct(missing);
    MembersAreValid(all, missing);
    RefusedIff(missing, set p | p in closure);
    if missing == [] {
      assert forall p :: p in closure && p !in held ==> p in missing;
    } else {
      assert missing[0] in missing;
    }
  }

  lemma MembersAreValid(all: seq<Path>, some: seq<Path>)
    requires AllValid(all) && forall p :: p in some ==> p in all
    ensures forall i :: 0 <= i < |some| ==> ValidStorePath(some[i])
  {
    forall i | 0 <= i < |some|
      ensures ValidStorePath(some[i])
    {
      assert some[i] in all;
      var k :| 0 <= k < |all| && all[k] == some[i];
    }
  }
}
