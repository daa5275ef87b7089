/**
  The names of cache files (cache.rs), store paths (nix.rs) and how one leads to the other
  (server/output_cache.rs, client_cache/mirror.rs).
 */
module CachePath {
  import opened Protocol
  import opened Text

  const NIX_BASE32: string := "0123456789abcdfghijklmnpqrsvwxyz"
  const STORE_PREFIX: string := "/nix/store/"
  const CACHE_INFO: string := "nix-cache-info"
  const NARINFO: string := ".narinfo"
  const NAR_DIR: string := "nar/"
  const HASH_LEN: nat := 32

  // ---------------------------------------------------------------- cache.rs

  datatype CacheError = NotAbsolute | InvalidPath | InvalidNarinfo | InvalidNar | Unsupported | NotUtf8 | NotANar

  predicate IsAlphanumeric(c: char) {
    'a' <= c <= 'z' || 'A' <= c <= 'Z' || '0' <= c <= '9'
  }

  predicate IsFileChar(c: char) {
    IsAlphanumeric(c) || c in "-_.+="
  }

  predicate AllBase32(s: string) {
    forall i :: 0 <= i < |s| ==> s[i] in NIX_BASE32
  }

  predicate ValidStem(stem: string) {
    |stem| == HASH_LEN && AllBase32(stem)
  }

  predicate ValidSegment(segment: string) {
    segment != "" && segment != "." && segment != ".." && forall i :: 0 <= i < |segment| ==> IsFileChar(segment[i])
  }

  predicate AllValidSegments(segments: seq<string>) {
    forall i :: 0 <= i < |segments| ==> ValidSegment(segments[i])
  }

  predicate ValidSegments(path: string) {
    path != "" && path[0] != '/' && path[|path| - 1] != '/' && AllValidSegments(Split(path, '/'))
  }

  /** The last dot, or nothing. */
  function LastDot(name: string): Option<nat> {
    if name == "" then None
    else if name[|name| - 1] == '.' then Some(|name| - 1)
    else LastDot(name[..|name| - 1])
  }

  /** `Path::extension` of a single file name: what follows its last dot, unless that dot starts the name. */
  function Extension(name: string): Option<string> {
    match LastDot(name)
    case None => None
    case Some(dot) => if 0 < dot < |name| then Some(name[dot + 1..]) else None
  }

  predicate IsNarName(name: string) {
    Extension(name) == Some("nar") || Contains(name, ".nar.")
  }

  predicate ValidNarFileName(path: string) {
    var segments := Split(path, '/');
    IsNarName(segments[|segments| - 1])
  }

  function Sanitize(path: string): Result<string, CacheError> {
    if path == CACHE_INFO then Ok(path)
    else if HasPrefix(path, "/") || '\\' in path then Err(InvalidPath)
    else if HasSuffix(path, NARINFO) then
      if '/' !in path && ValidStem(path[..|path| - |NARINFO|]) then Ok(path) else Err(InvalidNarinfo)
    else if HasPrefix(path, NAR_DIR) then
      if ValidSegments(path[|NAR_DIR|..]) && ValidNarFileName(path[|NAR_DIR|..]) then Ok(path) else Err(InvalidNar)
    else Err(Unsupported)
  }

  function SanitizeHttp(target: string): Result<string, CacheError> {
    var path := target[..IndexOf(target, '?')];
    if HasPrefix(path, "/") then Sanitize(path[1..]) else Err(NotAbsolute)
  }

  // ---------------------------------------------------------------- the three forms

  ghost predicate IsNarinfoForm(path: string) {
    exists hash :: ValidStem(hash) && path == hash + NARINFO
  }

  /** A NAR file name: plain, or with `.nar.` before a further suffix, which names the compression. */
  ghost predicate NamesNar(name: string) {
    || (exists stem :: stem != "" && name == stem + ".nar")
    || (exists stem, suffix :: name == stem + ".nar." + suffix)
  }

  lemma {:induction false} LastDotAt(head: string, tail: string)
    requires '.' !in tail
    ensures LastDot(head + "." + tail) == Some(|head|)
    decreases |tail|
  {
    var name := head + "." + tail;
    if tail != "" {
      var front := tail[..|tail| - 1];
      assert name[|name| - 1] == tail[|tail| - 1];
      assert name[..|name| - 1] == head + "." + front;
      LastDotAt(head, front);
    } else {
      assert name[|name| - 1] == '.';
    }
  }

  lemma {:induction false} LastDotIsDot(name: string)
    requires LastDot(name).Some?
    ensures LastDot(name).value < |name| && name[LastDot(name).value] == '.'
    decreases |name|
  {
    if name[|name| - 1] != '.' {
      LastDotIsDot(name[..|name| - 1]);
    }
  }

  lemma ExtensionIsNarIff(name: string)
    ensures Extension(name) == Some("nar") <==> exists stem :: stem != "" && name == stem + ".nar"
  {
    if Extension(name) == Some("nar") {
      LastDotIsDot(name);
      var dot := LastDot(name).value;
      assert name == name[..dot] + "." + name[dot + 1..];
      assert name == name[..dot] + ".nar";
    }
    if stem :| stem != "" && name == stem + ".nar" {
      LastDotAt(stem, "nar");
      assert name == stem + "." + "nar" && name[|stem| + 1..] == "nar";
    }
  }

  lemma NarNameIff(name: string)
    ensures IsNarName(name) <==> NamesNar(name)
  {
    ExtensionIsNarIff(name);
    ContainsIff(name, ".nar.");
  }

  ghost predicate AreNarSegments(segments: seq<string>) {
    |segments| >= 1 && AllValidSegments(segments) && NamesNar(segments[|segments| - 1])
  }

  ghost predicate IsNarForm(path: string) {
    && (exists segments :: AreNarSegments(segments) && path == NAR_DIR + Join(segments, '/'))
    && !HasSuffix(path, NARINFO)
  }

  lemma ValidSegmentsHaveNoSlash(segments: seq<string>)
    requires AllValidSegments(segments)
    ensures NoneHas(segments, '/')
  {
  }

  lemma {:induction false} JoinedChars(segments: seq<string>, k: nat)
    requires |segments| >= 1 && AllValidSegments(segments)
    requires k < |Join(segments, '/')|
    ensures Join(segments, '/')[k] == '/' || IsFileChar(Join(segments, '/')[k])
    decreases |segments|
  {
    if |segments| > 1 {
      if k > |segments[0]| {
        JoinedChars(segments[1..], k - |segments[0]| - 1);
      } else if k == |segments[0]| {
        assert Join(segments, '/')[k] == '/';
      } else {
        assert Join(segments, '/')[k] == segments[0][k];
      }
    }
  }

  lemma JoinedEnds(segments: seq<string>)
    requires |segments| >= 1 && AllValidSegments(segments)
    ensures var path := Join(segments, '/'); path != "" && path[0] != '/' && path[|path| - 1] != '/'
  {
    var path, last := Join(segments, '/'), segments[|segments| - 1];
    JoinEndsWithLast(segments, '/');
    assert path[|path| - 1] == path[|path| - |last|..][|last| - 1] == last[|last| - 1];
    assert ValidSegment(last) && ValidSegment(segments[0]);
    assert path[0] == segments[0][0];
  }

  lemma JoinedHasNoBackslash(segments: seq<string>)
    requires |segments| >= 1 && AllValidSegments(segments)
    ensures '\\' !in Join(segments, '/')
  {
    forall k | 0 <= k < |Join(segments, '/')|
      ensures Join(segments, '/')[k] != '\\'
    {
      JoinedChars(segments, k);
    }
  }

  lemma JoinedSplits(segments: seq<string>)
    requires |segments| >= 1 && AllValidSegments(segments)
    ensures Split(Join(segments, '/'), '/') == segments
  {
    ValidSegmentsHaveNoSlash(segments);
    JoinThenSplit(segments, '/');
  }

  lemma JoinedIsValid(segments: seq<string>)
    requires AreNarSegments(segments)
    ensures ValidSegments(Join(segments, '/')) && ValidNarFileName(Join(segments, '/'))
  {
    JoinedSplits(segments);
    JoinedEnds(segments);
    NarNameIff(segments[|segments| - 1]);
  }

  lemma UnderNar(rest: string)
    ensures var path := NAR_DIR + rest;
            && HasPrefix(path, NAR_DIR) && path[|NAR_DIR|..] == rest
            && !HasPrefix(path, "/") && path != CACHE_INFO
            && ('\\' !in rest ==> '\\' !in path)
  {
    var path := NAR_DIR + rest;
    assert path[0] == 'n' && path[3] == '/' && CACHE_INFO[3] == '-';
    assert forall k :: |NAR_DIR| <= k < |path| ==> path[k] == rest[k - |NAR_DIR|];
  }

  lemma NarinfoSuffix(hash: string)
    ensures HasSuffix(hash + NARINFO, NARINFO) && (hash + NARINFO)[..|hash + NARINFO| - |NARINFO|] == hash
  {
    var path := hash + NARINFO;
    assert path[|hash|..] == NARINFO;
  }

  lemma NarFormIsAccepted(path: string)
    requires IsNarForm(path)
    ensures Sanitize(path) == Ok(path) && path != CACHE_INFO && HasPrefix(path, NAR_DIR) && !IsNarinfoForm(path)
  {
    var segments :| AreNarSegments(segments) && path == NAR_DIR + Join(segments, '/');
    JoinedIsValid(segments);
    JoinedHasNoBackslash(segments);
    UnderNar(Join(segments, '/'));
    if IsNarinfoForm(path) {
      var hash :| ValidStem(hash) && path == hash + NARINFO;
      NarinfoSuffix(hash);
    }
  }

  lemma StemChars(hash: string)
    requires ValidStem(hash)
    ensures '/' !in hash && '\\' !in hash && '-' !in hash && '?' !in hash && IsAlphanumeric(hash[0])
    ensures forall i :: 0 <= i < |hash| ==> IsAlphanumeric(hash[i])
  {
    forall i | 0 <= i < |hash|
      ensures IsAlphanumeric(hash[i])
    {
      assert hash[i] in NIX_BASE32;
    }
  }

  lemma NarinfoFormIsAccepted(hash: string)
    requires ValidStem(hash)
    ensures Sanitize(hash + NARINFO) == Ok(hash + NARINFO) && '/' !in hash + NARINFO && hash + NARINFO != CACHE_INFO
  {
    var path := hash + NARINFO;
    NarinfoSuffix(hash);
    StemChars(hash);
    assert '/' !in NARINFO && '\\' !in NARINFO;
    assert path[0] == hash[0];
  }

  lemma AcceptedNarinfo(path: string)
    requires Sanitize(path).Ok? && path != CACHE_INFO && HasSuffix(path, NARINFO)
    ensures IsNarinfoForm(path)
  {
    assert path == path[..|path| - |NARINFO|] + NARINFO;
  }

  lemma AcceptedNar(path: string)
    requires ValidSegments(path) && ValidNarFileName(path) && !HasSuffix(NAR_DIR + path, NARINFO)
    ensures IsNarForm(NAR_DIR + path)
  {
    SplitThenJoin(path, '/');
    var segments := Split(path, '/');
    NarNameIff(segments[|segments| - 1]);
    assert AreNarSegments(segments);
  }

  lemma AcceptedHasAForm(path: string)
    requires Sanitize(path).Ok?
    ensures path == CACHE_INFO || IsNarinfoForm(path) || IsNarForm(path)
  {
    if path != CACHE_INFO {
      if HasSuffix(path, NARINFO) {
        AcceptedNarinfo(path);
      } else {
        assert path == NAR_DIR + path[|NAR_DIR|..];
        AcceptedNar(path[|NAR_DIR|..]);
      }
    }
  }

  /**
    A path is accepted exactly if it has one of three disjoint forms, and it is then returned unchanged: the cache
    info file, `<hash>.narinfo`, or `nar/` with plain segments of which the last is a NAR name.  A path that ends in
    `.narinfo` is never taken for a NAR path, whatever directory it names.
   */
  lemma AcceptedIffOneForm(path: string)
    ensures Sanitize(path).Ok? <==> path == CACHE_INFO || IsNarinfoForm(path) || IsNarForm(path)
    ensures Sanitize(path).Ok? ==> Sanitize(path).value == path
    ensures !(path == CACHE_INFO && IsNarinfoForm(path)) && !(path == CACHE_INFO && IsNarForm(path))
    ensures !(IsNarinfoForm(path) && IsNarForm(path))
  {
    if Sanitize(path).Ok? {
      AcceptedHasAForm(path);
    }
    if IsNarinfoForm(path) {
      var hash :| ValidStem(hash) && path == hash + NARINFO;
      NarinfoFormIsAccepted(hash);
      assert path[|hash|..] == NARINFO;
    }
    if IsNarForm(path) {
      NarFormIsAccepted(path);
    }
  }

  // ---------------------------------------------------------------- the forms spelled out

  /** The digits and the letters but e, o, t and u. */
  predicate IsHashChar(c: char) {
    ('0' <= c <= '9' || 'a' <= c <= 'z') && c != 'e' && c != 'o' && c != 't' && c != 'u'
  }

  predicate IsPlainChar(c: char) {
    'a' <= c <= 'z' || 'A' <= c <= 'Z' || '0' <= c <= '9' || c == '-' || c == '_' || c == '.' || c == '+' || c == '='
  }

  predicate IsPlain(segment: string) {
    segment != "" && segment != "." && segment != ".." && forall i :: 0 <= i < |segment| ==> IsPlainChar(segment[i])
  }

  ghost predicate SpellsNarinfo(path: string) {
    |path| == 40 && path[32..] == ".narinfo" && forall i :: 0 <= i < 32 ==> IsHashChar(path[i])
  }

  ghost predicate SpellsNar(path: string, segments: seq<string>) {
    && |segments| >= 1 && (forall i :: 0 <= i < |segments| ==> IsPlain(segments[i]))
    && NamesNar(segments[|segments| - 1]) && path == "nar/" + Join(segments, '/')
  }

  lemma HashCharAt(k: nat)
    requires k < |NIX_BASE32|
    ensures IsHashChar(NIX_BASE32[k])
  {
  }

  lemma LowHashChar(c: char)
    requires IsHashChar(c) && c <= 'n'
    ensures c in NIX_BASE32
  {
    var k := if c <= '9' then c as int - '0' as int
             else if c <= 'd' then c as int - 'a' as int + 10
             else c as int - 'f' as int + 14;
    assert NIX_BASE32[k] == c;
  }

  lemma HighHashChar(c: char)
    requires IsHashChar(c) && c > 'n'
    ensures c in NIX_BASE32
  {
    var k := if c <= 's' then c as int - 'p' as int + 23 else c as int - 'v' as int + 27;
    assert NIX_BASE32[k] == c;
  }

  lemma HashCharIff(c: char)
    ensures c in NIX_BASE32 <==> IsHashChar(c)
  {
    if c in NIX_BASE32 {
      var k :| 0 <= k < |NIX_BASE32| && NIX_BASE32[k] == c;
      HashCharAt(k);
    }
    if IsHashChar(c) {
      if c <= 'n' {
        LowHashChar(c);
      } else {
        HighHashChar(c);
      }
    }
  }

  lemma PlainIff(segment: string)
    ensures ValidSegment(segment) <==> IsPlain(segment)
  {
  }

  lemma NarinfoSpelling(path: string)
    ensures IsNarinfoForm(path) <==> SpellsNarinfo(path)
  {
    if IsNarinfoForm(path) {
      var hash :| ValidStem(hash) && path == hash + NARINFO;
      assert path[32..] == NARINFO;
      forall i | 0 <= i < 32
        ensures IsHashChar(path[i])
      {
        HashCharIff(hash[i]);
      }
    }
    if SpellsNarinfo(path) {
      var hash := path[..32];
      forall i | 0 <= i < 32
        ensures hash[i] in NIX_BASE32
      {
        HashCharIff(path[i]);
      }
      assert ValidStem(hash) && path == hash + NARINFO;
    }
  }

  lemma NarSpelling(path: string)
    ensures IsNarForm(path) <==> (exists segments :: SpellsNar(path, segments)) && !HasSuffix(path, ".narinfo")
  {
    if IsNarForm(path) {
      var segments :| AreNarSegments(segments) && path == NAR_DIR + Join(segments, '/');
      forall i | 0 <= i < |segments|
        ensures IsPlain(segments[i])
      {
        PlainIff(segments[i]);
      }
      assert SpellsNar(path, segments);
    }
    if segments :| SpellsNar(path, segments) {
      forall i | 0 <= i < |segments|
        ensures ValidSegment(segments[i])
      {
        PlainIff(segments[i]);
      }
      assert AreNarSegments(segments);
    }
  }

  /** What is accepted, character by character. */
  lemma AcceptedSpelling(path: string)
    ensures Sanitize(path).Ok? <==>
              || path == "nix-cache-info"
              || SpellsNarinfo(path)
              || ((exists segments :: SpellsNar(path, segments)) && !HasSuffix(path, ".narinfo"))
  {
    AcceptedIffOneForm(path);
    NarinfoSpelling(path);
    NarSpelling(path);
  }

  /** What a refused path is told, by its look: the suffix decides before the directory does. */
  lemma RefusalTells(path: string)
    requires Sanitize(path).Err?
    ensures Sanitize(path).error ==
            if "/" <= path || '\\' in path then InvalidPath
            else if HasSuffix(path, ".narinfo") then InvalidNarinfo
            else if "nar/" <= path then InvalidNar
            else Unsupported
  {
  }

  /** A NAR is accepted whatever its compression: the suffix after `.nar` may be any but one that ends in `.narinfo`. */
  lemma CompressedNarIsAccepted(stem: string, suffix: string)
    requires stem != "" && forall i :: 0 <= i < |stem| ==> IsPlainChar(stem[i])
    requires suffix == "" || (suffix[0] == '.' && forall i :: 0 <= i < |suffix| ==> IsPlainChar(suffix[i]))
    ensures var path := "nar/" + stem + ".nar" + suffix;
            Sanitize(path) == Ok(path) <==> !HasSuffix(path, ".narinfo")
  {
    var name := stem + ".nar" + suffix;
    var path := "nar/" + stem + ".nar" + suffix;
    CompressedNameIsPlain(stem, suffix);
    assert SpellsNar(path, [name]) by {
      assert Join([name], '/') == name && path == "nar/" + name;
    }
    AcceptedSpelling(path);
    AcceptedIffOneForm(path);
    assert path[3] == '/' && !IsHashChar('/');
  }

  lemma CompressedNameIsPlain(stem: string, suffix: string)
    requires stem != "" && forall i :: 0 <= i < |stem| ==> IsPlainChar(stem[i])
    requires suffix == "" || (suffix[0] == '.' && forall i :: 0 <= i < |suffix| ==> IsPlainChar(suffix[i]))
    ensures IsPlain(stem + ".nar" + suffix) && NamesNar(stem + ".nar" + suffix)
  {
    var name := stem + ".nar" + suffix;
    forall i | 0 <= i < |name|
      ensures IsPlainChar(name[i])
    {
    }
    if suffix == "" {
      assert name == stem + ".nar";
    } else {
      assert name == stem + ".nar." + suffix[1..];
    }
  }

  // ---------------------------------------------------------------- below the cache directory

  /** Lexical resolution of a path under a directory: dots drop, double dots climb. */
  function Resolve(dir: seq<string>, segments: seq<string>): seq<string>
    decreases |segments|
  {
    if segments == [] then dir
    else if segments[0] == "" || segments[0] == "." then Resolve(dir, segments[1..])
    else if segments[0] == ".." then Resolve(if dir == [] then [] else dir[..|dir| - 1], segments[1..])
    else Resolve(dir + [segments[0]], segments[1..])
  }

  lemma {:induction false} PlainSegmentsResolve(dir: seq<string>, segments: seq<string>)
    requires forall i :: 0 <= i < |segments| ==> segments[i] != "" && segments[i] != "." && segments[i] != ".."
    ensures Resolve(dir, segments) == dir + segments
    decreases |segments|
  {
    if segments != [] {
      PlainSegmentsResolve(dir + [segments[0]], segments[1..]);
      assert dir + [segments[0]] + segments[1..] == dir + segments;
    }
  }

  lemma NarSegments(segments: seq<string>)
    requires AreNarSegments(segments)
    ensures Split(NAR_DIR + Join(segments, '/'), '/') == ["nar"] + segments
    ensures AllValidSegments(["nar"] + segments)
  {
    var all := ["nar"] + segments;
    assert all[1..] == segments;
    assert Join(all, '/') == NAR_DIR + Join(segments, '/');
    ValidSegmentsHaveNoSlash(segments);
    JoinThenSplit(all, '/');
  }

  lemma AcceptedSegments(path: string)
    requires Sanitize(path).Ok?
    ensures AllValidSegments(Split(path, '/'))
  {
    AcceptedHasAForm(path);
    if path == CACHE_INFO || IsNarinfoForm(path) {
      FlatSegments(path);
    } else {
      var segments :| AreNarSegments(segments) && path == NAR_DIR + Join(segments, '/');
      NarSegments(segments);
    }
  }

  lemma FlatSegments(path: string)
    requires path == CACHE_INFO || IsNarinfoForm(path)
    ensures AllValidSegments(Split(path, '/'))
  {
    FlatNameIsSegment(path);
    NoSeparator(path, '/');
    assert Split(path, '/') == [path];
  }

  lemma FlatNameIsSegment(path: string)
    requires path == CACHE_INFO || IsNarinfoForm(path)
    ensures ValidSegment(path) && '/' !in path
  {
    if IsNarinfoForm(path) {
      var hash :| ValidStem(hash) && path == hash + NARINFO;
      NarinfoIsSegment(hash);
    }
  }

  lemma NarinfoIsSegment(hash: string)
    requires ValidStem(hash)
    ensures ValidSegment(hash + NARINFO) && '/' !in hash + NARINFO
  {
    StemChars(hash);
    var path := hash + NARINFO;
    assert path[0] == hash[0];
    forall i | 0 <= i < |path|
      ensures IsFileChar(path[i])
    {
      if i < |hash| {
        assert path[i] == hash[i];
      } else {
        NarinfoChars(i - |hash|);
        assert path[i] == NARINFO[i - |hash|];
      }
    }
  }

  lemma NarinfoChars(i: nat)
    requires i < |NARINFO|
    ensures IsFileChar(NARINFO[i])
  {
  }

  /** Resolving an accepted path under the cache directory only ever descends: it appends its own segments. */
  lemma AcceptedStaysBelow(dir: seq<string>, path: string)
    requires Sanitize(path).Ok?
    ensures Resolve(dir, Split(path, '/')) == dir + Split(path, '/')
    ensures dir < Resolve(dir, Split(path, '/'))
  {
    AcceptedSegments(path);
    PlainSegmentsResolve(dir, Split(path, '/'));
  }

  // ---------------------------------------------------------------- HTTP targets

  lemma TargetShape(target: string)
    requires HasPrefix(target[..IndexOf(target, '?')], "/")
    ensures var path := target[..IndexOf(target, '?')][1..];
            target == "/" + path || exists query :: target == "/" + path + "?" + query
  {
    var i := IndexOf(target, '?');
    var path := target[..i][1..];
    assert target[..i] == "/" + path;
    if i < |target| {
      assert target == target[..i] + "?" + target[i + 1..];
      assert target == "/" + path + "?" + target[i + 1..];
    } else {
      assert target == target[..i];
    }
  }

  lemma HttpAccepted(target: string)
    requires SanitizeHttp(target).Ok?
    ensures var path := SanitizeHttp(target).value;
            Sanitize(path).Ok? && (target == "/" + path || exists query :: target == "/" + path + "?" + query)
  {
    TargetShape(target);
    AcceptedIffOneForm(target[..IndexOf(target, '?')][1..]);
  }

  lemma PlainTargetIsAccepted(path: string)
    requires Sanitize(path).Ok?
    ensures SanitizeHttp("/" + path) == Ok(path)
  {
    AcceptedIffOneForm(path);
    NoQueryMark(path);
    NoSeparator("/" + path, '?');
    assert ("/" + path)[..|path| + 1] == "/" + path;
  }

  lemma QueryTargetIsAccepted(path: string, query: string)
    requires Sanitize(path).Ok?
    ensures SanitizeHttp("/" + path + "?" + query) == Ok(path)
  {
    AcceptedIffOneForm(path);
    NoQueryMark(path);
    FirstSeparator("/" + path, query, '?');
    assert ("/" + path + "?" + query)[..|path| + 1] == "/" + path;
  }

  /** A target that does not start with a slash is told so; any other is told what its path is told. */
  lemma HttpRefusalTells(target: string)
    requires SanitizeHttp(target).Err?
    ensures if HasPrefix(target[..IndexOf(target, '?')], "/") then
              SanitizeHttp(target) == Sanitize(target[..IndexOf(target, '?')][1..])
            else SanitizeHttp(target) == Err(NotAbsolute)
  {
  }

  /** An HTTP target is accepted exactly if it is a slash and an accepted path, with or without a query. */
  lemma HttpAcceptedIff(target: string, path: string)
    ensures SanitizeHttp(target) == Ok(path) <==>
              Sanitize(path).Ok? && (target == "/" + path || exists query :: target == "/" + path + "?" + query)
  {
    if SanitizeHttp(target) == Ok(path) {
      HttpAccepted(target);
    }
    if Sanitize(path).Ok? {
      PlainTargetIsAccepted(path);
      if query :| target == "/" + path + "?" + query {
        QueryTargetIsAccepted(path, query);
      }
    }
  }

  lemma AcceptedChars(path: string, k: nat)
    requires Sanitize(path).Ok? && k < |path|
    ensures path[k] == '/' || IsFileChar(path[k])
  {
    AcceptedSegments(path);
    SplitThenJoin(path, '/');
    JoinedChars(Split(path, '/'), k);
  }

  lemma NoQueryMark(path: string)
    requires Sanitize(path).Ok?
    ensures '?' !in path
  {
    if '?' in path {
      var k :| 0 <= k < |path| && path[k] == '?';
      AcceptedChars(path, k);
    }
  }

  // ---------------------------------------------------------------- narinfo text

  const URL: string := "URL:"

  function FirstUrl(lines: seq<string>): Result<Option<string>, CacheError>
    decreases |lines|
  {
    if lines == [] then Ok(None)
    else if !HasPrefix(lines[0], URL) then FirstUrl(lines[1..])
    else match Sanitize(Trim(lines[0][|URL|..]))
      case Err(error) => Err(error)
      case Ok(path) => if HasPrefix(path, NAR_DIR) then Ok(Some(path)) else Err(NotANar)
  }

  /** The NAR that a narinfo names; `text` is absent if the bytes are not UTF-8. */
  function NarinfoNarPath(text: Option<string>): Result<Option<string>, CacheError> {
    match text
    case None => Err(NotUtf8)
    case Some(text) => FirstUrl(Lines(text))
  }

  predicate IsUrlLine(lines: seq<string>, k: nat) {
    k < |lines| && HasPrefix(lines[k], URL) && forall j :: 0 <= j < k ==> !HasPrefix(lines[j], URL)
  }

  /** Only the first URL line decides, and it must name a NAR. */
  lemma {:induction false} FirstUrlDecides(lines: seq<string>)
    ensures FirstUrl(lines) == Ok(None) <==> forall k :: 0 <= k < |lines| ==> !HasPrefix(lines[k], URL)
    ensures forall k: nat :: IsUrlLine(lines, k) ==>
              (FirstUrl(lines).Ok? <==> IsNarForm(Trim(lines[k][|URL|..])))
              && (FirstUrl(lines).Ok? ==> FirstUrl(lines).value == Some(Trim(lines[k][|URL|..])))
              && (FirstUrl(lines).Err? ==>
                    FirstUrl(lines).error ==
                    match Sanitize(Trim(lines[k][|URL|..])) { case Err(error) => error case Ok(_) => NotANar })
    decreases |lines|
  {
    if lines == [] {
    } else if HasPrefix(lines[0], URL) {
      var url := Trim(lines[0][|URL|..]);
      AcceptedIffOneForm(url);
      NarFormsAreUnderNar(url);
      assert forall k: nat :: IsUrlLine(lines, k) ==> k == 0;
    } else {
      FirstUrlDecides(lines[1..]);
      forall k: nat | IsUrlLine(lines, k)
        ensures k > 0 && IsUrlLine(lines[1..], k - 1)
      {
        assert forall j :: 0 <= j < k - 1 ==> lines[1..][j] == lines[j + 1];
      }
      assert forall k :: 0 <= k < |lines| - 1 ==> lines[1..][k] == lines[k + 1];
    }
  }

  lemma NarFormsAreUnderNar(path: string)
    requires Sanitize(path).Ok? ==> path == CACHE_INFO || IsNarinfoForm(path) || IsNarForm(path)
    ensures IsNarForm(path) <==> Sanitize(path).Ok? && HasPrefix(path, NAR_DIR)
  {
    if IsNarForm(path) {
      NarFormIsAccepted(path);
    } else if Sanitize(path).Ok? {
      FlatNameIsSegment(path);
      assert NAR_DIR[3] == '/';
    }
  }

  /** What a narinfo names is always a NAR path. */
  lemma {:induction false} FirstUrlIsNar(lines: seq<string>)
    requires FirstUrl(lines).Ok? && FirstUrl(lines).value.Some?
    ensures IsNarForm(FirstUrl(lines).value.value)
    decreases |lines|
  {
    if HasPrefix(lines[0], URL) {
      var url := Trim(lines[0][|URL|..]);
      AcceptedIffOneForm(url);
      NarFormsAreUnderNar(url);
    } else {
      FirstUrlIsNar(lines[1..]);
    }
  }

  lemma FileCharIsVisible(c: char)
    requires c == '/' || IsFileChar(c)
    ensures c != '\n' && !IsWhite(c)
  {
  }

  lemma AcceptedIsVisible(path: string)
    requires Sanitize(path).Ok?
    ensures forall k :: 0 <= k < |path| ==> path[k] != '\n' && !IsWhite(path[k])
  {
    forall k | 0 <= k < |path|
      ensures path[k] != '\n' && !IsWhite(path[k])
    {
      AcceptedChars(path, k);
      FileCharIsVisible(path[k]);
    }
  }

  lemma NarFormText(path: string)
    requires IsNarForm(path)
    ensures '\n' !in path && path != "" && !IsWhite(path[0]) && !IsWhite(path[|path| - 1])
  {
    NarFormIsAccepted(path);
    AcceptedIsVisible(path);
  }

  lemma PaddedIsTrimmed(before: string, path: string, after: string)
    requires AllWhite(before) && AllWhite(after)
    requires path != "" && !IsWhite(path[0]) && !IsWhite(path[|path| - 1])
    ensures Trim(before + path + after) == path
  {
    assert before + path + after == before + (path + after);
    TrimDropsStart(before, path + after);
    TrimDropsEnd(path, after);
  }

  /** A line that names a path, as the reader of lines gives it: perhaps without its carriage return. */
  predicate IsPadded(line: string, before: string, path: string, after: string) {
    || line == "URL:" + before + path + after
    || (after != "" && line == "URL:" + before + path + after[..|after| - 1])
  }

  lemma UrlLineOf(parts: seq<string>, k: nat, before: string, path: string, after: string)
    requires k < |parts| && parts[k] == "URL:" + before + path + after && path != "" && path[|path| - 1] != '\r'
    requires forall i :: 0 <= i < k ==> !HasPrefix(parts[i], URL)
    ensures IsUrlLine(LinesOf(parts), k) && IsPadded(LinesOf(parts)[k], before, path, after)
  {
    var lines, part := LinesOf(parts), parts[k];
    assert part != "" && (after == "" ==> part[|part| - 1] == path[|path| - 1]);
    if lines[k] != part {
      assert lines[k] == part[..|part| - 1] == "URL:" + before + path + after[..|after| - 1];
    }
    assert HasPrefix(lines[k], URL);
    forall j | 0 <= j < k
      ensures !HasPrefix(lines[j], URL)
    {
      assert lines[j] <= parts[j];
      assert !HasPrefix(parts[j], URL);
    }
  }

  lemma UrlTextNames(lines: seq<string>, k: nat, before: string, path: string, after: string)
    requires IsUrlLine(lines, k) && lines[k] == "URL:" + before + path + after && IsNarForm(path)
    requires AllWhite(before) && AllWhite(after)
    ensures FirstUrl(lines) == Ok(Some(path))
  {
    NarFormText(path);
    PaddedIsTrimmed(before, path, after);
    assert lines[k][|URL|..] == before + path + after;
    FirstUrlDecides(lines);
  }

  /** A narinfo names the NAR of its URL field, whatever fields surround it and however much white space. */
  lemma NarinfoNamesItsUrl(fields: seq<string>, before: string, path: string, after: string, more: seq<string>)
    requires IsNarForm(path) && NoneHas(fields, '\n') && NoneHas(more, '\n')
    requires AllWhite(before) && AllWhite(after) && '\n' !in before && '\n' !in after
    requires forall i :: 0 <= i < |fields| ==> !HasPrefix(fields[i], "URL:")
    ensures NarinfoNarPath(Some(Join(fields + ["URL:" + before + path + after] + more, '\n'))) == Ok(Some(path))
  {
    var line := "URL:" + before + path + after;
    var parts := fields + [line] + more;
    NarFormText(path);
    assert '\n' !in line && '\n' !in URL;
    JoinThenSplit(parts, '\n');
    UrlLineOf(parts, |fields|, before, path, after);
    if LinesOf(parts)[|fields|] == line {
      UrlTextNames(LinesOf(parts), |fields|, before, path, after);
    } else {
      UrlTextNames(LinesOf(parts), |fields|, before, path, after[..|after| - 1]);
    }
  }

  // ---------------------------------------------------------------- store paths

  predicate IsNameChar(c: char) {
    IsAlphanumeric(c) || c in "+-._?="
  }

  predicate ValidName(name: string) {
    name != "" && forall i :: 0 <= i < |name| ==> IsNameChar(name[i])
  }

  predicate ValidStorePath(path: string) {
    && HasPrefix(path, STORE_PREFIX)
    && (var rest := path[|STORE_PREFIX|..];
        var dash := IndexOf(rest, '-');
        dash < |rest| && ValidStem(rest[..dash]) && ValidName(rest[dash + 1..]))
  }

  function Hash(path: string): string
    requires ValidStorePath(path)
  {
    var rest := path[|STORE_PREFIX|..];
    rest[..IndexOf(rest, '-')]
  }

  lemma StorePathParts(path: string)
    requires ValidStorePath(path)
    ensures exists hash, name :: ValidStem(hash) && ValidName(name) && path == STORE_PREFIX + hash + "-" + name
  {
    var rest := path[|STORE_PREFIX|..];
    var dash := IndexOf(rest, '-');
    assert path == STORE_PREFIX + rest[..dash] + "-" + rest[dash + 1..];
  }

  lemma StorePathOf(hash: string, name: string)
    requires ValidStem(hash) && ValidName(name)
    ensures ValidStorePath(STORE_PREFIX + hash + "-" + name) && Hash(STORE_PREFIX + hash + "-" + name) == hash
  {
    var path := STORE_PREFIX + hash + "-" + name;
    var rest := path[|STORE_PREFIX|..];
    assert rest == hash + ['-'] + name;
    StemChars(hash);
    FirstSeparator(hash, name, '-');
    assert rest[..|hash|] == hash && rest[|hash| + 1..] == name;
  }

  /** A store path is the prefix, a hash, a dash and a name, and its hash is that hash. */
  lemma StorePathIff(path: string)
    ensures ValidStorePath(path) <==>
              exists hash, name :: ValidStem(hash) && ValidName(name) && path == STORE_PREFIX + hash + "-" + name
    ensures forall hash, name :: ValidStem(hash) && ValidName(name) && path == STORE_PREFIX + hash + "-" + name ==>
              ValidStorePath(path) && Hash(path) == hash
  {
    if ValidStorePath(path) {
      StorePathParts(path);
    }
    forall hash, name | ValidStem(hash) && ValidName(name) && path == STORE_PREFIX + hash + "-" + name
      ensures ValidStorePath(path) && Hash(path) == hash
    {
      StorePathOf(hash, name);
    }
  }

  predicate IsNamePlainChar(c: char) {
    'a' <= c <= 'z' || 'A' <= c <= 'Z' || '0' <= c <= '9'
    || c == '+' || c == '-' || c == '.' || c == '_' || c == '?' || c == '='
  }

  /** A store path character by character: its hash is what stands at 11 to 43. */
  predicate SpellsStorePath(path: string) {
    && |path| >= 45 && path[..11] == "/nix/store/" && (forall i :: 11 <= i < 43 ==> IsHashChar(path[i]))
    && path[43] == '-' && (forall i :: 44 <= i < |path| ==> IsNamePlainChar(path[i]))
  }

  lemma StorePathSpelling(path: string)
    ensures ValidStorePath(path) <==> SpellsStorePath(path)
    ensures ValidStorePath(path) ==> Hash(path) == path[11..43]
  {
    if ValidStorePath(path) {
      ValidStorePathIsSpelt(path);
    }
    if SpellsStorePath(path) {
      var hash, name := path[11..43], path[44..];
      forall i | 0 <= i < 32
        ensures hash[i] in NIX_BASE32
      {
        HashCharIff(path[11 + i]);
      }
      assert path == STORE_PREFIX + hash + "-" + name;
      StorePathOf(hash, name);
    }
  }

  lemma ValidStorePathIsSpelt(path: string)
    requires ValidStorePath(path)
    ensures SpellsStorePath(path) && Hash(path) == path[11..43]
  {
    var rest := path[|STORE_PREFIX|..];
    var hash := rest[..32];
    assert path == STORE_PREFIX + rest && rest[32] == '-' && ValidStem(hash);
    forall i | 11 <= i < 43
      ensures IsHashChar(path[i])
    {
      assert path[i] == hash[i - 11];
      HashCharIff(path[i]);
    }
    assert forall i :: 44 <= i < |path| ==> path[i] == rest[33..][i - 44];
  }

  /** `<hash>.narinfo`, the name the client asks for. */
  function NarinfoName(path: string): string
    requires ValidStorePath(path)
  {
    Hash(path) + NARINFO
  }

  predicate AllValid(paths: seq<string>) {
    forall i :: 0 <= i < |paths| ==> ValidStorePath(paths[i])
  }

  /** `collect` of key and value pairs into a map: the last value of a key wins. */
  function Collect(keys: seq<string>, values: seq<string>): map<string, string>
    requires |keys| == |values|
  {
    if keys == [] then map[]
    else
      var k := |keys| - 1;
      Collect(keys[..k], values[..k])[keys[k] := values[k]]
  }

  function Hashes(paths: seq<string>): (hashes: seq<string>)
    requires AllValid(paths)
    ensures |hashes| == |paths| && forall i :: 0 <= i < |paths| ==> hashes[i] == Hash(paths[i])
  {
    seq(|paths|, i requires 0 <= i < |paths| => Hash(paths[i]))
  }

  function ByHash(paths: seq<string>): map<string, string>
    requires AllValid(paths)
  {
    Collect(Hashes(paths), paths)
  }

  /** The path that a narinfo request is for; the outer result is the program's error. */
  function Lookup(name: string, allowed: map<string, string>): Result<Option<string>, CacheError> {
    if !HasSuffix(name, NARINFO) || '/' in name then Err(InvalidNarinfo)
    else
      var hash := name[..|name| - |NARINFO|];
      Ok(if hash in allowed then Some(allowed[hash]) else None)
  }

  predicate IsLastAt(keys: seq<string>, k: nat, key: string) {
    k < |keys| && keys[k] == key && forall j :: k < j < |keys| ==> keys[j] != key
  }

  lemma {:induction false} CollectedIsLast(keys: seq<string>, values: seq<string>, key: string)
    requires |keys| == |values|
    ensures key in Collect(keys, values) <==> key in keys
    ensures forall k :: 0 <= k < |keys| && IsLastAt(keys, k, key) ==>
              key in Collect(keys, values) && Collect(keys, values)[key] == values[k]
    decreases |keys|
  {
    if keys != [] {
      var n := |keys| - 1;
      CollectedIsLast(keys[..n], values[..n], key);
      assert keys == keys[..n] + [keys[n]];
      forall k | 0 <= k < |keys| && IsLastAt(keys, k, key) && k < n
        ensures IsLastAt(keys[..n], k, key)
      {
      }
    }
  }

  predicate DistinctHashes(paths: seq<string>)
    requires AllValid(paths)
  {
    forall i, j :: 0 <= i < j < |paths| ==> Hashes(paths)[i] != Hashes(paths)[j]
  }

  /** A lookup finds the last path with the hash, and nothing exactly if there is none. */
  lemma LookupFindsLast(paths: seq<string>, hash: string)
    requires AllValid(paths) && ValidStem(hash)
    ensures Lookup(hash + NARINFO, ByHash(paths)) == Ok(None) <==> hash !in Hashes(paths)
    ensures forall k :: 0 <= k < |paths| && IsLastAt(Hashes(paths), k, hash) ==>
              Lookup(hash + NARINFO, ByHash(paths)) == Ok(Some(paths[k]))
  {
    NarinfoSuffix(hash);
    NarinfoFormIsAccepted(hash);
    CollectedIsLast(Hashes(paths), paths, hash);
  }

  lemma HashIsStem(path: string)
    requires ValidStorePath(path)
    ensures ValidStem(Hash(path))
  {
  }

  /** Every name the client asks for is accepted, and asks for the path it was made from if hashes are distinct. */
  lemma NarinfoNameFindsPath(paths: seq<string>, k: nat)
    requires AllValid(paths) && k < |paths|
    ensures Sanitize(NarinfoName(paths[k])) == Ok(NarinfoName(paths[k]))
    ensures DistinctHashes(paths) ==> Lookup(NarinfoName(paths[k]), ByHash(paths)) == Ok(Some(paths[k]))
  {
    var hash := Hashes(paths)[k];
    HashIsStem(paths[k]);
    NarinfoFormIsAccepted(hash);
    LookupFindsLast(paths, hash);
    if DistinctHashes(paths) {
      assert IsLastAt(Hashes(paths), k, hash);
    }
  }

  // ---------------------------------------------------------------- dispatch in the file handler

  datatype Route = ToCacheInfo | ToNarinfo | ToNar | ToNothing

  /** The branches of the handler, in its order. */
  function RouteOf(path: string): Route {
    if path == CACHE_INFO then ToCacheInfo
    else if HasSuffix(path, NARINFO) then ToNarinfo
    else if HasPrefix(path, NAR_DIR) then ToNar
    else ToNothing
  }

  /** An accepted path is routed by its form: the handler's last error and the lookup's errors are unreachable. */
  lemma RouteIsForm(path: string, allowed: map<string, string>)
    requires Sanitize(path).Ok?
    ensures RouteOf(path) != ToNothing
    ensures RouteOf(path) == ToCacheInfo <==> path == CACHE_INFO
    ensures RouteOf(path) == ToNarinfo <==> IsNarinfoForm(path)
    ensures RouteOf(path) == ToNar <==> IsNarForm(path)
    ensures RouteOf(path) == ToNarinfo ==> Lookup(path, allowed).Ok?
  {
    AcceptedIffOneForm(path);
    NarFormsAreUnderNar(path);
    if IsNarinfoForm(path) {
      var hash :| ValidStem(hash) && path == hash + NARINFO;
      assert path[|hash|..] == NARINFO;
      NarinfoFormIsAccepted(hash);
      assert HasSuffix(path, NARINFO);
    }
  }
}
