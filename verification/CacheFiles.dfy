/** The files of the output cache, as far as the readiness check of server/output_cache.rs looks at them. */
module CacheFiles {
  type Hash = string
  type NarPath = string

  datatype Url = NoUrl | BadUrl | NarUrl(path: NarPath)

  /** The contents of a narinfo file as far as the readiness check looks at them. */
  datatype NarInfo = NotText | Text(signed: bool, url: Url)

  datatype Files = Files(narinfos: map<Hash, NarInfo>, nars: set<NarPath>)

  /** What reading the narinfo of an entry tells a probe. */
  datatype Reading = Unready | Broken | Names(nar: NarPath)

  /** The checks of cache_entry_ready on the narinfo, in the order in which the code makes them. */
  function ReadEntry(files: Files, hash: Hash): Reading {
    if hash !in files.narinfos then Unready
    else match files.narinfos[hash]
      case NotText => Broken
      case Text(signed, url) =>
        if !signed then Unready
        else match url
          case NoUrl => Unready
          case BadUrl => Broken
          case NarUrl(path) => Names(path)
  }

  datatype Found = Ready | NotReady | ProbeFailed

  /** What a probe finds if nothing changes between its two steps. */
  function ProbeEntry(files: Files, hash: Hash): Found {
    match ReadEntry(files, hash)
    case Unready => NotReady
    case Broken => ProbeFailed
    case Names(nar) => if nar in files.nars then Ready else NotReady
  }

  predicate IsReady(files: Files, hash: Hash) {
    ProbeEntry(files, hash) == Ready
  }

  /** The three cases of a probe, by what is in the narinfo file. */
  lemma ProbeCases(files: Files, hash: Hash)
    ensures IsReady(files, hash) <==>
              hash in files.narinfos
              && exists nar :: files.narinfos[hash] == Text(true, NarUrl(nar)) && nar in files.nars
    ensures ProbeEntry(files, hash) == ProbeFailed <==>
              hash in files.narinfos && (files.narinfos[hash] == NotText || files.narinfos[hash] == Text(true, BadUrl))
    ensures forall nar :: ReadEntry(files, hash) == Names(nar) <==>
              hash in files.narinfos && files.narinfos[hash] == Text(true, NarUrl(nar))
  {
  }

  predicate SameEntry(files: Files, files': Files, hash: Hash) {
    && (hash in files.narinfos <==> hash in files'.narinfos)
    && (hash in files.narinfos ==> files'.narinfos[hash] == files.narinfos[hash])
  }

  /** An entry for which some caller got Ok: if it has a narinfo, then that one's NAR is there. */
  predicate SafeAfterOk(files: Files, hash: Hash) {
    hash !in files.narinfos || IsReady(files, hash)
  }
}
