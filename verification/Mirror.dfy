/**
  The client's mirror of a build's output closure (client_cache/mirror.rs) against the server's file handlers
  (server/output_cache.rs): one metadata task per closure path under 64 permits, one payload task per NAR of a path
  to copy, spawned as the metadata results come in, under its own permits.

  Between two steps the server's cache changes as fills of any sessions can change it: NARs stay, and an entry that
  has either no narinfo or one whose NAR is there keeps to that.  Whoever was told that an entry is ready can count
  on no more, for the narinfo may be gone again when it is read.
 */
module Mirror {
  import opened Protocol
  import opened CacheFiles

  const MAX_PARALLEL_METADATA_FETCHES: nat := 64

  /**
    The hashes of the closure that the client was sent, one metadata task each; those whose NAR is to be copied; and
    those that the handlers serve.
   */
  datatype Setup = Setup(hashes: seq<Hash>, copies: set<Hash>, served: set<Hash>, narFetches: nat)

  /** The handlers serve the closure that the client was sent. */
  predicate Honest(p: Setup) {
    forall i :: 0 <= i < |p.hashes| ==> p.hashes[i] in p.served
  }

  /** What fills keep. */
  ghost predicate Keeps(files: Files, files': Files) {
    files.nars <= files'.nars && forall hash :: SafeAfterOk(files, hash) ==> SafeAfterOk(files', hash)
  }

  datatype Meta =
    | MetaQueued
    | MetaAsked                    // the request is on its way to the handler
    | MetaEnsured                  // the handler was told that the entry is ready
    | MetaAdmitted(info: NarInfo)  // the handler has read the narinfo and allowed its NAR
    | MetaFetched(info: NarInfo)   // the client has the whole narinfo
    | MetaDone(result: Option<NarPath>)
    | MetaJoined
    | MetaFailed
    | MetaNotFound

  datatype PayPhase = PayQueued | PayAsked | PayOpening | PayFetched | PayDone | PayJoined | PayFailed | PayNotFound

  datatype Pay = Pay(nar: NarPath, phase: PayPhase)

  datatype Main = Collecting | Draining | Succeeded | Errored

  /** The server's files and the NARs it has allowed; the tasks; and the client's own files. */
  datatype State = State(files: Files, allowed: set<NarPath>, metas: seq<Meta>, pays: seq<Pay>, main: Main,
                         narinfos: map<Hash, NarInfo>, nars: set<NarPath>, metaPermits: nat, payPermits: nat)

  function Init(p: Setup, files: Files): State {
    State(files, {}, seq(|p.hashes|, _ => MetaQueued), [], Collecting, map[], {},
          MAX_PARALLEL_METADATA_FETCHES, p.narFetches)
  }

  datatype Step =
    | FilesChange(files: Files)
    | AskMeta(i: nat)
    | EnsureMeta(i: nat)
    | AdmitMeta(i: nat)
    | FetchMeta(i: nat)
    | WriteMeta(i: nat)
    | FailMeta(i: nat)
    | JoinMeta(i: nat)
    | EndCollecting
    | AskPay(k: nat)
    | AllowPay(k: nat)
    | FetchPay(k: nat)
    | WritePay(k: nat)
    | FailPay(k: nat)
    | JoinPay(k: nat)
    | EndDraining

  predicate MetaHolds(m: Meta) {
    m.MetaAsked? || m.MetaEnsured? || m.MetaAdmitted? || m.MetaFetched?
  }

  predicate PayHolds(pay: Pay) {
    pay.phase in {PayAsked, PayOpening, PayFetched}
  }

  function SetMeta(s: State, i: nat, m: Meta): State
    requires i < |s.metas|
  {
    s.(metas := s.metas[i := m])
  }

  /** A metadata task ends: its permit is free again. */
  function EndMeta(s: State, i: nat, m: Meta): State
    requires i < |s.metas|
  {
    SetMeta(s, i, m).(metaPermits := s.metaPermits + 1)
  }

  function SetPay(s: State, k: nat, phase: PayPhase): State
    requires k < |s.pays|
  {
    s.(pays := s.pays[k := s.pays[k].(phase := phase)])
  }

  function EndPay(s: State, k: nat, phase: PayPhase): State
    requires k < |s.pays|
  {
    SetPay(s, k, phase).(payPermits := s.payPermits + 1)
  }

  predicate Running(s: State) {
    s.main.Collecting? || s.main.Draining?
  }

  /** The NAR that a narinfo names, or the error of one that does not parse. */
  function NarOf(info: NarInfo): Result<Option<NarPath>, ()> {
    match info
    case NotText => Err(())
    case Text(_, NoUrl) => Ok(None)
    case Text(_, BadUrl) => Err(())
    case Text(_, NarUrl(nar)) => Ok(Some(nar))
  }

  /** The handler parses the narinfo and allows its NAR before it sends a byte of it. */
  function Admit(s: State, i: nat, hash: Hash): State
    requires i < |s.metas|
  {
    if hash !in s.files.narinfos then EndMeta(s, i, MetaFailed)
    else
      var info := s.files.narinfos[hash];
      match NarOf(info)
      case Err(_) => EndMeta(s, i, MetaFailed)
      case Ok(None) => SetMeta(s, i, MetaAdmitted(info))
      case Ok(Some(nar)) => SetMeta(s, i, MetaAdmitted(info)).(allowed := s.allowed + {nar})
  }

  /** The client writes the narinfo and, for a path to copy, parses it in its turn. */
  function Keep(p: Setup, s: State, i: nat, hash: Hash, info: NarInfo): State
    requires i < |s.metas|
  {
    var kept := s.(narinfos := s.narinfos[hash := info]);
    if hash !in p.copies then EndMeta(kept, i, MetaDone(None))
    else match NarOf(info)
      case Err(_) => EndMeta(kept, i, MetaFailed)
      case Ok(nar) => EndMeta(kept, i, MetaDone(nar))
  }

  function NextMeta(p: Setup, s: State, step: Step): Option<State>
    requires |s.metas| == |p.hashes|
  {
    match step
    case AskMeta(i) =>
      if i < |s.metas| && s.metas[i].MetaQueued? && s.metaPermits > 0 then
        Some(SetMeta(s, i, MetaAsked).(metaPermits := s.metaPermits - 1))
      else None
    case EnsureMeta(i) =>
      // The handler looks the hash up in the closure and is told that the entry is ready.
      if i >= |s.metas| || !s.metas[i].MetaAsked? then None
      else if p.hashes[i] !in p.served then Some(EndMeta(s, i, MetaNotFound))
      else if SafeAfterOk(s.files, p.hashes[i]) then Some(SetMeta(s, i, MetaEnsured))
      else None
    case AdmitMeta(i) => if i < |s.metas| && s.metas[i].MetaEnsured? then Some(Admit(s, i, p.hashes[i])) else None
    case FetchMeta(i) =>
      if i < |s.metas| && s.metas[i].MetaAdmitted? then Some(SetMeta(s, i, MetaFetched(s.metas[i].info))) else None
    case WriteMeta(i) =>
      if i < |s.metas| && s.metas[i].MetaFetched? then Some(Keep(p, s, i, p.hashes[i], s.metas[i].info)) else None
    case FailMeta(i) => if i < |s.metas| && MetaHolds(s.metas[i]) then Some(EndMeta(s, i, MetaFailed)) else None
    case JoinMeta(i) =>
      if i >= |s.metas| || !s.main.Collecting? then None
      else if s.metas[i].MetaDone? then
        Some(SetMeta(s, i, MetaJoined).(
               pays := match s.metas[i].result
                       case None => s.pays
                       case Some(nar) => s.pays + [Pay(nar, PayQueued)]))
      else if s.metas[i].MetaFailed? || s.metas[i].MetaNotFound? then Some(s.(main := Errored))
      else None
    case EndCollecting =>
      if s.main.Collecting? && (forall i :: 0 <= i < |s.metas| ==> s.metas[i].MetaJoined?) then
        Some(s.(main := Draining))
      else None
    case _ => None
  }

  function NextPay(p: Setup, s: State, step: Step): Option<State> {
    match step
    case AskPay(k) =>
      if k < |s.pays| && s.pays[k].phase.PayQueued? && s.payPermits > 0 then
        Some(SetPay(s, k, PayAsked).(payPermits := s.payPermits - 1))
      else None
    case AllowPay(k) =>
      if k >= |s.pays| || !s.pays[k].phase.PayAsked? then None
      else if s.pays[k].nar in s.allowed then Some(SetPay(s, k, PayOpening))
      else Some(EndPay(s, k, PayNotFound))
    case FetchPay(k) =>
      if k >= |s.pays| || !s.pays[k].phase.PayOpening? then None
      else if s.pays[k].nar in s.files.nars then Some(SetPay(s, k, PayFetched))
      else Some(EndPay(s, k, PayNotFound))
    case WritePay(k) =>
      if k < |s.pays| && s.pays[k].phase.PayFetched? then
        Some(EndPay(s, k, PayDone).(nars := s.nars + {s.pays[k].nar}))
      else None
    case FailPay(k) => if k < |s.pays| && PayHolds(s.pays[k]) then Some(EndPay(s, k, PayFailed)) else None
    case JoinPay(k) =>
      if k >= |s.pays| || !s.main.Draining? then None
      else if s.pays[k].phase.PayDone? then Some(SetPay(s, k, PayJoined))
      else if s.pays[k].phase.PayFailed? || s.pays[k].phase.PayNotFound? then Some(s.(main := Errored))
      else None
    case EndDraining =>
      if s.main.Draining? && (forall k :: 0 <= k < |s.pays| ==> s.pays[k].phase.PayJoined?) then
        Some(s.(main := Succeeded))
      else None
    case _ => None
  }

  predicate IsMetaStep(step: Step) {
    step.AskMeta? || step.EnsureMeta? || step.AdmitMeta? || step.FetchMeta? || step.WriteMeta? || step.FailMeta?
    || step.JoinMeta? || step.EndCollecting?
  }

  ghost function Next(p: Setup, s: State, step: Step): Option<State> {
    if |s.metas| != |p.hashes| then None
    else if step.FilesChange? then
      if Keeps(s.files, step.files) then Some(s.(files := step.files)) else None
    else if !Running(s) then None
    else if IsMetaStep(step) then NextMeta(p, s, step)
    else NextPay(p, s, step)
  }

  // ---------------------------------------------------------------- the invariant

  ghost predicate Requested(s: State, nar: NarPath) {
    exists k :: 0 <= k < |s.pays| && s.pays[k].nar == nar
  }

  /** A narinfo that the handler has admitted. */
  predicate Vetted(s: State, info: NarInfo) {
    info.Text? && info.signed && info.url.NarUrl? && info.url.path in s.allowed
  }

  ghost predicate MetaOk(p: Setup, s: State, i: nat)
    requires i < |s.metas| == |p.hashes|
  {
    var hash := p.hashes[i];
    match s.metas[i]
    case MetaEnsured => SafeAfterOk(s.files, hash)
    case MetaAdmitted(info) => Vetted(s, info)
    case MetaFetched(info) => Vetted(s, info)
    case MetaDone(result) =>
      && hash in s.narinfos && (result.Some? <==> hash in p.copies)
      && (result.Some? ==> result.value in s.allowed)
    case MetaJoined => hash in s.narinfos
    case MetaNotFound => false
    case _ => true
  }

  /** This task has the NAR of the client's narinfo for its hash still to hand on. */
  predicate HandsOn(p: Setup, s: State, i: nat, hash: Hash, nar: NarPath)
    requires |s.metas| == |p.hashes|
  {
    i < |s.metas| && p.hashes[i] == hash && s.metas[i] == MetaDone(Some(nar))
  }

  /** What the client has written: an admitted narinfo, and its NAR is requested if it is to be copied. */
  ghost predicate WrittenOk(p: Setup, s: State, hash: Hash)
    requires |s.metas| == |p.hashes|
  {
    hash in s.narinfos ==>
      && Vetted(s, s.narinfos[hash])
      && (hash in p.copies ==>
            var nar := s.narinfos[hash].url.path;
            Requested(s, nar) || exists i: nat :: HandsOn(p, s, i, hash, nar))
  }

  ghost predicate PayOk(s: State, k: nat)
    requires k < |s.pays|
  {
    && s.pays[k].nar in s.allowed
    && !s.pays[k].phase.PayNotFound?
    && (s.pays[k].phase.PayDone? || s.pays[k].phase.PayJoined? ==> s.pays[k].nar in s.nars)
  }

  function MetasHolding(metas: seq<Meta>): nat {
    if metas == [] then 0 else (if MetaHolds(metas[0]) then 1 else 0) + MetasHolding(metas[1..])
  }

  function PaysHolding(pays: seq<Pay>): nat {
    if pays == [] then 0 else (if PayHolds(pays[0]) then 1 else 0) + PaysHolding(pays[1..])
  }

  ghost predicate MetasOk(p: Setup, s: State)
    requires |s.metas| == |p.hashes|
  {
    forall i :: 0 <= i < |s.metas| ==> MetaOk(p, s, i)
  }

  ghost predicate PaysOk(s: State) {
    forall k :: 0 <= k < |s.pays| ==> PayOk(s, k)
  }

  ghost predicate MirrorOk(p: Setup, s: State)
    requires |s.metas| == |p.hashes|
  {
    forall hash :: WrittenOk(p, s, hash)
  }

  ghost predicate TasksOk(p: Setup, s: State)
    requires |s.metas| == |p.hashes|
  {
    MetasOk(p, s) && PaysOk(s) && MirrorOk(p, s) && s.allowed <= s.files.nars
  }

  ghost predicate PermitsOk(p: Setup, s: State) {
    && s.metaPermits + MetasHolding(s.metas) == MAX_PARALLEL_METADATA_FETCHES
    && s.payPermits + PaysHolding(s.pays) == p.narFetches
  }

  ghost predicate MainOk(s: State) {
    && (s.main.Draining? || s.main.Succeeded? ==> forall i :: 0 <= i < |s.metas| ==> s.metas[i].MetaJoined?)
    && (s.main.Succeeded? ==> forall k :: 0 <= k < |s.pays| ==> s.pays[k].phase.PayJoined?)
  }

  ghost predicate Inv(p: Setup, s: State) {
    |s.metas| == |p.hashes| && TasksOk(p, s) && PermitsOk(p, s) && MainOk(s)
  }

  // ---------------------------------------------------------------- every step keeps it

  /** What never changes back: NARs, admitted NARs, and the NARs of payload tasks. */
  ghost predicate Grows(s: State, s': State) {
    && Keeps(s.files, s'.files) && s.allowed <= s'.allowed && s.nars <= s'.nars
    && s.narinfos.Keys <= s'.narinfos.Keys && |s.pays| <= |s'.pays|
    && (forall k :: 0 <= k < |s.pays| ==> s'.pays[k].nar == s.pays[k].nar)
  }

  lemma RequestedGrows(s: State, s': State, nar: NarPath)
    requires Grows(s, s') && Requested(s, nar)
    ensures Requested(s', nar)
  {
    var k :| 0 <= k < |s.pays| && s.pays[k].nar == nar;
    assert s'.pays[k].nar == nar;
  }

  lemma MetaGrows(p: Setup, s: State, s': State, i: nat)
    requires i < |s.metas| == |s'.metas| == |p.hashes| && s'.metas[i] == s.metas[i]
    requires Grows(s, s') && MetaOk(p, s, i)
    ensures MetaOk(p, s', i)
  {
  }

  lemma WrittenGrows(p: Setup, s: State, s': State, hash: Hash)
    requires |s.metas| == |s'.metas| == |p.hashes| && Grows(s, s') && WrittenOk(p, s, hash)
    requires hash in s.narinfos && s'.narinfos[hash] == s.narinfos[hash]
    requires forall i: nat :: HandsOn(p, s, i, hash, s.narinfos[hash].url.path) && s'.metas[i] != s.metas[i] ==>
               Requested(s', s.narinfos[hash].url.path)
    ensures WrittenOk(p, s', hash)
  {
    if hash in p.copies {
      var nar := s.narinfos[hash].url.path;
      if Requested(s, nar) {
        RequestedGrows(s, s', nar);
      } else {
        var i: nat :| HandsOn(p, s, i, hash, nar);
        if s'.metas[i] == s.metas[i] { assert HandsOn(p, s', i, hash, nar); }
      }
    }
  }

  /** All other tasks are as they were: it is enough to look at what one step touched. */
  lemma UntouchedStaysOk(p: Setup, s: State, s': State)
    requires Inv(p, s) && Grows(s, s') && |s'.metas| == |p.hashes| && s'.allowed <= s'.files.nars
    requires forall i :: 0 <= i < |s.metas| && s'.metas[i] != s.metas[i] ==> MetaOk(p, s', i)
    requires forall k :: 0 <= k < |s'.pays| && (k >= |s.pays| || s'.pays[k] != s.pays[k]) ==> PayOk(s', k)
    requires MirrorOk(p, s')
    ensures TasksOk(p, s')
  {
    forall i | 0 <= i < |s'.metas|
      ensures MetaOk(p, s', i)
    {
      if s'.metas[i] == s.metas[i] {
        assert MetaOk(p, s, i);
        MetaGrows(p, s, s', i);
      }
    }
    forall k | 0 <= k < |s'.pays|
      ensures PayOk(s', k)
    {
      if k < |s.pays| && s'.pays[k] == s.pays[k] {
        assert PayOk(s, k);
      }
    }
  }

  /** As long as no task that has a NAR to hand on moves, what the client has written stays right. */
  lemma WrittenStays(p: Setup, s: State, s': State)
    requires |s.metas| == |s'.metas| == |p.hashes| && MirrorOk(p, s) && Grows(s, s') && s'.narinfos == s.narinfos
    requires forall i :: 0 <= i < |s.metas| && s'.metas[i] != s.metas[i] ==> !s.metas[i].MetaDone?
    ensures MirrorOk(p, s')
  {
    forall hash
      ensures WrittenOk(p, s', hash)
    {
      assert WrittenOk(p, s, hash);
      if hash in s.narinfos {
        WrittenGrows(p, s, s', hash);
      }
    }
  }

  lemma {:induction false} MetasHoldingUpdate(metas: seq<Meta>, i: nat, m: Meta)
    requires i < |metas|
    ensures MetasHolding(metas[i := m]) + (if MetaHolds(metas[i]) then 1 else 0) ==
            MetasHolding(metas) + (if MetaHolds(m) then 1 else 0)
  {
    if i > 0 {
      assert metas[i := m][1..] == metas[1..][i - 1 := m];
      MetasHoldingUpdate(metas[1..], i - 1, m);
    } else {
      assert metas[i := m][1..] == metas[1..];
    }
  }

  lemma {:induction false} PaysHoldingUpdate(pays: seq<Pay>, k: nat, pay: Pay)
    requires k < |pays|
    ensures PaysHolding(pays[k := pay]) + (if PayHolds(pays[k]) then 1 else 0) ==
            PaysHolding(pays) + (if PayHolds(pay) then 1 else 0)
  {
    if k > 0 {
      assert pays[k := pay][1..] == pays[1..][k - 1 := pay];
      PaysHoldingUpdate(pays[1..], k - 1, pay);
    } else {
      assert pays[k := pay][1..] == pays[1..];
    }
  }

  lemma {:induction false} PaysHoldingAppend(pays: seq<Pay>, pay: Pay)
    requires !PayHolds(pay)
    ensures PaysHolding(pays + [pay]) == PaysHolding(pays)
  {
    if pays == [] {
      assert [pay][1..] == [];
    } else {
      assert (pays + [pay])[1..] == pays[1..] + [pay];
      PaysHoldingAppend(pays[1..], pay);
    }
  }

  lemma MetaStepKeepsTasks(p: Setup, s: State, step: Step, s': State)
    requires Honest(p) && Inv(p, s) && Running(s) && NextMeta(p, s, step) == Some(s')
    requires step.AskMeta? || step.EnsureMeta? || step.AdmitMeta? || step.FetchMeta? || step.FailMeta?
    ensures TasksOk(p, s')
  {
    assert MetaOk(p, s, step.i);
    assert MetaOk(p, s', step.i);
    WrittenStays(p, s, s');
    UntouchedStaysOk(p, s, s');
  }

  lemma WriteMetaKeepsTasks(p: Setup, s: State, step: Step, s': State)
    requires Inv(p, s) && Running(s) && NextMeta(p, s, step) == Some(s') && step.WriteMeta?
    ensures TasksOk(p, s')
  {
    var own := p.hashes[step.i];
    assert MetaOk(p, s, step.i);
    forall hash
      ensures WrittenOk(p, s', hash)
    {
      assert WrittenOk(p, s, hash);
      if hash == own {
        assert hash in p.copies ==> HandsOn(p, s', step.i, hash, s'.narinfos[hash].url.path);
      } else if hash in s.narinfos {
        WrittenGrows(p, s, s', hash);
      }
    }
    UntouchedStaysOk(p, s, s');
  }

  lemma JoinMetaKeepsTasks(p: Setup, s: State, step: Step, s': State)
    requires Inv(p, s) && Running(s) && NextMeta(p, s, step) == Some(s') && step.JoinMeta? && s.metas[step.i].MetaDone?
    ensures TasksOk(p, s')
  {
    assert MetaOk(p, s, step.i);
    if s.metas[step.i].result.Some? {
      assert s'.pays[|s.pays|].nar == s.metas[step.i].result.value;
      assert Requested(s', s.metas[step.i].result.value);
    }
    forall hash
      ensures WrittenOk(p, s', hash)
    {
      assert WrittenOk(p, s, hash);
      if hash in s.narinfos {
        WrittenGrows(p, s, s', hash);
      }
    }
    UntouchedStaysOk(p, s, s');
  }

  lemma PayStepKeepsTasks(p: Setup, s: State, step: Step, s': State)
    requires Inv(p, s) && Running(s) && NextPay(p, s, step) == Some(s')
    requires step.AskPay? || step.AllowPay? || step.FetchPay? || step.WritePay? || step.FailPay?
             || (step.JoinPay? && s.pays[step.k].phase.PayDone?)
    ensures TasksOk(p, s')
  {
    assert PayOk(s, step.k);
    WrittenStays(p, s, s');
    UntouchedStaysOk(p, s, s');
  }

  function MetaWeight(m: Meta): nat {
    match m
    case MetaQueued => 11
    case MetaAsked => 10
    case MetaEnsured => 9
    case MetaAdmitted(_) => 8
    case MetaFetched(_) => 7
    case MetaDone(_) => 6
    case _ => 0
  }

  function One(b: bool): nat {
    if b then 1 else 0
  }

  /** A metadata step moves one task on, and the permits follow it. */
  lemma OneMetaMoves(p: Setup, s: State, step: Step, s': State)
    requires |s.metas| == |p.hashes| && NextMeta(p, s, step) == Some(s') && !step.EndCollecting? && !step.JoinMeta?
    ensures step.i < |s.metas| == |s'.metas| && s'.metas == s.metas[step.i := s'.metas[step.i]]
    ensures MetaWeight(s'.metas[step.i]) < MetaWeight(s.metas[step.i])
    ensures s'.metaPermits + One(MetaHolds(s'.metas[step.i])) == s.metaPermits + One(MetaHolds(s.metas[step.i]))
    ensures s'.pays == s.pays && s'.main == s.main && s'.payPermits == s.payPermits
  {
  }

  lemma JoinMoves(p: Setup, s: State, step: Step, s': State)
    requires |s.metas| == |p.hashes| && NextMeta(p, s, step) == Some(s') && step.JoinMeta? && s.metas[step.i].MetaDone?
    ensures s'.metas == s.metas[step.i := MetaJoined] && s'.main == s.main
    ensures s'.metaPermits == s.metaPermits && s'.payPermits == s.payPermits
    ensures s'.pays == s.pays || exists nar :: s'.pays == s.pays + [Pay(nar, PayQueued)]
  {
  }

  lemma MetaStepKeepsPermits(p: Setup, s: State, step: Step, s': State)
    requires Inv(p, s) && Running(s) && NextMeta(p, s, step) == Some(s')
    ensures PermitsOk(p, s') && |s'.metas| == |p.hashes|
  {
    if step.JoinMeta? && s.metas[step.i].MetaDone? {
      JoinMoves(p, s, step, s');
      MetasHoldingUpdate(s.metas, step.i, MetaJoined);
      if nar :| s'.pays == s.pays + [Pay(nar, PayQueued)] {
        PaysHoldingAppend(s.pays, Pay(nar, PayQueued));
      }
    } else if !step.EndCollecting? && !step.JoinMeta? {
      OneMetaMoves(p, s, step, s');
      MetasHoldingUpdate(s.metas, step.i, s'.metas[step.i]);
    }
  }

  lemma PayStepKeepsPermits(p: Setup, s: State, step: Step, s': State)
    requires Inv(p, s) && Running(s) && NextPay(p, s, step) == Some(s')
    ensures PermitsOk(p, s') && |s'.metas| == |p.hashes|
  {
    if !step.EndDraining? {
      PaysHoldingUpdate(s.pays, step.k, s'.pays[step.k]);
    }
  }

  lemma MetaStepKeepsMain(p: Setup, s: State, step: Step, s': State)
    requires Inv(p, s) && Running(s) && NextMeta(p, s, step) == Some(s')
    ensures MainOk(s')
  {
  }

  lemma PayStepKeepsMain(p: Setup, s: State, step: Step, s': State)
    requires Inv(p, s) && Running(s) && NextPay(p, s, step) == Some(s')
    ensures MainOk(s')
  {
  }

  lemma MainOnlyKeepsTasks(p: Setup, s: State, s': State)
    requires Inv(p, s) && s' == s.(main := s'.main)
    ensures TasksOk(p, s')
  {
    WrittenStays(p, s, s');
    UntouchedStaysOk(p, s, s');
  }

  lemma FilesChangeKeepsInv(p: Setup, s: State, files: Files)
    requires Inv(p, s) && Keeps(s.files, files)
    ensures Inv(p, s.(files := files))
  {
    WrittenStays(p, s, s.(files := files));
    UntouchedStaysOk(p, s, s.(files := files));
  }

  lemma MetaStepKeepsInv(p: Setup, s: State, step: Step, s': State)
    requires Honest(p) && Inv(p, s) && Running(s) && NextMeta(p, s, step) == Some(s')
    ensures Inv(p, s')
  {
    MetaStepKeepsPermits(p, s, step, s');
    MetaStepKeepsMain(p, s, step, s');
    if step.WriteMeta? {
      WriteMetaKeepsTasks(p, s, step, s');
    } else if step.EndCollecting? || (step.JoinMeta? && !s.metas[step.i].MetaDone?) {
      MainOnlyKeepsTasks(p, s, s');
    } else if step.JoinMeta? {
      JoinMetaKeepsTasks(p, s, step, s');
    } else {
      MetaStepKeepsTasks(p, s, step, s');
    }
  }

  lemma PayStepKeepsInv(p: Setup, s: State, step: Step, s': State)
    requires Inv(p, s) && Running(s) && NextPay(p, s, step) == Some(s')
    ensures Inv(p, s')
  {
    PayStepKeepsPermits(p, s, step, s');
    PayStepKeepsMain(p, s, step, s');
    if step.EndDraining? || (step.JoinPay? && !s.pays[step.k].phase.PayDone?) {
      MainOnlyKeepsTasks(p, s, s');
    } else {
      PayStepKeepsTasks(p, s, step, s');
    }
  }

  lemma StepKeepsInv(p: Setup, s: State, step: Step, s': State)
    requires Honest(p) && Inv(p, s) && Next(p, s, step) == Some(s')
    ensures Inv(p, s')
  {
    if step.FilesChange? {
      FilesChangeKeepsInv(p, s, step.files);
    } else if IsMetaStep(step) {
      MetaStepKeepsInv(p, s, step, s');
    } else {
      PayStepKeepsInv(p, s, step, s');
    }
  }

  lemma {:induction false} NoneHolds(metas: seq<Meta>)
    requires forall i :: 0 <= i < |metas| ==> metas[i].MetaQueued?
    ensures MetasHolding(metas) == 0
  {
    if metas != [] {
      NoneHolds(metas[1..]);
    }
  }

  lemma InitInv(p: Setup, files: Files)
    ensures Inv(p, Init(p, files))
  {
    NoneHolds(Init(p, files).metas);
  }

  // ---------------------------------------------------------------- every run

  ghost function Exec(p: Setup, s: State, run: seq<Step>): Option<State>
    decreases |run|
  {
    if run == [] then Some(s)
    else match Next(p, s, run[0])
      case None => None
      case Some(s') => Exec(p, s', run[1..])
  }

  lemma {:induction false} RunKeepsInv(p: Setup, s: State, run: seq<Step>)
    requires Honest(p) && Inv(p, s) && Exec(p, s, run).Some?
    ensures Inv(p, Exec(p, s, run).value)
    decreases |run|
  {
    if run != [] {
      StepKeepsInv(p, s, run[0], Next(p, s, run[0]).value);
      RunKeepsInv(p, Next(p, s, run[0]).value, run[1..]);
    }
  }

  lemma ReachableInv(p: Setup, files: Files, run: seq<Step>)
    requires Honest(p) && Exec(p, Init(p, files), run).Some?
    ensures Inv(p, Exec(p, Init(p, files), run).value)
  {
    InitInv(p, files);
    RunKeepsInv(p, Init(p, files), run);
  }

  /** No request of an honest mirror is ever answered `found = false`. */
  lemma NothingIsNotFound(p: Setup, files: Files, run: seq<Step>)
    requires Honest(p) && Exec(p, Init(p, files), run).Some?
    ensures var s := Exec(p, Init(p, files), run).value;
            && (forall i :: 0 <= i < |s.metas| ==> !s.metas[i].MetaNotFound?)
            && (forall k :: 0 <= k < |s.pays| ==> !s.pays[k].phase.PayNotFound?)
  {
    ReachableInv(p, files, run);
    var s := Exec(p, Init(p, files), run).value;
    forall i | 0 <= i < |s.metas|
      ensures !s.metas[i].MetaNotFound?
    {
      assert MetaOk(p, s, i);
    }
    forall k | 0 <= k < |s.pays|
      ensures !s.pays[k].phase.PayNotFound?
    {
      assert PayOk(s, k);
    }
  }

  /** At most 64 metadata fetches and `narFetches` payload fetches are in flight. */
  lemma FetchesAreBounded(p: Setup, files: Files, run: seq<Step>)
    requires Honest(p) && Exec(p, Init(p, files), run).Some?
    ensures var s := Exec(p, Init(p, files), run).value;
            && MetasHolding(s.metas) == MAX_PARALLEL_METADATA_FETCHES - s.metaPermits
            && PaysHolding(s.pays) == p.narFetches - s.payPermits
            && MetasHolding(s.metas) <= 64 && PaysHolding(s.pays) <= p.narFetches
  {
    ReachableInv(p, files, run);
  }

  /**
    A mirror that reports success holds, for every path of the closure, a signed narinfo that the server had, and for
    every path to copy the NAR which that narinfo names.
   */
  lemma SuccessIsComplete(p: Setup, files: Files, run: seq<Step>, hash: Hash)
    requires Honest(p) && Exec(p, Init(p, files), run).Some? && hash in p.hashes
    requires Exec(p, Init(p, files), run).value.main.Succeeded?
    ensures var s := Exec(p, Init(p, files), run).value;
            && hash in s.narinfos && Vetted(s, s.narinfos[hash]) && s.narinfos[hash].url.path in s.files.nars
            && (hash in p.copies ==> s.narinfos[hash].url.path in s.nars)
  {
    ReachableInv(p, files, run);
    var s := Exec(p, Init(p, files), run).value;
    var i :| 0 <= i < |p.hashes| && p.hashes[i] == hash;
    assert MetaOk(p, s, i) && s.metas[i].MetaJoined? && WrittenOk(p, s, hash);
    if hash in p.copies {
      assert forall j: nat :: !HandsOn(p, s, j, hash, s.narinfos[hash].url.path);
      var k :| 0 <= k < |s.pays| && s.pays[k].nar == s.narinfos[hash].url.path;
      assert PayOk(s, k);
    }
  }

  // ---------------------------------------------------------------- progress

  function PayWeight(pay: Pay): nat {
    match pay.phase
    case PayQueued => 5
    case PayAsked => 4
    case PayOpening => 3
    case PayFetched => 2
    case PayDone => 1
    case _ => 0
  }

  function MetasWeight(metas: seq<Meta>): nat {
    if metas == [] then 0 else MetaWeight(metas[0]) + MetasWeight(metas[1..])
  }

  function PaysWeight(pays: seq<Pay>): nat {
    if pays == [] then 0 else PayWeight(pays[0]) + PaysWeight(pays[1..])
  }

  function MainWeight(main: Main): nat {
    match main
    case Collecting => 2
    case Draining => 1
    case _ => 0
  }

  function Measure(s: State): nat {
    MetasWeight(s.metas) + PaysWeight(s.pays) + MainWeight(s.main)
  }

  lemma {:induction false} MetasWeightUpdate(metas: seq<Meta>, i: nat, m: Meta)
    requires i < |metas|
    ensures MetasWeight(metas[i := m]) + MetaWeight(metas[i]) == MetasWeight(metas) + MetaWeight(m)
  {
    if i > 0 {
      assert metas[i := m][1..] == metas[1..][i - 1 := m];
      MetasWeightUpdate(metas[1..], i - 1, m);
    } else {
      assert metas[i := m][1..] == metas[1..];
    }
  }

  lemma {:induction false} PaysWeightUpdate(pays: seq<Pay>, k: nat, pay: Pay)
    requires k < |pays|
    ensures PaysWeight(pays[k := pay]) + PayWeight(pays[k]) == PaysWeight(pays) + PayWeight(pay)
  {
    if k > 0 {
      assert pays[k := pay][1..] == pays[1..][k - 1 := pay];
      PaysWeightUpdate(pays[1..], k - 1, pay);
    } else {
      assert pays[k := pay][1..] == pays[1..];
    }
  }

  lemma {:induction false} PaysWeightAppend(pays: seq<Pay>, pay: Pay)
    ensures PaysWeight(pays + [pay]) == PaysWeight(pays) + PayWeight(pay)
  {
    if pays == [] {
      assert [pay][1..] == [];
    } else {
      assert (pays + [pay])[1..] == pays[1..] + [pay];
      PaysWeightAppend(pays[1..], pay);
    }
  }

  lemma MetaStepDecreases(p: Setup, s: State, step: Step, s': State)
    requires |s.metas| == |p.hashes| && Running(s) && NextMeta(p, s, step) == Some(s')
    ensures Measure(s') < Measure(s)
  {
    if step.JoinMeta? && s.metas[step.i].MetaDone? {
      JoinMoves(p, s, step, s');
      MetasWeightUpdate(s.metas, step.i, MetaJoined);
      if nar :| s'.pays == s.pays + [Pay(nar, PayQueued)] {
        PaysWeightAppend(s.pays, Pay(nar, PayQueued));
      }
    } else if !step.EndCollecting? && !step.JoinMeta? {
      OneMetaMoves(p, s, step, s');
      MetasWeightUpdate(s.metas, step.i, s'.metas[step.i]);
    }
  }

  lemma PayStepDecreases(p: Setup, s: State, step: Step, s': State)
    requires |s.metas| == |p.hashes| && Running(s) && NextPay(p, s, step) == Some(s')
    ensures Measure(s') < Measure(s)
  {
    if !step.EndDraining? {
      PaysWeightUpdate(s.pays, step.k, s'.pays[step.k]);
    }
  }

  lemma StepDecreases(p: Setup, s: State, step: Step, s': State)
    requires Next(p, s, step) == Some(s') && !step.FilesChange?
    ensures Measure(s') < Measure(s)
  {
    if IsMetaStep(step) { MetaStepDecreases(p, s, step, s'); } else { PayStepDecreases(p, s, step, s'); }
  }

  /** The steps of a run that the mirror's surroundings do not make. */
  function OwnSteps(run: seq<Step>): nat {
    if run == [] then 0 else (if run[0].FilesChange? then 0 else 1) + OwnSteps(run[1..])
  }

  lemma {:induction false} RunDecreases(p: Setup, s: State, run: seq<Step>)
    requires Exec(p, s, run).Some?
    ensures OwnSteps(run) + Measure(Exec(p, s, run).value) <= Measure(s)
    decreases |run|
  {
    if run != [] {
      var s' := Next(p, s, run[0]).value;
      if !run[0].FilesChange? {
        StepDecreases(p, s, run[0], s');
      }
      RunDecreases(p, s', run[1..]);
    }
  }

  lemma {:induction false} QueuedWeight(metas: seq<Meta>)
    requires forall i :: 0 <= i < |metas| ==> metas[i].MetaQueued?
    ensures MetasWeight(metas) == 11 * |metas|
  {
    if metas != [] {
      QueuedWeight(metas[1..]);
    }
  }

  /** Mirroring ends: client and handlers take at most eleven steps for each path of the closure. */
  lemma MirroringEnds(p: Setup, files: Files, run: seq<Step>)
    requires Exec(p, Init(p, files), run).Some?
    ensures OwnSteps(run) <= 11 * |p.hashes| + 2
  {
    QueuedWeight(Init(p, files).metas);
    RunDecreases(p, Init(p, files), run);
  }

  lemma {:induction false} SomeMetaHolds(metas: seq<Meta>) returns (i: nat)
    requires MetasHolding(metas) > 0
    ensures i < |metas| && MetaHolds(metas[i])
  {
    if MetaHolds(metas[0]) {
      i := 0;
    } else {
      var rest := SomeMetaHolds(metas[1..]);
      i := rest + 1;
    }
  }

  lemma {:induction false} SomePayHolds(pays: seq<Pay>) returns (k: nat)
    requires PaysHolding(pays) > 0
    ensures k < |pays| && PayHolds(pays[k])
  {
    if PayHolds(pays[0]) {
      k := 0;
    } else {
      var rest := SomePayHolds(pays[1..]);
      k := rest + 1;
    }
  }

  predicate IsFailure(step: Step) {
    step.FailMeta? || step.FailPay?
  }

  /** The handler of a metadata request has not been told about its entry yet. */
  predicate Awaits(s: State) {
    exists i :: 0 <= i < |s.metas| && s.metas[i].MetaAsked?
  }

  /** Neither a failure nor a step of the surroundings. */
  ghost predicate CanGo(p: Setup, s: State) {
    exists step :: !IsFailure(step) && !step.FilesChange? && !step.EnsureMeta? && Next(p, s, step).Some?
  }

  lemma HoldingMetaSteps(p: Setup, s: State, i: nat)
    requires Inv(p, s) && Running(s) && i < |s.metas| && MetaHolds(s.metas[i]) && !s.metas[i].MetaAsked?
    ensures CanGo(p, s)
  {
    var step :=
      if s.metas[i].MetaEnsured? then AdmitMeta(i) else if s.metas[i].MetaAdmitted? then FetchMeta(i) else WriteMeta(i);
    assert NextMeta(p, s, step).Some?;
    assert Next(p, s, step).Some?;
  }

  lemma CollectingSteps(p: Setup, s: State)
    requires Inv(p, s) && s.main.Collecting? && !Awaits(s)
    ensures CanGo(p, s)
  {
    if forall i :: 0 <= i < |s.metas| ==> s.metas[i].MetaJoined? {
      assert Next(p, s, EndCollecting).Some?;
    } else {
      var i :| 0 <= i < |s.metas| && !s.metas[i].MetaJoined?;
      if s.metas[i].MetaQueued? {
        if s.metaPermits > 0 {
          assert Next(p, s, AskMeta(i)).Some?;
        } else {
          var j := SomeMetaHolds(s.metas);
          HoldingMetaSteps(p, s, j);
        }
      } else if MetaHolds(s.metas[i]) {
        HoldingMetaSteps(p, s, i);
      } else {
        assert Next(p, s, JoinMeta(i)).Some?;
      }
    }
  }

  lemma HoldingPaySteps(p: Setup, s: State, k: nat)
    requires Inv(p, s) && Running(s) && k < |s.pays| && PayHolds(s.pays[k])
    ensures CanGo(p, s)
  {
    var step := match s.pays[k].phase case PayAsked => AllowPay(k) case PayOpening => FetchPay(k) case _ => WritePay(k);
    assert NextPay(p, s, step).Some?;
    assert Next(p, s, step).Some?;
  }

  lemma DrainingSteps(p: Setup, s: State)
    requires Inv(p, s) && s.main.Draining? && p.narFetches > 0
    ensures CanGo(p, s)
  {
    if forall k :: 0 <= k < |s.pays| ==> s.pays[k].phase.PayJoined? {
      assert Next(p, s, EndDraining).Some?;
    } else {
      var k :| 0 <= k < |s.pays| && !s.pays[k].phase.PayJoined?;
      if s.pays[k].phase.PayQueued? {
        if s.payPermits > 0 {
          assert Next(p, s, AskPay(k)).Some?;
        } else {
          var j := SomePayHolds(s.pays);
          HoldingPaySteps(p, s, j);
        }
      } else if PayHolds(s.pays[k]) {
        HoldingPaySteps(p, s, k);
      } else {
        assert Next(p, s, JoinPay(k)).Some?;
      }
    }
  }

  /**
    While the mirror is at work and no handler waits to be told about its entry, a step that is no failure is
    possible; the command line refuses zero NAR fetches.
   */
  lemma NobodyAwaitedCanGo(p: Setup, s: State)
    requires Inv(p, s) && p.narFetches > 0 && Running(s) && !Awaits(s)
    ensures CanGo(p, s)
  {
    if s.main.Collecting? {
      CollectingSteps(p, s);
    } else {
      DrainingSteps(p, s);
    }
  }

  // ---------------------------------------------------------------- sessions whose entries stay ready

  /** An entry that is ready stays the same and ready. */
  predicate KeepsReady(files: Files, files': Files, hash: Hash) {
    IsReady(files, hash) ==> IsReady(files', hash) && SameEntry(files, files', hash)
  }

  /** In this step the handlers are told the truth, and no ready entry of the closure is taken away. */
  ghost predicate IsGenuine(p: Setup, s: State, step: Step) {
    && (step.FilesChange? ==> forall hash :: hash in p.hashes ==> KeepsReady(s.files, step.files, hash))
    && (step.EnsureMeta? && step.i < |p.hashes| ==> IsReady(s.files, p.hashes[step.i]))
  }

  ghost predicate AllGenuine(p: Setup, s: State, run: seq<Step>)
    decreases |run|
  {
    run != [] ==>
      && IsGenuine(p, s, run[0])
      && (Next(p, s, run[0]).Some? ==> AllGenuine(p, Next(p, s, run[0]).value, run[1..]))
  }

  /** The server has this narinfo, and its NAR. */
  predicate Current(s: State, hash: Hash, info: NarInfo) {
    hash in s.files.narinfos && s.files.narinfos[hash] == info && IsReady(s.files, hash)
  }

  ghost predicate MetaCurrent(p: Setup, s: State, i: nat)
    requires i < |s.metas| == |p.hashes|
  {
    match s.metas[i]
    case MetaEnsured => IsReady(s.files, p.hashes[i])
    case MetaAdmitted(info) => Current(s, p.hashes[i], info)
    case MetaFetched(info) => Current(s, p.hashes[i], info)
    case _ => true
  }

  ghost predicate AllCurrent(p: Setup, s: State) {
    && |s.metas| == |p.hashes|
    && (forall i :: 0 <= i < |s.metas| ==> MetaCurrent(p, s, i))
    && (forall hash :: hash in s.narinfos ==> hash in p.hashes && Current(s, hash, s.narinfos[hash]))
  }

  /** A step that leaves the server's files alone keeps what it does not touch. */
  lemma UntouchedStaysCurrent(p: Setup, s: State, s': State)
    requires AllCurrent(p, s) && |s'.metas| == |p.hashes| && s'.files == s.files
    requires forall i :: 0 <= i < |s.metas| && s'.metas[i] != s.metas[i] ==> MetaCurrent(p, s', i)
    requires forall hash :: hash in s'.narinfos && (hash !in s.narinfos || s'.narinfos[hash] != s.narinfos[hash]) ==>
               hash in p.hashes && Current(s', hash, s'.narinfos[hash])
    ensures AllCurrent(p, s')
  {
    forall i | 0 <= i < |s'.metas|
      ensures MetaCurrent(p, s', i)
    {
      assert MetaCurrent(p, s, i);
    }
  }

  lemma MetaStepKeepsCurrent(p: Setup, s: State, step: Step, s': State)
    requires Inv(p, s) && AllCurrent(p, s) && Running(s) && NextMeta(p, s, step) == Some(s') && IsGenuine(p, s, step)
    ensures AllCurrent(p, s')
  {
    if !step.EndCollecting? {
      assert MetaCurrent(p, s, step.i) && p.hashes[step.i] in p.hashes;
      assert MetaCurrent(p, s', step.i);
    }
    UntouchedStaysCurrent(p, s, s');
  }

  lemma PayStepKeepsCurrent(p: Setup, s: State, step: Step, s': State)
    requires AllCurrent(p, s) && NextPay(p, s, step) == Some(s')
    ensures AllCurrent(p, s')
  {
    UntouchedStaysCurrent(p, s, s');
  }

  lemma FilesChangeKeepsCurrent(p: Setup, s: State, files: Files)
    requires AllCurrent(p, s) && forall hash :: hash in p.hashes ==> KeepsReady(s.files, files, hash)
    ensures AllCurrent(p, s.(files := files))
  {
    var s' := s.(files := files);
    forall i | 0 <= i < |s'.metas|
      ensures MetaCurrent(p, s', i)
    {
      assert MetaCurrent(p, s, i) && p.hashes[i] in p.hashes;
    }
  }

  ghost predicate Unfailed(s: State) {
    && !s.main.Errored?
    && (forall i :: 0 <= i < |s.metas| ==> !s.metas[i].MetaFailed?)
    && (forall k :: 0 <= k < |s.pays| ==> !s.pays[k].phase.PayFailed?)
  }

  lemma MetaStepStaysUnfailed(p: Setup, s: State, step: Step, s': State)
    requires Inv(p, s) && AllCurrent(p, s) && Unfailed(s) && Running(s) && NextMeta(p, s, step) == Some(s')
    requires !step.FailMeta?
    ensures Unfailed(s')
  {
    if !step.EndCollecting? {
      assert MetaOk(p, s, step.i) && MetaCurrent(p, s, step.i);
    }
  }

  lemma PayStepStaysUnfailed(p: Setup, s: State, step: Step, s': State)
    requires Inv(p, s) && Unfailed(s) && Running(s) && NextPay(p, s, step) == Some(s') && !step.FailPay?
    ensures Unfailed(s')
  {
    if !step.EndDraining? {
      assert PayOk(s, step.k);
    }
  }

  lemma StepKeepsCurrent(p: Setup, s: State, step: Step, s': State)
    requires Inv(p, s) && AllCurrent(p, s) && Next(p, s, step) == Some(s') && IsGenuine(p, s, step)
    ensures AllCurrent(p, s')
    ensures Unfailed(s) && !IsFailure(step) ==> Unfailed(s')
  {
    if step.FilesChange? {
      FilesChangeKeepsCurrent(p, s, step.files);
    } else if IsMetaStep(step) {
      MetaStepKeepsCurrent(p, s, step, s');
      if Unfailed(s) && !IsFailure(step) { MetaStepStaysUnfailed(p, s, step, s'); }
    } else {
      PayStepKeepsCurrent(p, s, step, s');
      if Unfailed(s) && !IsFailure(step) { PayStepStaysUnfailed(p, s, step, s'); }
    }
  }

  predicate NoFailure(run: seq<Step>) {
    forall i :: 0 <= i < |run| ==> !IsFailure(run[i])
  }

  lemma {:induction false} RunKeepsCurrent(p: Setup, s: State, run: seq<Step>)
    requires Honest(p) && Inv(p, s) && AllCurrent(p, s) && Exec(p, s, run).Some? && AllGenuine(p, s, run)
    ensures AllCurrent(p, Exec(p, s, run).value)
    ensures Unfailed(s) && NoFailure(run) ==> Unfailed(Exec(p, s, run).value)
    decreases |run|
  {
    if run != [] {
      var s' := Next(p, s, run[0]).value;
      StepKeepsInv(p, s, run[0], s');
      StepKeepsCurrent(p, s, run[0], s');
      RunKeepsCurrent(p, s', run[1..]);
    }
  }

  /**
    What the client has written is what the server has, as long as ready entries stay and handlers are told the truth.
   */
  lemma GenuineMirrorIsCurrent(p: Setup, files: Files, run: seq<Step>)
    requires Honest(p) && Exec(p, Init(p, files), run).Some? && AllGenuine(p, Init(p, files), run)
    ensures var s := Exec(p, Init(p, files), run).value;
            forall hash :: hash in s.narinfos ==> Current(s, hash, s.narinfos[hash])
  {
    InitInv(p, files);
    RunKeepsCurrent(p, Init(p, files), run);
  }

  /**
    Then nothing fails without a failure: a mirror that has nothing left to do, and whose handlers have been told, has
    succeeded.
   */
  lemma UndisturbedMirrorSucceeds(p: Setup, files: Files, run: seq<Step>)
    requires Honest(p) && p.narFetches > 0 && Exec(p, Init(p, files), run).Some?
    requires AllGenuine(p, Init(p, files), run) && NoFailure(run)
    requires var s := Exec(p, Init(p, files), run).value; !Awaits(s) && !CanGo(p, s)
    ensures Exec(p, Init(p, files), run).value.main.Succeeded?
  {
    InitInv(p, files);
    RunKeepsCurrent(p, Init(p, files), run);
    RunKeepsInv(p, Init(p, files), run);
    if Running(Exec(p, Init(p, files), run).value) {
      NobodyAwaitedCanGo(p, Exec(p, Init(p, files), run).value);
    }
  }
}
