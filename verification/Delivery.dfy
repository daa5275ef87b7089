/**
  Delivering the outputs of a build: the client's mirror and the server's fills together.

  Every metadata request of the mirror has a handler that calls ensure_cache_entry, next to any number of other
  callers: the server's own prewarming of the copied paths and the sessions of other clients
  (server/output_cache.rs).  A step of the composition is a step of one of the two systems; the handler goes on when
  its caller has returned.
 */
module Delivery {
  import opened Protocol
  import opened CacheFiles
  import Fill = CacheFill
  import Mirror

  /** Copies write their own entry; `others` are the hashes that the other callers are about. */
  datatype Setup = Setup(mirror: Mirror.Setup, cfg: Fill.Config, others: seq<Hash>)

  function Callers(d: Setup): seq<Hash> {
    d.mirror.hashes + d.others
  }

  datatype State = State(mirror: Mirror.State, fill: Fill.State)

  function Init(d: Setup, first: Files): State {
    State(Mirror.Init(d.mirror, first), Fill.Init(d.cfg, first, Callers(d)))
  }

  /** `Refuse`: a handler whose caller was told of an error drops its stream. */
  datatype Step = Filling(fill: Fill.Step) | Mirroring(mirror: Mirror.Step) | Refuse(i: nat)

  /** The caller of a handler begins when the request has come. */
  predicate Begun(s: State, t: nat) {
    t < |s.mirror.metas| ==> !s.mirror.metas[t].MetaQueued?
  }

  predicate ToldBy(s: State, i: nat, ok: bool) {
    i < |s.fill.tasks| && s.fill.tasks[i].pc == Fill.Returned(ok)
  }

  function WithFill(s: State, fill: Fill.State): State {
    State(s.mirror.(files := fill.files), fill)
  }

  ghost function Next(d: Setup, s: State, step: Step): Option<State> {
    match step
    case Filling(fill) =>
      if !Begun(s, fill.task) then None
      else (match Fill.Next(d.cfg, s.fill, fill)
        case None => None
        case Some(fill') => Some(WithFill(s, fill')))
    case Mirroring(step) =>
      if step.FilesChange? || (step.EnsureMeta? && !ToldBy(s, step.i, true)) then None
      else (match Mirror.Next(d.mirror, s.mirror, step)
        case None => None
        case Some(mirror') => Some(State(mirror', s.fill)))
    case Refuse(i) =>
      if !ToldBy(s, i, false) || i >= |s.mirror.metas| || !s.mirror.metas[i].MetaAsked? then None
      else (match Mirror.Next(d.mirror, s.mirror, Mirror.FailMeta(i))
        case None => None
        case Some(mirror') => Some(State(mirror', s.fill)))
  }

  ghost function Exec(d: Setup, s: State, run: seq<Step>): Option<State>
    decreases |run|
  {
    if run == [] then Some(s)
    else match Next(d, s, run[0])
      case None => None
      case Some(s') => Exec(d, s', run[1..])
  }

  predicate IsFailure(step: Step) {
    match step
    case Filling(fill) => fill.act.Fails?
    case Mirroring(mirror) => Mirror.IsFailure(mirror)
    case Refuse(_) => false
  }

  predicate NoFailure(run: seq<Step>) {
    forall i :: 0 <= i < |run| ==> !IsFailure(run[i])
  }

  // ---------------------------------------------------------------- the two systems in it

  /** The steps of the callers. */
  function FillSteps(run: seq<Step>): seq<Fill.Step> {
    if run == [] then [] else (if run[0].Filling? then [run[0].fill] else []) + FillSteps(run[1..])
  }

  lemma {:induction false} FillProjects(d: Setup, s: State, run: seq<Step>)
    requires Exec(d, s, run).Some?
    ensures Fill.Exec(d.cfg, s.fill, FillSteps(run)) == Some(Exec(d, s, run).value.fill)
    decreases |run|
  {
    if run != [] {
      FillProjects(d, Next(d, s, run[0]).value, run[1..]);
      if run[0].Filling? {
        assert FillSteps(run)[1..] == FillSteps(run[1..]);
      } else {
        assert FillSteps(run) == FillSteps(run[1..]);
      }
    }
  }

  lemma {:induction false} FillNoFailure(run: seq<Step>)
    requires NoFailure(run)
    ensures Fill.NoFailure(FillSteps(run))
    decreases |run|
  {
    if run != [] {
      assert !IsFailure(run[0]);
      assert forall i :: 0 <= i < |run| - 1 ==> run[1..][i] == run[i + 1];
      FillNoFailure(run[1..]);
    }
  }

  /** What the mirror sees of a step. */
  ghost function MirrorStep(d: Setup, s: State, step: Step): Mirror.Step
    requires Next(d, s, step).Some?
  {
    match step
    case Filling(_) => Mirror.FilesChange(Next(d, s, step).value.fill.files)
    case Mirroring(mirror) => mirror
    case Refuse(i) => Mirror.FailMeta(i)
  }

  ghost function MirrorSteps(d: Setup, s: State, run: seq<Step>): seq<Mirror.Step>
    requires Exec(d, s, run).Some?
    decreases |run|
  {
    if run == [] then [] else [MirrorStep(d, s, run[0])] + MirrorSteps(d, Next(d, s, run[0]).value, run[1..])
  }

  /** The composition keeps both systems in step, and a caller whose request has not come has not begun. */
  ghost predicate Inv(d: Setup, first: Files, s: State) {
    && d.cfg.ownEntryOnly && s.mirror.files == s.fill.files
    && |s.mirror.metas| == |d.mirror.hashes| && |s.fill.tasks| == |Callers(d)|
    && Fill.Guarded(d.cfg, s.fill) && Fill.Settled(d.cfg, first, s.fill)
    && (forall t :: 0 <= t < |s.fill.tasks| ==> s.fill.tasks[t].hash == Callers(d)[t])
    && (forall t :: 0 <= t < |s.mirror.metas| && s.mirror.metas[t].MetaQueued? ==>
          s.fill.tasks[t].pc == Fill.Probe(Fill.First))
  }

  lemma InitInv(d: Setup, first: Files)
    requires d.cfg.ownEntryOnly
    ensures Inv(d, first, Init(d, first))
  {
    Fill.InitGuarded(d.cfg, first, Callers(d));
    Fill.InitSettled(d.cfg, first, Callers(d));
  }

  lemma FillKeeps(d: Setup, first: Files, s: State, step: Fill.Step, fill': Fill.State)
    requires Inv(d, first, s) && Fill.Next(d.cfg, s.fill, step) == Some(fill')
    ensures Mirror.Keeps(s.fill.files, fill'.files)
  {
    Fill.StepIsFileStep(d.cfg, s.fill, step, fill');
    Fill.FileStepKeepsFiles(d.cfg, first, s.fill, step.task, fill');
    forall hash | SafeAfterOk(s.fill.files, hash)
      ensures SafeAfterOk(fill'.files, hash)
    {
      Fill.FileStepKeepsEntry(d.cfg, first, s.fill, step.task, fill', hash);
    }
  }

  /** A caller that was told Ok leaves its handler an entry that is safe to read. */
  lemma ToldIsSafe(d: Setup, first: Files, s: State, i: nat)
    requires Inv(d, first, s) && i < |d.mirror.hashes| && ToldBy(s, i, true)
    ensures SafeAfterOk(s.mirror.files, d.mirror.hashes[i])
  {
    assert Fill.TaskOk(d.cfg, first, s.fill, s.fill.tasks[i]);
  }

  lemma MirrorStepFrame(p: Mirror.Setup, s: Mirror.State, step: Mirror.Step, s': Mirror.State)
    requires Mirror.Next(p, s, step) == Some(s') && !step.FilesChange?
    ensures s'.files == s.files && |s'.metas| == |s.metas|
    ensures forall t :: 0 <= t < |s.metas| && s'.metas[t].MetaQueued? ==> s.metas[t].MetaQueued?
  {
  }

  lemma FillStepKeepsInv(d: Setup, first: Files, s: State, step: Fill.Step, s': State)
    requires Inv(d, first, s) && Next(d, s, Filling(step)) == Some(s')
    ensures Inv(d, first, s')
  {
    Fill.StepKeepsGuarded(d.cfg, s.fill, step, s'.fill);
    Fill.StepKeepsSettled(d.cfg, first, s.fill, step, s'.fill);
    Fill.StepMovesForward(d.cfg, s.fill, step, s'.fill);
  }

  lemma StepKeepsInv(d: Setup, first: Files, s: State, step: Step, s': State)
    requires Inv(d, first, s) && Next(d, s, step) == Some(s')
    ensures Inv(d, first, s')
  {
    match step {
      case Filling(fill) => FillStepKeepsInv(d, first, s, fill, s');
      case Mirroring(mirror) => MirrorStepFrame(d.mirror, s.mirror, mirror, s'.mirror);
      case Refuse(i) => MirrorStepFrame(d.mirror, s.mirror, Mirror.FailMeta(i), s'.mirror);
    }
  }

  lemma {:induction false} RunKeepsInv(d: Setup, first: Files, s: State, run: seq<Step>)
    requires Inv(d, first, s) && Exec(d, s, run).Some?
    ensures Inv(d, first, Exec(d, s, run).value)
    decreases |run|
  {
    if run != [] {
      StepKeepsInv(d, first, s, run[0], Next(d, s, run[0]).value);
      RunKeepsInv(d, first, Next(d, s, run[0]).value, run[1..]);
    }
  }

  /** Each step of the composition is one that the mirror's surroundings allow. */
  lemma MirrorFollows(d: Setup, first: Files, s: State, step: Step, s': State)
    requires Inv(d, first, s) && Next(d, s, step) == Some(s')
    ensures Mirror.Next(d.mirror, s.mirror, MirrorStep(d, s, step)) == Some(s'.mirror)
  {
    if step.Filling? {
      FillKeeps(d, first, s, step.fill, s'.fill);
    }
  }

  lemma {:induction false} MirrorProjects(d: Setup, first: Files, s: State, run: seq<Step>)
    requires Inv(d, first, s) && Exec(d, s, run).Some?
    ensures Mirror.Exec(d.mirror, s.mirror, MirrorSteps(d, s, run)) == Some(Exec(d, s, run).value.mirror)
    decreases |run|
  {
    if run != [] {
      var s' := Next(d, s, run[0]).value;
      MirrorFollows(d, first, s, run[0], s');
      StepKeepsInv(d, first, s, run[0], s');
      MirrorProjects(d, first, s', run[1..]);
      assert MirrorSteps(d, s, run)[1..] == MirrorSteps(d, s', run[1..]);
    }
  }

  /**
    The composition refines both systems: seen by the mirror it is a run of the mirror in surroundings that keep what
    the mirror counts on, and seen by the callers it is a run of the fills.
   */
  lemma RefinesBoth(d: Setup, first: Files, run: seq<Step>)
    requires d.cfg.ownEntryOnly && Exec(d, Init(d, first), run).Some?
    ensures var s := Exec(d, Init(d, first), run).value;
            && Mirror.Exec(d.mirror, Mirror.Init(d.mirror, first), MirrorSteps(d, Init(d, first), run))
               == Some(s.mirror)
            && Fill.Exec(d.cfg, Fill.Init(d.cfg, first, Callers(d)), FillSteps(run)) == Some(s.fill)
            && s.mirror.files == s.fill.files
  {
    InitInv(d, first);
    RunKeepsInv(d, first, Init(d, first), run);
    MirrorProjects(d, first, Init(d, first), run);
    FillProjects(d, Init(d, first), run);
  }

  /** So nothing is ever not found, whatever the cache starts with and whatever fails. */
  lemma NothingIsNotFound(d: Setup, first: Files, run: seq<Step>)
    requires d.cfg.ownEntryOnly && Mirror.Honest(d.mirror) && Exec(d, Init(d, first), run).Some?
    ensures var s := Exec(d, Init(d, first), run).value.mirror;
            && (forall i :: 0 <= i < |s.metas| ==> !s.metas[i].MetaNotFound?)
            && (forall k :: 0 <= k < |s.pays| ==> !s.pays[k].phase.PayNotFound?)
  {
    RefinesBoth(d, first, run);
    Mirror.NothingIsNotFound(d.mirror, first, MirrorSteps(d, Init(d, first), run));
  }

  /**
    And a delivery that succeeds is complete: for every path of the closure the client has a signed narinfo that the
    server had, whose NAR is in the server's cache and, for a path to copy, at the client.
   */
  lemma SuccessIsComplete(d: Setup, first: Files, run: seq<Step>, hash: Hash)
    requires d.cfg.ownEntryOnly && Mirror.Honest(d.mirror) && Exec(d, Init(d, first), run).Some?
    requires hash in d.mirror.hashes && Exec(d, Init(d, first), run).value.mirror.main.Succeeded?
    ensures var s := Exec(d, Init(d, first), run).value;
            && hash in s.mirror.narinfos && Mirror.Vetted(s.mirror, s.mirror.narinfos[hash])
            && s.mirror.narinfos[hash].url.path in s.fill.files.nars
            && (hash in d.mirror.copies ==> s.mirror.narinfos[hash].url.path in s.mirror.nars)
  {
    RefinesBoth(d, first, run);
    Mirror.SuccessIsComplete(d.mirror, first, MirrorSteps(d, Init(d, first), run), hash);
  }

  // ---------------------------------------------------------------- handlers and their callers

  /** The handler has gone on with its entry, and has not failed. */
  predicate PastEnsured(m: Mirror.Meta) {
    m.MetaEnsured? || m.MetaAdmitted? || m.MetaFetched? || m.MetaDone? || m.MetaJoined?
  }

  predicate WentOn(s: State, i: nat) {
    i < |s.mirror.metas| && PastEnsured(s.mirror.metas[i]) ==> ToldBy(s, i, true)
  }

  lemma OnlyEnsuringGoesOn(p: Mirror.Setup, s: Mirror.State, step: Mirror.Step, s': Mirror.State, i: nat)
    requires Mirror.Next(p, s, step) == Some(s') && i < |s'.metas| && PastEnsured(s'.metas[i])
    ensures i < |s.metas| && (PastEnsured(s.metas[i]) || step == Mirror.EnsureMeta(i))
  {
  }

  lemma StepWentOn(d: Setup, s: State, step: Step, s': State, i: nat)
    requires Next(d, s, step) == Some(s') && d.cfg.ownEntryOnly && WentOn(s, i)
    ensures WentOn(s', i)
  {
    match step {
      case Filling(fill) => Fill.StepMovesForward(d.cfg, s.fill, fill, s'.fill);
      case Mirroring(mirror) =>
        if i < |s'.mirror.metas| && PastEnsured(s'.mirror.metas[i]) {
          OnlyEnsuringGoesOn(d.mirror, s.mirror, mirror, s'.mirror, i);
        }
      case Refuse(j) =>
        if i < |s'.mirror.metas| && PastEnsured(s'.mirror.metas[i]) {
          OnlyEnsuringGoesOn(d.mirror, s.mirror, Mirror.FailMeta(j), s'.mirror, i);
        }
    }
  }

  lemma {:induction false} RunWentOn(d: Setup, s: State, run: seq<Step>, i: nat)
    requires Exec(d, s, run).Some? && d.cfg.ownEntryOnly && WentOn(s, i)
    ensures WentOn(Exec(d, s, run).value, i)
    decreases |run|
  {
    if run != [] {
      StepWentOn(d, s, run[0], Next(d, s, run[0]).value, i);
      RunWentOn(d, Next(d, s, run[0]).value, run[1..], i);
    }
  }

  /** A handler goes on only with an entry that its caller was told Ok for; a delivery that succeeds has all of them. */
  lemma HandlersWereToldOk(d: Setup, first: Files, run: seq<Step>, i: nat)
    requires d.cfg.ownEntryOnly && Mirror.Honest(d.mirror) && Exec(d, Init(d, first), run).Some?
    requires i < |d.mirror.hashes|
    ensures var s := Exec(d, Init(d, first), run).value;
            && i < |s.mirror.metas|
            && (PastEnsured(s.mirror.metas[i]) || s.mirror.main.Succeeded? ==>
                  ToldBy(s, i, true) && s.fill.tasks[i].hash == d.mirror.hashes[i])
  {
    ReachableInv(d, first, run);
    RunWentOn(d, Init(d, first), run, i);
  }

  // ---------------------------------------------------------------- progress

  ghost predicate CanGo(d: Setup, s: State) {
    exists step :: !IsFailure(step) && Next(d, s, step).Some?
  }

  lemma AwaitedCanGo(d: Setup, first: Files, s: State, i: nat)
    requires Inv(d, first, s) && Mirror.Honest(d.mirror) && Mirror.Running(s.mirror) && d.cfg.maxFills > 0
    requires i < |s.mirror.metas| && s.mirror.metas[i].MetaAsked?
    ensures CanGo(d, s)
  {
    if ToldBy(s, i, true) {
      ToldIsSafe(d, first, s, i);
      assert Next(d, s, Mirroring(Mirror.EnsureMeta(i))).Some?;
    } else if ToldBy(s, i, false) {
      assert Next(d, s, Refuse(i)).Some?;
    } else {
      Fill.BegunCanGo(d.cfg, s.fill, (t: nat) => Begun(s, t), i);
      var step: Fill.Step :| Begun(s, step.task) && !step.act.Fails? && !step.act.CopyWrites?
                             && Fill.Next(d.cfg, s.fill, step).Some?;
      assert Next(d, s, Filling(step)).Some?;
    }
  }

  lemma WorkingCanGo(d: Setup, first: Files, s: State)
    requires Inv(d, first, s) && Mirror.Inv(d.mirror, s.mirror) && Mirror.Honest(d.mirror)
    requires Mirror.Running(s.mirror) && d.cfg.maxFills > 0 && d.mirror.narFetches > 0
    ensures CanGo(d, s)
  {
    if i: nat :| i < |s.mirror.metas| && s.mirror.metas[i].MetaAsked? {
      AwaitedCanGo(d, first, s, i);
    } else {
      Mirror.NobodyAwaitedCanGo(d.mirror, s.mirror);
      var step :| !Mirror.IsFailure(step) && !step.FilesChange? && !step.EnsureMeta?
                  && Mirror.Next(d.mirror, s.mirror, step).Some?;
      assert Next(d, s, Mirroring(step)).Some?;
    }
  }

  lemma ReachableInv(d: Setup, first: Files, run: seq<Step>)
    requires d.cfg.ownEntryOnly && Mirror.Honest(d.mirror) && Exec(d, Init(d, first), run).Some?
    ensures var s := Exec(d, Init(d, first), run).value; Inv(d, first, s) && Mirror.Inv(d.mirror, s.mirror)
  {
    InitInv(d, first);
    RunKeepsInv(d, first, Init(d, first), run);
    RefinesBoth(d, first, run);
    Mirror.ReachableInv(d.mirror, first, MirrorSteps(d, Init(d, first), run));
  }

  /** While the mirror is at work, a step that is no failure is possible, awaited fills included. */
  lemma NeverStuck(d: Setup, first: Files, run: seq<Step>)
    requires d.cfg.ownEntryOnly && Mirror.Honest(d.mirror) && Exec(d, Init(d, first), run).Some?
    requires d.cfg.maxFills > 0 && d.mirror.narFetches > 0
    requires Mirror.Running(Exec(d, Init(d, first), run).value.mirror)
    ensures CanGo(d, Exec(d, Init(d, first), run).value)
  {
    ReachableInv(d, first, run);
    WorkingCanGo(d, first, Exec(d, Init(d, first), run).value);
  }

  function Measure(s: State): nat {
    Mirror.Measure(s.mirror) + Fill.Work(s.fill.tasks)
  }

  lemma StepDecreases(d: Setup, s: State, step: Step, s': State)
    requires d.cfg.ownEntryOnly && Next(d, s, step) == Some(s')
    ensures Measure(s') < Measure(s)
  {
    match step {
      case Filling(fill) => Fill.StepLowersWork(d.cfg, s.fill, fill, s'.fill);
      case Mirroring(mirror) => Mirror.StepDecreases(d.mirror, s.mirror, mirror, s'.mirror);
      case Refuse(i) => Mirror.StepDecreases(d.mirror, s.mirror, Mirror.FailMeta(i), s'.mirror);
    }
  }

  lemma {:induction false} RunDecreases(d: Setup, s: State, run: seq<Step>)
    requires d.cfg.ownEntryOnly && Exec(d, s, run).Some?
    ensures |run| + Measure(Exec(d, s, run).value) <= Measure(s)
    decreases |run|
  {
    if run != [] {
      StepDecreases(d, s, run[0], Next(d, s, run[0]).value);
      RunDecreases(d, Next(d, s, run[0]).value, run[1..]);
    }
  }

  /** Delivering ends: with n paths in the closure and m other callers it takes at most 23n + 12m + 2 steps. */
  lemma DeliveryEnds(d: Setup, first: Files, run: seq<Step>)
    requires d.cfg.ownEntryOnly && Exec(d, Init(d, first), run).Some?
    ensures |run| <= 23 * |d.mirror.hashes| + 12 * |d.others| + 2
  {
    RunDecreases(d, Init(d, first), run);
    Mirror.QueuedWeight(Init(d, first).mirror.metas);
    Fill.FreshWork(Init(d, first).fill.tasks);
  }

  // ---------------------------------------------------------------- deliveries without failures

  /** The cache starts with nothing that could keep this entry of the closure from being delivered. */
  ghost predicate Sound(d: Setup, first: Files, hash: Hash) {
    ProbeEntry(first, hash) != ProbeFailed && !Fill.FillableAt(d.cfg, first, hash)
  }

  ghost predicate AllSound(d: Setup, first: Files) {
    forall hash :: hash in d.mirror.hashes ==> Sound(d, first, hash)
  }

  /** The callers of each entry of the closure are told the truth, and of errors only where the cache has one. */
  ghost predicate Trusted(d: Setup, first: Files, s: State) {
    && Fill.Told(first, s.fill)
    && (forall hash :: hash in d.mirror.hashes ==> Fill.Calm(s.fill, hash) && Fill.Truthful(first, s.fill, hash))
  }

  lemma SoundIsNotShared(d: Setup, first: Files, hash: Hash)
    requires Sound(d, first, hash)
    ensures !Fill.SharedAt(d.cfg, first, hash)
  {
  }

  lemma FillStepKeepsTrusted(d: Setup, first: Files, s: State, step: Fill.Step, s': State)
    requires Inv(d, first, s) && AllSound(d, first) && Trusted(d, first, s)
    requires Next(d, s, Filling(step)) == Some(s') && !step.act.Fails?
    ensures Trusted(d, first, s')
  {
    Fill.StepKeepsTold(d.cfg, first, s.fill, step, s'.fill);
    forall hash | hash in d.mirror.hashes
      ensures Fill.Calm(s'.fill, hash) && Fill.Truthful(first, s'.fill, hash)
    {
      SoundIsNotShared(d, first, hash);
      Fill.StepKeepsCalm(d.cfg, first, s.fill, step, s'.fill, hash);
      Fill.StepKeepsTruthful(d.cfg, first, s.fill, step, s'.fill, hash);
    }
  }

  /** A ready entry of the closure is not touched. */
  lemma FillStepKeepsReady(d: Setup, first: Files, s: State, step: Fill.Step, fill': Fill.State, hash: Hash)
    requires Inv(d, first, s) && Fill.Next(d.cfg, s.fill, step) == Some(fill') && Fill.Calm(s.fill, hash)
    ensures Mirror.KeepsReady(s.fill.files, fill'.files, hash)
  {
    if IsReady(s.fill.files, hash) {
      Fill.CalmKeepsReady(d.cfg, first, s.fill, step, fill', hash);
      Fill.StepIsFileStep(d.cfg, s.fill, step, fill');
      assert Fill.TaskOk(d.cfg, first, s.fill, s.fill.tasks[step.task]);
      assert Fill.CalmTask(s.fill, s.fill.tasks[step.task], hash);
    }
  }

  lemma NobodyRefuses(d: Setup, first: Files, s: State, i: nat)
    requires Inv(d, first, s) && AllSound(d, first) && Trusted(d, first, s) && i < |d.mirror.hashes|
    ensures !ToldBy(s, i, false)
  {
    assert s.fill.tasks[i].hash == d.mirror.hashes[i] && Sound(d, first, d.mirror.hashes[i]);
  }

  /** Seen by the mirror, such a step is genuine and no failure. */
  lemma StepIsGenuine(d: Setup, first: Files, s: State, step: Step, s': State)
    requires Inv(d, first, s) && AllSound(d, first) && Trusted(d, first, s)
    requires Next(d, s, step) == Some(s') && !IsFailure(step)
    ensures Mirror.IsGenuine(d.mirror, s.mirror, MirrorStep(d, s, step))
    ensures !Mirror.IsFailure(MirrorStep(d, s, step))
    ensures Trusted(d, first, s')
  {
    match step {
      case Filling(fill) =>
        FillStepKeepsTrusted(d, first, s, fill, s');
        forall hash | hash in d.mirror.hashes
          ensures Mirror.KeepsReady(s.fill.files, s'.fill.files, hash)
        {
          FillStepKeepsReady(d, first, s, fill, s'.fill, hash);
        }
      case Mirroring(mirror) =>
        if mirror.EnsureMeta? {
          assert d.mirror.hashes[mirror.i] in d.mirror.hashes;
          assert Fill.TruthfulTask(first, s.fill, s.fill.tasks[mirror.i], d.mirror.hashes[mirror.i]);
        }
      case Refuse(i) => NobodyRefuses(d, first, s, i);
    }
  }

  lemma {:induction false} RunIsGenuine(d: Setup, first: Files, s: State, run: seq<Step>)
    requires Inv(d, first, s) && AllSound(d, first) && Trusted(d, first, s)
    requires Exec(d, s, run).Some? && NoFailure(run)
    ensures Mirror.AllGenuine(d.mirror, s.mirror, MirrorSteps(d, s, run))
    ensures Mirror.NoFailure(MirrorSteps(d, s, run))
    decreases |run|
  {
    if run != [] {
      var s' := Next(d, s, run[0]).value;
      assert !IsFailure(run[0]);
      assert forall i :: 0 <= i < |run| - 1 ==> run[1..][i] == run[i + 1];
      MirrorFollows(d, first, s, run[0], s');
      StepKeepsInv(d, first, s, run[0], s');
      StepIsGenuine(d, first, s, run[0], s');
      RunIsGenuine(d, first, s', run[1..]);
      assert MirrorSteps(d, s, run)[1..] == MirrorSteps(d, s', run[1..]);
    }
  }

  lemma GenuineRun(d: Setup, first: Files, run: seq<Step>)
    requires d.cfg.ownEntryOnly && AllSound(d, first) && Exec(d, Init(d, first), run).Some? && NoFailure(run)
    ensures Mirror.AllGenuine(d.mirror, Mirror.Init(d.mirror, first), MirrorSteps(d, Init(d, first), run))
    ensures Mirror.NoFailure(MirrorSteps(d, Init(d, first), run))
  {
    InitInv(d, first);
    RunIsGenuine(d, first, Init(d, first), run);
  }

  lemma UndisturbedStaysUnfailed(d: Setup, first: Files, run: seq<Step>)
    requires d.cfg.ownEntryOnly && Mirror.Honest(d.mirror) && AllSound(d, first)
    requires Exec(d, Init(d, first), run).Some? && NoFailure(run)
    ensures var s := Exec(d, Init(d, first), run).value.mirror;
            Mirror.Unfailed(s) && Mirror.AllCurrent(d.mirror, s)
  {
    GenuineRun(d, first, run);
    RefinesBoth(d, first, run);
    Mirror.InitInv(d.mirror, first);
    Mirror.RunKeepsCurrent(d.mirror, Mirror.Init(d.mirror, first), MirrorSteps(d, Init(d, first), run));
  }

  /**
    Without failures a delivery whose closure is sound succeeds in every schedule: when nothing more can be done the
    mirror has succeeded, and what it holds is what the server has.
   */
  lemma UndisturbedDeliverySucceeds(d: Setup, first: Files, run: seq<Step>)
    requires d.cfg.ownEntryOnly && Mirror.Honest(d.mirror) && d.cfg.maxFills > 0 && d.mirror.narFetches > 0
    requires AllSound(d, first) && Exec(d, Init(d, first), run).Some? && NoFailure(run)
    requires !CanGo(d, Exec(d, Init(d, first), run).value)
    ensures var s := Exec(d, Init(d, first), run).value.mirror;
            && s.main.Succeeded?
            && forall hash :: hash in s.narinfos ==> Mirror.Current(s, hash, s.narinfos[hash])
  {
    UndisturbedStaysUnfailed(d, first, run);
    if Mirror.Running(Exec(d, Init(d, first), run).value.mirror) {
      NeverStuck(d, first, run);
    }
  }

  // ---------------------------------------------------------------- schedules in which a delivery fails by itself

  /** A schedule without failures that leads from one state to another. */
  ghost predicate Leads(d: Setup, s0: State, run: seq<Step>, s: State) {
    Exec(d, s0, run) == Some(s) && NoFailure(run)
  }

  lemma {:induction false} ExecOneMore(d: Setup, s: State, run: seq<Step>, step: Step)
    requires Exec(d, s, run).Some?
    ensures Exec(d, s, run + [step]) == Next(d, Exec(d, s, run).value, step)
    decreases |run|
  {
    if run == [] {
      assert run + [step] == [step];
      if Next(d, s, step).Some? {
        assert Exec(d, Next(d, s, step).value, []) == Next(d, s, step);
      }
    } else {
      assert (run + [step])[1..] == run[1..] + [step];
      ExecOneMore(d, Next(d, s, run[0]).value, run[1..], step);
    }
  }

  lemma OneMore(d: Setup, s0: State, run: seq<Step>, s: State, step: Step) returns (run': seq<Step>, s': State)
    requires Leads(d, s0, run, s) && Next(d, s, step).Some? && !IsFailure(step)
    ensures Leads(d, s0, run', s') && Next(d, s, step) == Some(s')
  {
    ExecOneMore(d, s0, run, step);
    run', s' := run + [step], Next(d, s, step).value;
  }

  /** What one caller does by itself, done in the composition. */
  lemma {:induction false} ByCaller(d: Setup, s0: State, run: seq<Step>, s: State, steps: seq<Fill.Step>, t: nat)
    returns (run': seq<Step>, s': State)
    requires Leads(d, s0, run, s) && Begun(s, t) && s.mirror.files == s.fill.files
    requires Fill.Exec(d.cfg, s.fill, steps).Some? && Fill.GoesOn([], steps, t)
    ensures Leads(d, s0, run', s') && s' == WithFill(s, Fill.Exec(d.cfg, s.fill, steps).value)
    decreases |steps|
  {
    if steps == [] {
      run', s' := run, s;
    } else {
      assert steps[0] == Fill.Step(t, Fill.Go);
      var run1, s1 := OneMore(d, s0, run, s, Filling(steps[0]));
      assert forall k :: 0 <= k < |steps| - 1 ==> steps[1..][k] == steps[k + 1];
      run', s' := ByCaller(d, s0, run1, s1, steps[1..], t);
    }
  }

  /** One step of one caller. */
  lemma OneByCaller(d: Setup, s0: State, run: seq<Step>, s: State, t: nat) returns (run': seq<Step>, s': State)
    requires Leads(d, s0, run, s) && Begun(s, t) && t < |s.fill.tasks| && !s.fill.tasks[t].pc.Returned?
    requires Fill.Goes(d.cfg, s.fill, t).Some?
    ensures Leads(d, s0, run', s') && s' == WithFill(s, Fill.Goes(d.cfg, s.fill, t).value)
  {
    run', s' := OneMore(d, s0, run, s, Filling(Fill.Step(t, Fill.Go)));
  }

  /** A failed metadata request ends the mirror. */
  lemma FailedEndsMirror(d: Setup, s0: State, run: seq<Step>, s: State, i: nat) returns (run': seq<Step>, s': State)
    requires Leads(d, s0, run, s) && |s.mirror.metas| == |d.mirror.hashes| && i < |s.mirror.metas|
    requires s.mirror.metas[i].MetaFailed? && s.mirror.main.Collecting?
    ensures Leads(d, s0, run', s') && s'.mirror.main.Errored?
  {
    run', s' := OneMore(d, s0, run, s, Mirroring(Mirror.JoinMeta(i)));
  }

  /** So does a handler that was told Ok and finds no narinfo to read. */
  lemma RemovedEndsMirror(d: Setup, s0: State, run: seq<Step>, s: State, i: nat) returns (run': seq<Step>, s': State)
    requires Leads(d, s0, run, s) && |s.mirror.metas| == |d.mirror.hashes| && i < |s.mirror.metas|
    requires s.mirror.metas[i].MetaEnsured? && s.mirror.main.Collecting?
    requires d.mirror.hashes[i] !in s.mirror.files.narinfos
    ensures Leads(d, s0, run', s') && s'.mirror.main.Errored?
  {
    var run1, s1 := OneMore(d, s0, run, s, Mirroring(Mirror.AdmitMeta(i)));
    run', s' := FailedEndsMirror(d, s0, run1, s1, i);
  }

  /** The first request, with everything else as at the start. */
  lemma RequestComes(d: Setup, first: Files, i: nat) returns (run: seq<Step>, s: State)
    requires i < |d.mirror.hashes|
    ensures Leads(d, Init(d, first), run, s)
    ensures s == State(s.mirror, Init(d, first).fill) && s.mirror.files == first && s.mirror.main.Collecting?
    ensures |s.mirror.metas| == |d.mirror.hashes| && s.mirror.metas[i].MetaAsked?
  {
    var s0 := Init(d, first);
    assert Leads(d, s0, [], s0);
    run, s := OneMore(d, s0, [], s0, Mirroring(Mirror.AskMeta(i)));
  }

  /** The handler learns that its caller was told Ok. */
  lemma HandlerGoesOn(d: Setup, s0: State, run: seq<Step>, s: State, i: nat) returns (run': seq<Step>, s': State)
    requires Leads(d, s0, run, s) && Mirror.Honest(d.mirror) && |s.mirror.metas| == |d.mirror.hashes|
    requires i < |s.mirror.metas| && s.mirror.metas[i].MetaAsked? && s.mirror.main.Collecting?
    requires ToldBy(s, i, true) && SafeAfterOk(s.mirror.files, d.mirror.hashes[i])
    ensures Leads(d, s0, run', s') && s'.fill == s.fill && s'.mirror.files == s.mirror.files
    ensures |s'.mirror.metas| == |s.mirror.metas| && s'.mirror.metas[i].MetaEnsured? && s'.mirror.main.Collecting?
  {
    run', s' := OneMore(d, s0, run, s, Mirroring(Mirror.EnsureMeta(i)));
  }

  /** In some schedule without failures, next to some other callers, the mirror ends with an error. */
  ghost predicate CanErr(p: Mirror.Setup, cfg: Fill.Config, first: Files) {
    exists others, run, s :: ErrsBy(Setup(p, cfg, others), first, run, s)
  }

  ghost predicate ErrsBy(d: Setup, first: Files, run: seq<Step>, s: State) {
    Leads(d, Init(d, first), run, s) && s.mirror.main.Errored?
  }

  lemma BrokenEntryErrs(p: Mirror.Setup, cfg: Fill.Config, first: Files, i: nat)
    requires i < |p.hashes| && ProbeEntry(first, p.hashes[i]) == ProbeFailed
    ensures CanErr(p, cfg, first)
  {
    var d := Setup(p, cfg, []);
    var s0 := Init(d, first);
    var run1, s1 := RequestComes(d, first, i);
    var run2, s2 := OneByCaller(d, s0, run1, s1, i);
    assert ToldBy(s2, i, false);
    var run3, s3 := OneMore(d, s0, run2, s2, Refuse(i));
    var run4, s4 := FailedEndsMirror(d, s0, run3, s3, i);
    assert ErrsBy(Setup(p, cfg, []), first, run4, s4);
  }

  /** Another caller of the same entry removes the narinfo between the two steps of the handler's first probe. */
  lemma OwnDanglingErrs(p: Mirror.Setup, cfg: Fill.Config, first: Files, i: nat)
    requires cfg.ownEntryOnly && cfg.maxFills > 0 && Mirror.Honest(p) && i < |p.hashes|
    requires Fill.Dangling(first, p.hashes[i], cfg.content(p.hashes[i]))
    ensures CanErr(p, cfg, first)
  {
    var hash, n := p.hashes[i], |p.hashes|;
    var d := Setup(p, cfg, [hash]);
    var s0 := Init(d, first);
    assert Callers(d)[i] == hash && Callers(d)[n] == hash;
    var run1, s1 := RequestComes(d, first, i);
    var run2, s2 := OneByCaller(d, s0, run1, s1, i);
    assert s2.fill.tasks[i] == Fill.Task(hash, Fill.Stat(Fill.First, cfg.content(hash)));
    var steps3, fill3 := Fill.CallerWaitsForPermit(cfg, s2.fill, [], s2.fill, n);
    var steps4, fill4 := Fill.CallerRemovesNarinfo(cfg, s2.fill, steps3, fill3, n);
    var steps5, fill5 := Fill.Extend(cfg, s2.fill, steps4, fill4, n);
    var run5, s5 := ByCaller(d, s0, run2, s2, steps5, n);
    var run6, s6 := OneByCaller(d, s0, run5, s5, i);
    assert ToldBy(s6, i, true) && hash !in s6.mirror.files.narinfos;
    var run7, s7 := HandlerGoesOn(d, s0, run6, s6, i);
    var run8, s8 := RemovedEndsMirror(d, s0, run7, s7, i);
    assert ErrsBy(Setup(p, cfg, [hash]), first, run8, s8);
  }

  /** The request has come, one caller waits to fill its entry, and another has brought the entry's missing NAR. */
  ghost predicate ReadyBehindAWaiter(d: Setup, s: State, i: nat, n: nat, nar: NarPath) {
    && i < |d.mirror.hashes| == |s.mirror.metas| && i < n < |s.fill.tasks| && |d.mirror.hashes| <= n
    && s.mirror.metas[i].MetaAsked? && s.mirror.main.Collecting? && s.mirror.files == s.fill.files
    && s.fill.tasks[i] == Fill.Task(d.mirror.hashes[i], Fill.Probe(Fill.First))
    && s.fill.tasks[n] == Fill.Task(d.mirror.hashes[i], Fill.WaitPermit) && s.fill.permits > 0
    && ReadEntry(s.fill.files, d.mirror.hashes[i]) == Names(nar) && nar in s.fill.files.nars
  }

  lemma OtherBringsNar(d: Setup, first: Files, i: nat, other: Hash) returns (run: seq<Step>, s: State)
    requires d.cfg.ownEntryOnly && d.cfg.maxFills > 0 && i < |d.mirror.hashes|
    requires other != d.mirror.hashes[i] && Fill.Brings(d.cfg, first, d.mirror.hashes[i], other)
    requires d.others == [d.mirror.hashes[i], other]
    ensures Leads(d, Init(d, first), run, s)
    ensures ReadyBehindAWaiter(d, s, i, |d.mirror.hashes|, d.cfg.content(other))
  {
    var n := |d.mirror.hashes|;
    var s0 := Init(d, first);
    assert Callers(d)[i] == d.mirror.hashes[i] == Callers(d)[n] && Callers(d)[n + 1] == other;
    var run1, s1 := RequestComes(d, first, i);
    var steps2, fill2 := Fill.CallerWaitsForPermit(d.cfg, s1.fill, [], s1.fill, n);
    var run2, s2 := ByCaller(d, s0, run1, s1, steps2, n);
    var steps3, fill3 := Fill.CallerWaitsForPermit(d.cfg, s2.fill, [], s2.fill, n + 1);
    var steps4, fill4 := Fill.CallerRemovesNarinfo(d.cfg, s2.fill, steps3, fill3, n + 1);
    var steps5, fill5 := Fill.CallerFills(d.cfg, s2.fill, steps4, fill4, n + 1);
    run, s := ByCaller(d, s0, run2, s2, steps5, n + 1);
  }

  lemma WaiterRemoves(d: Setup, s0: State, run: seq<Step>, s: State, i: nat, n: nat, nar: NarPath)
    returns (run': seq<Step>, s': State)
    requires Leads(d, s0, run, s) && Mirror.Honest(d.mirror) && ReadyBehindAWaiter(d, s, i, n, nar)
    ensures Leads(d, s0, run', s') && s'.mirror.main.Errored?
  {
    var run6, s6 := OneByCaller(d, s0, run, s, i);
    assert s6.fill.tasks[i].pc == Fill.Stat(Fill.First, nar);
    var run7, s7 := OneByCaller(d, s0, run6, s6, i);
    assert ToldBy(s7, i, true);
    var run8, s8 := HandlerGoesOn(d, s0, run7, s7, i);
    var steps9, fill9 := Fill.CallerRemovesNarinfo(d.cfg, s8.fill, [], s8.fill, n);
    var run9, s9 := ByCaller(d, s0, run8, s8, steps9, n);
    run', s' := RemovedEndsMirror(d, s0, run9, s9, i);
  }

  /** Another caller, which found the entry not ready in time, removes the narinfo after the handler was told Ok. */
  lemma SharedDanglingErrs(p: Mirror.Setup, cfg: Fill.Config, first: Files, i: nat, other: Hash)
    requires cfg.ownEntryOnly && cfg.maxFills > 0 && Mirror.Honest(p) && i < |p.hashes|
    requires other != p.hashes[i] && Fill.Brings(cfg, first, p.hashes[i], other)
    ensures CanErr(p, cfg, first)
  {
    var others := [p.hashes[i], other];
    var d := Setup(p, cfg, others);
    var run1, s1 := OtherBringsNar(d, first, i, other);
    var run2, s2 := WaiterRemoves(d, Init(d, first), run1, s1, i, |p.hashes|, cfg.content(other));
    assert ErrsBy(Setup(p, cfg, others), first, run2, s2);
  }

  lemma UnsoundErrs(p: Mirror.Setup, cfg: Fill.Config, first: Files, i: nat)
    requires cfg.ownEntryOnly && cfg.maxFills > 0 && Mirror.Honest(p) && i < |p.hashes|
    requires ProbeEntry(first, p.hashes[i]) == ProbeFailed || Fill.FillableAt(cfg, first, p.hashes[i])
    ensures CanErr(p, cfg, first)
  {
    if ProbeEntry(first, p.hashes[i]) == ProbeFailed {
      BrokenEntryErrs(p, cfg, first, i);
    } else {
      var other :| Fill.Brings(cfg, first, p.hashes[i], other);
      if other == p.hashes[i] {
        OwnDanglingErrs(p, cfg, first, i);
      } else {
        SharedDanglingErrs(p, cfg, first, i, other);
      }
    }
  }

  /**
    A delivery can end with an error although nothing has failed exactly if the cache starts, for some path of the
    closure, with a narinfo that cannot be read or with a dangling one whose NAR some fill would write.
   */
  lemma ErrsIffUnsound(p: Mirror.Setup, cfg: Fill.Config, first: Files)
    requires cfg.ownEntryOnly && cfg.maxFills > 0 && Mirror.Honest(p)
    ensures CanErr(p, cfg, first) <==>
              exists hash :: hash in p.hashes
                             && (ProbeEntry(first, hash) == ProbeFailed || Fill.FillableAt(cfg, first, hash))
  {
    if hash :| hash in p.hashes && (ProbeEntry(first, hash) == ProbeFailed || Fill.FillableAt(cfg, first, hash)) {
      var i :| 0 <= i < |p.hashes| && p.hashes[i] == hash;
      UnsoundErrs(p, cfg, first, i);
    } else if CanErr(p, cfg, first) {
      var others, run, s :| ErrsBy(Setup(p, cfg, others), first, run, s);
      assert AllSound(Setup(p, cfg, others), first);
      UndisturbedStaysUnfailed(Setup(p, cfg, others), first, run);
    }
  }
}
