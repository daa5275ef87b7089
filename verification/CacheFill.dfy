/**
  Filling the persistent output cache: ensure_cache_entry of server/output_cache.rs as a step system over any
  number of concurrent callers.

  A caller probes the entry, takes the lock of its store hash, probes again, takes one of the fill permits,
  removes a stale narinfo, runs `nix copy` and probes a third time.  A probe is two steps, for it reads the narinfo
  and then looks for the NAR that it names; the first probe is made without the lock.  Reading, finding, writing or
  removing one file is one step.

  `nix copy` is foreign.  With `ownEntryOnly` it writes the NAR and then the narinfo of its argument and nothing
  else; without it, it may leave any files at all behind.
 */
module CacheFill {
  import opened Protocol
  import opened CacheFiles

  datatype Config = Config(maxFills: nat, content: Hash -> NarPath, ownEntryOnly: bool)

  /** The probes: before the lock is taken, under the lock, and after the copy. */
  datatype Which = First | Second | Last

  datatype Pc =
    | Probe(which: Which) | Stat(which: Which, nar: NarPath)
    | LookUpLock | WaitLock | WaitPermit | RemoveStale | Copying(wroteNar: bool) | Returned(ok: bool)

  datatype Task = Task(hash: Hash, pc: Pc)

  /**
    `locks` is the table of per-hash mutexes: a hash is in it once some caller has looked its lock up, and maps to
    the caller that holds it.  `filled` lists the hashes whose narinfo a copy has written, in order.
   */
  datatype State = State(
    files: Files,
    locks: map<Hash, Option<nat>>,
    permits: nat,
    tasks: seq<Task>,
    filled: seq<Hash>)

  function Init(cfg: Config, files: Files, callers: seq<Hash>): State {
    State(files, map[], cfg.maxFills,
          seq(|callers|, i requires 0 <= i < |callers| => Task(callers[i], Probe(First))), [])
  }

  predicate HoldsLock(pc: Pc) {
    match pc
    case Probe(which) => which != First
    case Stat(which, _) => which != First
    case WaitPermit => true
    case _ => HoldsPermit(pc)
  }

  predicate HoldsPermit(pc: Pc) {
    match pc
    case Probe(which) => which == Last
    case Stat(which, _) => which == Last
    case RemoveStale => true
    case Copying(_) => true
    case _ => false
  }

  datatype Act = Go | Fails | CopyWrites(files: Files) | CopyExits

  datatype Step = Step(task: nat, act: Act)

  function At(s: State, t: nat, pc: Pc): State
    requires t < |s.tasks|
  {
    s.(tasks := s.tasks[t := s.tasks[t].(pc := pc)])
  }

  /** Returning drops whatever guards the caller holds. */
  function Return(s: State, t: nat, ok: bool): State
    requires t < |s.tasks|
  {
    var task := s.tasks[t];
    At(s, t, Returned(ok)).(
      locks := if HoldsLock(task.pc) then s.locks[task.hash := None] else s.locks,
      permits := if HoldsPermit(task.pc) then s.permits + 1 else s.permits)
  }

  /** An entry that a probe finds not ready is filled, except after the copy: then the fill has failed. */
  function AfterMiss(s: State, t: nat, which: Which): State
    requires t < |s.tasks|
  {
    match which
    case First => At(s, t, LookUpLock)
    case Second => At(s, t, WaitPermit)
    case Last => Return(s, t, false)
  }

  function Goes(cfg: Config, s: State, t: nat): Option<State>
    requires t < |s.tasks|
  {
    var hash := s.tasks[t].hash;
    match s.tasks[t].pc
    case Probe(which) =>
      (match ReadEntry(s.files, hash)
       case Unready => Some(AfterMiss(s, t, which))
       case Broken => Some(Return(s, t, false))
       case Names(nar) => Some(At(s, t, Stat(which, nar))))
    case Stat(which, nar) => Some(if nar in s.files.nars then Return(s, t, true) else AfterMiss(s, t, which))
    case LookUpLock =>
      Some(At(s, t, WaitLock).(locks := if hash in s.locks then s.locks else s.locks[hash := None]))
    case WaitLock =>
      if hash in s.locks && s.locks[hash].None? then Some(At(s, t, Probe(Second)).(locks := s.locks[hash := Some(t)]))
      else None
    case WaitPermit =>
      if s.permits > 0 then Some(At(s, t, RemoveStale).(permits := s.permits - 1)) else None
    case RemoveStale =>
      Some(At(s, t, Copying(false)).(files := s.files.(narinfos := s.files.narinfos - {hash})))
    case Copying(wroteNar) =>
      if !cfg.ownEntryOnly then None
      else if !wroteNar then
        Some(At(s, t, Copying(true)).(files := s.files.(nars := s.files.nars + {cfg.content(hash)})))
      else
        Some(At(s, t, Probe(Last)).(
               files := s.files.(narinfos := s.files.narinfos[hash := Text(true, NarUrl(cfg.content(hash)))]),
               filled := s.filled + [hash]))
    case Returned(_) => None
  }

  function Next(cfg: Config, s: State, step: Step): Option<State> {
    if step.task >= |s.tasks| || s.tasks[step.task].pc.Returned? then None
    else match step.act
      case Go => Goes(cfg, s, step.task)
      case Fails => Some(Return(s, step.task, false))
      case CopyWrites(files) =>
        if s.tasks[step.task].pc.Copying? && !cfg.ownEntryOnly then Some(s.(files := files)) else None
      case CopyExits =>
        if s.tasks[step.task].pc.Copying? && !cfg.ownEntryOnly then Some(At(s, step.task, Probe(Last))) else None
  }

  function Exec(cfg: Config, s: State, run: seq<Step>): Option<State>
    decreases |run|
  {
    if run == [] then Some(s)
    else match Next(cfg, s, run[0])
      case None => None
      case Some(s') => Exec(cfg, s', run[1..])
  }

  ghost predicate Reachable(cfg: Config, files: Files, callers: seq<Hash>, s: State) {
    exists run :: Exec(cfg, Init(cfg, files, callers), run) == Some(s)
  }

  lemma {:induction false} ExecAppend(cfg: Config, s: State, run: seq<Step>, step: Step)
    requires Exec(cfg, s, run).Some?
    ensures Exec(cfg, s, run + [step]) == Next(cfg, Exec(cfg, s, run).value, step)
    decreases |run|
  {
    if run == [] {
      assert run + [step] == [step];
      match Next(cfg, s, step) {
        case None =>
        case Some(s') => assert Exec(cfg, s', []) == Some(s');
      }
    } else {
      assert (run + [step])[1..] == run[1..] + [step];
      ExecAppend(cfg, Next(cfg, s, run[0]).value, run[1..], step);
    }
  }

  /** How many callers are at a point where they hold a permit. */
  function PermitHolders(tasks: seq<Task>): nat {
    if tasks == [] then 0 else (if HoldsPermit(tasks[0].pc) then 1 else 0) + PermitHolders(tasks[1..])
  }

  lemma {:induction false} PermitHoldersUpdate(tasks: seq<Task>, t: nat, task: Task)
    requires t < |tasks|
    ensures PermitHolders(tasks[t := task]) + (if HoldsPermit(tasks[t].pc) then 1 else 0) ==
            PermitHolders(tasks) + (if HoldsPermit(task.pc) then 1 else 0)
  {
    if t > 0 {
      assert tasks[t := task][1..] == tasks[1..][t - 1 := task];
      PermitHoldersUpdate(tasks[1..], t - 1, task);
    } else {
      assert tasks[t := task][1..] == tasks[1..];
    }
  }

  lemma {:induction false} NobodyHoldsPermits(tasks: seq<Task>)
    ensures (forall t :: 0 <= t < |tasks| ==> !HoldsPermit(tasks[t].pc)) ==> PermitHolders(tasks) == 0
    ensures (exists t :: 0 <= t < |tasks| && HoldsPermit(tasks[t].pc)) ==> PermitHolders(tasks) > 0
  {
    if tasks != [] {
      NobodyHoldsPermits(tasks[1..]);
      forall t | 0 <= t < |tasks| && HoldsPermit(tasks[t].pc)
        ensures PermitHolders(tasks) > 0
      {
        if t > 0 { assert tasks[1..][t - 1] == tasks[t]; }
      }
    }
  }

  // ---------------------------------------------------------------- locks and permits, for any copy

  ghost predicate LocksHeld(s: State) {
    && (forall t :: 0 <= t < |s.tasks| && HoldsLock(s.tasks[t].pc) ==>
          s.tasks[t].hash in s.locks && s.locks[s.tasks[t].hash] == Some(t))
    && (forall hash :: hash in s.locks && s.locks[hash].Some? ==>
          var t := s.locks[hash].value; t < |s.tasks| && s.tasks[t].hash == hash && HoldsLock(s.tasks[t].pc))
    && (forall t :: 0 <= t < |s.tasks| && s.tasks[t].pc.WaitLock? ==> s.tasks[t].hash in s.locks)
  }

  ghost predicate Guarded(cfg: Config, s: State) {
    LocksHeld(s) && s.permits + PermitHolders(s.tasks) == cfg.maxFills
  }

  /** What a step of caller t does to the lock table: take its hash's lock, give it back, or at most look it up. */
  ghost predicate LockMove(s: State, t: nat, s': State, before: Pc, after: Pc)
    requires t < |s.tasks|
  {
    var hash := s.tasks[t].hash;
    && (after.WaitLock? ==> hash in s'.locks)
    && (if !HoldsLock(before) && HoldsLock(after) then
          hash in s.locks && s.locks[hash].None? && s'.locks == s.locks[hash := Some(t)]
        else if HoldsLock(before) && !HoldsLock(after) then s'.locks == s.locks[hash := None]
        else s'.locks == s.locks || (hash !in s.locks && s'.locks == s.locks[hash := None]))
  }

  /** Every step but a write in the middle of a copy moves one caller forward. */
  ghost predicate MovesForward(s: State, t: nat, s': State) {
    && t < |s.tasks| && |s'.tasks| == |s.tasks|
    && var before, after := s.tasks[t].pc, s'.tasks[t].pc;
    && s'.tasks == s.tasks[t := Task(s.tasks[t].hash, after)]
    && StepsLeft(after) < StepsLeft(before)
    && s'.permits + (if HoldsPermit(after) then 1 else 0) == s.permits + (if HoldsPermit(before) then 1 else 0)
    && LockMove(s, t, s', before, after)
  }

  lemma ReturnMovesForward(s: State, t: nat, ok: bool)
    requires t < |s.tasks| && !s.tasks[t].pc.Returned?
    ensures MovesForward(s, t, Return(s, t, ok))
  {
  }

  lemma MissMovesForward(s: State, t: nat, which: Which)
    requires t < |s.tasks| && (s.tasks[t].pc.Probe? || s.tasks[t].pc.Stat?) && s.tasks[t].pc.which == which
    ensures MovesForward(s, t, AfterMiss(s, t, which))
  {
    if which == Last {
      ReturnMovesForward(s, t, false);
    }
  }

  lemma GoMovesForward(cfg: Config, s: State, t: nat, s': State)
    requires t < |s.tasks| && Goes(cfg, s, t) == Some(s')
    ensures MovesForward(s, t, s')
  {
    var pc := s.tasks[t].pc;
    if pc.Probe? || pc.Stat? {
      ReturnMovesForward(s, t, true);
      ReturnMovesForward(s, t, false);
      MissMovesForward(s, t, pc.which);
    }
  }

  lemma StepMovesForward(cfg: Config, s: State, step: Step, s': State)
    requires Next(cfg, s, step) == Some(s') && !step.act.CopyWrites?
    ensures MovesForward(s, step.task, s')
  {
    if step.act.Go? {
      GoMovesForward(cfg, s, step.task, s');
    }
  }

  lemma MoveKeepsLocksHeld(s: State, t: nat, s': State)
    requires LocksHeld(s) && MovesForward(s, t, s')
    ensures LocksHeld(s')
  {
  }

  lemma StepKeepsGuarded(cfg: Config, s: State, step: Step, s': State)
    requires Guarded(cfg, s) && Next(cfg, s, step) == Some(s')
    ensures Guarded(cfg, s')
  {
    if !step.act.CopyWrites? {
      StepMovesForward(cfg, s, step, s');
      MoveKeepsLocksHeld(s, step.task, s');
      PermitHoldersUpdate(s.tasks, step.task, s'.tasks[step.task]);
    }
  }

  lemma {:induction false} InitGuarded(cfg: Config, files: Files, callers: seq<Hash>)
    ensures Guarded(cfg, Init(cfg, files, callers))
  {
    NobodyHoldsPermits(Init(cfg, files, callers).tasks);
  }

  lemma {:induction false} RunKeepsGuarded(cfg: Config, s: State, run: seq<Step>)
    requires Guarded(cfg, s) && Exec(cfg, s, run).Some?
    ensures Guarded(cfg, Exec(cfg, s, run).value)
    decreases |run|
  {
    if run != [] {
      var s' := Next(cfg, s, run[0]).value;
      StepKeepsGuarded(cfg, s, run[0], s');
      RunKeepsGuarded(cfg, s', run[1..]);
    }
  }

  /** Whatever a copy writes: one filler per hash, at most `maxFills` fillers in all. */
  lemma FillsAreExclusiveAndBounded(cfg: Config, files: Files, callers: seq<Hash>, s: State)
    requires Reachable(cfg, files, callers, s)
    ensures forall t, u | 0 <= t < |s.tasks| && 0 <= u < |s.tasks| && s.tasks[t].hash == s.tasks[u].hash ::
              HoldsLock(s.tasks[t].pc) && HoldsLock(s.tasks[u].pc) ==> t == u
    ensures PermitHolders(s.tasks) <= cfg.maxFills
    ensures (forall t :: 0 <= t < |s.tasks| ==> s.tasks[t].pc.Returned?) ==>
              s.permits == cfg.maxFills && forall hash :: hash in s.locks ==> s.locks[hash].None?
  {
    var run :| Exec(cfg, Init(cfg, files, callers), run) == Some(s);
    InitGuarded(cfg, files, callers);
    RunKeepsGuarded(cfg, Init(cfg, files, callers), run);
    NobodyHoldsPermits(s.tasks);
  }

  // ---------------------------------------------------------------- what Ok follows, for any copy

  /** The narinfo of the caller's entry named this NAR in the state after the first i steps. */
  ghost predicate ReadAt(cfg: Config, s: State, run: seq<Step>, i: nat, hash: Hash, nar: NarPath) {
    i < |run| && Exec(cfg, s, run[..i]).Some? && ReadEntry(Exec(cfg, s, run[..i]).value.files, hash) == Names(nar)
  }

  /** The NAR was there in the state after the first j steps, not before that narinfo was read. */
  ghost predicate FoundAt(cfg: Config, s: State, run: seq<Step>, i: nat, j: nat, nar: NarPath) {
    i < j < |run| && Exec(cfg, s, run[..j]).Some? && nar in Exec(cfg, s, run[..j]).value.files.nars
  }

  ghost predicate PassedCheck(cfg: Config, s: State, run: seq<Step>, hash: Hash) {
    exists i, j, nar :: ReadAt(cfg, s, run, i, hash, nar) && FoundAt(cfg, s, run, i, j, nar)
  }

  ghost predicate CheckedSoFar(cfg: Config, s: State, run: seq<Step>, task: Task) {
    match task.pc
    case Stat(_, nar) => exists i :: ReadAt(cfg, s, run, i, task.hash, nar)
    case Returned(true) => PassedCheck(cfg, s, run, task.hash)
    case _ => true
  }

  lemma CheckedLater(cfg: Config, s: State, run: seq<Step>, step: Step, task: Task)
    requires CheckedSoFar(cfg, s, run, task)
    ensures CheckedSoFar(cfg, s, run + [step], task)
  {
    var more := run + [step];
    assert forall i :: 0 <= i <= |run| ==> more[..i] == run[..i];
    if task.pc.Stat? {
      var i: nat :| ReadAt(cfg, s, run, i, task.hash, task.pc.nar);
      assert ReadAt(cfg, s, more, i, task.hash, task.pc.nar);
    } else if task.pc == Returned(true) {
      var i, j: nat, nar :| ReadAt(cfg, s, run, i, task.hash, nar) && FoundAt(cfg, s, run, i, j, nar);
      assert ReadAt(cfg, s, more, i, task.hash, nar) && FoundAt(cfg, s, more, i, j, nar);
    }
  }

  /** The step that takes a caller past a read or past a look for the NAR adds what it saw. */
  lemma StepIsChecked(cfg: Config, s: State, run: seq<Step>, mid: State, step: Step, s': State)
    requires Exec(cfg, s, run) == Some(mid) && Next(cfg, mid, step) == Some(s')
    requires CheckedSoFar(cfg, s, run, mid.tasks[step.task])
    ensures step.task < |s'.tasks| && CheckedSoFar(cfg, s, run + [step], s'.tasks[step.task])
  {
    var more := run + [step];
    var task, task' := mid.tasks[step.task], s'.tasks[step.task];
    assert forall i :: 0 <= i <= |run| ==> more[..i] == run[..i];
    assert run[..|run|] == run;
    if task' == task {
      CheckedLater(cfg, s, run, step, task);
    } else if task'.pc.Stat? {
      assert ReadAt(cfg, s, more, |run|, task.hash, task'.pc.nar);
    } else if task'.pc == Returned(true) {
      var i: nat :| ReadAt(cfg, s, run, i, task.hash, task.pc.nar);
      assert ReadAt(cfg, s, more, i, task.hash, task.pc.nar);
      assert FoundAt(cfg, s, more, i, |run|, task.pc.nar);
    }
  }

  lemma {:induction false} RunIsChecked(cfg: Config, s: State, run: seq<Step>, t: nat)
    requires Exec(cfg, s, run).Some? && t < |s.tasks|
    requires forall u :: 0 <= u < |s.tasks| ==> s.tasks[u].pc == Probe(First)
    ensures |Exec(cfg, s, run).value.tasks| == |s.tasks|
    ensures CheckedSoFar(cfg, s, run, Exec(cfg, s, run).value.tasks[t])
    decreases |run|
  {
    if run != [] {
      var init, step := run[..|run| - 1], run[|run| - 1];
      assert run == init + [step];
      PrefixRuns(cfg, s, run, |run| - 1);
      var mid := Exec(cfg, s, init).value;
      ExecAppend(cfg, s, init, step);
      RunIsChecked(cfg, s, init, t);
      if t == step.task {
        StepIsChecked(cfg, s, init, mid, step, Exec(cfg, s, run).value);
      } else {
        CheckedLater(cfg, s, init, step, mid.tasks[t]);
      }
    }
  }

  lemma {:induction false} PrefixRuns(cfg: Config, s: State, run: seq<Step>, k: nat)
    requires Exec(cfg, s, run).Some? && k <= |run|
    ensures Exec(cfg, s, run[..k]).Some?
    decreases |run|
  {
    if k > 0 {
      assert run[..k][1..] == run[1..][..k - 1];
      PrefixRuns(cfg, Next(cfg, s, run[0]).value, run[1..], k - 1);
    }
  }

  /**
    Whatever a copy writes: every Ok follows a check that passed.  The caller read a signed narinfo of its entry, and
    after that it found the NAR which this narinfo named; nothing says that the two were there together.
   */
  lemma OkFollowsPassedCheck(cfg: Config, files: Files, callers: seq<Hash>, run: seq<Step>, t: nat)
    requires Exec(cfg, Init(cfg, files, callers), run).Some? && t < |callers|
    ensures var s := Exec(cfg, Init(cfg, files, callers), run).value;
            |s.tasks| == |callers|
            && (s.tasks[t].pc == Returned(true) ==> PassedCheck(cfg, Init(cfg, files, callers), run, s.tasks[t].hash))
  {
    RunIsChecked(cfg, Init(cfg, files, callers), run, t);
  }

  // ---------------------------------------------------------------- progress

  /**
    Absent failures one of the callers that have begun can always go on, if the others are still before their first
    step: one of those that the rest of them wait for.
   */
  lemma BegunCanGo(cfg: Config, s: State, begun: nat -> bool, t: nat)
    requires Guarded(cfg, s) && cfg.maxFills > 0
    requires begun(t) && t < |s.tasks| && !s.tasks[t].pc.Returned?
    requires forall u: nat :: u < |s.tasks| && !begun(u) ==> s.tasks[u].pc == Probe(First)
    ensures exists step: Step :: begun(step.task) && !step.act.Fails? && !step.act.CopyWrites?
                                 && Next(cfg, s, step).Some?
  {
    if w: nat :| w < |s.tasks| && begun(w) && !s.tasks[w].pc.Returned? && !s.tasks[w].pc.WaitLock?
                 && !s.tasks[w].pc.WaitPermit? {
      assert Next(cfg, s, Step(w, if s.tasks[w].pc.Copying? && !cfg.ownEntryOnly then CopyExits else Go)).Some?;
    } else {
      NobodyHoldsPermits(s.tasks);
      if w: nat :| w < |s.tasks| && begun(w) && s.tasks[w].pc.WaitPermit? {
        assert Next(cfg, s, Step(w, Go)).Some?;
      } else {
        assert s.locks[s.tasks[t].hash].None?;
        assert Next(cfg, s, Step(t, Go)).Some?;
      }
    }
  }

  lemma ReachableGuarded(cfg: Config, files: Files, callers: seq<Hash>, s: State)
    requires Reachable(cfg, files, callers, s)
    ensures Guarded(cfg, s)
  {
    var run :| Exec(cfg, Init(cfg, files, callers), run) == Some(s);
    InitGuarded(cfg, files, callers);
    RunKeepsGuarded(cfg, Init(cfg, files, callers), run);
  }

  lemma NeverStuck(cfg: Config, files: Files, callers: seq<Hash>, s: State)
    requires Reachable(cfg, files, callers, s) && cfg.maxFills > 0
    requires exists t :: 0 <= t < |s.tasks| && !s.tasks[t].pc.Returned?
    ensures exists step: Step :: !step.act.Fails? && Next(cfg, s, step).Some?
  {
    var t: nat :| t < |s.tasks| && !s.tasks[t].pc.Returned?;
    ReachableGuarded(cfg, files, callers, s);
    BegunCanGo(cfg, s, (u: nat) => true, t);
  }

  /** The steps a caller can still take: a copy of the own-entry kind takes two. */
  function StepsLeft(pc: Pc): nat {
    match pc
    case Probe(which) => (match which case First => 12 case Second => 8 case Last => 2)
    case Stat(which, _) => (match which case First => 11 case Second => 7 case Last => 1)
    case LookUpLock => 10
    case WaitLock => 9
    case WaitPermit => 6
    case RemoveStale => 5
    case Copying(wroteNar) => if wroteNar then 3 else 4
    case Returned(_) => 0
  }

  function Work(tasks: seq<Task>): nat {
    if tasks == [] then 0 else StepsLeft(tasks[0].pc) + Work(tasks[1..])
  }

  lemma {:induction false} WorkUpdate(tasks: seq<Task>, t: nat, task: Task)
    requires t < |tasks|
    ensures Work(tasks[t := task]) + StepsLeft(tasks[t].pc) == Work(tasks) + StepsLeft(task.pc)
  {
    if t > 0 {
      assert tasks[t := task][1..] == tasks[1..][t - 1 := task];
      WorkUpdate(tasks[1..], t - 1, task);
    } else {
      assert tasks[t := task][1..] == tasks[1..];
    }
  }

  /** Every step other than a write in the middle of a copy brings the callers nearer to their ends. */
  lemma StepLowersWork(cfg: Config, s: State, step: Step, s': State)
    requires Next(cfg, s, step) == Some(s')
    ensures Work(s'.tasks) + (if step.act.CopyWrites? then 0 else 1) <= Work(s.tasks)
  {
    if !step.act.CopyWrites? {
      StepMovesForward(cfg, s, step, s');
      WorkUpdate(s.tasks, step.task, s'.tasks[step.task]);
    }
  }

  /** The steps of a run other than what foreign copies write. */
  function CallerSteps(run: seq<Step>): nat {
    if run == [] then 0 else (if run[0].act.CopyWrites? then 0 else 1) + CallerSteps(run[1..])
  }

  lemma {:induction false} CallerStepsAreBounded(cfg: Config, s: State, run: seq<Step>)
    requires Exec(cfg, s, run).Some?
    ensures CallerSteps(run) + Work(Exec(cfg, s, run).value.tasks) <= Work(s.tasks)
    decreases |run|
  {
    if run != [] {
      var s' := Next(cfg, s, run[0]).value;
      StepLowersWork(cfg, s, run[0], s');
      CallerStepsAreBounded(cfg, s', run[1..]);
    }
  }

  lemma {:induction false} FreshWork(tasks: seq<Task>)
    requires forall t :: 0 <= t < |tasks| ==> tasks[t].pc == Probe(First)
    ensures Work(tasks) == 12 * |tasks|
  {
    if tasks != [] {
      FreshWork(tasks[1..]);
    }
  }

  lemma {:induction false} OwnRunsHaveCallerSteps(cfg: Config, s: State, run: seq<Step>)
    requires cfg.ownEntryOnly && Exec(cfg, s, run).Some?
    ensures CallerSteps(run) == |run|
    decreases |run|
  {
    if run != [] {
      OwnRunsHaveCallerSteps(cfg, Next(cfg, s, run[0]).value, run[1..]);
    }
  }

  /**
    n callers take at most 12n steps of any schedule, failures included, besides whatever foreign copies write; a copy
    that writes its own entry is among these steps.
   */
  lemma CallersFinish(cfg: Config, files: Files, callers: seq<Hash>, run: seq<Step>)
    requires Exec(cfg, Init(cfg, files, callers), run).Some?
    ensures CallerSteps(run) <= 12 * |callers|
    ensures cfg.ownEntryOnly ==> |run| <= 12 * |callers|
  {
    CallerStepsAreBounded(cfg, Init(cfg, files, callers), run);
    FreshWork(Init(cfg, files, callers).tasks);
    if cfg.ownEntryOnly {
      OwnRunsHaveCallerSteps(cfg, Init(cfg, files, callers), run);
    }
  }

  // ---------------------------------------------------------------- what own-entry copies do to the files

  /** The entry as a fill of its own leaves it. */
  predicate Own(cfg: Config, files: Files, hash: Hash) {
    ReadEntry(files, hash) == Names(cfg.content(hash)) && cfg.content(hash) in files.nars
  }

  /** A fill has been at this entry: its old narinfo is gone. */
  predicate Touched(cfg: Config, files: Files, hash: Hash) {
    hash !in files.narinfos || Own(cfg, files, hash)
  }

  /** An entry is as it was at first, or it was not ready at first and a fill has been at it. */
  ghost predicate EntryOk(cfg: Config, first: Files, files: Files, hash: Hash) {
    SameEntry(first, files, hash) || (ProbeEntry(first, hash) == NotReady && Touched(cfg, files, hash))
  }

  /** A NAR was there at first, or it is what the fill of an entry that was not ready at first has written. */
  ghost predicate NarOk(cfg: Config, first: Files, nar: NarPath) {
    nar in first.nars || exists other :: cfg.content(other) == nar && ProbeEntry(first, other) == NotReady
  }

  ghost predicate FilesOk(cfg: Config, first: Files, files: Files) {
    && first.nars <= files.nars
    && (forall nar :: nar in files.nars ==> NarOk(cfg, first, nar))
    && (forall hash :: EntryOk(cfg, first, files, hash))
  }

  /** What a caller's position says about its entry. */
  predicate TaskOk(cfg: Config, first: Files, s: State, task: Task) {
    var files, hash := s.files, task.hash;
    match task.pc
    case Probe(which) => which == Last ==> Own(cfg, files, hash)
    case Stat(which, nar) =>
      (match which
       case First => ReadEntry(first, hash) == Names(nar)
         || (ProbeEntry(first, hash) == NotReady && Touched(cfg, files, hash))
       case Second => ReadEntry(files, hash) == Names(nar)
       case Last => Own(cfg, files, hash) && nar == cfg.content(hash))
    case LookUpLock => true
    case WaitLock => true
    case WaitPermit => ProbeEntry(first, hash) == NotReady && hash !in s.filled
    case RemoveStale => ProbeEntry(first, hash) == NotReady && hash !in s.filled
    case Copying(wroteNar) =>
      && ProbeEntry(first, hash) == NotReady && hash !in s.filled && hash !in files.narinfos
      && (wroteNar ==> cfg.content(hash) in files.nars)
    case Returned(ok) => ok ==> ProbeEntry(first, hash) != ProbeFailed && SafeAfterOk(files, hash)
  }

  ghost predicate Settled(cfg: Config, first: Files, s: State) {
    && FilesOk(cfg, first, s.files)
    && (forall t :: 0 <= t < |s.tasks| ==> TaskOk(cfg, first, s, s.tasks[t]))
    && (forall i :: 0 <= i < |s.filled| ==> Own(cfg, s.files, s.filled[i]))
    && (forall i, j :: 0 <= i < j < |s.filled| ==> s.filled[i] != s.filled[j])
  }

  /** The three changes of files that a caller at this position can make, or none. */
  ghost predicate FileStep(cfg: Config, s: State, t: nat, s': State)
    requires t < |s.tasks|
  {
    var hash := s.tasks[t].hash;
    || (s'.files == s.files && s'.filled == s.filled)
    || (s.tasks[t].pc == RemoveStale && s'.files == s.files.(narinfos := s.files.narinfos - {hash})
        && s'.filled == s.filled)
    || (s.tasks[t].pc == Copying(false) && s'.files == s.files.(nars := s.files.nars + {cfg.content(hash)})
        && s'.filled == s.filled)
    || (s.tasks[t].pc == Copying(true)
        && s'.files == s.files.(narinfos := s.files.narinfos[hash := Text(true, NarUrl(cfg.content(hash)))])
        && s'.filled == s.filled + [hash])
  }

  lemma StepIsFileStep(cfg: Config, s: State, step: Step, s': State)
    requires cfg.ownEntryOnly && Next(cfg, s, step) == Some(s')
    ensures FileStep(cfg, s, step.task, s')
  {
  }

  lemma FileStepKeepsEntry(cfg: Config, first: Files, s: State, t: nat, s': State, hash: Hash)
    requires Settled(cfg, first, s) && t < |s.tasks| && FileStep(cfg, s, t, s')
    ensures EntryOk(cfg, first, s'.files, hash)
    ensures Own(cfg, s.files, hash) && s.tasks[t] != Task(hash, RemoveStale) ==> Own(cfg, s'.files, hash)
    ensures Touched(cfg, s.files, hash) ==> Touched(cfg, s'.files, hash)
    ensures SafeAfterOk(s.files, hash) ==> SafeAfterOk(s'.files, hash)
  {
    assert TaskOk(cfg, first, s, s.tasks[t]);
    assert EntryOk(cfg, first, s.files, hash);
  }

  lemma FileStepKeepsFiles(cfg: Config, first: Files, s: State, t: nat, s': State)
    requires Settled(cfg, first, s) && t < |s.tasks| && FileStep(cfg, s, t, s')
    ensures FilesOk(cfg, first, s'.files) && s.files.nars <= s'.files.nars
  {
    assert TaskOk(cfg, first, s, s.tasks[t]);
    forall hash
      ensures EntryOk(cfg, first, s'.files, hash)
    {
      FileStepKeepsEntry(cfg, first, s, t, s', hash);
    }
    forall nar | nar in s'.files.nars
      ensures NarOk(cfg, first, nar)
    {
      if nar in s.files.nars {
        assert NarOk(cfg, first, nar);
      } else {
        assert nar == cfg.content(s.tasks[t].hash);
      }
    }
  }

  /** Only the caller that holds the lock of a hash changes its narinfo or fills it. */
  lemma OthersKeepEntry(cfg: Config, s: State, t: nat, s': State, hash: Hash)
    requires t < |s.tasks| && FileStep(cfg, s, t, s') && s.tasks[t].hash != hash
    ensures SameEntry(s.files, s'.files, hash) && (hash in s'.filled <==> hash in s.filled)
  {
  }

  lemma OthersStayOk(cfg: Config, first: Files, s: State, t: nat, s': State, u: nat)
    requires Guarded(cfg, s) && Settled(cfg, first, s) && t < |s.tasks| && FileStep(cfg, s, t, s')
    requires u < |s.tasks| && u != t
    ensures TaskOk(cfg, first, s', s.tasks[u])
  {
    var task := s.tasks[u];
    assert TaskOk(cfg, first, s, task);
    FileStepKeepsFiles(cfg, first, s, t, s');
    FileStepKeepsEntry(cfg, first, s, t, s', task.hash);
    if HoldsLock(task.pc) {
      if s.tasks[t].hash != task.hash {
        OthersKeepEntry(cfg, s, t, s', task.hash);
      } else {
        assert !HoldsLock(s.tasks[t].pc);
        assert s'.files == s.files && s'.filled == s.filled;
      }
    }
  }

  lemma ProbeStaysOk(cfg: Config, first: Files, s: State, step: Step, s': State)
    requires Settled(cfg, first, s) && cfg.ownEntryOnly && Next(cfg, s, step) == Some(s')
    requires s.tasks[step.task].pc.Probe? || s.tasks[step.task].pc.Stat?
    ensures TaskOk(cfg, first, s', s'.tasks[step.task])
  {
    var task := s.tasks[step.task];
    assert TaskOk(cfg, first, s, task);
    assert EntryOk(cfg, first, s.files, task.hash);
    assert task.hash in s.filled ==> Own(cfg, s.files, task.hash);
  }

  lemma OwnStepStaysOk(cfg: Config, first: Files, s: State, step: Step, s': State)
    requires Settled(cfg, first, s) && cfg.ownEntryOnly && Next(cfg, s, step) == Some(s')
    ensures TaskOk(cfg, first, s', s'.tasks[step.task])
  {
    assert TaskOk(cfg, first, s, s.tasks[step.task]);
    if s.tasks[step.task].pc.Probe? || s.tasks[step.task].pc.Stat? {
      ProbeStaysOk(cfg, first, s, step, s');
    }
  }

  lemma FilledStaysOwn(cfg: Config, first: Files, s: State, t: nat, s': State)
    requires Settled(cfg, first, s) && t < |s.tasks| && FileStep(cfg, s, t, s')
    ensures forall i :: 0 <= i < |s'.filled| ==> Own(cfg, s'.files, s'.filled[i])
    ensures forall i, j :: 0 <= i < j < |s'.filled| ==> s'.filled[i] != s'.filled[j]
  {
    assert TaskOk(cfg, first, s, s.tasks[t]);
    forall i | 0 <= i < |s'.filled|
      ensures Own(cfg, s'.files, s'.filled[i])
    {
      if i < |s.filled| {
        assert Own(cfg, s.files, s.filled[i]) && s.filled[i] in s.filled;
        FileStepKeepsEntry(cfg, first, s, t, s', s.filled[i]);
      }
    }
    forall i, j | 0 <= i < j < |s'.filled|
      ensures s'.filled[i] != s'.filled[j]
    {
      assert s.filled[i] in s.filled;
    }
  }

  lemma StepKeepsSettled(cfg: Config, first: Files, s: State, step: Step, s': State)
    requires Guarded(cfg, s) && Settled(cfg, first, s) && cfg.ownEntryOnly && Next(cfg, s, step) == Some(s')
    ensures Settled(cfg, first, s')
  {
    StepIsFileStep(cfg, s, step, s');
    FileStepKeepsFiles(cfg, first, s, step.task, s');
    FilledStaysOwn(cfg, first, s, step.task, s');
    StepMovesForward(cfg, s, step, s');
    forall u | 0 <= u < |s'.tasks|
      ensures TaskOk(cfg, first, s', s'.tasks[u])
    {
      if u == step.task {
        OwnStepStaysOk(cfg, first, s, step, s');
      } else {
        OthersStayOk(cfg, first, s, step.task, s', u);
      }
    }
  }

  lemma InitSettled(cfg: Config, first: Files, callers: seq<Hash>)
    ensures Settled(cfg, first, Init(cfg, first, callers))
  {
    forall nar | nar in first.nars
      ensures NarOk(cfg, first, nar)
    {
    }
  }

  lemma {:induction false} RunKeepsSettled(cfg: Config, first: Files, s: State, run: seq<Step>)
    requires Guarded(cfg, s) && Settled(cfg, first, s) && cfg.ownEntryOnly && Exec(cfg, s, run).Some?
    ensures Guarded(cfg, Exec(cfg, s, run).value) && Settled(cfg, first, Exec(cfg, s, run).value)
    decreases |run|
  {
    if run != [] {
      var s' := Next(cfg, s, run[0]).value;
      StepKeepsGuarded(cfg, s, run[0], s');
      StepKeepsSettled(cfg, first, s, run[0], s');
      RunKeepsSettled(cfg, first, s', run[1..]);
    }
  }

  /**
    Copies that write their own entry fill each hash at most once, and an entry for which some caller got Ok has its
    NAR if it has its narinfo, whatever files the cache starts with.
   */
  lemma EntriesAreFilledOnce(cfg: Config, first: Files, callers: seq<Hash>, s: State)
    requires cfg.ownEntryOnly && Reachable(cfg, first, callers, s)
    ensures forall i, j :: 0 <= i < j < |s.filled| ==> s.filled[i] != s.filled[j]
    ensures forall i :: 0 <= i < |s.filled| ==> IsReady(s.files, s.filled[i])
    ensures forall t :: 0 <= t < |s.tasks| && s.tasks[t].pc == Returned(true) ==> SafeAfterOk(s.files, s.tasks[t].hash)
  {
    var run :| Exec(cfg, Init(cfg, first, callers), run) == Some(s);
    InitGuarded(cfg, first, callers);
    InitSettled(cfg, first, callers);
    RunKeepsSettled(cfg, first, Init(cfg, first, callers), run);
    forall t | 0 <= t < |s.tasks| && s.tasks[t].pc == Returned(true)
      ensures SafeAfterOk(s.files, s.tasks[t].hash)
    {
      assert TaskOk(cfg, first, s, s.tasks[t]);
    }
  }

  // ---------------------------------------------------------------- which entries stay ready

  /** A signed narinfo that names a NAR which is not there. */
  predicate Dangling(files: Files, hash: Hash, nar: NarPath) {
    ReadEntry(files, hash) == Names(nar) && nar !in files.nars
  }

  /**
    Own-entry copies leave no dangling and no broken narinfo behind, not even where they are cut off: what there is of
    them was there at first.  A cache that only such fills have written has none.
   */
  lemma FillsAddNothingBroken(cfg: Config, first: Files, callers: seq<Hash>, s: State, hash: Hash, nar: NarPath)
    requires cfg.ownEntryOnly && Reachable(cfg, first, callers, s)
    ensures Dangling(s.files, hash, nar) ==> Dangling(first, hash, nar)
    ensures ProbeEntry(s.files, hash) == ProbeFailed ==> ProbeEntry(first, hash) == ProbeFailed
  {
    var run :| Exec(cfg, Init(cfg, first, callers), run) == Some(s);
    InitGuarded(cfg, first, callers);
    InitSettled(cfg, first, callers);
    RunKeepsSettled(cfg, first, Init(cfg, first, callers), run);
    assert EntryOk(cfg, first, s.files, hash);
  }

  /** The fill of this entry would write the missing NAR (equal contents give equal NAR names). */
  predicate Brings(cfg: Config, files: Files, hash: Hash, other: Hash) {
    Dangling(files, hash, cfg.content(other)) && ProbeEntry(files, other) == NotReady
  }

  /** The fill of another entry would bring this one's missing NAR. */
  ghost predicate SharedAt(cfg: Config, files: Files, hash: Hash) {
    exists other :: other != hash && Brings(cfg, files, hash, other)
  }

  /** Some fill, be it the entry's own, would bring its missing NAR. */
  ghost predicate FillableAt(cfg: Config, files: Files, hash: Hash) {
    exists other :: Brings(cfg, files, hash, other)
  }

  /** Callers about to remove the narinfo of this entry do so while it is not ready. */
  ghost predicate Calm(s: State, hash: Hash) {
    forall t :: 0 <= t < |s.tasks| ==> CalmTask(s, s.tasks[t], hash)
  }

  predicate CalmTask(s: State, task: Task, hash: Hash) {
    task.hash == hash && (task.pc.WaitPermit? || task.pc.RemoveStale?) ==> !IsReady(s.files, hash)
  }

  /** Another caller's step does not make an entry ready that has no shared dangling narinfo. */
  lemma OthersStayCalm(cfg: Config, first: Files, s: State, t: nat, s': State, u: nat, hash: Hash)
    requires Guarded(cfg, s) && Settled(cfg, first, s) && t < |s.tasks| && FileStep(cfg, s, t, s')
    requires !SharedAt(cfg, first, hash) && u < |s.tasks| && u != t && CalmTask(s, s.tasks[u], hash)
    ensures CalmTask(s', s.tasks[u], hash)
  {
    var task := s.tasks[u];
    if task.hash == hash && (task.pc.WaitPermit? || task.pc.RemoveStale?) {
      assert TaskOk(cfg, first, s, s.tasks[t]);
      assert EntryOk(cfg, first, s.files, hash);
      if s.tasks[t].hash == hash {
        assert !HoldsLock(s.tasks[t].pc);
      } else {
        assert !Brings(cfg, first, hash, s.tasks[t].hash);
      }
    }
  }

  lemma StepKeepsCalm(cfg: Config, first: Files, s: State, step: Step, s': State, hash: Hash)
    requires Guarded(cfg, s) && Settled(cfg, first, s) && cfg.ownEntryOnly && Next(cfg, s, step) == Some(s')
    requires !SharedAt(cfg, first, hash) && Calm(s, hash)
    ensures Calm(s', hash)
  {
    StepIsFileStep(cfg, s, step, s');
    StepMovesForward(cfg, s, step, s');
    forall u | 0 <= u < |s'.tasks|
      ensures CalmTask(s', s'.tasks[u], hash)
    {
      assert CalmTask(s, s.tasks[u], hash);
      if u == step.task {
        assert TaskOk(cfg, first, s, s.tasks[u]);
      } else {
        OthersStayCalm(cfg, first, s, step.task, s', u, hash);
      }
    }
  }

  /** A step that removes a narinfo is the only one that can make a ready entry unready. */
  lemma CalmKeepsReady(cfg: Config, first: Files, s: State, step: Step, s': State, hash: Hash)
    requires Settled(cfg, first, s) && cfg.ownEntryOnly && Next(cfg, s, step) == Some(s')
    requires Calm(s, hash) && IsReady(s.files, hash)
    ensures IsReady(s'.files, hash)
  {
    StepIsFileStep(cfg, s, step, s');
    assert TaskOk(cfg, first, s, s.tasks[step.task]) && CalmTask(s, s.tasks[step.task], hash);
  }

  lemma {:induction false} RunKeepsCalm(cfg: Config, first: Files, s: State, run: seq<Step>, hash: Hash)
    requires Guarded(cfg, s) && Settled(cfg, first, s) && cfg.ownEntryOnly && Exec(cfg, s, run).Some?
    requires !SharedAt(cfg, first, hash) && Calm(s, hash)
    ensures var s' := Exec(cfg, s, run).value;
            && Guarded(cfg, s') && Settled(cfg, first, s') && Calm(s', hash)
            && (IsReady(s.files, hash) ==> IsReady(s'.files, hash))
    decreases |run|
  {
    if run != [] {
      var s' := Next(cfg, s, run[0]).value;
      StepKeepsGuarded(cfg, s, run[0], s');
      StepKeepsSettled(cfg, first, s, run[0], s');
      StepKeepsCalm(cfg, first, s, run[0], s', hash);
      if IsReady(s.files, hash) { CalmKeepsReady(cfg, first, s, run[0], s', hash); }
      RunKeepsCalm(cfg, first, s', run[1..], hash);
    }
  }

  /** Some schedule of some callers takes this entry away when it is ready. */
  ghost predicate CanLoseReady(cfg: Config, first: Files, hash: Hash) {
    exists callers, run, step, s, s' ::
      Exec(cfg, Init(cfg, first, callers), run) == Some(s) && Next(cfg, s, step) == Some(s')
      && IsReady(s.files, hash) && !IsReady(s'.files, hash)
  }

  /** In a cache that starts without a shared dangling narinfo of this entry, the entry stays ready once it is. */
  lemma ReadyEntriesStay(cfg: Config, first: Files, callers: seq<Hash>, run: seq<Step>, more: seq<Step>, hash: Hash)
    requires cfg.ownEntryOnly && !SharedAt(cfg, first, hash)
    requires Exec(cfg, Init(cfg, first, callers), run).Some?
    requires Exec(cfg, Exec(cfg, Init(cfg, first, callers), run).value, more).Some?
    ensures var s := Exec(cfg, Init(cfg, first, callers), run).value;
            IsReady(s.files, hash) ==> IsReady(Exec(cfg, s, more).value.files, hash)
  {
    InitGuarded(cfg, first, callers);
    InitSettled(cfg, first, callers);
    RunKeepsCalm(cfg, first, Init(cfg, first, callers), run, hash);
    RunKeepsCalm(cfg, first, Exec(cfg, Init(cfg, first, callers), run).value, more, hash);
  }

  // ---------------------------------------------------------------- what Ok means

  /** A caller that has Ok, or will get it from its first probe, has it for an entry that is ready. */
  ghost predicate Truthful(first: Files, s: State, hash: Hash) {
    forall t :: 0 <= t < |s.tasks| ==> TruthfulTask(first, s, s.tasks[t], hash)
  }

  predicate TruthfulTask(first: Files, s: State, task: Task, hash: Hash) {
    task.hash == hash ==>
      match task.pc
      case Stat(First, nar) => ReadEntry(first, hash) == Names(nar) || IsReady(s.files, hash)
      case Returned(true) => IsReady(s.files, hash)
      case _ => true
  }

  /** Only a NAR that was there at first can be found by a caller that read the entry's first narinfo. */
  lemma FirstNarIsThere(cfg: Config, first: Files, s: State, hash: Hash, nar: NarPath)
    requires Settled(cfg, first, s) && !FillableAt(cfg, first, hash)
    requires ReadEntry(first, hash) == Names(nar) && nar in s.files.nars
    ensures IsReady(s.files, hash)
  {
    assert NarOk(cfg, first, nar);
    if nar !in first.nars {
      var other :| cfg.content(other) == nar && ProbeEntry(first, other) == NotReady;
      assert Brings(cfg, first, hash, other);
    }
    assert EntryOk(cfg, first, s.files, hash);
  }

  lemma OwnStepStaysTruthful(cfg: Config, first: Files, s: State, step: Step, s': State, hash: Hash)
    requires Settled(cfg, first, s) && cfg.ownEntryOnly && Next(cfg, s, step) == Some(s')
    requires !FillableAt(cfg, first, hash) && s.tasks[step.task].hash == hash
    requires TruthfulTask(first, s, s.tasks[step.task], hash)
    ensures TruthfulTask(first, s', s'.tasks[step.task], hash)
  {
    var task := s.tasks[step.task];
    assert TaskOk(cfg, first, s, task) && EntryOk(cfg, first, s.files, hash);
    if task.pc.Stat? && task.pc.nar in s.files.nars && ReadEntry(first, hash) == Names(task.pc.nar) {
      FirstNarIsThere(cfg, first, s, hash, task.pc.nar);
    }
  }

  lemma StepKeepsTruthful(cfg: Config, first: Files, s: State, step: Step, s': State, hash: Hash)
    requires Settled(cfg, first, s) && cfg.ownEntryOnly && Next(cfg, s, step) == Some(s')
    requires !FillableAt(cfg, first, hash) && Calm(s, hash) && Truthful(first, s, hash)
    ensures Truthful(first, s', hash)
  {
    StepMovesForward(cfg, s, step, s');
    if IsReady(s.files, hash) { CalmKeepsReady(cfg, first, s, step, s', hash); }
    forall u | 0 <= u < |s'.tasks|
      ensures TruthfulTask(first, s', s'.tasks[u], hash)
    {
      assert TruthfulTask(first, s, s.tasks[u], hash);
      if u == step.task && s.tasks[u].hash == hash {
        OwnStepStaysTruthful(cfg, first, s, step, s', hash);
      }
    }
  }

  lemma {:induction false} RunKeepsTruthful(cfg: Config, first: Files, s: State, run: seq<Step>, hash: Hash)
    requires Guarded(cfg, s) && Settled(cfg, first, s) && cfg.ownEntryOnly && Exec(cfg, s, run).Some?
    requires !FillableAt(cfg, first, hash) && Calm(s, hash) && Truthful(first, s, hash)
    ensures Truthful(first, Exec(cfg, s, run).value, hash)
    decreases |run|
  {
    if run != [] {
      var s' := Next(cfg, s, run[0]).value;
      StepKeepsGuarded(cfg, s, run[0], s');
      StepKeepsSettled(cfg, first, s, run[0], s');
      StepKeepsCalm(cfg, first, s, run[0], s', hash);
      StepKeepsTruthful(cfg, first, s, run[0], s', hash);
      RunKeepsTruthful(cfg, first, s', run[1..], hash);
    }
  }

  /** If no fill would bring a missing NAR of this entry, the entry is ready from any Ok for it on. */
  lemma OkEntriesAreReady(cfg: Config, first: Files, callers: seq<Hash>, s: State, t: nat)
    requires cfg.ownEntryOnly && Reachable(cfg, first, callers, s) && t < |s.tasks|
    requires s.tasks[t].pc == Returned(true) && !FillableAt(cfg, first, s.tasks[t].hash)
    ensures IsReady(s.files, s.tasks[t].hash)
  {
    var run :| Exec(cfg, Init(cfg, first, callers), run) == Some(s);
    var hash := s.tasks[t].hash;
    InitGuarded(cfg, first, callers);
    InitSettled(cfg, first, callers);
    RunKeepsTruthful(cfg, first, Init(cfg, first, callers), run, hash);
    assert TruthfulTask(first, s, s.tasks[t], hash);
  }

  /** What a fill replaces: no narinfo, one that is not signed with this key, or one that names nothing. */
  ghost predicate Unusable(files: Files, hash: Hash) {
    || hash !in files.narinfos
    || (exists url :: files.narinfos[hash] == Text(false, url))
    || files.narinfos[hash] == Text(true, NoUrl)
  }

  /** An entry whose narinfo is of no use is filled anew: from an Ok for it on it has its own narinfo and NAR. */
  lemma UnusableEntriesAreRefilled(cfg: Config, first: Files, callers: seq<Hash>, s: State, t: nat)
    requires cfg.ownEntryOnly && Reachable(cfg, first, callers, s) && t < |s.tasks|
    requires s.tasks[t].pc == Returned(true) && Unusable(first, s.tasks[t].hash)
    ensures var hash := s.tasks[t].hash;
            && hash in s.files.narinfos && s.files.narinfos[hash] == Text(true, NarUrl(cfg.content(hash)))
            && cfg.content(hash) in s.files.nars
  {
    var hash := s.tasks[t].hash;
    OkEntriesAreReady(cfg, first, callers, s, t);
    var run :| Exec(cfg, Init(cfg, first, callers), run) == Some(s);
    InitGuarded(cfg, first, callers);
    InitSettled(cfg, first, callers);
    RunKeepsSettled(cfg, first, Init(cfg, first, callers), run);
    assert EntryOk(cfg, first, s.files, hash);
    ProbeCases(first, hash);
    ProbeCases(s.files, hash);
  }

  /** An entry that is ready, or whose narinfo cannot be read, is never touched. */
  lemma OtherEntriesAreKept(cfg: Config, first: Files, callers: seq<Hash>, s: State, hash: Hash)
    requires cfg.ownEntryOnly && Reachable(cfg, first, callers, s) && hash in first.narinfos
    requires first.narinfos[hash] in {NotText, Text(true, BadUrl)}
             || exists nar :: first.narinfos[hash] == Text(true, NarUrl(nar)) && nar in first.nars
    ensures hash in s.files.narinfos && s.files.narinfos[hash] == first.narinfos[hash] && first.nars <= s.files.nars
  {
    var run :| Exec(cfg, Init(cfg, first, callers), run) == Some(s);
    InitGuarded(cfg, first, callers);
    InitSettled(cfg, first, callers);
    RunKeepsSettled(cfg, first, Init(cfg, first, callers), run);
    assert EntryOk(cfg, first, s.files, hash);
    ProbeCases(first, hash);
  }

  /** In some schedule of some callers one is told Ok for this entry and later it is not ready. */
  ghost predicate CanMislead(cfg: Config, first: Files, hash: Hash) {
    exists callers, run, s, t: nat ::
      Exec(cfg, Init(cfg, first, callers), run) == Some(s) && t < |s.tasks|
      && s.tasks[t] == Task(hash, Returned(true)) && !IsReady(s.files, hash)
  }

  // ---------------------------------------------------------------- schedules that lose an entry or mislead a caller

  /** A run that goes on with regular steps of one caller. */
  predicate GoesOn(run: seq<Step>, run': seq<Step>, t: nat) {
    run <= run' && forall k :: |run| <= k < |run'| ==> run'[k] == Step(t, Go)
  }

  /** One more regular step of a run. */
  lemma Extend(cfg: Config, s0: State, run: seq<Step>, s: State, t: nat) returns (run': seq<Step>, s': State)
    requires Exec(cfg, s0, run) == Some(s) && t < |s.tasks| && !s.tasks[t].pc.Returned? && Goes(cfg, s, t).Some?
    ensures Exec(cfg, s0, run') == Some(s') && Goes(cfg, s, t) == Some(s') && GoesOn(run, run', t)
  {
    run', s' := run + [Step(t, Go)], Goes(cfg, s, t).value;
    ExecAppend(cfg, s0, run, Step(t, Go));
  }

  /** A probe that finds an entry not ready, in one or in two steps, takes its caller on. */
  lemma CallerMisses(cfg: Config, s0: State, run: seq<Step>, s: State, t: nat) returns (run': seq<Step>, s': State)
    requires Exec(cfg, s0, run) == Some(s) && t < |s.tasks| && s.tasks[t].pc.Probe? && s.tasks[t].pc.which != Last
    requires ProbeEntry(s.files, s.tasks[t].hash) == NotReady
    ensures Exec(cfg, s0, run') == Some(s') && GoesOn(run, run', t)
    ensures s' == At(s, t, if s.tasks[t].pc.which == First then LookUpLock else WaitPermit)
  {
    run', s' := Extend(cfg, s0, run, s, t);
    if ReadEntry(s.files, s.tasks[t].hash).Names? {
      run', s' := Extend(cfg, s0, run', s', t);
    }
  }

  /** A caller that finds its entry not ready gets as far as waiting for a permit, if nobody has its lock. */
  lemma CallerWaitsForPermit(cfg: Config, s0: State, run: seq<Step>, s: State, t: nat)
    returns (run': seq<Step>, s': State)
    requires Exec(cfg, s0, run) == Some(s) && t < |s.tasks| && s.tasks[t].pc == Probe(First)
    requires ProbeEntry(s.files, s.tasks[t].hash) == NotReady && s.tasks[t].hash !in s.locks
    ensures Exec(cfg, s0, run') == Some(s') && GoesOn(run, run', t)
    ensures s' == At(s, t, WaitPermit).(locks := s.locks[s.tasks[t].hash := Some(t)])
  {
    var hash := s.tasks[t].hash;
    var run1, s1 := CallerMisses(cfg, s0, run, s, t);
    var run2, s2 := Extend(cfg, s0, run1, s1, t);
    assert s2 == At(s, t, WaitLock).(locks := s.locks[hash := None]);
    var run3, s3 := Extend(cfg, s0, run2, s2, t);
    assert s3 == At(s, t, Probe(Second)).(locks := s.locks[hash := Some(t)]);
    run', s' := CallerMisses(cfg, s0, run3, s3, t);
  }

  /** A caller with a free permit goes on to remove its narinfo. */
  lemma CallerRemovesNarinfo(cfg: Config, s0: State, run: seq<Step>, s: State, t: nat)
    returns (run': seq<Step>, s': State)
    requires Exec(cfg, s0, run) == Some(s) && t < |s.tasks| && s.tasks[t].pc == WaitPermit && s.permits > 0
    ensures Exec(cfg, s0, run') == Some(s') && GoesOn(run, run', t)
    ensures s' == At(s, t, Copying(false)).(
                    files := s.files.(narinfos := s.files.narinfos - {s.tasks[t].hash}), permits := s.permits - 1)
  {
    var run1, s1 := Extend(cfg, s0, run, s, t);
    assert s1 == At(s, t, RemoveStale).(permits := s.permits - 1);
    run', s' := Extend(cfg, s0, run1, s1, t);
  }

  /** It then writes its NAR and its narinfo, finds the entry ready and returns with its permit free again. */
  lemma CallerFills(cfg: Config, s0: State, run: seq<Step>, s: State, t: nat) returns (run': seq<Step>, s': State)
    requires Exec(cfg, s0, run) == Some(s) && t < |s.tasks| && s.tasks[t].pc == Copying(false) && cfg.ownEntryOnly
    ensures Exec(cfg, s0, run') == Some(s') && GoesOn(run, run', t)
    ensures |s'.tasks| == |s.tasks| && s'.permits == s.permits + 1
    ensures s'.files.nars == s.files.nars + {cfg.content(s.tasks[t].hash)}
    ensures s'.files.narinfos == s.files.narinfos[s.tasks[t].hash := Text(true, NarUrl(cfg.content(s.tasks[t].hash)))]
    ensures forall u :: 0 <= u < |s.tasks| && u != t ==> s'.tasks[u] == s.tasks[u]
  {
    var run1, s1 := Extend(cfg, s0, run, s, t);
    assert s1.tasks[t].pc == Copying(true);
    var run2, s2 := Extend(cfg, s0, run1, s1, t);
    assert s2.tasks[t].pc == Probe(Last);
    var run3, s3 := Extend(cfg, s0, run2, s2, t);
    assert s3.tasks[t].pc == Stat(Last, cfg.content(s.tasks[t].hash));
    run', s' := Extend(cfg, s0, run3, s3, t);
  }

  /**
    One caller of an entry with a shared dangling narinfo waits for a permit while another fills the entry that brings
    the missing NAR: now the first entry is ready, and a permit is free for the caller that will remove it.  A third
    caller has not begun.
   */
  lemma ReadyBehindAWaiter(cfg: Config, first: Files, hash: Hash, other: Hash) returns (run: seq<Step>, s: State)
    requires cfg.ownEntryOnly && cfg.maxFills > 0 && other != hash && Brings(cfg, first, hash, other)
    ensures Exec(cfg, Init(cfg, first, [hash, other, hash]), run) == Some(s)
    ensures |s.tasks| == 3 && s.tasks[0] == Task(hash, WaitPermit) && s.tasks[2] == Task(hash, Probe(First))
    ensures s.permits > 0 && ReadEntry(s.files, hash) == Names(cfg.content(other)) && cfg.content(other) in s.files.nars
  {
    var s0 := Init(cfg, first, [hash, other, hash]);
    assert Exec(cfg, s0, []) == Some(s0);
    var run1, s1 := CallerWaitsForPermit(cfg, s0, [], s0, 0);
    var run2, s2 := CallerWaitsForPermit(cfg, s0, run1, s1, 1);
    var run3, s3 := CallerRemovesNarinfo(cfg, s0, run2, s2, 1);
    run, s := CallerFills(cfg, s0, run3, s3, 1);
  }

  lemma SharedDanglingLosesEntry(cfg: Config, first: Files, hash: Hash, other: Hash)
    requires cfg.ownEntryOnly && cfg.maxFills > 0 && other != hash && Brings(cfg, first, hash, other)
    ensures CanLoseReady(cfg, first, hash)
  {
    var s0 := Init(cfg, first, [hash, other, hash]);
    var run, s := ReadyBehindAWaiter(cfg, first, hash, other);
    var run1, s1 := Extend(cfg, s0, run, s, 0);
    assert s1.tasks[0] == Task(hash, RemoveStale) && s1.files == s.files && IsReady(s1.files, hash);
    var s2 := Goes(cfg, s1, 0).value;
    assert Next(cfg, s1, Step(0, Go)) == Some(s2) && !IsReady(s2.files, hash);
  }

  /** An entry can be lost when it is ready exactly if the cache starts with a shared dangling narinfo of it. */
  lemma LosesReadyIffSharedDangling(cfg: Config, first: Files, hash: Hash)
    requires cfg.ownEntryOnly && cfg.maxFills > 0
    ensures CanLoseReady(cfg, first, hash) <==> SharedAt(cfg, first, hash)
  {
    if SharedAt(cfg, first, hash) {
      var other :| other != hash && Brings(cfg, first, hash, other);
      SharedDanglingLosesEntry(cfg, first, hash, other);
    } else if CanLoseReady(cfg, first, hash) {
      var callers, run, step, s, s' :|
        Exec(cfg, Init(cfg, first, callers), run) == Some(s) && Next(cfg, s, step) == Some(s')
        && IsReady(s.files, hash) && !IsReady(s'.files, hash);
      assert Exec(cfg, s', []) == Some(s');
      assert Exec(cfg, s, [step]) == Some(s');
      ReadyEntriesStay(cfg, first, callers, run, [step], hash);
    }
  }

  /**
    The first probe straddles a fill: the caller reads a dangling narinfo, another caller removes it and writes the
    NAR, and the first one finds the NAR and is told Ok for an entry that has no narinfo.
   */
  lemma OwnDanglingMisleads(cfg: Config, first: Files, hash: Hash)
    requires cfg.ownEntryOnly && cfg.maxFills > 0 && Dangling(first, hash, cfg.content(hash))
    ensures CanMislead(cfg, first, hash)
  {
    var callers := [hash, hash];
    var s0 := Init(cfg, first, callers);
    assert Exec(cfg, s0, []) == Some(s0);
    var run1, s1 := Extend(cfg, s0, [], s0, 1);
    assert s1 == At(s0, 1, Stat(First, cfg.content(hash)));
    var run2, s2 := CallerWaitsForPermit(cfg, s0, run1, s1, 0);
    var run3, s3 := CallerRemovesNarinfo(cfg, s0, run2, s2, 0);
    var run4, s4 := Extend(cfg, s0, run3, s3, 0);
    assert s4.tasks[1] == Task(hash, Stat(First, cfg.content(hash))) && cfg.content(hash) in s4.files.nars;
    var run5, s5 := Extend(cfg, s0, run4, s4, 1);
    assert s5.tasks[1] == Task(hash, Returned(true)) && hash !in s5.files.narinfos;
  }

  /** A caller is told Ok for an entry that is ready then and removed later. */
  lemma SharedDanglingMisleads(cfg: Config, first: Files, hash: Hash, other: Hash)
    requires cfg.ownEntryOnly && cfg.maxFills > 0 && other != hash && Brings(cfg, first, hash, other)
    ensures CanMislead(cfg, first, hash)
  {
    var callers := [hash, other, hash];
    var s0 := Init(cfg, first, callers);
    var run, s := ReadyBehindAWaiter(cfg, first, hash, other);
    var run1, s1 := Extend(cfg, s0, run, s, 2);
    assert s1 == At(s, 2, Stat(First, cfg.content(other)));
    var run2, s2 := Extend(cfg, s0, run1, s1, 2);
    assert s2 == At(s, 2, Returned(true));
    var run3, s3 := CallerRemovesNarinfo(cfg, s0, run2, s2, 0);
    assert s3.tasks[2] == Task(hash, Returned(true)) && hash !in s3.files.narinfos;
  }

  /**
    A caller can be told Ok for an entry that is not ready exactly if the cache starts with a dangling narinfo of the
    entry whose NAR some fill would write, the entry's own fill included.
   */
  lemma MisleadsIffFillable(cfg: Config, first: Files, hash: Hash)
    requires cfg.ownEntryOnly && cfg.maxFills > 0
    ensures CanMislead(cfg, first, hash) <==> FillableAt(cfg, first, hash)
  {
    if FillableAt(cfg, first, hash) {
      var other :| Brings(cfg, first, hash, other);
      if other == hash {
        OwnDanglingMisleads(cfg, first, hash);
      } else {
        SharedDanglingMisleads(cfg, first, hash, other);
      }
    } else if CanMislead(cfg, first, hash) {
      var callers, run, s, t: nat :|
        Exec(cfg, Init(cfg, first, callers), run) == Some(s) && t < |s.tasks|
        && s.tasks[t] == Task(hash, Returned(true)) && !IsReady(s.files, hash);
      assert Reachable(cfg, first, callers, s);
      OkEntriesAreReady(cfg, first, callers, s, t);
    }
  }

  // ---------------------------------------------------------------- what callers are told

  /** Without failures only a narinfo that could not be read to begin with keeps a caller from Ok. */
  ghost predicate Told(first: Files, s: State) {
    forall t :: 0 <= t < |s.tasks| && s.tasks[t].pc == Returned(false) ==>
      ProbeEntry(first, s.tasks[t].hash) == ProbeFailed
  }

  predicate NoFailure(run: seq<Step>) {
    forall i :: 0 <= i < |run| ==> !run[i].act.Fails?
  }

  lemma StepKeepsTold(cfg: Config, first: Files, s: State, step: Step, s': State)
    requires Settled(cfg, first, s) && cfg.ownEntryOnly && Told(first, s)
    requires Next(cfg, s, step) == Some(s') && !step.act.Fails?
    ensures Told(first, s')
  {
    StepMovesForward(cfg, s, step, s');
    var task := s.tasks[step.task];
    assert TaskOk(cfg, first, s, task) && EntryOk(cfg, first, s.files, task.hash);
  }

  lemma {:induction false} RunKeepsTold(cfg: Config, first: Files, s: State, run: seq<Step>)
    requires Guarded(cfg, s) && Settled(cfg, first, s) && cfg.ownEntryOnly && Told(first, s)
    requires Exec(cfg, s, run).Some? && NoFailure(run)
    ensures Told(first, Exec(cfg, s, run).value)
    decreases |run|
  {
    if run != [] {
      var s' := Next(cfg, s, run[0]).value;
      assert !run[0].act.Fails?;
      StepKeepsGuarded(cfg, s, run[0], s');
      StepKeepsSettled(cfg, first, s, run[0], s');
      StepKeepsTold(cfg, first, s, run[0], s');
      RunKeepsTold(cfg, first, s', run[1..]);
    }
  }

  /**
    Without I/O failures a caller's answer depends on the initial files alone, whatever the others do: Ok, except
    where the narinfo file is there but cannot be read as one, which no caller ever repairs.
   */
  lemma AnswersWithoutFailures(cfg: Config, first: Files, callers: seq<Hash>, run: seq<Step>, t: nat)
    requires cfg.ownEntryOnly && t < |callers|
    requires Exec(cfg, Init(cfg, first, callers), run).Some? && NoFailure(run)
    ensures var s := Exec(cfg, Init(cfg, first, callers), run).value;
            && |s.tasks| == |callers| && s.tasks[t].hash == callers[t]
            && (s.tasks[t].pc.Returned? ==>
                  (s.tasks[t].pc.ok <==>
                     !(callers[t] in first.narinfos
                       && (first.narinfos[callers[t]] == NotText || first.narinfos[callers[t]] == Text(true, BadUrl)))))
  {
    ProbeCases(first, callers[t]);
    InitGuarded(cfg, first, callers);
    InitSettled(cfg, first, callers);
    RunKeepsTold(cfg, first, Init(cfg, first, callers), run);
    RunKeepsSettled(cfg, first, Init(cfg, first, callers), run);
    RunKeepsCallers(cfg, Init(cfg, first, callers), run);
    assert TaskOk(cfg, first, Exec(cfg, Init(cfg, first, callers), run).value,
                  Exec(cfg, Init(cfg, first, callers), run).value.tasks[t]);
  }

  lemma {:induction false} RunKeepsCallers(cfg: Config, s: State, run: seq<Step>)
    requires Exec(cfg, s, run).Some?
    ensures var s' := Exec(cfg, s, run).value;
            |s'.tasks| == |s.tasks| && forall t :: 0 <= t < |s.tasks| ==> s'.tasks[t].hash == s.tasks[t].hash
    decreases |run|
  {
    if run != [] {
      var s' := Next(cfg, s, run[0]).value;
      if !run[0].act.CopyWrites? { StepMovesForward(cfg, s, run[0], s'); }
      RunKeepsCallers(cfg, s', run[1..]);
    }
  }
}
