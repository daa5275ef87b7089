/**
  status.json across failures and stops (state/json.rs, server/status.rs): every update changes memory first and then
  replaces the file by writing a temporary file and renaming it.  Any step can fail, and the process can stop
  between any two of them; renaming is atomic.
 */
module AtomicFile {
  import opened Protocol
  import Status = StatusRegistry

  type Bytes = seq<bv8>

  /** The JSON codec, a library: what is encoded decodes to the same snapshot. */
  datatype Codec = Codec(encode: Status.Snapshot -> Bytes, decode: Bytes -> Option<Status.Snapshot>)

  ghost predicate Faithful(codec: Codec) {
    forall s :: codec.decode(codec.encode(s)) == Some(s)
  }

  // ---------------------------------------------------------------- one write, in place

  /** Where a write is stopped or fails; a failure goes on to remove the temporary file, which may fail too. */
  datatype Fault =
    | NoFault
    | StopBeforeOpen | FailBeforeOpen
    | StopWriting(n: nat) | FailWriting(n: nat, removed: bool)
    | StopBeforeSync | FailSync(removed: bool)
    | StopBeforeRename | FailRename

  class Files {
    var target: Option<Bytes>
    var temp: Option<Bytes>

    constructor (target: Option<Bytes>)
      ensures this.target == target && temp == None
    {
      this.target, temp := target, None;
    }

    /** Whatever goes wrong, the file is the old one or the whole new one, and the caller is told which. */
    method WriteAtomic(body: Bytes, fault: Fault) returns (written: bool)
      modifies this
      ensures written <==> fault.NoFault?
      ensures target == if written then Some(body) else old(target)
      ensures written ==> temp == None
    {
      written := false;
      if fault.StopBeforeOpen? || fault.FailBeforeOpen? {
        return;
      }
      temp := Some([]);
      var n := 0;
      while n < |body|
        invariant 0 <= n <= |body| && temp == Some(body[..n]) && target == old(target)
      {
        if fault.StopWriting? && n >= fault.n {
          return;
        }
        if fault.FailWriting? && n >= fault.n {
          temp := if fault.removed then None else temp;
          return;
        }
        assert body[..n] + [body[n]] == body[..n + 1];
        temp := Some(temp.value + [body[n]]);
        n := n + 1;
      }
      if fault.StopWriting? || fault.StopBeforeSync? {
        return;
      }
      if fault.FailWriting? || fault.FailSync? {
        temp := if fault.removed then None else temp;
        return;
      }
      if fault.StopBeforeRename? || fault.FailRename? {
        return;
      }
      assert body[..n] == body;
      target, temp := temp, None;
      written := true;
    }
  }

  // ---------------------------------------------------------------- the server's updates, step by step

  datatype Pc = Idle | Encoded(body: Bytes) | Writing(body: Bytes, n: nat) | Synced(body: Bytes) | Cleaning

  /** `refreshed` are the snapshots that the updates so far have meant to write, over all lives of the server. */
  datatype State = State(history: Status.History, file: Option<Bytes>, temp: Option<Bytes>, pc: Pc,
                         refreshed: seq<Status.Snapshot>)

  datatype Step =
    | Update(call: Status.Call)
    | Create
    | Write(k: nat)
    | Sync
    | Rename
    | Fail
    | Clean(removed: bool)
    | Restart(recentLimit: nat, now: nat)

  function Init(recentLimit: nat, now: nat, file: Option<Bytes>): State {
    State(Status.History(Status.Initial(recentLimit, now), []), file, None, Idle, [])
  }

  /** The state lock is held from the update to the end of its write, so updates do not overlap. */
  function Next(codec: Codec, s: State, step: Step): Option<State> {
    match step
    case Update(call) =>
      if !s.pc.Idle? then None
      else if call.io.NoClock? then Some(s)
      else
        var history := Status.Record(s.history, call);
        var snapshot := history.registry.snapshot;
        Some(s.(history := history, pc := Encoded(codec.encode(snapshot)), refreshed := s.refreshed + [snapshot]))
    case Create =>
      if s.pc.Encoded? then Some(s.(temp := Some([]), pc := Writing(s.pc.body, 0))) else None
    case Write(k) =>
      if s.pc.Writing? && s.pc.n < k <= |s.pc.body| && s.temp.Some? then
        Some(s.(temp := Some(s.temp.value + s.pc.body[s.pc.n..k]), pc := Writing(s.pc.body, k)))
      else None
    case Sync => if s.pc.Writing? && s.pc.n == |s.pc.body| then Some(s.(pc := Synced(s.pc.body))) else None
    case Rename => if s.pc.Synced? then Some(s.(file := s.temp, temp := None, pc := Idle)) else None
    case Fail =>
      // Nothing to remove before the temporary file is opened; a failed rename leaves it behind.
      if s.pc.Encoded? || s.pc.Synced? then Some(s.(pc := Idle))
      else if s.pc.Writing? then Some(s.(pc := Cleaning))
      else None
    case Clean(removed) =>
      if s.pc.Cleaning? then Some(s.(temp := if removed then None else s.temp, pc := Idle)) else None
    case Restart(recentLimit, now) =>
      // The process stops at any point and a new one starts: memory is lost, files stay.
      Some(s.(history := Status.History(Status.Initial(recentLimit, now), []), pc := Idle))
  }

  function Exec(codec: Codec, s: State, run: seq<Step>): Option<State>
    decreases |run|
  {
    if run == [] then Some(s)
    else match Next(codec, s, run[0])
      case None => None
      case Some(s') => Exec(codec, s', run[1..])
  }

  // ---------------------------------------------------------------- what the file holds

  /** The file is this one, or an encoding of a snapshot that some update meant to write. */
  ghost predicate Holds(codec: Codec, s: State, first: Option<Bytes>) {
    s.file == first || exists i :: IsEncoded(codec, s, i)
  }

  ghost predicate IsEncoded(codec: Codec, s: State, i: nat) {
    i < |s.refreshed| && s.file == Some(codec.encode(s.refreshed[i]))
  }

  ghost predicate WriteOk(codec: Codec, s: State) {
    match s.pc
    case Idle => true
    case Cleaning => true
    case Encoded(body) => IsLatest(codec, s, body)
    case Writing(body, n) => IsLatest(codec, s, body) && n <= |body| && s.temp == Some(body[..n])
    case Synced(body) => IsLatest(codec, s, body) && s.temp == Some(body)
  }

  ghost predicate IsLatest(codec: Codec, s: State, body: Bytes) {
    s.refreshed != [] && body == codec.encode(s.refreshed[|s.refreshed| - 1])
  }

  ghost predicate AllFresh(refreshed: seq<Status.Snapshot>) {
    forall i :: 0 <= i < |refreshed| ==> Status.Fresh(refreshed[i])
  }

  ghost predicate Inv(codec: Codec, s: State, first: Option<Bytes>) {
    && Status.Consistent(s.history)
    && AllFresh(s.refreshed)
    && WriteOk(codec, s)
    && Holds(codec, s, first)
  }

  lemma InitialIsConsistent(recentLimit: nat, now: nat)
    ensures Status.Consistent(Status.History(Status.Initial(recentLimit, now), []))
  {
    assert Status.RecentIds([]) == [] && Status.QueuedIds([]) == [] && Status.ActiveIds([]) == [];
  }

  lemma UpdateIsConsistent(h: Status.History, call: Status.Call)
    requires Status.Consistent(h)
    ensures Status.Consistent(Status.Record(h, call)) && Status.Fresh(Status.Record(h, call).registry.snapshot)
  {
    Status.CallKeepsConsistent(h, call);
  }

  lemma HoldsLater(codec: Codec, s: State, first: Option<Bytes>, s': State)
    requires Holds(codec, s, first) && s'.file == s.file && s.refreshed <= s'.refreshed
    ensures Holds(codec, s', first)
  {
    if i: nat :| IsEncoded(codec, s, i) {
      assert IsEncoded(codec, s', i);
    }
  }

  lemma MeantKeepsInv(codec: Codec, s: State, history: Status.History, s': State, first: Option<Bytes>)
    requires Inv(codec, s, first) && Status.Consistent(history) && Status.Fresh(history.registry.snapshot)
    requires s' == s.(history := history, pc := Encoded(codec.encode(history.registry.snapshot)),
                      refreshed := s.refreshed + [history.registry.snapshot])
    ensures Inv(codec, s', first)
  {
    HoldsLater(codec, s, first, s');
  }

  lemma UpdateKeepsInv(codec: Codec, s: State, call: Status.Call, s': State, first: Option<Bytes>)
    requires Inv(codec, s, first) && Next(codec, s, Update(call)) == Some(s')
    ensures Inv(codec, s', first)
  {
    if !call.io.NoClock? {
      var history := Status.Record(s.history, call);
      UpdateIsConsistent(s.history, call);
      MeantKeepsInv(codec, s, history, s', first);
    }
  }

  lemma WriteStepKeepsInv(codec: Codec, s: State, step: Step, s': State, first: Option<Bytes>)
    requires Inv(codec, s, first) && Next(codec, s, step) == Some(s')
    requires !step.Update? && !step.Rename? && !step.Restart?
    ensures Inv(codec, s', first)
  {
    HoldsLater(codec, s, first, s');
    if step.Write? {
      var body, n := s.pc.body, s.pc.n;
      assert body[..n] + body[n..step.k] == body[..step.k];
    } else if step.Sync? {
      assert s.pc.body[..s.pc.n] == s.pc.body;
    }
  }

  lemma StepKeepsInv(codec: Codec, s: State, step: Step, s': State, first: Option<Bytes>)
    requires Inv(codec, s, first) && Next(codec, s, step) == Some(s')
    ensures Inv(codec, s', first)
  {
    if step.Update? {
      UpdateKeepsInv(codec, s, step.call, s', first);
    } else if step.Rename? {
      assert IsEncoded(codec, s', |s.refreshed| - 1);
    } else if step.Restart? {
      InitialIsConsistent(step.recentLimit, step.now);
      HoldsLater(codec, s, first, s');
    } else {
      WriteStepKeepsInv(codec, s, step, s', first);
    }
  }

  lemma {:induction false} RunKeepsInv(codec: Codec, s: State, run: seq<Step>, first: Option<Bytes>)
    requires Inv(codec, s, first) && Exec(codec, s, run).Some?
    ensures Inv(codec, Exec(codec, s, run).value, first)
    decreases |run|
  {
    if run != [] {
      StepKeepsInv(codec, s, run[0], Next(codec, s, run[0]).value, first);
      RunKeepsInv(codec, Next(codec, s, run[0]).value, run[1..], first);
    }
  }

  ghost predicate ShowsSnapshot(codec: Codec, s: State, i: nat) {
    && i < |s.refreshed| && s.file.Some?
    && codec.decode(s.file.value) == Some(s.refreshed[i]) && Status.Fresh(s.refreshed[i])
  }

  /**
    Whenever status.json is read, between any two steps of any updates, failures, stops and restarts: it is what it
    was before the server first started, or it decodes to a snapshot that some update meant to write, whose counts are
    the lengths of its lists and whose queue positions count from one.
   */
  lemma ReadersSeeWholeSnapshots(codec: Codec, recentLimit: nat, now: nat, first: Option<Bytes>, run: seq<Step>)
    requires Faithful(codec) && Exec(codec, Init(recentLimit, now, first), run).Some?
    ensures var s := Exec(codec, Init(recentLimit, now, first), run).value;
            s.file == first || exists i :: ShowsSnapshot(codec, s, i)
  {
    InitialIsConsistent(recentLimit, now);
    RunKeepsInv(codec, Init(recentLimit, now, first), run, first);
    var s := Exec(codec, Init(recentLimit, now, first), run).value;
    if s.file != first {
      var i: nat :| IsEncoded(codec, s, i);
      assert ShowsSnapshot(codec, s, i);
    }
  }

  // ---------------------------------------------------------------- which snapshot it is

  predicate NoRename(run: seq<Step>) {
    forall i :: 0 <= i < |run| ==> !run[i].Rename?
  }

  /** Whatever fails or stops, as long as no rename succeeds the previous file stays. */
  lemma {:induction false} FailedWritesLeaveTheFile(codec: Codec, s: State, run: seq<Step>)
    requires Exec(codec, s, run).Some? && NoRename(run)
    ensures Exec(codec, s, run).value.file == s.file
    decreases |run|
  {
    if run != [] {
      FailedWritesLeaveTheFile(codec, Next(codec, s, run[0]).value, run[1..]);
    }
  }

  lemma RenamedIsLatest(codec: Codec, s: State, first: Option<Bytes>)
    requires Inv(codec, s, first) && s.pc.Synced?
    ensures s.refreshed != [] && s.temp == Some(codec.encode(s.refreshed[|s.refreshed| - 1]))
  {
  }

  /** A write that comes through puts the latest snapshot of memory into the file. */
  lemma RenameShowsLatest(codec: Codec, recentLimit: nat, now: nat, first: Option<Bytes>, run: seq<Step>)
    requires Exec(codec, Init(recentLimit, now, first), run).Some?
    requires Exec(codec, Init(recentLimit, now, first), run).value.pc.Synced?
    ensures var s := Exec(codec, Init(recentLimit, now, first), run).value;
            && s.refreshed != []
            && Next(codec, s, Rename) ==
               Some(s.(file := Some(codec.encode(s.refreshed[|s.refreshed| - 1])), temp := None, pc := Idle))
  {
    InitialIsConsistent(recentLimit, now);
    var s0 := Init(recentLimit, now, first);
    RunKeepsInv(codec, s0, run, first);
    RenamedIsLatest(codec, Exec(codec, s0, run).value, first);
  }

  /** The steps of an update that nothing disturbs; the body can be written in one go. */
  function UndisturbedUpdate(call: Status.Call, body: Bytes): seq<Step> {
    [Update(call), Create] + (if body == [] then [] else [Write(|body|)]) + [Sync, Rename]
  }

  lemma WrittenUpdate(codec: Codec, s: State, call: Status.Call) returns (written: State)
    requires s.pc.Idle? && !call.io.NoClock?
    ensures var history := Status.Record(s.history, call);
            var body := codec.encode(history.registry.snapshot);
            && Exec(codec, s, [Update(call), Create]) == Some(written)
            && written == s.(history := history, temp := Some([]), pc := Writing(body, 0),
                             refreshed := s.refreshed + [history.registry.snapshot])
  {
    var updated := Next(codec, s, Update(call)).value;
    written := Next(codec, updated, Create).value;
    assert [Update(call), Create][1..] == [Create] && [Create][1..] == [];
    assert Exec(codec, written, []) == Some(written);
    assert Exec(codec, updated, [Create]) == Some(written);
  }

  /** An update that nothing disturbs puts what memory then holds into the file and leaves no temporary file. */
  lemma UndisturbedUpdateIsSeen(codec: Codec, s: State, call: Status.Call)
    requires s.pc.Idle? && !call.io.NoClock?
    ensures var history := Status.Record(s.history, call);
            var body := codec.encode(history.registry.snapshot);
            var last := Exec(codec, s, UndisturbedUpdate(call, body));
            && last.Some? && last.value.file == Some(body) && last.value.temp == None && last.value.pc == Idle
            && last.value.history == history
  {
    var body := codec.encode(Status.Record(s.history, call).registry.snapshot);
    var written := WrittenUpdate(codec, s, call);
    var writes := if body == [] then [] else [Write(|body|)];
    RunsInTurn(codec, s, [Update(call), Create], writes + [Sync, Rename]);
    assert UndisturbedUpdate(call, body) == [Update(call), Create] + (writes + [Sync, Rename]);
    var full := written.(temp := Some(body), pc := Writing(body, |body|));
    if body != [] {
      assert [] + body[0..|body|] == body;
      assert Next(codec, written, Write(|body|)) == Some(full);
      assert ([Write(|body|)] + [Sync, Rename])[1..] == [Sync, Rename];
    } else {
      assert writes + [Sync, Rename] == [Sync, Rename] && full == written;
    }
    assert Exec(codec, written, writes + [Sync, Rename]) == Exec(codec, full, [Sync, Rename]);
    LastSteps(codec, full, body);
  }

  lemma LastSteps(codec: Codec, s: State, body: Bytes)
    requires s.pc == Writing(body, |body|) && s.temp == Some(body)
    ensures Exec(codec, s, [Sync, Rename]) == Some(s.(file := Some(body), temp := None, pc := Idle))
  {
    var synced := s.(pc := Synced(body));
    var renamed := s.(file := Some(body), temp := None, pc := Idle);
    assert [Sync, Rename][1..] == [Rename] && [Rename][1..] == [];
    assert Exec(codec, renamed, []) == Some(renamed);
    assert Exec(codec, synced, [Rename]) == Some(renamed);
  }

  lemma {:induction false} RunsInTurn(codec: Codec, s: State, run: seq<Step>, more: seq<Step>)
    requires Exec(codec, s, run).Some?
    ensures Exec(codec, s, run + more) == Exec(codec, Exec(codec, s, run).value, more)
    decreases |run|
  {
    if run == [] {
      assert run + more == more;
    } else {
      assert (run + more)[1..] == run[1..] + more;
      RunsInTurn(codec, Next(codec, s, run[0]).value, run[1..], more);
    }
  }
}
