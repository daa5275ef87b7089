/**
  What status.json says of a connection's build: each entry names the client and the installable of the connection
  that was given its id, and a finished one the result that this connection reported, over every interleaving.
 */
module ConnectionEntries {
  import opened Protocol
  import opened Admission
  import Tickets
  import Status = StatusRegistry
  import Entries = RegistryEntries

  // ---------------------------------------------------------------- the entries with one id

  ghost predicate Describes(s: Status.Snapshot, id: Status.RequestId, client: string, installable: string) {
    && (forall k :: 0 <= k < |s.queued| && s.queued[k].id == id ==>
          s.queued[k].client == client && s.queued[k].installable == installable)
    && (forall k :: 0 <= k < |s.active| && s.active[k].id == id ==>
          s.active[k].client == client && s.active[k].installable == installable)
    && (forall k :: 0 <= k < |s.recent| && s.recent[k].id == id ==>
          s.recent[k].client == client && s.recent[k].installable == installable)
  }

  ghost predicate Tells(s: Status.Snapshot, id: Status.RequestId, outcome: Outcome) {
    forall k :: 0 <= k < |s.recent| && s.recent[k].id == id ==>
      s.recent[k].result == outcome.result && Entries.IsShort(outcome.error, s.recent[k].shortError)
  }

  ghost predicate NoEntry(s: Status.Snapshot, id: Status.RequestId) {
    && (forall k :: 0 <= k < |s.queued| ==> s.queued[k].id != id)
    && (forall k :: 0 <= k < |s.active| ==> s.active[k].id != id)
    && (forall k :: 0 <= k < |s.recent| ==> s.recent[k].id != id)
  }

  lemma RefreshKeeps(s: Status.Snapshot, now: nat, id: Status.RequestId, client: string, installable: string,
                     outcome: Outcome)
    ensures Describes(s, id, client, installable) ==> Describes(Status.Refresh(s, now), id, client, installable)
    ensures Tells(s, id, outcome) ==> Tells(Status.Refresh(s, now), id, outcome)
  {
  }

  lemma UpdateKeepsDescription(r: Status.Registry, call: Status.Call, id: Status.RequestId, client: string,
                               installable: string)
    requires Describes(r.snapshot, id, client, installable) && call.io != Status.NoClock
    requires call.Enqueue? ==>
               id != Status.Build(r.nextSeq + 1) || (call.client == client && call.installable == installable)
    ensures Describes(Status.Update(r, call).snapshot, id, client, installable)
  {
    match call {
      case Finish(_, _, _, _) => FinishKeepsDescription(r, call, id, client, installable);
      case _ =>
    }
  }

  lemma FinishKeepsDescription(r: Status.Registry, call: Status.Call, id: Status.RequestId, client: string,
                               installable: string)
    requires Describes(r.snapshot, id, client, installable) && call.io != Status.NoClock && call.Finish?
    ensures Describes(Status.Update(r, call).snapshot, id, client, installable)
  {
  }

  /** A call that does not finish this build leaves what is told of its result; one that does tells its own. */
  lemma UpdateKeepsResult(r: Status.Registry, call: Status.Call, id: Status.RequestId, outcome: Outcome)
    requires Tells(r.snapshot, id, outcome) && call.io != Status.NoClock
    requires call.Finish? && call.id == id ==> call.result == outcome.result && call.error == outcome.error
    ensures Tells(Status.Update(r, call).snapshot, id, outcome)
  {
    if call.Finish? {
      Entries.ErrorIsShort(call.error);
    }
  }

  lemma CallKeepsEntries(h: Status.History, call: Status.Call, id: Status.RequestId, client: string,
                         installable: string, outcome: Outcome)
    requires call.Enqueue? ==>
               id != Status.Build(h.registry.nextSeq + 1) || (call.client == client && call.installable == installable)
    requires call.Finish? && call.id == id ==> call.result == outcome.result && call.error == outcome.error
    ensures Describes(h.registry.snapshot, id, client, installable) ==>
              Describes(Status.Record(h, call).registry.snapshot, id, client, installable)
    ensures Tells(h.registry.snapshot, id, outcome) ==> Tells(Status.Record(h, call).registry.snapshot, id, outcome)
  {
    if call.io != Status.NoClock {
      if Describes(h.registry.snapshot, id, client, installable) {
        UpdateKeepsDescription(h.registry, call, id, client, installable);
      }
      if Tells(h.registry.snapshot, id, outcome) {
        UpdateKeepsResult(h.registry, call, id, outcome);
      }
      RefreshKeeps(Status.Update(h.registry, call).snapshot, call.io.now, id, client, installable, outcome);
    }
  }

  lemma RecentIsFinished(h: Status.History, k: nat)
    requires Status.Consistent(h) && k < |h.registry.snapshot.recent|
    ensures h.registry.snapshot.recent[k].id in h.finished
  {
    Entries.RecentIdsAre(h, k);
  }

  /** An id that is in no list has no entry. */
  lemma NowhereHasNoEntry(h: Status.History, id: Status.RequestId)
    requires Status.Consistent(h)
    requires forall place :: id !in Status.At(Status.IdsOf(h), place)
    ensures NoEntry(h.registry.snapshot, id)
  {
    var s, ids := h.registry.snapshot, Status.IdsOf(h);
    assert id !in Status.At(ids, Status.InQueue) && id !in Status.At(ids, Status.InActive);
    assert id !in Status.At(ids, Status.InFinished);
    assert forall k :: 0 <= k < |s.queued| ==> ids.queued[k] == s.queued[k].id;
    assert forall k :: 0 <= k < |s.active| ==> ids.active[k] == s.active[k].id;
    forall k | 0 <= k < |s.recent|
      ensures s.recent[k].id != id
    {
      RecentIsFinished(h, k);
    }
  }

  lemma UnissuedHasNoEntry(h: Status.History, id: Status.RequestId)
    requires Status.Consistent(h) && id == Status.Build(h.registry.nextSeq + 1)
    ensures NoEntry(h.registry.snapshot, id)
  {
    Status.EveryIdIsInOnePlace(h, id);
    forall place
      ensures id !in Status.At(Status.IdsOf(h), place)
    {
      assert Status.Tally(Status.IdsOf(h), place, id) == 0 by {
        match place { case InQueue => case InActive => case InFinished => }
      }
    }
    NowhereHasNoEntry(h, id);
  }

  // ---------------------------------------------------------------- connections and their entries

  lemma {:induction false} TwoCount(conns: seq<Conn>, c: nat, d: nat, kind: Kind)
    requires c < d < |conns| && Is(conns[c], kind) && Is(conns[d], kind)
    ensures Count(conns, kind) >= 2
  {
    if c == 0 {
      OwnerCounts(conns[1..], d - 1, kind);
    } else {
      TwoCount(conns[1..], c - 1, d - 1, kind);
    }
  }

  lemma OwnersAreTallied(s: System, place: Status.Place, id: Status.RequestId)
    requires Mirrored(s)
    ensures Count(s.conns, Owns(place, id)) <= Status.Tally(Status.IdsOf(s.history), place, id)
  {
    assert MirroredAt(Status.IdsOf(s.history), s.conns, s.leaked, place, id);
  }

  /** No two connections were given the same id. */
  lemma IdsDiffer(s: System, c: nat, d: nat)
    requires Mirrored(s) && c < d < |s.conns| && s.conns[c].id.Build?
    ensures s.conns[c].id != s.conns[d].id
  {
    if s.conns[c].id == s.conns[d].id {
      var place := PlaceOf(s.conns[c]).value;
      BuildIsFound(s, c, place);
      BuildIsFound(s, d, place);
      OwnersAreTallied(s, place, s.conns[c].id);
      TwoCount(s.conns, c, d, Owns(place, s.conns[c].id));
    }
  }

  lemma IdIsIssued(s: System, c: nat)
    requires Mirrored(s) && c < |s.conns| && s.conns[c].id.Build?
    ensures s.conns[c].id.seqNo <= s.history.registry.nextSeq
  {
    BuildIsFound(s, c, PlaceOf(s.conns[c]).value);
    Status.EveryIdIsInOnePlace(s.history, s.conns[c].id);
  }

  ghost predicate ListedAs(h: Status.History, conn: Conn) {
    conn.id.Build? ==>
      && Describes(h.registry.snapshot, conn.id, conn.client, conn.installable)
      && (conn.outcome.Some? ==> Tells(h.registry.snapshot, conn.id, conn.outcome.value))
  }

  ghost predicate Listed(s: System) {
    forall c :: 0 <= c < |s.conns| ==> ListedAs(s.history, s.conns[c])
  }

  /** A call about other builds leaves a connection's entries as they are. */
  lemma OtherCallKeeps(h: Status.History, call: Status.Call, conn: Conn)
    requires ListedAs(h, conn) && (conn.id.Build? ==> conn.id.seqNo <= h.registry.nextSeq)
    requires conn.id.Build? && call.Finish? ==> call.id != conn.id
    ensures ListedAs(Status.Record(h, call), conn)
  {
    if conn.id.Build? {
      var outcome := if conn.outcome.Some? then conn.outcome.value else Outcome(Status.Success, None);
      CallKeepsEntries(h, call, conn.id, conn.client, conn.installable, outcome);
    }
  }

  lemma OtherConnKeeps(s: System, step: Step, s': System, c: nat)
    requires Mirrored(s) && Listed(s) && Next(s, step) == Some(s') && IsCall(step) && c < |s.conns|
    requires step.SetPhase? || step.Heartbeat? || c != step.c
    ensures ListedAs(Status.Record(s.history, CallOf(s, step)), s.conns[c])
  {
    if s.conns[c].id.Build? {
      IdIsIssued(s, c);
      if step.QueueFails? || step.Record? {
        if c < step.c {
          IdsDiffer(s, c, step.c);
        } else if s.conns[step.c].id.Build? {
          IdsDiffer(s, step.c, c);
        }
      }
    }
    OtherCallKeeps(s.history, CallOf(s, step), s.conns[c]);
  }

  /** The connection whose enqueue was written is described by the entry that it made. */
  lemma EnqueueLists(h: Status.History, call: Status.Call, conn: Conn)
    requires Status.Consistent(h) && call.Enqueue? && conn.id == Status.EnqueueAnswer(h.registry, call.io)
    requires conn.client == call.client && conn.installable == call.installable && conn.outcome == None
    ensures ListedAs(Status.Record(h, call), conn)
  {
    if conn.id.Build? {
      UnissuedHasNoEntry(h, conn.id);
      CallKeepsEntries(h, call, conn.id, conn.client, conn.installable, Outcome(Status.Success, None));
    }
  }

  /** The connection that reports its result is told of by the entry that this makes. */
  lemma FinishLists(s: System, c: nat, call: Status.Call, conn: Conn)
    requires Mirrored(s) && c < |s.conns| && ListedAs(s.history, s.conns[c]) && s.conns[c].outcome == None
    requires call.Finish? && call.id == s.conns[c].id
    requires conn.id == s.conns[c].id && conn.client == s.conns[c].client && conn.installable == s.conns[c].installable
    requires conn.outcome == if call.io.NoClock? then None else Some(Outcome(call.result, call.error))
    ensures ListedAs(Status.Record(s.history, call), conn)
  {
    if conn.id.Build? {
      BuildIsFound(s, c, Status.InFinished);
      forall k | 0 <= k < |s.history.registry.snapshot.recent|
        ensures s.history.registry.snapshot.recent[k].id != conn.id
      {
        RecentIsFinished(s.history, k);
      }
      CallKeepsEntries(s.history, call, conn.id, conn.client, conn.installable, Outcome(call.result, call.error));
    }
  }

  lemma StartLists(h: Status.History, call: Status.Call, conn: Conn, conn': Conn)
    requires ListedAs(h, conn) && call.Start?
    requires conn'.id == conn.id && conn'.client == conn.client && conn'.installable == conn.installable
    requires conn'.outcome == conn.outcome
    ensures ListedAs(Status.Record(h, call), conn')
  {
    if conn.id.Build? {
      var outcome := if conn.outcome.Some? then conn.outcome.value else Outcome(Status.Success, None);
      CallKeepsEntries(h, call, conn.id, conn.client, conn.installable, outcome);
    }
  }

  lemma EnqueueChanges(s: System, step: Step, s': System)
    requires Next(s, step) == Some(s') && step.Enqueue? && PhaseAccounted(s.conns[step.c])
    ensures var conn, call := s'.conns[step.c], CallOf(s, step);
            && call.Enqueue? && conn.id == Status.EnqueueAnswer(s.history.registry, call.io)
            && conn.client == call.client && conn.installable == call.installable && conn.outcome == None
            && s'.conns == s.conns[step.c := conn]
  {
  }

  lemma FinishChanges(s: System, step: Step, s': System)
    requires Next(s, step) == Some(s') && (step.QueueFails? || step.Record?) && PhaseAccounted(s.conns[step.c])
    ensures var conn, was, call := s'.conns[step.c], s.conns[step.c], CallOf(s, step);
            && call.Finish? && call.id == was.id && was.outcome == None
            && conn.id == was.id && conn.client == was.client && conn.installable == was.installable
            && conn.outcome == (if call.io.NoClock? then None else Some(Outcome(call.result, call.error)))
            && s'.conns == s.conns[step.c := conn]
  {
  }

  lemma StartChanges(s: System, step: Step, s': System)
    requires Next(s, step) == Some(s') && step.Start?
    ensures var conn, was := s'.conns[step.c], s.conns[step.c];
            && CallOf(s, step).Start? && conn.id == was.id && conn.client == was.client
            && conn.installable == was.installable && conn.outcome == was.outcome
            && s'.conns == s.conns[step.c := conn]
  {
  }

  lemma OwnCallLists(s: System, step: Step, s': System)
    requires Mirrored(s) && Listed(s) && Next(s, step) == Some(s')
    requires (step.Enqueue? || step.Start? || step.QueueFails? || step.Record?) && PhaseAccounted(s.conns[step.c])
    ensures s'.conns == s.conns[step.c := s'.conns[step.c]]
    ensures ListedAs(Status.Record(s.history, CallOf(s, step)), s'.conns[step.c])
  {
    if step.Enqueue? {
      EnqueueChanges(s, step, s');
      EnqueueLists(s.history, CallOf(s, step), s'.conns[step.c]);
    } else if step.Start? {
      StartChanges(s, step, s');
      StartLists(s.history, CallOf(s, step), s.conns[step.c], s'.conns[step.c]);
    } else {
      FinishChanges(s, step, s');
      FinishLists(s, step.c, CallOf(s, step), s'.conns[step.c]);
    }
  }

  lemma CallKeepsListed(s: System, step: Step, s': System)
    requires Mirrored(s) && Listed(s) && Next(s, step) == Some(s') && IsCall(step)
    requires !step.Heartbeat? ==> PhaseAccounted(s.conns[step.c])
    ensures Listed(s')
  {
    CallRecords(s, step, s');
    if step.SetPhase? || step.Heartbeat? {
      SharedCallRecords(s, step, s');
    } else {
      OwnCallLists(s, step, s');
    }
    forall c | 0 <= c < |s'.conns|
      ensures ListedAs(s'.history, s'.conns[c])
    {
      if step.SetPhase? || step.Heartbeat? || c != step.c {
        OtherConnKeeps(s, step, s', c);
      }
    }
  }

  lemma QuietKeepsListed(s: System, step: Step, s': System)
    requires Listed(s) && Next(s, step) == Some(s') && IsQuiet(step)
    ensures Listed(s')
  {
    assert ListedAs(s.history, s.conns[step.c]);
    QuietChanges(s, step, s');
  }

  lemma QuietChanges(s: System, step: Step, s': System)
    requires Next(s, step) == Some(s') && IsQuiet(step)
    ensures s'.history == s.history && step.c < |s.conns| == |s'.conns|
    ensures var conn, was := s'.conns[step.c], s.conns[step.c];
            && conn.id == was.id && conn.client == was.client && conn.installable == was.installable
            && conn.outcome == was.outcome && s'.conns == s.conns[step.c := conn]
  {
  }

  lemma StepKeepsListed(max: nat, s: System, step: Step, s': System)
    requires Accounted(max, s) && Mirrored(s) && Listed(s) && Next(s, step) == Some(s')
    ensures Listed(s')
  {
    assert !step.Arrive? && !step.Command? && !step.Heartbeat? ==> PhaseAccounted(s.conns[step.c]);
    if IsCall(step) {
      CallKeepsListed(s, step, s');
    } else if IsQuiet(step) {
      QuietKeepsListed(s, step, s');
    }
  }

  lemma {:induction false} RunKeepsListed(max: nat, s: System, run: seq<Step>)
    requires Accounted(max, s) && Mirrored(s) && Listed(s) && Exec(s, run).Some?
    ensures Listed(Exec(s, run).value)
    decreases |run|
  {
    if run != [] {
      var s' := Next(s, run[0]).value;
      StepKeepsAccounted(max, s, run[0], s');
      StepKeepsMirrored(max, s, run[0], s');
      StepKeepsListed(max, s, run[0], s');
      RunKeepsListed(max, s', run[1..]);
    }
  }

  /** The phase that a connection reports is shown as long as its build is listed as active. */
  lemma PhaseIsShown(s: System, step: Step, s': System)
    requires Mirrored(s) && Next(s, step) == Some(s') && step.SetPhase? && !step.io.NoClock?
    requires PlaceOf(s.conns[step.c]) == Some(Status.InActive)
    ensures var page := s'.history.registry.snapshot;
            exists k :: 0 <= k < |page.active| && page.active[k].id == s.conns[step.c].id
                        && page.active[k].phase == step.phase
  {
    SharedCallRecords(s, step, s');
    var active, id := s.history.registry.snapshot.active, s.conns[step.c].id;
    BuildIsFound(s, step.c, Status.InActive);
    Status.FoundActive(active, id);
    var k := Status.FindActive(active, id);
    assert s'.history.registry.snapshot.active[k].phase == step.phase;
  }

  // ---------------------------------------------------------------- main result

  /** The outcome that a step reports for its connection. */
  function Reports(step: Step): Outcome
    requires step.QueueFails? || step.Record?
  {
    if step.Record? then Outcome(step.result, step.error) else Outcome(Status.Errored, step.error)
  }

  lemma {:induction false} OutcomeWasReported(s: System, run: seq<Step>, c: nat)
    requires Exec(s, run).Some? && c < |Exec(s, run).value.conns| && Exec(s, run).value.conns[c].outcome.Some?
    requires c < |s.conns| ==> s.conns[c].outcome == None
    ensures exists i: nat :: i < |run| && TellsResult(run[i], c)
                             && Exec(s, run).value.conns[c].outcome == Some(Reports(run[i]))
    decreases |run|
  {
    if run != [] {
      var s' := Next(s, run[0]).value;
      if c < |s'.conns| && s'.conns[c].outcome.Some? {
        StepReports(s, run[0], s', c);
        EndedKeepsOutcome(s', run[1..], c);
        assert TellsResult(run[0], c);
      } else {
        OutcomeWasReported(s', run[1..], c);
        var i: nat :| i < |run[1..]| && TellsResult(run[1..][i], c)
                      && Exec(s, run).value.conns[c].outcome == Some(Reports(run[1..][i]));
        assert TellsResult(run[i + 1], c);
      }
    }
  }

  lemma StepReports(s: System, step: Step, s': System, c: nat)
    requires Next(s, step) == Some(s') && (c < |s.conns| ==> s.conns[c].outcome == None)
    requires c < |s'.conns| && s'.conns[c].outcome.Some?
    ensures TellsResult(step, c) && s'.conns[c].outcome == Some(Reports(step)) && s'.conns[c].phase == Ended
  {
    StepTells(s, step, s', c);
  }

  lemma {:induction false} EndedKeepsOutcome(s: System, run: seq<Step>, c: nat)
    requires Exec(s, run).Some? && c < |s.conns| && s.conns[c].phase == Ended
    ensures c < |Exec(s, run).value.conns| && Exec(s, run).value.conns[c] == s.conns[c]
    decreases |run|
  {
    if run != [] {
      EndedStepKeeps(s, run[0], Next(s, run[0]).value, c);
      EndedKeepsOutcome(Next(s, run[0]).value, run[1..], c);
    }
  }

  lemma EndedStepKeeps(s: System, step: Step, s': System, c: nat)
    requires Next(s, step) == Some(s') && c < |s.conns| && s.conns[c].phase == Ended
    ensures c < |s'.conns| && s'.conns[c] == s.conns[c]
  {
  }

  /**
    The entries of a connection's build name its client and its installable wherever the build is listed, and once it is
    finished the result and error that the connection itself reported.
   */
  lemma EntriesAreTheConnections(max: nat, tickets: Tickets.Tickets, recentLimit: nat, now: nat, run: seq<Step>, c: nat)
    requires Exec(Init(max, tickets, recentLimit, now), run).Some?
    requires var s := Exec(Init(max, tickets, recentLimit, now), run).value; c < |s.conns| && s.conns[c].id.Build?
    ensures var s := Exec(Init(max, tickets, recentLimit, now), run).value;
            var page, conn := s.history.registry.snapshot, s.conns[c];
            && Describes(page, conn.id, conn.client, conn.installable)
            && (forall k :: 0 <= k < |page.recent| && page.recent[k].id == conn.id ==>
                  exists i: nat :: i < |run| && TellsResult(run[i], c)
                                   && page.recent[k].result == Reports(run[i]).result
                                   && Entries.IsShort(Reports(run[i]).error, page.recent[k].shortError))
  {
    var s0 := Init(max, tickets, recentLimit, now);
    var s := Exec(s0, run).value;
    InitAccounted(max, tickets, recentLimit, now);
    InitMirrored(max, tickets, recentLimit, now);
    RunKeepsListed(max, s0, run);
    RunKeepsMirrored(max, s0, run);
    assert ListedAs(s.history, s.conns[c]);
    var recent := s.history.registry.snapshot.recent;
    forall k | 0 <= k < |recent| && recent[k].id == s.conns[c].id
      ensures s.conns[c].outcome.Some?
    {
      RecentIsFinished(s.history, k);
      BuildIsFound(s, c, Status.InFinished);
    }
    if s.conns[c].outcome.Some? {
      OutcomeWasReported(s0, run, c);
    }
  }
}
