/**
  What the entries of the status registry carry, over every sequence of calls: an entry tells of the calls that made
  it.  The statements speak of the calls alone; a call for which the clock gives no answer does not count.
 */
module RegistryEntries {
  import opened Protocol
  import opened StatusRegistry

  function After(recentLimit: nat, now: nat, calls: seq<Call>): History {
    RecordAll(History(Initial(recentLimit, now), []), calls)
  }

  // ---------------------------------------------------------------- the calls that make an entry

  predicate IsEnqueue(call: Call) {
    call.Enqueue? && call.io != NoClock
  }

  predicate IsStart(call: Call, id: RequestId) {
    call.Start? && call.id == id && call.io != NoClock
  }

  predicate IsPhase(call: Call, id: RequestId) {
    call.Phase? && call.id == id && call.io != NoClock
  }

  predicate IsFinish(call: Call, id: RequestId) {
    call.Finish? && call.id == id && call.io != NoClock
  }

  function Enqueues(calls: seq<Call>): nat {
    if calls == [] then 0
    else Enqueues(calls[..|calls| - 1]) + if IsEnqueue(calls[|calls| - 1]) then 1 else 0
  }

  /** Call i is the enqueue that issued the id: enqueues are numbered from one. */
  predicate IssuedAt(calls: seq<Call>, id: RequestId, i: nat) {
    i < |calls| && IsEnqueue(calls[i]) && id == Build(Enqueues(calls[..i]) + 1)
  }

  /** Call j is the first start of the build that was enqueued by call i, and the build was not finished before. */
  ghost predicate StartedAt(calls: seq<Call>, id: RequestId, i: nat, j: nat) {
    && i < j < |calls| && IsStart(calls[j], id)
    && forall m :: i < m < j ==> !IsStart(calls[m], id) && !IsFinish(calls[m], id)
  }

  ghost predicate NotStarted(calls: seq<Call>, id: RequestId, i: nat, end: nat) {
    end <= |calls| && forall m :: i < m < end ==> !IsStart(calls[m], id)
  }

  ghost predicate NotFinished(calls: seq<Call>, id: RequestId, i: nat, end: nat) {
    end <= |calls| && forall m :: i < m < end ==> !IsFinish(calls[m], id)
  }

  /** Call f is the first finish of the build after its enqueue. */
  ghost predicate FinishedAt(calls: seq<Call>, id: RequestId, i: nat, f: nat) {
    i < f < |calls| && IsFinish(calls[f], id) && NotFinished(calls, id, i, f)
  }

  /** The phase of a build that was started by call j: that of its latest phase call, or the one it starts with. */
  ghost predicate PhaseIs(calls: seq<Call>, id: RequestId, j: nat, phase: string) {
    || (phase == "starting" && forall m :: j < m < |calls| ==> !IsPhase(calls[m], id))
    || (exists p :: j < p < |calls| && IsPhase(calls[p], id) && calls[p].phase == phase && LastPhase(calls, id, p))
  }

  ghost predicate LastPhase(calls: seq<Call>, id: RequestId, p: nat) {
    forall m :: p < m < |calls| ==> !IsPhase(calls[m], id)
  }

  // ---------------------------------------------------------------- what an entry says

  /** A queued build: what its enqueue said, and neither started nor finished since. */
  ghost predicate QueuedFrom(calls: seq<Call>, e: QueuedBuild, i: nat) {
    && IssuedAt(calls, e.id, i) && e.client == calls[i].client && e.installable == calls[i].installable
    && e.queuedAt == calls[i].io.now
    && NotStarted(calls, e.id, i, |calls|) && NotFinished(calls, e.id, i, |calls|)
  }

  /** An active build: what its enqueue, its start and its latest phase said, and not finished since. */
  ghost predicate ActiveFrom(calls: seq<Call>, e: ActiveBuild, i: nat, j: nat) {
    && IssuedAt(calls, e.id, i) && e.client == calls[i].client && e.installable == calls[i].installable
    && e.queuedAt == calls[i].io.now
    && StartedAt(calls, e.id, i, j) && e.startedAt == calls[j].io.now && PhaseIs(calls, e.id, j, e.phase)
    && NotFinished(calls, e.id, i, |calls|)
  }

  /** A finished build: what its enqueue and its finish said, and how long it ran if it was started. */
  ghost predicate RecentFrom(calls: seq<Call>, e: RecentBuild, i: nat, f: nat) {
    && IssuedAt(calls, e.id, i) && e.client == calls[i].client && e.installable == calls[i].installable
    && e.queuedAt == calls[i].io.now
    && FinishedAt(calls, e.id, i, f) && e.result == calls[f].result && e.finishedAt == calls[f].io.now
    && IsShort(calls[f].error, e.shortError)
    && (match e.startedAt
        case None => NotStarted(calls, e.id, i, f) && e.duration == None
        case Some(started) =>
          && (exists j: nat :: StartedAt(calls, e.id, i, j) && j < f && started == calls[j].io.now)
          && e.duration == Some(if started <= e.finishedAt then e.finishedAt - started else 0))
  }

  /** The error as it is kept: all of it, or its first 512 characters with a note. */
  predicate IsShort(error: Option<string>, short: Option<string>) {
    && (error.None? <==> short.None?)
    && (error.Some? ==>
          if |error.value| <= 512 then short.value == error.value
          else short.value == error.value[..512] + "\n[truncated]")
  }

  ghost predicate QueuedOk(calls: seq<Call>, e: QueuedBuild) {
    exists i: nat :: QueuedFrom(calls, e, i)
  }

  ghost predicate ActiveOk(calls: seq<Call>, e: ActiveBuild) {
    exists i: nat, j: nat :: ActiveFrom(calls, e, i, j)
  }

  ghost predicate RecentOk(calls: seq<Call>, e: RecentBuild) {
    exists i: nat, f: nat :: RecentFrom(calls, e, i, f)
  }

  ghost predicate FinishedOk(calls: seq<Call>, id: RequestId) {
    exists i: nat, f: nat :: IssuedAt(calls, id, i) && FinishedAt(calls, id, i, f)
  }

  ghost predicate EntriesOk(calls: seq<Call>, h: History) {
    var s := h.registry.snapshot;
    && h.registry.nextSeq == Enqueues(calls)
    && (forall k :: 0 <= k < |s.queued| ==> QueuedOk(calls, s.queued[k]))
    && (forall k :: 0 <= k < |s.active| ==> ActiveOk(calls, s.active[k]))
    && (forall k :: 0 <= k < |s.recent| ==> RecentOk(calls, s.recent[k]))
    && (forall k :: 0 <= k < |h.finished| ==> FinishedOk(calls, h.finished[k]))
  }

  // ---------------------------------------------------------------- one more call

  lemma IssuedStays(calls: seq<Call>, call: Call, id: RequestId, i: nat)
    requires IssuedAt(calls, id, i)
    ensures IssuedAt(calls + [call], id, i)
  {
    assert (calls + [call])[..i] == calls[..i];
  }

  /** Ids are numbered in the order of their enqueues, so each is issued once. */
  lemma {:induction false} EnqueuesGrow(calls: seq<Call>, i: nat)
    requires i <= |calls|
    ensures Enqueues(calls[..i]) <= Enqueues(calls)
    decreases |calls|
  {
    if i < |calls| {
      var init := calls[..|calls| - 1];
      assert init[..i] == calls[..i];
      EnqueuesGrow(init, i);
    } else {
      assert calls[..i] == calls;
    }
  }

  lemma IssuedOnce(calls: seq<Call>, id: RequestId, i: nat, i': nat)
    requires IssuedAt(calls, id, i) && IssuedAt(calls, id, i')
    ensures i == i'
  {
    if i < i' {
      IssuedEarlier(calls, i, i');
    } else if i' < i {
      IssuedEarlier(calls, i', i);
    }
  }

  lemma IssuedEarlier(calls: seq<Call>, i: nat, i': nat)
    requires i < i' <= |calls| && IsEnqueue(calls[i])
    ensures Enqueues(calls[..i]) < Enqueues(calls[..i'])
  {
    assert calls[..i + 1][..i] == calls[..i];
    assert calls[..i'][..i + 1] == calls[..i + 1];
    EnqueuesGrow(calls[..i'], i + 1);
  }

  /** A call that is no start or finish of this build leaves a queued entry as it is. */
  lemma QueuedStays(calls: seq<Call>, call: Call, e: QueuedBuild, e': QueuedBuild)
    requires QueuedOk(calls, e) && !IsStart(call, e.id) && !IsFinish(call, e.id)
    requires e'.id == e.id && e'.client == e.client && e'.installable == e.installable && e'.queuedAt == e.queuedAt
    ensures QueuedOk(calls + [call], e')
  {
    var i: nat :| QueuedFrom(calls, e, i);
    IssuedStays(calls, call, e.id, i);
    assert QueuedFrom(calls + [call], e', i);
  }

  lemma StartStays(calls: seq<Call>, call: Call, id: RequestId, i: nat, j: nat)
    requires StartedAt(calls, id, i, j)
    ensures StartedAt(calls + [call], id, i, j)
  {
  }

  lemma PhaseStays(calls: seq<Call>, call: Call, id: RequestId, j: nat, phase: string)
    requires PhaseIs(calls, id, j, phase) && !IsPhase(call, id) && j < |calls|
    ensures PhaseIs(calls + [call], id, j, phase)
  {
    if p :| j < p < |calls| && IsPhase(calls[p], id) && calls[p].phase == phase && LastPhase(calls, id, p) {
      var calls' := calls + [call];
      assert LastPhase(calls', id, p) && IsPhase(calls'[p], id);
    }
  }

  lemma PhaseChanges(calls: seq<Call>, call: Call, id: RequestId, j: nat)
    requires IsPhase(call, id) && j < |calls|
    ensures PhaseIs(calls + [call], id, j, call.phase)
  {
    var calls' := calls + [call];
    assert IsPhase(calls'[|calls|], id) && LastPhase(calls', id, |calls|);
  }

  /** A call that is no finish of this build leaves an active entry as it is, but for its phase. */
  lemma ActiveStays(calls: seq<Call>, call: Call, e: ActiveBuild, e': ActiveBuild)
    requires ActiveOk(calls, e) && !IsFinish(call, e.id)
    requires e'.id == e.id && e'.client == e.client && e'.installable == e.installable && e'.queuedAt == e.queuedAt
    requires e'.startedAt == e.startedAt && e'.phase == if IsPhase(call, e.id) then call.phase else e.phase
    ensures ActiveOk(calls + [call], e')
  {
    var i: nat, j: nat :| ActiveFrom(calls, e, i, j);
    IssuedStays(calls, call, e.id, i);
    StartStays(calls, call, e.id, i, j);
    if IsPhase(call, e.id) {
      PhaseChanges(calls, call, e.id, j);
    } else {
      PhaseStays(calls, call, e.id, j, e.phase);
    }
    assert ActiveFrom(calls + [call], e', i, j);
  }

  lemma RecentStays(calls: seq<Call>, call: Call, e: RecentBuild)
    requires RecentOk(calls, e)
    ensures RecentOk(calls + [call], e)
  {
    var i: nat, f: nat :| RecentFrom(calls, e, i, f);
    IssuedStays(calls, call, e.id, i);
    if e.startedAt.Some? {
      var j: nat :| StartedAt(calls, e.id, i, j) && j < f && e.startedAt.value == calls[j].io.now;
      StartStays(calls, call, e.id, i, j);
    }
    assert RecentFrom(calls + [call], e, i, f);
  }

  lemma FinishedStays(calls: seq<Call>, call: Call, id: RequestId)
    requires FinishedOk(calls, id)
    ensures FinishedOk(calls + [call], id)
  {
    var i: nat, f: nat :| IssuedAt(calls, id, i) && FinishedAt(calls, id, i, f);
    IssuedStays(calls, call, id, i);
    assert FinishedAt(calls + [call], id, i, f);
  }

  // ---------------------------------------------------------------- the calls one by one

  /** At most one entry of the queue and the active list has this id. */
  ghost predicate Alone(s: Snapshot, id: RequestId) {
    && (forall i, j :: 0 <= i < |s.queued| && 0 <= j < |s.queued| && s.queued[i].id == s.queued[j].id == id ==> i == j)
    && (forall i, j :: 0 <= i < |s.active| && 0 <= j < |s.active| && s.active[i].id == s.active[j].id == id ==> i == j)
    && (forall i, j :: 0 <= i < |s.queued| && 0 <= j < |s.active| ==> !(s.queued[i].id == s.active[j].id == id))
  }

  lemma TwiceCounts(ids: seq<RequestId>, i: nat, j: nat)
    requires i < j < |ids| && ids[i] == ids[j]
    ensures multiset(ids)[ids[i]] >= 2
  {
    assert ids == ids[..j] + ids[j..];
    assert ids[..j][i] == ids[i] && ids[j..][0] == ids[i];
  }

  lemma OnceIsAlone(ids: seq<RequestId>, id: RequestId)
    requires multiset(ids)[id] <= 1
    ensures forall i, j :: 0 <= i < |ids| && 0 <= j < |ids| && ids[i] == ids[j] == id ==> i == j
  {
    if i: nat, j: nat :| i < j < |ids| && ids[i] == ids[j] == id {
      TwiceCounts(ids, i, j);
    }
  }

  lemma ConsistentIsAlone(h: History, id: RequestId)
    requires Consistent(h)
    ensures Alone(h.registry.snapshot, id)
  {
    var s, ids := h.registry.snapshot, IdsOf(h);
    EveryIdIsInOnePlace(h, id);
    OnceIsAlone(ids.queued, id);
    OnceIsAlone(ids.active, id);
    assert forall i :: 0 <= i < |s.queued| ==> ids.queued[i] == s.queued[i].id;
    assert forall j :: 0 <= j < |s.active| ==> ids.active[j] == s.active[j].id;
    assert !(id in ids.queued && id in ids.active);
  }

  /** The entries of a snapshot, whatever its derived fields say. */
  ghost predicate ListsOk(calls: seq<Call>, s: Snapshot) {
    && (forall k :: 0 <= k < |s.queued| ==> QueuedOk(calls, s.queued[k]))
    && (forall k :: 0 <= k < |s.active| ==> ActiveOk(calls, s.active[k]))
    && (forall k :: 0 <= k < |s.recent| ==> RecentOk(calls, s.recent[k]))
  }

  lemma QueueStays(calls: seq<Call>, call: Call, queued: seq<QueuedBuild>)
    requires forall k :: 0 <= k < |queued| ==> QueuedOk(calls, queued[k])
    requires forall k :: 0 <= k < |queued| ==> !IsStart(call, queued[k].id) && !IsFinish(call, queued[k].id)
    ensures forall k :: 0 <= k < |queued| ==> QueuedOk(calls + [call], queued[k])
  {
    forall k | 0 <= k < |queued|
      ensures QueuedOk(calls + [call], queued[k])
    {
      QueuedStays(calls, call, queued[k], queued[k]);
    }
  }

  lemma ActiveListStays(calls: seq<Call>, call: Call, active: seq<ActiveBuild>)
    requires forall k :: 0 <= k < |active| ==> ActiveOk(calls, active[k])
    requires forall k :: 0 <= k < |active| ==> !IsFinish(call, active[k].id) && !IsPhase(call, active[k].id)
    ensures forall k :: 0 <= k < |active| ==> ActiveOk(calls + [call], active[k])
  {
    forall k | 0 <= k < |active|
      ensures ActiveOk(calls + [call], active[k])
    {
      ActiveStays(calls, call, active[k], active[k]);
    }
  }

  lemma RecentListStays(calls: seq<Call>, call: Call, recent: seq<RecentBuild>)
    requires forall k :: 0 <= k < |recent| ==> RecentOk(calls, recent[k])
    ensures forall k :: 0 <= k < |recent| ==> RecentOk(calls + [call], recent[k])
  {
    forall k | 0 <= k < |recent|
      ensures RecentOk(calls + [call], recent[k])
    {
      RecentStays(calls, call, recent[k]);
    }
  }

  lemma EnqueueKeepsLists(calls: seq<Call>, call: Call, r: Registry)
    requires ListsOk(calls, r.snapshot) && r.nextSeq == Enqueues(calls) && IsEnqueue(call)
    ensures ListsOk(calls + [call], Update(r, call).snapshot)
  {
    var s, s', calls' := r.snapshot, Update(r, call).snapshot, calls + [call];
    QueueStays(calls, call, s.queued);
    ActiveListStays(calls, call, s.active);
    RecentListStays(calls, call, s.recent);
    assert calls'[..|calls|] == calls;
    assert QueuedFrom(calls', s'.queued[|s.queued|], |calls|);
  }

  lemma StartedEntry(calls: seq<Call>, call: Call, e: QueuedBuild)
    requires QueuedOk(calls, e) && IsStart(call, e.id)
    ensures ActiveOk(calls + [call],
                     ActiveBuild(e.id, e.client, e.installable, "starting", e.queuedAt, call.io.now, 0))
  {
    var i: nat :| QueuedFrom(calls, e, i);
    IssuedStays(calls, call, e.id, i);
    assert ActiveFrom(calls + [call],
                      ActiveBuild(e.id, e.client, e.installable, "starting", e.queuedAt, call.io.now, 0), i, |calls|);
  }

  lemma StartKeepsLists(calls: seq<Call>, call: Call, r: Registry)
    requires call.Start? && IsStart(call, call.id) && ListsOk(calls, r.snapshot) && Alone(r.snapshot, call.id)
    ensures ListsOk(calls + [call], Update(r, call).snapshot)
  {
    var s, s' := r.snapshot, Update(r, call).snapshot;
    QueueStays(calls, call, s'.queued);
    ActiveListStays(calls, call, s.active);
    RecentListStays(calls, call, s.recent);
    var k := FindQueued(s.queued, call.id);
    if k < |s.queued| {
      StartedEntry(calls, call, s.queued[k]);
    }
  }

  lemma PhaseKeepsLists(calls: seq<Call>, call: Call, r: Registry)
    requires call.Phase? && IsPhase(call, call.id) && ListsOk(calls, r.snapshot) && Alone(r.snapshot, call.id)
    ensures ListsOk(calls + [call], Update(r, call).snapshot)
  {
    var s, s' := r.snapshot, Update(r, call).snapshot;
    QueueStays(calls, call, s.queued);
    RecentListStays(calls, call, s.recent);
    forall k | 0 <= k < |s'.active|
      ensures ActiveOk(calls + [call], s'.active[k])
    {
      ActiveStays(calls, call, s.active[k], s'.active[k]);
    }
  }

  lemma HeartbeatKeepsLists(calls: seq<Call>, call: Call, s: Snapshot)
    requires ListsOk(calls, s) && (call.Heartbeat? || call.io.NoClock?)
    ensures ListsOk(calls + [call], s)
  {
    QueueStays(calls, call, s.queued);
    ActiveListStays(calls, call, s.active);
    RecentListStays(calls, call, s.recent);
  }

  lemma ErrorIsShort(error: Option<string>)
    ensures IsShort(error, TruncateError(error))
  {
  }

  lemma FinishedActiveEntry(calls: seq<Call>, call: Call, e: ActiveBuild)
    requires ActiveOk(calls, e) && IsFinish(call, e.id)
    ensures RecentOk(calls + [call], OfActive(e, call.io.now, call.result, call.error))
    ensures FinishedOk(calls + [call], e.id)
  {
    var i: nat, j: nat :| ActiveFrom(calls, e, i, j);
    var calls', recent := calls + [call], OfActive(e, call.io.now, call.result, call.error);
    IssuedStays(calls, call, e.id, i);
    StartStays(calls, call, e.id, i, j);
    ErrorIsShort(call.error);
    assert FinishedAt(calls', e.id, i, |calls|);
    assert RecentFrom(calls', recent, i, |calls|);
  }

  lemma FinishedQueuedEntry(calls: seq<Call>, call: Call, e: QueuedBuild)
    requires QueuedOk(calls, e) && IsFinish(call, e.id)
    ensures RecentOk(calls + [call], OfQueued(e, call.io.now, call.result, call.error))
    ensures FinishedOk(calls + [call], e.id)
  {
    var i: nat :| QueuedFrom(calls, e, i);
    var calls', recent := calls + [call], OfQueued(e, call.io.now, call.result, call.error);
    IssuedStays(calls, call, e.id, i);
    ErrorIsShort(call.error);
    assert FinishedAt(calls', e.id, i, |calls|);
    assert RecentFrom(calls', recent, i, |calls|);
  }

  lemma AddedRecent(calls: seq<Call>, s: Snapshot, entry: RecentBuild)
    requires ListsOk(calls, s) && RecentOk(calls, entry)
    ensures ListsOk(calls, AddRecent(s, entry))
  {
  }

  /** Without the entry that a finish takes away, the lists are what they were. */
  lemma OthersStay(calls: seq<Call>, call: Call, s: Snapshot)
    requires ListsOk(calls, s) && call.Finish?
    requires forall k :: 0 <= k < |s.queued| ==> s.queued[k].id != call.id
    requires forall k :: 0 <= k < |s.active| ==> s.active[k].id != call.id
    ensures ListsOk(calls + [call], s)
  {
    QueueStays(calls, call, s.queued);
    ActiveListStays(calls, call, s.active);
    RecentListStays(calls, call, s.recent);
  }

  lemma FinishActiveKeepsLists(calls: seq<Call>, call: Call, r: Registry, a: nat)
    requires call.Finish? && IsFinish(call, call.id) && ListsOk(calls, r.snapshot) && Alone(r.snapshot, call.id)
    requires a == FindActive(r.snapshot.active, call.id) < |r.snapshot.active|
    ensures ListsOk(calls + [call], Update(r, call).snapshot) && FinishedOk(calls + [call], call.id)
  {
    var s := r.snapshot;
    OthersStay(calls, call, s.(active := Without(s.active, a)));
    FinishedActiveEntry(calls, call, s.active[a]);
    AddedRecent(calls + [call], s.(active := Without(s.active, a)),
                OfActive(s.active[a], call.io.now, call.result, call.error));
  }

  lemma FinishQueuedKeepsLists(calls: seq<Call>, call: Call, r: Registry, q: nat)
    requires call.Finish? && IsFinish(call, call.id) && ListsOk(calls, r.snapshot) && Alone(r.snapshot, call.id)
    requires FindActive(r.snapshot.active, call.id) == |r.snapshot.active|
    requires q == FindQueued(r.snapshot.queued, call.id) < |r.snapshot.queued|
    ensures ListsOk(calls + [call], Update(r, call).snapshot) && FinishedOk(calls + [call], call.id)
  {
    var s := r.snapshot;
    OthersStay(calls, call, s.(queued := Without(s.queued, q)));
    FinishedQueuedEntry(calls, call, s.queued[q]);
    AddedRecent(calls + [call], s.(queued := Without(s.queued, q)),
                OfQueued(s.queued[q], call.io.now, call.result, call.error));
  }

  lemma FinishKeepsLists(calls: seq<Call>, call: Call, r: Registry)
    requires call.Finish? && IsFinish(call, call.id) && ListsOk(calls, r.snapshot) && Alone(r.snapshot, call.id)
    ensures ListsOk(calls + [call], Update(r, call).snapshot)
    ensures Known(r.snapshot, call.id) ==> FinishedOk(calls + [call], call.id)
  {
    var s := r.snapshot;
    var a, q := FindActive(s.active, call.id), FindQueued(s.queued, call.id);
    if a < |s.active| {
      FinishActiveKeepsLists(calls, call, r, a);
    } else if q < |s.queued| {
      FinishQueuedKeepsLists(calls, call, r, q);
    } else {
      OthersStay(calls, call, s);
    }
  }

  lemma RefreshKeepsLists(calls: seq<Call>, s: Snapshot, now: nat)
    requires ListsOk(calls, s)
    ensures ListsOk(calls, Refresh(s, now))
  {
    var s' := Refresh(s, now);
    forall k | 0 <= k < |s'.queued|
      ensures QueuedOk(calls, s'.queued[k])
    {
      var i: nat :| QueuedFrom(calls, s.queued[k], i);
      assert QueuedFrom(calls, s'.queued[k], i);
    }
    forall k | 0 <= k < |s'.active|
      ensures ActiveOk(calls, s'.active[k])
    {
      var i: nat, j: nat :| ActiveFrom(calls, s.active[k], i, j);
      assert ActiveFrom(calls, s'.active[k], i, j);
    }
  }

  lemma UpdateKeepsLists(calls: seq<Call>, call: Call, h: History)
    requires Consistent(h) && EntriesOk(calls, h) && call.io != NoClock
    ensures ListsOk(calls + [call], Update(h.registry, call).snapshot)
    ensures call.Finish? && Known(h.registry.snapshot, call.id) ==> FinishedOk(calls + [call], call.id)
  {
    match call {
      case Enqueue(_, _, _) => EnqueueKeepsLists(calls, call, h.registry);
      case Start(id, _) =>
        ConsistentIsAlone(h, id);
        StartKeepsLists(calls, call, h.registry);
      case Phase(id, _, _) =>
        ConsistentIsAlone(h, id);
        PhaseKeepsLists(calls, call, h.registry);
      case Finish(id, _, _, _) =>
        ConsistentIsAlone(h, id);
        FinishKeepsLists(calls, call, h.registry);
      case Heartbeat(_) => HeartbeatKeepsLists(calls, call, h.registry.snapshot);
    }
  }

  lemma UpdateNumbers(r: Registry, call: Call)
    requires call.io != NoClock
    ensures Update(r, call).nextSeq == r.nextSeq + if call.Enqueue? then 1 else 0
  {
  }

  lemma EnqueuesOneMore(calls: seq<Call>, call: Call)
    ensures Enqueues(calls + [call]) == Enqueues(calls) + if IsEnqueue(call) then 1 else 0
  {
    var calls' := calls + [call];
    assert calls'[..|calls'| - 1] == calls && calls'[|calls'| - 1] == call;
  }

  lemma CallNumbers(calls: seq<Call>, call: Call, h: History)
    requires h.registry.nextSeq == Enqueues(calls)
    ensures Record(h, call).registry.nextSeq == Enqueues(calls + [call])
  {
    EnqueuesOneMore(calls, call);
    if call.io != NoClock {
      UpdateNumbers(h.registry, call);
    }
  }

  lemma CallKeepsEntries(calls: seq<Call>, call: Call, h: History)
    requires Consistent(h) && EntriesOk(calls, h)
    ensures EntriesOk(calls + [call], Record(h, call))
  {
    CallNumbers(calls, call, h);
    if call.io == NoClock {
      HeartbeatKeepsLists(calls, call, h.registry.snapshot);
    } else {
      UpdateKeepsLists(calls, call, h);
      RefreshKeepsLists(calls + [call], Update(h.registry, call).snapshot, call.io.now);
    }
    forall k | 0 <= k < |Record(h, call).finished|
      ensures FinishedOk(calls + [call], Record(h, call).finished[k])
    {
      if k < |h.finished| {
        FinishedStays(calls, call, h.finished[k]);
      }
    }
  }

  lemma {:induction false} RecordOneMore(h: History, calls: seq<Call>, call: Call)
    ensures RecordAll(h, calls + [call]) == Record(RecordAll(h, calls), call)
    decreases |calls|
  {
    if calls == [] {
      assert RecordAll(h, [call]) == RecordAll(Record(h, call), [call][1..]);
    } else {
      assert (calls + [call])[1..] == calls[1..] + [call];
      RecordOneMore(Record(h, calls[0]), calls[1..], call);
    }
  }

  lemma {:induction false} EntriesAreOk(recentLimit: nat, now: nat, calls: seq<Call>)
    ensures Consistent(After(recentLimit, now, calls)) && EntriesOk(calls, After(recentLimit, now, calls))
    decreases |calls|
  {
    var h0 := History(Initial(recentLimit, now), []);
    if calls == [] {
      assert RecentIds([]) == [] && QueuedIds([]) == [] && ActiveIds([]) == [];
    } else {
      var init, call := calls[..|calls| - 1], calls[|calls| - 1];
      EntriesAreOk(recentLimit, now, init);
      assert calls == init + [call];
      RecordOneMore(h0, init, call);
      CallKeepsEntries(init, call, After(recentLimit, now, init));
      CallKeepsConsistent(After(recentLimit, now, init), call);
    }
  }

  // ---------------------------------------------------------------- main results

  /**
    Every entry tells of its calls.  A queued build carries the client, installable and time of the enqueue that issued
    its id; an active one also the time of its start and the phase of its latest phase call; a finished one the result,
    error and time of its finish, with a start and a duration exactly if it was started.
   */
  lemma EntriesTellTheirCalls(recentLimit: nat, now: nat, calls: seq<Call>)
    ensures var s := After(recentLimit, now, calls).registry.snapshot;
            && (forall k :: 0 <= k < |s.queued| ==> QueuedOk(calls, s.queued[k]))
            && (forall k :: 0 <= k < |s.active| ==> ActiveOk(calls, s.active[k]))
            && (forall k :: 0 <= k < |s.recent| ==> RecentOk(calls, s.recent[k]))
  {
    EntriesAreOk(recentLimit, now, calls);
  }

  /** The build that call i enqueued is listed where the calls after it have put it. */
  lemma CallsTellThePlace(recentLimit: nat, now: nat, calls: seq<Call>, id: RequestId, i: nat)
    requires IssuedAt(calls, id, i)
    ensures var h := After(recentLimit, now, calls);
            var finished := exists f: nat :: FinishedAt(calls, id, i, f);
            var started := exists j: nat :: StartedAt(calls, id, i, j);
            && (id in h.finished <==> finished)
            && (id in IdsOf(h).active <==> started && !finished)
            && (id in IdsOf(h).queued <==> !started && !finished)
  {
    EntriesAreOk(recentLimit, now, calls);
    var h := After(recentLimit, now, calls);
    EveryIdIsInOnePlace(h, id);
    IssuedIsNumbered(calls, id, i);
    if id in h.finished {
      FinishedTells(calls, h, id, i);
    }
    if id in IdsOf(h).active {
      ActiveTells(calls, h, id, i);
    }
    if id in IdsOf(h).queued {
      QueuedTells(calls, h, id, i);
    }
  }

  lemma IssuedIsNumbered(calls: seq<Call>, id: RequestId, i: nat)
    requires IssuedAt(calls, id, i)
    ensures id.Build? && 1 <= id.seqNo <= Enqueues(calls)
  {
    IssuedEarlier(calls, i, |calls|);
    assert calls[..|calls|] == calls;
  }

  lemma FinishedTells(calls: seq<Call>, h: History, id: RequestId, i: nat)
    requires EntriesOk(calls, h) && id in h.finished && IssuedAt(calls, id, i)
    ensures exists f: nat :: FinishedAt(calls, id, i, f)
  {
    assert FinishedOk(calls, id);
    var i': nat, f: nat :| IssuedAt(calls, id, i') && FinishedAt(calls, id, i', f);
    IssuedOnce(calls, id, i, i');
  }

  lemma ActiveTells(calls: seq<Call>, h: History, id: RequestId, i: nat)
    requires EntriesOk(calls, h) && id in IdsOf(h).active && IssuedAt(calls, id, i)
    ensures (exists j: nat :: StartedAt(calls, id, i, j)) && !exists f: nat :: FinishedAt(calls, id, i, f)
  {
    var k :| 0 <= k < |h.registry.snapshot.active| && h.registry.snapshot.active[k].id == id;
    assert ActiveOk(calls, h.registry.snapshot.active[k]);
    var i': nat, j: nat :| ActiveFrom(calls, h.registry.snapshot.active[k], i', j);
    IssuedOnce(calls, id, i, i');
  }

  lemma QueuedTells(calls: seq<Call>, h: History, id: RequestId, i: nat)
    requires EntriesOk(calls, h) && id in IdsOf(h).queued && IssuedAt(calls, id, i)
    ensures !(exists j: nat :: StartedAt(calls, id, i, j)) && !exists f: nat :: FinishedAt(calls, id, i, f)
  {
    var k :| 0 <= k < |h.registry.snapshot.queued| && h.registry.snapshot.queued[k].id == id;
    assert QueuedOk(calls, h.registry.snapshot.queued[k]);
    var i': nat :| QueuedFrom(calls, h.registry.snapshot.queued[k], i');
    IssuedOnce(calls, id, i, i');
  }

  /** When the clock last answered. */
  function LastTime(now: nat, calls: seq<Call>): nat {
    if calls == [] then now
    else if calls[|calls| - 1].io == NoClock then LastTime(now, calls[..|calls| - 1])
    else calls[|calls| - 1].io.now
  }

  /** The times and counts that are shown are those of the last call, never negative. */
  lemma {:induction false} ShownTimesAreCurrent(recentLimit: nat, now: nat, calls: seq<Call>)
    ensures var s := After(recentLimit, now, calls).registry.snapshot;
            && s.updatedAt == LastTime(now, calls) && s.recentLimit == recentLimit
            && s.queuedCount == |s.queued| && s.activeCount == |s.active|
            && (forall k :: 0 <= k < |s.queued| ==>
                  && s.queued[k].position == k + 1
                  && s.queued[k].queuedFor ==
                     (if s.queued[k].queuedAt <= s.updatedAt then s.updatedAt - s.queued[k].queuedAt else 0))
            && (forall k :: 0 <= k < |s.active| ==>
                  s.active[k].elapsed ==
                  (if s.active[k].startedAt <= s.updatedAt then s.updatedAt - s.active[k].startedAt else 0))
    decreases |calls|
  {
    if calls != [] {
      var init, call := calls[..|calls| - 1], calls[|calls| - 1];
      ShownTimesAreCurrent(recentLimit, now, init);
      assert calls == init + [call];
      RecordOneMore(History(Initial(recentLimit, now), []), init, call);
      UpdateKeepsLimit(After(recentLimit, now, init).registry, call);
    }
  }

  lemma UpdateKeepsLimit(r: Registry, call: Call)
    ensures call.io != NoClock ==> Update(r, call).snapshot.recentLimit == r.snapshot.recentLimit
  {
  }

  lemma RecentIdsAre(h: History, k: nat)
    requires Consistent(h) && k < |h.registry.snapshot.recent|
    ensures k < |h.finished| && h.registry.snapshot.recent[k].id == h.finished[|h.finished| - 1 - k]
  {
    var recent := h.registry.snapshot.recent;
    NewestFirstLength(h.finished);
    assert RecentIds(recent)[k] == recent[k].id;
    NewestFirstIsReverse(h.finished, k);
  }

  lemma NewestFirstLength(ids: seq<RequestId>)
    ensures |NewestFirst(ids)| == |ids|
  {
    if ids != [] {
      NewestFirstIsReverse(ids, 0);
    }
  }

  /** `recent` has the builds that finished last, the latest first, as many as the limit allows. */
  lemma RecentIsNewest(recentLimit: nat, now: nat, calls: seq<Call>)
    ensures var h := After(recentLimit, now, calls);
            var recent, n := h.registry.snapshot.recent, |h.finished|;
            && |recent| == (if n <= recentLimit then n else recentLimit)
            && forall k :: 0 <= k < |recent| ==> recent[k].id == h.finished[n - 1 - k]
  {
    EntriesAreOk(recentLimit, now, calls);
    ShownTimesAreCurrent(recentLimit, now, calls);
    var h := After(recentLimit, now, calls);
    NewestFirstLength(h.finished);
    assert |RecentIds(h.registry.snapshot.recent)| == |h.registry.snapshot.recent|;
    forall k | 0 <= k < |h.registry.snapshot.recent|
      ensures h.registry.snapshot.recent[k].id == h.finished[|h.finished| - 1 - k]
    {
      RecentIdsAre(h, k);
    }
  }
}
