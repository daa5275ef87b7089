/**
  The status registry of server/status.rs: the queue, the running builds and the recently finished ones.

  `Registry` and the functions on it say what each call does; the class `StatusRegistry` does it in place, as the
  program does.  A call can fail before it touches anything (no clock) or after it has changed memory (the write
  of status.json failed).
 */
module StatusRegistry {
  import opened Protocol

  datatype BuildResult = Success | Failed | Errored

  datatype QueuedBuild = QueuedBuild(id: RequestId, client: string, installable: string,
                                     queuedAt: nat, queuedFor: nat, position: nat)

  datatype ActiveBuild = ActiveBuild(id: RequestId, client: string, installable: string, phase: string,
                                     queuedAt: nat, startedAt: nat, elapsed: nat)

  datatype RecentBuild = RecentBuild(id: RequestId, client: string, installable: string, result: BuildResult,
                                     queuedAt: nat, startedAt: Option<nat>, finishedAt: nat,
                                     duration: Option<nat>, shortError: Option<string>)

  /** What status.json holds. */
  datatype Snapshot = Snapshot(activeCount: nat, queuedCount: nat, recentLimit: nat, updatedAt: nat,
                               queued: seq<QueuedBuild>, active: seq<ActiveBuild>, recent: seq<RecentBuild>)

  datatype Registry = Registry(nextSeq: nat, snapshot: Snapshot)

  const MAX_SHORT_ERROR_CHARS: nat := 512

  // ---------------------------------------------------------------- request ids

  /** The ids that `enqueue` answers with: numbered ones, and the one for an enqueue that could not be written. */
  datatype RequestId = Build(seqNo: nat) | Unknown

  function Digit(d: nat): char
    requires d < 10
  {
    "0123456789"[d]
  }

  function Decimal(n: nat): (s: string)
    ensures s != [] && (|s| == 1 <==> n < 10)
    ensures forall i :: 0 <= i < |s| ==> '0' <= s[i] <= '9'
  {
    if n < 10 then [Digit(n)] else Decimal(n / 10) + [Digit(n % 10)]
  }

  /** How the program spells an id. */
  function Text(id: RequestId): string {
    match id
    case Build(n) => "build-" + Decimal(n)
    case Unknown => "build-unknown"
  }

  lemma {:induction false} DecimalInjective(m: nat, n: nat)
    requires Decimal(m) == Decimal(n)
    ensures m == n
  {
    var s := Decimal(m);
    assert s[|s| - 1] == Digit(m % 10) == Digit(n % 10);
    assert m % 10 == n % 10;
    if m >= 10 && n >= 10 {
      assert s[..|s| - 1] == Decimal(m / 10) == Decimal(n / 10);
      DecimalInjective(m / 10, n / 10);
    }
  }

  /** The number that some decimal digits spell. */
  function ValueOf(digits: string): int {
    if digits == "" then 0
    else 10 * ValueOf(digits[..|digits| - 1]) + (digits[|digits| - 1] as int - '0' as int)
  }

  lemma {:induction false} DecimalSpells(n: nat)
    ensures ValueOf(Decimal(n)) == n && (n > 0 ==> Decimal(n)[0] != '0')
  {
    var s := Decimal(n);
    assert s[|s| - 1] as int - '0' as int == n % 10;
    if n >= 10 {
      DecimalSpells(n / 10);
      assert s[..|s| - 1] == Decimal(n / 10);
    } else {
      assert s[..|s| - 1] == "";
    }
  }

  /** An id is spelt with its number in decimal, without leading zeros. */
  lemma TextSpells(n: nat)
    ensures var text := Text(Build(n));
            && |text| > 6 && text[..6] == "build-" && ValueOf(text[6..]) == n && (n > 0 ==> text[6] != '0')
    ensures Text(Unknown) == "build-unknown"
  {
    DecimalSpells(n);
    assert Text(Build(n))[6..] == Decimal(n);
  }

  lemma SeventhChar(id: RequestId)
    ensures |Text(id)| > 6 && (id.Build? <==> '0' <= Text(id)[6] <= '9')
  {
    if id.Build? {
      assert Text(id)[6] == Decimal(id.seqNo)[0];
    }
  }

  /** Comparing ids as text, as the program does, is comparing ids. */
  lemma TextInjective(a: RequestId, b: RequestId)
    requires Text(a) == Text(b)
    ensures a == b
  {
    SeventhChar(a);
    SeventhChar(b);
    if a.Build? {
      assert Text(a)[6..] == Decimal(a.seqNo) && Text(b)[6..] == Decimal(b.seqNo);
      DecimalInjective(a.seqNo, b.seqNo);
    }
  }

  // ---------------------------------------------------------------- one call

  function SaturatingSub(a: nat, b: nat): nat {
    if a >= b then a - b else 0
  }

  function RefreshQueued(queued: seq<QueuedBuild>, now: nat): (r: seq<QueuedBuild>)
    ensures |r| == |queued|
    ensures forall i :: 0 <= i < |r| ==>
              r[i] == queued[i].(position := i + 1, queuedFor := SaturatingSub(now, queued[i].queuedAt))
  {
    seq(|queued|, i requires 0 <= i < |queued| =>
          queued[i].(position := i + 1, queuedFor := SaturatingSub(now, queued[i].queuedAt)))
  }

  function RefreshActive(active: seq<ActiveBuild>, now: nat): (r: seq<ActiveBuild>)
    ensures |r| == |active|
    ensures forall i :: 0 <= i < |r| ==> r[i] == active[i].(elapsed := SaturatingSub(now, active[i].startedAt))
  {
    seq(|active|, i requires 0 <= i < |active| => active[i].(elapsed := SaturatingSub(now, active[i].startedAt)))
  }

  function Refresh(s: Snapshot, now: nat): Snapshot {
    s.(activeCount := |s.active|, queuedCount := |s.queued|, updatedAt := now,
       queued := RefreshQueued(s.queued, now), active := RefreshActive(s.active, now))
  }

  /** The place of the first queued build with this id, or the length of the queue. */
  function FindQueued(queued: seq<QueuedBuild>, id: RequestId): (k: nat)
    ensures k <= |queued| && (k < |queued| ==> queued[k].id == id)
    ensures forall j :: 0 <= j < k ==> queued[j].id != id
  {
    if queued == [] || queued[0].id == id then 0 else 1 + FindQueued(queued[1..], id)
  }

  function FindActive(active: seq<ActiveBuild>, id: RequestId): (k: nat)
    ensures k <= |active| && (k < |active| ==> active[k].id == id)
    ensures forall j :: 0 <= j < k ==> active[j].id != id
  {
    if active == [] || active[0].id == id then 0 else 1 + FindActive(active[1..], id)
  }

  function Without<T>(s: seq<T>, k: nat): seq<T>
    requires k < |s|
  {
    s[..k] + s[k + 1..]
  }

  function Truncate<T>(s: seq<T>, limit: nat): seq<T> {
    if |s| <= limit then s else s[..limit]
  }

  function TruncateError(error: Option<string>): Option<string> {
    match error
    case None => None
    case Some(text) =>
      if |text| > MAX_SHORT_ERROR_CHARS then Some(text[..MAX_SHORT_ERROR_CHARS] + "\n[truncated]") else Some(text)
  }

  function AddQueued(r: Registry, now: nat, client: string, installable: string): Registry {
    var entry := QueuedBuild(Build(r.nextSeq + 1), client, installable, now, 0, 0);
    Registry(r.nextSeq + 1, r.snapshot.(queued := r.snapshot.queued + [entry]))
  }

  function MoveToActive(r: Registry, now: nat, id: RequestId): Registry {
    var k := FindQueued(r.snapshot.queued, id);
    if k == |r.snapshot.queued| then r
    else
      var build := r.snapshot.queued[k];
      var entry := ActiveBuild(build.id, build.client, build.installable, "starting", build.queuedAt, now, 0);
      r.(snapshot := r.snapshot.(queued := Without(r.snapshot.queued, k), active := r.snapshot.active + [entry]))
  }

  function SetPhase(r: Registry, id: RequestId, phase: string): Registry {
    var k := FindActive(r.snapshot.active, id);
    if k == |r.snapshot.active| then r
    else r.(snapshot := r.snapshot.(active := r.snapshot.active[k := r.snapshot.active[k].(phase := phase)]))
  }

  function AddRecent(s: Snapshot, entry: RecentBuild): Snapshot {
    s.(recent := Truncate([entry] + s.recent, s.recentLimit))
  }

  function OfActive(build: ActiveBuild, now: nat, result: BuildResult, error: Option<string>): RecentBuild {
    RecentBuild(build.id, build.client, build.installable, result, build.queuedAt,
                Some(build.startedAt), now, Some(SaturatingSub(now, build.startedAt)), TruncateError(error))
  }

  function OfQueued(build: QueuedBuild, now: nat, result: BuildResult, error: Option<string>): RecentBuild {
    RecentBuild(build.id, build.client, build.installable, result, build.queuedAt,
                None, now, None, TruncateError(error))
  }

  function MoveToRecent(r: Registry, now: nat, id: RequestId, result: BuildResult, error: Option<string>): Registry {
    var s := r.snapshot;
    var a := FindActive(s.active, id);
    var q := FindQueued(s.queued, id);
    if a < |s.active| then
      r.(snapshot := AddRecent(s.(active := Without(s.active, a)), OfActive(s.active[a], now, result, error)))
    else if q < |s.queued| then
      r.(snapshot := AddRecent(s.(queued := Without(s.queued, q)), OfQueued(s.queued[q], now, result, error)))
    else r
  }

  /** How the surroundings treat one update: no clock, a failed write, or a written file. */
  datatype Io = NoClock | NotWritten(now: nat) | Written(now: nat)

  datatype Call =
    | Enqueue(client: string, installable: string, io: Io)
    | Start(id: RequestId, io: Io)
    | Phase(id: RequestId, phase: string, io: Io)
    | Finish(id: RequestId, result: BuildResult, error: Option<string>, io: Io)
    | Heartbeat(io: Io)

  function Update(r: Registry, call: Call): Registry
    requires !call.io.NoClock?
  {
    match call
    case Enqueue(client, installable, io) => AddQueued(r, io.now, client, installable)
    case Start(id, io) => MoveToActive(r, io.now, id)
    case Phase(id, phase, _) => SetPhase(r, id, phase)
    case Finish(id, result, error, io) => MoveToRecent(r, io.now, id, result, error)
    case Heartbeat(_) => r
  }

  /** The registry after a call: without a clock nothing happens, and a failed write does not undo the change. */
  function Apply(r: Registry, call: Call): Registry {
    if call.io.NoClock? then r
    else
      var updated := Update(r, call);
      updated.(snapshot := Refresh(updated.snapshot, call.io.now))
  }

  function EnqueueAnswer(r: Registry, io: Io): RequestId {
    if io.Written? then Build(r.nextSeq + 1) else Unknown
  }

  // ---------------------------------------------------------------- the registry in place

  class StatusRegistry {
    const recentLimit: nat
    var nextRequestSeq: nat
    var activeCount: nat
    var queuedCount: nat
    var updatedAt: nat
    var queued: seq<QueuedBuild>
    var active: seq<ActiveBuild>
    var recent: seq<RecentBuild>
    var file: Snapshot

    ghost function Contents(): Registry
      reads this
    {
      Registry(nextRequestSeq, Snapshot(activeCount, queuedCount, recentLimit, updatedAt, queued, active, recent))
    }

    constructor (recentLimit: nat, now: nat)
      ensures Contents() == Initial(recentLimit, now) && file == Contents().snapshot
    {
      this.recentLimit := recentLimit;
      nextRequestSeq, activeCount, queuedCount, updatedAt := 0, 0, 0, now;
      queued, active, recent := [], [], [];
      file := Snapshot(0, 0, recentLimit, now, [], [], []);
    }

    method RefreshSnapshot(now: nat)
      modifies this
      ensures Contents() == old(Contents()).(snapshot := Refresh(old(Contents()).snapshot, now))
      ensures file == old(file)
    {
      activeCount := |active|;
      queuedCount := |queued|;
      updatedAt := now;
      var index := 0;
      while index < |queued|
        invariant 0 <= index <= |queued| == |old(queued)|
        invariant queued[..index] == RefreshQueued(old(queued), now)[..index]
        invariant queued[index..] == old(queued)[index..]
        invariant nextRequestSeq == old(nextRequestSeq) && active == old(active) && recent == old(recent)
        invariant activeCount == |active| && queuedCount == |queued| && updatedAt == now && file == old(file)
      {
        var build := queued[index];
        assert build == old(queued)[index..][0];
        queued := queued[index := build.(position := index + 1, queuedFor := SaturatingSub(now, build.queuedAt))];
        index := index + 1;
      }
      assert queued == RefreshQueued(old(queued), now);
      index := 0;
      while index < |active|
        invariant 0 <= index <= |active| == |old(active)|
        invariant active[..index] == RefreshActive(old(active), now)[..index]
        invariant active[index..] == old(active)[index..]
        invariant nextRequestSeq == old(nextRequestSeq) && recent == old(recent)
        invariant queued == RefreshQueued(old(queued), now)
        invariant activeCount == |active| && queuedCount == |queued| && updatedAt == now && file == old(file)
      {
        var build := active[index];
        assert build == old(active)[index..][0];
        active := active[index := build.(elapsed := SaturatingSub(now, build.startedAt))];
        index := index + 1;
      }
      assert active == RefreshActive(old(active), now);
    }

    /** Refresh, then write status.json unless the surroundings make that fail. */
    method Persist(io: Io)
      requires !io.NoClock?
      modifies this
      ensures Contents() == old(Contents()).(snapshot := Refresh(old(Contents()).snapshot, io.now))
      ensures file == if io.Written? then Contents().snapshot else old(file)
    {
      RefreshSnapshot(io.now);
      if io.Written? {
        file := Snapshot(activeCount, queuedCount, recentLimit, updatedAt, queued, active, recent);
      }
    }

    method EnqueueBuild(client: string, installable: string, io: Io) returns (requestId: RequestId)
      modifies this
      ensures Contents() == Apply(old(Contents()), Enqueue(client, installable, io))
      ensures requestId == EnqueueAnswer(old(Contents()), io)
      ensures file == if io.Written? then Contents().snapshot else old(file)
    {
      if io.NoClock? {
        return Unknown;
      }
      nextRequestSeq := nextRequestSeq + 1;
      requestId := Build(nextRequestSeq);
      queued := queued + [QueuedBuild(requestId, client, installable, io.now, 0, 0)];
      Persist(io);
      if !io.Written? {
        requestId := Unknown;
      }
    }

    method StartBuild(id: RequestId, io: Io)
      modifies this
      ensures Contents() == Apply(old(Contents()), Start(id, io))
      ensures file == if io.Written? then Contents().snapshot else old(file)
    {
      if io.NoClock? {
        return;
      }
      var k := FindQueued(queued, id);
      if k < |queued| {
        var build := queued[k];
        queued := queued[..k] + queued[k + 1..];
        active := active +
        [ActiveBuild(build.id, build.client, build.installable, "starting", build.queuedAt, io.now, 0)];
      }
      Persist(io);
    }

    method PhaseOf(id: RequestId, phase: string, io: Io)
      modifies this
      ensures Contents() == Apply(old(Contents()), Phase(id, phase, io))
      ensures file == if io.Written? then Contents().snapshot else old(file)
    {
      if io.NoClock? {
        return;
      }
      var k := FindActive(active, id);
      if k < |active| {
        active := active[k := active[k].(phase := phase)];
      }
      Persist(io);
    }

    method FinishBuild(id: RequestId, result: BuildResult, error: Option<string>, io: Io)
      modifies this
      ensures Contents() == Apply(old(Contents()), Finish(id, result, error, io))
      ensures file == if io.Written? then Contents().snapshot else old(file)
    {
      if io.NoClock? {
        return;
      }
      RecordResult(id, result, error, io.now);
      Persist(io);
    }

    method RecordResult(id: RequestId, result: BuildResult, error: Option<string>, now: nat)
      modifies this
      ensures Contents() == MoveToRecent(old(Contents()), now, id, result, error)
      ensures file == old(file)
    {
      var a := FindActive(active, id);
      if a < |active| {
        RecordActive(a, result, error, now);
      } else {
        var q := FindQueued(queued, id);
        if q < |queued| {
          RecordQueued(q, result, error, now);
        }
      }
    }

    method RecordActive(a: nat, result: BuildResult, error: Option<string>, now: nat)
      requires a < |active| && a == FindActive(active, active[a].id)
      modifies this
      ensures Contents() == MoveToRecent(old(Contents()), now, old(active[a].id), result, error)
      ensures file == old(file)
    {
      var build := active[a];
      active := active[..a] + active[a + 1..];
      InsertRecent(RecentBuild(build.id, build.client, build.installable, result, build.queuedAt,
                               Some(build.startedAt), now, Some(SaturatingSub(now, build.startedAt)),
                               TruncateError(error)));
    }

    method RecordQueued(q: nat, result: BuildResult, error: Option<string>, now: nat)
      requires q < |queued| && q == FindQueued(queued, queued[q].id)
      requires FindActive(active, queued[q].id) == |active|
      modifies this
      ensures Contents() == MoveToRecent(old(Contents()), now, old(queued[q].id), result, error)
      ensures file == old(file)
    {
      var build := queued[q];
      queued := queued[..q] + queued[q + 1..];
      InsertRecent(RecentBuild(build.id, build.client, build.installable, result, build.queuedAt,
                               None, now, None, TruncateError(error)));
    }

    method InsertRecent(entry: RecentBuild)
      modifies this`recent
      ensures recent == Truncate([entry] + old(recent), recentLimit)
    {
      recent := [entry] + recent;
      if |recent| > recentLimit {
        recent := recent[..recentLimit];
      }
    }
  }

  function Initial(recentLimit: nat, now: nat): Registry {
    Registry(0, Snapshot(0, 0, recentLimit, now, [], [], []))
  }

  // ---------------------------------------------------------------- every sequence of calls

  /** A registry together with the ids of all builds that ever finished, oldest first. */
  datatype History = History(registry: Registry, finished: seq<RequestId>)

  predicate Known(s: Snapshot, id: RequestId) {
    FindActive(s.active, id) < |s.active| || FindQueued(s.queued, id) < |s.queued|
  }

  function Record(h: History, call: Call): History {
    History(Apply(h.registry, call),
            if call.Finish? && !call.io.NoClock? && Known(h.registry.snapshot, call.id) then h.finished + [call.id]
            else h.finished)
  }

  function RecordAll(h: History, calls: seq<Call>): History
    decreases |calls|
  {
    if calls == [] then h else RecordAll(Record(h, calls[0]), calls[1..])
  }

  function QueuedIds(queued: seq<QueuedBuild>): (ids: seq<RequestId>)
    ensures |ids| == |queued| && forall i :: 0 <= i < |ids| ==> ids[i] == queued[i].id
  {
    seq(|queued|, i requires 0 <= i < |queued| => queued[i].id)
  }

  function ActiveIds(active: seq<ActiveBuild>): (ids: seq<RequestId>)
    ensures |ids| == |active| && forall i :: 0 <= i < |ids| ==> ids[i] == active[i].id
  {
    seq(|active|, i requires 0 <= i < |active| => active[i].id)
  }

  function RecentIds(recent: seq<RecentBuild>): (ids: seq<RequestId>)
    ensures |ids| == |recent| && forall i :: 0 <= i < |ids| ==> ids[i] == recent[i].id
  {
    seq(|recent|, i requires 0 <= i < |recent| => recent[i].id)
  }

  /** Every id issued so far, once each. */
  function Issued(n: nat): multiset<RequestId> {
    if n == 0 then multiset{} else Issued(n - 1) + multiset{Build(n)}
  }

  lemma {:induction false} IssuedCounts(n: nat, id: RequestId)
    ensures |Issued(n)| == n
    ensures Issued(n)[id] == if id.Build? && 1 <= id.seqNo <= n then 1 else 0
  {
    if n > 0 {
      IssuedCounts(n - 1, id);
    }
  }

  function NewestFirst(ids: seq<RequestId>): seq<RequestId> {
    if ids == [] then [] else [ids[|ids| - 1]] + NewestFirst(ids[..|ids| - 1])
  }

  ghost predicate InIssueOrder(ids: seq<RequestId>) {
    && (forall i :: 0 <= i < |ids| ==> ids[i].Build?)
    && (forall i, j :: 0 <= i < j < |ids| ==> ids[i].seqNo < ids[j].seqNo)
  }

  /** The derived fields agree with the lists. */
  predicate Fresh(s: Snapshot) {
    && s.activeCount == |s.active| && s.queuedCount == |s.queued|
    && forall i :: 0 <= i < |s.queued| ==> s.queued[i].position == i + 1
  }

  /** The ids of a history with multiplicity: queued, active and finished. */
  function Everywhere(s: Snapshot, finished: seq<RequestId>): multiset<RequestId> {
    multiset(QueuedIds(s.queued)) + multiset(ActiveIds(s.active)) + multiset(finished)
  }

  /** Where the ids are, given the ids of all finished builds. */
  ghost predicate IdsOk(r: Registry, finished: seq<RequestId>) {
    && Everywhere(r.snapshot, finished) == Issued(r.nextSeq)
    && InIssueOrder(QueuedIds(r.snapshot.queued))
    && RecentIds(r.snapshot.recent) == Truncate(NewestFirst(finished), r.snapshot.recentLimit)
  }

  ghost predicate Consistent(h: History) {
    IdsOk(h.registry, h.finished) && Fresh(h.registry.snapshot)
  }

  lemma MovedBag(from: multiset<RequestId>, from': multiset<RequestId>, to: multiset<RequestId>, id: RequestId)
    requires from == from' + multiset{id}
    ensures from + to == from' + (to + multiset{id})
  {
  }

  lemma GrownBag(q: multiset<RequestId>, a: multiset<RequestId>, f: multiset<RequestId>, id: RequestId)
    ensures q + multiset{id} + a + f == q + a + f + multiset{id}
  {
  }

  lemma AppendedQueuedIds(queued: seq<QueuedBuild>, entry: QueuedBuild)
    ensures QueuedIds(queued + [entry]) == QueuedIds(queued) + [entry.id]
    ensures multiset(QueuedIds(queued + [entry])) == multiset(QueuedIds(queued)) + multiset{entry.id}
  {
    assert QueuedIds(queued + [entry]) == QueuedIds(queued) + [entry.id];
  }

  lemma AppendedActiveIds(active: seq<ActiveBuild>, entry: ActiveBuild)
    ensures multiset(ActiveIds(active + [entry])) == multiset(ActiveIds(active)) + multiset{entry.id}
  {
    assert ActiveIds(active + [entry]) == ActiveIds(active) + [entry.id];
  }

  lemma {:induction false} WithoutBag(ids: seq<RequestId>, k: nat)
    requires k < |ids|
    ensures multiset(ids) == multiset(Without(ids, k)) + multiset{ids[k]}
  {
    assert ids == ids[..k] + [ids[k]] + ids[k + 1..];
  }

  lemma WithoutKeepsOrder(ids: seq<RequestId>, k: nat)
    requires k < |ids| && InIssueOrder(ids)
    ensures InIssueOrder(Without(ids, k))
  {
    forall i | 0 <= i < |ids| - 1
      ensures Without(ids, k)[i] == ids[if i < k then i else i + 1]
    {
    }
  }

  lemma WithoutIds(queued: seq<QueuedBuild>, k: nat)
    requires k < |queued|
    ensures QueuedIds(Without(queued, k)) == Without(QueuedIds(queued), k)
    ensures multiset(QueuedIds(queued)) == multiset(QueuedIds(Without(queued, k))) + multiset{queued[k].id}
  {
    assert QueuedIds(Without(queued, k)) == Without(QueuedIds(queued), k);
    WithoutBag(QueuedIds(queued), k);
  }

  lemma WithoutActiveIds(active: seq<ActiveBuild>, k: nat)
    requires k < |active|
    ensures multiset(ActiveIds(active)) == multiset(ActiveIds(Without(active, k))) + multiset{active[k].id}
  {
    assert ActiveIds(Without(active, k)) == Without(ActiveIds(active), k);
    WithoutBag(ActiveIds(active), k);
  }

  lemma RefreshKeepsConsistent(r: Registry, finished: seq<RequestId>, now: nat)
    requires IdsOk(r, finished)
    ensures Consistent(History(r.(snapshot := Refresh(r.snapshot, now)), finished))
  {
    var s := Refresh(r.snapshot, now);
    assert QueuedIds(s.queued) == QueuedIds(r.snapshot.queued);
    assert ActiveIds(s.active) == ActiveIds(r.snapshot.active);
  }

  lemma AppendKeepsOrder(ids: seq<RequestId>, n: nat)
    requires InIssueOrder(ids) && forall i :: 0 <= i < |ids| ==> ids[i].seqNo < n
    ensures InIssueOrder(ids + [Build(n)])
  {
  }

  lemma QueuedBelow(r: Registry, finished: seq<RequestId>, i: nat)
    requires IdsOk(r, finished) && i < |r.snapshot.queued|
    ensures r.snapshot.queued[i].id.Build? && r.snapshot.queued[i].id.seqNo <= r.nextSeq
  {
    var ids := QueuedIds(r.snapshot.queued);
    assert ids[i] in multiset(ids);
    assert ids[i] in Everywhere(r.snapshot, finished);
    IssuedCounts(r.nextSeq, ids[i]);
  }

  lemma EnqueueKeepsOrder(r: Registry, finished: seq<RequestId>, entry: QueuedBuild)
    requires IdsOk(r, finished) && entry.id == Build(r.nextSeq + 1)
    ensures InIssueOrder(QueuedIds(r.snapshot.queued + [entry]))
  {
    var queued := r.snapshot.queued;
    forall i | 0 <= i < |queued|
      ensures QueuedIds(queued)[i].seqNo < r.nextSeq + 1
    {
      QueuedBelow(r, finished, i);
    }
    AppendKeepsOrder(QueuedIds(queued), r.nextSeq + 1);
    AppendedQueuedIds(queued, entry);
  }

  lemma EnqueueKeepsBag(s: Snapshot, finished: seq<RequestId>, entry: QueuedBuild)
    ensures Everywhere(s.(queued := s.queued + [entry]), finished) == Everywhere(s, finished) + multiset{entry.id}
  {
    AppendedQueuedIds(s.queued, entry);
    GrownBag(multiset(QueuedIds(s.queued)), multiset(ActiveIds(s.active)), multiset(finished), entry.id);
  }

  lemma EnqueueIssues(r: Registry, finished: seq<RequestId>, entry: QueuedBuild)
    requires Everywhere(r.snapshot, finished) == Issued(r.nextSeq) && entry.id == Build(r.nextSeq + 1)
    ensures Everywhere(r.snapshot.(queued := r.snapshot.queued + [entry]), finished) == Issued(r.nextSeq + 1)
  {
    EnqueueKeepsBag(r.snapshot, finished, entry);
  }

  lemma EnqueueKeepsIds(r: Registry, finished: seq<RequestId>, now: nat, client: string, installable: string)
    requires IdsOk(r, finished)
    ensures IdsOk(AddQueued(r, now, client, installable), finished)
  {
    var r' := AddQueued(r, now, client, installable);
    var entry := QueuedBuild(Build(r.nextSeq + 1), client, installable, now, 0, 0);
    assert r'.snapshot == r.snapshot.(queued := r.snapshot.queued + [entry]);
    assert Everywhere(r'.snapshot, finished) == Issued(r'.nextSeq) by {
      EnqueueIssues(r, finished, entry);
    }
    assert InIssueOrder(QueuedIds(r'.snapshot.queued)) by {
      EnqueueKeepsOrder(r, finished, entry);
    }
    assert RecentIds(r'.snapshot.recent) == RecentIds(r.snapshot.recent);
  }

  lemma StartKeepsIds(r: Registry, finished: seq<RequestId>, now: nat, id: RequestId)
    requires IdsOk(r, finished)
    ensures IdsOk(MoveToActive(r, now, id), finished)
  {
    var s := r.snapshot;
    var k := FindQueued(s.queued, id);
    if k < |s.queued| {
      var s' := MoveToActive(r, now, id).snapshot;
      WithoutIds(s.queued, k);
      WithoutKeepsOrder(QueuedIds(s.queued), k);
      AppendedActiveIds(s.active, s'.active[|s.active|]);
      MovedBag(multiset(QueuedIds(s.queued)), multiset(QueuedIds(s'.queued)), multiset(ActiveIds(s.active)), id);
    }
  }

  lemma PhaseKeepsIds(r: Registry, finished: seq<RequestId>, id: RequestId, phase: string)
    requires IdsOk(r, finished)
    ensures IdsOk(SetPhase(r, id, phase), finished)
  {
    assert ActiveIds(SetPhase(r, id, phase).snapshot.active) == ActiveIds(r.snapshot.active);
  }

  lemma RecentStaysNewestFirst(s: Snapshot, finished: seq<RequestId>, entry: RecentBuild)
    requires RecentIds(s.recent) == Truncate(NewestFirst(finished), s.recentLimit)
    ensures RecentIds(AddRecent(s, entry).recent) == Truncate(NewestFirst(finished + [entry.id]), s.recentLimit)
  {
    assert (finished + [entry.id])[..|finished|] == finished;
    assert NewestFirst(finished + [entry.id]) == [entry.id] + NewestFirst(finished);
    assert RecentIds([entry] + s.recent) == [entry.id] + RecentIds(s.recent);
  }

  lemma FinishActiveKeepsIds(r: Registry, finished: seq<RequestId>, k: nat, entry: RecentBuild)
    requires IdsOk(r, finished) && k < |r.snapshot.active| && entry.id == r.snapshot.active[k].id
    ensures IdsOk(r.(snapshot := AddRecent(r.snapshot.(active := Without(r.snapshot.active, k)), entry)),
                  finished + [entry.id])
  {
    var s := r.snapshot;
    WithoutActiveIds(s.active, k);
    RecentStaysNewestFirst(s, finished, entry);
    assert multiset(finished + [entry.id]) == multiset(finished) + multiset{entry.id};
    MovedBag(multiset(ActiveIds(s.active)), multiset(ActiveIds(Without(s.active, k))), multiset(finished), entry.id);
  }

  lemma FinishQueuedKeepsIds(r: Registry, finished: seq<RequestId>, k: nat, entry: RecentBuild)
    requires IdsOk(r, finished) && k < |r.snapshot.queued| && entry.id == r.snapshot.queued[k].id
    ensures IdsOk(r.(snapshot := AddRecent(r.snapshot.(queued := Without(r.snapshot.queued, k)), entry)),
                  finished + [entry.id])
  {
    var s := r.snapshot;
    WithoutIds(s.queued, k);
    WithoutKeepsOrder(QueuedIds(s.queued), k);
    RecentStaysNewestFirst(s, finished, entry);
    assert multiset(finished + [entry.id]) == multiset(finished) + multiset{entry.id};
    MovedBag(multiset(QueuedIds(s.queued)), multiset(QueuedIds(Without(s.queued, k))), multiset(finished), entry.id);
  }

  lemma FinishKeepsIds(r: Registry, finished: seq<RequestId>, now: nat, id: RequestId, result: BuildResult,
                       error: Option<string>)
    requires IdsOk(r, finished)
    ensures IdsOk(MoveToRecent(r, now, id, result, error), if Known(r.snapshot, id) then finished + [id] else finished)
  {
    var s := r.snapshot;
    var a, q := FindActive(s.active, id), FindQueued(s.queued, id);
    if a < |s.active| {
      FinishActiveKeepsIds(r, finished, a, OfActive(s.active[a], now, result, error));
    } else if q < |s.queued| {
      FinishQueuedKeepsIds(r, finished, q, OfQueued(s.queued[q], now, result, error));
    }
  }

  /** Before the refresh, an update has already put every id where it belongs. */
  lemma UpdateKeepsIds(h: History, call: Call)
    requires IdsOk(h.registry, h.finished) && !call.io.NoClock?
    ensures IdsOk(Update(h.registry, call), Record(h, call).finished)
  {
    match call {
      case Enqueue(client, installable, io) => EnqueueKeepsIds(h.registry, h.finished, io.now, client, installable);
      case Start(id, io) => StartKeepsIds(h.registry, h.finished, io.now, id);
      case Phase(id, phase, _) => PhaseKeepsIds(h.registry, h.finished, id, phase);
      case Finish(id, result, error, io) => FinishKeepsIds(h.registry, h.finished, io.now, id, result, error);
      case Heartbeat(_) =>
    }
  }

  lemma CallKeepsConsistent(h: History, call: Call)
    requires Consistent(h)
    ensures Consistent(Record(h, call))
  {
    if !call.io.NoClock? {
      UpdateKeepsIds(h, call);
      RefreshKeepsConsistent(Update(h.registry, call), Record(h, call).finished, call.io.now);
    }
  }

  lemma {:induction false} CallsKeepConsistent(h: History, calls: seq<Call>)
    requires Consistent(h)
    ensures Consistent(RecordAll(h, calls))
    decreases |calls|
  {
    if calls != [] {
      CallKeepsConsistent(h, calls[0]);
      CallsKeepConsistent(Record(h, calls[0]), calls[1..]);
    }
  }

  /**
    After any sequence of calls, with failed writes, missing clocks, unknown ids and repeated finishes among them:
    each issued id is in exactly one of the queue, the active list and the finish history, no other id is anywhere,
    the queue is in issue order with positions from 1, and `recent` is the newest part of the finish history.
   */
  lemma RegistryIsConsistent(recentLimit: nat, now: nat, calls: seq<Call>)
    ensures var h := RecordAll(History(Initial(recentLimit, now), []), calls);
            var s := h.registry.snapshot;
            && h.registry.nextSeq == |s.queued| + |s.active| + |h.finished|
            && (forall id ::
                  multiset(QueuedIds(s.queued))[id] + multiset(ActiveIds(s.active))[id] + multiset(h.finished)[id]
                             == if id.Build? && 1 <= id.seqNo <= h.registry.nextSeq then 1 else 0)
            && InIssueOrder(QueuedIds(s.queued))
            && Fresh(s)
            && RecentIds(s.recent) == Truncate(NewestFirst(h.finished), s.recentLimit)
  {
    var h0 := History(Initial(recentLimit, now), []);
    assert RecentIds([]) == [] && QueuedIds([]) == [] && ActiveIds([]) == [];
    assert Consistent(h0);
    CallsKeepConsistent(h0, calls);
    var h := RecordAll(h0, calls);
    var s := h.registry.snapshot;
    IssuedCounts(h.registry.nextSeq, Unknown);
    assert |Everywhere(s, h.finished)| == |s.queued| + |s.active| + |h.finished|;
    forall id
      ensures Everywhere(s, h.finished)[id] == if id.Build? && 1 <= id.seqNo <= h.registry.nextSeq then 1 else 0
    {
      IssuedCounts(h.registry.nextSeq, id);
    }
  }

  lemma {:induction false} NewestFirstIsReverse(ids: seq<RequestId>, k: nat)
    requires k < |ids|
    ensures |NewestFirst(ids)| == |ids| && NewestFirst(ids)[k] == ids[|ids| - 1 - k]
    decreases |ids|
  {
    var init := ids[..|ids| - 1];
    if init != [] {
      NewestFirstIsReverse(init, if k > 0 then k - 1 else 0);
    }
  }

  // ---------------------------------------------------------------- where one call moves an id

  datatype Place = InQueue | InActive | InFinished

  /** The ids of a history by place. */
  datatype Ids = Ids(queued: seq<RequestId>, active: seq<RequestId>, finished: seq<RequestId>)

  function IdsOf(h: History): Ids {
    Ids(QueuedIds(h.registry.snapshot.queued), ActiveIds(h.registry.snapshot.active), h.finished)
  }

  function At(ids: Ids, place: Place): seq<RequestId> {
    match place
    case InQueue => ids.queued
    case InActive => ids.active
    case InFinished => ids.finished
  }

  /** How often an id is at a place. */
  function Tally(ids: Ids, place: Place, id: RequestId): nat {
    multiset(At(ids, place))[id]
  }

  function One(b: bool): nat {
    if b then 1 else 0
  }

  /** The one difference between two states: an id has left a place, or entered one, or both. */
  ghost predicate Moves(before: Ids, after: Ids, id: RequestId, from: Option<Place>, to: Option<Place>) {
    && MovesAt(before.queued, after.queued, id, from == Some(InQueue), to == Some(InQueue))
    && MovesAt(before.active, after.active, id, from == Some(InActive), to == Some(InActive))
    && MovesAt(before.finished, after.finished, id, from == Some(InFinished), to == Some(InFinished))
  }

  ghost predicate MovesAt(before: seq<RequestId>, after: seq<RequestId>, id: RequestId, leaves: bool, enters: bool) {
    && (forall x :: multiset(after)[x] + One(leaves && x == id) == multiset(before)[x] + One(enters && x == id))
    && |after| + One(leaves) == |before| + One(enters)
  }

  function Moved(h: History, call: Call): RequestId {
    match call
    case Enqueue(_, _, _) => Build(h.registry.nextSeq + 1)
    case Heartbeat(_) => Unknown
    case _ => call.id
  }

  function Source(ids: Ids, call: Call): Option<Place> {
    if call.Start? && call.id in ids.queued then Some(InQueue)
    else if call.Finish? && call.id in ids.active then Some(InActive)
    else if call.Finish? && call.id in ids.queued then Some(InQueue)
    else None
  }

  function Target(ids: Ids, call: Call): Option<Place> {
    if call.Enqueue? then Some(InQueue)
    else if Source(ids, call).None? then None
    else Some(if call.Start? then InActive else InFinished)
  }

  lemma FoundQueued(queued: seq<QueuedBuild>, id: RequestId)
    ensures FindQueued(queued, id) < |queued| <==> id in QueuedIds(queued)
  {
    var k := FindQueued(queued, id);
    if k < |queued| { assert QueuedIds(queued)[k] == id; }
  }

  lemma FoundActive(active: seq<ActiveBuild>, id: RequestId)
    ensures FindActive(active, id) < |active| <==> id in ActiveIds(active)
  {
    var k := FindActive(active, id);
    if k < |active| { assert ActiveIds(active)[k] == id; }
  }

  lemma Appended(ids: seq<RequestId>, id: RequestId)
    ensures MovesAt(ids, ids + [id], id, false, true)
  {
  }

  lemma Removed(ids: seq<RequestId>, k: nat)
    requires k < |ids|
    ensures MovesAt(ids, Without(ids, k), ids[k], true, false)
  {
    WithoutBag(ids, k);
  }

  lemma IdsAfterEnqueue(h: History, call: Call)
    requires call.Enqueue? && !call.io.NoClock?
    ensures IdsOf(Record(h, call)) == IdsOf(h).(queued := IdsOf(h).queued + [Build(h.registry.nextSeq + 1)])
  {
  }

  lemma IdsAfterStart(h: History, call: Call)
    requires call.Start? && !call.io.NoClock?
    ensures var ids := IdsOf(h);
            var k := FindQueued(h.registry.snapshot.queued, call.id);
            IdsOf(Record(h, call)) ==
            if k < |ids.queued| then ids.(queued := Without(ids.queued, k), active := ids.active + [call.id]) else ids
  {
  }

  lemma IdsAfterFinish(h: History, call: Call)
    requires call.Finish? && !call.io.NoClock?
    ensures var ids := IdsOf(h);
            var a := FindActive(h.registry.snapshot.active, call.id);
            var q := FindQueued(h.registry.snapshot.queued, call.id);
            IdsOf(Record(h, call)) ==
            if a < |ids.active| then ids.(active := Without(ids.active, a), finished := ids.finished + [call.id])
            else if q < |ids.queued| then ids.(queued := Without(ids.queued, q), finished := ids.finished + [call.id])
            else ids
  {
  }

  lemma IdsAfterPhase(h: History, call: Call)
    requires (call.Phase? || call.Heartbeat?) && !call.io.NoClock?
    ensures IdsOf(Record(h, call)) == IdsOf(h)
  {
    assert ActiveIds(Record(h, call).registry.snapshot.active) == ActiveIds(h.registry.snapshot.active);
  }

  lemma StartedMoves(ids: Ids, k: nat)
    requires k < |ids.queued|
    ensures Moves(ids, ids.(queued := Without(ids.queued, k), active := ids.active + [ids.queued[k]]),
                  ids.queued[k], Some(InQueue), Some(InActive))
  {
    Removed(ids.queued, k);
    Appended(ids.active, ids.queued[k]);
  }

  lemma ActiveFinishedMoves(ids: Ids, k: nat)
    requires k < |ids.active|
    ensures Moves(ids, ids.(active := Without(ids.active, k), finished := ids.finished + [ids.active[k]]),
                  ids.active[k], Some(InActive), Some(InFinished))
  {
    Removed(ids.active, k);
    Appended(ids.finished, ids.active[k]);
  }

  lemma QueuedFinishedMoves(ids: Ids, k: nat)
    requires k < |ids.queued|
    ensures Moves(ids, ids.(queued := Without(ids.queued, k), finished := ids.finished + [ids.queued[k]]),
                  ids.queued[k], Some(InQueue), Some(InFinished))
  {
    Removed(ids.queued, k);
    Appended(ids.finished, ids.queued[k]);
  }

  lemma NothingMoves(ids: Ids, id: RequestId)
    ensures Moves(ids, ids, id, None, None)
  {
  }

  lemma MovesTally(before: Ids, after: Ids, id: RequestId, from: Option<Place>, to: Option<Place>, place: Place,
                   x: RequestId)
    requires Moves(before, after, id, from, to)
    ensures Tally(after, place, x) + One(from == Some(place) && x == id) ==
            Tally(before, place, x) + One(to == Some(place) && x == id)
    ensures |At(after, place)| + One(from == Some(place)) == |At(before, place)| + One(to == Some(place))
  {
  }

  lemma StartMoves(h: History, call: Call)
    requires call.Start? && !call.io.NoClock?
    ensures Moves(IdsOf(h), IdsOf(Record(h, call)), call.id, Source(IdsOf(h), call), Target(IdsOf(h), call))
  {
    IdsAfterStart(h, call);
    FoundQueued(h.registry.snapshot.queued, call.id);
    var k := FindQueued(h.registry.snapshot.queued, call.id);
    if k < |h.registry.snapshot.queued| { StartedMoves(IdsOf(h), k); } else { NothingMoves(IdsOf(h), call.id); }
  }

  lemma FinishMoves(h: History, call: Call)
    requires call.Finish? && !call.io.NoClock?
    ensures Moves(IdsOf(h), IdsOf(Record(h, call)), call.id, Source(IdsOf(h), call), Target(IdsOf(h), call))
  {
    var s := h.registry.snapshot;
    IdsAfterFinish(h, call);
    FoundActive(s.active, call.id);
    FoundQueued(s.queued, call.id);
    var a, q := FindActive(s.active, call.id), FindQueued(s.queued, call.id);
    if a < |s.active| {
      ActiveFinishedMoves(IdsOf(h), a);
    } else if q < |s.queued| {
      QueuedFinishedMoves(IdsOf(h), q);
    } else {
      NothingMoves(IdsOf(h), call.id);
    }
  }

  lemma EnqueueMoves(h: History, call: Call)
    requires call.Enqueue? && !call.io.NoClock?
    ensures Moves(IdsOf(h), IdsOf(Record(h, call)), Build(h.registry.nextSeq + 1), None, Some(InQueue))
  {
    IdsAfterEnqueue(h, call);
    Appended(IdsOf(h).queued, Build(h.registry.nextSeq + 1));
  }

  /** Every call moves at most one id, from where it was found to where the call sends it, and nothing else. */
  lemma EveryCallMovesOneId(h: History, call: Call)
    requires !call.io.NoClock?
    ensures Moves(IdsOf(h), IdsOf(Record(h, call)), Moved(h, call), Source(IdsOf(h), call), Target(IdsOf(h), call))
  {
    if call.Enqueue? {
      EnqueueMoves(h, call);
    } else if call.Start? {
      StartMoves(h, call);
    } else if call.Finish? {
      FinishMoves(h, call);
    } else {
      IdsAfterPhase(h, call);
      NothingMoves(IdsOf(h), Moved(h, call));
    }
  }

  /** In a consistent history an id that was issued is in exactly one place, and any other id is nowhere. */
  lemma EveryIdIsInOnePlace(h: History, id: RequestId)
    requires Consistent(h)
    ensures Tally(IdsOf(h), InQueue, id) + Tally(IdsOf(h), InActive, id) + Tally(IdsOf(h), InFinished, id)
            == One(id.Build? && 1 <= id.seqNo <= h.registry.nextSeq)
  {
    IssuedCounts(h.registry.nextSeq, id);
    var ids := IdsOf(h);
    assert Everywhere(h.registry.snapshot, h.finished) ==
           multiset(ids.queued) + multiset(ids.active) + multiset(ids.finished);
  }
}
