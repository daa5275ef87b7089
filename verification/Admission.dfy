/**
  Admission of builds: any number of connections (server/connection.rs, server/auth.rs) interleave with the ticket
  commands over one ticket store, one semaphore of build permits and one status registry.

  A ticket is checked when the connection authenticates and redeemed only after the build request has been read,
  so many connections may pass the check on one remaining use.  The permit of a build is dropped when
  run_when_permitted returns, before the result is recorded.
 */
module Admission {
  import opened Protocol
  import Tickets
  import Status = StatusRegistry

  datatype Phase =
    | Connected   // hello read
    | Authorized  // trusted, or a ticket that passed the check
    | Redeemed    // may enqueue: trusted, or the ticket was redeemed
    | Waiting     // enqueued, no permit yet
    | Permitted   // has a permit, not yet started
    | Running     // inside run_queued_build
    | Released    // permit dropped, result not yet recorded
    | Ended

  /**
    `charged`: a use of the ticket was redeemed.  `enqueued`: the registry was asked to queue the build.  `started`
    and `outcome`: the registry was told of the build's start, of its result, while the clock answered.  `client` and
    `installable` are what the registry is told of the client and its build.
   */
  datatype Conn = Conn(peer: string, client: string, installable: string, phase: Phase, ticket: Option<string>,
                       charged: bool, enqueued: bool, id: Status.RequestId, started: bool, outcome: Option<Outcome>)

  datatype Outcome = Outcome(result: Status.BuildResult, error: Option<string>)

  /**
    `ticking` says that the clock has answered every registry update so far; `leaked` are the ids of builds whose
    enqueue changed memory but could not be written.
   */
  datatype System = System(ledger: Tickets.Ledger, history: Status.History, permits: nat, conns: seq<Conn>,
                           ticking: bool, leaked: multiset<Status.RequestId>)

  function Init(max: nat, tickets: Tickets.Tickets, recentLimit: nat, now: nat): System {
    System(Tickets.Open(tickets), Status.History(Status.Initial(recentLimit, now), []), max, [], true, multiset{})
  }

  datatype Step =
    | Arrive(peer: string, client: string, installable: string)
    | Trust(c: nat)
    | CheckTicket(c: nat, ticket: string, ticketIo: Tickets.Io)
    | Redeem(c: nat, ticketIo: Tickets.Io)
    | Drop(c: nat)
    | Enqueue(c: nat, io: Status.Io)
    | QueueFails(c: nat, error: Option<string>, io: Status.Io)
    | Acquire(c: nat)
    | Start(c: nat, io: Status.Io)
    | SetPhase(c: nat, phase: string, io: Status.Io)
    | Release(c: nat)
    | Record(c: nat, result: Status.BuildResult, error: Option<string>, io: Status.Io)
    | Command(op: Tickets.Op)
    | Heartbeat(io: Status.Io)

  function Put(s: System, c: nat, conn: Conn): System
    requires c < |s.conns|
  {
    s.(conns := s.conns[c := conn])
  }

  function Arrived(peer: string, client: string, installable: string): Conn {
    Conn(peer, client, installable, Connected, None, false, false, Status.Unknown, false, None)
  }

  /** The connection after its result was reported; an update for which the clock gives no answer is skipped. */
  function Reported(conn: Conn, result: Status.BuildResult, error: Option<string>, io: Status.Io): Conn {
    conn.(phase := Ended, outcome := if io.NoClock? then conn.outcome else Some(Outcome(result, error)))
  }

  function Begun(conn: Conn, io: Status.Io): Conn {
    conn.(phase := Running, started := conn.started || !io.NoClock?)
  }

  function CallRegistry(s: System, call: Status.Call): System {
    s.(history := Status.Record(s.history, call), ticking := s.ticking && !call.io.NoClock?)
  }

  predicate Subject(s: System, step: Step) {
    step.Arrive? || step.Command? || step.Heartbeat? || step.c < |s.conns|
  }

  function Next(s: System, step: Step): Option<System> {
    if !Subject(s, step) then None
    else match step
      case Arrive(peer, client, installable) =>
        Some(s.(conns := s.conns + [Arrived(peer, client, installable)]))
      case Trust(c) =>
        if s.conns[c].phase.Connected? then Some(Put(s, c, s.conns[c].(phase := Authorized))) else None
      case CheckTicket(c, ticket, io) =>
        if !s.conns[c].phase.Connected? then None
        else if Tickets.CheckIn(s.ledger.tickets, ticket, s.conns[c].peer, io).Ok? then
          Some(Put(s, c, s.conns[c].(phase := Authorized, ticket := Some(ticket))))
        else Some(Put(s, c, s.conns[c].(phase := Ended)))
      case Redeem(c, io) =>
        var conn := s.conns[c];
        if !conn.phase.Authorized? then None
        else (match conn.ticket
          case None => Some(Put(s, c, conn.(phase := Redeemed)))
          case Some(ticket) =>
            var op := Tickets.Redeem(ticket, conn.peer, io);
            var ok := Tickets.RedeemIn(s.ledger.tickets, ticket, conn.peer, io).answer.Ok?;
            Some(Put(s, c, conn.(phase := if ok then Redeemed else Ended, charged := ok)).(
                   ledger := Tickets.Post(s.ledger, op))))
      case Drop(c) =>
        // Refused, a bad request, or limits that do not parse: the connection ends before it is enqueued.
        if s.conns[c].phase in {Connected, Authorized, Redeemed} then Some(Put(s, c, s.conns[c].(phase := Ended)))
        else None
      case Enqueue(c, io) =>
        if !s.conns[c].phase.Redeemed? then None
        else
          var id := Status.EnqueueAnswer(s.history.registry, io);
          var leak := if io.NotWritten? then multiset{Status.Build(s.history.registry.nextSeq + 1)} else multiset{};
          Some(CallRegistry(Put(s, c, s.conns[c].(phase := Waiting, enqueued := true, id := id)),
                            Status.Enqueue(s.conns[c].client, s.conns[c].installable, io)).(leaked := s.leaked + leak))
      case QueueFails(c, error, io) =>
        // BuildQueued could not be sent, or the queue is closed.
        if !s.conns[c].phase.Waiting? then None
        else Some(CallRegistry(Put(s, c, Reported(s.conns[c], Status.Errored, error, io)),
                               Status.Finish(s.conns[c].id, Status.Errored, error, io)))
      case Acquire(c) =>
        if s.conns[c].phase.Waiting? && s.permits > 0 then
          Some(Put(s, c, s.conns[c].(phase := Permitted)).(permits := s.permits - 1))
        else None
      case Start(c, io) =>
        if !s.conns[c].phase.Permitted? then None
        else Some(CallRegistry(Put(s, c, Begun(s.conns[c], io)), Status.Start(s.conns[c].id, io)))
      case SetPhase(c, phase, io) =>
        if !s.conns[c].phase.Running? then None
        else Some(CallRegistry(s, Status.Phase(s.conns[c].id, phase, io)))
      case Release(c) =>
        if !s.conns[c].phase.Running? then None
        else Some(Put(s, c, s.conns[c].(phase := Released)).(permits := s.permits + 1))
      case Record(c, result, error, io) =>
        if !s.conns[c].phase.Released? then None
        else Some(CallRegistry(Put(s, c, Reported(s.conns[c], result, error, io)),
                               Status.Finish(s.conns[c].id, result, error, io)))
      case Command(op) =>
        if op.Create? || op.Revoke? then Some(s.(ledger := Tickets.Post(s.ledger, op))) else None
      case Heartbeat(io) => Some(CallRegistry(s, Status.Heartbeat(io)))
  }

  function Exec(s: System, run: seq<Step>): Option<System>
    decreases |run|
  {
    if run == [] then Some(s)
    else match Next(s, run[0])
      case None => None
      case Some(s') => Exec(s', run[1..])
  }

  // ---------------------------------------------------------------- counting connections

  /**
    Where the registry has a connection's build, if the connection was told its id: where the last update that was
    not skipped has put it.
   */
  function PlaceOf(conn: Conn): Option<Status.Place> {
    if !conn.id.Build? then None
    else if conn.outcome.Some? then Some(Status.InFinished)
    else if conn.started then Some(Status.InActive)
    else Some(Status.InQueue)
  }

  /** Where a build belongs while its connection is at a phase. */
  function PhasePlace(phase: Phase): Option<Status.Place> {
    match phase
    case Waiting => Some(Status.InQueue)
    case Permitted => Some(Status.InQueue)
    case Running => Some(Status.InActive)
    case Released => Some(Status.InActive)
    case Ended => Some(Status.InFinished)
    case _ => None
  }

  /**
    `Lingers`: the connection has ended and its build is still listed as active.  `Owns`: the build with this id is at
    the place.  `Tracks`: the connection's build, whatever its id, is.
   */
  datatype Kind =
    | HoldsPermit | InRun | AwaitsRecord | Lingers | ChargedTo(ticket: string) | BuildsOn(ticket: string)
    | Owns(place: Status.Place, id: Status.RequestId) | Tracks(place: Status.Place)

  predicate Is(conn: Conn, kind: Kind) {
    match kind
    case HoldsPermit => conn.phase in {Permitted, Running}
    case InRun => conn.phase == Running
    case AwaitsRecord => conn.phase == Released
    case ChargedTo(ticket) => conn.charged && conn.ticket == Some(ticket)
    case BuildsOn(ticket) => conn.enqueued && conn.ticket == Some(ticket)
    case Lingers => conn.phase == Ended && PlaceOf(conn) == Some(Status.InActive)
    case Owns(place, id) => conn.id == id && PlaceOf(conn) == Some(place)
    case Tracks(place) => PlaceOf(conn) == Some(place)
  }

  function Count(conns: seq<Conn>, kind: Kind): nat {
    if conns == [] then 0 else (if Is(conns[0], kind) then 1 else 0) + Count(conns[1..], kind)
  }

  lemma {:induction false} CountUpdate(conns: seq<Conn>, c: nat, conn: Conn, kind: Kind)
    requires c < |conns|
    ensures Count(conns[c := conn], kind) + (if Is(conns[c], kind) then 1 else 0) ==
            Count(conns, kind) + (if Is(conn, kind) then 1 else 0)
  {
    if c > 0 {
      assert conns[c := conn][1..] == conns[1..][c - 1 := conn];
      CountUpdate(conns[1..], c - 1, conn, kind);
    } else {
      assert conns[c := conn][1..] == conns[1..];
    }
  }

  lemma {:induction false} CountAppend(conns: seq<Conn>, conn: Conn, kind: Kind)
    ensures Count(conns + [conn], kind) == Count(conns, kind) + (if Is(conn, kind) then 1 else 0)
  {
    if conns == [] {
      assert conns + [conn] == [conn];
    } else {
      assert (conns + [conn])[1..] == conns[1..] + [conn];
      CountAppend(conns[1..], conn, kind);
    }
  }

  lemma {:induction false} CountImplied(conns: seq<Conn>, kind: Kind, wider: Kind)
    requires forall c :: 0 <= c < |conns| && Is(conns[c], kind) ==> Is(conns[c], wider)
    ensures Count(conns, kind) <= Count(conns, wider)
  {
    if conns != [] {
      CountImplied(conns[1..], kind, wider);
    }
  }

  // ---------------------------------------------------------------- what a valid ticket gets

  lemma CheckedWithTicket(s: System, c: nat, ticket: string, now: nat) returns (s': System)
    requires c < |s.conns| && s.conns[c].phase.Connected? && ticket in s.ledger.tickets
    requires Tickets.LetsIn(s.ledger.tickets[ticket], s.conns[c].peer, now)
    ensures Next(s, CheckTicket(c, ticket, Tickets.Io(true, Some(now), true))) == Some(s')
    ensures s' == Put(s, c, s.conns[c].(phase := Authorized, ticket := Some(ticket)))
  {
    var io := Tickets.Io(true, Some(now), true);
    Tickets.CheckAcceptsIff(s.ledger.tickets, ticket, s.conns[c].peer, io);
    s' := Put(s, c, s.conns[c].(phase := Authorized, ticket := Some(ticket)));
  }

  lemma RedeemedTicket(s: System, c: nat, ticket: string, now: nat) returns (s': System)
    requires c < |s.conns| && s.conns[c].phase.Authorized? && s.conns[c].ticket == Some(ticket)
    requires ticket in s.ledger.tickets && Tickets.LetsIn(s.ledger.tickets[ticket], s.conns[c].peer, now)
    ensures Next(s, Redeem(c, Tickets.Io(true, Some(now), true))) == Some(s')
    ensures s'.conns == s.conns[c := s.conns[c].(phase := Redeemed, charged := true)] && s'.history == s.history
    ensures Tickets.Redemptions(s'.ledger, ticket) == Tickets.Redemptions(s.ledger, ticket) + 1
  {
    var io := Tickets.Io(true, Some(now), true);
    Tickets.RedeemIff(s.ledger.tickets, ticket, s.conns[c].peer, io);
    s' := Next(s, Redeem(c, io)).value;
  }

  /** Whoever holds a ticket that lets him in gets his build into the queue, and is charged one use for it. */
  lemma ValidTicketAdmits(s: System, c: nat, ticket: string, now: nat) returns (s': System)
    requires c < |s.conns| && s.conns[c].phase.Connected? && ticket in s.ledger.tickets
    requires Tickets.LetsIn(s.ledger.tickets[ticket], s.conns[c].peer, now)
    ensures var io := Tickets.Io(true, Some(now), true);
            Exec(s, [CheckTicket(c, ticket, io), Redeem(c, io), Enqueue(c, Status.Written(now))]) == Some(s')
    ensures |s'.conns| == |s.conns| && s'.conns[c].phase == Waiting && s'.conns[c].id.Build? && s'.conns[c].enqueued
    ensures Is(s'.conns[c], ChargedTo(ticket))
    ensures Tickets.Redemptions(s'.ledger, ticket) == Tickets.Redemptions(s.ledger, ticket) + 1
  {
    var io := Tickets.Io(true, Some(now), true);
    var run := [CheckTicket(c, ticket, io), Redeem(c, io), Enqueue(c, Status.Written(now))];
    var s1 := CheckedWithTicket(s, c, ticket, now);
    var s2 := RedeemedTicket(s1, c, ticket, now);
    s' := Next(s2, Enqueue(c, Status.Written(now))).value;
    assert run[1..] == [run[1], run[2]] && run[1..][1..] == [run[2]] && run[1..][1..][1..] == [];
    assert Exec(s', []) == Some(s') && Exec(s2, [run[2]]) == Some(s') && Exec(s1, [run[1], run[2]]) == Some(s');
  }

  lemma BuildStarts(s: System, c: nat, now: nat) returns (s1: System, s2: System)
    requires c < |s.conns| && s.conns[c].phase == Waiting && s.permits > 0
    ensures Next(s, Acquire(c)) == Some(s1) && Next(s1, Start(c, Status.Written(now))) == Some(s2)
    ensures |s2.conns| == |s.conns| && s2.conns[c] == s.conns[c].(phase := Running, started := true)
    ensures s2.permits == s.permits - 1
  {
    s1 := Next(s, Acquire(c)).value;
    s2 := Next(s1, Start(c, Status.Written(now))).value;
  }

  lemma BuildReports(s: System, c: nat, now: nat, result: Status.BuildResult, error: Option<string>)
    returns (s1: System, s2: System)
    requires c < |s.conns| && s.conns[c].phase == Running
    ensures Next(s, Release(c)) == Some(s1) && Next(s1, Record(c, result, error, Status.Written(now))) == Some(s2)
    ensures |s2.conns| == |s.conns| && s2.permits == s.permits + 1
    ensures s2.conns[c] == s.conns[c].(phase := Ended, outcome := Some(Outcome(result, error)))
  {
    s1 := Next(s, Release(c)).value;
    s2 := Next(s1, Record(c, result, error, Status.Written(now))).value;
  }

  lemma FourSteps(s: System, s1: System, s2: System, s3: System, s4: System, a: Step, b: Step, c: Step, d: Step)
    requires Next(s, a) == Some(s1) && Next(s1, b) == Some(s2) && Next(s2, c) == Some(s3) && Next(s3, d) == Some(s4)
    ensures Exec(s, [a, b, c, d]) == Some(s4)
  {
    assert [a, b, c, d][1..] == [b, c, d] && [b, c, d][1..] == [c, d] && [c, d][1..] == [d] && [d][1..] == [];
    assert Exec(s4, []) == Some(s4);
    assert Exec(s3, [d]) == Some(s4);
    assert Exec(s2, [c, d]) == Some(s4);
    assert Exec(s1, [b, c, d]) == Some(s4);
  }

  /** A waiting build that gets a permit runs through, reports what it came to, and gives the permit back. */
  lemma WaitingBuildRunsThrough(s: System, c: nat, now: nat, result: Status.BuildResult, error: Option<string>)
    returns (s': System)
    requires c < |s.conns| && s.conns[c].phase == Waiting && s.permits > 0
    ensures var io := Status.Written(now);
            Exec(s, [Acquire(c), Start(c, io), Release(c), Record(c, result, error, io)]) == Some(s')
    ensures |s'.conns| == |s.conns| && s'.conns[c].phase == Ended && s'.permits == s.permits
    ensures s'.conns[c].outcome == Some(Outcome(result, error)) && s'.conns[c].id == s.conns[c].id
  {
    var s1, s2 := BuildStarts(s, c, now);
    var s3, s4 := BuildReports(s2, c, now, result, error);
    s' := s4;
    FourSteps(s, s1, s2, s3, s4, Acquire(c), Start(c, Status.Written(now)), Release(c),
              Record(c, result, error, Status.Written(now)));
  }

  // ---------------------------------------------------------------- tickets and permits

  ghost predicate Accounted(max: nat, s: System) {
    && Tickets.Balanced(s.ledger)
    && (forall ticket :: Count(s.conns, ChargedTo(ticket)) == Tickets.Redemptions(s.ledger, ticket))
    && (forall c :: 0 <= c < |s.conns| ==> PhaseAccounted(s.conns[c]))
    && s.permits + Count(s.conns, HoldsPermit) == max
  }

  predicate PhaseAccounted(conn: Conn) {
    && (conn.charged ==> conn.ticket.Some?)
    && (conn.enqueued && conn.ticket.Some? ==> conn.charged)
    && (conn.phase == Redeemed && conn.ticket.Some? ==> conn.charged)
    && (conn.phase in {Waiting, Permitted, Running, Released} ==> conn.enqueued)
    && (conn.phase in {Connected, Authorized} ==> !conn.charged && !conn.enqueued)
    && (conn.phase == Connected ==> conn.ticket.None?)
    && (conn.phase == Redeemed ==> !conn.enqueued)
    && (!conn.enqueued ==> conn.id == Status.Unknown)
    && (conn.started ==> conn.phase in {Running, Released, Ended})
    && (conn.outcome.Some? ==> conn.phase == Ended)
  }

  lemma PutCounts(s: System, c: nat, conn: Conn)
    requires c < |s.conns|
    ensures forall kind :: Count(s.conns[c := conn], kind) + (if Is(s.conns[c], kind) then 1 else 0) ==
                           Count(s.conns, kind) + (if Is(conn, kind) then 1 else 0)
  {
    forall kind {
      CountUpdate(s.conns, c, conn, kind);
    }
  }

  /** One connection moves on without touching the tickets. */
  ghost predicate IsMove(s: System, c: nat, s': System) {
    && c < |s.conns| && |s'.conns| == |s.conns| && s'.conns == s.conns[c := s'.conns[c]] && s'.ledger == s.ledger
    && s'.conns[c].charged == s.conns[c].charged
    && (s'.conns[c].charged ==> s'.conns[c].ticket == s.conns[c].ticket)
    && s'.permits + Status.One(Is(s'.conns[c], HoldsPermit)) == s.permits + Status.One(Is(s.conns[c], HoldsPermit))
    && PhaseAccounted(s'.conns[c])
  }

  lemma EarlyStepIsMove(max: nat, s: System, step: Step, s': System)
    requires Accounted(max, s) && Next(s, step) == Some(s')
    requires step.Trust? || step.CheckTicket? || step.Drop? || step.Enqueue?
    ensures IsMove(s, step.c, s')
  {
    assert PhaseAccounted(s.conns[step.c]);
  }

  lemma LateStepIsMove(max: nat, s: System, step: Step, s': System)
    requires Accounted(max, s) && Next(s, step) == Some(s')
    requires step.QueueFails? || step.Acquire? || step.Start? || step.Release? || step.Record?
    ensures IsMove(s, step.c, s')
  {
    assert PhaseAccounted(s.conns[step.c]);
    if step.QueueFails? || step.Start? || step.Record? {
      OwnCallIsMove(s, step, s');
    }
  }

  lemma OwnCallIsMove(s: System, step: Step, s': System)
    requires Next(s, step) == Some(s') && (step.QueueFails? || step.Start? || step.Record?)
    requires PhaseAccounted(s.conns[step.c])
    ensures IsMove(s, step.c, s')
  {
  }

  lemma StepIsMove(max: nat, s: System, step: Step, s': System)
    requires Accounted(max, s) && Next(s, step) == Some(s') && IsMoving(step)
    ensures IsMove(s, step.c, s')
  {
    if step.Trust? || step.CheckTicket? || step.Drop? || step.Enqueue? {
      EarlyStepIsMove(max, s, step, s');
    } else {
      LateStepIsMove(max, s, step, s');
    }
  }

  predicate IsMoving(step: Step) {
    || step.Trust? || step.CheckTicket? || step.Drop? || step.Enqueue?
    || step.QueueFails? || step.Acquire? || step.Start? || step.Release? || step.Record?
  }

  lemma MoveKeepsAccounted(max: nat, s: System, c: nat, s': System)
    requires Accounted(max, s) && IsMove(s, c, s')
    ensures Accounted(max, s')
  {
    PutCounts(s, c, s'.conns[c]);
  }

  lemma ChargeCounts(conns: seq<Conn>, c: nat, conn: Conn, other: string)
    requires c < |conns| && conns[c].ticket.Some? && conn.ticket == conns[c].ticket && !conns[c].charged
    ensures Count(conns[c := conn], ChargedTo(other)) ==
            Count(conns, ChargedTo(other)) + Status.One(conn.charged && conn.ticket == Some(other))
  {
    CountUpdate(conns, c, conn, ChargedTo(other));
  }

  lemma RedeemCounts(l: Tickets.Ledger, op: Tickets.Op, other: string)
    requires op.Redeem?
    ensures Tickets.Redemptions(Tickets.Post(l, op), other) ==
            Tickets.Redemptions(l, other)
            + Status.One(Tickets.RedeemIn(l.tickets, op.id, op.remote, op.io).answer.Ok? && op.id == other)
  {
  }

  lemma RedeemKeepsAccounted(max: nat, s: System, c: nat, io: Tickets.Io, s': System)
    requires Accounted(max, s) && Next(s, Redeem(c, io)) == Some(s') && s.conns[c].ticket.Some?
    ensures Accounted(max, s')
  {
    assert PhaseAccounted(s.conns[c]);
    var op := Tickets.Redeem(s.conns[c].ticket.value, s.conns[c].peer, io);
    Tickets.OpKeepsBalance(s.ledger, op);
    forall other
      ensures Count(s'.conns, ChargedTo(other)) == Tickets.Redemptions(s'.ledger, other)
    {
      assert Count(s.conns, ChargedTo(other)) == Tickets.Redemptions(s.ledger, other);
      RedeemCharges(s, c, io, s', other);
    }
    CountUpdate(s.conns, c, s'.conns[c], HoldsPermit);
  }

  lemma RedeemCharges(s: System, c: nat, io: Tickets.Io, s': System, other: string)
    requires Next(s, Redeem(c, io)) == Some(s') && s.conns[c].ticket.Some? && !s.conns[c].charged
    ensures Count(s'.conns, ChargedTo(other)) + Tickets.Redemptions(s.ledger, other) ==
            Count(s.conns, ChargedTo(other)) + Tickets.Redemptions(s'.ledger, other)
  {
    ChargeCounts(s.conns, c, s'.conns[c], other);
    RedeemCounts(s.ledger, Tickets.Redeem(s.conns[c].ticket.value, s.conns[c].peer, io), other);
  }

  lemma CommandKeepsAccounted(max: nat, s: System, op: Tickets.Op, s': System)
    requires Accounted(max, s) && Next(s, Command(op)) == Some(s')
    ensures Accounted(max, s')
  {
    Tickets.OpKeepsBalance(s.ledger, op);
    forall ticket
      ensures Count(s'.conns, ChargedTo(ticket)) == Tickets.Redemptions(s'.ledger, ticket)
    {
      assert Count(s.conns, ChargedTo(ticket)) == Tickets.Redemptions(s.ledger, ticket);
    }
  }

  lemma ArriveKeepsAccounted(max: nat, s: System, conn: Conn)
    requires Accounted(max, s) && conn.phase == Connected && PhaseAccounted(conn)
    ensures Accounted(max, s.(conns := s.conns + [conn]))
  {
    forall kind {
      CountAppend(s.conns, conn, kind);
    }
  }

  lemma StepKeepsAccounted(max: nat, s: System, step: Step, s': System)
    requires Accounted(max, s) && Next(s, step) == Some(s')
    ensures Accounted(max, s')
  {
    match step {
      case Arrive(_, _, _) => ArriveKeepsAccounted(max, s, s'.conns[|s.conns|]);
      case Command(op) => CommandKeepsAccounted(max, s, op, s');
      case Heartbeat(_) =>
      case SetPhase(_, _, _) =>
      case Redeem(c, io) =>
        if s.conns[c].ticket.Some? {
          RedeemKeepsAccounted(max, s, c, io, s');
        } else {
          assert IsMove(s, c, s');
          MoveKeepsAccounted(max, s, c, s');
        }
      case _ =>
        StepIsMove(max, s, step, s');
        MoveKeepsAccounted(max, s, step.c, s');
    }
  }

  lemma InitAccounted(max: nat, tickets: Tickets.Tickets, recentLimit: nat, now: nat)
    ensures Accounted(max, Init(max, tickets, recentLimit, now))
  {
    Tickets.OpenIsBalanced(tickets);
  }

  lemma {:induction false} RunKeepsAccounted(max: nat, s: System, run: seq<Step>)
    requires Accounted(max, s) && Exec(s, run).Some?
    ensures Accounted(max, Exec(s, run).value)
    ensures forall id :: id in s.ledger.granted ==>
              id in Exec(s, run).value.ledger.granted && Exec(s, run).value.ledger.granted[id] == s.ledger.granted[id]
    decreases |run|
  {
    if run != [] {
      var s' := Next(s, run[0]).value;
      StepKeepsAccounted(max, s, run[0], s');
      StepKeepsGrants(s, run[0], s');
      RunKeepsAccounted(max, s', run[1..]);
    }
  }

  lemma StepKeepsGrants(s: System, step: Step, s': System)
    requires Tickets.Balanced(s.ledger) && Next(s, step) == Some(s')
    ensures forall id :: id in s.ledger.granted ==>
              id in s'.ledger.granted && s'.ledger.granted[id] == s.ledger.granted[id]
  {
    match step {
      case Command(op) => Tickets.OpKeepsBalance(s.ledger, op);
      case _ =>
    }
  }

  /** Only a connection that redeemed the ticket has a build on it. */
  lemma BuildsAreCharged(max: nat, s: System, ticket: string)
    requires Accounted(max, s)
    ensures forall c :: 0 <= c < |s.conns| && Is(s.conns[c], BuildsOn(ticket)) ==> Is(s.conns[c], ChargedTo(ticket))
    ensures Count(s.conns, BuildsOn(ticket)) <= Count(s.conns, ChargedTo(ticket))
  {
    forall c | 0 <= c < |s.conns| && Is(s.conns[c], BuildsOn(ticket))
      ensures Is(s.conns[c], ChargedTo(ticket))
    {
      assert PhaseAccounted(s.conns[c]);
    }
    CountImplied(s.conns, BuildsOn(ticket), ChargedTo(ticket));
  }

  /** A ticket created with u uses lets at most u builds into the queue, however its holders interleave. */
  lemma TicketBuildsAreBounded(max: nat, tickets: Tickets.Tickets, recentLimit: nat, now: nat, run: seq<Step>,
                               ticket: string)
    requires Exec(Init(max, tickets, recentLimit, now), run).Some?
    ensures var s := Exec(Init(max, tickets, recentLimit, now), run).value;
            && Count(s.conns, BuildsOn(ticket)) <= Tickets.Redemptions(s.ledger, ticket)
            && (ticket in s.ledger.tickets && ticket in s.ledger.granted && s.ledger.granted[ticket].Some? ==>
                  && s.ledger.tickets[ticket].uses.Some?
                  && Tickets.Redemptions(s.ledger, ticket) + s.ledger.tickets[ticket].uses.value
                     == s.ledger.granted[ticket].value)
            && (ticket !in s.ledger.tickets ==> Count(s.conns, BuildsOn(ticket)) == 0)
            && (ticket in tickets ==>
                  ticket in s.ledger.tickets && ticket in s.ledger.granted
                  && s.ledger.granted[ticket] == tickets[ticket].uses)
  {
    var s0 := Init(max, tickets, recentLimit, now);
    InitAccounted(max, tickets, recentLimit, now);
    RunKeepsAccounted(max, s0, run);
    var s := Exec(s0, run).value;
    BuildsAreCharged(max, s, ticket);
    if ticket in s.ledger.tickets {
      assert Tickets.EntryBalanced(s.ledger, ticket);
    }
    assert ticket in tickets ==> ticket in s0.ledger.granted;
  }

  // ---------------------------------------------------------------- revoked tickets

  predicate Revoked(s: System, ticket: string) {
    ticket in s.ledger.tickets && s.ledger.tickets[ticket].revoked
  }

  /** The connection c is charged to the ticket after the step exactly if it was before. */
  predicate KeepsCharge(s: System, s': System, ticket: string, c: nat) {
    c < |s'.conns| ==> (Is(s'.conns[c], ChargedTo(ticket)) <==> c < |s.conns| && Is(s.conns[c], ChargedTo(ticket)))
  }

  lemma MoveKeepsCharge(s: System, c: nat, s': System, ticket: string, other: nat)
    requires IsMove(s, c, s')
    ensures KeepsCharge(s, s', ticket, other) && (Revoked(s, ticket) ==> Revoked(s', ticket))
  {
  }

  lemma RedeemKeepsRevoked(s: System, c: nat, io: Tickets.Io, s': System, ticket: string, other: nat)
    requires Next(s, Redeem(c, io)) == Some(s') && s.conns[c].ticket.Some? && Revoked(s, ticket)
    requires PhaseAccounted(s.conns[c])
    ensures |s'.conns| == |s.conns| && KeepsCharge(s, s', ticket, other) && Revoked(s', ticket)
  {
    var own := s.conns[c].ticket.value;
    Tickets.RevokedStaysRevoked(s.ledger, Tickets.Redeem(own, s.conns[c].peer, io), ticket);
    assert own == ticket ==> !Tickets.RedeemIn(s.ledger.tickets, own, s.conns[c].peer, io).answer.Ok?;
  }

  lemma CommandKeepsRevoked(s: System, op: Tickets.Op, s': System, ticket: string)
    requires Next(s, Command(op)) == Some(s') && Revoked(s, ticket)
    ensures s'.conns == s.conns && Revoked(s', ticket)
  {
    Tickets.RevokedStaysRevoked(s.ledger, op, ticket);
  }

  lemma StepKeepsRevoked(max: nat, s: System, step: Step, s': System, ticket: string, c: nat)
    requires Accounted(max, s) && Next(s, step) == Some(s') && Revoked(s, ticket)
    ensures |s.conns| <= |s'.conns| && KeepsCharge(s, s', ticket, c) && Revoked(s', ticket)
  {
    match step {
      case Arrive(_, _, _) =>
      case Command(op) => CommandKeepsRevoked(s, op, s', ticket);
      case Heartbeat(_) =>
      case SetPhase(_, _, _) =>
      case Redeem(own, io) =>
        if s.conns[own].ticket.Some? {
          assert PhaseAccounted(s.conns[own]);
          RedeemKeepsRevoked(s, own, io, s', ticket, c);
        } else {
          assert IsMove(s, own, s');
          MoveKeepsCharge(s, own, s', ticket, c);
        }
      case _ =>
        StepIsMove(max, s, step, s');
        MoveKeepsCharge(s, step.c, s', ticket, c);
    }
  }

  lemma {:induction false} RunKeepsRevoked(max: nat, s: System, run: seq<Step>, ticket: string, c: nat)
    requires Accounted(max, s) && Exec(s, run).Some? && Revoked(s, ticket)
    ensures |s.conns| <= |Exec(s, run).value.conns|
    ensures KeepsCharge(s, Exec(s, run).value, ticket, c) && Revoked(Exec(s, run).value, ticket)
    decreases |run|
  {
    if run != [] {
      var s' := Next(s, run[0]).value;
      StepKeepsAccounted(max, s, run[0], s');
      StepKeepsRevoked(max, s, run[0], s', ticket, c);
      RunKeepsRevoked(max, s', run[1..], ticket, c);
    }
  }

  lemma {:induction false} CountSame(conns: seq<Conn>, conns': seq<Conn>, kind: Kind)
    requires |conns| <= |conns'|
    requires forall c: nat :: c < |conns'| ==> (Is(conns'[c], kind) <==> c < |conns| && Is(conns[c], kind))
    ensures Count(conns', kind) == Count(conns, kind)
  {
    if conns' != [] {
      var rest, rest' := if conns == [] then [] else conns[1..], conns'[1..];
      forall c: nat | c < |rest'|
        ensures Is(rest'[c], kind) <==> c < |rest| && Is(rest[c], kind)
      {
        assert rest'[c] == conns'[c + 1];
      }
      CountSame(rest, rest', kind);
    }
  }

  lemma RevokedRunAdmitsNobody(max: nat, s: System, run: seq<Step>, ticket: string, s': System)
    requires Accounted(max, s) && Exec(s, run) == Some(s') && Revoked(s, ticket)
    ensures Revoked(s', ticket) && Count(s'.conns, ChargedTo(ticket)) == Count(s.conns, ChargedTo(ticket))
    ensures Count(s'.conns, BuildsOn(ticket)) <= Count(s'.conns, ChargedTo(ticket))
    ensures forall c: nat :: c < |s'.conns| && Is(s'.conns[c], BuildsOn(ticket)) ==>
              c < |s.conns| && Is(s.conns[c], ChargedTo(ticket))
  {
    RunKeepsAccounted(max, s, run);
    RunKeepsRevoked(max, s, run, ticket, 0);
    forall c: nat | c < |s'.conns|
      ensures Is(s'.conns[c], ChargedTo(ticket)) <==> c < |s.conns| && Is(s.conns[c], ChargedTo(ticket))
    {
      RunKeepsRevoked(max, s, run, ticket, c);
    }
    BuildsAreCharged(max, s', ticket);
    CountSame(s.conns, s'.conns, ChargedTo(ticket));
  }

  /**
    From its revocation on, a ticket stays revoked and no connection is charged to it anew, however the server's steps
    interleave; a build on it is in the queue, now or later, only for a connection that had redeemed it before.
   */
  lemma RevokedTicketAdmitsNobody(max: nat, tickets: Tickets.Tickets, recentLimit: nat, now: nat, before: seq<Step>,
                                  after: seq<Step>, ticket: string)
    requires Exec(Init(max, tickets, recentLimit, now), before).Some?
    requires Exec(Exec(Init(max, tickets, recentLimit, now), before).value, after).Some?
    requires Revoked(Exec(Init(max, tickets, recentLimit, now), before).value, ticket)
    ensures var s := Exec(Init(max, tickets, recentLimit, now), before).value;
            var s' := Exec(s, after).value;
            && Revoked(s', ticket)
            && Count(s'.conns, ChargedTo(ticket)) == Count(s.conns, ChargedTo(ticket))
            && Count(s'.conns, BuildsOn(ticket)) <= Count(s.conns, ChargedTo(ticket))
            && (forall c: nat :: c < |s'.conns| && Is(s'.conns[c], BuildsOn(ticket)) ==>
                  c < |s.conns| && Is(s.conns[c], ChargedTo(ticket)))
  {
    InitAccounted(max, tickets, recentLimit, now);
    RunKeepsAccounted(max, Init(max, tickets, recentLimit, now), before);
    var s := Exec(Init(max, tickets, recentLimit, now), before).value;
    var s' := Exec(s, after).value;
    RevokedRunAdmitsNobody(max, s, after, ticket, s');
  }

  /** The step ends the connection. */
  predicate Refused(s: System, step: Step, c: nat) {
    var next := Next(s, step);
    next.Some? && c < |next.value.conns| && next.value.conns[c].phase == Ended
  }

  /** With a revoked ticket no connection gets past the check, and none past the redeem. */
  lemma RevokedTicketIsRefused(s: System, ticket: string, c: nat, io: Tickets.Io)
    requires Revoked(s, ticket) && c < |s.conns|
    ensures s.conns[c].phase == Connected ==> Refused(s, CheckTicket(c, ticket, io), c)
    ensures s.conns[c].phase == Authorized && s.conns[c].ticket == Some(ticket) ==> Refused(s, Redeem(c, io), c)
  {
    Tickets.CheckAcceptsIff(s.ledger.tickets, ticket, s.conns[c].peer, io);
  }

  /** A ticket that the store has can be revoked at any time, whatever the connections are doing. */
  lemma RevokingIsAlwaysPossible(s: System, ticket: string, io: Tickets.Io)
    requires ticket in s.ledger.tickets && io.loads && io.writes
    ensures var s' := Next(s, Command(Tickets.Revoke(ticket, io)));
            s'.Some? && Revoked(s'.value, ticket) && s'.value.conns == s.conns
  {
    Tickets.RevokeSetsFlag(s.ledger.tickets, ticket, io);
  }

  /**
    Revoking ends admission: from a successful revoke on, whatever the server's steps are, the ticket is refused to
    every connection, nobody is charged to it anew, and builds on it are only those of connections that had redeemed.
   */
  lemma RevokeEndsAdmission(max: nat, tickets: Tickets.Tickets, recentLimit: nat, now: nat, before: seq<Step>,
                            io: Tickets.Io, after: seq<Step>, ticket: string)
    requires Exec(Init(max, tickets, recentLimit, now), before).Some?
    requires var s := Exec(Init(max, tickets, recentLimit, now), before).value;
             && Tickets.RevokeIn(s.ledger.tickets, ticket, io).answer.Ok?
             && Exec(s, [Command(Tickets.Revoke(ticket, io))] + after).Some?
    ensures var s := Exec(Init(max, tickets, recentLimit, now), before).value;
            var s' := Exec(s, [Command(Tickets.Revoke(ticket, io))] + after).value;
            && (forall c: nat, later :: c < |s'.conns| && s'.conns[c].phase == Connected ==>
                  Refused(s', CheckTicket(c, ticket, later), c))
            && (forall c: nat, later ::
                  c < |s'.conns| && s'.conns[c].phase == Authorized && s'.conns[c].ticket == Some(ticket) ==>
                    Refused(s', Redeem(c, later), c))
            && Count(s'.conns, ChargedTo(ticket)) == Count(s.conns, ChargedTo(ticket))
            && (forall c: nat :: c < |s'.conns| && Is(s'.conns[c], BuildsOn(ticket)) ==>
                  c < |s.conns| && Is(s.conns[c], ChargedTo(ticket)))
  {
    var revoke := Command(Tickets.Revoke(ticket, io));
    InitAccounted(max, tickets, recentLimit, now);
    RunKeepsAccounted(max, Init(max, tickets, recentLimit, now), before);
    var s := Exec(Init(max, tickets, recentLimit, now), before).value;
    var s1 := Next(s, revoke).value;
    Tickets.RevokeSetsFlag(s.ledger.tickets, ticket, io);
    StepKeepsAccounted(max, s, revoke, s1);
    assert ([revoke] + after)[1..] == after;
    var s' := Exec(s1, after).value;
    RevokedRunAdmitsNobody(max, s1, after, ticket, s');
    forall c: nat, later | c < |s'.conns| {
      RevokedTicketIsRefused(s', ticket, c, later);
    }
  }

  /** At most `max` connections are inside run_queued_build. */
  lemma RunningIsBounded(max: nat, tickets: Tickets.Tickets, recentLimit: nat, now: nat, run: seq<Step>)
    requires Exec(Init(max, tickets, recentLimit, now), run).Some?
    ensures var s := Exec(Init(max, tickets, recentLimit, now), run).value;
            && Count(s.conns, InRun) <= Count(s.conns, HoldsPermit) <= max
            && s.permits == max - Count(s.conns, HoldsPermit)
  {
    InitAccounted(max, tickets, recentLimit, now);
    RunKeepsAccounted(max, Init(max, tickets, recentLimit, now), run);
    CountImplied(Exec(Init(max, tickets, recentLimit, now), run).value.conns, InRun, HoldsPermit);
  }

  // ---------------------------------------------------------------- connections and the registry

  function Leaked(leaked: multiset<Status.RequestId>, place: Status.Place, id: Status.RequestId): nat {
    if place.InQueue? then leaked[id] else 0
  }

  /** The registry holds an id at a place just as often as the connections and the leaks account for. */
  ghost predicate MirroredAt(ids: Status.Ids, conns: seq<Conn>, leaked: multiset<Status.RequestId>,
                             place: Status.Place, id: Status.RequestId) {
    Status.Tally(ids, place, id) == Count(conns, Owns(place, id)) + Leaked(leaked, place, id)
  }

  ghost predicate SizedAt(ids: Status.Ids, conns: seq<Conn>, leaked: multiset<Status.RequestId>, place: Status.Place) {
    |Status.At(ids, place)| == Count(conns, Tracks(place)) + if place.InQueue? then |leaked| else 0
  }

  ghost predicate Agree(ids: Status.Ids, conns: seq<Conn>, leaked: multiset<Status.RequestId>) {
    && (forall place, id :: MirroredAt(ids, conns, leaked, place, id))
    && (forall place :: SizedAt(ids, conns, leaked, place))
  }

  ghost predicate Mirrored(s: System) {
    Status.Consistent(s.history) && Agree(Status.IdsOf(s.history), s.conns, s.leaked)
  }

  /** A connection at a place owns an id that the registry has there. */
  lemma {:induction false} OwnerCounts(conns: seq<Conn>, c: nat, kind: Kind)
    requires c < |conns| && Is(conns[c], kind)
    ensures Count(conns, kind) > 0
  {
    if c > 0 {
      OwnerCounts(conns[1..], c - 1, kind);
    }
  }

  lemma {:induction false} OwnerExists(conns: seq<Conn>, kind: Kind) returns (c: nat)
    requires Count(conns, kind) > 0
    ensures c < |conns| && Is(conns[c], kind)
  {
    if Is(conns[0], kind) {
      c := 0;
    } else {
      var rest := OwnerExists(conns[1..], kind);
      c := rest + 1;
    }
  }

  lemma OwnersAre(conns: seq<Conn>, kind: Kind)
    ensures Count(conns, kind) > 0 <==> exists c :: 0 <= c < |conns| && Is(conns[c], kind)
  {
    if Count(conns, kind) > 0 {
      var c := OwnerExists(conns, kind);
    }
    if c :| 0 <= c < |conns| && Is(conns[c], kind) {
      OwnerCounts(conns, c, kind);
    }
  }

  /** The registry makes the move that one connection's step calls for. */
  lemma MoveKeepsAgreement(ids: Status.Ids, conns: seq<Conn>, leaked: multiset<Status.RequestId>, c: nat, conn: Conn,
                           ids': Status.Ids, id: Status.RequestId)
    requires Agree(ids, conns, leaked) && c < |conns|
    requires Status.Moves(ids, ids', id, PlaceOf(conns[c]), PlaceOf(conn))
    requires PlaceOf(conns[c]).Some? ==> conns[c].id == id
    requires PlaceOf(conn).Some? ==> conn.id == id
    ensures Agree(ids', conns[c := conn], leaked)
  {
    var after := conns[c := conn];
    forall place, x
      ensures MirroredAt(ids', after, leaked, place, x)
    {
      assert MirroredAt(ids, conns, leaked, place, x);
      Status.MovesTally(ids, ids', id, PlaceOf(conns[c]), PlaceOf(conn), place, x);
      OwnsUpdate(conns, c, conn, id, place, x);
    }
    forall place
      ensures SizedAt(ids', after, leaked, place)
    {
      assert SizedAt(ids, conns, leaked, place);
      Status.MovesTally(ids, ids', id, PlaceOf(conns[c]), PlaceOf(conn), place, id);
      TracksUpdate(conns, c, conn, place);
    }
  }

  lemma OwnsUpdate(conns: seq<Conn>, c: nat, conn: Conn, id: Status.RequestId, place: Status.Place, x: Status.RequestId)
    requires c < |conns|
    requires PlaceOf(conns[c]).Some? ==> conns[c].id == id
    requires PlaceOf(conn).Some? ==> conn.id == id
    ensures Count(conns[c := conn], Owns(place, x)) + Status.One(PlaceOf(conns[c]) == Some(place) && x == id) ==
            Count(conns, Owns(place, x)) + Status.One(PlaceOf(conn) == Some(place) && x == id)
  {
    CountUpdate(conns, c, conn, Owns(place, x));
  }

  lemma TracksUpdate(conns: seq<Conn>, c: nat, conn: Conn, place: Status.Place)
    requires c < |conns|
    ensures Count(conns[c := conn], Tracks(place)) + Status.One(PlaceOf(conns[c]) == Some(place)) ==
            Count(conns, Tracks(place)) + Status.One(PlaceOf(conn) == Some(place))
  {
    CountUpdate(conns, c, conn, Tracks(place));
  }

  /** An enqueue that cannot be written puts an id into the queue that no connection owns. */
  lemma LeakKeepsAgreement(ids: Status.Ids, conns: seq<Conn>, leaked: multiset<Status.RequestId>, c: nat, conn: Conn,
                           ids': Status.Ids, id: Status.RequestId)
    requires Agree(ids, conns, leaked) && c < |conns|
    requires Status.Moves(ids, ids', id, None, Some(Status.InQueue))
    requires PlaceOf(conns[c]).None? && PlaceOf(conn).None?
    ensures Agree(ids', conns[c := conn], leaked + multiset{id})
  {
    var after := conns[c := conn];
    var leaked' := leaked + multiset{id};
    forall place, x
      ensures MirroredAt(ids', after, leaked', place, x)
    {
      assert MirroredAt(ids, conns, leaked, place, x);
      Status.MovesTally(ids, ids', id, None, Some(Status.InQueue), place, x);
      OwnsUpdate(conns, c, conn, id, place, x);
    }
    forall place
      ensures SizedAt(ids', after, leaked', place)
    {
      assert SizedAt(ids, conns, leaked, place);
      Status.MovesTally(ids, ids', id, None, Some(Status.InQueue), place, id);
      TracksUpdate(conns, c, conn, place);
    }
  }

  /** The registry finds the build of a connection where the connection says, and only there. */
  lemma BuildIsFound(s: System, c: nat, place: Status.Place)
    requires Mirrored(s) && c < |s.conns|
    ensures s.conns[c].id in Status.At(Status.IdsOf(s.history), place) <==> PlaceOf(s.conns[c]) == Some(place)
    ensures PlaceOf(s.conns[c]) == Some(place) ==> Status.Tally(Status.IdsOf(s.history), place, s.conns[c].id) == 1
  {
    var id := s.conns[c].id;
    var ids := Status.IdsOf(s.history);
    Status.EveryIdIsInOnePlace(s.history, id);
    if PlaceOf(s.conns[c]).Some? {
      var own := PlaceOf(s.conns[c]).value;
      OwnerCounts(s.conns, c, Owns(own, id));
      assert MirroredAt(ids, s.conns, s.leaked, own, id);
    }
    assert id in Status.At(ids, place) <==> Status.Tally(ids, place, id) > 0;
  }

  /** What the registry's answer to a call amounts to. */
  ghost predicate Called(h: Status.History, call: Status.Call, h': Status.History) {
    Status.Moves(Status.IdsOf(h), Status.IdsOf(h'), Status.Moved(h, call),
                 Status.Source(Status.IdsOf(h), call), Status.Target(Status.IdsOf(h), call))
  }

  /** The registry call of a step. */
  function CallOf(s: System, step: Step): Status.Call
    requires IsCall(step) && Subject(s, step)
  {
    match step
    case Enqueue(c, io) => Status.Enqueue(s.conns[c].client, s.conns[c].installable, io)
    case Start(c, io) => Status.Start(s.conns[c].id, io)
    case QueueFails(c, error, io) => Status.Finish(s.conns[c].id, Status.Errored, error, io)
    case Record(c, result, error, io) => Status.Finish(s.conns[c].id, result, error, io)
    case SetPhase(c, phase, io) => Status.Phase(s.conns[c].id, phase, io)
    case Heartbeat(io) => Status.Heartbeat(io)
  }

  predicate IsCall(step: Step) {
    step.Enqueue? || step.Start? || step.QueueFails? || step.Record? || step.SetPhase? || step.Heartbeat?
  }

  lemma OwnCallRecords(s: System, step: Step, s': System)
    requires Next(s, step) == Some(s') && (step.Start? || step.QueueFails? || step.Record?)
    ensures s'.history == Status.Record(s.history, CallOf(s, step)) && s'.leaked == s.leaked
  {
  }

  lemma EnqueueRecords(s: System, step: Step, s': System)
    requires Next(s, step) == Some(s') && step.Enqueue?
    ensures s'.history == Status.Record(s.history, CallOf(s, step))
  {
  }

  lemma SharedCallRecords(s: System, step: Step, s': System)
    requires Next(s, step) == Some(s') && (step.SetPhase? || step.Heartbeat?)
    ensures s'.history == Status.Record(s.history, CallOf(s, step)) && s'.leaked == s.leaked && s'.conns == s.conns
  {
  }

  lemma CallRecords(s: System, step: Step, s': System)
    requires Next(s, step) == Some(s') && IsCall(step)
    ensures s'.history == Status.Record(s.history, CallOf(s, step))
  {
    if step.Enqueue? {
      EnqueueRecords(s, step, s');
    } else if step.SetPhase? || step.Heartbeat? {
      SharedCallRecords(s, step, s');
    } else {
      OwnCallRecords(s, step, s');
    }
  }

  /** A start takes a build from the queue to the active list. */
  lemma StartIsOwnMove(s: System, c: nat, call: Status.Call)
    requires Mirrored(s) && c < |s.conns| && call.Start? && call.id == s.conns[c].id
    requires !s.conns[c].started && !s.conns[c].outcome.Some?
    ensures Status.Source(Status.IdsOf(s.history), call) == PlaceOf(s.conns[c])
    ensures Status.Target(Status.IdsOf(s.history), call) == PlaceOf(s.conns[c].(started := true))
  {
    BuildIsFound(s, c, Status.InQueue);
  }

  /** Recording a result takes a build from where it is to the history. */
  lemma FinishIsOwnMove(s: System, c: nat, call: Status.Call)
    requires Mirrored(s) && c < |s.conns| && call.Finish? && call.id == s.conns[c].id && !s.conns[c].outcome.Some?
    ensures Status.Source(Status.IdsOf(s.history), call) == PlaceOf(s.conns[c])
    ensures Status.Target(Status.IdsOf(s.history), call) ==
            if s.conns[c].id.Build? then Some(Status.InFinished) else None
  {
    BuildIsFound(s, c, Status.InQueue);
    BuildIsFound(s, c, Status.InActive);
  }

  lemma QuietKeepsAgreement(ids: Status.Ids, conns: seq<Conn>, leaked: multiset<Status.RequestId>, c: nat, conn: Conn)
    requires Agree(ids, conns, leaked) && c < |conns|
    requires conn.id == conns[c].id && PlaceOf(conn) == PlaceOf(conns[c])
    ensures Agree(ids, conns[c := conn], leaked)
  {
    var after := conns[c := conn];
    forall place, x
      ensures MirroredAt(ids, after, leaked, place, x)
    {
      assert MirroredAt(ids, conns, leaked, place, x);
      OwnsUpdate(conns, c, conn, conn.id, place, x);
    }
    forall place
      ensures SizedAt(ids, after, leaked, place)
    {
      assert SizedAt(ids, conns, leaked, place);
      TracksUpdate(conns, c, conn, place);
    }
  }

  lemma NoMoveKeepsAgreement(ids: Status.Ids, conns: seq<Conn>, leaked: multiset<Status.RequestId>,
                             ids': Status.Ids, id: Status.RequestId)
    requires Agree(ids, conns, leaked) && Status.Moves(ids, ids', id, None, None)
    ensures Agree(ids', conns, leaked)
  {
    forall place, x
      ensures MirroredAt(ids', conns, leaked, place, x)
    {
      assert MirroredAt(ids, conns, leaked, place, x);
      Status.MovesTally(ids, ids', id, None, None, place, x);
    }
    forall place
      ensures SizedAt(ids', conns, leaked, place)
    {
      assert SizedAt(ids, conns, leaked, place);
      Status.MovesTally(ids, ids', id, None, None, place, id);
    }
  }

  lemma ArriveKeepsAgreement(ids: Status.Ids, conns: seq<Conn>, leaked: multiset<Status.RequestId>, conn: Conn)
    requires Agree(ids, conns, leaked) && PlaceOf(conn).None?
    ensures Agree(ids, conns + [conn], leaked)
  {
    var after := conns + [conn];
    forall place, x
      ensures MirroredAt(ids, after, leaked, place, x)
    {
      assert MirroredAt(ids, conns, leaked, place, x);
      CountAppend(conns, conn, Owns(place, x));
    }
    forall place
      ensures SizedAt(ids, after, leaked, place)
    {
      assert SizedAt(ids, conns, leaked, place);
      CountAppend(conns, conn, Tracks(place));
    }
  }

  /** Only the connection c has changed, and its build is where it was. */
  ghost predicate Stays(s: System, c: nat, s': System) {
    && c < |s.conns| && |s'.conns| == |s.conns| && s'.conns == s.conns[c := s'.conns[c]]
    && s'.history == s.history && s'.leaked == s.leaked
    && s'.conns[c].id == s.conns[c].id && PlaceOf(s'.conns[c]) == PlaceOf(s.conns[c])
  }

  lemma StayKeepsMirrored(s: System, c: nat, s': System)
    requires Mirrored(s) && Stays(s, c, s')
    ensures Mirrored(s')
  {
    QuietKeepsAgreement(Status.IdsOf(s.history), s.conns, s.leaked, c, s'.conns[c]);
  }

  predicate IsQuiet(step: Step) {
    step.Trust? || step.CheckTicket? || step.Redeem? || step.Drop? || step.Acquire? || step.Release?
  }

  lemma QuietStepStays(s: System, step: Step, s': System)
    requires Next(s, step) == Some(s') && IsQuiet(step)
    ensures Stays(s, step.c, s')
  {
  }

  /** Without a clock a call leaves the build of its connection where it was; a failed enqueue gives no id. */
  lemma SkippedCallStays(s: System, step: Step, s': System)
    requires Next(s, step) == Some(s') && (step.Enqueue? || step.Start? || step.QueueFails? || step.Record?)
    requires step.io.NoClock? && PhaseAccounted(s.conns[step.c])
    ensures Stays(s, step.c, s')
  {
    CallRecords(s, step, s');
  }

  /** An enqueue while the clock answers. */
  lemma EnqueueShape(s: System, step: Step, s': System)
    requires Next(s, step) == Some(s') && step.Enqueue? && !step.io.NoClock? && PhaseAccounted(s.conns[step.c])
    ensures step.c < |s.conns| == |s'.conns| && s'.conns == s.conns[step.c := s'.conns[step.c]]
    ensures PlaceOf(s.conns[step.c]).None? && Status.EnqueueAnswer(s.history.registry, step.io) == s'.conns[step.c].id
    ensures step.io.Written? ==> PlaceOf(s'.conns[step.c]) == Some(Status.InQueue) && s'.leaked == s.leaked
    ensures step.io.NotWritten? ==>
              PlaceOf(s'.conns[step.c]).None?
              && s'.leaked == s.leaked + multiset{Status.Build(s.history.registry.nextSeq + 1)}
  {
  }

  lemma WrittenEnqueueKeepsAgreement(s: System, step: Step, s': System)
    requires Mirrored(s) && Next(s, step) == Some(s') && step.Enqueue? && step.io.Written?
    requires PhaseAccounted(s.conns[step.c]) && Called(s.history, CallOf(s, step), s'.history)
    ensures Agree(Status.IdsOf(s'.history), s'.conns, s'.leaked)
  {
    EnqueueShape(s, step, s');
    MoveKeepsAgreement(Status.IdsOf(s.history), s.conns, s.leaked, step.c, s'.conns[step.c], Status.IdsOf(s'.history),
                       Status.Build(s.history.registry.nextSeq + 1));
  }

  lemma UnwrittenEnqueueKeepsAgreement(s: System, step: Step, s': System)
    requires Mirrored(s) && Next(s, step) == Some(s') && step.Enqueue? && step.io.NotWritten?
    requires PhaseAccounted(s.conns[step.c]) && Called(s.history, CallOf(s, step), s'.history)
    ensures Agree(Status.IdsOf(s'.history), s'.conns, s'.leaked)
  {
    EnqueueShape(s, step, s');
    LeakKeepsAgreement(Status.IdsOf(s.history), s.conns, s.leaked, step.c, s'.conns[step.c], Status.IdsOf(s'.history),
                       Status.Build(s.history.registry.nextSeq + 1));
  }

  lemma OwnCallShape(s: System, step: Step, s': System)
    requires Next(s, step) == Some(s') && (step.Start? || step.QueueFails? || step.Record?) && !step.io.NoClock?
    requires PhaseAccounted(s.conns[step.c])
    ensures s'.conns == s.conns[step.c := s'.conns[step.c]] && s'.conns[step.c].id == s.conns[step.c].id
    ensures !s.conns[step.c].outcome.Some? && (step.Start? ==> !s.conns[step.c].started)
    ensures PlaceOf(s'.conns[step.c]) ==
            if step.Start? then PlaceOf(s.conns[step.c].(started := true))
            else if s.conns[step.c].id.Build? then Some(Status.InFinished) else None
  {
  }

  lemma OwnCallKeepsAgreement(s: System, step: Step, s': System)
    requires Mirrored(s) && Next(s, step) == Some(s') && (step.Start? || step.QueueFails? || step.Record?)
    requires !step.io.NoClock? && PhaseAccounted(s.conns[step.c]) && Called(s.history, CallOf(s, step), s'.history)
    ensures Agree(Status.IdsOf(s'.history), s'.conns, s'.leaked)
  {
    OwnCallRecords(s, step, s');
    OwnCallShape(s, step, s');
    if step.Start? {
      StartIsOwnMove(s, step.c, CallOf(s, step));
    } else {
      FinishIsOwnMove(s, step.c, CallOf(s, step));
    }
    MoveKeepsAgreement(Status.IdsOf(s.history), s.conns, s.leaked, step.c, s'.conns[step.c], Status.IdsOf(s'.history),
                       s.conns[step.c].id);
  }

  lemma SharedCallKeepsAgreement(s: System, step: Step, s': System)
    requires Mirrored(s) && Next(s, step) == Some(s') && (step.SetPhase? || step.Heartbeat?)
    requires Called(s.history, CallOf(s, step), s'.history)
    ensures Agree(Status.IdsOf(s'.history), s'.conns, s'.leaked)
  {
    SharedCallRecords(s, step, s');
    NoMoveKeepsAgreement(Status.IdsOf(s.history), s.conns, s.leaked, Status.IdsOf(s'.history),
                         Status.Moved(s.history, CallOf(s, step)));
  }

  /** A call while the clock answers. */
  lemma CallKeepsMirrored(s: System, step: Step, s': System)
    requires Mirrored(s) && Next(s, step) == Some(s') && IsCall(step) && !step.io.NoClock?
    requires !step.Heartbeat? ==> PhaseAccounted(s.conns[step.c])
    ensures Mirrored(s')
  {
    CallRecords(s, step, s');
    Status.CallKeepsConsistent(s.history, CallOf(s, step));
    Status.EveryCallMovesOneId(s.history, CallOf(s, step));
    if step.Enqueue? {
      if step.io.Written? {
        WrittenEnqueueKeepsAgreement(s, step, s');
      } else {
        UnwrittenEnqueueKeepsAgreement(s, step, s');
      }
    } else if step.SetPhase? || step.Heartbeat? {
      SharedCallKeepsAgreement(s, step, s');
    } else {
      OwnCallKeepsAgreement(s, step, s');
    }
  }

  lemma SkippedCallKeepsMirrored(s: System, step: Step, s': System)
    requires Mirrored(s) && Next(s, step) == Some(s') && IsCall(step) && step.io.NoClock?
    requires !step.Heartbeat? ==> PhaseAccounted(s.conns[step.c])
    ensures Mirrored(s')
  {
    if step.SetPhase? || step.Heartbeat? {
      SharedCallRecords(s, step, s');
    } else {
      SkippedCallStays(s, step, s');
      StayKeepsMirrored(s, step.c, s');
    }
  }

  lemma StepKeepsMirrored(max: nat, s: System, step: Step, s': System)
    requires Accounted(max, s) && Mirrored(s) && Next(s, step) == Some(s')
    ensures Mirrored(s')
  {
    assert !step.Arrive? && !step.Command? && !step.Heartbeat? ==> PhaseAccounted(s.conns[step.c]);
    if step.Arrive? {
      ArriveKeepsAgreement(Status.IdsOf(s.history), s.conns, s.leaked,
                           Arrived(step.peer, step.client, step.installable));
    } else if step.Command? {
      assert s' == s.(ledger := s'.ledger);
    } else if IsQuiet(step) {
      QuietStepStays(s, step, s');
      StayKeepsMirrored(s, step.c, s');
    } else if step.io.NoClock? {
      SkippedCallKeepsMirrored(s, step, s');
    } else {
      CallKeepsMirrored(s, step, s');
    }
  }

  lemma {:induction false} RunKeepsMirrored(max: nat, s: System, run: seq<Step>)
    requires Accounted(max, s) && Mirrored(s) && Exec(s, run).Some?
    ensures Accounted(max, Exec(s, run).value) && Mirrored(Exec(s, run).value)
    decreases |run|
  {
    if run != [] {
      var s' := Next(s, run[0]).value;
      StepKeepsAccounted(max, s, run[0], s');
      StepKeepsMirrored(max, s, run[0], s');
      RunKeepsMirrored(max, s', run[1..]);
    }
  }

  lemma InitMirrored(max: nat, tickets: Tickets.Tickets, recentLimit: nat, now: nat)
    ensures Mirrored(Init(max, tickets, recentLimit, now))
  {
    var s := Init(max, tickets, recentLimit, now);
    assert Status.RecentIds([]) == [];
    assert Status.IdsOf(s.history) == Status.Ids([], [], []);
    assert forall place :: Status.At(Status.Ids([], [], []), place) == [];
  }

  lemma ReachableMirrored(max: nat, tickets: Tickets.Tickets, recentLimit: nat, now: nat, run: seq<Step>)
    requires Exec(Init(max, tickets, recentLimit, now), run).Some?
    ensures Mirrored(Exec(Init(max, tickets, recentLimit, now), run).value)
    ensures Accounted(max, Exec(Init(max, tickets, recentLimit, now), run).value)
  {
    InitAccounted(max, tickets, recentLimit, now);
    InitMirrored(max, tickets, recentLimit, now);
    RunKeepsMirrored(max, Init(max, tickets, recentLimit, now), run);
  }

  // ---------------------------------------------------------------- skipped updates

  /** The step tells the registry of the start of c's build, and the update is not skipped. */
  predicate TellsStart(step: Step, c: nat) {
    step.Start? && step.c == c && !step.io.NoClock?
  }

  predicate TellsResult(step: Step, c: nat) {
    (step.QueueFails? || step.Record?) && step.c == c && !step.io.NoClock?
  }

  predicate StartTold(run: seq<Step>, c: nat) {
    exists i: nat :: i < |run| && TellsStart(run[i], c)
  }

  predicate ResultTold(run: seq<Step>, c: nat) {
    exists i: nat :: i < |run| && TellsResult(run[i], c)
  }

  /** What a step tells the registry of c's build shows at the connection. */
  predicate Tells(s: System, step: Step, s': System, c: nat) {
    c < |s'.conns| ==>
      && (s'.conns[c].started <==> (c < |s.conns| && s.conns[c].started) || TellsStart(step, c))
      && (s'.conns[c].outcome.Some? <==> (c < |s.conns| && s.conns[c].outcome.Some?) || TellsResult(step, c))
  }

  lemma OwnCallTells(s: System, step: Step, s': System, c: nat)
    requires Next(s, step) == Some(s') && (step.Start? || step.QueueFails? || step.Record?)
    ensures |s'.conns| == |s.conns| && Tells(s, step, s', c)
  {
  }

  lemma QuietStepTells(s: System, step: Step, s': System, c: nat)
    requires Next(s, step) == Some(s') && IsQuiet(step)
    ensures |s'.conns| == |s.conns| && Tells(s, step, s', c)
  {
  }

  lemma StepTells(s: System, step: Step, s': System, c: nat)
    requires Next(s, step) == Some(s')
    ensures |s.conns| <= |s'.conns| && Tells(s, step, s', c)
  {
    if step.Start? || step.QueueFails? || step.Record? {
      OwnCallTells(s, step, s', c);
    } else if IsQuiet(step) {
      QuietStepTells(s, step, s', c);
    }
  }

  lemma ToldSplits(run: seq<Step>, c: nat)
    requires run != []
    ensures StartTold(run, c) <==> TellsStart(run[0], c) || StartTold(run[1..], c)
    ensures ResultTold(run, c) <==> TellsResult(run[0], c) || ResultTold(run[1..], c)
  {
    var rest := run[1..];
    if i: nat :| i < |rest| && TellsStart(rest[i], c) {
      assert TellsStart(run[i + 1], c);
    }
    if i: nat :| i < |rest| && TellsResult(rest[i], c) {
      assert TellsResult(run[i + 1], c);
    }
    if i: nat :| i < |run| && TellsStart(run[i], c) && i > 0 {
      assert TellsStart(rest[i - 1], c);
    }
    if i: nat :| i < |run| && TellsResult(run[i], c) && i > 0 {
      assert TellsResult(rest[i - 1], c);
    }
  }

  /** A connection counts as started, or recorded, exactly if some step has told the registry so. */
  lemma {:induction false} RunTells(s: System, run: seq<Step>, c: nat)
    requires Exec(s, run).Some?
    ensures |s.conns| <= |Exec(s, run).value.conns|
    ensures c < |Exec(s, run).value.conns| ==>
              && (Exec(s, run).value.conns[c].started <==>
                    (c < |s.conns| && s.conns[c].started) || StartTold(run, c))
              && (Exec(s, run).value.conns[c].outcome.Some? <==>
                    (c < |s.conns| && s.conns[c].outcome.Some?) || ResultTold(run, c))
    decreases |run|
  {
    if run != [] {
      var s' := Next(s, run[0]).value;
      StepTells(s, run[0], s', c);
      ToldSplits(run, c);
      RunTells(s', run[1..], c);
    }
  }

  /** What holds of a connection as long as no update was skipped. */
  predicate Punctual(conn: Conn) {
    conn.id.Build? ==> PlaceOf(conn) == PhasePlace(conn.phase)
  }

  lemma QuietKeepsPunctual(s: System, step: Step, s': System)
    requires Next(s, step) == Some(s') && IsQuiet(step)
    requires PhaseAccounted(s.conns[step.c]) && Punctual(s.conns[step.c])
    ensures Punctual(s'.conns[step.c])
  {
  }

  lemma OwnCallKeepsPunctual(s: System, step: Step, s': System)
    requires Next(s, step) == Some(s') && (step.Start? || step.QueueFails? || step.Record?) && !step.io.NoClock?
    requires PhaseAccounted(s.conns[step.c])
    ensures Punctual(s'.conns[step.c])
  {
  }

  lemma EnqueueIsPunctual(s: System, step: Step, s': System)
    requires Next(s, step) == Some(s') && step.Enqueue? && !step.io.NoClock? && PhaseAccounted(s.conns[step.c])
    ensures Punctual(s'.conns[step.c])
  {
  }

  ghost predicate AllPunctual(s: System) {
    s.ticking ==> forall c :: 0 <= c < |s.conns| ==> Punctual(s.conns[c])
  }

  lemma StepKeepsPunctual(max: nat, s: System, step: Step, s': System)
    requires Accounted(max, s) && Next(s, step) == Some(s') && AllPunctual(s)
    ensures AllPunctual(s')
  {
    assert !step.Arrive? && !step.Command? && !step.Heartbeat? ==> PhaseAccounted(s.conns[step.c]);
    StepKeepsTicking(s, step, s');
    if s'.ticking {
      if IsQuiet(step) {
        QuietStepStays(s, step, s');
        QuietKeepsPunctual(s, step, s');
      } else if step.Start? || step.QueueFails? || step.Record? {
        OwnCallShape(s, step, s');
        OwnCallKeepsPunctual(s, step, s');
      } else if step.Enqueue? {
        EnqueueShape(s, step, s');
        EnqueueIsPunctual(s, step, s');
      }
    }
  }

  lemma StepKeepsTicking(s: System, step: Step, s': System)
    requires Next(s, step) == Some(s')
    ensures s'.ticking ==> s.ticking && (IsCall(step) ==> !step.io.NoClock?)
  {
  }

  lemma {:induction false} RunKeepsPunctual(max: nat, s: System, run: seq<Step>)
    requires Accounted(max, s) && Exec(s, run).Some? && AllPunctual(s)
    ensures AllPunctual(Exec(s, run).value)
    decreases |run|
  {
    if run != [] {
      var s' := Next(s, run[0]).value;
      StepKeepsAccounted(max, s, run[0], s');
      StepKeepsPunctual(max, s, run[0], s');
      RunKeepsPunctual(max, s', run[1..]);
    }
  }

  // ---------------------------------------------------------------- what the lists hold

  lemma AgreementAt(s: System, id: Status.RequestId)
    requires Mirrored(s)
    ensures id in Status.IdsOf(s.history).active <==>
              exists c :: 0 <= c < |s.conns| && Is(s.conns[c], Owns(Status.InActive, id))
    ensures id in Status.IdsOf(s.history).queued <==>
              id in s.leaked || exists c :: 0 <= c < |s.conns| && Is(s.conns[c], Owns(Status.InQueue, id))
    ensures id in s.history.finished <==>
              exists c :: 0 <= c < |s.conns| && Is(s.conns[c], Owns(Status.InFinished, id))
  {
    var ids := Status.IdsOf(s.history);
    assert MirroredAt(ids, s.conns, s.leaked, Status.InActive, id);
    assert MirroredAt(ids, s.conns, s.leaked, Status.InQueue, id);
    assert MirroredAt(ids, s.conns, s.leaked, Status.InFinished, id);
    OwnersAre(s.conns, Owns(Status.InActive, id));
    OwnersAre(s.conns, Owns(Status.InQueue, id));
    OwnersAre(s.conns, Owns(Status.InFinished, id));
    assert id in ids.active <==> Status.Tally(ids, Status.InActive, id) > 0;
    assert id in ids.queued <==> Status.Tally(ids, Status.InQueue, id) > 0;
    assert id in ids.finished <==> Status.Tally(ids, Status.InFinished, id) > 0;
  }

  /**
    The registry against the connections, with failed writes and skipped updates.  Of the builds whose connection was
    told an id, `active` lists exactly those whose start reached the registry and whose result did not, the finish
    history those whose result did, and `queued` the others: a build whose start was skipped stays queued, and one
    whose result was skipped stays listed.  The queue also has, for good, every build whose enqueue could not be
    written.
   */
  lemma RegistryMirrorsConnections(max: nat, tickets: Tickets.Tickets, recentLimit: nat, now: nat, run: seq<Step>)
    requires Exec(Init(max, tickets, recentLimit, now), run).Some?
    ensures var s := Exec(Init(max, tickets, recentLimit, now), run).value;
            && (forall id :: id in Status.IdsOf(s.history).active <==>
                  exists c :: 0 <= c < |s.conns| && Is(s.conns[c], Owns(Status.InActive, id)))
            && (forall id :: id in Status.IdsOf(s.history).queued <==>
                  id in s.leaked || exists c :: 0 <= c < |s.conns| && Is(s.conns[c], Owns(Status.InQueue, id)))
            && (forall id :: id in s.history.finished <==>
                  exists c :: 0 <= c < |s.conns| && Is(s.conns[c], Owns(Status.InFinished, id)))
            && (forall c: nat :: c < |s.conns| ==>
                  && (s.conns[c].started <==> StartTold(run, c))
                  && (s.conns[c].outcome.Some? <==> ResultTold(run, c)))
  {
    ReachableMirrored(max, tickets, recentLimit, now, run);
    var s := Exec(Init(max, tickets, recentLimit, now), run).value;
    forall id {
      AgreementAt(s, id);
    }
    forall c: nat | c < |s.conns|
      ensures s.conns[c].started <==> StartTold(run, c)
      ensures s.conns[c].outcome.Some? <==> ResultTold(run, c)
    {
      RunTells(Init(max, tickets, recentLimit, now), run, c);
    }
  }

  /** As long as no update was skipped, every build is where its connection's phase says. */
  lemma PhaseTellsPlace(max: nat, tickets: Tickets.Tickets, recentLimit: nat, now: nat, run: seq<Step>, c: nat)
    requires Exec(Init(max, tickets, recentLimit, now), run).Some?
    requires var s := Exec(Init(max, tickets, recentLimit, now), run).value;
             s.ticking && c < |s.conns| && s.conns[c].id.Build?
    ensures var s := Exec(Init(max, tickets, recentLimit, now), run).value;
            forall place :: s.conns[c].id in Status.At(Status.IdsOf(s.history), place) <==>
                              PhasePlace(s.conns[c].phase) == Some(place)
  {
    InitAccounted(max, tickets, recentLimit, now);
    ReachableMirrored(max, tickets, recentLimit, now, run);
    RunKeepsPunctual(max, Init(max, tickets, recentLimit, now), run);
    var s := Exec(Init(max, tickets, recentLimit, now), run).value;
    assert Punctual(s.conns[c]);
    forall place {
      BuildIsFound(s, c, place);
    }
  }

  lemma {:induction false} ActiveOrLingers(conns: seq<Conn>)
    requires forall c :: 0 <= c < |conns| ==> PhaseAccounted(conns[c])
    ensures Count(conns, Tracks(Status.InActive)) <=
            Count(conns, InRun) + Count(conns, AwaitsRecord) + Count(conns, Lingers)
  {
    if conns != [] {
      assert PhaseAccounted(conns[0]);
      ActiveOrLingers(conns[1..]);
    }
  }

  lemma {:induction false} NoneLingers(conns: seq<Conn>)
    requires forall c :: 0 <= c < |conns| ==> Punctual(conns[c])
    ensures Count(conns, Lingers) == 0
  {
    if conns != [] {
      assert Punctual(conns[0]);
      NoneLingers(conns[1..]);
    }
  }

  /**
    How far `active` can exceed the configured concurrency: by the builds whose permit is free again while their
    result is not recorded, and by those of ended connections whose result was skipped; there are none of the latter
    while the clock answers.
   */
  lemma ActiveIsBounded(max: nat, tickets: Tickets.Tickets, recentLimit: nat, now: nat, run: seq<Step>)
    requires Exec(Init(max, tickets, recentLimit, now), run).Some?
    ensures var s := Exec(Init(max, tickets, recentLimit, now), run).value;
            && |s.history.registry.snapshot.active| == Count(s.conns, Tracks(Status.InActive))
            && Count(s.conns, Tracks(Status.InActive)) <= max + Count(s.conns, AwaitsRecord) + Count(s.conns, Lingers)
            && |s.history.registry.snapshot.queued| == Count(s.conns, Tracks(Status.InQueue)) + |s.leaked|
            && (s.ticking ==> Count(s.conns, Lingers) == 0)
  {
    ReachableMirrored(max, tickets, recentLimit, now, run);
    RunningIsBounded(max, tickets, recentLimit, now, run);
    InitAccounted(max, tickets, recentLimit, now);
    RunKeepsPunctual(max, Init(max, tickets, recentLimit, now), run);
    var s := Exec(Init(max, tickets, recentLimit, now), run).value;
    var ids := Status.IdsOf(s.history);
    assert SizedAt(ids, s.conns, s.leaked, Status.InActive) && SizedAt(ids, s.conns, s.leaked, Status.InQueue);
    ActiveOrLingers(s.conns);
    if s.ticking {
      NoneLingers(s.conns);
    }
  }

  lemma {:induction false} ExecOneMore(s: System, run: seq<Step>, step: Step)
    requires Exec(s, run).Some?
    ensures Exec(s, run + [step]) == Next(Exec(s, run).value, step)
    decreases |run|
  {
    if run == [] {
      assert run + [step] == [step];
      if Next(s, step).Some? {
        assert Exec(Next(s, step).value, []) == Next(s, step);
      }
    } else {
      assert (run + [step])[1..] == run[1..] + [step];
      ExecOneMore(Next(s, run[0]).value, run[1..], step);
    }
  }

  /** A run of the server with one permit and no tickets, one step longer. */
  lemma Extend(run: seq<Step>, step: Step) returns (longer: seq<Step>)
    requires Exec(Init(1, map[], 0, 0), run).Some? && Next(Exec(Init(1, map[], 0, 0), run).value, step).Some?
    ensures Exec(Init(1, map[], 0, 0), longer) == Next(Exec(Init(1, map[], 0, 0), run).value, step)
  {
    ExecOneMore(Init(1, map[], 0, 0), run, step);
    longer := run + [step];
  }

  lemma QueueOne(run: seq<Step>, c: nat) returns (longer: seq<Step>)
    requires Exec(Init(1, map[], 0, 0), run).Some?
    requires var s := Exec(Init(1, map[], 0, 0), run).value; s.permits == 1 && s.ticking && c == |s.conns|
    ensures Exec(Init(1, map[], 0, 0), longer).Some?
    ensures var s := Exec(Init(1, map[], 0, 0), run).value;
            var s' := Exec(Init(1, map[], 0, 0), longer).value;
            && s'.permits == 1 && s'.ticking && |s'.conns| == c + 1 && s'.conns[..c] == s.conns
            && s'.conns[c].phase == Waiting && PlaceOf(s'.conns[c]) == Some(Status.InQueue)
  {
    longer := Extend(run, Arrive("", "", ""));
    longer := Extend(longer, Trust(c));
    longer := Extend(longer, Redeem(c, Tickets.Io(true, None, true)));
    longer := Extend(longer, Enqueue(c, Status.Written(0)));
  }

  lemma StartOne(run: seq<Step>, c: nat) returns (longer: seq<Step>)
    requires Exec(Init(1, map[], 0, 0), run).Some?
    requires var s := Exec(Init(1, map[], 0, 0), run).value;
             s.permits == 1 && s.ticking && c < |s.conns| && s.conns[c].phase == Waiting
    ensures Exec(Init(1, map[], 0, 0), longer).Some?
    ensures var s := Exec(Init(1, map[], 0, 0), run).value;
            var s' := Exec(Init(1, map[], 0, 0), longer).value;
            s'.permits == 0 && s'.ticking && s'.conns == s.conns[c := s.conns[c].(phase := Running, started := true)]
  {
    longer := Extend(run, Acquire(c));
    longer := Extend(longer, Start(c, Status.Written(0)));
  }

  /** The excess is real: one permit, and a second build starts before the first is recorded. */
  lemma ActiveCanExceedPermits()
    ensures exists run :: Exec(Init(1, map[], 0, 0), run).Some?
                          && |Exec(Init(1, map[], 0, 0), run).value.history.registry.snapshot.active| == 2
  {
    var run := QueueOne([], 0);
    run := QueueOne(run, 1);
    run := StartOne(run, 0);
    run := Extend(run, Release(0));
    run := StartOne(run, 1);
    var conns := Exec(Init(1, map[], 0, 0), run).value.conns;
    assert conns == [conns[0], conns[1]];
    assert Is(conns[0], Tracks(Status.InActive)) && Is(conns[1], Tracks(Status.InActive));
    assert Count(conns[1..], Tracks(Status.InActive)) == 1 + Count(conns[1..][1..], Tracks(Status.InActive));
    ActiveIsBounded(1, map[], 0, 0, run);
  }

  /**
    A build whose connection has ended is in the finish history once and in neither list, if the update that reports
    its result was not skipped; if it was, the build stays listed and is not in the history.
   */
  lemma EndedBuildsAreRecorded(max: nat, tickets: Tickets.Tickets, recentLimit: nat, now: nat, run: seq<Step>, c: nat)
    requires Exec(Init(max, tickets, recentLimit, now), run).Some?
    requires var s := Exec(Init(max, tickets, recentLimit, now), run).value;
             c < |s.conns| && s.conns[c].phase == Ended && s.conns[c].id.Build?
    ensures var s := Exec(Init(max, tickets, recentLimit, now), run).value;
            var ids := Status.IdsOf(s.history);
            && (ResultTold(run, c) ==> Status.Tally(ids, Status.InFinished, s.conns[c].id) == 1)
            && (ResultTold(run, c) ==> s.conns[c].id !in ids.queued && s.conns[c].id !in ids.active)
            && (!ResultTold(run, c) ==> s.conns[c].id in (if StartTold(run, c) then ids.active else ids.queued))
            && (!ResultTold(run, c) ==> s.conns[c].id !in ids.finished)
            && (s.ticking ==> ResultTold(run, c))
  {
    ReachableMirrored(max, tickets, recentLimit, now, run);
    InitAccounted(max, tickets, recentLimit, now);
    RunTells(Init(max, tickets, recentLimit, now), run, c);
    RunKeepsPunctual(max, Init(max, tickets, recentLimit, now), run);
    var s := Exec(Init(max, tickets, recentLimit, now), run).value;
    assert s.ticking ==> Punctual(s.conns[c]);
    BuildIsFound(s, c, Status.InFinished);
    BuildIsFound(s, c, Status.InQueue);
    BuildIsFound(s, c, Status.InActive);
  }

  lemma StepKeepsLeaks(s: System, step: Step, s': System)
    requires Next(s, step) == Some(s')
    ensures s.leaked <= s'.leaked
  {
  }

  lemma {:induction false} RunKeepsLeaks(s: System, run: seq<Step>)
    requires Exec(s, run).Some?
    ensures s.leaked <= Exec(s, run).value.leaked
    decreases |run|
  {
    if run != [] {
      StepKeepsLeaks(s, run[0], Next(s, run[0]).value);
      RunKeepsLeaks(Next(s, run[0]).value, run[1..]);
    }
  }

  /** A build whose enqueue could not be written stays in the queue whatever happens. */
  lemma LeaksStay(max: nat, s: System, run: seq<Step>, id: Status.RequestId)
    requires Accounted(max, s) && Mirrored(s) && id in s.leaked
    requires Exec(s, run).Some?
    ensures id in Status.IdsOf(Exec(s, run).value.history).queued
  {
    RunKeepsMirrored(max, s, run);
    RunKeepsLeaks(s, run);
    AgreementAt(Exec(s, run).value, id);
  }
}
