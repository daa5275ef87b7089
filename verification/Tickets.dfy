/**
  The ticket store of ticket.rs.  Each operation loads tickets.json, changes its own copy and writes it back, all
  under the store's lock, so an operation is one step; a failed load or write leaves the file as it was.
 */
module Tickets {
  import opened Protocol

  type TicketId = string
  type ClientId = string

  /** The client a ticket is bound to, as the text in the record parses. */
  datatype Binding = Unbound | BoundTo(client: ClientId) | Unparsable

  datatype TicketRecord = TicketRecord(
    createdAt: nat,
    expiresAt: nat,
    uses: Option<nat>,
    binding: Binding,
    revoked: bool,
    maxBuildTime: string,
    maxUploadBytes: string)

  type Tickets = map<TicketId, TicketRecord>

  datatype Options = Options(blankName: bool, expiresAfter: nat, uses: Option<nat>, binding: Binding,
                             maxBuildTime: string, maxUploadBytes: string)

  datatype TicketError =
    | LoadFailed | WriteFailed | NoClock | ExpiryOverflow | EmptyName | BadBinding | IdCollision
    | NotFound | TicketRevoked | Expired | OtherClient | NoUsesRemaining

  /** What an operation gets from its surroundings. */
  datatype Io = Io(loads: bool, clock: Option<nat>, writes: bool)

  const U64_MAX: nat := 0xFFFF_FFFF_FFFF_FFFF

  function Validate(record: TicketRecord, remote: ClientId, clock: Option<nat>): Option<TicketError> {
    if record.revoked then Some(TicketRevoked)
    else if clock.None? then Some(NoClock)
    else if clock.value >= record.expiresAt then Some(Expired)
    else if record.binding.Unparsable? then Some(BadBinding)
    else if record.binding.BoundTo? && record.binding.client != remote then Some(OtherClient)
    else if record.uses == Some(0) then Some(NoUsesRemaining)
    else None
  }

  /** The answer of an operation and the tickets in the file after it. */
  datatype Outcome<+T> = Outcome(answer: Result<T, TicketError>, tickets: Tickets)

  function CreateIn(tickets: Tickets, id: TicketId, options: Options, io: Io): Outcome<TicketRecord> {
    if !io.loads then Outcome(Err(LoadFailed), tickets)
    else if io.clock.None? then Outcome(Err(NoClock), tickets)
    else if io.clock.value + options.expiresAfter > U64_MAX then Outcome(Err(ExpiryOverflow), tickets)
    else if options.blankName then Outcome(Err(EmptyName), tickets)
    else if options.binding.Unparsable? then Outcome(Err(BadBinding), tickets)
    else if id in tickets then Outcome(Err(IdCollision), tickets)
    else if !io.writes then Outcome(Err(WriteFailed), tickets)
    else
      var record := TicketRecord(io.clock.value, io.clock.value + options.expiresAfter, options.uses, options.binding,
                                 false, options.maxBuildTime, options.maxUploadBytes);
      Outcome(Ok(record), tickets[id := record])
  }

  function RevokeIn(tickets: Tickets, id: TicketId, io: Io): Outcome<TicketRecord> {
    if !io.loads then Outcome(Err(LoadFailed), tickets)
    else if id !in tickets then Outcome(Err(NotFound), tickets)
    else if !io.writes then Outcome(Err(WriteFailed), tickets)
    else
      var record := tickets[id].(revoked := true);
      Outcome(Ok(record), tickets[id := record])
  }

  function CheckIn(tickets: Tickets, id: TicketId, remote: ClientId, io: Io): Result<TicketRecord, TicketError> {
    if !io.loads then Err(LoadFailed)
    else if id !in tickets then Err(NotFound)
    else match Validate(tickets[id], remote, io.clock)
      case Some(error) => Err(error)
      case None => Ok(tickets[id])
  }

  function RedeemIn(tickets: Tickets, id: TicketId, remote: ClientId, io: Io): Outcome<TicketRecord> {
    match CheckIn(tickets, id, remote, io)
    case Err(error) => Outcome(Err(error), tickets)
    case Ok(record) =>
      match record.uses
      case None => Outcome(Ok(record), tickets)
      case Some(uses) =>
        if !io.writes then Outcome(Err(WriteFailed), tickets)
        else
          // Validation has excluded zero: the subtraction never wraps.
          var redeemed := record.(uses := Some(if uses > 0 then uses - 1 else U64_MAX));
          Outcome(Ok(redeemed), tickets[id := redeemed])
  }

  // ---------------------------------------------------------------- the store in place

  class TicketStore {
    var file: Tickets

    constructor (file: Tickets)
      ensures this.file == file
    {
      this.file := file;
    }

    method Load(io: Io) returns (state: Result<Tickets, TicketError>)
      ensures state == if io.loads then Ok(file) else Err(LoadFailed)
    {
      state := if io.loads then Ok(file) else Err(LoadFailed);
    }

    method Write(state: Tickets, io: Io) returns (written: bool)
      modifies this
      ensures written == io.writes && file == if io.writes then state else old(file)
    {
      written := io.writes;
      if written {
        file := state;
      }
    }

    method Create(id: TicketId, options: Options, io: Io) returns (answer: Result<TicketRecord, TicketError>)
      modifies this
      ensures Outcome(answer, file) == CreateIn(old(file), id, options, io)
    {
      var loaded := Load(io);
      if loaded.Err? {
        return Err(loaded.error);
      }
      var state := loaded.value;
      if io.clock.None? {
        return Err(NoClock);
      }
      var now := io.clock.value;
      if now + options.expiresAfter > U64_MAX {
        return Err(ExpiryOverflow);
      }
      if options.blankName {
        return Err(EmptyName);
      }
      if options.binding.Unparsable? {
        return Err(BadBinding);
      }
      var collision := id in state;
      var record := TicketRecord(now, now + options.expiresAfter, options.uses, options.binding, false,
                                 options.maxBuildTime, options.maxUploadBytes);
      // The entry is replaced in the loaded copy only.
      state := state[id := record];
      if collision {
        return Err(IdCollision);
      }
      var written := Write(state, io);
      answer := if written then Ok(record) else Err(WriteFailed);
    }

    method Revoke(id: TicketId, io: Io) returns (answer: Result<TicketRecord, TicketError>)
      modifies this
      ensures Outcome(answer, file) == RevokeIn(old(file), id, io)
    {
      var loaded := Load(io);
      if loaded.Err? {
        return Err(loaded.error);
      }
      var state := loaded.value;
      if id !in state {
        return Err(NotFound);
      }
      var revoked := state[id].(revoked := true);
      state := state[id := revoked];
      var written := Write(state, io);
      answer := if written then Ok(revoked) else Err(WriteFailed);
    }

    method Check(id: TicketId, remote: ClientId, io: Io) returns (answer: Result<TicketRecord, TicketError>)
      ensures answer == CheckIn(file, id, remote, io)
    {
      var loaded := Load(io);
      if loaded.Err? {
        return Err(loaded.error);
      }
      if id !in loaded.value {
        return Err(NotFound);
      }
      var invalid := Validate(loaded.value[id], remote, io.clock);
      answer := if invalid.Some? then Err(invalid.value) else Ok(loaded.value[id]);
    }

    method Redeem(id: TicketId, remote: ClientId, io: Io) returns (answer: Result<TicketRecord, TicketError>)
      modifies this
      ensures Outcome(answer, file) == RedeemIn(old(file), id, remote, io)
    {
      var checked := Check(id, remote, io);
      if checked.Err? {
        return checked;
      }
      var record := checked.value;
      if record.uses.None? {
        return Ok(record);
      }
      assert record.uses.value > 0;
      record := record.(uses := Some(record.uses.value - 1));
      var written := Write(file[id := record], io);
      answer := if written then Ok(record) else Err(WriteFailed);
    }
  }

  // ---------------------------------------------------------------- every sequence of operations

  datatype Op =
    | Create(id: TicketId, options: Options, io: Io)
    | Revoke(id: TicketId, io: Io)
    | Check(id: TicketId, remote: ClientId, io: Io)
    | Redeem(id: TicketId, remote: ClientId, io: Io)

  /** The tickets with what was granted at creation and how often each has been redeemed. */
  datatype Ledger = Ledger(tickets: Tickets, granted: map<TicketId, Option<nat>>, redeemed: map<TicketId, nat>)

  function Redemptions(l: Ledger, id: TicketId): nat {
    if id in l.redeemed then l.redeemed[id] else 0
  }

  function Open(tickets: Tickets): Ledger {
    Ledger(tickets, map id | id in tickets :: tickets[id].uses, map[])
  }

  function Post(l: Ledger, op: Op): Ledger {
    match op
    case Create(id, options, io) =>
      var o := CreateIn(l.tickets, id, options, io);
      l.(tickets := o.tickets, granted := if o.answer.Ok? then l.granted[id := options.uses] else l.granted)
    case Revoke(id, io) => l.(tickets := RevokeIn(l.tickets, id, io).tickets)
    case Check(_, _, _) => l
    case Redeem(id, remote, io) =>
      var o := RedeemIn(l.tickets, id, remote, io);
      l.(tickets := o.tickets,
         redeemed := if o.answer.Ok? then l.redeemed[id := Redemptions(l, id) + 1] else l.redeemed)
  }

  function PostAll(l: Ledger, ops: seq<Op>): Ledger
    decreases |ops|
  {
    if ops == [] then l else PostAll(Post(l, ops[0]), ops[1..])
  }

  predicate EntryBalanced(l: Ledger, id: TicketId)
    requires id in l.tickets && id in l.granted
  {
    match l.granted[id]
    case None => l.tickets[id].uses == None
    case Some(granted) => l.tickets[id].uses.Some? && Redemptions(l, id) + l.tickets[id].uses.value == granted
  }

  ghost predicate Balanced(l: Ledger) {
    && l.granted.Keys == l.tickets.Keys
    && (forall id :: id in l.tickets ==> EntryBalanced(l, id))
    && (forall id :: id !in l.tickets ==> Redemptions(l, id) == 0)
  }

  lemma RedeemKeepsBalance(l: Ledger, op: Op)
    requires Balanced(l) && op.Redeem?
    ensures Balanced(Post(l, op)) && Post(l, op).granted == l.granted
  {
    var l' := Post(l, op);
    var o := RedeemIn(l.tickets, op.id, op.remote, op.io);
    if o.answer.Ok? {
      RedeemTakesOneUse(l.tickets, op.id, op.remote, op.io);
      assert EntryBalanced(l, op.id);
      forall id | id in l'.tickets
        ensures EntryBalanced(l', id)
      {
        assert EntryBalanced(l, id);
      }
    }
  }

  lemma CommandKeepsBalance(l: Ledger, op: Op)
    requires Balanced(l) && !op.Redeem?
    ensures Balanced(Post(l, op))
    ensures forall id :: id in l.granted ==> id in Post(l, op).granted && Post(l, op).granted[id] == l.granted[id]
  {
    var l' := Post(l, op);
    forall id | id in l'.tickets
      ensures id in l'.granted && EntryBalanced(l', id)
    {
      assert id in l.tickets ==> EntryBalanced(l, id);
    }
    assert forall id :: Redemptions(l', id) == Redemptions(l, id);
  }

  lemma OpKeepsBalance(l: Ledger, op: Op)
    requires Balanced(l)
    ensures Balanced(Post(l, op))
    ensures forall id :: id in l.granted ==> id in Post(l, op).granted && Post(l, op).granted[id] == l.granted[id]
  {
    if op.Redeem? { RedeemKeepsBalance(l, op); } else { CommandKeepsBalance(l, op); }
  }

  /**
    Conservation: after any operations on a store, successful redeems and remaining uses of a counted ticket add up
    to what it was created with, so it is redeemed at most that often.
   */
  lemma {:induction false} UsesAreConserved(l: Ledger, ops: seq<Op>)
    requires Balanced(l)
    ensures Balanced(PostAll(l, ops))
    ensures forall id :: id in l.granted ==>
              id in PostAll(l, ops).granted && PostAll(l, ops).granted[id] == l.granted[id]
    ensures forall id :: id in l.granted && l.granted[id].Some? ==>
              Redemptions(PostAll(l, ops), id) <= l.granted[id].value
    decreases |ops|
  {
    if ops == [] {
      forall id | id in l.granted && l.granted[id].Some?
        ensures Redemptions(l, id) <= l.granted[id].value
      {
        assert EntryBalanced(l, id);
      }
    } else {
      OpKeepsBalance(l, ops[0]);
      UsesAreConserved(Post(l, ops[0]), ops[1..]);
    }
  }

  lemma OpenIsBalanced(tickets: Tickets)
    ensures Balanced(Open(tickets))
  {
  }

  /** A redeem takes exactly one use and nothing else, and only off a ticket that is valid at that moment. */
  lemma RedeemTakesOneUse(tickets: Tickets, id: TicketId, remote: ClientId, io: Io)
    requires RedeemIn(tickets, id, remote, io).answer.Ok?
    ensures var after := RedeemIn(tickets, id, remote, io).tickets;
            && id in tickets && !tickets[id].revoked && io.clock.Some? && io.clock.value < tickets[id].expiresAt
            && (tickets[id].binding.BoundTo? ==> tickets[id].binding.client == remote)
            && after.Keys == tickets.Keys
            && (forall other :: other in tickets && other != id ==> after[other] == tickets[other])
            && (match tickets[id].uses
                case None => after == tickets
                case Some(uses) => uses > 0 && after[id] == tickets[id].(uses := Some(uses - 1)))
  {
  }

  /** When a check lets a client in: all of this, and nothing else, is looked at. */
  predicate LetsIn(record: TicketRecord, remote: ClientId, now: nat) {
    && !record.revoked && now < record.expiresAt && record.uses != Some(0)
    && (record.binding == Unbound || record.binding == BoundTo(remote))
  }

  lemma CheckAcceptsIff(tickets: Tickets, id: TicketId, remote: ClientId, io: Io)
    ensures CheckIn(tickets, id, remote, io).Ok? <==>
              io.loads && id in tickets && io.clock.Some? && LetsIn(tickets[id], remote, io.clock.value)
    ensures CheckIn(tickets, id, remote, io).Ok? ==> CheckIn(tickets, id, remote, io).value == tickets[id]
  {
  }

  /**
    A ticket that was just created lets in whom it was made for until it expires, and as often as it was given uses:
    the first redeem leaves one use less.
   */
  lemma CreatedThenRedeemed(tickets: Tickets, id: TicketId, options: Options, io: Io, remote: ClientId, later: Io)
    requires CreateIn(tickets, id, options, io).answer.Ok?
    ensures var created := CreateIn(tickets, id, options, io).tickets;
            && id !in tickets && created.Keys == tickets.Keys + {id}
            && (forall other :: other in tickets ==> created[other] == tickets[other])
            && (RedeemIn(created, id, remote, later).answer.Ok? <==>
                  && later.loads && later.clock.Some? && later.clock.value < io.clock.value + options.expiresAfter
                  && (options.binding == Unbound || options.binding == BoundTo(remote))
                  && options.uses != Some(0) && (options.uses.Some? ==> later.writes))
  {
    var created := CreateIn(tickets, id, options, io).tickets;
    CheckAcceptsIff(created, id, remote, later);
  }

  /** A ticket is created exactly if nothing is wrong, with just what was asked for; otherwise nothing changes. */
  lemma CreateIff(tickets: Tickets, id: TicketId, options: Options, io: Io)
    ensures var o := CreateIn(tickets, id, options, io);
            && (o.answer.Ok? <==>
                  && io.loads && io.clock.Some? && io.clock.value + options.expiresAfter < 0x1_0000_0000_0000_0000
                  && !options.blankName && !options.binding.Unparsable? && id !in tickets && io.writes)
            && (o.answer.Ok? ==>
                  var record := TicketRecord(io.clock.value, io.clock.value + options.expiresAfter, options.uses,
                                             options.binding, false, options.maxBuildTime, options.maxUploadBytes);
                  o.answer == Ok(record) && o.tickets == tickets[id := record])
            && (o.answer.Err? ==> o.tickets == tickets)
  {
  }

  /** What is told when no ticket is created: the first thing that is wrong, in this order. */
  lemma CreateRefusalTells(tickets: Tickets, id: TicketId, options: Options, io: Io)
    requires CreateIn(tickets, id, options, io).answer.Err?
    ensures var told := CreateIn(tickets, id, options, io).answer.error;
            && told in {LoadFailed, NoClock, ExpiryOverflow, EmptyName, BadBinding, IdCollision, WriteFailed}
            && (told == LoadFailed <==> !io.loads)
            && (told == NoClock <==> io.loads && io.clock == None)
            && (told == ExpiryOverflow <==>
                  io.loads && io.clock.Some? && io.clock.value + options.expiresAfter > 0xFFFF_FFFF_FFFF_FFFF)
            && (told == EmptyName ==> options.blankName)
            && (told == BadBinding ==> options.binding.Unparsable? && !options.blankName)
            && (told == IdCollision ==> id in tickets && !options.binding.Unparsable? && !options.blankName)
            && (told == WriteFailed ==>
                  !io.writes && id !in tickets && !options.binding.Unparsable? && !options.blankName)
  {
  }

  /** A ticket is redeemed exactly if it lets the client in and, where uses are counted, the store can be written. */
  lemma RedeemIff(tickets: Tickets, id: TicketId, remote: ClientId, io: Io)
    ensures var o := RedeemIn(tickets, id, remote, io);
            && (o.answer.Ok? <==>
                  && io.loads && id in tickets && io.clock.Some? && LetsIn(tickets[id], remote, io.clock.value)
                  && (tickets[id].uses.Some? ==> io.writes))
            && (o.answer.Ok? ==> id in o.tickets && o.answer.value == o.tickets[id])
            && (o.answer.Err? ==> o.tickets == tickets)
  {
    CheckAcceptsIff(tickets, id, remote, io);
  }

  /** What a client that is not let in is told: the first thing that is wrong, in this order. */
  lemma RefusalTells(tickets: Tickets, id: TicketId, remote: ClientId, io: Io)
    requires CheckIn(tickets, id, remote, io).Err?
    ensures CheckIn(tickets, id, remote, io).error == LoadFailed <==> !io.loads
    ensures CheckIn(tickets, id, remote, io).error == NotFound <==> io.loads && id !in tickets
    ensures io.loads && id in tickets ==>
            var record, told := tickets[id], CheckIn(tickets, id, remote, io).error;
            && told in {TicketRevoked, NoClock, Expired, BadBinding, OtherClient, NoUsesRemaining}
            && (told == TicketRevoked <==> record.revoked)
            && (told == NoClock <==> !record.revoked && io.clock == None)
            && (told == Expired <==> !record.revoked && io.clock.Some? && record.expiresAt <= io.clock.value)
            && (told == NoUsesRemaining ==> record.uses == Some(0) && record.binding in {Unbound, BoundTo(remote)})
            && (told == OtherClient ==> record.binding.BoundTo? && record.binding.client != remote)
            && (told == BadBinding ==> record.binding.Unparsable?)
  {
  }

  /** A revoke sets the flag of its ticket and changes nothing else; one that fails changes nothing at all. */
  lemma RevokeSetsFlag(tickets: Tickets, id: TicketId, io: Io)
    ensures var o := RevokeIn(tickets, id, io);
            && (o.answer.Ok? <==> io.loads && id in tickets && io.writes)
            && (o.answer.Err? ==> o.tickets == tickets)
            && (o.answer.Ok? ==>
                  && o.tickets.Keys == tickets.Keys && o.answer.value == o.tickets[id]
                  && o.tickets[id].revoked && o.tickets[id].(revoked := tickets[id].revoked) == tickets[id]
                  && (forall other :: other in tickets && other != id ==> o.tickets[other] == tickets[other]))
  {
  }

  lemma RevokedStaysRevoked(l: Ledger, op: Op, id: TicketId)
    requires id in l.tickets && l.tickets[id].revoked
    ensures id in Post(l, op).tickets && Post(l, op).tickets[id].revoked
    ensures Redemptions(Post(l, op), id) == Redemptions(l, id)
  {
  }

  /** From its revocation on, a ticket is never redeemed again. */
  lemma {:induction false} RevocationIsFinal(l: Ledger, ops: seq<Op>, id: TicketId)
    requires id in l.tickets && l.tickets[id].revoked
    ensures id in PostAll(l, ops).tickets && PostAll(l, ops).tickets[id].revoked
    ensures Redemptions(PostAll(l, ops), id) == Redemptions(l, id)
    decreases |ops|
  {
    if ops != [] {
      RevokedStaysRevoked(l, ops[0], id);
      RevocationIsFinal(Post(l, ops[0]), ops[1..], id);
    }
  }

  /** Revoking ends a ticket: once a revoke has succeeded, no client passes a check or a redeem of it ever again. */
  lemma RevokedForGood(l: Ledger, id: TicketId, io: Io, ops: seq<Op>, remote: ClientId, later: Io)
    requires RevokeIn(l.tickets, id, io).answer.Ok?
    ensures var l' := PostAll(Post(l, Revoke(id, io)), ops);
            && CheckIn(l'.tickets, id, remote, later).Err? && RedeemIn(l'.tickets, id, remote, later).answer.Err?
            && (later.loads ==> CheckIn(l'.tickets, id, remote, later) == Err(TicketRevoked))
            && Redemptions(l', id) == Redemptions(l, id)
  {
    RevokeSetsFlag(l.tickets, id, io);
    RevocationIsFinal(Post(l, Revoke(id, io)), ops, id);
  }
}
