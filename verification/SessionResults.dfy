/**
  What holds of every run of a control session: no reader meets a message that it does not accept, nobody waits for a
  peer that waits back, the two ends agree, and every session ends.
 */
module SessionResults {
  import opened Protocol
  import opened ControlSession

  // ---------------------------------------------------------------- main results

  /** Safety: whatever is at the head of a live reader's stream is a message that its code accepts there. */
  lemma HeadsAreAccepted(plan: Plan, s: State)
    requires Reachable(plan, s)
    ensures ClientReads(s.client.pc) && s.toClient != [] ==>
              ClientRead(s.client, s.toClient[0]).pc != ClientEnded(UnexpectedMessage)
    ensures ServerReads(s.server.pc) && s.toServer != [] ==>
              ServerRead(s.plan, s.server, s.toServer[0]).pc != ServerEnded(UnexpectedRequest)
    ensures s.client.pc != ClientEnded(UnexpectedMessage) && s.server.pc != ServerEnded(UnexpectedRequest)
  {
    ReachableInv(plan, s);
    if ClientReads(s.client.pc) && s.toClient != [] {
      ClientReadFollowsView(s);
    }
    if ServerReads(s.server.pc) && s.toServer != [] {
      ServerReadFollowsIntake(s);
    }
  }

  predicate BothEnded(s: State) {
    s.client.pc.ClientEnded? && s.server.pc.ServerEnded?
  }

  /** Two readers with nothing to read never wait for each other. */
  lemma NoMutualWait(s: State)
    requires Inv(s) && ClientReads(s.client.pc) && s.toClient == [] && !s.server.pc.ServerEnded?
    ensures ServerReads(s.server.pc) ==> s.toServer != []
    ensures s.server.pc.AcceptUpload? ==> s.upload.Some?
  {
    assert ClientView(s.client) == Promised(s);
    assert s.toServer == [] ==> ServerIntake(s.server) == Delivered(s);
  }

  /** Progress: until both sides have ended, a step that is no failure is enabled. */
  lemma NeverStuck(plan: Plan, s: State)
    requires Reachable(plan, s) && !BothEnded(s)
    ensures exists step :: Regular(step) && Next(s, step).Some?
  {
    ReachableInv(plan, s);
    if s.client.pc.ClientEnded? {
      assert Regular(ByServer(ServerSeesClose)) && Next(s, ByServer(ServerSeesClose)).Some?;
    } else if !ClientReads(s.client.pc) || s.toClient != [] {
      assert Regular(ByClient(ClientGo)) && Next(s, ByClient(ClientGo)).Some?;
    } else if s.server.pc.ServerEnded? {
      assert Regular(ByClient(ClientSeesClose)) && Next(s, ByClient(ClientSeesClose)).Some?;
    } else {
      NoMutualWait(s);
      assert Regular(ByServer(ServerGo)) && Next(s, ByServer(ServerGo)).Some?;
    }
  }

  /** What a message says about the client and its build, if it does. */
  predicate SpeaksFor(plan: Plan, m: Message) {
    && (m.Hello? ==> m.nodeId == plan.nodeId)
    && (m.AuthTrustedClient? ==> plan.ticket.None?)
    && (m.AuthTicket? ==> plan.ticket == Some(m.secret))
    && (m.BuildRequest? ==> m.installable == plan.installable && m.drvPath == plan.drvPath)
  }

  /** The server is past the messages with which a client introduces itself and asks for a build. */
  predicate PastAuth(pc: ServerPc) {
    match pc
    case ReadHello => false
    case ReadAuth => false
    case ServerEnded(end) => end.Ran? || end.RunFailed?
    case _ => true
  }

  predicate PastRequest(pc: ServerPc) {
    PastAuth(pc) && !pc.Authorize? && !pc.ReadRequest?
  }

  /** What the server knows of the client is the client's own. */
  ghost predicate Introduced(s: State) {
    && (forall m :: m in s.toServer ==> SpeaksFor(s.plan, m))
    && (s.server.offered.Some? ==> s.server.offered.value == s.plan.ticket)
    && (s.server.asked.Some? ==> s.server.asked.value == (s.plan.installable, s.plan.drvPath))
    && (PastAuth(s.server.pc) ==> s.server.offered.Some?)
    && (PastRequest(s.server.pc) ==> s.server.asked.Some?)
  }

  lemma ClientStepIntroduces(s: State, act: ClientAct, s': State)
    requires Introduced(s) && ClientNext(s, act) == Some(s')
    ensures Introduced(s')
  {
  }

  lemma ServerReadIntroduces(s: State, s': State)
    requires Introduced(s) && ServerReads(s.server.pc) && ServerGoes(s) == Some(s')
    ensures Introduced(s')
  {
    assert SpeaksFor(s.plan, s.toServer[0]);
  }

  lemma ServerStepIntroduces(s: State, act: ServerAct, s': State)
    requires Introduced(s) && ServerNext(s, act) == Some(s')
    ensures Introduced(s')
  {
    if act == ServerGo && ServerReads(s.server.pc) {
      ServerReadIntroduces(s, s');
    }
  }

  lemma {:induction false} RunIntroduces(s: State, run: seq<Step>)
    requires Introduced(s) && Exec(s, run).Some?
    ensures Introduced(Exec(s, run).value)
    decreases |run|
  {
    if run != [] {
      var s' := Next(s, run[0]).value;
      match run[0] {
        case ByClient(act) => ClientStepIntroduces(s, act, s');
        case ByServer(act) => ServerStepIntroduces(s, act, s');
      }
      RunIntroduces(s', run[1..]);
    }
  }

  /**
    Introduction: a client without a ticket announces itself as trusted and one with a ticket sends its secret; a
    server that has let a client in was offered just that, and one that builds was asked for the client's own build.
   */
  lemma ClientIsIntroduced(plan: Plan, s: State)
    requires Reachable(plan, s)
    ensures PastAuth(s.server.pc) ==> s.server.offered == Some(plan.ticket)
    ensures PastRequest(s.server.pc) ==> s.server.asked == Some((plan.installable, plan.drvPath))
    ensures AuthTrustedClient in s.toServer ==> plan.ticket == None
    ensures forall secret :: AuthTicket(secret) in s.toServer ==> plan.ticket == Some(secret)
    ensures s.server.offered in {None, Some(plan.ticket)}
  {
    var run :| Exec(Init(plan), run) == Some(s);
    RunKeepsPlan(Init(plan), run);
    RunIntroduces(Init(plan), run);
    assert AuthTrustedClient in s.toServer ==> SpeaksFor(plan, AuthTrustedClient);
    assert forall secret :: AuthTicket(secret) in s.toServer ==> SpeaksFor(plan, AuthTicket(secret));
  }

  /** Agreement: what one end reports about the session is what happened at the other end. */
  lemma EndsAgree(plan: Plan, s: State)
    requires Reachable(plan, s)
    ensures s.plan == plan
    ensures s.client.pc == ClientEnded(Succeeded) ==>
              && s.server.pc == ServerEnded(Ran(true)) && plan.success
              && s.server.offered == Some(plan.ticket) && s.server.asked == Some((plan.installable, plan.drvPath))
              && s.client.logs == plan.logs && s.client.closure == plan.outputClosure
              && s.server.closure == plan.closure && s.server.request == plan.wanted
    ensures s.client.pc == ClientEnded(RemoteFailed) ==>
              s.server.pc == ServerEnded(Ran(false)) && !plan.success && s.client.logs == plan.logs
    ensures s.upload.Some? ==> s.upload.value == plan.missing && plan.missing != []
    ensures s.client.logs <= plan.logs && s.server.request <= plan.wanted && s.server.closure <= plan.closure
    ensures s.client.missing <= plan.missing && s.client.closure <= plan.outputClosure
    ensures PastAuth(s.server.pc) ==> s.server.offered == Some(plan.ticket)
  {
    ReachableInv(plan, s);
    ClientIsIntroduced(plan, s);
    var run :| Exec(Init(plan), run) == Some(s);
    RunKeepsPlan(Init(plan), run);
  }

  lemma {:induction false} RunKeepsPlan(s: State, run: seq<Step>)
    requires Exec(s, run).Some?
    ensures Exec(s, run).value.plan == s.plan
    decreases |run|
  {
    if run != [] {
      RunKeepsPlan(Next(s, run[0]).value, run[1..]);
    }
  }

  /** The import has failed, and the client is on its way to say so. */
  predicate ImportLost(s: State) {
    s.client.pc in {SendCacheDone(false), ReadServerDone(false), ClientEnded(Aborted)}
  }

  lemma {:induction false} ImportStaysLost(s: State, run: seq<Step>)
    requires ImportLost(s) && Exec(s, run).Some?
    ensures ImportLost(Exec(s, run).value)
    decreases |run|
  {
    if run != [] {
      ImportStaysLost(Next(s, run[0]).value, run[1..]);
    }
  }

  /** A failed import is reported: whatever the server answers, the client does not end with success after it. */
  lemma {:induction false} FailedImportIsReported(s: State, run: seq<Step>)
    requires Exec(s, run).Some? && ByClient(ImportFails) in run
    ensures Exec(s, run).value.client.pc.ClientEnded? ==> Exec(s, run).value.client.pc.end == Aborted
    ensures Exec(s, run).value.client.pc != ReadServerDone(true)
    decreases |run|
  {
    var s' := Next(s, run[0]).value;
    if run[0] == ByClient(ImportFails) {
      ImportStaysLost(s', run[1..]);
    } else {
      FailedImportIsReported(s', run[1..]);
    }
  }

  /** In the course of the run the client has imported the outputs. */
  predicate ImportedIn(s: State, run: seq<Step>)
    requires Exec(s, run).Some?
    decreases |run|
  {
    run != []
    && ((s.client.pc == Import && run[0] == ByClient(ClientGo)) || ImportedIn(Next(s, run[0]).value, run[1..]))
  }

  predicate PastImport(pc: ClientPc) {
    pc == SendCacheDone(true) || pc == ReadServerDone(true)
  }

  lemma ReadIsNotPastImport(s: State)
    requires Inv(s) && ClientReads(s.client.pc) && s.toClient != [] && s.plan.wanted != [] && !PastImport(s.client.pc)
    ensures var pc := ClientRead(s.client, s.toClient[0]).pc; !PastImport(pc) && pc != ClientEnded(Succeeded)
  {
    ClientReadFollowsView(s);
  }

  lemma WriteIsNotPastImport(s: State, s': State)
    requires !ClientReads(s.client.pc) && ClientGoes(s) == Some(s') && s.client.pc != Import
    requires !PastImport(s.client.pc) && s.client.pc != ClientEnded(Succeeded)
    ensures !PastImport(s'.client.pc) && s'.client.pc != ClientEnded(Succeeded)
  {
  }

  lemma StepPastImport(s: State, step: Step, s': State)
    requires Inv(s) && Next(s, step) == Some(s') && s.plan.wanted != [] && !PastImport(s.client.pc)
    requires s.client.pc != ClientEnded(Succeeded) && !(s.client.pc == Import && step == ByClient(ClientGo))
    ensures !PastImport(s'.client.pc) && s'.client.pc != ClientEnded(Succeeded)
  {
    if step == ByClient(ClientGo) {
      if ClientReads(s.client.pc) {
        ReadIsNotPastImport(s);
      } else {
        WriteIsNotPastImport(s, s');
      }
    } else if step.ByServer? {
      ServerStepLowersRank(s, step.serverAct, s');
    }
  }

  lemma {:induction false} SuccessHasImported(s: State, run: seq<Step>)
    requires Inv(s) && Exec(s, run).Some? && s.plan.wanted != []
    requires !PastImport(s.client.pc) && s.client.pc != ClientEnded(Succeeded)
    ensures var pc := Exec(s, run).value.client.pc;
            PastImport(pc) || pc == ClientEnded(Succeeded) ==> ImportedIn(s, run)
    decreases |run|
  {
    if run != [] && !(s.client.pc == Import && run[0] == ByClient(ClientGo)) {
      var s' := Next(s, run[0]).value;
      StepKeepsInv(s, run[0], s');
      StepPastImport(s, run[0], s');
      RunKeepsPlan(s, [run[0]]);
      assert Exec(s, [run[0]]) == Exec(s', []);
      SuccessHasImported(s', run[1..]);
    }
  }

  /** A client that wanted outputs reports success only if it has imported them. */
  lemma SuccessMeansImported(plan: Plan, run: seq<Step>)
    requires Exec(Init(plan), run).Some? && plan.wanted != []
    requires Exec(Init(plan), run).value.client.pc == ClientEnded(Succeeded)
    ensures ImportedIn(Init(plan), run)
  {
    InitInv(plan);
    SuccessHasImported(Init(plan), run);
  }

  // ---------------------------------------------------------------- termination

  /** More than the steps a client at this point can still take, with two for each message it writes. */
  function ClientRank(plan: Plan, pc: ClientPc): nat {
    var request := 2 * ChunkCount(plan.wanted);
    match pc
    case ClientEnded(_) => 0
    case ReadServerDone(_) => 1
    case SendCacheDone(_) => 3
    case Import => 4
    case ReadCache => 5
    case SendOutputRequest(sent) => if sent <= |plan.wanted| then 5 + 2 * ChunkCount(plan.wanted[sent..]) else 5
    case ReadClosure => 6 + request
    case ReadBuild => 7 + request
    case Upload => 8 + request
    case ReadUploadReady => 9 + request
    case ReadMissing => 10 + request
    case ReadQueued => 11 + request
    case SendPaths(sent) =>
      11 + request + (if sent <= |plan.closure| then 2 * ChunkCount(plan.closure[sent..]) else 0)
    case SendRequest => 13 + request + 2 * ChunkCount(plan.closure)
    case Prepare => 14 + request + 2 * ChunkCount(plan.closure)
    case ReadAuthOk => 15 + request + 2 * ChunkCount(plan.closure)
    case WriteAuth => 17 + request + 2 * ChunkCount(plan.closure)
    case WriteHello => 19 + request + 2 * ChunkCount(plan.closure)
  }

  function ServerRank(plan: Plan, pc: ServerPc): nat {
    var outputs := 2 * ChunkCount(plan.outputClosure);
    var logs := 2 * |plan.logs|;
    var inputs := 2 * ChunkCount(plan.missing);
    match pc
    case ServerEnded(_) => 0
    case SendDone => 2
    case ServeCache => 3
    case SendReady => 5
    case ReadOutputRequest => 6
    case SendClosure(sent) =>
      if sent <= |plan.outputClosure| then 6 + 2 * ChunkCount(plan.outputClosure[sent..]) else 6
    case SendFinished => 8 + outputs
    case StreamLogs(sent) => 9 + outputs + (if sent <= |plan.logs| then 2 * (|plan.logs| - sent) else 0)
    case SendStarted => 11 + outputs + logs
    case AcceptUpload => 12 + outputs + logs
    case SendUploadReady => 14 + outputs + logs
    case SendMissing(sent) =>
      14 + outputs + logs + (if sent <= |plan.missing| then 2 * ChunkCount(plan.missing[sent..]) else 0)
    case AwaitPermit => 15 + outputs + logs + inputs
    case WriteQueued => 17 + outputs + logs + inputs
    case Redeem => 18 + outputs + logs + inputs
    case ReadPaths => 19 + outputs + logs + inputs
    case ReadRequest => 20 + outputs + logs + inputs
    case Authorize => 22 + outputs + logs + inputs
    case ReadAuth => 23 + outputs + logs + inputs
    case ReadHello => 24 + outputs + logs + inputs
  }

  function Rank(s: State): nat {
    ClientRank(s.plan, s.client.pc) + ServerRank(s.plan, s.server.pc) + |s.toClient| + |s.toServer|
  }

  lemma ClientReadLowersRank(plan: Plan, c: Client, m: Message)
    requires ClientReads(c.pc)
    ensures ClientRank(plan, ClientRead(c, m).pc) <= ClientRank(plan, c.pc)
  {
    assert plan.wanted[0..] == plan.wanted;
  }

  lemma ClientWriteLowersRank(s: State, s': State)
    requires !ClientReads(s.client.pc) && ClientGoes(s) == Some(s')
    ensures ClientRank(s.plan, s'.client.pc) + 2 * (|s'.toServer| - |s.toServer|) <= ClientRank(s.plan, s.client.pc)
    ensures s'.toServer != s.toServer || ClientRank(s.plan, s'.client.pc) < ClientRank(s.plan, s.client.pc)
    ensures |s.toServer| <= |s'.toServer| && s'.toClient == s.toClient && s'.plan == s.plan && s'.server == s.server
  {
    match s.client.pc {
      case SendPaths(sent) => if !IsLastChunk(s.plan.closure[sent..]) { FewerChunks(s.plan.closure, sent); }
      case SendOutputRequest(sent) => if !IsLastChunk(s.plan.wanted[sent..]) { FewerChunks(s.plan.wanted, sent); }
      case SendRequest => assert s.plan.closure[0..] == s.plan.closure;
      case _ =>
    }
  }

  lemma ClientStepLowersRank(s: State, act: ClientAct, s': State)
    requires ClientNext(s, act) == Some(s')
    ensures ClientRank(s.plan, s'.client.pc) + |s'.toServer| + |s'.toClient|
            < ClientRank(s.plan, s.client.pc) + |s.toServer| + |s.toClient|
    ensures s'.plan == s.plan && s'.server == s.server
  {
    if act == ClientGo {
      if ClientReads(s.client.pc) {
        ClientReadLowersRank(s.plan, s.client, s.toClient[0]);
      } else {
        ClientWriteLowersRank(s, s');
      }
    } else {
      assert ClientRank(s.plan, s.client.pc) > 0;
    }
  }

  lemma ServerReadLowersRank(plan: Plan, v: Server, m: Message)
    requires ServerReads(v.pc)
    ensures ServerRank(plan, ServerRead(plan, v, m).pc) <= ServerRank(plan, v.pc)
  {
  }

  /** Sending a head chunk leaves one chunk less to send. */
  lemma FewerChunks(paths: seq<Path>, sent: nat)
    requires sent <= |paths| && !IsLastChunk(paths[sent..])
    ensures sent + |HeadChunk(paths[sent..])| <= |paths|
    ensures ChunkCount(paths[sent..]) == 1 + ChunkCount(paths[sent + |HeadChunk(paths[sent..])|..])
  {
    HeadChunkAdvances(paths, sent);
  }

  lemma ServerListWriteLowersRank(s: State, s': State)
    requires (s.server.pc.SendMissing? || s.server.pc.SendClosure?) && ServerGoes(s) == Some(s')
    ensures ServerRank(s.plan, s'.server.pc) + 2 <= ServerRank(s.plan, s.server.pc)
    ensures |s'.toClient| == |s.toClient| + 1
  {
    var paths := if s.server.pc.SendMissing? then s.plan.missing else s.plan.outputClosure;
    if !IsLastChunk(paths[s.server.pc.sent..]) {
      FewerChunks(paths, s.server.pc.sent);
    }
  }

  lemma ServerWriteLowersRank(s: State, s': State)
    requires !ServerReads(s.server.pc) && ServerGoes(s) == Some(s')
    requires !s.server.pc.SendMissing? && !s.server.pc.SendClosure?
    ensures ServerRank(s.plan, s'.server.pc) + 2 * (|s'.toClient| - |s.toClient|) <= ServerRank(s.plan, s.server.pc)
    ensures s'.toClient != s.toClient || ServerRank(s.plan, s'.server.pc) < ServerRank(s.plan, s.server.pc)
    ensures |s.toClient| <= |s'.toClient|
  {
    match s.server.pc {
      case AwaitPermit => assert s.plan.missing[0..] == s.plan.missing;
      case SendFinished => assert s.plan.outputClosure[0..] == s.plan.outputClosure;
      case _ =>
    }
  }

  lemma ServerStepLowersRank(s: State, act: ServerAct, s': State)
    requires ServerNext(s, act) == Some(s')
    ensures ServerRank(s.plan, s'.server.pc) + |s'.toServer| + |s'.toClient|
            < ServerRank(s.plan, s.server.pc) + |s.toServer| + |s.toClient|
    ensures s'.plan == s.plan && s'.client == s.client
  {
    if act == ServerGo {
      ServerGoFrame(s, s');
      if ServerReads(s.server.pc) {
        ServerReadLowersRank(s.plan, s.server, s.toServer[0]);
      } else if s.server.pc.SendMissing? || s.server.pc.SendClosure? {
        ServerListWriteLowersRank(s, s');
      } else {
        ServerWriteLowersRank(s, s');
      }
    } else {
      assert ServerRank(s.plan, s.server.pc) > 1;
    }
  }

  /** Termination: no run of a session is longer than the rank of its first state. */
  lemma {:induction false} RunsAreBounded(s: State, run: seq<Step>)
    requires Exec(s, run).Some?
    ensures |run| + Rank(Exec(s, run).value) <= Rank(s)
    decreases |run|
  {
    if run != [] {
      var s' := Next(s, run[0]).value;
      match run[0] {
        case ByClient(act) => ClientStepLowersRank(s, act, s');
        case ByServer(act) => ServerStepLowersRank(s, act, s');
      }
      RunsAreBounded(s', run[1..]);
    }
  }

  lemma {:induction false} ExecAppend(s: State, run: seq<Step>, step: Step)
    requires Exec(s, run).Some?
    ensures Exec(s, run + [step]) == Next(Exec(s, run).value, step)
    decreases |run|
  {
    if run == [] {
      assert run + [step] == [step];
      match Next(s, step) {
        case None =>
        case Some(s') => assert Exec(s', []) == Some(s');
      }
    } else {
      assert (run + [step])[1..] == run[1..] + [step];
      ExecAppend(Next(s, run[0]).value, run[1..], step);
    }
  }

  /** From any reachable state, regular steps alone lead to a state where both sides have ended. */
  lemma {:induction false} RegularStepsFinish(plan: Plan, s: State) returns (rest: seq<Step>)
    requires Reachable(plan, s)
    ensures forall i :: 0 <= i < |rest| ==> Regular(rest[i])
    ensures Exec(s, rest).Some? && BothEnded(Exec(s, rest).value)
    decreases Rank(s)
  {
    if BothEnded(s) {
      rest := [];
    } else {
      NeverStuck(plan, s);
      var step :| Regular(step) && Next(s, step).Some?;
      var s' := Next(s, step).value;
      var run :| Exec(Init(plan), run) == Some(s);
      ExecAppend(Init(plan), run, step);
      match step {
        case ByClient(act) => ClientStepLowersRank(s, act, s');
        case ByServer(act) => ServerStepLowersRank(s, act, s');
      }
      var more := RegularStepsFinish(plan, s');
      rest := [step] + more;
      assert rest[1..] == more;
    }
  }

  // ---------------------------------------------------------------- inputs

  /** The server is past the point where it waits for the inputs that it misses. */
  predicate PastInputs(pc: ServerPc) {
    match pc
    case SendStarted => true
    case StreamLogs(_) => true
    case SendFinished => true
    case SendClosure(_) => true
    case ReadOutputRequest => true
    case SendReady => true
    case ServeCache => true
    case SendDone => true
    case ServerEnded(end) => end.Ran?
    case _ => false
  }

  predicate HasInputs(s: State) {
    PastInputs(s.server.pc) && s.plan.missing != [] ==> s.upload.Some?
  }

  lemma ClientStepKeepsInputs(s: State, act: ClientAct, s': State)
    requires HasInputs(s) && ClientNext(s, act) == Some(s')
    ensures HasInputs(s')
  {
  }

  lemma ServerStepKeepsInputs(s: State, act: ServerAct, s': State)
    requires HasInputs(s) && ServerNext(s, act) == Some(s')
    ensures HasInputs(s')
  {
  }

  lemma {:induction false} RunKeepsInputs(s: State, run: seq<Step>)
    requires HasInputs(s) && Exec(s, run).Some?
    ensures HasInputs(Exec(s, run).value)
    decreases |run|
  {
    if run != [] {
      var s' := Next(s, run[0]).value;
      match run[0] {
        case ByClient(act) => ClientStepKeepsInputs(s, act, s');
        case ByServer(act) => ServerStepKeepsInputs(s, act, s');
      }
      RunKeepsInputs(s', run[1..]);
    }
  }

  /** A build starts only when all inputs that the server misses have been uploaded. */
  lemma BuildHasItsInputs(plan: Plan, s: State)
    requires Reachable(plan, s) && PastInputs(s.server.pc)
    ensures s.upload == if plan.missing == [] then None else Some(plan.missing)
  {
    var run :| Exec(Init(plan), run) == Some(s);
    ReachableInv(plan, s);
    RunKeepsPlan(Init(plan), run);
    RunKeepsInputs(Init(plan), run);
  }

  // ---------------------------------------------------------------- failures

  /** Where the server refuses a client or fails to run its build, the client is sent an error, and that is the last. */
  lemma FailureIsSent(s: State)
    requires s.server.pc in {Authorize, ReadPaths, Redeem, AwaitPermit} || InRun(s.server.pc)
    ensures exists act, end :: act in {ServerRejects, ServerFails} && end in {Rejected, RunFailed}
              && Next(s, ByServer(act)) == Some(ServerSends(s, Error(""), ServerEnded(end)))
  {
    if InRun(s.server.pc) {
      assert Next(s, ByServer(ServerFails)) == Some(ServerSends(s, Error(""), ServerEnded(RunFailed)));
    } else {
      assert Next(s, ByServer(ServerRejects)) == Some(ServerSends(s, Error(""), ServerEnded(Rejected)));
    }
  }

  /** The client can give up at any point, and the server can drop a client that it has not let in or charged yet. */
  lemma EitherSideCanGiveUp(s: State)
    ensures !s.client.pc.ClientEnded? ==> Next(s, ByClient(ClientAborts)) == Some(ClientTo(s, ClientEnded(Aborted)))
    ensures s.server.pc in {ReadHello, ReadAuth, Authorize, ReadRequest, Redeem} ==>
              Next(s, ByServer(ServerDrops)) == Some(ServerTo(s, ServerEnded(Dropped)))
  {
  }

  /** The inside of a run is all from the first chunk of missing paths to the last message. */
  lemma RunIsBetween(s: State)
    requires !s.server.pc.ServerEnded?
    ensures InRun(s.server.pc) <==>
              s.server.pc !in {ReadHello, ReadAuth, Authorize, ReadRequest, ReadPaths, Redeem, WriteQueued, AwaitPermit}
  {
  }

  /** Whatever client reads that error is told so and ends, unless its own import has failed already. */
  lemma ErrorIsReported(c: Client, message: string)
    requires ClientReads(c.pc) && c.pc != ReadServerDone(false)
    ensures ClientRead(c, Error(message)).pc == ClientEnded(ServerSaidError)
  {
  }

  // ---------------------------------------------------------------- sessions without failures

  /** Nothing has failed so far. */
  predicate Undisturbed(s: State) {
    && (s.client.pc.ClientEnded? ==> s.client.pc.end in {Succeeded, RemoteFailed})
    && (s.server.pc.ServerEnded? ==> s.server.pc.end.Ran?)
    && s.client.pc != SendCacheDone(false) && s.client.pc != ReadServerDone(false)
  }

  ghost predicate OnlyProper(run: seq<Step>) {
    forall step :: step in run ==> Proper(step)
  }

  lemma ReadDoesNotAbort(c: Client, m: Message)
    requires ClientReads(c.pc) && c.pc != ReadServerDone(false)
    ensures var pc := ClientRead(c, m).pc;
            pc != SendCacheDone(false) && pc != ReadServerDone(false) && pc != ClientEnded(Aborted)
  {
  }

  lemma OverStageTells(pc: ClientPc)
    requires pc.ClientEnded? && ClientStage(pc) != Over(Failed)
    ensures pc.end in {Succeeded, RemoteFailed}
  {
  }

  /** A message that ends the client's side is the last one, and brings it to what the server has promised. */
  lemma OverIsPromised(s: State)
    requires Inv(s) && Undisturbed(s) && ClientReads(s.client.pc) && s.toClient != []
    ensures var fed := Feed(s.plan, ClientView(s.client), s.toClient[0]);
            fed.Some? && (fed.value.stage.Over? && s.toClient[1..] == [] ==> fed.value == Promised(s))
  {
    var fed := FirstIsFed(s.plan, ClientView(s.client), s.toClient);
  }

  lemma ProperReadStaysUndisturbed(s: State)
    requires Inv(s) && Undisturbed(s) && ClientReads(s.client.pc) && s.toClient != []
    ensures var pc := ClientRead(s.client, s.toClient[0]).pc;
            && (pc.ClientEnded? ==> pc.end in {Succeeded, RemoteFailed})
            && pc != SendCacheDone(false) && pc != ReadServerDone(false)
  {
    ReadDoesNotAbort(s.client, s.toClient[0]);
    var pc := ClientRead(s.client, s.toClient[0]).pc;
    if pc.ClientEnded? {
      ClientReadFollowsView(s);
      OverIsPromised(s);
      UndisturbedPromise(s);
      OverStageTells(pc);
    }
  }

  /** An undisturbed server promises no failure. */
  lemma UndisturbedPromise(s: State)
    requires ServerIndexOk(s) && Undisturbed(s)
    ensures Promised(s).stage != Over(Failed)
  {
  }

  lemma ProperStepStaysUndisturbed(s: State, step: Step, s': State)
    requires Inv(s) && Undisturbed(s) && Proper(step) && Next(s, step) == Some(s')
    ensures Undisturbed(s')
  {
    if step.ByClient? {
      if ClientReads(s.client.pc) { ProperReadStaysUndisturbed(s); }
    } else if ServerReads(s.server.pc) {
      ServerReadFollowsIntake(s);
    }
  }

  lemma {:induction false} ProperRunStaysUndisturbed(s: State, run: seq<Step>)
    requires Inv(s) && Undisturbed(s) && Exec(s, run).Some? && OnlyProper(run)
    ensures Undisturbed(Exec(s, run).value)
    decreases |run|
  {
    if run != [] {
      var s' := Next(s, run[0]).value;
      assert Proper(run[0]);
      StepKeepsInv(s, run[0], s');
      ProperStepStaysUndisturbed(s, run[0], s');
      ProperRunStaysUndisturbed(s', run[1..]);
    }
  }

  /**
    Without failures the schedule does not matter: every run of proper steps that cannot be continued has
    ended at both sides, with the build's own result, all lists delivered and both streams drained.
   */
  lemma UndisturbedSessionCompletes(plan: Plan, run: seq<Step>)
    requires Exec(Init(plan), run).Some? && OnlyProper(run)
    requires forall step :: Proper(step) ==> Next(Exec(Init(plan), run).value, step) == None
    ensures var s := Exec(Init(plan), run).value;
            && s.client.pc == ClientEnded(if plan.success then Succeeded else RemoteFailed)
            && s.server.pc == ServerEnded(Ran(plan.success))
            && s.client.logs == plan.logs && s.client.missing == plan.missing
            && s.server.closure == plan.closure
            && (plan.success ==> s.client.closure == plan.outputClosure && s.server.request == plan.wanted)
            && s.upload == (if plan.missing == [] then None else Some(plan.missing))
  {
    var s := Exec(Init(plan), run).value;
    InitInv(plan);
    RunKeepsInv(Init(plan), run);
    RunKeepsPlan(Init(plan), run);
    ProperRunStaysUndisturbed(Init(plan), run);
    assert Proper(ByClient(ClientGo)) && Proper(ByServer(ServerGo));
    assert Next(s, ByClient(ClientGo)) == None && Next(s, ByServer(ServerGo)) == None;
    if !s.client.pc.ClientEnded? {
      assert ClientReads(s.client.pc) && s.toClient == [];
      if !s.server.pc.ServerEnded? {
        NoMutualWait(s);
      }
    }
  }
}
