/**
  A server and a client that talk to anybody: whatever the peer sends, and whenever, each side holds it to the
  protocol.  What a side has by the time it comes to a point of its code is what it was sent, in the one order that
  the protocol has.
 */
module SessionPeers {
  import opened Protocol
  import opened ControlSession

  // ---------------------------------------------------------------- path lists as they come

  function Flat(messages: seq<Message>): seq<Path> {
    if messages == [] then []
    else Flat(messages[..|messages| - 1]) + PathsOf(messages[|messages| - 1])
  }

  function PathsOf(m: Message): seq<Path> {
    if m.PathList? then m.paths else []
  }

  /** Chunks of one list: these paths, and a last chunk, if any, that says so. */
  predicate IsChunked(kind: PathListKind, messages: seq<Message>, paths: seq<Path>, done: bool) {
    && (forall i :: 0 <= i < |messages| ==> messages[i].PathList? && messages[i].kind == kind)
    && (forall i :: 0 <= i < |messages| ==> (messages[i].done <==> done && i == |messages| - 1))
    && (done ==> messages != [])
    && paths == Flat(messages)
  }

  lemma OneMoreChunk(kind: PathListKind, messages: seq<Message>, paths: seq<Path>, m: Message)
    requires IsChunked(kind, messages, paths, false) && m.PathList? && m.kind == kind
    ensures IsChunked(kind, messages + [m], paths + m.paths, m.done)
  {
    assert (messages + [m])[..|messages|] == messages;
  }

  // ---------------------------------------------------------------- a server and any client

  /** The client sends a message or uploads inputs, or the server does something. */
  datatype ClientStep = Sends(m: Message) | Uploads(paths: seq<Path>) | ServerDoes(act: ServerAct)

  function NextWithClient(s: State, step: ClientStep): Option<State> {
    match step
    case Sends(m) => Some(s.(toServer := s.toServer + [m]))
    case Uploads(paths) => Some(s.(upload := Some(paths)))
    case ServerDoes(act) => ServerNext(s, act)
  }

  function ExecWithClient(s: State, run: seq<ClientStep>): Option<State>
    decreases |run|
  {
    if run == [] then Some(s)
    else match NextWithClient(s, run[0])
      case None => None
      case Some(s') => ExecWithClient(s', run[1..])
  }

  function SentInClientStep(step: ClientStep): seq<Message> {
    if step.Sends? then [step.m] else []
  }

  function SentByClient(run: seq<ClientStep>): seq<Message> {
    if run == [] then [] else SentInClientStep(run[0]) + SentByClient(run[1..])
  }

  /** Hello of this version with the peer's own id, then how it asks to be let in. */
  predicate IsGreeting(plan: Plan, taken: seq<Message>, offered: Option<Option<string>>) {
    && |taken| == 2 && taken[0] == Hello(5, plan.nodeId)
    && match offered
       case None => false
       case Some(None) => taken[1] == AuthTrustedClient
       case Some(Some(secret)) => taken[1] == AuthTicket(secret)
  }

  /** The greeting, then the request for a build. */
  predicate IsOpening(plan: Plan, taken: seq<Message>, v: Server) {
    |taken| == 3 && IsGreeting(plan, taken[..2], v.offered)
    && v.asked.Some? && taken[2] == BuildRequest(v.asked.value.0, v.asked.value.1)
  }

  /** The opening and the closure, as far as it has come. */
  predicate HasClosure(plan: Plan, taken: seq<Message>, v: Server, done: bool) {
    |taken| >= 3 && IsOpening(plan, taken[..3], v) && IsChunked(BuildPaths, taken[3..], v.closure, done)
  }

  /** All that, then the request for outputs, as far as it has come. */
  ghost predicate HasRequest(plan: Plan, taken: seq<Message>, v: Server, done: bool) {
    exists n: nat :: SplitsAt(plan, taken, v, done, n)
  }

  predicate SplitsAt(plan: Plan, taken: seq<Message>, v: Server, done: bool, n: nat) {
    n <= |taken| && HasClosure(plan, taken[..n], v, true) && IsChunked(OutputRequest, taken[n..], v.request, done)
  }

  /** What a server at this point has taken off its stream. */
  ghost predicate Took(plan: Plan, v: Server, taken: seq<Message>) {
    match v.pc
    case ReadHello => taken == [] && v == Server(ReadHello, None, None, [], [])
    case ReadAuth => taken == [Hello(5, plan.nodeId)] && v == Server(ReadAuth, None, None, [], [])
    case Authorize => IsGreeting(plan, taken, v.offered) && v.closure == [] && v.request == []
    case ReadRequest => IsGreeting(plan, taken, v.offered) && v.closure == [] && v.request == []
    case ReadPaths => HasClosure(plan, taken, v, false) && v.request == []
    case ReadOutputRequest => HasRequest(plan, taken, v, false)
    case SendReady => HasRequest(plan, taken, v, true) && v.request != []
    case ServeCache => HasRequest(plan, taken, v, true) && v.request != []
    case SendDone => IsServed(plan, v, taken)
    case ServerEnded(Ran(true)) => IsServed(plan, v, taken)
    case ServerEnded(Ran(false)) => HasClosure(plan, taken, v, true)
    case ServerEnded(_) => true
    case _ => HasClosure(plan, taken, v, true) && v.request == []
  }

  /** Nothing requested, or everything that was requested is said to be copied. */
  ghost predicate IsServed(plan: Plan, v: Server, taken: seq<Message>) {
    if v.request == [] then HasRequest(plan, taken, v, true)
    else taken != [] && taken[|taken| - 1] == OutputCacheDone && HasRequest(plan, taken[..|taken| - 1], v, true)
  }

  lemma OpeningReadTakes(plan: Plan, v: Server, m: Message, taken: seq<Message>)
    requires Took(plan, v, taken) && (v.pc.ReadHello? || v.pc.ReadAuth? || v.pc.ReadRequest?)
    ensures Took(plan, ServerRead(plan, v, m), taken + [m])
  {
    assert (taken + [m])[..|taken|] == taken;
    if v.pc.ReadRequest? {
      assert (taken + [m])[..3] == taken + [m];
      assert (taken + [m])[3..] == [];
    }
  }

  lemma ClosureReadTakes(plan: Plan, v: Server, m: Message, taken: seq<Message>)
    requires Took(plan, v, taken) && v.pc.ReadPaths?
    ensures Took(plan, ServerRead(plan, v, m), taken + [m])
  {
    if m.PathList? && m.kind.BuildPaths? {
      OneMoreChunk(BuildPaths, taken[3..], v.closure, m);
      assert (taken + [m])[..3] == taken[..3] && (taken + [m])[3..] == taken[3..] + [m];
    }
  }

  lemma RequestReadTakes(plan: Plan, v: Server, m: Message, taken: seq<Message>)
    requires Took(plan, v, taken) && v.pc.ReadOutputRequest?
    ensures Took(plan, ServerRead(plan, v, m), taken + [m])
  {
    var n: nat :| SplitsAt(plan, taken, v, false, n);
    if m.PathList? && m.kind.OutputRequest? {
      var v' := ServerRead(plan, v, m);
      OneMoreChunk(OutputRequest, taken[n..], v.request, m);
      assert (taken + [m])[..n] == taken[..n] && (taken + [m])[n..] == taken[n..] + [m];
      assert SplitsAt(plan, taken + [m], v', m.done, n);
    }
  }

  lemma CopiedReadTakes(plan: Plan, v: Server, m: Message, taken: seq<Message>)
    requires Took(plan, v, taken) && v.pc.ServeCache?
    ensures Took(plan, ServerRead(plan, v, m), taken + [m])
  {
    var n: nat :| SplitsAt(plan, taken, v, true, n);
    assert SplitsAt(plan, taken, v.(pc := SendDone), true, n);
    assert (taken + [m])[..|taken|] == taken;
  }

  lemma ListReadTakes(plan: Plan, v: Server, m: Message, taken: seq<Message>)
    requires Took(plan, v, taken) && (v.pc.ReadPaths? || v.pc.ReadOutputRequest?)
    ensures Took(plan, ServerRead(plan, v, m), taken + [m])
  {
    if v.pc.ReadPaths? {
      ClosureReadTakes(plan, v, m, taken);
    } else {
      RequestReadTakes(plan, v, m, taken);
    }
  }

  lemma ReadTakes(plan: Plan, v: Server, m: Message, taken: seq<Message>)
    requires Took(plan, v, taken) && ServerReads(v.pc)
    ensures Took(plan, ServerRead(plan, v, m), taken + [m])
  {
    if v.pc.ReadPaths? || v.pc.ReadOutputRequest? {
      ListReadTakes(plan, v, m, taken);
    } else if v.pc.ServeCache? {
      CopiedReadTakes(plan, v, m, taken);
    } else {
      OpeningReadTakes(plan, v, m, taken);
    }
  }

  /** The points at which the server has the closure and no request yet, and does not read. */
  predicate AtWork(pc: ServerPc) {
    !ServerReads(pc) && !pc.Authorize? && !pc.SendReady? && !pc.SendDone? && !pc.ServerEnded?
  }

  lemma WorkTakes(s: State, s': State, taken: seq<Message>)
    requires Took(s.plan, s.server, taken) && AtWork(s.server.pc) && ServerGoes(s) == Some(s')
    ensures Took(s'.plan, s'.server, taken)
  {
    if s'.server.pc.ReadOutputRequest? {
      assert taken[..|taken|] == taken && taken[|taken|..] == [];
      assert SplitsAt(s'.plan, taken, s'.server, false, |taken|);
    }
  }

  lemma ReplyTakes(s: State, s': State, taken: seq<Message>)
    requires Took(s.plan, s.server, taken) && ServerGoes(s) == Some(s')
    requires s.server.pc.Authorize? || s.server.pc.SendReady? || s.server.pc.SendDone?
    ensures Took(s'.plan, s'.server, taken)
  {
    if s.server.pc.SendReady? {
      var n: nat :| SplitsAt(s.plan, taken, s.server, true, n);
      assert SplitsAt(s.plan, taken, s'.server, true, n);
    } else if s.server.pc.SendDone? {
      var front := if s.server.request == [] then taken else taken[..|taken| - 1];
      var n: nat :| SplitsAt(s.plan, front, s.server, true, n);
      assert SplitsAt(s.plan, front, s'.server, true, n);
    }
  }

  lemma ServerGoTakes(s: State, s': State, taken: seq<Message>) returns (taken': seq<Message>)
    requires Took(s.plan, s.server, taken) && ServerGoes(s) == Some(s') && !s.server.pc.ServerEnded?
    ensures Took(s.plan, s'.server, taken') && taken' + s'.toServer == taken + s.toServer && s'.plan == s.plan
  {
    ServerGoFrame(s, s');
    taken' := taken;
    if ServerReads(s.server.pc) {
      ReadTakes(s.plan, s.server, s.toServer[0], taken);
      taken' := taken + [s.toServer[0]];
    } else if AtWork(s.server.pc) {
      WorkTakes(s, s', taken);
    } else {
      ReplyTakes(s, s', taken);
    }
  }

  lemma ServerStepTakes(s: State, act: ServerAct, s': State, taken: seq<Message>) returns (taken': seq<Message>)
    requires Took(s.plan, s.server, taken) && ServerNext(s, act) == Some(s')
    ensures Took(s.plan, s'.server, taken') && taken' + s'.toServer == taken + s.toServer && s'.plan == s.plan
  {
    if act == ServerGo {
      taken' := ServerGoTakes(s, s', taken);
    } else {
      taken' := taken;
    }
  }

  lemma Regrouped(front: seq<Message>, middle: seq<Message>, back: seq<Message>)
    ensures front + (middle + back) == (front + middle) + back
  {
  }

  lemma ClientStepTaken(s: State, step: ClientStep, s': State, taken: seq<Message>) returns (taken': seq<Message>)
    requires Took(s.plan, s.server, taken) && NextWithClient(s, step) == Some(s')
    ensures Took(s'.plan, s'.server, taken') && s'.plan == s.plan
    ensures taken' + s'.toServer == (taken + s.toServer) + SentInClientStep(step)
  {
    taken' := taken;
    match step {
      case Sends(m) => Regrouped(taken, s.toServer, [m]);
      case Uploads(_) =>
      case ServerDoes(act) => taken' := ServerStepTakes(s, act, s', taken);
    }
  }

  lemma {:induction false} ServerRunTakes(s: State, run: seq<ClientStep>, taken: seq<Message>, last: State)
    returns (taken': seq<Message>)
    requires Took(s.plan, s.server, taken) && ExecWithClient(s, run) == Some(last)
    ensures Took(last.plan, last.server, taken') && last.plan == s.plan
    ensures taken' + last.toServer == (taken + s.toServer) + SentByClient(run)
    decreases |run|
  {
    if run == [] {
      taken' := taken;
    } else {
      var s' := NextWithClient(s, run[0]).value;
      var next := ClientStepTaken(s, run[0], s', taken);
      taken' := ServerRunTakes(s', run[1..], next, last);
      Regrouped(taken + s.toServer, SentInClientStep(run[0]), SentByClient(run[1..]));
    }
  }

  /**
    Whatever a client sends: at any time the server has taken a first part of it, and that part is just what leads to
    where the server is.  It has let nobody in who did not say hello with version 5 and the peer's own id; it holds how
    the client asked to be let in, the build and the lists as they were sent; and it has run to its end for a successful
    build only if a whole request for outputs came and, unless it was empty, word that they are copied.
   */
  lemma ServerHoldsWhatItWasSent(plan: Plan, run: seq<ClientStep>) returns (taken: seq<Message>)
    requires ExecWithClient(Init(plan), run).Some?
    ensures Took(plan, ExecWithClient(Init(plan), run).value.server, taken)
    ensures taken + ExecWithClient(Init(plan), run).value.toServer == SentByClient(run)
  {
    taken := ServerRunTakes(Init(plan), run, [], ExecWithClient(Init(plan), run).value);
    assert [] + [] + SentByClient(run) == SentByClient(run);
  }

  // ---------------------------------------------------------------- a client and any server

  /** The server sends a message or goes away, or the client does something. */
  datatype ServerStep = Replies(m: Message) | Leaves | ClientDoes(act: ClientAct)

  function NextWithServer(s: State, step: ServerStep): Option<State> {
    match step
    case Replies(m) => Some(s.(toClient := s.toClient + [m]))
    case Leaves => Some(ServerTo(s, ServerEnded(ConnectionLost)))
    case ClientDoes(act) => ClientNext(s, act)
  }

  function ExecWithServer(s: State, run: seq<ServerStep>): Option<State>
    decreases |run|
  {
    if run == [] then Some(s)
    else match NextWithServer(s, run[0])
      case None => None
      case Some(s') => ExecWithServer(s', run[1..])
  }

  function SentInServerStep(step: ServerStep): seq<Message> {
    if step.Replies? then [step.m] else []
  }

  function SentByServer(run: seq<ServerStep>): seq<Message> {
    if run == [] then [] else SentInServerStep(run[0]) + SentByServer(run[1..])
  }

  /** Let in, queued, and the list of missing inputs as far as it has come. */
  predicate HasMissing(taken: seq<Message>, c: Client, done: bool) {
    && |taken| >= 2 && taken[0] == AuthOk && taken[1] == BuildQueued
    && IsChunked(MissingPaths, taken[2..], c.missing, done)
  }

  /** All inputs are there or were asked for. */
  predicate HasInputs(taken: seq<Message>, c: Client) {
    if c.missing == [] then HasMissing(taken, c, true)
    else taken != [] && taken[|taken| - 1] == InputUploadReady && HasMissing(taken[..|taken| - 1], c, true)
  }

  function LinesOf(messages: seq<Message>): seq<string> {
    if messages == [] then []
    else LinesOf(messages[..|messages| - 1])
         + if messages[|messages| - 1].NixLog? then [messages[|messages| - 1].line] else []
  }

  predicate AreLogs(messages: seq<Message>, logs: seq<string>) {
    && (forall i :: 0 <= i < |messages| ==> messages[i] == BuildStarted || messages[i].NixLog?)
    && logs == LinesOf(messages)
  }

  predicate LogsAt(taken: seq<Message>, c: Client, n: nat) {
    n <= |taken| && HasInputs(taken[..n], c) && AreLogs(taken[n..], c.logs)
  }

  ghost predicate HasLogs(taken: seq<Message>, c: Client) {
    exists n: nat :: LogsAt(taken, c, n)
  }

  ghost predicate ClosureAt(taken: seq<Message>, c: Client, done: bool, n: nat) {
    n < |taken| && HasLogs(taken[..n], c) && taken[n] == BuildFinished(true)
    && IsChunked(OutputClosure, taken[n + 1..], c.closure, done)
  }

  /** The build has succeeded, and its output closure as far as it has come. */
  ghost predicate HasOutputs(taken: seq<Message>, c: Client, done: bool) {
    exists n: nat :: ClosureAt(taken, c, done, n)
  }

  ghost predicate IsReady(taken: seq<Message>, c: Client) {
    taken != [] && taken[|taken| - 1].OutputCacheReady? && HasOutputs(taken[..|taken| - 1], c, true)
  }

  /** What a client at this point has taken off its stream. */
  ghost predicate ClientTook(c: Client, taken: seq<Message>) {
    match c.pc
    case WriteHello => taken == [] && c == Client(WriteHello, [], [], [])
    case WriteAuth => taken == [] && c == Client(WriteAuth, [], [], [])
    case ReadAuthOk => taken == [] && c == Client(ReadAuthOk, [], [], [])
    case Prepare => taken == [AuthOk] && c == Client(Prepare, [], [], [])
    case SendRequest => taken == [AuthOk] && c == Client(SendRequest, [], [], [])
    case SendPaths(sent) => taken == [AuthOk] && c == Client(SendPaths(sent), [], [], [])
    case ReadQueued => taken == [AuthOk] && c == Client(ReadQueued, [], [], [])
    case ReadMissing => HasMissing(taken, c, false) && c.logs == [] && c.closure == []
    case ReadUploadReady => HasMissing(taken, c, true) && c.missing != [] && c.logs == [] && c.closure == []
    case Upload => HasInputs(taken, c) && c.missing != [] && c.logs == [] && c.closure == []
    case ReadBuild => HasLogs(taken, c) && c.closure == []
    case ReadClosure => HasOutputs(taken, c, false)
    case SendOutputRequest(_) => HasOutputs(taken, c, true)
    case ReadCache => HasOutputs(taken, c, true)
    case Import => IsReady(taken, c)
    case SendCacheDone(_) => IsReady(taken, c)
    case ReadServerDone(_) => IsReady(taken, c)
    case ClientEnded(Succeeded) => IsComplete(taken, c)
    case ClientEnded(RemoteFailed) => IsFailure(taken, c)
    case ClientEnded(_) => true
  }

  /** The end of the session, after the outputs were made ready if any were asked for. */
  ghost predicate IsComplete(taken: seq<Message>, c: Client) {
    && taken != [] && taken[|taken| - 1] == Done
    && (HasOutputs(taken[..|taken| - 1], c, true) || IsReady(taken[..|taken| - 1], c))
  }

  ghost predicate IsFailure(taken: seq<Message>, c: Client) {
    taken != [] && taken[|taken| - 1] == BuildFinished(false) && HasLogs(taken[..|taken| - 1], c)
  }

  lemma OneMoreLog(messages: seq<Message>, logs: seq<string>, m: Message)
    requires AreLogs(messages, logs) && (m == BuildStarted || m.NixLog?)
    ensures AreLogs(messages + [m], logs + if m.NixLog? then [m.line] else [])
  {
    assert (messages + [m])[..|messages|] == messages;
  }

  lemma SameLogs(taken: seq<Message>, c: Client, c': Client)
    requires HasLogs(taken, c) && c'.missing == c.missing && c'.logs == c.logs
    ensures HasLogs(taken, c')
  {
    var n: nat :| LogsAt(taken, c, n);
    assert LogsAt(taken, c', n);
  }

  lemma SameOutputs(taken: seq<Message>, c: Client, c': Client, done: bool)
    requires HasOutputs(taken, c, done) && c'.missing == c.missing && c'.logs == c.logs && c'.closure == c.closure
    ensures HasOutputs(taken, c', done)
  {
    var n: nat :| ClosureAt(taken, c, done, n);
    SameLogs(taken[..n], c, c');
    assert ClosureAt(taken, c', done, n);
  }

  lemma StartOfLogs(taken: seq<Message>, c: Client)
    requires HasInputs(taken, c) && c.logs == []
    ensures HasLogs(taken, c)
  {
    assert taken[..|taken|] == taken && taken[|taken|..] == [];
    assert LogsAt(taken, c, |taken|);
  }

  lemma InputReadTakes(c: Client, m: Message, taken: seq<Message>)
    requires ClientTook(c, taken) && !m.Error?
    requires c.pc.ReadAuthOk? || c.pc.ReadQueued? || c.pc.ReadUploadReady?
    ensures ClientTook(ClientRead(c, m), taken + [m])
  {
    assert (taken + [m])[..|taken|] == taken;
    assert c.pc.ReadQueued? ==> (taken + [m])[2..] == [];
  }

  lemma MissingReadTakes(c: Client, m: Message, taken: seq<Message>)
    requires ClientTook(c, taken) && !m.Error? && c.pc.ReadMissing?
    ensures ClientTook(ClientRead(c, m), taken + [m])
  {
    if m.PathList? && m.kind.MissingPaths? {
      OneMoreChunk(MissingPaths, taken[2..], c.missing, m);
      assert (taken + [m])[2..] == taken[2..] + [m];
      var c' := ClientRead(c, m);
      assert HasMissing(taken + [m], c', m.done);
      if c'.pc.ReadBuild? {
        StartOfLogs(taken + [m], c');
      }
    }
  }

  lemma BuildReadTakes(c: Client, m: Message, taken: seq<Message>)
    requires ClientTook(c, taken) && !m.Error? && c.pc.ReadBuild?
    ensures ClientTook(ClientRead(c, m), taken + [m])
  {
    var n: nat :| LogsAt(taken, c, n);
    var c', after := ClientRead(c, m), taken + [m];
    assert after[..n] == taken[..n] && after[n..] == taken[n..] + [m] && after[..|taken|] == taken;
    if m == BuildStarted || m.NixLog? {
      OneMoreLog(taken[n..], c.logs, m);
      assert LogsAt(after, c', n);
    } else if m.BuildFinished? {
      SameLogs(taken, c, c');
      if m.success {
        assert after[|taken| + 1..] == [];
        assert ClosureAt(after, c', false, |taken|);
      }
    }
  }

  lemma ClosureReadIsTaken(c: Client, m: Message, taken: seq<Message>)
    requires ClientTook(c, taken) && !m.Error? && c.pc.ReadClosure?
    ensures ClientTook(ClientRead(c, m), taken + [m])
  {
    var n: nat :| ClosureAt(taken, c, false, n);
    var c', after := ClientRead(c, m), taken + [m];
    if m.PathList? && m.kind.OutputClosure? {
      OneMoreChunk(OutputClosure, taken[n + 1..], c.closure, m);
      assert after[..n] == taken[..n] && after[n + 1..] == taken[n + 1..] + [m];
      SameLogs(taken[..n], c, c');
      assert ClosureAt(after, c', m.done, n);
    }
  }

  lemma CacheReadTakes(c: Client, m: Message, taken: seq<Message>)
    requires ClientTook(c, taken) && !m.Error? && c.pc.ReadCache?
    ensures ClientTook(ClientRead(c, m), taken + [m])
  {
    assert (taken + [m])[..|taken|] == taken;
    SameOutputs(taken, c, ClientRead(c, m), true);
  }

  lemma DoneReadTakes(c: Client, m: Message, taken: seq<Message>)
    requires ClientTook(c, taken) && !m.Error? && c.pc.ReadServerDone?
    ensures ClientTook(ClientRead(c, m), taken + [m])
  {
    assert (taken + [m])[..|taken|] == taken;
    SameOutputs(taken[..|taken| - 1], c, ClientRead(c, m), true);
  }

  lemma ClientReadTakes(c: Client, m: Message, taken: seq<Message>)
    requires ClientTook(c, taken) && ClientReads(c.pc)
    ensures ClientTook(ClientRead(c, m), taken + [m])
  {
    if !m.Error? {
      match c.pc {
        case ReadMissing => MissingReadTakes(c, m, taken);
        case ReadBuild => BuildReadTakes(c, m, taken);
        case ReadClosure => ClosureReadIsTaken(c, m, taken);
        case ReadCache => CacheReadTakes(c, m, taken);
        case ReadServerDone(_) => DoneReadTakes(c, m, taken);
        case _ => InputReadTakes(c, m, taken);
      }
    }
  }

  lemma ClientWriteTakes(s: State, s': State, taken: seq<Message>)
    requires ClientTook(s.client, taken) && !ClientReads(s.client.pc) && ClientGoes(s) == Some(s')
    ensures ClientTook(s'.client, taken)
  {
    match s.client.pc {
      case Upload => StartOfLogs(taken, s'.client);
      case SendOutputRequest(_) => SameOutputs(taken, s.client, s'.client, true);
      case Import => SameOutputs(taken[..|taken| - 1], s.client, s'.client, true);
      case SendCacheDone(_) => SameOutputs(taken[..|taken| - 1], s.client, s'.client, true);
      case _ =>
    }
  }

  lemma ClientStepTakes(s: State, act: ClientAct, s': State, taken: seq<Message>) returns (taken': seq<Message>)
    requires ClientTook(s.client, taken) && ClientNext(s, act) == Some(s')
    ensures ClientTook(s'.client, taken') && taken' + s'.toClient == taken + s.toClient
  {
    taken' := taken;
    if act == ClientGo {
      if ClientReads(s.client.pc) {
        ClientReadFrame(s);
        ClientReadTakes(s.client, s.toClient[0], taken);
        taken' := taken + [s.toClient[0]];
      } else {
        ClientWriteFrame(s, s');
        ClientWriteTakes(s, s', taken);
      }
    } else if act == ImportFails {
      SameOutputs(taken[..|taken| - 1], s.client, s'.client, true);
    }
  }

  lemma ServerStepTaken(s: State, step: ServerStep, s': State, taken: seq<Message>) returns (taken': seq<Message>)
    requires ClientTook(s.client, taken) && NextWithServer(s, step) == Some(s')
    ensures ClientTook(s'.client, taken')
    ensures taken' + s'.toClient == (taken + s.toClient) + SentInServerStep(step)
  {
    taken' := taken;
    match step {
      case Replies(m) => Regrouped(taken, s.toClient, [m]);
      case Leaves =>
      case ClientDoes(act) => taken' := ClientStepTakes(s, act, s', taken);
    }
  }

  lemma {:induction false} ClientRunTakes(s: State, run: seq<ServerStep>, taken: seq<Message>, last: State)
    returns (taken': seq<Message>)
    requires ClientTook(s.client, taken) && ExecWithServer(s, run) == Some(last)
    ensures ClientTook(last.client, taken')
    ensures taken' + last.toClient == (taken + s.toClient) + SentByServer(run)
    decreases |run|
  {
    if run == [] {
      taken' := taken;
    } else {
      var s' := NextWithServer(s, run[0]).value;
      var next := ServerStepTaken(s, run[0], s', taken);
      taken' := ClientRunTakes(s', run[1..], next, last);
      Regrouped(taken + s.toClient, SentInServerStep(run[0]), SentByServer(run[1..]));
    }
  }

  /**
    Whatever a server sends: the client has taken a first part of it, and that part is just what leads to where the
    client is.  It reports success only after it was let in and queued, was sent the missing inputs in whole and asked
    for them if there are any, saw the build succeed, was sent the whole output closure and the word that the session
    is done; and a failed build only if the server said so.
   */
  lemma ClientHoldsWhatItWasSent(plan: Plan, run: seq<ServerStep>) returns (taken: seq<Message>)
    requires ExecWithServer(Init(plan), run).Some?
    ensures ClientTook(ExecWithServer(Init(plan), run).value.client, taken)
    ensures taken + ExecWithServer(Init(plan), run).value.toClient == SentByServer(run)
  {
    taken := ClientRunTakes(Init(plan), run, [], ExecWithServer(Init(plan), run).value);
    assert [] + [] + SentByServer(run) == SentByServer(run);
  }
}
