/**
  One build session as two machines that talk over two FIFO control streams.

  The client machine follows client/session.rs and client_cache/mod.rs, the server machine follows
  server/connection.rs, server/auth.rs, server/build.rs and server/output_cache.rs.  Every read is
  "expect exactly this message"; every message that the code does not expect there leads to the
  end `Unexpected`.  What the environment decides (lists, log lines, build result) is the `Plan`; failures are
  extra actions that can be taken at any point where the code can fail.
 */
module ControlSession {
  import opened Protocol

  datatype Plan = Plan(
    nodeId: string,
    ticket: Option<string>,
    installable: string,
    drvPath: Path,
    closure: seq<Path>,
    missing: seq<Path>,
    logs: seq<string>,
    success: bool,
    outputClosure: seq<Path>,
    wanted: seq<Path>)

  // ---------------------------------------------------------------- the client

  datatype ClientEnd = Succeeded | RemoteFailed | ServerSaidError | Aborted | UnexpectedMessage

  datatype ClientPc =
    | WriteHello | WriteAuth | ReadAuthOk | Prepare | SendRequest | SendPaths(sent: nat)
    | ReadQueued | ReadMissing | ReadUploadReady | Upload | ReadBuild | ReadClosure
    | SendOutputRequest(sent: nat) | ReadCache | Import | SendCacheDone(imported: bool)
    | ReadServerDone(imported: bool) | ClientEnded(end: ClientEnd)

  /** The client and what it has received so far. */
  datatype Client = Client(pc: ClientPc, missing: seq<Path>, logs: seq<string>, closure: seq<Path>)

  predicate ClientReads(pc: ClientPc) {
    pc.ReadAuthOk? || pc.ReadQueued? || pc.ReadMissing? || pc.ReadUploadReady? || pc.ReadBuild?
    || pc.ReadClosure? || pc.ReadCache? || pc.ReadServerDone?
  }

  /** What the client does with the next message of its control stream. */
  function ClientRead(c: Client, m: Message): Client
    requires ClientReads(c.pc)
  {
    if m.Error? then
      c.(pc := ClientEnded(if c.pc == ReadServerDone(false) then Aborted else ServerSaidError))
    else match c.pc
      case ReadAuthOk => if m.AuthOk? then c.(pc := Prepare) else c.(pc := ClientEnded(UnexpectedMessage))
      case ReadQueued => if m.BuildQueued? then c.(pc := ReadMissing) else c.(pc := ClientEnded(UnexpectedMessage))
      case ReadMissing =>
        if m.PathList? && m.kind.MissingPaths? then
          var missing := c.missing + m.paths;
          c.(missing := missing,
             pc := if !m.done then ReadMissing else if missing == [] then ReadBuild else ReadUploadReady)
        else c.(pc := ClientEnded(UnexpectedMessage))
      case ReadUploadReady =>
        if m.InputUploadReady? then c.(pc := Upload) else c.(pc := ClientEnded(UnexpectedMessage))
      case ReadBuild =>
        if m.BuildStarted? then c
        else if m.NixLog? then c.(logs := c.logs + [m.line])
        else if m.BuildFinished? then c.(pc := if m.success then ReadClosure else ClientEnded(RemoteFailed))
        else c.(pc := ClientEnded(UnexpectedMessage))
      case ReadClosure =>
        if m.PathList? && m.kind.OutputClosure? then
          c.(closure := c.closure + m.paths, pc := if m.done then SendOutputRequest(0) else ReadClosure)
        else c.(pc := ClientEnded(UnexpectedMessage))
      case ReadCache =>
        if m.OutputCacheReady? then c.(pc := Import)
        else if m.Done? then c.(pc := ClientEnded(Succeeded))
        else c.(pc := ClientEnded(UnexpectedMessage))
      case ReadServerDone(imported) =>
        // A failed import is reported whatever the server answers.
        if m.Done? then c.(pc := ClientEnded(if imported then Succeeded else Aborted))
        else c.(pc := ClientEnded(if imported then UnexpectedMessage else Aborted))
  }

  // ---------------------------------------------------------------- the server

  datatype ServerEnd =
    | Ran(success: bool)  // run_queued_build returned Ok
    | RunFailed           // run_queued_build returned Err: the client was sent Error
    | Rejected            // Error sent before any build ran
    | Dropped             // connection task failed without a reply
    | ConnectionLost      // the client is gone
    | UnexpectedRequest

  datatype ServerPc =
    | ReadHello | ReadAuth | Authorize | ReadRequest | ReadPaths | Redeem | WriteQueued | AwaitPermit
    | SendMissing(sent: nat) | SendUploadReady | AcceptUpload | SendStarted | StreamLogs(sent: nat)
    | SendFinished | SendClosure(sent: nat) | ReadOutputRequest | SendReady | ServeCache | SendDone
    | ServerEnded(end: ServerEnd)

  /**
    The server and what it has received so far.  `offered` is how the client asked to be let in: as a trusted client
    (None) or with the secret of a ticket.  `asked` is the installable and the derivation that it is to build.
   */
  datatype Server = Server(pc: ServerPc, offered: Option<Option<string>>, asked: Option<(string, Path)>,
                           closure: seq<Path>, request: seq<Path>)

  predicate ServerReads(pc: ServerPc) {
    pc.ReadHello? || pc.ReadAuth? || pc.ReadRequest? || pc.ReadPaths? || pc.ReadOutputRequest? || pc.ServeCache?
  }

  function ServerRead(plan: Plan, s: Server, m: Message): Server
    requires ServerReads(s.pc)
  {
    match s.pc
    case ReadHello =>
      if m.Hello? && m.version == VERSION && m.nodeId == plan.nodeId then s.(pc := ReadAuth)
      else s.(pc := ServerEnded(UnexpectedRequest))
    case ReadAuth =>
      if m.AuthTrustedClient? then s.(pc := Authorize, offered := Some(None))
      else if m.AuthTicket? then s.(pc := Authorize, offered := Some(Some(m.secret)))
      else s.(pc := ServerEnded(UnexpectedRequest))
    case ReadRequest =>
      if m.BuildRequest? then s.(pc := ReadPaths, asked := Some((m.installable, m.drvPath)))
      else s.(pc := ServerEnded(UnexpectedRequest))
    case ReadPaths =>
      if m.PathList? && m.kind.BuildPaths? then
        s.(closure := s.closure + m.paths, pc := if m.done then Redeem else ReadPaths)
      else s.(pc := ServerEnded(UnexpectedRequest))
    case ReadOutputRequest =>
      if m.PathList? && m.kind.OutputRequest? then
        var request := s.request + m.paths;
        s.(request := request,
           pc := if !m.done then ReadOutputRequest else if request == [] then SendDone else SendReady)
      else s.(pc := ServerEnded(UnexpectedRequest))
    case ServeCache =>
      if m.OutputCacheDone? then s.(pc := SendDone) else s.(pc := ServerEnded(UnexpectedRequest))
  }

  /** Inside run_queued_build, where any failure is reported to the client as Error. */
  predicate InRun(pc: ServerPc) {
    pc.SendMissing? || pc.SendUploadReady? || pc.AcceptUpload? || pc.SendStarted? || pc.StreamLogs?
    || pc.SendFinished? || pc.SendClosure? || pc.ReadOutputRequest? || pc.SendReady? || pc.ServeCache?
    || pc.SendDone?
  }

  /** Where the server may answer Error without having run a build. */
  predicate MayReject(pc: ServerPc) {
    pc.Authorize? || pc.ReadPaths? || pc.Redeem? || pc.AwaitPermit?
  }

  /** Where a failure (a read timeout, a limit that does not parse) ends the connection with no reply. */
  predicate MayDrop(pc: ServerPc) {
    pc.ReadHello? || pc.ReadAuth? || pc.Authorize? || pc.ReadRequest? || pc.Redeem?
  }

  // ---------------------------------------------------------------- the pair

  datatype State = State(
    plan: Plan,
    client: Client,
    server: Server,
    toServer: seq<Message>,
    toClient: seq<Message>,
    upload: Option<seq<Path>>)

  function Init(plan: Plan): State {
    State(plan, Client(WriteHello, [], [], []), Server(ReadHello, None, None, [], []), [], [], None)
  }

  /** `Go` is the next regular step; the others are failures and the sight of a closed connection. */
  datatype ClientAct = ClientGo | ClientAborts | ImportFails | ClientSeesClose

  datatype ServerAct = ServerGo | ServerRejects | ServerDrops | ServerFails | ServerSeesClose

  datatype Step = ByClient(clientAct: ClientAct) | ByServer(serverAct: ServerAct)

  predicate Regular(step: Step) {
    step in {ByClient(ClientGo), ByServer(ServerGo), ByClient(ClientSeesClose), ByServer(ServerSeesClose)}
  }

  function AuthMessage(plan: Plan): Message {
    match plan.ticket
    case None => AuthTrustedClient
    case Some(secret) => AuthTicket(secret)
  }

  function ListChunk(kind: PathListKind, paths: seq<Path>, sent: nat): Message
    requires sent <= |paths|
  {
    PathList(kind, HeadChunk(paths[sent..]), IsLastChunk(paths[sent..]))
  }

  function ClientTo(s: State, pc: ClientPc): State {
    s.(client := s.client.(pc := pc))
  }

  function ClientSends(s: State, m: Message, pc: ClientPc): State {
    s.(client := s.client.(pc := pc), toServer := s.toServer + [m])
  }

  function ClientGoes(s: State): Option<State> {
    var pc := s.client.pc;
    if ClientReads(pc) then
      if s.toClient == [] then None
      else Some(s.(client := ClientRead(s.client, s.toClient[0]), toClient := s.toClient[1..]))
    else match pc
      case WriteHello => Some(ClientSends(s, Hello(VERSION, s.plan.nodeId), WriteAuth))
      case WriteAuth => Some(ClientSends(s, AuthMessage(s.plan), ReadAuthOk))
      case Prepare => Some(ClientTo(s, SendRequest))
      case SendRequest => Some(ClientSends(s, BuildRequest(s.plan.installable, s.plan.drvPath), SendPaths(0)))
      case SendPaths(sent) =>
        if sent > |s.plan.closure| then None else
        var rest := s.plan.closure[sent..];
        Some(ClientSends(s, ListChunk(BuildPaths, s.plan.closure, sent),
                         if IsLastChunk(rest) then ReadQueued else SendPaths(sent + |HeadChunk(rest)|)))
      case Upload => Some(s.(client := s.client.(pc := ReadBuild), upload := Some(s.client.missing)))
      case SendOutputRequest(sent) =>
        if sent > |s.plan.wanted| then None else
        var rest := s.plan.wanted[sent..];
        Some(ClientSends(s, ListChunk(OutputRequest, s.plan.wanted, sent),
                         if IsLastChunk(rest) then ReadCache else SendOutputRequest(sent + |HeadChunk(rest)|)))
      case Import => Some(ClientTo(s, SendCacheDone(true)))
      case SendCacheDone(imported) => Some(ClientSends(s, OutputCacheDone, ReadServerDone(imported)))
      case _ => None
  }

  function ClientNext(s: State, act: ClientAct): Option<State> {
    if s.client.pc.ClientEnded? then None
    else match act
      case ClientGo => ClientGoes(s)
      case ClientAborts => Some(ClientTo(s, ClientEnded(Aborted)))
      case ImportFails => if s.client.pc.Import? then Some(ClientTo(s, SendCacheDone(false))) else None
      case ClientSeesClose =>
        if s.server.pc.ServerEnded? && ClientReads(s.client.pc) then Some(ClientTo(s, ClientEnded(Aborted))) else None
  }

  function ServerTo(s: State, pc: ServerPc): State {
    s.(server := s.server.(pc := pc))
  }

  function ServerSends(s: State, m: Message, pc: ServerPc): State {
    s.(server := s.server.(pc := pc), toClient := s.toClient + [m])
  }

  function ServerGoes(s: State): Option<State> {
    var pc := s.server.pc;
    if ServerReads(pc) then
      if s.toServer == [] then None
      else Some(s.(server := ServerRead(s.plan, s.server, s.toServer[0]), toServer := s.toServer[1..]))
    else match pc
      case Authorize => Some(ServerSends(s, AuthOk, ReadRequest))
      case Redeem => Some(ServerTo(s, WriteQueued))
      case WriteQueued => Some(ServerSends(s, BuildQueued, AwaitPermit))
      case AwaitPermit => Some(ServerTo(s, SendMissing(0)))
      case SendMissing(sent) =>
        if sent > |s.plan.missing| then None else
        var rest := s.plan.missing[sent..];
        Some(ServerSends(s, ListChunk(MissingPaths, s.plan.missing, sent),
                         if !IsLastChunk(rest) then SendMissing(sent + |HeadChunk(rest)|)
                         else if s.plan.missing == [] then SendStarted else SendUploadReady))
      case SendUploadReady => Some(ServerSends(s, InputUploadReady, AcceptUpload))
      case AcceptUpload => if s.upload.Some? then Some(ServerTo(s, SendStarted)) else None
      case SendStarted => Some(ServerSends(s, BuildStarted, StreamLogs(0)))
      case StreamLogs(sent) =>
        if sent < |s.plan.logs| then Some(ServerSends(s, NixLog(s.plan.logs[sent]), StreamLogs(sent + 1)))
        else Some(ServerTo(s, SendFinished))
      case SendFinished =>
        Some(ServerSends(s, BuildFinished(s.plan.success),
                         if s.plan.success then SendClosure(0) else ServerEnded(Ran(false))))
      case SendClosure(sent) =>
        if sent > |s.plan.outputClosure| then None else
        var rest := s.plan.outputClosure[sent..];
        Some(ServerSends(s, ListChunk(OutputClosure, s.plan.outputClosure, sent),
                         if IsLastChunk(rest) then ReadOutputRequest else SendClosure(sent + |HeadChunk(rest)|)))
      case SendReady => Some(ServerSends(s, OutputCacheReady(s.server.request), ServeCache))
      case SendDone => Some(ServerSends(s, Done, ServerEnded(Ran(true))))
      case _ => None
  }

  function ServerNext(s: State, act: ServerAct): Option<State> {
    var pc := s.server.pc;
    if pc.ServerEnded? then None
    else match act
      case ServerGo => ServerGoes(s)
      case ServerRejects => if MayReject(pc) then Some(ServerSends(s, Error(""), ServerEnded(Rejected))) else None
      case ServerDrops => if MayDrop(pc) then Some(ServerTo(s, ServerEnded(Dropped))) else None
      case ServerFails => if InRun(pc) then Some(ServerSends(s, Error(""), ServerEnded(RunFailed))) else None
      case ServerSeesClose =>
        // Any read or write can fail once the peer has closed the connection.
        if s.client.pc.ClientEnded? then Some(ServerTo(s, ServerEnded(ConnectionLost))) else None
  }

  function Next(s: State, step: Step): Option<State> {
    match step
    case ByClient(act) => ClientNext(s, act)
    case ByServer(act) => ServerNext(s, act)
  }

  /** The state after the steps of a run, or None if some step was not enabled. */
  function Exec(s: State, run: seq<Step>): Option<State>
    decreases |run|
  {
    if run == [] then Some(s)
    else match Next(s, run[0])
      case None => None
      case Some(s') => Exec(s', run[1..])
  }

  // ---------------------------------------------------------------- what each side is owed

  /** What a reader of the server's stream still waits for, and what it has got. */
  datatype Stage = WantAuth | WantQueued | WantMissing | WantUploadReady | WantBuild | WantClosure
                 | WantCache | WantDone | Over(verdict: Verdict)

  datatype Verdict = Complete | BuildFailed | Failed

  datatype View = View(stage: Stage, missing: seq<Path>, logs: seq<string>, closure: seq<Path>)

  /** Does a list that grew chunk by chunk still agree with the list it is a copy of? */
  predicate Tracks<T(==)>(got: seq<T>, whole: seq<T>, done: bool) {
    got <= whole && (done ==> got == whole)
  }

  /**
    The next view of the server's stream.  This is stricter than the client's own reads: a message of the
    wrong kind is None, and so is one whose contents are not the next part of what the server has to say.
   */
  function Feed(plan: Plan, v: View, m: Message): Option<View> {
    if v.stage.Over? then None
    else if m.Error? then Some(v.(stage := Over(Failed)))
    else match v.stage
      case WantAuth => if m.AuthOk? then Some(v.(stage := WantQueued)) else None
      case WantQueued => if m.BuildQueued? then Some(v.(stage := WantMissing)) else None
      case WantMissing =>
        if m.PathList? && m.kind.MissingPaths? then
          var missing := v.missing + m.paths;
          if Tracks(missing, plan.missing, m.done) then
            Some(v.(missing := missing,
                    stage := if !m.done then WantMissing else if missing == [] then WantBuild else WantUploadReady))
          else None
        else None
      case WantUploadReady => if m.InputUploadReady? then Some(v.(stage := WantBuild)) else None
      case WantBuild =>
        if m.BuildStarted? then Some(v)
        else if m.NixLog? && v.logs + [m.line] <= plan.logs then Some(v.(logs := v.logs + [m.line]))
        else if m == BuildFinished(plan.success) && v.logs == plan.logs then
          Some(v.(stage := if m.success then WantClosure else Over(BuildFailed)))
        else None
      case WantClosure =>
        if m.PathList? && m.kind.OutputClosure? && Tracks(v.closure + m.paths, plan.outputClosure, m.done) then
          Some(v.(closure := v.closure + m.paths, stage := if m.done then WantCache else WantClosure))
        else None
      case WantCache =>
        if m.OutputCacheReady? && m.copyPaths == plan.wanted && plan.wanted != [] then Some(v.(stage := WantDone))
        else if m.Done? && plan.wanted == [] then Some(v.(stage := Over(Complete)))
        else None
      case WantDone => if m.Done? then Some(v.(stage := Over(Complete))) else None
  }

  function FeedAll(plan: Plan, v: View, q: seq<Message>): Option<View>
    decreases |q|
  {
    if q == [] then Some(v)
    else match Feed(plan, v, q[0])
      case None => None
      case Some(v') => FeedAll(plan, v', q[1..])
  }

  function ClientStage(pc: ClientPc): Stage {
    match pc
    case ClientEnded(Succeeded) => Over(Complete)
    case ClientEnded(RemoteFailed) => Over(BuildFailed)
    case ClientEnded(_) => Over(Failed)
    case WriteHello => WantAuth
    case WriteAuth => WantAuth
    case ReadAuthOk => WantAuth
    case Prepare => WantQueued
    case SendRequest => WantQueued
    case SendPaths(_) => WantQueued
    case ReadQueued => WantQueued
    case ReadMissing => WantMissing
    case ReadUploadReady => WantUploadReady
    case Upload => WantBuild
    case ReadBuild => WantBuild
    case ReadClosure => WantClosure
    case SendOutputRequest(_) => WantCache
    case ReadCache => WantCache
    case Import => WantDone
    case SendCacheDone(_) => WantDone
    case ReadServerDone(_) => WantDone
  }

  function ClientView(c: Client): View {
    View(ClientStage(c.pc), c.missing, c.logs, c.closure)
  }

  /** The view of a client that has read everything the server has written so far. */
  function Promised(s: State): View
    requires ServerIndexOk(s)
  {
    var p := s.plan;
    match s.server.pc
    case ReadHello => View(WantAuth, [], [], [])
    case ReadAuth => View(WantAuth, [], [], [])
    case Authorize => View(WantAuth, [], [], [])
    case ReadRequest => View(WantQueued, [], [], [])
    case ReadPaths => View(WantQueued, [], [], [])
    case Redeem => View(WantQueued, [], [], [])
    case WriteQueued => View(WantQueued, [], [], [])
    case AwaitPermit => View(WantMissing, [], [], [])
    case SendMissing(sent) => View(WantMissing, p.missing[..sent], [], [])
    case SendUploadReady => View(WantUploadReady, p.missing, [], [])
    case AcceptUpload => View(WantBuild, p.missing, [], [])
    case SendStarted => View(WantBuild, p.missing, [], [])
    case StreamLogs(sent) => View(WantBuild, p.missing, p.logs[..sent], [])
    case SendFinished => View(WantBuild, p.missing, p.logs, [])
    case SendClosure(sent) => View(WantClosure, p.missing, p.logs, p.outputClosure[..sent])
    case ReadOutputRequest => View(WantCache, p.missing, p.logs, p.outputClosure)
    case SendReady => View(WantCache, p.missing, p.logs, p.outputClosure)
    case ServeCache => View(WantDone, p.missing, p.logs, p.outputClosure)
    case SendDone => View(if p.wanted == [] then WantCache else WantDone, p.missing, p.logs, p.outputClosure)
    case ServerEnded(Ran(success)) =>
      View(Over(if success then Complete else BuildFailed), p.missing, p.logs, if success then p.outputClosure else [])
    case ServerEnded(_) => View(Over(Failed), [], [], [])
  }

  predicate ServerIndexOk(s: State) {
    match s.server.pc
    case SendMissing(sent) => sent <= |s.plan.missing|
    case StreamLogs(sent) => sent <= |s.plan.logs|
    case SendClosure(sent) => sent <= |s.plan.outputClosure|
    case _ => true
  }

  /** The server's side of the same idea: what it waits for on the client's stream. */
  datatype Need = NeedHello | NeedAuth | NeedRequest | NeedPaths | NeedOutputRequest | NeedCacheDone | NeedNothing

  datatype Intake = Intake(need: Need, closure: seq<Path>, request: seq<Path>)

  function Take(plan: Plan, n: Intake, m: Message): Option<Intake> {
    match n.need
    case NeedHello => if m == Hello(VERSION, plan.nodeId) then Some(n.(need := NeedAuth)) else None
    case NeedAuth => if m.AuthTrustedClient? || m.AuthTicket? then Some(n.(need := NeedRequest)) else None
    case NeedRequest => if m.BuildRequest? then Some(n.(need := NeedPaths)) else None
    case NeedPaths =>
      if m.PathList? && m.kind.BuildPaths? && Tracks(n.closure + m.paths, plan.closure, m.done) then
        Some(n.(closure := n.closure + m.paths, need := if m.done then NeedOutputRequest else NeedPaths))
      else None
    case NeedOutputRequest =>
      if m.PathList? && m.kind.OutputRequest? then
        var request := n.request + m.paths;
        if !Tracks(request, plan.wanted, m.done) then None else
        Some(n.(request := request,
                need := if !m.done then NeedOutputRequest else if request == [] then NeedNothing else NeedCacheDone))
      else None
    case NeedCacheDone => if m.OutputCacheDone? then Some(n.(need := NeedNothing)) else None
    case NeedNothing => None
  }

  function TakeAll(plan: Plan, n: Intake, q: seq<Message>): Option<Intake>
    decreases |q|
  {
    if q == [] then Some(n)
    else match Take(plan, n, q[0])
      case None => None
      case Some(n') => TakeAll(plan, n', q[1..])
  }

  function ServerNeed(s: Server): Need
    requires !s.pc.ServerEnded?
  {
    match s.pc
    case ReadHello => NeedHello
    case ReadAuth => NeedAuth
    case Authorize => NeedRequest
    case ReadRequest => NeedRequest
    case ReadPaths => NeedPaths
    case ReadOutputRequest => NeedOutputRequest
    case SendReady => NeedCacheDone
    case ServeCache => NeedCacheDone
    case SendDone => NeedNothing
    case _ => NeedOutputRequest
  }

  function ServerIntake(s: Server): Intake
    requires !s.pc.ServerEnded?
  {
    Intake(ServerNeed(s), s.closure, s.request)
  }

  predicate ClientIndexOk(s: State) {
    match s.client.pc
    case SendPaths(sent) => sent <= |s.plan.closure|
    case SendOutputRequest(sent) => sent <= |s.plan.wanted|
    case _ => true
  }

  /** The intake of a server that has read everything the client has written so far. */
  function Delivered(s: State): Intake
    requires ClientIndexOk(s) && !s.client.pc.ClientEnded?
  {
    var p := s.plan;
    var closing := if p.wanted == [] then NeedNothing else NeedCacheDone;
    match s.client.pc
    case WriteHello => Intake(NeedHello, [], [])
    case WriteAuth => Intake(NeedAuth, [], [])
    case ReadAuthOk => Intake(NeedRequest, [], [])
    case Prepare => Intake(NeedRequest, [], [])
    case SendRequest => Intake(NeedRequest, [], [])
    case SendPaths(sent) => Intake(NeedPaths, p.closure[..sent], [])
    case SendOutputRequest(sent) => Intake(NeedOutputRequest, p.closure, p.wanted[..sent])
    case ReadCache => Intake(closing, p.closure, p.wanted)
    case Import => Intake(closing, p.closure, p.wanted)
    case SendCacheDone(_) => Intake(closing, p.closure, p.wanted)
    case ReadServerDone(_) => Intake(NeedNothing, p.closure, p.wanted)
    case _ => Intake(NeedOutputRequest, p.closure, [])
  }

  // ---------------------------------------------------------------- the invariant

  ghost predicate ClientSide(s: State) {
    && ServerIndexOk(s)
    && (!s.client.pc.ClientEnded? ==>
          var end := FeedAll(s.plan, ClientView(s.client), s.toClient);
          && end.Some?
          && (s.server.pc.ServerEnded? ==> !s.server.pc.end.ConnectionLost?)
          && (match s.server.pc
              case ServerEnded(Dropped) => end.value.stage.WantAuth? || end.value.stage.WantQueued?
              case ServerEnded(Rejected) => end.value.stage == Over(Failed)
              case ServerEnded(RunFailed) => end.value.stage == Over(Failed)
              case _ => end.value == Promised(s)))
  }

  ghost predicate ServerSide(s: State) {
    && ClientIndexOk(s)
    && (!s.server.pc.ServerEnded? ==>
          var end := TakeAll(s.plan, ServerIntake(s.server), s.toServer);
          end.Some? && (!s.client.pc.ClientEnded? ==> end.value == Delivered(s)))
  }

  /** The client points that lie behind the upload of missing inputs. */
  predicate PastUpload(pc: ClientPc) {
    pc.ReadBuild? || pc.ReadClosure? || pc.SendOutputRequest? || pc.ReadCache? || pc.Import? || pc.SendCacheDone?
    || pc.ReadServerDone? || (pc.ClientEnded? && pc.end in {Succeeded, RemoteFailed})
  }

  /** The lists of a view are those of the plan as far as its stage says that they are complete. */
  predicate ViewData(p: Plan, v: View) {
    var inputs := v.missing == p.missing;
    var built := inputs && v.logs == p.logs;
    var served := built && v.closure == p.outputClosure && p.success;
    && v.missing <= p.missing && v.logs <= p.logs && v.closure <= p.outputClosure
    && (match v.stage
        case WantAuth => true
        case WantQueued => true
        case WantMissing => true
        case WantUploadReady => inputs && p.missing != []
        case WantBuild => inputs
        case WantClosure => built && p.success
        case WantCache => served
        case WantDone => served && p.wanted != []
        case Over(Complete) => served
        case Over(BuildFailed) => built && !p.success
        case Over(Failed) => true)
  }

  ghost predicate ClientData(s: State) {
    var c, p := s.client, s.plan;
    && ViewData(p, ClientView(c))
    && c.pc != ClientEnded(UnexpectedMessage)
    && (c.pc.Upload? ==> p.missing != [])
    && (PastUpload(c.pc) && c.missing != [] ==> s.upload.Some?)
    && (s.upload.Some? ==> s.upload.value == p.missing != [])
  }

  ghost predicate ServerData(s: State) {
    var v, p := s.server, s.plan;
    && v.closure <= p.closure && v.request <= p.wanted
    && (match v.pc
        case ReadHello => true
        case ReadAuth => true
        case Authorize => true
        case ReadRequest => true
        case ReadPaths => true
        case ServerEnded(Ran(success)) =>
          v.closure == p.closure && success == p.success && (success ==> v.request == p.wanted)
        case ServerEnded(UnexpectedRequest) => false
        case ServerEnded(_) => true
        case SendUploadReady => v.closure == p.closure && p.missing != []
        case AcceptUpload => v.closure == p.closure && p.missing != []
        case SendClosure(_) => v.closure == p.closure && p.success
        case ReadOutputRequest => v.closure == p.closure && p.success
        case SendReady => v.closure == p.closure && p.success && v.request == p.wanted != []
        case ServeCache => v.closure == p.closure && p.success && v.request == p.wanted != []
        case SendDone => v.closure == p.closure && p.success && v.request == p.wanted
        case _ => v.closure == p.closure)
  }

  /** The two ends agree on how the session went. */
  ghost predicate Verdicts(s: State) {
    && (s.client.pc == ClientEnded(Succeeded) ==> s.server.pc == ServerEnded(Ran(true)))
    && (s.client.pc == ClientEnded(RemoteFailed) ==> s.server.pc == ServerEnded(Ran(false)))
  }

  ghost predicate Inv(s: State) {
    ClientSide(s) && ServerSide(s) && ClientData(s) && ServerData(s) && Verdicts(s)
  }

  // ---------------------------------------------------------------- preservation

  lemma {:induction false} FeedAppend(plan: Plan, v: View, q: seq<Message>, m: Message)
    ensures FeedAll(plan, v, q + [m]) ==
            match FeedAll(plan, v, q) { case None => None case Some(v') => Feed(plan, v', m) }
    decreases |q|
  {
    if q == [] {
      assert q + [m] == [m];
    } else {
      assert (q + [m])[1..] == q[1..] + [m];
      match Feed(plan, v, q[0]) {
        case None =>
        case Some(v') => FeedAppend(plan, v', q[1..], m);
      }
    }
  }

  lemma {:induction false} TakeAppend(plan: Plan, n: Intake, q: seq<Message>, m: Message)
    ensures TakeAll(plan, n, q + [m]) ==
            match TakeAll(plan, n, q) { case None => None case Some(n') => Take(plan, n', m) }
    decreases |q|
  {
    if q == [] {
      assert q + [m] == [m];
    } else {
      assert (q + [m])[1..] == q[1..] + [m];
      match Take(plan, n, q[0]) {
        case None =>
        case Some(n') => TakeAppend(plan, n', q[1..], m);
      }
    }
  }

  lemma InitInv(plan: Plan)
    ensures Inv(Init(plan))
  {
  }

  /** Once a view is over, no further message fits. */
  lemma OverIsLast(plan: Plan, v: View, q: seq<Message>)
    requires v.stage.Over? && FeedAll(plan, v, q).Some?
    ensures q == []
  {
  }

  lemma FeedKeepsData(p: Plan, v: View, m: Message)
    requires ViewData(p, v) && Feed(p, v, m).Some?
    ensures ViewData(p, Feed(p, v, m).value)
  {
  }

  /** Where the view takes a message, the client does the same with it. */
  lemma ReadMatchesFeed(p: Plan, c: Client, m: Message)
    requires ClientReads(c.pc) && Feed(p, ClientView(c), m).Some?
    ensures var v, c' := Feed(p, ClientView(c), m).value, ClientRead(c, m);
            && c'.pc != ClientEnded(UnexpectedMessage)
            && (c'.pc.ClientEnded? ==> v.stage.Over?)
            && (c'.pc == ClientEnded(Aborted) || ClientView(c') == v)
            && c'.missing == v.missing && c'.logs == v.logs && c'.closure == v.closure
  {
    match c.pc {
      case ReadMissing =>
      case ReadBuild =>
      case _ =>
    }
  }

  /** A client whose stream is as promised takes its next message exactly as its view does. */
  lemma ClientReadFollowsView(s: State)
    requires ClientSide(s) && ClientReads(s.client.pc) && s.toClient != []
    ensures var fed := Feed(s.plan, ClientView(s.client), s.toClient[0]);
            var c := ClientRead(s.client, s.toClient[0]);
            && fed.Some?
            && FeedAll(s.plan, fed.value, s.toClient[1..]) == FeedAll(s.plan, ClientView(s.client), s.toClient)
            && c.pc != ClientEnded(UnexpectedMessage)
            && (c.pc.ClientEnded? ==> s.toClient[1..] == [] && fed.value.stage.Over?)
            && (c.pc == ClientEnded(Aborted) || ClientView(c) == fed.value)
            && c.missing == fed.value.missing && c.logs == fed.value.logs && c.closure == fed.value.closure
  {
    var fed := FirstIsFed(s.plan, ClientView(s.client), s.toClient);
    ReadMatchesFeed(s.plan, s.client, s.toClient[0]);
    if fed.stage.Over? {
      OverIsLast(s.plan, fed, s.toClient[1..]);
    }
  }

  lemma FirstIsFed(p: Plan, v: View, q: seq<Message>) returns (fed: View)
    requires q != [] && FeedAll(p, v, q).Some?
    ensures Feed(p, v, q[0]) == Some(fed) && FeedAll(p, fed, q[1..]) == FeedAll(p, v, q)
  {
    fed := Feed(p, v, q[0]).value;
  }

  /** The parts of a state that a client step leaves alone, and the message or view it may change. */
  lemma ClientReadFrame(s: State)
    requires ClientReads(s.client.pc) && s.toClient != []
    ensures var s' := ClientGoes(s).value;
            && s' == s.(client := ClientRead(s.client, s.toClient[0]), toClient := s.toClient[1..])
            && ClientIndexOk(s')
            && (!s'.client.pc.ClientEnded? ==> Delivered(s') == Delivered(s))
            && (s'.client.pc == Upload ==> s.client.pc == ReadUploadReady)
            && (PastUpload(s'.client.pc) ==> PastUpload(s.client.pc) || s'.client.missing == [])
  {
  }

  lemma ClientReadKeepsClientSide(s: State, s': State)
    requires ClientSide(s) && ClientData(s) && ClientReads(s.client.pc) && s.toClient != []
    requires s' == s.(client := ClientRead(s.client, s.toClient[0]), toClient := s.toClient[1..])
    ensures ClientSide(s')
  {
    ClientReadFollowsView(s);
  }

  lemma ClientReadKeepsData(s: State, s': State)
    requires ClientSide(s) && ClientData(s) && ClientReads(s.client.pc) && s.toClient != []
    requires s' == s.(client := ClientRead(s.client, s.toClient[0]), toClient := s.toClient[1..])
    requires s'.client.pc == Upload ==> s.client.pc == ReadUploadReady
    requires PastUpload(s'.client.pc) ==> PastUpload(s.client.pc) || s'.client.missing == []
    ensures ClientData(s')
  {
    ClientReadFollowsView(s);
    FeedKeepsData(s.plan, ClientView(s.client), s.toClient[0]);
    assert ViewData(s.plan, ClientView(s'.client));
  }

  lemma ClientReadKeepsVerdicts(s: State, s': State)
    requires ClientSide(s) && ClientData(s) && ClientReads(s.client.pc) && s.toClient != []
    requires s' == s.(client := ClientRead(s.client, s.toClient[0]), toClient := s.toClient[1..])
    ensures Verdicts(s')
  {
    ClientReadFollowsView(s);
    FeedKeepsData(s.plan, ClientView(s.client), s.toClient[0]);
  }

  /** Steps that leave the client's view and the server's stream alone keep the client's side. */
  lemma SameViewKeepsClientSide(s: State, s': State)
    requires ClientSide(s) && ClientView(s'.client) == ClientView(s.client) && !s.client.pc.ClientEnded?
    requires s'.plan == s.plan && s'.server == s.server && s'.toClient == s.toClient
    ensures ClientSide(s')
  {
  }

  lemma SamePromiseKeepsClientSide(s: State, s': State)
    requires ClientSide(s) && ServerIndexOk(s') && Promised(s') == Promised(s)
    requires !s.server.pc.ServerEnded? && !s'.server.pc.ServerEnded?
    requires s'.plan == s.plan && s'.client == s.client && s'.toClient == s.toClient
    ensures ClientSide(s')
  {
  }

  lemma SameDeliveryKeepsServerSide(s: State, s': State)
    requires ServerSide(s) && ClientIndexOk(s') && s'.plan == s.plan
    requires s'.server == s.server && s'.toServer == s.toServer
    requires !s'.client.pc.ClientEnded? ==> !s.client.pc.ClientEnded? && Delivered(s') == Delivered(s)
    ensures ServerSide(s')
  {
  }

  lemma SameIntakeKeepsServerSide(s: State, s': State)
    requires ServerSide(s) && s'.plan == s.plan && s'.client == s.client && s'.toServer == s.toServer
    requires !s'.server.pc.ServerEnded? ==>
      !s.server.pc.ServerEnded? && ServerIntake(s'.server) == ServerIntake(s.server)
    ensures ServerSide(s')
  {
  }

  lemma ServerReadFollowsIntake(s: State)
    requires ServerSide(s) && ServerData(s) && ServerReads(s.server.pc) && s.toServer != []
    ensures var taken := Take(s.plan, ServerIntake(s.server), s.toServer[0]);
            var v := ServerRead(s.plan, s.server, s.toServer[0]);
            && taken.Some?
            && TakeAll(s.plan, taken.value, s.toServer[1..]) == TakeAll(s.plan, ServerIntake(s.server), s.toServer)
            && !v.pc.ServerEnded?
            && ServerIntake(v) == taken.value
  {
    assert Take(s.plan, ServerIntake(s.server), s.toServer[0]).Some?;
  }

  lemma ServerReadKeepsServerSide(s: State, s': State)
    requires ServerSide(s) && ServerData(s) && ServerReads(s.server.pc) && s.toServer != []
    requires s' == s.(server := ServerRead(s.plan, s.server, s.toServer[0]), toServer := s.toServer[1..])
    ensures ServerSide(s')
  {
    ServerReadFollowsIntake(s);
    assert !s.client.pc.ClientEnded? ==> Delivered(s') == Delivered(s);
  }

  lemma ServerReadKeepsPromise(s: State, s': State)
    requires ServerSide(s) && ServerData(s) && ServerReads(s.server.pc) && s.toServer != []
    requires s' == s.(server := ServerRead(s.plan, s.server, s.toServer[0]), toServer := s.toServer[1..])
    ensures !s'.server.pc.ServerEnded? && ServerIndexOk(s') && Promised(s') == Promised(s)
  {
    ServerReadFollowsIntake(s);
  }

  lemma ServerReadKeepsData(s: State, s': State)
    requires ServerSide(s) && ServerData(s) && ServerReads(s.server.pc) && s.toServer != []
    requires s' == s.(server := ServerRead(s.plan, s.server, s.toServer[0]), toServer := s.toServer[1..])
    ensures ServerData(s')
  {
    ServerReadFollowsIntake(s);
  }

  lemma ClientWriteFrame(s: State, s': State)
    requires !ClientReads(s.client.pc) && ClientGoes(s) == Some(s')
    ensures s'.plan == s.plan && s'.server == s.server && s'.toClient == s.toClient
    ensures !s.client.pc.ClientEnded? && !s'.client.pc.ClientEnded? && ClientView(s'.client) == ClientView(s.client)
  {
  }

  /** What every client write does to what it has delivered: it stays, or the one new message leads to it. */
  ghost predicate DeliveryFits(s: State, s': State) {
    && ClientIndexOk(s) && ClientIndexOk(s') && !s.client.pc.ClientEnded? && !s'.client.pc.ClientEnded?
    && (if s'.toServer == s.toServer then Delivered(s') == Delivered(s)
        else s'.toServer != [] && s'.toServer[..|s'.toServer| - 1] == s.toServer
             && Take(s.plan, Delivered(s), s'.toServer[|s'.toServer| - 1]) == Some(Delivered(s')))
  }

  lemma ListWriteFitsIntake(s: State, s': State)
    requires ClientIndexOk(s) && (s.client.pc.SendPaths? || s.client.pc.SendOutputRequest?)
    requires ClientGoes(s) == Some(s')
    ensures DeliveryFits(s, s')
  {
    HeadChunkAdvances(if s.client.pc.SendPaths? then s.plan.closure else s.plan.wanted, s.client.pc.sent);
  }

  lemma OpeningWriteFitsIntake(s: State, s': State)
    requires ClientGoes(s) == Some(s')
    requires s.client.pc.WriteHello? || s.client.pc.WriteAuth? || s.client.pc.Prepare? || s.client.pc.SendRequest?
    ensures DeliveryFits(s, s')
  {
    assert s.plan.closure[..0] == [];
  }

  lemma ClosingWriteFitsIntake(s: State, s': State)
    requires ClientData(s) && ClientGoes(s) == Some(s')
    requires s.client.pc.Upload? || s.client.pc.Import? || s.client.pc.SendCacheDone?
    ensures DeliveryFits(s, s')
  {
  }

  lemma ClientWriteFitsIntake(s: State, s': State)
    requires ClientIndexOk(s) && ClientData(s) && !ClientReads(s.client.pc) && ClientGoes(s) == Some(s')
    ensures DeliveryFits(s, s')
  {
    match s.client.pc {
      case SendPaths(_) => ListWriteFitsIntake(s, s');
      case SendOutputRequest(_) => ListWriteFitsIntake(s, s');
      case Upload => ClosingWriteFitsIntake(s, s');
      case Import => ClosingWriteFitsIntake(s, s');
      case SendCacheDone(_) => ClosingWriteFitsIntake(s, s');
      case _ => OpeningWriteFitsIntake(s, s');
    }
  }

  lemma ClientWriteKeepsServerSide(s: State, s': State)
    requires ServerSide(s) && ClientData(s) && !ClientReads(s.client.pc) && ClientGoes(s) == Some(s')
    ensures ServerSide(s')
  {
    ClientWriteFrame(s, s');
    ClientWriteFitsIntake(s, s');
    if s'.toServer == s.toServer {
      SameDeliveryKeepsServerSide(s, s');
    } else {
      SentKeepsServerSide(s, s', s'.toServer[|s'.toServer| - 1]);
    }
  }

  lemma SentKeepsServerSide(s: State, s': State, m: Message)
    requires ServerSide(s) && s'.plan == s.plan && s'.server == s.server && s'.toServer == s.toServer + [m]
    requires !s.client.pc.ClientEnded? && !s'.client.pc.ClientEnded? && ClientIndexOk(s')
    requires Take(s.plan, Delivered(s), m) == Some(Delivered(s'))
    ensures ServerSide(s')
  {
    if !s.server.pc.ServerEnded? {
      TakeAppend(s.plan, ServerIntake(s.server), s.toServer, m);
    }
  }

  lemma ClientWriteKeepsData(s: State, s': State)
    requires ClientData(s) && !ClientReads(s.client.pc) && ClientGoes(s) == Some(s')
    ensures ClientData(s')
  {
    ClientWriteFrame(s, s');
  }

  /** What every server write does to the promise: it stays, or the one new message leads to it. */
  ghost predicate WriteFits(s: State, s': State) {
    && ServerIndexOk(s) && ServerIndexOk(s')
    && (s'.server.pc.ServerEnded? ==> s'.server.pc.end.Ran?)
    && (if s'.toClient == s.toClient then Promised(s') == Promised(s) && !s'.server.pc.ServerEnded?
        else s'.toClient != [] && s'.toClient[..|s'.toClient| - 1] == s.toClient
             && Feed(s.plan, Promised(s), s'.toClient[|s'.toClient| - 1]) == Some(Promised(s')))
  }

  lemma MissingWriteFitsView(s: State, s': State)
    requires ServerIndexOk(s) && s.server.pc.SendMissing? && ServerGoes(s) == Some(s')
    ensures WriteFits(s, s')
  {
    HeadChunkAdvances(s.plan.missing, s.server.pc.sent);
  }

  lemma ClosureWriteFitsView(s: State, s': State)
    requires ServerIndexOk(s) && s.server.pc.SendClosure? && ServerGoes(s) == Some(s')
    ensures WriteFits(s, s')
  {
    HeadChunkAdvances(s.plan.outputClosure, s.server.pc.sent);
  }

  lemma LogWriteFitsView(s: State, s': State)
    requires ServerIndexOk(s) && ServerData(s) && s.server.pc.StreamLogs? && ServerGoes(s) == Some(s')
    ensures WriteFits(s, s')
  {
    var logs, sent := s.plan.logs, s.server.pc.sent;
    if sent < |logs| {
      assert logs[..sent] + [logs[sent]] == logs[..sent + 1];
    } else {
      assert logs[..sent] == logs;
    }
  }

  lemma AdmissionWriteFitsView(s: State, s': State)
    requires ServerIndexOk(s) && ServerData(s) && ServerGoes(s) == Some(s')
    requires s.server.pc.Authorize? || s.server.pc.Redeem? || s.server.pc.WriteQueued? || s.server.pc.AwaitPermit?
    ensures WriteFits(s, s')
  {
    assert s.plan.missing[..0] == [];
  }

  lemma UploadWriteFitsView(s: State, s': State)
    requires ServerIndexOk(s) && ServerData(s) && ServerGoes(s) == Some(s')
    requires s.server.pc.SendUploadReady? || s.server.pc.AcceptUpload?
    ensures WriteFits(s, s')
  {
  }

  lemma StartWriteFitsView(s: State, s': State)
    requires ServerIndexOk(s) && ServerData(s) && ServerGoes(s) == Some(s') && s.server.pc.SendStarted?
    ensures WriteFits(s, s')
  {
    assert s.plan.logs[..0] == [];
  }

  lemma OutputWriteFitsView(s: State, s': State)
    requires ServerIndexOk(s) && ServerData(s) && ServerGoes(s) == Some(s')
    requires s.server.pc.SendReady? || s.server.pc.SendDone?
    ensures WriteFits(s, s')
  {
  }

  lemma FinishWriteFitsView(s: State, s': State)
    requires ServerIndexOk(s) && ServerData(s) && ServerGoes(s) == Some(s') && s.server.pc.SendFinished?
    ensures WriteFits(s, s')
  {
    assert s.plan.outputClosure[..0] == [];
  }

  lemma WriteFitsView(s: State, s': State)
    requires ServerIndexOk(s) && ServerData(s) && ServerGoes(s) == Some(s')
    requires !ServerReads(s.server.pc) && !s.server.pc.ServerEnded?
    ensures WriteFits(s, s')
  {
    match s.server.pc {
      case SendMissing(_) => MissingWriteFitsView(s, s');
      case SendClosure(_) => ClosureWriteFitsView(s, s');
      case StreamLogs(_) => LogWriteFitsView(s, s');
      case Authorize => AdmissionWriteFitsView(s, s');
      case Redeem => AdmissionWriteFitsView(s, s');
      case WriteQueued => AdmissionWriteFitsView(s, s');
      case AwaitPermit => AdmissionWriteFitsView(s, s');
      case SendUploadReady => UploadWriteFitsView(s, s');
      case AcceptUpload => UploadWriteFitsView(s, s');
      case SendStarted => StartWriteFitsView(s, s');
      case SendFinished => FinishWriteFitsView(s, s');
      case SendReady => OutputWriteFitsView(s, s');
      case SendDone => OutputWriteFitsView(s, s');
    }
  }

  lemma SentKeepsClientSide(s: State, s': State, m: Message)
    requires ClientSide(s) && s'.plan == s.plan && s'.client == s.client && s'.toClient == s.toClient + [m]
    requires !s.server.pc.ServerEnded? && ServerIndexOk(s')
    requires s'.server.pc.ServerEnded? ==> s'.server.pc.end.Ran?
    requires Feed(s.plan, Promised(s), m) == Some(Promised(s'))
    ensures ClientSide(s')
  {
    if !s.client.pc.ClientEnded? {
      FeedAppend(s.plan, ClientView(s.client), s.toClient, m);
    }
  }

  lemma ServerGoFrame(s: State, s': State)
    requires ServerGoes(s) == Some(s')
    ensures s'.plan == s.plan && s'.client == s.client && s'.upload == s.upload
    ensures if ServerReads(s.server.pc) then
              s.toServer != [] && s'.toServer == s.toServer[1..] && s'.toClient == s.toClient
            else s'.toServer == s.toServer
  {
  }

  predicate BeforeClosure(pc: ServerPc) {
    !ServerReads(pc) && !pc.SendFinished? && !pc.SendClosure? && !pc.SendReady? && !pc.SendDone? && !pc.ServerEnded?
  }

  lemma EarlyWriteKeepsIntake(s: State, s': State)
    requires BeforeClosure(s.server.pc) && ServerGoes(s) == Some(s') && !s'.server.pc.ServerEnded?
    ensures ServerIntake(s'.server) == ServerIntake(s.server)
  {
  }

  lemma LateWriteKeepsIntake(s: State, s': State)
    requires !BeforeClosure(s.server.pc) && !ServerReads(s.server.pc) && ServerGoes(s) == Some(s')
    requires !s.server.pc.ServerEnded? && !s'.server.pc.ServerEnded?
    ensures ServerIntake(s'.server) == ServerIntake(s.server)
  {
  }

  lemma ServerWriteKeepsIntake(s: State, s': State)
    requires !ServerReads(s.server.pc) && !s.server.pc.ServerEnded? && ServerGoes(s) == Some(s')
    requires !s'.server.pc.ServerEnded?
    ensures ServerIntake(s'.server) == ServerIntake(s.server)
  {
    if BeforeClosure(s.server.pc) {
      EarlyWriteKeepsIntake(s, s');
    } else {
      LateWriteKeepsIntake(s, s');
    }
  }

  lemma ServerWriteFrame(s: State, s': State)
    requires !ServerReads(s.server.pc) && !s.server.pc.ServerEnded? && ServerGoes(s) == Some(s')
    ensures s'.plan == s.plan && s'.client == s.client && s'.toServer == s.toServer && s'.upload == s.upload
    ensures !s'.server.pc.ServerEnded? ==> ServerIntake(s'.server) == ServerIntake(s.server)
  {
    ServerGoFrame(s, s');
    if !s'.server.pc.ServerEnded? {
      ServerWriteKeepsIntake(s, s');
    }
  }

  lemma ServerWriteKeepsSides(s: State, s': State)
    requires ClientSide(s) && ServerSide(s) && ServerData(s)
    requires !ServerReads(s.server.pc) && !s.server.pc.ServerEnded? && ServerGoes(s) == Some(s')
    ensures ClientSide(s') && ServerSide(s')
  {
    ServerWriteFrame(s, s');
    WriteFitsView(s, s');
    SameIntakeKeepsServerSide(s, s');
    if s'.toClient == s.toClient {
      SamePromiseKeepsClientSide(s, s');
    } else {
      SentKeepsClientSide(s, s', s'.toClient[|s'.toClient| - 1]);
    }
  }

  lemma ServerWriteKeepsData(s: State, s': State)
    requires ServerData(s)
    requires !ServerReads(s.server.pc) && !s.server.pc.ServerEnded? && ServerGoes(s) == Some(s')
    ensures ServerData(s')
  {
  }

  /** The data and verdicts of the other end do not depend on this end's steps. */
  lemma OtherEndsData(s: State, s': State)
    requires ClientData(s) && ServerData(s) && Verdicts(s) && s'.plan == s.plan
    ensures s'.client == s.client && s'.upload == s.upload ==> ClientData(s')
    ensures s'.server == s.server ==> ServerData(s')
    ensures s'.client == s.client && !s.server.pc.ServerEnded? ==> Verdicts(s')
  {
  }

  lemma ErrorKeepsClientSide(s: State, s': State, end: ServerEnd)
    requires ClientSide(s) && !s.server.pc.ServerEnded? && end in {Rejected, RunFailed}
    requires s' == ServerSends(s, Error(""), ServerEnded(end))
    ensures ClientSide(s')
  {
    if !s.client.pc.ClientEnded? {
      FeedAppend(s.plan, ClientView(s.client), s.toClient, Error(""));
      assert !Promised(s).stage.Over?;
    }
  }

  lemma DropKeepsClientSide(s: State, s': State)
    requires ClientSide(s) && MayDrop(s.server.pc) && s' == ServerTo(s, ServerEnded(Dropped))
    ensures ClientSide(s')
  {
  }

  lemma ServerFailureKeepsInv(s: State, act: ServerAct, s': State)
    requires Inv(s) && ServerNext(s, act) == Some(s') && act != ServerGo
    ensures Inv(s')
  {
    match act {
      case ServerRejects => ErrorKeepsClientSide(s, s', Rejected);
      case ServerFails => ErrorKeepsClientSide(s, s', RunFailed);
      case ServerDrops => DropKeepsClientSide(s, s');
      case ServerSeesClose => assert ClientSide(s');
    }
    assert s'.server.pc.ServerEnded? && !s'.server.pc.end.Ran? && !s.server.pc.ServerEnded?;
    SameIntakeKeepsServerSide(s, s');
    OtherEndsData(s, s');
    assert ServerData(s');
  }

  lemma ImportFailureKeepsInv(s: State, s': State)
    requires Inv(s) && s.client.pc == Import && s' == ClientTo(s, SendCacheDone(false))
    ensures Inv(s')
  {
    assert ClientView(s'.client) == ClientView(s.client);
    SameViewKeepsClientSide(s, s');
    SameDeliveryKeepsServerSide(s, s');
    OtherEndsData(s, s');
  }

  lemma AbortKeepsInv(s: State, s': State)
    requires Inv(s) && s' == ClientTo(s, ClientEnded(Aborted))
    ensures Inv(s')
  {
    SameDeliveryKeepsServerSide(s, s');
    OtherEndsData(s, s');
  }

  lemma ClientFailureKeepsInv(s: State, act: ClientAct, s': State)
    requires Inv(s) && ClientNext(s, act) == Some(s') && act != ClientGo
    ensures Inv(s')
  {
    if act == ImportFails { ImportFailureKeepsInv(s, s'); } else { AbortKeepsInv(s, s'); }
  }

  lemma ClientGoKeepsInv(s: State, s': State)
    requires Inv(s) && ClientGoes(s) == Some(s')
    ensures Inv(s')
  {
    if ClientReads(s.client.pc) {
      ClientReadFrame(s);
      ClientReadKeepsClientSide(s, s');
      SameDeliveryKeepsServerSide(s, s');
      ClientReadKeepsData(s, s');
      ClientReadKeepsVerdicts(s, s');
    } else {
      ClientWriteFrame(s, s');
      SameViewKeepsClientSide(s, s');
      ClientWriteKeepsServerSide(s, s');
      ClientWriteKeepsData(s, s');
    }
    OtherEndsData(s, s');
  }

  lemma ServerGoKeepsInv(s: State, s': State)
    requires Inv(s) && !s.server.pc.ServerEnded? && ServerGoes(s) == Some(s')
    ensures Inv(s')
  {
    if ServerReads(s.server.pc) {
      ServerReadKeepsPromise(s, s');
      SamePromiseKeepsClientSide(s, s');
      ServerReadKeepsServerSide(s, s');
      ServerReadKeepsData(s, s');
    } else {
      ServerWriteFrame(s, s');
      ServerWriteKeepsSides(s, s');
      ServerWriteKeepsData(s, s');
    }
    OtherEndsData(s, s');
  }

  predicate Proper(step: Step) {
    step == ByClient(ClientGo) || step == ByServer(ServerGo)
  }

  lemma StepKeepsInv(s: State, step: Step, s': State)
    requires Inv(s) && Next(s, step) == Some(s')
    ensures Inv(s')
  {
    match step {
      case ByClient(act) => if act == ClientGo { ClientGoKeepsInv(s, s'); } else { ClientFailureKeepsInv(s, act, s'); }
      case ByServer(act) => if act == ServerGo { ServerGoKeepsInv(s, s'); } else { ServerFailureKeepsInv(s, act, s'); }
    }
  }

  lemma {:induction false} RunKeepsInv(s: State, run: seq<Step>)
    requires Inv(s) && Exec(s, run).Some?
    ensures Inv(Exec(s, run).value)
    decreases |run|
  {
    if run != [] {
      var s' := Next(s, run[0]).value;
      StepKeepsInv(s, run[0], s');
      RunKeepsInv(s', run[1..]);
    }
  }

  /** The states of the runs of one session. */
  ghost predicate Reachable(plan: Plan, s: State) {
    exists run :: Exec(Init(plan), run) == Some(s)
  }

  lemma ReachableInv(plan: Plan, s: State)
    requires Reachable(plan, s)
    ensures Inv(s)
  {
    var run :| Exec(Init(plan), run) == Some(s);
    InitInv(plan);
    RunKeepsInv(Init(plan), run);
  }
}
