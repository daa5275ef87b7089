/**
  Serving the cache files of one build session (server/output_cache.rs, handle_cache_file_stream): any client may
  open any number of streams with any requests, the streams are handled concurrently, and the files of the cache
  are whatever the surroundings make them.
 */
module CacheSession {
  import opened Protocol
  import opened CachePath
  import Text

  /** What a request turns out to ask for. */
  datatype Asked = Rejected | Info | Narinfo(store: Option<string>) | Nar

  function Classify(access: map<string, string>, path: string): Asked {
    match Sanitize(path)
    case Err(_) => Rejected
    case Ok(path) =>
      match RouteOf(path)
      case ToCacheInfo => Info
      case ToNarinfo =>
        (match Lookup(path, access)
         case Err(_) => Rejected
         case Ok(store) => Narinfo(store))
      case ToNar => Nar
      case ToNothing => Rejected
  }

  datatype Stream =
    | Requested(path: string, asked: Asked)
    | Ensuring(path: string, store: string)
    | Reading(path: string, store: string)
    | Answering(path: string, store: string, text: Option<string>)
    | Opening(path: string, isNar: bool)
    | Answered(path: string, found: bool)
    | Failed(path: string)

  /**
    `Admitted`: the narinfo of this store path was read and named this NAR.  `Answer`: a response was sent; for a
    narinfo that was found, `text` is what was sent.
   */
  datatype Event =
    | Admitted(store: string, text: Option<string>, nar: string)
    | Answer(path: string, asked: Asked, found: bool, text: Option<string>)

  datatype Session = Session(access: map<string, string>, allowed: set<string>, streams: seq<Stream>, log: seq<Event>)

  function Init(closure: seq<string>): Session
    requires AllValid(closure)
  {
    Session(ByHash(closure), {}, [], [])
  }

  /** What the surroundings do to one step of a stream. */
  datatype Io = Fails | Works | Missing | Contents(text: Option<string>)

  datatype Step = Open(path: string) | Serve(k: nat, io: Io)

  function Put(s: Session, k: nat, stream: Stream): Session
    requires k < |s.streams|
  {
    s.(streams := s.streams[k := stream])
  }

  function Respond(s: Session, k: nat, path: string, asked: Asked, found: bool, text: Option<string>): Session
    requires k < |s.streams|
  {
    Put(s, k, Answered(path, found)).(log := s.log + [Answer(path, asked, found, text)])
  }

  function Dispatch(s: Session, k: nat, path: string, asked: Asked, io: Io): Session
    requires k < |s.streams|
  {
    match asked
    case Rejected => Put(s, k, Failed(path))
    case Info => Put(s, k, if io.Fails? then Failed(path) else Opening(path, false))
    case Narinfo(None) => Respond(s, k, path, asked, false, None)
    case Narinfo(Some(store)) => Put(s, k, Ensuring(path, store))
    case Nar => if path in s.allowed then Put(s, k, Opening(path, true)) else Respond(s, k, path, asked, false, None)
  }

  /** The narinfo is parsed and its NAR allowed before a byte of it is sent. */
  function Admit(s: Session, k: nat, path: string, store: string, text: Option<string>): Session
    requires k < |s.streams|
  {
    match NarinfoNarPath(text)
    case Err(_) => Put(s, k, Failed(path))
    case Ok(None) => Put(s, k, Answering(path, store, text))
    case Ok(Some(nar)) =>
      Put(s, k, Answering(path, store, text)).(
        allowed := s.allowed + {nar}, log := s.log + [Admitted(store, text, nar)])
  }

  function Next(s: Session, step: Step): Option<Session> {
    match step
    case Open(path) => Some(s.(streams := s.streams + [Requested(path, Classify(s.access, path))]))
    case Serve(k, io) =>
      if k >= |s.streams| then None
      else match s.streams[k]
        case Requested(path, asked) => Some(Dispatch(s, k, path, asked, io))
        case Ensuring(path, store) => Some(Put(s, k, if io.Fails? then Failed(path) else Reading(path, store)))
        case Reading(path, store) =>
          Some(if io.Contents? then Admit(s, k, path, store, io.text) else Put(s, k, Failed(path)))
        case Answering(path, store, text) =>
          Some(if io.Fails? then Put(s, k, Failed(path)) else Respond(s, k, path, Narinfo(Some(store)), true, text))
        case Opening(path, isNar) =>
          Some(if io.Fails? then Put(s, k, Failed(path))
               else Respond(s, k, path, if isNar then Nar else Info, !io.Missing?, None))
        case Answered(_, _) => None
        case Failed(_) => None
  }

  function Exec(s: Session, run: seq<Step>): Option<Session>
    decreases |run|
  {
    if run == [] then Some(s)
    else match Next(s, run[0])
      case None => None
      case Some(s') => Exec(s', run[1..])
  }

  // ---------------------------------------------------------------- the invariant

  ghost predicate Names(text: Option<string>, nar: string) {
    NarinfoNarPath(text) == Ok(Some(nar))
  }

  /** The NAR was admitted at some point of this log, for a path of the session. */
  ghost predicate AdmittedIn(log: seq<Event>, access: map<string, string>, nar: string) {
    exists j :: 0 <= j < |log| && IsAdmission(log[j], access, nar)
  }

  ghost predicate IsAdmission(event: Event, access: map<string, string>, nar: string) {
    event.Admitted? && event.nar == nar && event.store in access.Values && Names(event.text, nar)
  }

  /** Every admission is for a path of the session and true to its text. */
  ghost predicate EventOk(s: Session, i: nat)
    requires i < |s.log|
  {
    match s.log[i]
    case Admitted(store, text, nar) => IsAdmission(s.log[i], s.access, nar)
    case Answer(path, asked, found, text) =>
      && asked == Classify(s.access, path)
      && (asked.Narinfo? && found ==> forall nar :: Names(text, nar) ==> AdmittedIn(s.log[..i], s.access, nar))
      && (asked.Nar? && found ==> AdmittedIn(s.log[..i], s.access, path))
      && (asked.Narinfo? ==> (found <==> asked.store.Some?))
  }

  ghost predicate StreamOk(s: Session, stream: Stream) {
    match stream
    case Requested(path, asked) => asked == Classify(s.access, path)
    case Ensuring(path, store) => Classify(s.access, path) == Narinfo(Some(store))
    case Reading(path, store) => Classify(s.access, path) == Narinfo(Some(store))
    case Answering(path, store, text) =>
      Classify(s.access, path) == Narinfo(Some(store)) && forall nar :: Names(text, nar) ==> nar in s.allowed
    case Opening(path, isNar) =>
      if isNar then Classify(s.access, path) == Nar && path in s.allowed else Classify(s.access, path) == Info
    case Answered(_, _) => true
    case Failed(path) => Classify(s.access, path) != Narinfo(None)
  }

  ghost predicate AllowedOk(s: Session) {
    forall nar :: nar in s.allowed <==> AdmittedIn(s.log, s.access, nar)
  }

  ghost predicate StoresOk(access: map<string, string>, path: string) {
    Classify(access, path).Narinfo? && Classify(access, path).store.Some? ==>
      Classify(access, path).store.value in access.Values
  }

  ghost predicate Inv(s: Session) {
    && (forall k :: 0 <= k < |s.streams| ==> StreamOk(s, s.streams[k]))
    && (forall i :: 0 <= i < |s.log| ==> EventOk(s, i))
    && AllowedOk(s)
  }

  lemma FoundStoreIsAllowed(access: map<string, string>, path: string)
    ensures StoresOk(access, path)
  {
  }

  lemma AdmissionStays(log: seq<Event>, event: Event, access: map<string, string>, nar: string)
    ensures AdmittedIn(log + [event], access, nar) <==> AdmittedIn(log, access, nar) || IsAdmission(event, access, nar)
  {
    if AdmittedIn(log, access, nar) {
      var j :| 0 <= j < |log| && IsAdmission(log[j], access, nar);
      assert (log + [event])[j] == log[j];
    }
    if IsAdmission(event, access, nar) {
      assert (log + [event])[|log|] == event;
    }
  }

  /** A stream moves on while the log and the allowed set stay. */
  lemma PutKeepsInv(s: Session, k: nat, stream: Stream)
    requires Inv(s) && k < |s.streams| && StreamOk(s, stream)
    ensures Inv(Put(s, k, stream))
  {
    var s' := Put(s, k, stream);
    forall j | 0 <= j < |s'.streams|
      ensures StreamOk(s', s'.streams[j])
    {
      assert StreamOk(s, s'.streams[j]);
    }
    forall i | 0 <= i < |s'.log|
      ensures EventOk(s', i)
    {
      assert EventOk(s, i);
    }
  }

  /** An event is logged, and with an admission its NAR becomes allowed. */
  lemma LogKeepsInv(s: Session, event: Event, s': Session)
    requires Inv(s) && s'.access == s.access && s'.streams == s.streams && s'.log == s.log + [event]
    requires s'.allowed == if event.Admitted? then s.allowed + {event.nar} else s.allowed
    requires EventOk(s', |s.log|)
    ensures Inv(s')
  {
    forall k | 0 <= k < |s'.streams|
      ensures StreamOk(s', s'.streams[k])
    {
      assert StreamOk(s, s.streams[k]);
    }
    forall i | 0 <= i < |s'.log|
      ensures EventOk(s', i)
    {
      if i < |s.log| {
        assert EventOk(s, i);
        assert s'.log[..i] == s.log[..i];
      }
    }
    forall nar
      ensures nar in s'.allowed <==> AdmittedIn(s'.log, s'.access, nar)
    {
      AdmissionStays(s.log, event, s.access, nar);
    }
  }

  lemma RespondKeepsInv(s: Session, k: nat, path: string, asked: Asked, found: bool, text: Option<string>)
    requires Inv(s) && k < |s.streams| && asked == Classify(s.access, path)
    requires asked.Nar? && found ==> path in s.allowed
    requires asked.Narinfo? ==> (found <==> asked.store.Some?)
    requires asked.Narinfo? && found ==> forall nar :: Names(text, nar) ==> nar in s.allowed
    ensures Inv(Respond(s, k, path, asked, found, text))
  {
    var s1 := Put(s, k, Answered(path, found));
    PutKeepsInv(s, k, Answered(path, found));
    var s' := Respond(s, k, path, asked, found, text);
    assert s'.log[..|s.log|] == s.log;
    LogKeepsInv(s1, Answer(path, asked, found, text), s');
  }

  lemma DispatchKeepsInv(s: Session, k: nat, path: string, asked: Asked, io: Io)
    requires Inv(s) && k < |s.streams| && s.streams[k] == Requested(path, asked)
    ensures Inv(Dispatch(s, k, path, asked, io))
  {
    assert StreamOk(s, s.streams[k]);
    if asked == Narinfo(None) || (asked.Nar? && path !in s.allowed) {
      RespondKeepsInv(s, k, path, asked, false, None);
    } else {
      PutKeepsInv(s, k, Dispatch(s, k, path, asked, io).streams[k]);
    }
  }

  lemma AdmitKeepsInv(s: Session, k: nat, path: string, store: string, text: Option<string>)
    requires Inv(s) && k < |s.streams| && s.streams[k] == Reading(path, store)
    ensures Inv(Admit(s, k, path, store, text))
  {
    assert StreamOk(s, s.streams[k]);
    FoundStoreIsAllowed(s.access, path);
    var named := NarinfoNarPath(text);
    if named.Ok? && named.value.Some? {
      var nar := named.value.value;
      var s1 := s.(allowed := s.allowed + {nar}, log := s.log + [Admitted(store, text, nar)]);
      LogKeepsInv(s, Admitted(store, text, nar), s1);
      PutKeepsInv(s1, k, Answering(path, store, text));
    } else {
      PutKeepsInv(s, k, Admit(s, k, path, store, text).streams[k]);
    }
  }

  lemma OpenKeepsInv(s: Session, path: string)
    requires Inv(s)
    ensures Inv(s.(streams := s.streams + [Requested(path, Classify(s.access, path))]))
  {
    var s' := s.(streams := s.streams + [Requested(path, Classify(s.access, path))]);
    forall k | 0 <= k < |s'.streams|
      ensures StreamOk(s', s'.streams[k])
    {
      assert k < |s.streams| ==> StreamOk(s, s.streams[k]);
    }
    forall i | 0 <= i < |s'.log|
      ensures EventOk(s', i)
    {
      assert EventOk(s, i);
    }
  }

  lemma ServeKeepsInv(s: Session, k: nat, io: Io, s': Session)
    requires Inv(s) && Next(s, Serve(k, io)) == Some(s')
    ensures Inv(s')
  {
    assert StreamOk(s, s.streams[k]);
    match s.streams[k] {
      case Requested(path, asked) => DispatchKeepsInv(s, k, path, asked, io);
      case Ensuring(path, store) => PutKeepsInv(s, k, s'.streams[k]);
      case Reading(path, store) =>
        if io.Contents? { AdmitKeepsInv(s, k, path, store, io.text); } else { PutKeepsInv(s, k, Failed(path)); }
      case _ => LastServeKeepsInv(s, k, io, s');
    }
  }

  lemma LastServeKeepsInv(s: Session, k: nat, io: Io, s': Session)
    requires Inv(s) && Next(s, Serve(k, io)) == Some(s') && (s.streams[k].Answering? || s.streams[k].Opening?)
    ensures Inv(s')
  {
    var stream := s.streams[k];
    assert StreamOk(s, stream);
    if io.Fails? {
      PutKeepsInv(s, k, Failed(stream.path));
    } else if stream.Answering? {
      RespondKeepsInv(s, k, stream.path, Narinfo(Some(stream.store)), true, stream.text);
    } else {
      RespondKeepsInv(s, k, stream.path, if stream.isNar then Nar else Info, !io.Missing?, None);
    }
  }

  lemma StepKeepsInv(s: Session, step: Step, s': Session)
    requires Inv(s) && Next(s, step) == Some(s')
    ensures Inv(s')
  {
    match step {
      case Open(path) => OpenKeepsInv(s, path);
      case Serve(k, io) => ServeKeepsInv(s, k, io, s');
    }
  }

  lemma StepGrows(s: Session, step: Step, s': Session)
    requires Next(s, step) == Some(s')
    ensures s'.access == s.access && s.allowed <= s'.allowed && s.log <= s'.log
  {
  }

  lemma {:induction false} RunKeepsInv(s: Session, run: seq<Step>)
    requires Inv(s) && Exec(s, run).Some?
    ensures var s' := Exec(s, run).value; Inv(s') && s'.access == s.access && s.allowed <= s'.allowed && s.log <= s'.log
    decreases |run|
  {
    if run != [] {
      var s' := Next(s, run[0]).value;
      StepKeepsInv(s, run[0], s');
      StepGrows(s, run[0], s');
      RunKeepsInv(s', run[1..]);
    }
  }

  lemma InitInv(closure: seq<string>)
    requires AllValid(closure)
    ensures Inv(Init(closure))
  {
  }

  // ---------------------------------------------------------------- every run of every client

  function After(closure: seq<string>, run: seq<Step>): Session
    requires AllValid(closure) && Exec(Init(closure), run).Some?
  {
    Exec(Init(closure), run).value
  }

  lemma ReachableInv(closure: seq<string>, run: seq<Step>)
    requires AllValid(closure) && Exec(Init(closure), run).Some?
    ensures Inv(After(closure, run)) && After(closure, run).access == ByHash(closure)
  {
    InitInv(closure);
    RunKeepsInv(Init(closure), run);
  }

  lemma {:induction false} CollectedValues(keys: seq<string>, values: seq<string>, value: string)
    requires |keys| == |values| && value in Collect(keys, values).Values
    ensures value in values
    decreases |keys|
  {
    if keys != [] {
      var n := |keys| - 1;
      if value != values[n] {
        CollectedValues(keys[..n], values[..n], value);
      }
    }
  }

  /** Which narinfo requests are for a path of the closure. */
  lemma ClassifiedNarinfo(closure: seq<string>, hash: string)
    requires AllValid(closure) && ValidStem(hash)
    ensures var asked := Classify(ByHash(closure), hash + NARINFO);
            asked.Narinfo? && (asked.store.None? <==> hash !in Hashes(closure))
  {
    NarinfoFormIsAccepted(hash);
    assert IsNarinfoForm(hash + NARINFO);
    RouteIsForm(hash + NARINFO, ByHash(closure));
    LookupFindsLast(closure, hash);
  }

  /**
    A NAR is handed out only after a narinfo of this build's closure that names it was handled in the same session:
    the admission comes earlier in the log than the answer.
   */
  lemma NarAnswersWereNamed(closure: seq<string>, run: seq<Step>, i: nat)
    requires AllValid(closure) && Exec(Init(closure), run).Some?
    requires var log := After(closure, run).log; i < |log| && log[i].Answer? && IsNarForm(log[i].path) && log[i].found
    ensures var log := After(closure, run).log;
            exists j :: 0 <= j < i && log[j].Admitted? && log[j].nar == log[i].path && log[j].store in closure
                        && NarinfoNarPath(log[j].text) == Ok(Some(log[i].path))
  {
    ReachableInv(closure, run);
    var s := After(closure, run);
    assert EventOk(s, i);
    var path := s.log[i].path;
    NarIsClassified(s.access, path);
    assert AdmittedIn(s.log[..i], s.access, path);
    var j :| 0 <= j < i && IsAdmission(s.log[..i][j], s.access, path);
    CollectedValues(Hashes(closure), closure, s.log[j].store);
    assert s.log[j].Admitted?;
  }

  /** The allowed set is exactly what has been admitted, and it only grows. */
  lemma AllowedIsAdmitted(closure: seq<string>, run: seq<Step>, more: seq<Step>)
    requires AllValid(closure) && Exec(Init(closure), run).Some? && Exec(After(closure, run), more).Some?
    ensures var s := After(closure, run);
            && (forall nar :: nar in s.allowed <==>
                  exists j :: 0 <= j < |s.log| && IsAdmission(s.log[j], s.access, nar))
            && s.allowed <= Exec(s, more).value.allowed
  {
    ReachableInv(closure, run);
    RunKeepsInv(After(closure, run), more);
    var s := After(closure, run);
    forall nar
      ensures nar in s.allowed <==> exists j :: 0 <= j < |s.log| && IsAdmission(s.log[j], s.access, nar)
    {
      assert nar in s.allowed <==> AdmittedIn(s.log, s.access, nar);
    }
  }

  /** A narinfo request outside the closure is answered `found = false`, and handling it never fails otherwise. */
  lemma OutsideClosureIsNotFound(closure: seq<string>, run: seq<Step>, hash: string)
    requires AllValid(closure) && Exec(Init(closure), run).Some? && ValidStem(hash) && hash !in Hashes(closure)
    ensures var s := After(closure, run);
            && (forall i :: 0 <= i < |s.log| && s.log[i].Answer? && s.log[i].path == hash + NARINFO ==> !s.log[i].found)
            && (forall k :: 0 <= k < |s.streams| && s.streams[k].path == hash + NARINFO ==> !s.streams[k].Failed?)
  {
    ReachableInv(closure, run);
    ClassifiedNarinfo(closure, hash);
    var s := After(closure, run);
    forall i | 0 <= i < |s.log| && s.log[i].Answer? && s.log[i].path == hash + NARINFO
      ensures !s.log[i].found
    {
      assert EventOk(s, i);
    }
    forall k | 0 <= k < |s.streams| && s.streams[k].path == hash + NARINFO
      ensures !s.streams[k].Failed?
    {
      assert StreamOk(s, s.streams[k]);
    }
  }

  lemma NarIsClassified(access: map<string, string>, nar: string)
    requires IsNarForm(nar)
    ensures Classify(access, nar) == Nar
  {
    NarFormIsAccepted(nar);
    RouteIsForm(nar, access);
  }

  lemma NamedIsAllowed(s: Session, i: nat, nar: string)
    requires Inv(s) && i < |s.log| && s.log[i].Answer? && s.log[i].asked.Narinfo? && s.log[i].found
    requires NarinfoNarPath(s.log[i].text) == Ok(Some(nar))
    ensures nar in s.allowed
  {
    assert EventOk(s, i);
    assert Names(s.log[i].text, nar);
    var j :| 0 <= j < i && IsAdmission(s.log[..i][j], s.access, nar);
    assert IsAdmission(s.log[j], s.access, nar);
    assert AdmittedIn(s.log, s.access, nar);
  }

  /** A client that has been sent a narinfo is never refused the NAR that this narinfo names. */
  lemma NamedNarIsNotRefused(closure: seq<string>, run: seq<Step>, i: nat, nar: string, k: nat, io: Io)
    requires AllValid(closure) && Exec(Init(closure), run).Some?
    requires var s := After(closure, run);
             && i < |s.log| && s.log[i].Answer? && s.log[i].asked.Narinfo? && s.log[i].found
             && NarinfoNarPath(s.log[i].text) == Ok(Some(nar))
             && k < |s.streams| && s.streams[k].Requested? && s.streams[k].path == nar
    ensures var s := After(closure, run);
            Next(s, Serve(k, io)) == Some(Put(s, k, Opening(nar, true)))
  {
    ReachableInv(closure, run);
    var s := After(closure, run);
    NamedIsAllowed(s, i, nar);
    FirstUrlIsNar(Text.Lines(s.log[i].text.value));
    NarIsClassified(s.access, nar);
    assert StreamOk(s, s.streams[k]);
  }

  // ---------------------------------------------------------------- what a stream comes to

  /** What the surroundings did to the steps of stream k, in order. */
  function IosOf(run: seq<Step>, k: nat): seq<Io> {
    if run == [] then []
    else (if run[0].Serve? && run[0].k == k then [run[0].io] else []) + IosOf(run[1..], k)
  }

  lemma OthersKeepStream(s: Session, step: Step, s': Session, k: nat)
    requires Next(s, step) == Some(s') && k < |s.streams|
    ensures k < |s'.streams| && s.log <= s'.log && s'.access == s.access
    ensures !(step.Serve? && step.k == k) ==> s'.streams[k] == s.streams[k]
  {
  }

  ghost predicate Logged(from: Session, s: Session, event: Event) {
    exists i :: |from.log| <= i < |s.log| && s.log[i] == event
  }

  /** One step of the run, and what it leaves of stream k and of its steps. */
  lemma FirstStep(s: Session, run: seq<Step>, k: nat) returns (s': Session)
    requires run != [] && Exec(s, run).Some? && k < |s.streams|
    ensures Next(s, run[0]) == Some(s') && Exec(s', run[1..]) == Exec(s, run) && k < |s'.streams| && s.log <= s'.log
    ensures if run[0].Serve? && run[0].k == k then IosOf(run, k) == [run[0].io] + IosOf(run[1..], k)
            else IosOf(run, k) == IosOf(run[1..], k) && s'.streams[k] == s.streams[k]
    ensures forall last, event :: Logged(s', last, event) ==> Logged(s, last, event)
  {
    s' := Next(s, run[0]).value;
    OthersKeepStream(s, run[0], s', k);
  }

  lemma {:induction false} EndedStays(s: Session, run: seq<Step>, k: nat)
    requires Exec(s, run).Some? && k < |s.streams| && (s.streams[k].Answered? || s.streams[k].Failed?)
    ensures IosOf(run, k) == [] && k < |Exec(s, run).value.streams| && Exec(s, run).value.streams[k] == s.streams[k]
    ensures s.log <= Exec(s, run).value.log
    decreases |run|
  {
    if run != [] {
      var s' := FirstStep(s, run, k);
      EndedStays(s', run[1..], k);
    }
  }

  /** A stream with one step to go: it fails with that step, or it answers. */
  ghost predicate EndsWith(s: Session, s': Session, k: nat, path: string, ios: seq<Io>, answer: Event)
    requires k < |s.streams| && answer.Answer?
  {
    && k < |s'.streams|
    && (if ios == [] then s'.streams[k] == s.streams[k]
        else |ios| == 1
             && if ios[0].Fails? then s'.streams[k] == Failed(path)
                else s'.streams[k] == Answered(path, answer.found) && Logged(s, s', answer))
  }

  lemma {:induction false} AnsweringEnds(s: Session, run: seq<Step>, k: nat)
    requires Exec(s, run).Some? && k < |s.streams| && s.streams[k].Answering?
    ensures var stream := s.streams[k];
            EndsWith(s, Exec(s, run).value, k, stream.path, IosOf(run, k),
                     Answer(stream.path, Narinfo(Some(stream.store)), true, stream.text))
    decreases |run|
  {
    if run != [] {
      var s' := FirstStep(s, run, k);
      if s'.streams[k] == s.streams[k] {
        AnsweringEnds(s', run[1..], k);
      } else {
        EndedStays(s', run[1..], k);
        assert !run[0].io.Fails? ==> s'.log[|s.log|] == Exec(s, run).value.log[|s.log|];
      }
    }
  }

  lemma {:induction false} OpeningEnds(s: Session, run: seq<Step>, k: nat)
    requires Exec(s, run).Some? && k < |s.streams| && s.streams[k].Opening?
    ensures var stream, ios := s.streams[k], IosOf(run, k);
            EndsWith(s, Exec(s, run).value, k, stream.path, ios,
                     Answer(stream.path, if stream.isNar then Nar else Info, ios != [] && ios[0] != Missing, None))
    decreases |run|
  {
    if run != [] {
      var s' := FirstStep(s, run, k);
      if s'.streams[k] == s.streams[k] {
        OpeningEnds(s', run[1..], k);
      } else {
        EndedStays(s', run[1..], k);
        assert !run[0].io.Fails? ==> s'.log[|s.log|] == Exec(s, run).value.log[|s.log|];
      }
    }
  }

  /** The narinfo is read as text that names a NAR or none. */
  predicate ReadsWell(io: Io) {
    io.Contents? && NarinfoNarPath(io.text).Ok?
  }

  /** From reading on: the stream fails, or it sends just what it has read. */
  ghost predicate ReadingEndsIn(s: Session, s': Session, k: nat, path: string, store: string, ios: seq<Io>) {
    && k < |s'.streams| && |ios| <= 2 && s'.streams[k] != Answered(path, false)
    && (s'.streams[k] == Failed(path) <==> ios != [] && (!ReadsWell(ios[0]) || (|ios| == 2 && ios[1].Fails?)))
    && (|ios| == 2 && ReadsWell(ios[0]) && !ios[1].Fails? ==>
          s'.streams[k] == Answered(path, true) && Logged(s, s', Answer(path, Narinfo(Some(store)), true, ios[0].text)))
  }

  lemma {:induction false} ReadingEnds(s: Session, run: seq<Step>, k: nat)
    requires Exec(s, run).Some? && k < |s.streams| && s.streams[k].Reading?
    ensures ReadingEndsIn(s, Exec(s, run).value, k, s.streams[k].path, s.streams[k].store, IosOf(run, k))
    decreases |run|
  {
    if run != [] {
      var s' := FirstStep(s, run, k);
      if s'.streams[k] == s.streams[k] {
        ReadingEnds(s', run[1..], k);
      } else if s'.streams[k].Failed? {
        EndedStays(s', run[1..], k);
      } else {
        AnsweringEnds(s', run[1..], k);
      }
    }
  }

  /** From the request on, for a narinfo of the closure: dispatch, ensure, read and answer. */
  ghost predicate NarinfoEndsIn(s: Session, s': Session, k: nat, path: string, store: string, ios: seq<Io>) {
    && k < |s'.streams| && |ios| <= 4 && s'.streams[k] != Answered(path, false)
    && (s'.streams[k] == Failed(path) <==>
          || (|ios| >= 2 && ios[1].Fails?)
          || (|ios| >= 3 && !ReadsWell(ios[2]))
          || (|ios| == 4 && ios[3].Fails?))
    && (|ios| == 4 && !ios[1].Fails? && ReadsWell(ios[2]) && !ios[3].Fails? ==>
          s'.streams[k] == Answered(path, true) && Logged(s, s', Answer(path, Narinfo(Some(store)), true, ios[2].text)))
  }

  lemma {:induction false} EnsuringEnds(s: Session, run: seq<Step>, k: nat, skipped: Io)
    requires Exec(s, run).Some? && k < |s.streams| && s.streams[k].Ensuring?
    ensures NarinfoEndsIn(s, Exec(s, run).value, k, s.streams[k].path, s.streams[k].store, [skipped] + IosOf(run, k))
    decreases |run|
  {
    if run != [] {
      var s' := FirstStep(s, run, k);
      if s'.streams[k] == s.streams[k] {
        EnsuringEnds(s', run[1..], k, skipped);
      } else if s'.streams[k].Failed? {
        EndedStays(s', run[1..], k);
      } else {
        ReadingEnds(s', run[1..], k);
      }
    }
  }

  lemma {:induction false} NarinfoEnds(s: Session, run: seq<Step>, k: nat, path: string, store: string)
    requires Exec(s, run).Some? && k < |s.streams| && s.streams[k] == Requested(path, Narinfo(Some(store)))
    ensures NarinfoEndsIn(s, Exec(s, run).value, k, path, store, IosOf(run, k))
    decreases |run|
  {
    if run != [] {
      var s' := FirstStep(s, run, k);
      if s'.streams[k] == s.streams[k] {
        NarinfoEnds(s', run[1..], k, path, store);
      } else {
        EnsuringEnds(s', run[1..], k, run[0].io);
      }
    }
  }

  /** The stream that is opened next is for what its path asks. */
  lemma OpenedIs(s: Session, path: string, more: seq<Step>) returns (s': Session)
    requires Exec(s, [Open(path)] + more).Some?
    ensures Next(s, Open(path)) == Some(s') && Exec(s', more) == Exec(s, [Open(path)] + more)
    ensures |s'.streams| == |s.streams| + 1 && s'.streams[|s.streams|] == Requested(path, Classify(s.access, path))
    ensures s'.log == s.log && s'.access == s.access && s'.allowed == s.allowed
  {
    s' := Next(s, Open(path)).value;
    assert ([Open(path)] + more)[1..] == more;
  }

  lemma ClosureHashIsFound(closure: seq<string>, hash: string) returns (store: string)
    requires AllValid(closure) && hash in Hashes(closure)
    ensures store in closure && Hash(store) == hash
    ensures Classify(ByHash(closure), hash + ".narinfo") == Narinfo(Some(store))
  {
    var k := LastWith(Hashes(closure), hash);
    HashIsStem(closure[k]);
    NarinfoFormIsAccepted(hash);
    assert IsNarinfoForm(hash + NARINFO);
    RouteIsForm(hash + NARINFO, ByHash(closure));
    LookupFindsLast(closure, hash);
    store := closure[k];
  }

  lemma {:induction false} LastWith(keys: seq<string>, key: string) returns (k: nat)
    requires key in keys
    ensures IsLastAt(keys, k, key)
    decreases |keys|
  {
    var n := |keys| - 1;
    if keys[n] == key {
      k := n;
    } else {
      assert keys == keys[..n] + [keys[n]];
      k := LastWith(keys[..n], key);
    }
  }

  /**
    Every path of the closure is served.  A stream that asks for its narinfo is never answered `found = false`; it
    fails exactly if filling the entry, reading or parsing the narinfo, or sending it fails; and after its four steps
    it has otherwise sent, as found, the text that it has read.
   */
  lemma ClosureIsServed(closure: seq<string>, run: seq<Step>, hash: string, more: seq<Step>)
    requires AllValid(closure) && Exec(Init(closure), run).Some? && hash in Hashes(closure)
    requires Exec(After(closure, run), [Open(hash + ".narinfo")] + more).Some?
    ensures var s, path := After(closure, run), hash + ".narinfo";
            var s', k := Exec(s, [Open(path)] + more).value, |s.streams|;
            exists store :: store in closure && Hash(store) == hash
                            && NarinfoEndsIn(s, s', k, path, store, IosOf(more, k))
  {
    ReachableInv(closure, run);
    var store := ClosureHashIsFound(closure, hash);
    var s, path := After(closure, run), hash + ".narinfo";
    var s1 := OpenedIs(s, path, more);
    NarinfoEnds(s1, more, |s.streams|, path, store);
    var s' := Exec(s1, more).value;
    assert forall event :: Logged(s1, s', event) ==> Logged(s, s', event);
    assert NarinfoEndsIn(s, s', |s.streams|, path, store, IosOf(more, |s.streams|));
  }

  /** No answer ever denies a path of the closure. */
  lemma ClosureIsNeverDenied(closure: seq<string>, run: seq<Step>, hash: string, i: nat)
    requires AllValid(closure) && Exec(Init(closure), run).Some? && hash in Hashes(closure)
    requires i < |After(closure, run).log| && After(closure, run).log[i].Answer?
    requires After(closure, run).log[i].path == hash + ".narinfo"
    ensures After(closure, run).log[i].found
  {
    ReachableInv(closure, run);
    var store := ClosureHashIsFound(closure, hash);
    assert EventOk(After(closure, run), i);
  }

  /** A stream for a file to open, from the request on. */
  ghost predicate FileEndsIn(s: Session, s': Session, k: nat, path: string, asked: Asked, ios: seq<Io>) {
    && k < |s'.streams| && |ios| <= 2
    && (|ios| == 2 ==>
          if ios[1].Fails? then s'.streams[k] == Failed(path)
          else s'.streams[k] == Answered(path, ios[1] != Missing)
               && Logged(s, s', Answer(path, asked, ios[1] != Missing, None)))
  }

  lemma {:induction false} AllowedNarEnds(s: Session, run: seq<Step>, k: nat, nar: string)
    requires Exec(s, run).Some? && k < |s.streams| && s.streams[k] == Requested(nar, Nar) && nar in s.allowed
    ensures FileEndsIn(s, Exec(s, run).value, k, nar, Nar, IosOf(run, k))
    decreases |run|
  {
    if run != [] {
      var s' := FirstStep(s, run, k);
      if s'.streams[k] == s.streams[k] {
        StepGrows(s, run[0], s');
        AllowedNarEnds(s', run[1..], k, nar);
      } else {
        OpeningEnds(s', run[1..], k);
      }
    }
  }

  /**
    A NAR that a narinfo sent earlier has named is served: a request for it is answered as found if its file is there
    and as not found if it is not, and only a failure of the surroundings keeps it from being answered.
   */
  lemma NamedNarIsServed(closure: seq<string>, run: seq<Step>, i: nat, nar: string, more: seq<Step>)
    requires AllValid(closure) && Exec(Init(closure), run).Some?
    requires var log := After(closure, run).log;
             && i < |log| && log[i].Answer? && log[i].asked.Narinfo? && log[i].found
             && NarinfoNarPath(log[i].text) == Ok(Some(nar))
    requires Exec(After(closure, run), [Open(nar)] + more).Some?
    ensures var s := After(closure, run);
            FileEndsIn(s, Exec(s, [Open(nar)] + more).value, |s.streams|, nar, Nar, IosOf(more, |s.streams|))
  {
    ReachableInv(closure, run);
    var s := After(closure, run);
    NamedIsAllowed(s, i, nar);
    FirstUrlIsNar(Text.Lines(s.log[i].text.value));
    NarIsClassified(s.access, nar);
    var s1 := OpenedIs(s, nar, more);
    AllowedNarEnds(s1, more, |s.streams|, nar);
    assert forall event :: Logged(s1, Exec(s1, more).value, event) ==> Logged(s, Exec(s1, more).value, event);
  }

  lemma {:induction false} InfoEnds(s: Session, run: seq<Step>, k: nat, path: string)
    requires Exec(s, run).Some? && k < |s.streams| && s.streams[k] == Requested(path, Info)
    ensures var s', ios := Exec(s, run).value, IosOf(run, k);
            if ios != [] && ios[0].Fails? then k < |s'.streams| && s'.streams[k] == Failed(path)
            else FileEndsIn(s, s', k, path, Info, ios)
    decreases |run|
  {
    if run != [] {
      var s' := FirstStep(s, run, k);
      if s'.streams[k] == s.streams[k] {
        InfoEnds(s', run[1..], k, path);
      } else if run[0].io.Fails? {
        EndedStays(s', run[1..], k);
      } else {
        OpeningEnds(s', run[1..], k);
      }
    }
  }

  /** So is the cache info file, which needs no narinfo first. */
  lemma InfoIsServed(closure: seq<string>, run: seq<Step>, more: seq<Step>)
    requires AllValid(closure) && Exec(Init(closure), run).Some?
    requires Exec(After(closure, run), [Open("nix-cache-info")] + more).Some?
    ensures var s := After(closure, run);
            var s', ios := Exec(s, [Open("nix-cache-info")] + more).value, IosOf(more, |s.streams|);
            if ios != [] && ios[0].Fails? then
              |s.streams| < |s'.streams| && s'.streams[|s.streams|] == Failed("nix-cache-info")
            else FileEndsIn(s, s', |s.streams|, "nix-cache-info", Info, ios)
  {
    var s := After(closure, run);
    var s1 := OpenedIs(s, "nix-cache-info", more);
    RouteIsForm(CACHE_INFO, s.access);
    InfoEnds(s1, more, |s.streams|, "nix-cache-info");
    assert forall event :: Logged(s1, Exec(s1, more).value, event) ==> Logged(s, Exec(s1, more).value, event);
  }

  lemma UnnamedIsNotAllowed(s: Session, nar: string)
    requires Inv(s) && forall j :: 0 <= j < |s.log| && s.log[j].Admitted? ==> s.log[j].nar != nar
    ensures nar !in s.allowed
  {
    assert nar in s.allowed <==> AdmittedIn(s.log, s.access, nar);
  }

  /** A NAR that no handled narinfo has named is answered as not found, in one step and without a failure. */
  lemma UnnamedNarIsDenied(closure: seq<string>, run: seq<Step>, k: nat, nar: string, io: Io)
    requires AllValid(closure) && Exec(Init(closure), run).Some? && IsNarForm(nar)
    requires var s := After(closure, run);
             && k < |s.streams| && s.streams[k].Requested? && s.streams[k].path == nar
             && forall j :: 0 <= j < |s.log| && s.log[j].Admitted? ==> s.log[j].nar != nar
    ensures var s := After(closure, run);
            Next(s, Serve(k, io)) == Some(Respond(s, k, nar, Nar, false, None))
  {
    ReachableInv(closure, run);
    var s := After(closure, run);
    assert StreamOk(s, s.streams[k]);
    NarIsClassified(s.access, nar);
    UnnamedIsNotAllowed(s, nar);
  }
}
