# drv-thru in Dafny

drv-thru is a remote Nix build service: a client sends a derivation's closure to a server, the server builds it and
serves the outputs from a signed binary cache, and the client mirrors and imports what it lacks.  This project models
the parts of it whose correctness depends on several functions at once and proves what they promise.

| module | what it models |
|---|---|
| `Protocol` | messages, results, the cut of a path list into chunks of 512 |
| `ControlSession`, `SessionResults`, `SessionPeers` | client and server as two machines over two FIFO control streams, what holds of every run of them, and of either one with any peer |
| `Tickets`, `StatusRegistry`, `Admission` | the ticket store, the status registry, and any number of connections over both and the build semaphore |
| `RegistryEntries`, `ConnectionEntries` | what the entries of the registry carry, in terms of calls and of connections |
| `CacheFiles`, `CacheFill`, `CacheSession`, `Mirror` | the files of the output cache, filling it, serving it to one session, mirroring it at the client |
| `Delivery` | the mirror and the fills together |
| `Wire`, `PathChunks`, `FrameSize` | framing, chunked lists with limits, the exact size of messages that carry store paths |
| `JsonText`, `JsonReading` | the JSON text of these messages, and that it reads back |
| `Text`, `CachePath`, `NixStore` | string operations, cache file names and store paths, lists of store paths around the Nix commands |
| `AnsiText`, `HttpHead`, `LogMerge` | the status line, the local server's request head, the merge of build logs |
| `AtomicFile` | status.json across failures and stops |

Protocols are step systems: `Next` gives the state after one labelled step, `Exec` after a whole sequence of them, and
the main lemmas quantify over every sequence.  Objects whose methods change their fields in the program are classes,
and each method is proved against a function on values about which the lemmas speak.

## Findings

- A ready cache entry can be removed again.  It happens exactly if a narinfo left over from before names a missing NAR
  that filling another entry brings back (`CacheFill.LosesReadyIffSharedDangling`).  A narinfo that cannot be read or
  parsed is never repaired: each caller gets the error (`CacheFill.AnswersWithoutFailures`).
- A caller can be told Ok for an entry that is not ready, and then its handler fails.  The readiness check reads the
  narinfo and looks for the NAR in two steps, the first time without the lock, so another caller can remove the narinfo
  and write the NAR in between.  It happens exactly if the cache starts with a narinfo that names a missing NAR which
  some fill, the entry's own included, would write (`CacheFill.MisleadsIffFillable`).  For the client a build's outputs
  can then fail to arrive although nothing has failed (`Delivery.ErrsIffUnsound`).  A dangling narinfo is what a lost
  or removed NAR leaves behind; fills leave none (`CacheFill.FillsAddNothingBroken`).
- The status registry's active list can exceed the configured concurrency, because the permit is dropped before the
  result is recorded (`Admission.ActiveCanExceedPermits`; the bound is `Admission.ActiveIsBounded`).
- A build whose enqueue could not be written is listed as queued for good (`Admission.LeaksStay`).
- A registry update for which the clock gives no answer is skipped, not repeated: the build of an ended connection then
  stays listed as active or queued for good (`Admission.EndedBuildsAreRecorded`).
- The reply to an output request is one message, while the request is chunked: requests that all limits accept can
  have a reply that is too large (`FrameSize.AcceptedRequestWithoutReply`; the condition is
  `FrameSize.CacheReadyFitsIff`).  With paths of 80 bytes this begins at 12,633 paths.
- Which HTTP heads are accepted depends on how their bytes arrive if the blank line ends at bytes 16,386 to 17,408
  (`HttpHead.AcceptedWhateverTheSplitIff`).
- A path below `nar/` that ends in `.narinfo` is refused, because that suffix is looked at first
  (`CachePath.AcceptedIffOneForm`).

## Assumptions

- Streams are FIFO and reading one message is atomic.  `nix`, `nix-store`, JSON and UTF-8 decoding are parameters; what
  a lemma needs of them is a predicate it requires (`Faithful`, `Compact`, `WritesJson`, `Honest`, `DecodesAscii`).
- An operation on the ticket store is atomic: the file lock works.  A failed write leaves the file as it was, which is
  what `AtomicFile` proves with renaming taken as atomic.
- `CacheFill` proves exclusion, the permit bound, the callers' step bound and that Ok follows a passed check for a
  `nix copy` that may leave any files behind; what it says about readiness takes a copy that writes the NAR and then
  the narinfo of its argument only (`ownEntryOnly`).  `Mirror` leaves the cache to its surroundings, which are to keep
  NARs and what entries told Ok have (`Keeps`); `Delivery` puts the fills there and proves that they do.
- In `Admission` the name under which a client is listed is fixed when its connection arrives; the program derives it
  from the access list or the ticket.
- Creating the cache directory and the exit of a copy that writes its own entry are no steps of their own; a failure
  there is a failure of the caller.

## Model

| member | source | states |
|---|---|---|
| `SessionResults.HeadsAreAccepted` | crates/drv-thru/src/client/session.rs:61-123 | In every reachable state of a client and a server over two FIFO streams, with failures allowed wherever the code can fail, the message at the head of a live reader's stream is one that the reader accepts there, and neither side ever ends on an unexpected message |
| `SessionResults.NoMutualWait` | crates/drv-thru/src/server/connection.rs:21-79 | When the client waits on an empty stream, a waiting server has a message to read, and a server that waits for the input upload has it |
| `SessionResults.NeverStuck` | crates/drv-thru/src/client/session.rs:240-284 | Until both sides have ended, a step that is no failure is possible |
| `SessionResults.EndsAgree` | crates/drv-thru/src/server/build.rs:54-110 | A client that reports success talked to a server whose build succeeded, that was offered the client's own way in and asked for its own build, with the full logs, closures and request on both sides; a reported build failure is the server's; an upload carries exactly the missing paths; what either side holds is at any time a prefix of what the other meant |
| `SessionResults.ClientIsIntroduced` | crates/drv-thru/src/client/session.rs:308-334 | A client without a ticket announces itself as trusted, one with a ticket sends its secret; every server past that message was offered just this, and every server past the request was asked for the client's build |
| `SessionResults.FailedImportIsReported` | crates/drv-thru/src/client_cache/mod.rs:35-77 | After a failed import the client ends with that failure, whatever the server answers |
| `SessionResults.SuccessMeansImported` | crates/drv-thru/src/client_cache/mod.rs:45-77 | A client that wants outputs reports success only if it has imported them |
| `SessionResults.BuildHasItsInputs` | crates/drv-thru/src/server/build.rs:54-110 | A build starts only when exactly the inputs that the server misses have been uploaded |
| `SessionResults.ErrorIsReported` | crates/drv-thru/src/client/session.rs:336-341 | A client that reads an error ends with what the server said, except after a failed import of its own |
| `SessionResults.FailureIsSent` | crates/drv-thru/src/server/connection.rs:195-219 | Wherever a client can be refused or its run can fail, the server can send an error and end with that |
| `SessionResults.RunsAreBounded` | crates/drv-thru/src/server/output_cache.rs:88-157 | No session, whatever fails in it, takes more steps than the rank of its first state |
| `SessionResults.RegularStepsFinish` | crates/drv-thru/src/server/connection.rs:221-225 | From every reachable state, steps that are no failures lead to a state where both sides have ended |
| `SessionResults.UndisturbedSessionCompletes` | crates/drv-thru/src/client_cache/mod.rs:35-84 | Without failures every schedule that cannot be continued ends at both sides with the build's own result, all lists and logs delivered, and an upload exactly if inputs were missing |
| `SessionPeers.ServerHoldsWhatItWasSent` | crates/drv-thru/src/server/connection.rs:21-104 | Whatever any client sends: what the server has taken is a first part of it and is exactly the greeting with version 5 and the peer's own id, the way in, the build request and the chunked lists that lead to where the server is; a successful run ends only after a whole request and, unless it is empty, word that it is copied |
| `SessionPeers.ClientHoldsWhatItWasSent` | crates/drv-thru/src/client/session.rs:240-284 | Whatever any server sends: what the client has taken is exactly the messages that lead to where the client is; it reports success only after it was let in, queued, asked for its missing inputs, told that the build succeeded, and sent the whole closure and the end of the session |
| `Tickets.TicketStore.Create` | crates/drv-thru/src/ticket.rs:168-210 | Create leaves the store with the answer and tickets of `CreateIn`; a collision replaces nothing |
| `Tickets.TicketStore.Revoke` | crates/drv-thru/src/ticket.rs:226-238 | Revoke leaves the store with the answer and tickets of `RevokeIn` |
| `Tickets.TicketStore.Check` | crates/drv-thru/src/ticket.rs:240-251 | Check answers `CheckIn` and changes nothing |
| `Tickets.TicketStore.Redeem` | crates/drv-thru/src/ticket.rs:253-273 | Redeem leaves the store with the answer and tickets of `RedeemIn`, and its subtraction cannot go below zero |
| `Tickets.CheckAcceptsIff` | crates/drv-thru/src/ticket.rs:315-334 | A client is let in exactly if the ticket exists, is not revoked, not expired, not used up, and unbound or bound to that client |
| `Tickets.CreatedThenRedeemed` | crates/drv-thru/src/ticket.rs:168-273 | Creating adds one new ticket and touches no other, and a later redeem of it succeeds exactly before its expiry, for the client it was bound to, if it has uses and the store can be written |
| `Tickets.RedeemTakesOneUse` | crates/drv-thru/src/ticket.rs:264-272 | A successful redeem takes exactly one use off a ticket that is valid at that moment and changes nothing else |
| `Tickets.UsesAreConserved` | crates/drv-thru/src/ticket.rs:253-273 | Over any operations, successful redeems and remaining uses of a counted ticket add up to what it was created with |
| `Tickets.RevokeSetsFlag` | crates/drv-thru/src/ticket.rs:226-238 | A revoke succeeds exactly if the store can be read and written and has the ticket; it then sets the flag of that ticket and changes nothing else, and one that fails changes nothing |
| `Tickets.RevokedForGood` | crates/drv-thru/src/ticket.rs:226-273 | After a successful revoke and any later operations, every check and redeem of the ticket by any client fails |
| `Tickets.RevocationIsFinal` | crates/drv-thru/src/ticket.rs:253-273 | A ticket whose flag is set keeps it and is never redeemed again |
| `Tickets.CreateIff` | crates/drv-thru/src/ticket.rs:168-210 | A ticket is created exactly if nothing is wrong, with just what was asked for and not revoked; otherwise the store stays |
| `Tickets.CreateRefusalTells` | crates/drv-thru/src/ticket.rs:168-210 | The first thing that is wrong is what is told |
| `Tickets.RedeemIff` | crates/drv-thru/src/ticket.rs:253-273 | A redeem succeeds exactly if the ticket lets the client in and, where uses are counted, the store can be written; otherwise the store stays |
| `Tickets.RefusalTells` | crates/drv-thru/src/ticket.rs:315-334 | A client that is not let in is told the first thing that is wrong: store unreadable, unknown, revoked, no clock, expired, bound to another client, used up |
| `StatusRegistry.StatusRegistry.constructor` | crates/drv-thru/src/server/status.rs:97-130 | A new registry is empty and its file shows that |
| `StatusRegistry.StatusRegistry.RefreshSnapshot` | crates/drv-thru/src/server/status.rs:301-314 | The two loops over mutable entries compute `Refresh`: counts, positions from one, saturated times |
| `StatusRegistry.StatusRegistry.Persist` | crates/drv-thru/src/server/status.rs:261-281 | Refresh, then the file shows the contents unless the write fails |
| `StatusRegistry.StatusRegistry.EnqueueBuild` | crates/drv-thru/src/server/status.rs:132-151 | Memory changes even if the write fails, and the caller is then told `build-unknown` |
| `StatusRegistry.StatusRegistry.StartBuild` | crates/drv-thru/src/server/status.rs:153-174 | The first queued build with the id moves to the active list; an unknown id changes nothing but the refresh |
| `StatusRegistry.StatusRegistry.PhaseOf` | crates/drv-thru/src/server/status.rs:176-188 | Only the phase of the active build with the id changes |
| `StatusRegistry.StatusRegistry.FinishBuild` | crates/drv-thru/src/server/status.rs:190-243 | The build moves from the active list, or else from the queue, to the front of the bounded recent list |
| `StatusRegistry.StatusRegistry.RecordActive` | crates/drv-thru/src/server/status.rs:190-243 | An active build's recent entry carries its start and its duration |
| `StatusRegistry.StatusRegistry.RecordQueued` | crates/drv-thru/src/server/status.rs:190-243 | A queued build's recent entry has neither start nor duration |
| `StatusRegistry.TextInjective` | crates/drv-thru/src/server/status.rs:132-151 | Ids compare as their texts do: different builds, and `build-unknown`, never share a text |
| `StatusRegistry.TextSpells` | crates/drv-thru/src/server/status.rs:132-151 | An id is spelt `build-` and its number in decimal without leading zeros, or `build-unknown` |
| `StatusRegistry.RegistryIsConsistent` | crates/drv-thru/src/server/status.rs:132-243 | After any calls, failed writes, missing clocks, unknown ids and repeated finishes included: each issued id is in exactly one of queue, active list and finish history; the sequence number is the sum of the three; the queue is in issue order; `recent` is the newest part of the history, bounded |
| `StatusRegistry.NewestFirstIsReverse` | crates/drv-thru/src/server/status.rs:190-243 | `NewestFirst` of a history is that history reversed |
| `StatusRegistry.EveryCallMovesOneId` | crates/drv-thru/src/server/status.rs:132-243 | Every call moves at most one id from where it was found to where the call sends it, and no list changes otherwise |
| `StatusRegistry.EveryIdIsInOnePlace` | crates/drv-thru/src/server/status.rs:132-243 | In a consistent history an issued id is in exactly one place and any other id nowhere |
| `RegistryEntries.EntriesTellTheirCalls` | crates/drv-thru/src/server/status.rs:132-243 | After any calls, in terms of the calls alone: a queued build carries the client, installable and time of the enqueue that issued its id; an active one also the time of its first start and its latest phase; a finished one the result, truncated error and time of its first finish, and a start and a duration exactly if it was started |
| `RegistryEntries.CallsTellThePlace` | crates/drv-thru/src/server/status.rs:153-243 | A build is finished exactly if a finish came after its enqueue, active exactly if a start and no finish came, and queued otherwise |
| `RegistryEntries.ShownTimesAreCurrent` | crates/drv-thru/src/server/status.rs:301-314 | Counts, positions, waiting and running times are those of the last call for which the clock answered, and never negative |
| `RegistryEntries.RecentIsNewest` | crates/drv-thru/src/server/status.rs:236-242 | `recent` has the builds that finished last, the latest first, as many as the limit allows |
| `Admission.TicketBuildsAreBounded` | crates/drv-thru/src/server/auth.rs:47-68 | Over every interleaving of connections and ticket commands, builds enqueued on a ticket are at most its redeems, and redeems and remaining uses add up to what was granted, however many connections passed the check on one use |
| `Admission.RevokedTicketAdmitsNobody` | crates/drv-thru/src/server/connection.rs:44-56 | Once a ticket is revoked it stays revoked in every continuation, no connection is charged to it anew, and a build on it is enqueued only by a connection that had redeemed it before |
| `Admission.RevokeEndsAdmission` | crates/drv-thru/src/ticket.rs:226-238 | From a successful revoke on, over every continuation, the ticket is refused to every connection at the check and at the redeem, nobody is charged to it anew, and builds on it are only those of connections that had redeemed |
| `Admission.RevokingIsAlwaysPossible` | crates/drv-thru/src/ticket.rs:226-238 | A ticket that the store has can be revoked at any time, whatever the connections are doing |
| `Admission.ValidTicketAdmits` | crates/drv-thru/src/server/auth.rs:47-68 | A connection with a ticket that lets it in gets its build into the queue and is charged exactly one use |
| `Admission.WaitingBuildRunsThrough` | crates/drv-thru/src/server/connection.rs:162-219 | A waiting build that gets a permit can run through; it then has reported its result and given the permit back |
| `Admission.RunningIsBounded` | crates/drv-thru/src/server/connection.rs:162-193 | At most the configured number of connections hold a permit or are inside run_queued_build |
| `Admission.RegistryMirrorsConnections` | crates/drv-thru/src/server/connection.rs:55-78 | In every reachable state, with failed writes and with updates skipped for want of a clock: of the builds whose connection was told an id, the active list has exactly those whose start reached the registry and whose result did not, the finish history those whose result did, the queue the others and those whose enqueue could not be written |
| `Admission.PhaseTellsPlace` | crates/drv-thru/src/server/connection.rs:162-219 | As long as no update was skipped, a build is queued, active or finished exactly as the phase of its connection says |
| `Admission.ActiveIsBounded` | crates/drv-thru/src/server/connection.rs:192-202 | The active list exceeds the configured concurrency at most by the builds whose permit is free and whose result is not recorded, and by those of ended connections whose result was skipped; there are none of the latter while the clock answers |
| `Admission.ActiveCanExceedPermits` | crates/drv-thru/src/server/connection.rs:77-78 | With one permit a reachable state has two active builds |
| `Admission.EndedBuildsAreRecorded` | crates/drv-thru/src/server/connection.rs:195-219 | The build of an ended connection is in the finish history once and in neither list; if its result was skipped it stays where it was, active or queued, and is not in the history |
| `Admission.LeaksStay` | crates/drv-thru/src/server/status.rs:147-150 | A build whose enqueue could not be written stays in the queue for good |
| `ConnectionEntries.EntriesAreTheConnections` | crates/drv-thru/src/server/connection.rs:55-78 | Over every interleaving, the entries with the id of a connection's build name the client and installable of that connection, and a finished one has the result and error that the connection itself reported, an error for one whose wait failed |
| `ConnectionEntries.PhaseIsShown` | crates/drv-thru/src/server/status.rs:176-188 | The phase that a connection reports is shown if its build is listed as active |
| `CacheFill.FillsAreExclusiveAndBounded` | crates/drv-thru/src/server/output_cache.rs:384-430 | For any number of callers and a copy that may leave any files behind: at most one caller is inside the lock of a hash, at most the configured number fill, and all locks and permits are back when all have returned |
| `CacheFill.OkFollowsPassedCheck` | crates/drv-thru/src/server/output_cache.rs:432-448 | Whatever a copy writes: every Ok follows a check that passed, in which the caller read a signed narinfo of its entry and, at a later step, found the NAR that it names |
| `CacheFill.NeverStuck` | crates/drv-thru/src/server/output_cache.rs:64-70 | As long as some caller has not returned, a step that is no failure is possible |
| `CacheFill.BegunCanGo` | crates/drv-thru/src/server/output_cache.rs:384-430 | Some of the callers that have begun can always go on by themselves: they never wait for one that has not |
| `CacheFill.CallersFinish` | crates/drv-thru/src/server/output_cache.rs:384-430 | All callers together take at most twelve steps each, whatever a foreign copy writes meanwhile; for copies of the own entry that bounds the whole run |
| `CacheFill.EntriesAreFilledOnce` | crates/drv-thru/src/server/output_cache.rs:384-430 | Whatever files the cache starts with, each hash is filled at most once, a filled entry stays ready, and an entry for which some caller got Ok never has a narinfo without its NAR |
| `CacheFill.FillsAddNothingBroken` | crates/drv-thru/src/server/output_cache.rs:405-422 | Fills leave no broken narinfo and none whose NAR is missing behind, wherever they are cut off: what there is of them was there at first |
| `CacheFill.ReadyEntriesStay` | crates/drv-thru/src/server/output_cache.rs:405-416 | An entry whose narinfo does not name a missing NAR that another entry would bring stays ready once it is |
| `CacheFill.SharedDanglingLosesEntry` | crates/drv-thru/src/server/output_cache.rs:405-416 | Two entries of which one names the missing NAR of the other: a schedule in which a ready entry is removed |
| `CacheFill.LosesReadyIffSharedDangling` | crates/drv-thru/src/server/output_cache.rs:397-430 | An entry can be lost when it is ready exactly if the cache starts with such a shared dangling narinfo of it |
| `CacheFill.OkEntriesAreReady` | crates/drv-thru/src/server/output_cache.rs:384-391 | If no fill, the entry's own included, would bring a missing NAR of the entry, then the entry is ready from any Ok for it on |
| `CacheFill.OwnDanglingMisleads` | crates/drv-thru/src/server/output_cache.rs:384-448 | A first probe that straddles a fill: a caller is told Ok for an entry that has no narinfo |
| `CacheFill.SharedDanglingMisleads` | crates/drv-thru/src/server/output_cache.rs:397-416 | A caller is told Ok for an entry that another caller then removes |
| `CacheFill.MisleadsIffFillable` | crates/drv-thru/src/server/output_cache.rs:384-448 | A caller can be told Ok for an entry that is not ready exactly if the cache starts with a dangling narinfo of the entry whose NAR some fill would write, the entry's own fill included |
| `CacheFill.UnusableEntriesAreRefilled` | crates/drv-thru/src/server/output_cache.rs:397-442 | An entry that starts without a narinfo, with one that is not signed with this key, or with one that names nothing has from any Ok for it on its own signed narinfo and its NAR |
| `CacheFill.OtherEntriesAreKept` | crates/drv-thru/src/server/output_cache.rs:384-404 | An entry that starts ready, or with a narinfo that cannot be read or parsed, is never touched |
| `CacheFill.AnswersWithoutFailures` | crates/drv-thru/src/server/output_cache.rs:384-430 | Without failures a caller gets Ok exactly unless its entry's narinfo is there and is no text, or is signed and its URL does not parse |
| `CacheFiles.ProbeCases` | crates/drv-thru/src/server/output_cache.rs:432-448 | What a probe finds, by the contents of the narinfo file |
| `CacheSession.NarAnswersWereNamed` | crates/drv-thru/src/server/output_cache.rs:210-255 | For any client: a NAR answered as found was named by a narinfo of this build's closure that was handled earlier in the session |
| `CacheSession.AllowedIsAdmitted` | crates/drv-thru/src/server/output_cache.rs:73-86 | The allowed set is exactly the NARs admitted so far, and only grows |
| `CacheSession.OutsideClosureIsNotFound` | crates/drv-thru/src/server/output_cache.rs:219-226 | A narinfo request outside the closure is answered `found = false` and never fails otherwise |
| `CacheSession.NamedNarIsNotRefused` | crates/drv-thru/src/server/output_cache.rs:233-246 | A client that was sent a narinfo is not refused the NAR it names |
| `CacheSession.ClosureIsServed` | crates/drv-thru/src/server/output_cache.rs:219-240 | A stream that asks for the narinfo of a closure path, in any session: it is never answered `found = false`; it fails exactly if ensuring the entry, reading or parsing the narinfo, or sending it fails; and otherwise its four steps send, as found, the text that was read |
| `CacheSession.ClosureIsNeverDenied` | crates/drv-thru/src/server/output_cache.rs:219-226 | No answer in any session denies a narinfo of the closure |
| `CacheSession.NamedNarIsServed` | crates/drv-thru/src/server/output_cache.rs:243-255 | A NAR that a sent narinfo names is answered as found if its file is there, as not found if it is not, and only failures of the surroundings keep it from an answer |
| `CacheSession.InfoIsServed` | crates/drv-thru/src/server/output_cache.rs:212-217 | So is the cache info file, which needs no narinfo first |
| `CacheSession.UnnamedNarIsDenied` | crates/drv-thru/src/server/output_cache.rs:243-249 | A NAR that no handled narinfo has named is answered `found = false` at once |
| `Mirror.NothingIsNotFound` | crates/drv-thru/src/client_cache/mirror.rs:128-162 | Over every interleaving of mirror tasks, handlers and changes of the cache that keep NARs and leave no entry that was told Ok with a narinfo but no NAR, no request of the mirror is answered `found = false` |
| `Mirror.FetchesAreBounded` | crates/drv-thru/src/client_cache/mirror.rs:84-120 | At most 64 metadata fetches and the configured number of payload fetches are in flight |
| `Mirror.SuccessIsComplete` | crates/drv-thru/src/client_cache/mirror.rs:76-126 | A successful mirror has, for every closure path, a signed narinfo that the server had, whose NAR the server has and, for every path to copy, the client |
| `Mirror.MirroringEnds` | crates/drv-thru/src/client_cache/mirror.rs:89-124 | Client and handlers take at most eleven steps for each closure path, and two more |
| `Mirror.NobodyAwaitedCanGo` | crates/drv-thru/src/client_cache/mirror.rs:105-124 | While the mirror is at work and no handler waits for its entry, a step that is no failure is possible |
| `Mirror.GenuineMirrorIsCurrent` | crates/drv-thru/src/client_cache/mirror.rs:128-146 | If ready entries stay and handlers go on with ready entries only, each narinfo at the client is the one that the server has, and its NAR is there |
| `Mirror.UndisturbedMirrorSucceeds` | crates/drv-thru/src/client_cache/mirror.rs:76-126 | Under the same conditions and without a failure, a mirror that has nothing left to do and waits for no entry has succeeded |
| `Delivery.RefinesBoth` | crates/drv-thru/src/server/output_cache.rs:210-255 | The mirror together with the fills that its requests, the prewarming and other sessions cause: each run of the whole is a run of the mirror in surroundings that keep what it counts on, and a run of the fills |
| `Delivery.NothingIsNotFound` | crates/drv-thru/src/server/output_cache.rs:219-246 | In the whole no request of the mirror is answered `found = false`, whatever the cache starts with and whatever fails |
| `Delivery.SuccessIsComplete` | crates/drv-thru/src/client_cache/mirror.rs:76-126 | A delivery that succeeds is complete, whatever the cache starts with and whatever fails |
| `Delivery.HandlersWereToldOk` | crates/drv-thru/src/server/output_cache.rs:228-232 | A handler goes on only with an entry that its ensure_cache_entry returned Ok for, and in a successful delivery every one did |
| `Delivery.NeverStuck` | crates/drv-thru/src/server/output_cache.rs:384-430 | While the mirror is at work a step that is no failure is possible, awaited fills included |
| `Delivery.DeliveryEnds` | crates/drv-thru/src/server/output_cache.rs:322-348 | With n closure paths and m other callers a delivery takes at most 23n + 12m + 2 steps |
| `Delivery.UndisturbedDeliverySucceeds` | crates/drv-thru/src/client_cache/mirror.rs:76-126 | If no closure path starts with a broken narinfo, or a dangling one whose NAR a fill would write, then without failures every schedule that cannot be continued has succeeded, and what the client holds is what the server has |
| `Delivery.OwnDanglingErrs` | crates/drv-thru/src/server/output_cache.rs:228-232 | A handler that was told Ok finds no narinfo, because another caller of the entry removed it between the two steps of the first probe: the mirror fails without a failure |
| `Delivery.ErrsIffUnsound` | crates/drv-thru/src/server/output_cache.rs:210-255 | A delivery can end with an error although nothing has failed exactly if, for some closure path, the cache starts with a narinfo that cannot be read or with a dangling one whose NAR some fill would write |
| `Wire.ByteStream.WriteJson` | crates/drv-thru/src/protocol/wire.rs:7-17 | A message is sent as one frame exactly if its body is within the limit; otherwise not a byte is sent |
| `Wire.ByteStream.ReadJson` | crates/drv-thru/src/protocol/wire.rs:19-35 | Reading takes off the stream what `ReadOne` says and answers accordingly |
| `Wire.LengthRoundTrip` | crates/drv-thru/src/protocol/wire.rs:13-25 | Four big-endian bytes carry every 32-bit length |
| `Wire.FrameRoundTrip` | crates/drv-thru/src/protocol/wire.rs:7-35 | A frame reads back as its message whatever follows, and nothing that follows is consumed |
| `Wire.ReadIsBounded` | crates/drv-thru/src/protocol/wire.rs:25-33 | A message read takes between 4 bytes and 4 bytes plus the limit off the stream |
| `Wire.PrefixIsBigEndian` | crates/drv-thru/src/protocol/wire.rs:13-25 | The length prefix has its highest byte first |
| `Wire.CutFrameIsNoMessage` | crates/drv-thru/src/protocol/wire.rs:19-33 | A frame that is cut short is an error: no length before the fourth byte, no body after it |
| `Wire.LongFrameIsRefused` | crates/drv-thru/src/protocol/wire.rs:26-28 | A length beyond one mebibyte is refused before any of the body is taken |
| `Wire.UndecodableIsSkipped` | crates/drv-thru/src/protocol/wire.rs:30-35 | A body that does not decode is taken off the stream and reported |
| `PathChunks.Write` | crates/drv-thru/src/protocol/path_chunks.rs:30-59 | Sends the frames of the list's chunks up to the first that does not fit, and succeeds exactly if all fit |
| `PathChunks.ChunkAt` | crates/drv-thru/src/protocol/path_chunks.rs:47-57 | The k-th message carries the k-th block of 512 paths and `done` exactly on the last |
| `PathChunks.ReadState.CheckLimits` | crates/drv-thru/src/protocol/path_chunks.rs:123-145 | The counters after one more chunk, or the first limit that it breaks |
| `PathChunks.ReadChunk` | crates/drv-thru/src/protocol/path_chunks.rs:97-112 | The next message as a chunk of the expected list, or the error |
| `PathChunks.ReadLoop` | crates/drv-thru/src/protocol/path_chunks.rs:71-95 | The loop returns and leaves on the stream what `ReadPaths` says |
| `PathChunks.ReadsBackIff` | crates/drv-thru/src/protocol/path_chunks.rs:71-145 | A list chunked, framed and read back is the same list, with exactly its bytes consumed, if and only if its chunks, paths and bytes are within the limits |
| `PathChunks.ReadsBackUnlimited` | crates/drv-thru/src/protocol/path_chunks.rs:86-88 | Without limits every list whose chunks fit reads back |
| `PathChunks.NextMessageIsJudged` | crates/drv-thru/src/protocol/path_chunks.rs:97-112 | At any point of a list an error message is reported as the peer's error and any other message that is no chunk of the list as unexpected; a chunk is taken |
| `PathChunks.FirstBrokenLimitIsTold` | crates/drv-thru/src/protocol/path_chunks.rs:123-145 | Of the limits that a chunk breaks the first is told: chunks, paths, overflow, bytes |
| `PathChunks.ChunkLimitNeverBinds` | crates/drv-thru/src/server/mod.rs:27-34 | With the program's limits the chunk limit rejects no list that the path and byte limits accept |
| `PathChunks.AnyPeerIsBounded` | crates/drv-thru/src/protocol/path_chunks.rs:71-145 | For arbitrary bytes: at most one message beyond the chunk limit is read, what is kept is within the limits at every turn, and the byte counter does not overflow |
| `PathChunks.EmptyChunksAreCutOff` | crates/drv-thru/src/protocol/path_chunks.rs:129-132 | A peer that keeps sending empty chunks is cut off at exactly that message |
| `FrameSize.ChunkJsonLen` | crates/drv-thru/src/protocol/messages.rs:65-69 | The exact length of a chunk's JSON: no character of a store path is escaped |
| `FrameSize.StorePathListsRoundTrip` | crates/drv-thru/src/protocol/path_chunks.rs:47-57 | Store paths of at most 2,044 bytes: every frame is within 1 MiB, and the list reads back exactly if it has at most 100,000 paths and 16 MiB |
| `FrameSize.OneByteMoreDoesNotFit` | crates/drv-thru/src/protocol/wire.rs:9-11 | 512 store paths of 2,045 bytes are not written: the bound is exact |
| `FrameSize.CacheReadyFitsIff` | crates/drv-thru/src/protocol/messages.rs:82-86 | The list of paths to copy, one message, is written exactly if its bytes, quotes and commas come to at most 1,048,531 |
| `FrameSize.EqualReplyFitsIff` | crates/drv-thru/src/server/output_cache.rs:134-140 | A reply that lists n store paths of one length is written exactly if n times that length, with quotes and commas, comes to at most 1,048,531 bytes |
| `FrameSize.AcceptedRequestWithoutReply` | crates/drv-thru/src/server/output_cache.rs:134-140 | Of n store paths of 80 bytes with different hashes every chunk and limit lets the request through up to 100,000, and it reads back; the reply is written exactly if n is at most 12,632 |
| `JsonReading.ChunkReadsBack` | crates/drv-thru/src/protocol/messages.rs:6-69 | The JSON text of a path list message reads back: which list, which paths, whatever their characters, and whether it is the last chunk |
| `NixStore.QueryClosure` | crates/drv-thru/src/nix.rs:514-533 | The printed paths, each once, in order of first occurrence, or the first error |
| `NixStore.MissingPaths` | crates/drv-thru/src/nix.rs:122-154 | The paths that some chunk's answer printed, in the order of the argument |
| `NixStore.ChunkingMakesNoDifference` | crates/drv-thru/src/nix.rs:127-153 | For any chunk size the result is the plain filter by what the store does not hold |
| `NixStore.RequestedOutputPaths` | crates/drv-thru/src/server/output_cache.rs:520-542 | The request without repetitions, or the error of its first bad path |
| `NixStore.ParseOkIff` | crates/drv-thru/src/nix.rs:141-146 | Lines parse exactly if each is, trimmed, blank or a store path |
| `NixStore.ParsePicks` | crates/drv-thru/src/nix.rs:141-146 | They parse to the trimmed lines that are not blank, all of them, in order |
| `NixStore.FilterPicks` | crates/drv-thru/src/nix.rs:149-153 | The missing paths are picked from the argument by their places: all that are invalid, in order, with repetitions |
| `NixStore.DedupPicks` | crates/drv-thru/src/nix.rs:524-531 | What a `seen` set keeps is picked by places: the first occurrences, in order |
| `NixStore.InvalidOkIff` | crates/drv-thru/src/nix.rs:128-140 | Asking in chunks fails exactly if the command fails, or prints something else, for some chunk |
| `NixStore.DedupKeepsPaths` | crates/drv-thru/src/nix.rs:524-531 | What a `seen` set keeps has the same members, each once |
| `NixStore.RefusedIff` | crates/drv-thru/src/server/output_cache.rs:531-535 | A request is refused exactly if some path is no store path or not in the closure |
| `NixStore.RefusalTells` | crates/drv-thru/src/server/output_cache.rs:525-535 | A refused request is refused for its first bad path, as no store path or else as not built |
| `NixStore.RequestIsMissing` | crates/drv-thru/src/client/session.rs:264-266 | The server's requested list is the client's missing list, is never refused, and is empty exactly if the client holds the closure |
| `CachePath.AcceptedIffOneForm` | crates/drv-thru/src/cache.rs:15-39 | A path is accepted exactly if it has one of three disjoint forms, and is returned unchanged; a NAR name is a nonempty stem and `.nar`, or has `.nar.` in it |
| `CachePath.AcceptedSpelling` | crates/drv-thru/src/cache.rs:15-39 | The same character by character: the accepted digits and letters, plain characters and suffixes spelt out |
| `CachePath.CompressedNarIsAccepted` | crates/drv-thru/src/cache.rs:76-87 | Every NAR name with any compression suffix is accepted unless it ends in `.narinfo` |
| `CachePath.RefusalTells` | crates/drv-thru/src/cache.rs:20-38 | What a refused path is told, the suffix before the directory |
| `CachePath.AcceptedStaysBelow` | crates/drv-thru/src/cache.rs:41-44 | Resolving an accepted path only descends: it stays strictly below the cache directory |
| `CachePath.HttpAcceptedIff` | crates/drv-thru/src/cache.rs:7-13 | A target is accepted exactly if it is a slash and an accepted path, with or without a query |
| `CachePath.HttpRefusalTells` | crates/drv-thru/src/cache.rs:7-13 | What a refused target is told |
| `CachePath.FirstUrlDecides` | crates/drv-thru/src/cache.rs:46-59 | The first URL line decides: the result is its trimmed value if that is a NAR path and an error otherwise; no such line, no NAR |
| `CachePath.FirstUrlIsNar` | crates/drv-thru/src/cache.rs:52-56 | What a narinfo names is always a NAR path |
| `CachePath.NarinfoNamesItsUrl` | crates/drv-thru/src/cache.rs:46-59 | A narinfo text names the NAR of its URL field whatever fields surround it and however much white space is around it, carriage returns included |
| `CachePath.StorePathIff` | crates/drv-thru/src/nix.rs:587-609 | A store path is the prefix, a 32-character base-32 hash, a dash and a name, and `Hash` is that hash |
| `CachePath.StorePathSpelling` | crates/drv-thru/src/nix.rs:587-609 | The same character by character; the hash is what stands from the 11th to the 43rd character |
| `CachePath.LookupFindsLast` | crates/drv-thru/src/server/output_cache.rs:466-484 | A lookup finds the last path with the hash, and nothing exactly if there is none |
| `CachePath.NarinfoNameFindsPath` | crates/drv-thru/src/client_cache/mirror.rs:278-280 | The name that the client asks for is accepted and, with distinct hashes, looks up the path it was made from |
| `CachePath.RouteIsForm` | crates/drv-thru/src/server/output_cache.rs:210-255 | An accepted path is routed by its form: the handler's last error and the lookup's errors are unreachable |
| `AnsiText.VisibleWidth` | crates/drv-thru/src/client_status.rs:393-408 | The loop computes `Width` |
| `AnsiText.TruncateVisible` | crates/drv-thru/src/client_status.rs:410-438 | The loop computes `Truncated` |
| `AnsiText.TruncatedWidth` | crates/drv-thru/src/client_status.rs:393-438 | The result is as wide as the line or the columns, whichever is less, with unterminated sequences and lone escapes at the cut |
| `AnsiText.TruncatedIsPrefix` | crates/drv-thru/src/client_status.rs:410-438 | The result is a prefix of the line, followed by a reset exactly if an escape sequence is in that prefix |
| `AnsiText.KeptIsLongest` | crates/drv-thru/src/client_status.rs:426-431 | The prefix is the whole line, or it is full and a visible character comes next |
| `AnsiText.WidthOfTokens` | crates/drv-thru/src/client_status.rs:393-408 | A line of shown characters and whole escape sequences is as wide as it has characters shown |
| `AnsiText.TruncatedTokens` | crates/drv-thru/src/client_status.rs:410-438 | Such a line is cut before the first character that does not fit, and colours are reset exactly if a sequence is kept |
| `HttpHead.ReadHead` | crates/drv-thru/src/client_cache/mod.rs:381-396 | The buffer never exceeds 17,408 bytes, and the loop computes `HeadFrom` |
| `HttpHead.ReadHttpRequest` | crates/drv-thru/src/client_cache/mod.rs:381-419 | The request is the one that `Request` says |
| `HttpHead.AcceptedWhateverTheSplitIff` | crates/drv-thru/src/client_cache/mod.rs:384-396 | Bytes are accepted in every split exactly if a blank line ends by byte 16,385, and in some split exactly if one ends by byte 17,408 |
| `HttpHead.RefusedHeadTells` | crates/drv-thru/src/client_cache/mod.rs:386-396 | A refused head is too large exactly if more than 16,384 bytes came, and otherwise cut off |
| `HttpHead.SameRequestWhateverTheSplit` | crates/drv-thru/src/client_cache/mod.rs:398-418 | ASCII bytes whose blank line ends by byte 16,385 are the same request or error for every split: what their first line says |
| `HttpHead.RequestLineIsRead` | crates/drv-thru/src/client_cache/mod.rs:403-418 | Words in any white space are read as method, target and version of HTTP/1; fewer are missing parts, more or another version an invalid line |
| `HttpHead.EveryLineIsWoven` | crates/drv-thru/src/client_cache/mod.rs:403-418 | Every line is its words in white space |
| `LogMerge.StreamChildLines` | crates/drv-thru/src/nix.rs:544-573 | The two-flag loop computes `Stream` and ends |
| `LogMerge.StreamedIsMerge` | crates/drv-thru/src/nix.rs:555-572 | A complete loop has forwarded all lines of both streams, each in its order |
| `LogMerge.FailedIsMergeOfPrefixes` | crates/drv-thru/src/nix.rs:555-572 | A loop that fails has forwarded a merge of what it took from the two |
| `LogMerge.EveryMergeIsPossible` | crates/drv-thru/src/nix.rs:556-569 | Every merge comes about under some schedule |
| `LogMerge.ReadBuildMessages` | crates/drv-thru/src/client/session.rs:412-420 | The client's loop computes `Print` |
| `LogMerge.PrintEndsAt` | crates/drv-thru/src/client/session.rs:412-420 | The client prints all log lines up to the first message that is neither a line nor the start, and ends as that message says |
| `LogMerge.ClientPrintsMerge` | crates/drv-thru/src/server/build.rs:215-223 | What the client prints before the build is finished is a merge of all lines of both streams, nothing lost or doubled |
| `AtomicFile.Files.WriteAtomic` | crates/drv-thru/src/state/json.rs:29-73 | Wherever it fails or stops, the file is the old one or the whole new one, and the caller is told which |
| `AtomicFile.ReadersSeeWholeSnapshots` | crates/drv-thru/src/server/status.rs:261-289 | Between any two steps of any updates, failures and restarts status.json is what it was at first or decodes to a snapshot that some update meant to write, with counts and positions that match its lists |
| `AtomicFile.FailedWritesLeaveTheFile` | crates/drv-thru/src/state/json.rs:46-53 | As long as no rename succeeds the file stays |
| `AtomicFile.RenameShowsLatest` | crates/drv-thru/src/state/json.rs:52-53 | A rename puts the latest snapshot of memory into the file |
| `AtomicFile.UndisturbedUpdateIsSeen` | crates/drv-thru/src/server/status.rs:261-289 | An update that nothing disturbs puts what memory then holds into the file and leaves no temporary file |
| `Text.TrimIs` | crates/drv-thru/src/nix.rs:611-614 | Trimming takes white space away and nothing else, and leaves none at either end |
| `Text.LinesAreRead` | crates/drv-thru/src/cache.rs:46-50 | The lines of a text are what newlines end, with or without carriage returns |

## Left out

- QUIC, TCP and Unix sockets, timeouts and process spawning: a transport failure is a failure step or the sight of a closed connection.
- The `nix` and `nix-store` commands, signatures, key generation and the encodings of tickets and endpoints: foreign.
- Ticket and key file locks: removing a stale lock and taking it are separate file system steps, so exclusion between processes does not follow from the code.
- Dropping a message read midway in the select loop of the output server, and cancelling a handler in the middle of `nix copy`, whose child process then goes on without lock and permit.
- The contents of messages that no branch depends on (output mode, output paths of the result, builder key), the check of a build request and the choice of its outputs.
- CacheFill.CallersFinish: does not bound what a foreign copy writes, because it may write for as long as it likes; it bounds the callers' own steps beside it.
- The files of the cache that sessions other than the modelled one request: of those sessions `Delivery` has the fills only.
- Import trust, the import helper, access lists, command line, configuration, progress display and rendering: mostly one-branch decisions or user interface.
- Widths of counters: sequence numbers, times and lengths are unbounded, except for the reader's byte counter and the ticket's expiry, where the program checks for overflow.
- Ticket names are reduced to blank or not blank, and the ticket's limits to texts that do or do not parse.
- HttpHead.SameRequestWhateverTheSplit: is about ASCII, because bytes after the blank line that a read cuts within a character make decoding fail.
- LogMerge.ClientPrintsMerge: takes each output stream as the lines it consists of, because the buffered line reader is a library's.
