# WebPier: tunnels, configuration and what keeps them together

A Dafny model of WebPier, a supervisor for TCP tunnels, with proofs about it. `dafny verify dfyconfig.toml` checks
everything.

The model follows the program's three cooperating machines and the glue between them.

* **The tunnel supervisor** (`connector.dfy`, `controller.dfy`, `engine.dfy`, `engine_files.dfy`, `engine_object.dfy`,
  `backend.dfy`, `history.dfy`). A *connector* keeps one remote pier connected: a negotiation thread, a retry timer, closures posted
  to the single-threaded io context, carrier processes. A *controller* holds the connectors of one service, the
  *engine* a pool of controllers that it reconciles with the files. A connector is a state machine over interleaved
  steps in which a step that is not enabled changes nothing, so that every sequence of steps is a run. Joining a
  thread may reveal late callbacks; which ones is a parameter of the step, cut down to what the negotiation can still
  post. `Histories` looks at connectors by what has happened to them. The classes `Connector`, `Controller` and `Engine` are the imperative form, each method proved against the
  function of the same step.
* **The configuration store** (`settings.dfy`, `text.dfy`, `order.dfy`, `files.dfy`, `store.dfy`, `worlds.dfy`,
  `outcomes.dfy`, `faithful.dfy`, `snapshot.dfy`, `snapshot_runs.dfy`, `context_object.dfy`). Contexts keep an
  in-memory index over a directory of files and detect each other's writes by the stamp of the lock file. `Store` is
  one call, `Outcomes` how it ends and what is found afterwards, `Faithfulness` says when a call does to the files what
  its operation means, `Worlds` is any number of contexts in any interleaving of calls, `Snapshots`
  the single file accesses under the lock, which refine `Worlds` and realise every run of it, and the class `Context` the imperative form, with its
  loops over entries and directories.
* **The request protocol** (`message.dfy`, `rpc.dfy`, `calls.dfy`, `session.dfy`): the property-tree codec, the
  dispatcher, the typed client, what each of its calls does from end to end, and the session count.
* **The forms of the user interface** (`form.dfy`, `form_fields.dfy`, `form_examples.dfy`, `form_object.dfy`), which
  edit the store and then have the backend follow, and **text hashes** (`hash.dfy`), which name the repository of an identity.

Terms used below: the *key* of a handle is the concatenation of pier and service name, by which the engine's map
identifies it; the pool *follows* the disk when it holds exactly the configured services; a disk is *unambiguous* when
different configured services have different keys; a *written home* has files that the store wrote.

Four expectations turned out to be false of the code, and each is stated with its exact condition and an input.

* An export does not always have work pending. When its negotiation has made its last callback but its io context has
  not run dry, a retry timer that fires takes it for active and returns (src/backend/server.cpp:281). `LiveStep` shows
  that this is the only step that loses liveness, `ExportCanStrand` gives the run, `StrandedForGood` its consequence.
* A bulk adjust does not always leave what the single adjusts leave, in any order: when a stale handle of the pool has
  the key of another, configured one and is adjusted last, the configured service is dropped. `SinglesExactly` and
  `BulkAdjustIsSinglesExactly` say that this is the only case, `OrderCanMatter` gives the input.
* An update can be lost: the constructor of a context does not set the stamp, so a first write is not checked.
  `FirstWritesCollide` and `RemovalCollides` give the inputs. `ExecFaithful` says for every operation, and for a
  configuration and an index that may be out of date in any way, exactly when a successful call has its effect, and
  `LostExactly` that over a whole run nothing is lost if and only if every commit meets that condition.
  `NoLostUpdate` is the case in which nobody else has written between a context's open and its first write.
* Storing or purging a form does not always keep pool and disk together: not when an import moves to another pier, not
  when the store refuses the new name after the old service has been deleted, since the exception is swallowed, and
  not when a form is purged under another handle than it was stored under. `StoreFollows` and `PurgeFollows` have the
  exact conditions, `MovedImportStrays`, `RefusedRenameStrays` and `RenamedPurgeStrays` say what goes wrong, and
  `FormExamples` has a world and a form for each.

## Model

| member | source | states |
|---|---|---|
| Connectors.RunSound | src/backend/server.cpp:176-212 | In every reachable state a connector has at most one negotiation thread, and a reported error has a retry pending or belongs to an import that still has a tunnel. |
| Connectors.ImportTokens | src/backend/server.cpp:176-355 | For an import, negotiation, posted results, timer, queued firings and tunnels together are at least one after the first restart and never more than the restarts so far. |
| Connectors.TokensStep | src/backend/server.cpp:232-355 | Only a restart can add to what an import has going, and by one at most. |
| Connectors.LiveStep | src/backend/server.cpp:263-287 | A step keeps a live connector live if and only if it is not the retry that finds a finished negotiation still active. |
| Connectors.RunLive | src/backend/server.cpp:171-355 | A connector is live over every run that never takes that step. |
| Connectors.StrandedForGood | src/backend/server.cpp:277-285 | A connector that is not live never negotiates again until it is restarted. |
| Connectors.FailedExportStrands | src/backend/server.cpp:277-285 | The family of states from which an export strands itself by its own retry. |
| Connectors.ExportCanStrand | src/backend/server.cpp:277-285 | Such a run exists from a fresh connector: liveness of exports is not unconditional. |
| Connectors.LiveRecovers | src/backend/server.cpp:185-287 | From every live state there is a run without restarts back to a negotiation or to an import's tunnel. |
| Connectors.ErrorIsLastFailure | src/backend/server.cpp:234-287 | The reported error is the text of the last failure that no retry, exit or restart has taken back, and empty if there is none. |
| Histories.TunnelsAreLaunched | src/backend/server.cpp:215-261 | In every run, of an export or an import, the carriers are exactly those that a handled contract has launched and that have not exited since. |
| Histories.EveryPostCounts | src/backend/server.cpp:324-346 | In every run each contract that negotiations have posted has become one carrier or is still to be handled, and each failure has been reported, in order, or is still to be. |
| Histories.CanServe | src/backend/server.cpp:215-261 | A service of either kind can get a carrier. |
| Histories.CanThrow | src/backend/server.cpp:206-210 | A negotiation can fail with an exception, whose text is posted as a failure. |
| Histories.LateIsFree | src/backend/server.cpp:176-183 | A thread that is joined may have posted anything for an export, and at most one callback for an import. |
| BackendHistories.CarriersAreLaunched | src/backend/server.cpp:232-346 | In every reachable state of the supervisor the carriers of a connector are exactly those launched for it that have not exited, whatever requests have been served meanwhile. |
| Connectors.RestartEffect | src/backend/server.cpp:313-355 | A restart keeps the tunnels, disarms the timer, takes over the configuration, and negotiates unless the service is an import with a tunnel. |
| Connectors.Connector.Restart | src/backend/server.cpp:313-355 | The fields after the in-place restart are those of the step. |
| Connectors.Connector.OnTimer | src/backend/server.cpp:272-286 | The same for a queued timer completion. |
| Connectors.Connector.OnExit | src/backend/server.cpp:232-248 | The same for the exit of a carrier. |
| Controllers.SplitJoins | src/backend/server.cpp:402-403 | Joining the words that a pier list splits into gives the list back. |
| Controllers.JoinSplits | src/backend/server.cpp:402-403 | Splitting is the only way to words without spaces that join to the list. |
| Controllers.ReportsCoherent | src/backend/server.cpp:432-470 | Asleep means no connectors; broken, that the first connector with news is broken, and the message is its error; burden, that it has a tunnel; lonely and asleep have neither message nor tunnels. |
| Controllers.MessageTells | src/backend/server.cpp:451-459 | The message is the error of the first broken connector, also while another has a tunnel, and else empty. |
| Controllers.TunnelsComplete | src/backend/server.cpp:461-470 | The listed tunnels are exactly the carriers of the connectors. |
| Controllers.TunnelsOnce | src/backend/server.cpp:461-470 | Each carrier is listed once, by piers in the order of the map. |
| Controllers.RestartKeepsTunnels | src/backend/server.cpp:400-425 | A restarted service is never asleep, whatever its pier string, and has exactly the tunnels of the piers it still lists. |
| Controllers.RestartEquips | src/backend/server.cpp:400-425 | A restarted service has a connector for each of its piers and no other, each with the new configuration and its own pier, the carriers it had, and a negotiation unless it is an import with carriers. |
| Controllers.Controller.Restart | src/backend/server.cpp:400-425 | The two loops over the map of connectors leave exactly the connectors of the listed piers, each restarted. |
| Controllers.Controller.CurrentState | src/backend/server.cpp:432-449 | The loop with its early exits computes the state. |
| Controllers.Controller.CurrentMessage | src/backend/server.cpp:451-459 | The loop computes the message. |
| Controllers.Controller.CurrentTunnels | src/backend/server.cpp:461-470 | The loop lists the tunnels. |
| Handles.SameKey | src/backend/message.h:19-20 | The map takes two handles for one exactly when their concatenations are equal. |
| Handles.KeysClash | src/backend/message.h:19-20 | Different handles can be the same key of the map. |
| Engines.BulkKeys | src/backend/server.cpp:631-736 | After a bulk command the pool holds exactly the configured handles if and only if these are unambiguous. |
| Engines.BuiltAt | src/backend/server.cpp:639-736 | Without clashes a bulk command treats each configured service on its own, starting from the old pool. |
| Engines.BulkIsSingles | src/backend/server.cpp:687-801 | The bulk adjust leaves the very pool that single adjusts of handles with distinct keys leave, in any order, if they cover all pooled and configured ones. |
| Engines.SinglesExactly | src/backend/server.cpp:687-801 | The single adjusts of exactly the pooled and configured handles leave that pool in every order if and only if no stale pooled handle has the key of another, configured one. |
| Engines.OrderCanMatter | src/backend/server.cpp:738-801 | There is a pool with such a stale handle and an order in which the single adjusts drop a configured service. |
| Engines.BulkConservesCarriers | src/backend/server.cpp:631-843 | Alive after a bulk command are exactly the earlier carriers of services that are still configured and go on, for piers still listed. |
| Engines.BulkAwake | src/backend/server.cpp:631-843 | After engage awake means autostart, after adjust known services keep their state and new ones follow autostart, after unplug all sleep. |
| Engines.SingleIsLocal | src/backend/server.cpp:738-871 | A command for one handle changes no other key; a missing service is always dropped. |
| Engines.SingleOwn | src/backend/server.cpp:738-871 | A single engage wakes its service, unplug puts it to sleep, adjust keeps a known one and has a new one follow autostart; carriers go on for the piers still listed, but for unplug. |
| Engines.BulkEquips | src/backend/server.cpp:631-843 | A bulk command restarts a service with what has been loaded or leaves it without connectors, by autostart, waking and command. |
| Engines.SingleEquips | src/backend/server.cpp:738-871 | The same for a command for one handle. |
| Engines.BulkConfigures | src/backend/server.cpp:631-843 | Whatever the pool was, after a bulk command every connector has the configuration that has been loaded. |
| EngineObjects.Engine.Bulk | src/backend/server.cpp:631-843 | Over the heap of shared controllers, building the new map and swapping it leaves the pool of the bulk command. |
| EngineObjects.Engine.One | src/backend/server.cpp:738-871 | The same for the commands for one handle, including the error of engaging a missing service. |
| EngineFiles.LoadersAgree | src/backend/server.cpp:506-629 | On a written home both loaders succeed, the bulk loader lists every service once, and the single loader finds what the list has. |
| EngineFiles.LoadOneMeans | src/backend/server.cpp:551-583 | The single loader finds a named service exactly when the handle is configured. |
| EngineFiles.LoadAllExactly | src/backend/server.cpp:506-629 | Exactly when a home can be loaded, whoever wrote it. |
| EngineFiles.ListingIsClean | src/backend/server.cpp:585-629 | What is loaded is unambiguous exactly when the disk is. |
| Backends.ReachableIsGood | src/backend/server.cpp:297-471 | Over all runs of requests and connector steps the pool is keyed by its handles, every connector is sound, and without the stranding step live; as long as no restart has made an import of an export or back, every import has between one and `restarts` things going. |
| Backends.TurnsApart | src/backend/server.cpp:400-425 | Without clashes a bulk command restarts no connector as one of the other kind exactly when this holds for each configured service and its connectors in the pool before. |
| Backends.UnpluggedKeepsKind | src/ui/context.cpp:360-364 | So it does not after an unplug, whatever the services were before a change of identity. |
| Backends.DroppedIsInert | src/backend/server.cpp:232-346 | In every run, whatever requests are served on whatever files: a connector that has been dropped is gone for good, and deleting all its late steps changes nothing. |
| Backends.ActIsLocal | src/backend/server.cpp:232-346 | A step of one connector changes no other connector of any service. |
| Backends.ActMoves | src/backend/server.cpp:232-346 | A step of a connector that is alive is taken. |
| Backends.BulkFollows | src/backend/server.cpp:631-843 | Whatever the pool was, a bulk request makes it follow the disk if and only if the disk is unambiguous. |
| Backends.ServedConservesCarriers | src/backend/server.cpp:631-843 | In every reachable state, after a bulk request on an unambiguous disk exactly those carriers are alive that were before, whose service is still configured and goes on, and whose pier is still listed. |
| Backends.ServedAwake | src/backend/server.cpp:631-843 | In every reachable state, what each bulk request makes of a configured service being awake or asleep. |
| Backends.ServedOwn | src/backend/server.cpp:738-871 | In every reachable state, what a request for one service makes of its being awake or asleep and of its carriers; one that is not configured is dropped. |
| Backends.ServedEquips | src/backend/server.cpp:631-843 | In every reachable state a bulk request restarts a service or leaves it without connectors; a restarted one has a connector for each pier of its entry, with the configuration and the entry on disk. |
| Backends.ServedOwnEquips | src/backend/server.cpp:738-871 | The same for a request for one service, which leaves all others alone. |
| Backends.ServedConfigures | src/backend/server.cpp:631-843 | In every reachable state, after a bulk request every connector has the configuration of the disk. |
| Backends.UnplugEmpties | src/backend/server.cpp:803-843 | An unplug leaves no connectors at all. |
| Backends.UnloadedIsIgnored | src/backend/server.cpp:631-640 | A request whose files cannot be loaded leaves the pool alone. |
| Backends.SingleFollows | src/backend/server.cpp:738-801 | After an edit of one service an engage or adjust of its handle makes the pool follow the edited disk. |
| Backends.BulkAdjustIsSingles | src/backend/server.cpp:551-801 | On an unambiguous written home, with the two loaders and their different defaults in between: the bulk adjust leaves the pool of the single adjusts of handles with distinct keys that cover all pooled and configured ones, in any order. |
| Backends.BulkAdjustIsSinglesExactly | src/backend/server.cpp:551-801 | With the loaders in between: every order gives the pool of the bulk adjust if and only if pool and disk match in the keys of their handles. |
| Files.ItemRoundTrip | src/store/context.cpp:204-238 | The entry written for a service is read back as that service by the context and by both loaders of the engine. |
| Files.EngineLoadersAgree | src/backend/server.cpp:562-623 | The two loaders of the engine read an entry alike exactly when it is malformed or has a valid role. |
| Files.ReadersAgree | src/backend/server.cpp:562-578 | Where the engine can read an entry, its single loader reads the same service as the context. |
| Files.ConfigReadersAgree | src/backend/server.cpp:506-549 | Context and engine read a configuration alike exactly when it is malformed or names a DHT bootstrap, whose default differs. |
| Files.SparseConfig | src/store/context.cpp:93-129 | A file with pier and repository alone gives the constructed configuration, but for the log level. |
| Files.OldConfig | src/store/context.cpp:93-129 | Pier and repository are all that is needed; an old file has one STUN server. |
| Files.SparseItem | src/backend/server.cpp:562-623 | The defaults of an entry for the context, and exactly what the engine needs of one. |
| Files.SavedDocLoads | src/store/context.cpp:167-238 | A saved pier file gives back the index, the bulk list and each single service. |
| Files.ConfigRoundTrip | src/store/context.cpp:93-165 | A saved configuration is read back by context and engine but for dht.network. |
| Text.IntRoundTrip | src/store/context.cpp:189-191 | A number written as text is read back exactly when it fits the type it is read as. |
| Store.ExecAgrees | src/store/context.cpp:289-477 | A call by a current context whose index agrees with the disk is never stale and has the operation's effect on the files or none, and the index still agrees. |
| Store.AloneAgrees | src/store/context.cpp:242-477 | After any calls of one context alone, reopening the home gives its index and its configuration up to dht.network. |
| Store.StaysCurrent | src/store/context.cpp:50-83 | The stamp moves exactly when the hard lock was taken, and a stale call leaves the home alone. |
| Outcomes.EditOutcome | src/store/context.cpp:375-435 | For any context and files, exactly when a call that edits services ends in a usage error, without writing, stale, with a file error, or done. |
| Outcomes.SetConfigOutcome | src/store/context.cpp:289-351 | The same for set_config: done if and only if the context is current and the pier unchanged, or the new one whole or missing and the repository path not empty. |
| Outcomes.PierOutcome | src/store/context.cpp:446-489 | The same for add_pier, del_pier and the calls about certificates. |
| Outcomes.StaleKeepsEdit | src/store/context.cpp:387-389 | A stale call has changed configuration and index as if it had not been refused, and no file. |
| Outcomes.EditFound | src/store/context.cpp:375-435 | After a successful edit a context that is opened finds this one service changed and all else as before. |
| Outcomes.EditKeepsFiles | src/store/context.cpp:204-238 | A successful edit leaves all certificates, keys and other files. |
| Outcomes.SetConfigFound | src/store/context.cpp:344-350 | After set_config for the same pier it finds the new configuration and the same services. |
| Outcomes.InstallFound | src/store/context.cpp:291-342 | After set_config for a new pier it finds the new configuration and what the new repository holds, with a key pair for the local pier, its own if it had one. |
| Outcomes.PierFound | src/store/context.cpp:446-477 | After add_pier or del_pier it finds the pier with its certificate, or finds it gone, and all else as before. |
| Faithfulness.ExecFaithful | src/store/context.cpp:289-477 | For every operation and every configuration and index a context may hold: a call that succeeds does to the files what the operation means if and only if the index agrees with the edited file on all other services and the configuration with the configuration file, or neither edit changes anything. |
| Faithfulness.OnlyDoneWrites | src/store/context.cpp:289-477 | A call that does not succeed leaves the files alone, whatever the context holds. |
| Store.SavedDocInjective | src/store/context.cpp:204-238 | Different indexes give different files. |
| Worlds.SingleToken | src/store/context.cpp:50-83 | Of the contexts that have written, only the last writer of the run is not stale. |
| Worlds.StaleForEver | src/store/context.cpp:50-64 | A stale context stays stale until it is reopened. |
| Worlds.StaleStep | src/store/context.cpp:50-64 | The calls of a stale context leave disk and stamp unchanged. |
| Worlds.NoLostUpdate | src/store/context.cpp:289-477 | In every interleaving of any number of contexts the disk is the successful calls replayed in commit order, if no context's first write follows a foreign one. |
| Worlds.FirstWritesCollide | src/store/context.cpp:50-57 | Of two contexts opened together, the second to add silently removes what the first has added. |
| Worlds.RemovalCollides | src/store/context.cpp:50-57 | A first write that only removes a service removes what another context has added as well. |
| Worlds.LostExactly | src/store/context.cpp:289-477 | In every interleaving of any contexts, clean or not: at no time a committed update is lost or spoilt if and only if every commit meets the condition of ExecFaithful. |
| Snapshots.AccessesAddUp | src/store/context.cpp:289-477 | The single file accesses of a call, which write the index of its own context, add up to the disk that the call leaves. |
| Snapshots.MachineRefinesWorlds | src/store/context.cpp:66-83 | In every interleaving of single accesses, when no call holds the lock disk, stamp and contexts are those after the past calls and openings, each taken as one event. |
| Snapshots.LoadsAreSnapshots | src/backend/server.cpp:484-640 | What the engine loads, in bulk or for one handle, from what it has read under the lock is what it would load from the disk after a whole number of calls, for any contexts, calls and interleaving. |
| Snapshots.LoadsAreReplays | src/backend/server.cpp:484-640 | While the commits are faithful, that disk is the committed operations replayed. |
| Snapshots.OpenedIs | src/store/context.cpp:242-272 | A context that is opened from files read under the lock is the one that the disk gives. |
| SnapshotRuns.EveryRunHappens | src/store/context.cpp:50-83 | Every run of contexts and calls happens on the machine of single accesses, to the same world. |
| SnapshotRuns.ReadHappens | src/backend/server.cpp:484-504 | A reader that gets the lock can read everything that it loads. |
| ContextObjects.Context.LoadPierConfig | src/store/context.cpp:167-202 | The loop that emplaces entries makes the index of the file, earlier entries and present ones first. |
| ContextObjects.Context.LoadRepository | src/store/context.cpp:251-271 | Visiting the directories in any order loads exactly those with a certificate. |
| ContextObjects.Context.SavePierConfig | src/store/context.cpp:204-238 | The loop writes the pier's services in the order of the map and no other file. |
| ContextObjects.OpenContext | src/store/context.cpp:242-272 | Opening gives the index of the disk, or the error of the configuration file. |
| ContextObjects.Context.SetConfig | src/store/context.cpp:289-351 | The in-place configuration change is the operation, also where it fails half way. |
| ContextObjects.Context.AddExportService | src/store/context.cpp:375-391 | The in-place addition is the operation, with the index changed before the lock is taken. |
| ContextObjects.Context.DelExportService | src/store/context.cpp:393-404 | The same for a removal. |
| ContextObjects.Context.AddImportService | src/store/context.cpp:406-422 | The same for an import. |
| ContextObjects.Context.DelImportService | src/store/context.cpp:424-435 | The same for the removal of an import. |
| ContextObjects.Context.AddPier | src/store/context.cpp:446-459 | The same for a pier; a refusal renews the stamp nevertheless. |
| ContextObjects.Context.DelPier | src/store/context.cpp:461-477 | The same for the removal of a pier. |
| Messages.MessageRoundTrip | src/backend/message.cpp:85-197 | A pushed message is pulled back unchanged if and only if its pids fit an int; single health or report, list and empty list are told apart. |
| Messages.NoTunnels | src/backend/message.cpp:65-82 | A report without tunnels is one of no tunnels. |
| Messages.ErrorsWin | src/backend/message.cpp:148-160 | A message with an error is an error whatever else it carries; one without a payload is an empty error. |
| Messages.PushMessage | src/backend/message.cpp:85-146 | The branches and loops build the tree of the message. |
| Messages.ConvertReport | src/backend/message.cpp:45-63 | The loop builds the tree of a report. |
| Messages.PullMessage | src/backend/message.cpp:148-197 | The branches and loops read the tree, with the first error found. |
| Rpc.CallGetsThrough | src/backend/client.cpp:57-85 | For each of the ten calls and every pool, the client ends with the dispatcher's answer as the alternative it extracts, or with the exception's text. |
| Rpc.CallsDoNotBreak | src/backend/client.cpp:131-179 | While carrier pids are below 2^31 no call ends in any other way. |
| Calls.BulkCallMeans | src/backend/client.cpp:131-144 | From every reachable state: after a bulk call the pool holds exactly the configured services; unplug() leaves all asleep, engage() exactly those awake that start by themselves, adjust() known ones as they were; what is awake has its connectors with configuration and entry on disk. |
| Calls.BulkCallCarriers | src/backend/client.cpp:131-144 | ... and exactly the earlier carriers of services that run on, for piers still listed. |
| Calls.SingleCallMeans | src/backend/client.cpp:156-169 | From every reachable state: what a call for one service does to it and returns, with all others left alone. |
| Calls.SingleCallCarriers | src/backend/client.cpp:156-169 | ... and its carriers afterwards. |
| Calls.QueriesChangeNothing | src/backend/server.cpp:873-905 | status() and review() change nothing. |
| Calls.StatusReturns | src/backend/client.cpp:146-149 | status() returns each pooled service exactly once, with what its connectors are up to. |
| Calls.StatusOneReturns | src/backend/client.cpp:171-174 | status(id) returns the service asked for, or is an error if its key is not pooled. |
| Calls.ReviewReturns | src/backend/client.cpp:151-154 | review() returns a report of each pooled service exactly once, with exactly its carriers. |
| Calls.ReviewOneReturns | src/backend/client.cpp:176-179 | review(id) returns the report of what is pooled under the key, or is an error. |
| Calls.ErrorsExactly | src/backend/server.cpp:925-987 | A call ends in a task_error if and only if the home cannot be loaded, an engaged service is not there, or the service asked for is not pooled. |
| Calls.FailedLoadIsIgnored | src/backend/server.cpp:980-984 | A call that fails to load its files leaves the pool alone. |
| Calls.StrangeRequest | src/backend/server.cpp:975-984 | A request that cannot be read or is unknown changes nothing and is answered with an error under its action. |
| Rpc.AnswerIsSmall | src/backend/server.cpp:873-987 | If all carriers in the pool have pids below 2^31, so have those in the dispatcher's answer. |
| Rpc.AnswerShowsPool | src/backend/server.cpp:890-987 | Every report in the dispatcher's answer is of a pooled service and lists only its live carriers; the list has a report for each service. |
| Rpc.ReportTells | src/backend/server.cpp:890-905 | A report lists exactly the carriers that are alive, and its state and message are coherent. |
| Rpc.StatusIsComplete | src/backend/server.cpp:873-879 | The status list has each pooled service once with its state and message. |
| Sessions.SessionsCounted | src/backend/server.cpp:990-1053 | In every run m_score is the number of open sessions, each has exactly one coroutine, and cleanup stops the server only after a session and when none is open. |
| Sessions.EndsExactly | src/backend/server.cpp:1005-1017 | A session that ends stops the server if and only if it was the only one and the server is not to run for ever. |
| Sessions.SessionGoesOn | src/backend/server.cpp:1019-1053 | Until it is stopped the server accepts sessions, and every request is answered and followed up. |
| Sessions.Server.OnAccept | src/backend/server.cpp:1033-1053 | The accept handler is the step. |
| Sessions.Server.OnRead | src/backend/server.cpp:1019-1025 | The resumption after a read is the step. |
| Sessions.Server.OnWritten | src/backend/server.cpp:1025-1030 | The resumption after a write is the step. |
| Sessions.Server.OnCleanup | src/backend/server.cpp:1005-1017 | The end of a session is the step. |
| Forms.StoreFollows | src/ui/context.cpp:144-193 | Store() keeps pool and disk together, renamings and new services included, if and only if a stored service stays under its pier and its new name is free; the context agrees with the disk in any case. |
| Forms.StoreMeans | src/ui/context.cpp:144-193 | Which handles are configured after Store(): the new one instead of the old one. |
| FormFields.StoreWrites | src/ui/context.cpp:144-193 | After Store() of a form of a stored or new service the repository holds it with every field as shown, and all other services as before; the form knows it. |
| FormFields.UneditedIdles | src/ui/context.cpp:146-147 | A form whose ten shown fields are those it was made from changes nothing. |
| FormFields.StoreEquips | src/ui/context.cpp:178-187 | After Store() of an edited form the connectors of the service have every field that it shows; an awake one stays awake, a new handle follows autostart. |
| Forms.MovedImportStrays | src/ui/context.cpp:172-187 | An import moved to another pier stays in the pool under its old handle, no longer configured; if accepted, it is pooled and configured a second time. |
| Forms.RefusedRenameStrays | src/ui/context.cpp:162-192 | A rename to a taken name deletes the service from the store and leaves it in the pool, with the form unchanged. |
| FormExamples.StoreCanStrayByMoving | src/ui/context.cpp:172-187 | There is a world and a form for the first of these. |
| FormExamples.StoreCanStrayByRenaming | src/ui/context.cpp:162-192 | There is a world and a form for the second. |
| Forms.StoreIsLocal | src/ui/context.cpp:144-193 | Store() touches no other entry of the pool. |
| Forms.PurgeFollows | src/ui/context.cpp:195-219 | Purge() keeps pool and disk together if and only if the form still has the handle of what it deletes. |
| FormFields.PurgeWrites | src/ui/context.cpp:195-219 | Purge() removes the service that the form was made from and no other. |
| Forms.RenamedPurgeStrays | src/ui/context.cpp:195-219 | A service purged while its form shows another handle stays in the pool, no longer configured. |
| FormExamples.PurgeCanStray | src/ui/context.cpp:195-219 | There is a world and a form for it. |
| Forms.PurgeUndoesStore | src/ui/context.cpp:144-219 | Storing a new service and purging it leaves configuration and pool handles as they were. |
| Forms.DelPierFollows | src/ui/context.cpp:488-491 | Deleting a pier, which the backend is not told of, keeps pool and disk together if and only if nothing is kept under it. |
| Forms.UselessIsEmpty | src/ui/context.cpp:451-476 | A pier found useless has nothing kept under it. |
| Forms.UselessIsUnlisted | src/ui/context.cpp:463-476 | ... and no export lists it. |
| Forms.StaysHomed | src/store/context.cpp:375-477 | Imports remain under the pier they name. |
| Forms.StoreConfigFollows | src/ui/context.cpp:323-369 | Another configuration is stored unless it is for a new identity whose key pair is half there; the pool then holds exactly the services of the repository in force if and only if that is unambiguous. |
| Forms.StoreConfigIdles | src/ui/context.cpp:346-356 | Otherwise nothing changes. |
| FormFields.StoreConfigRuns | src/ui/context.cpp:358-368 | Afterwards, for a new identity, exactly the services of its repository that start by themselves run, without any carrier of the old one; for the same identity all go on as they were; all that run have the configuration stored. |
| Forms.RepositoriesDiffer | src/ui/context.cpp:351-354 | Identities that differ in one symbol get different repositories. |
| FormObjects.ServiceForm.Store | src/ui/context.cpp:144-193 | The in-place form, acting on shared context and backend, does what the operation says, early returns included. |
| FormObjects.ServiceForm.Purge | src/ui/context.cpp:195-219 | The same for Purge(). |
| FormObjects.ServiceForm.Revert | src/ui/context.cpp:221-234 | After Revert() the form is not dirty. |
| Hashes.MixPermutes | src/store/utils.cpp:301-305 | Each hash step is a permutation of the 64-bit states. |
| Hashes.HashPermutes | src/store/utils.cpp:299-305 | So is hashing any text: it can be undone, and every state is reached. |
| Hashes.MixTells | src/store/utils.cpp:301-305 | Different symbols lead from one state to different states. |
| Hashes.HexifyReads | src/store/utils.cpp:310-315 | hexify writes sixteen upper-case digits that stand for the value. |
| Hashes.HexifyTells | src/store/utils.cpp:310-315 | hexify is injective. |
| Hashes.KnownHashes | src/store/utils.cpp:296-305 | The published FNV-1a hashes of the empty text, of a and of ab. |
| Hashes.EmptyTextHash | src/store/utils.cpp:292-315 | The hash of the empty text, as text. |
| Hashes.NegativeSymbol | src/store/utils.cpp:303-303 | A negative symbol is widened with its sign. |
| Hashes.MakeTextHash | src/store/utils.cpp:292-308 | The loop computes the hash of the decoded text. |
| Hashes.OneSymbolTells | src/store/utils.cpp:292-308 | Texts of one length that differ in exactly one symbol have different hashes. |
| Hashes.CommonEndIsNeutral | src/store/utils.cpp:292-308 | A common end neither makes nor hides a collision. |

## Left out

- plexus, wormhole and ricochet, `make_options`, STUN, DHT and email rendezvous are not part of this model. What remains of a negotiation is its contract: an invite ends with exactly one callback, an accept makes any number and ends with a fallback, an exception stops it and is posted as a fallback.
- Carrier processes: a launch succeeds; environment, command line and exit codes are not modelled.
- The order of a connector's carriers in a report: the program orders them by the address of a token, the model by pid.
- ImportTokens: is about a connector whose service is an import throughout, since the local flag of a connector never changes; Backends.ReachableIsGood counts under the same condition, that no restart changes the flag, and needs none for the rest.
- StoreFollows: is about a form whose context is current and agrees with the disk, as Store.AloneAgrees and Worlds.NoLostUpdate provide, and about handles with different keys.
- What set_config finds of a half present key pair, before it takes the lock, is a parameter of the call, tied to the files only in Store.Fits and the class Context. A file is written in one access, and making the log folder is not modelled. A set_config for a new pier with an empty repository path fails under the lock, as create_directories does.
- LoadsAreSnapshots: reads the files of a pier directory in one access; the order of all accesses of a reader is free.
- ServedConservesCarriers: supposes, like ServedAwake and for its own handle ServedOwn, that a pooled service and a configured one with equal keys are the same; otherwise the map hands the controller of one to the other.
- NoLostUpdate: supposes, like Store.AloneAgrees, that set_config changes the repository only together with the local pier, that a repository has a path, that a key pair which set_config found whole or missing still is when it has the lock, and ids of the form owner/pin. Worlds.LostExactly supposes none of this.
- BulkIsSingles: gives connectors that different single requests create the same birth number; the number only serves to identify a connector.
- CallGetsThrough: takes the library's text of an exception as a parameter and supposes that it is not empty.
- The client wraps the text of a task_error in a sentence of its own, which is not modelled; nor are the lists of services and piers and the certificate texts that a context returns, which are its index and files.
- JSON text: messages and files are property trees in which an empty array and an empty text coincide. Pier files and configuration are flattened to their leaves, and log.level and nat.test are stored as numbers.
- The message loops work on immutable trees, not on stream buffers and sockets; the client's buffer, timeouts and connection attempts are not modelled.
- engine::comply is modelled on values (`Rpc.Complied`), not as a method of the class `Engine`.
- Certificates: generation, parsing and fingerprints; a certificate is an opaque text that the key pair's creator supplies.
- Input/output failures in the middle of a save, directories that cannot be removed, and the granularity of file times: stamps are fresh numbers.
- Conversion between locale and UTF-8, and is_utf8, which advances one byte too far after each character; a text hash starts from the decoded wide string, with a signed 32-bit wchar_t.
- An accept error other than a cancellation, which is thrown out of the io context; cancel() and the destructor of the server.
- AddPier, DelPier and HasPier of a service form, wxWidgets dialogs, offers, autostart tasks and packaging.
