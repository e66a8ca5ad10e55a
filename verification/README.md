# delegatio: verified model

A Dafny model of the stateful core of delegatio: the transactional key-value store in its in-memory and etcd
forms, the typed user index kept in it, the goroutines behind one SSH connection, the per-channel request
handler, the bounded terminal-size queue, and the CLI's image upload and cleanup loops.

| file | what it models |
|---|---|
| `Common.dfy`, `StoreTypes.dfy` | shared types, key iterators, Go's unordered map iteration |
| `StdStore.dfy` | in-memory store and transactions as classes over heap maps with explicit locks; use after finish |
| `EtcdStore.dfy` | etcd store and overlay transaction; caller slices kept by reference; the commit batch |
| `OverlayRefinement.dfy` | overlay transaction against snapshot transaction, with overwritten slices and direct writes |
| `TransactionLink.dfy` | the two transaction classes driven side by side do what that model says |
| `StoreSerializability.dfy`, `EtcdSerializability.dfy` | any number of clients of the in-memory store, step by step; of the etcd store, request by request |
| `StoreTransfer.dfy` | copying the in-memory store into etcd or another in-memory store |
| `StoreWrapper.dfy`, `Logins.dfy`, `LoginStory.dfy`, `LoginRaces.dfy` | prefixed indices; concurrent password and key logins over them; who is let in; logins of one new user racing |
| `ChannelHandler.dfy` | callback registration, the `Serve` dispatch loop, what a served channel does |
| `ChannelLife.dfy`, `ConnectionLifecycle.dfy` | goroutines of a channel; of a whole connection |
| `ChannelStory.dfy`, `ConnectionStory.dfy` | what whole runs of them do, told by the client's input and the outcomes of external calls |
| `KeepAlive.dfy` | the keepalive counter against a counter-free specification |
| `TerminalQueue.dfy` | the size queue, sequentially and under any interleaving |
| `ImageUpload.dfy`, `Cleanup.dfy` | the upload loop; removal of leftovers from the hypervisor |

How it is read. Code that updates objects in place is a class whose methods are proved against functions of the
old state. Concurrent code is a transition system: a step moves one goroutine (or two that meet at an unbuffered
channel), and theorems are about all runs. Calls to systems outside the repository (SSH, Kubernetes, LDAP,
libvirt, the etcd network) appear as outcomes chosen by a parameter, a step or a fault oracle. JSON is an
encode/decode pair that round-trips; payload parsing is a well-formed/malformed outcome; generated key pairs are
assumed fresh. A lock operation that would block is a precondition in the sequential classes and a disabled step
in the transition systems. `modifies` names what a method may change, and unlocking a free mutex is a
precondition violation, so a method that verifies releases each lock exactly once. What a transition system records
(histories, logs, answers) is proved equal to functions that read only the list of steps of a run, its beginning and
the outcomes of external calls: the `...By`, `...After` and `...Of` functions of the story sections.

Where the code falls short of what one might expect, the model keeps the code and states the exact behaviour:

- an etcd transaction keeps the byte slices it is given and hands them out again, unlike the in-memory one, which
  copies: overwriting a slice changes what the transaction sees exactly when the slice is buffered and the bytes
  are new (`BufferedByReference`, against `StoreByValue` and `StdWorksByValue`);
- with slices overwritten and direct writes in between, the two transaction kinds answer alike exactly when no read
  meets a disturbance, and commit the same map exactly when every buffered slice and every untouched key is intact
  (`AnswersAgreeIffUndisturbed`, `CommitsAgreeIff`); the plain refinement needs a careful caller (`EtcdRefinesStd`);
- a put through a finished in-memory transaction reaches the store exactly when that transaction was the last to
  commit (`PutEscapesIff`); a rollback frees a lock it does not own exactly when the transaction has not committed
  and another one holds the lock, and a commit in that position publishes a stale map; with nobody holding the lock
  either aborts the program (`RollbackStealsIff`, `CommitByAnyone`, `StaleTransactionArises`);
- etcd transactions are always serial in what they write, but in what they read only when it still stands at the commit;
  a direct write between two gets gives answers of no serial run (`WritesAreSerial`, `SerializableIff`,
  `ReadsNeedNotRepeat`); a failed listing of the etcd store aborts the program (`Store.Iterator`);
- password logins of one new user can race: a key stays usable that is not the one in the user's entry, exactly
  when both logins passed the existence check before either's first put, both made it, and the one whose entry was
  replaced indexed its key as well (`KeysMatchIffNoLostRace`, `RaceHappens`);
- a transfer that fails leaves the source store's mutex locked (`Transfer`);
- a login that stops between its two puts leaves a user whose stored key is not usable: for good, exactly when no other
  login of that user has passed the check and not yet made its first put (`IndicesCoherentUnlessHalted`,
  `HaltedForGoodIff`, `RivalOnItsWay`);
- a missing challenge is reported as an error by the existence check, where the comment suggests false
  (`ChallengeExists`);
- the upload sends whole buffers, so it exceeds the declared length for files shorter than half a buffer
  (`DeclaredLengthFits`).

## Model

| member | source | states |
|---|---|---|
| `ConnectionLifecycle.ReturnedMeansQuiet` | ssh/connection/connection.go:38-103 | in every interleaving with any number of channels and callbacks, once the connection handler has returned nothing it started is left: keepalive and drainer handed off once, every channel handler, Serve and callback is gone, each callback after one close and one Done, exactly the callbacks the requests asked for, and the connection was closed once |
| `ConnectionLifecycle.TeardownOrder` | ssh/connection/connection.go:49-54 | channels are quiet before the drainer is joined, the drainer before keepalive, keepalive before the connection is closed |
| `ConnectionLifecycle.EndsOnlyForAReason` | ssh/connection/connection.go:58-103 | in every interleaving the connection is torn down only if its context was cancelled, the client closed the stream, more than max probes in a row failed, or the resources could not be created |
| `ConnectionStory.ChannelsAreTheOffersTaken` | ssh/connection/connection.go:90-103 | over every run the channels, and the one in hand if any, are the client's first offers, one for each offer taken, in order; the rest wait |
| `ConnectionStory.ChannelsEndAsOffered` | ssh/connection/connection.go:105-172 | over every run a channel whose handler is gone was served to the end exactly when its offer may be served and accepting and building succeeded, was rejected exactly when it may not be served, served a beginning of its requests in order, and sent, started, queued and recorded exactly what these call for |
| `ConnectionStory.ReturnedServedTheOffers` | ssh/connection/connection.go:38-172 | once the connection handler has returned, that holds of one channel for each offer taken |
| `ConnectionStory.ServesOnceReady` | ssh/connection/connection.go:57-103 | once the resources were created, only cancellation, the client or failed probes end the connection |
| `ConnectionStory.MainAndHelpersDid` | ssh/connection/connection.go:58-74 | channels are served exactly if creating the resources succeeded; keepalive leaves only when its context is done, the drainer only then or when its stream is closed and drained |
| `ConnectionStory.TicksAreProbedAndRequestsAnswered` | ssh/connection/connection.go:184-237 | each tick taken is one probe, answered before the next; each global request that wants a reply gets one before the next is taken |
| `ConnectionStory.InputArrives` | ssh/connection/connection.go:79-103 | the context and the streams are done exactly if the environment ended them |
| `ConnectionStory.NothingIsHeldUp` | ssh/connection/connection.go:90-103 | while the connection is up every goroutine can move unless it has nothing to do |
| `ConnectionLifecycle.ShutdownFinishes` | ssh/connection/connection.go:79-243 | from any reachable state with a reason to stop, with ticks, requests and channels still arriving anywhere in between, the goroutines take at most as many steps as the first state and that input account for, and a state where none can move is one where the handler has returned |
| `ConnectionLifecycle.ShutdownCanFinish` | ssh/connection/connection.go:79-243 | some schedule reaches the return |
| `ConnectionLifecycle.Progress` | ssh/connection/connection.go:174-243 | no state on the way out is stuck; the next step is exhibited |
| `ConnectionLifecycle.RunsAreBounded` | ssh/connection/connection.go:184-237 | over every run, goroutine steps are bounded by a measure of the first state plus the weight of the input, and the reason to stop persists |
| `ConnectionLifecycle.HandlerWaitGroupSound` | ssh/connection/connection.go:79-106 | the connection's wait group counts handlers added and not done, is never negative, and gets no Add after its Wait began |
| `ConnectionLifecycle.CallbackWaitGroupSound` | ssh/connection/channels/channel.go:22-28 | every channel's wait group is exactly the callbacks alive plus the at most one added and not yet started, and gets no Add once its wait has begun |
| `ConnectionLifecycle.KeepAliveGivesUpOnlyAfterFailures` | ssh/connection/connection.go:184-203 | before main itself cancels it, the keepalive context is cancelled only if the last max+1 probes all failed |
| `ConnectionLifecycle.ProbeGivesUpExactly` | ssh/connection/connection.go:188-199 | a probe ends the keepalive loop exactly when it completes max+1 failures in a row |
| `ConnectionLifecycle.GivenUpAsTheLoopWould` | ssh/connection/connection.go:184-203 | in every interleaving the goroutine has given up exactly when the sequential loop would on the same answers, and at the same one |
| `ConnectionLifecycle.ChannelsNeedResources` | ssh/connection/connection.go:58-74 | no channel is taken unless creating the resources succeeded |
| `ConnectionLifecycle.InvStep` | ssh/connection/connection.go:38-243 | every step of every goroutine and of the environment keeps the connection invariant |
| `ChannelLife.InvStep` | ssh/connection/channels/channel.go:21-62 | every step of a channel's goroutines keeps the channel invariant |
| `ChannelLife.HandlerGoneMeansQuiet` | ssh/connection/connection.go:105-140 | when a channel handler is gone, so are its Serve, which handed off once, and all its callbacks |
| `ChannelLife.ServedOnlyIfServable` | ssh/connection/connection.go:108-119 | only session channels and parsable direct-tcpip channels are served, only others rejected; `GoneServedIff` is the converse |
| `ChannelLife.CallbackCount` | ssh/connection/channels/session.go:31-52 | callbacks started: one per shell or well-formed subsystem request, or the one forwarder of a direct-tcpip channel |
| `ChannelLife.CallbackMoves` | ssh/connection/channels/callback.go:37-42 | each callback attempts one close, then calls Done once, and the counter follows |
| `ChannelLife.Progress` | ssh/connection/channels/channel.go:33-38 | under a cancelled context a channel whose handler is alive always has a next step |
| `ChannelLife.MeasureFalls` | ssh/connection/channels/channel.go:33-56 | every step of a channel lowers its measure |
| `ChannelStory.GoneServedIff` | ssh/connection/connection.go:105-172 | over every run of a channel from its offer: when its handler is gone it was served to the end exactly when it may be served and Accept and building both succeeded, otherwise Serve never ran; it was rejected once exactly when it may not be served |
| `ChannelStory.ServedInOrder` | ssh/connection/channels/channel.go:33-43 | requests are served in the order they came, and all of them by the end, with the stream closed, unless the context was cancelled |
| `ChannelStory.ServedAsAsked` | ssh/connection/channels/channel.go:30-57 | in every interleaving, between two requests and at the end, exactly the actions startup and the served requests call for have been performed: replies, goroutine starts, queued sizes, recorded ptys |
| `ChannelStory.WaitsOnlyForClient` | ssh/connection/channels/channel.go:33-43 | a channel whose handler lives can always move unless Serve waits for the client |
| `ChannelHandler.Handler.Serve` | ssh/connection/channels/channel.go:21-57 | the loop's callback trace is the startup callbacks followed by each processed request's callbacks in order |
| `ChannelHandler.TraceByPosition` | ssh/connection/channels/channel.go:30-56 | for any table and requests, position by position: the startup callbacks, then for each request the callbacks of its type, or the defaults, and after them the every-request callbacks |
| `ChannelHandler.Builder.Build` | ssh/connection/channels/builder.go:108-149 | fails exactly on a missing dependency, otherwise registers the callbacks under their request types |
| `ChannelHandler.SessionBuilderSkeleton` | ssh/connection/channels/session.go:17-86 | the setters leave the session callback table |
| `ChannelHandler.DirectTCPIPBuilderSkeleton` | ssh/connection/channels/directtcpip.go:15-36 | the setters leave the direct-tcpip callback table |
| `ChannelHandler.ServedReplies` | ssh/connection/channels/session.go:24-80 | for all request sequences the replies are exactly those of the per-request rule of RFC 4254 sections 5.4, 6.2, 6.5 and 6.7 |
| `ChannelHandler.ServedThreads` | ssh/connection/channels/session.go:31-52 | for all request sequences the goroutines started are the startup ones, then one per shell and well-formed subsystem request, in order |
| `ChannelHandler.ServedSizes` | ssh/connection/channels/session.go:54-67 | the k-th size queued has the columns and rows of the k-th well-formed window change as width and height, modulo 2^16, and there are no others |
| `ChannelHandler.ServedPtys` | ssh/connection/channels/session.go:69-80 | exactly the well-formed pty requests are recorded, in order |
| `ChannelHandler.ServeSession` | ssh/connection/connection.go:124-140 | a session from skeleton through Build to Serve: for any requests and any moment of cancellation, the replies, goroutines, sizes and ptys are those the processed requests call for |
| `ChannelHandler.ThreadCount` | ssh/connection/channels/directtcpip.go:29-33 | number of goroutines: shell plus well-formed subsystem requests on a session, one otherwise |
| `KeepAlive.Probe` | ssh/connection/connection.go:184-203 | the counter loop gives up at the first probe after which the last max+1 outcomes are failures, and never earlier |
| `StdStore.Store.Get` | internal/store/stdstore.go:30-39 | a fresh copy of the value, or the unset error, with the mutex free again |
| `StdStore.Store.Put` | internal/store/stdstore.go:42-52 | begin, put, commit and deferred rollback change exactly one key and leave both locks free |
| `StdStore.Store.Delete` | internal/store/stdstore.go:55-65 | removes exactly one key and leaves both locks free |
| `StdStore.Store.Iterator` | internal/store/stdstore.go:69-80 | each stored key with the prefix, once |
| `StdStore.Store.BeginTransaction` | internal/store/stdstore.go:83-94 | holds the transaction lock and has a private copy of the whole map |
| `StdStore.Transaction.Commit` | internal/store/stdstore.go:96-104 | publishes the transaction's own map and releases the lock |
| `StdStore.Transaction.Rollback` | internal/store/stdstore.go:165-169 | releases a live transaction's lock, does nothing after a commit |
| `StdStore.Transaction.CommitByAnyone` | internal/store/stdstore.go:156-162 | a commit by a transaction that no longer holds the lock still publishes its map and releases the lock of the one that does; it aborts exactly if the transaction committed before or nobody holds the lock |
| `StdStore.PutEscapesIff` | internal/store/stdstore.go:96-136 | a put through any transaction, open or finished, changes the store with no lock held exactly when it was the last to commit and the bytes are new |
| `StdStore.RollbackStealsIff` | internal/store/stdstore.go:165-169 | for any transaction at any moment: a rollback frees a lock it does not own exactly when it has not committed and the owner is another, who is then no longer live; it aborts exactly when it has not committed and nobody holds the lock |
| `StdStore.StaleTransactionArises` | internal/store/stdstore.go:83-169 | begin, rollback and begin again leave such a transaction |
| `StdStore.StoreByValue` | internal/store/stdstore.go:30-52 | from any state, after a put the caller may overwrite any set of buffers with anything: the store holds the bytes as put and every key reads accordingly |
| `StoreTypes.KeyIterator.Drain` | internal/store/stdstore.go:178-190 | the HasNext/GetNext loop terminates and yields the list in order |
| `StoreTypes.CollectKeys` | internal/store/stdstore.go:69-77 | whatever the map order, each key with the prefix is listed exactly once |
| `EtcdStore.Store.Put` | internal/store/etcdstore.go:82-85 | a direct put changes one key of the region, nothing outside, and needs no lock |
| `EtcdStore.Store.Iterator` | internal/store/etcdstore.go:88-97 | aborts exactly when the request fails; otherwise lists each key of the region with the prefix once |
| `EtcdStore.Transaction.Get` | internal/store/etcdstore.go:146-157 | answers what the overlay shows, from the very slice that was put if buffered |
| `EtcdStore.Transaction.Iterator` | internal/store/etcdstore.go:179-198 | lists stored undeleted keys, then buffered inserts |
| `EtcdStore.ListedExactlyVisible` | internal/store/etcdstore.go:179-198 | the listed keys are exactly the visible ones with the prefix; twice exactly when stored, undeleted and also inserted |
| `EtcdStore.Transaction.BuildOps` | internal/store/etcdstore.go:206-218 | whatever the map order, the batch mentions no key twice and has every put and every effective delete |
| `EtcdStore.Transaction.Commit` | internal/store/etcdstore.go:201-228 | success leaves the visible state and frees the lock; failure keeps lock and buffer |
| `EtcdStore.Transaction.Rollback` | internal/store/etcdstore.go:231-237 | frees the lock once and is idempotent |
| `EtcdStore.BatchGivesOverlay` | internal/store/etcdstore.go:206-220 | any listing of the batch leaves base minus deletes overlaid by inserts; other keys keep their commit-time value |
| `EtcdStore.BatchOrderIrrelevant` | internal/store/etcdstore.go:210-218 | two listings of one batch leave the same cluster |
| `EtcdStore.PermutedBatch` | internal/store/etcdstore.go:210-218 | any permutation of a batch is a batch |
| `EtcdStore.BufferedByReference` | internal/store/etcdstore.go:146-166 | for any transaction and any overwritten slice: what it sees changes exactly when the slice is buffered and the bytes are new, and then for every key buffered with that slice |
| `OverlayRefinement.EtcdRefinesStd` | internal/store/etcdstore.go:146-228 | for every base, operation sequence and batch order, as long as no buffered slice is changed and nobody writes directly, both transaction kinds return the same values and errors, list the same keys and commit the same map |
| `OverlayRefinement.AnswersAgreeIffUndisturbed` | internal/store/etcdstore.go:146-198 | with slices overwritten (those put and those Get returned) and direct writes interleaved, all gets and listings agree exactly when each finds its buffered slice as put, its untouched keys as at the beginning, and no stored key put again |
| `OverlayRefinement.StdWorksByValue` | internal/store/stdstore.go:125-153 | for every such schedule the in-memory transaction answers and ends as if run alone on the bytes as they were put |
| `OverlayRefinement.CommitsAgreeIff` | internal/store/etcdstore.go:201-228 | whatever the schedule and batch order, the commits leave the same map exactly when every buffered slice holds the bytes it was put with and every key the transaction did not write is unchanged since it began |
| `OverlayRefinement.DirectWriteIsSeen` | internal/store/etcdstore.go:82-85 | a direct write after which the answers and the commits differ |
| `OverlayRefinement.OverwriteIsSeen` | internal/store/etcdstore.go:150-165 | an overwritten slice, the one Get returned, after which the answers and the commits differ |
| `TransactionLink.Drive` | internal/store/etcdstore.go:146-198 | one event on the two transaction objects and the caller's slices gives the next state and the answers of the model |
| `TransactionLink.DriveAll` | internal/store/etcdstore.go:146-198 | the same for every schedule |
| `StoreSerializability.Serializable` | internal/store/stdstore.go:30-169 | every interleaving equals the transactions that swapped, each with exactly the operations its client issued since it began, run one after another in that order, with the answers these runs give; each direct access, to the question its client asked, and each rolled-back transaction saw the whole state at its moment |
| `StoreSerializability.LockMeansOneTransaction` | internal/store/stdstore.go:83-104 | the transaction lock is held exactly while one client is inside a transaction |
| `StoreSerializability.NoDeadlock` | internal/store/stdstore.go:83-104 | a client that is not idle can move, or waits for one that can, or waits for the transaction's owner, who waits for one that can |
| `StoreSerializability.InvStep` | internal/store/stdstore.go:30-169 | each lock, copy, read, write and swap step keeps the invariant |
| `StoreSerializability.HistoryIsWhatClientsDid` | internal/store/stdstore.go:30-169 | the recorded history is a function of the steps alone: one committed transaction per swap, one aborted per rollback, one answer per direct read or listing |
| `StoreSerializability.ClientsAreFree` | internal/store/stdstore.go:30-169 | nothing but a lock holds a client back |
| `EtcdSerializability.WritesAreSerial` | internal/store/etcdstore.go:66-228 | in every interleaving the store is what the direct writes and the commits, each with exactly the operations its client issued since it took the lock, leave when run whole in that order; a transaction reads whole states between its begin and commit with only direct writes in between; direct reads see the whole state at their moment |
| `EtcdSerializability.SerializableIff` | internal/store/etcdstore.go:146-228 | a committed transaction answered as if run alone at its commit exactly when everything it read still stood then |
| `EtcdSerializability.SerializableWithoutDirectWrites` | internal/store/etcdstore.go:115-228 | with no direct write in between, that is so exactly when it listed no key it had put over a stored one |
| `EtcdSerializability.ReadsNeedNotRepeat` | internal/store/etcdstore.go:82-157 | a run with a direct write between two gets whose answers no serial run gives from any state |
| `EtcdSerializability.InvStep` | internal/store/etcdstore.go:66-237 | every step of every client keeps the invariant |
| `EtcdSerializability.HistoryIsWhatClientsDid` | internal/store/etcdstore.go:66-228 | the recorded history is a function of the steps alone: one change per direct write and per commit, one read per direct read, with the states they met |
| `EtcdSerializability.OpenTransactionAnswers` | internal/store/etcdstore.go:146-198 | what an open transaction has answered is what the store and its own writes gave at the moments it asked |
| `EtcdSerializability.NoDeadlock` | internal/store/etcdstore.go:111-128 | only the lock holds a client back, and its holder can always move on |
| `StoreTransfer.Transfer` | internal/store/stdstore.go:107-117 | succeeds exactly if the target accepts every put, and then leaves the old target overlaid by the source and nothing else changed; on failure some entries are copied and the mutex stays locked |
| `StoreTransfer.TransferInMemory` | internal/store/stdstore.go:107-117 | into another in-memory store: always succeeds and leaves the old target overlaid by the source, the source unchanged |
| `StoreWrapper.KeySpacesDisjoint` | internal/storewrapper/storewrapper.go:16-21 | the four key spaces are disjoint and injective for all names |
| `StoreWrapper.PrefixSelects` | internal/storewrapper/storewrapper.go:64-66 | an iterator over one prefix meets keys of that kind only |
| `StoreWrapper.Wrapper.GetAll` | internal/storewrapper/storewrapper.go:64-83 | returns exactly the stored records by name, or fails exactly when one does not decode (also lines 148-167) |
| `StoreWrapper.Wrapper.GetAllKeys` | internal/storewrapper/storewrapper.go:170-183 | every key of the store once |
| `StoreWrapper.Wrapper.PublicKeyExists` | internal/storewrapper/storewrapper.go:122-132 | true exactly for indexed public keys |
| `StoreWrapper.Wrapper.UuidExists` | internal/storewrapper/storewrapper.go:135-145 | true exactly for indexed uuids |
| `StoreWrapper.Wrapper.ChallengeExists` | internal/storewrapper/storewrapper.go:52-61 | true for a stored challenge, an error and not false for a missing one |
| `StoreWrapper.GetAllReadsLastWritten` | internal/storewrapper/storewrapper.go:34-167 | after any puts of any kinds the indices read back are exactly the records last written per name |
| `StoreWrapper.PrivateKeyKept` | internal/storewrapper/storewrapper.go:186-193 | the private key survives all writes of other kinds |
| `StoreWrapper.PutAll` | internal/storewrapper/storewrapper.go:34-193 | any sequence of the wrapper's puts on an empty store leaves exactly the bytes those statements are about |
| `Logins.IndicesCoherentUnlessHalted` | ssh/server.go:82-104 | in every interleaving each key record names an existing uuid, and a uuid's key is indexed to it exactly when no login is or stopped between the two puts with it |
| `LoginStory.StepsTellAll` | ssh/server.go:59-112 | over every run, from any indices: the indices are the beginning ones with every applied put written, each with the record of its visitor, and every login is where its own steps and the indices at each of them put it |
| `LoginStory.RefusedExactlyWhenTurnedAway` | ssh/server.go:59-112 | a login is refused exactly when the last thing it met was a failed check, a key not indexed, a put reporting an error with nothing or everything written, or a stop outside the puts; halted exactly when it stopped or failed between them |
| `LoginStory.PasswordLoginsEnd` | ssh/server.go:76-112 | a visitor whose uuid had an entry at its successful check is let in with no new key pair; one whose uuid had none exactly when both puts succeeded, with the key pair made for it; nobody else |
| `LoginStory.KeyLoginsEnd` | ssh/server.go:59-75 | a visitor with a key is let in exactly when it was found in the index, as the uuid it was indexed to at that moment |
| `LoginStory.LogIsWhatHappened` | ssh/server.go:82-104 | the log the other statements speak of has exactly the passed checks and applied puts of the steps |
| `LoginStory.LoginsGoOn` | ssh/server.go:59-112 | a login that has not ended can go on whatever its next call answers |
| `Logins.FinishedLoginsAreCoherent` | ssh/server.go:82-104 | once all logins ended and none stopped between the puts, every key record names an existing uuid and every entry's own key is indexed to it |
| `Logins.KeyLoginYieldsCreator` | ssh/server.go:59-75 | a key's identity never changes and is that of the login that created the key |
| `Logins.HaltedIsNeverRepaired` | ssh/server.go:87-104 | after a stop between the puts, with no other login of the user past the check and before its first put, the entry stays as it is and unindexed in every continuation |
| `Logins.HaltedForGoodIff` | ssh/server.go:82-104 | no continuation makes the key in the entry usable exactly when no login for that uuid is past the check and before its first put |
| `LoginRaces.RivalOnItsWay` | ssh/server.go:82-104 | a run to a state where one login has stopped between the puts and a rival is on its way to repair it |
| `Logins.HaltedHappens` | ssh/server.go:95-102 | a run that gets there |
| `LoginRaces.KeysMatchIffNoLostRace` | ssh/server.go:82-104 | in every interleaving from matching indices, every usable key is the one in its user's entry exactly when no two logins for one uuid passed the check before either's first put, both made that put, and the one replaced also indexed its key |
| `LoginRaces.TwoEntriesMeanARace` | ssh/server.go:82-98 | a user's entry is put twice only by two logins that both passed the check before the first put |
| `LoginRaces.NoRaceNoMismatch` | ssh/server.go:82-104 | if no two logins pass the check for one uuid, all usable keys match |
| `LoginRaces.RaceHappens` | ssh/server.go:82-104 | a run in which two logins of a new user both succeed, nobody stops, and the first key stays usable beside the recorded one |
| `Logins.PutsKeepStored` | internal/storewrapper/storewrapper.go:86-101 | a login's puts into the key-value store are its puts into the two indices |
| `TerminalQueue.TerminalSizeHandler.Fill` | ssh/connection/channels/size.go:36-47 | accepts exactly when open and not full, and then appends |
| `TerminalQueue.TerminalSizeHandler.Next` | agent/vmapi/size.go:35-37 | the oldest size; on an empty queue nil if closed, and otherwise the caller blocks |
| `TerminalQueue.QueueIsFifo` | ssh/connection/channels/size.go:31-58 | in every interleaving: bounded, no use after close, deliveries are an in-order prefix of what was accepted, nil only after all of it |
| `TerminalQueue.FillsAnswerFairly` | ssh/connection/channels/size.go:36-47 | over every run each Fill answers closed exactly if it found the queue closed under the lock, full exactly if open and full; the sizes accepted are exactly those of the Fills that returned accepted, in order, and of the one that has sent and not yet unlocked; each receive took one size or one nil |
| `TerminalQueue.EndedCloseHasClosed` | ssh/connection/channels/size.go:50-58 | a Close about to return has closed the queue and its channel for good |
| `TerminalQueue.ReceiverWaitsOnlyOpenAndEmpty` | ssh/connection/channels/size.go:31-33 | a receiver waits exactly while the queue is empty and open |
| `TerminalQueue.FillNeverBlocks` | agent/vmapi/size.go:40-51 | the send under the lock always has room on an open channel, and lock waiters wait for a goroutine that can move |
| `TerminalQueue.DrainAfterClose` | ssh/connection/channels/size.go:50-58 | after Close nothing is accepted, and receivers get exactly the remainder before nil |
| `ImageUpload.Upload` | cli/infrastructure/qemu/util.go:42-77 | every byte sent; each exit (cancelled, read failed, send failed, finish failed, success) is taken exactly when its failure comes first, success exactly when nothing failed, after as many chunks as iterations were completed |
| `ImageUpload.UploadedContent` | cli/infrastructure/qemu/util.go:42-69 | the file first, then what the previous chunk left in the buffer |
| `ImageUpload.DeclaredLengthFits` | cli/infrastructure/qemu/util.go:39-41 | the stream fits twice the file size exactly when the file is empty or at least half a buffer |
| `ImageUpload.SmallImagesOverrun` | cli/infrastructure/qemu/util.go:39-43 | with the program's buffer, the files that overrun are the non-empty ones below two mebibytes |
| `Cleanup.Hypervisor.DeleteVolumesFromPool` | cli/infrastructure/qemu/util.go:80-97 | deletes volumes of this pool only; all of them on success |
| `Cleanup.Hypervisor.DeletePool` | cli/infrastructure/qemu/delete.go:64-104 | removes this project's dir pool, active or not, touches no other |
| `Cleanup.Hypervisor.DeleteDomains` | cli/infrastructure/qemu/delete.go:39-62 | destroys every active domain with a project prefix, no other |
| `Cleanup.Hypervisor.DeleteNetwork` | cli/infrastructure/qemu/delete.go:14-37 | destroys the project's network, no other |
| `Cleanup.Hypervisor.TerminateInfrastructure` | cli/infrastructure/qemu/qemu.go:123-125 | under any failing calls nothing foreign changes, name by name; it succeeds exactly when none of its calls failed; then the network, every master and worker domain and the dir pool are gone, an active pool's storage too |
| `Cleanup.RetryConverges` | cli/infrastructure/qemu/qemu.go:123-125 | two runs in a row, each succeeding exactly when none of its own calls failed: after a first one failing anywhere, a second without failures cleans up, and nothing foreign has changed |

## Left out

- Kubernetes, Helm, LDAP, gRPC, libvirt XML and generated protobuf code: thin calls whose results are outcomes here.
- What exec and port-forward do with the channel (callback.go): one external call per callback; the commands and pod names are not modelled.
- etcd sessions, leases and the lock's own keys, which the concurrency package stores under the same prefix: the lock is a mutex.
- `EtcdStore.Transfer`: panics by design.
- EtcdStore.BufferedByReference: arrays never overlap, so a slice sharing part of its memory with a buffered one is outside the statement.
- StoreTransfer.Transfer: the source takes any store; the etcd store and (`TransferInMemory`) a different in-memory store are modelled. A store transferred to itself waits for its own mutex, which a precondition excludes.
- EtcdSerializability: slices overwritten while buffered are the subject of `OverlayRefinement` and do not occur; failed requests change nothing and are no steps.
- StoreWrapper.Wrapper.GetAll: one generic method stands for GetAllChallenges and GetAllPublicKeys, over the in-memory store, with nobody else writing during the loop.
- TerminalQueue.TerminalSizeHandler.Next: blocking on an empty open queue is an outcome in the class; the transition system models it as a disabled step.
- ImageUpload.Upload: errors of opening, measuring and closing the file, and of starting the upload, are not modelled; nor are reads that return fewer bytes than the buffer before the end of the file, or sends that take fewer bytes than given.
- ConnectionLifecycle.ShutdownFinishes: the bound grows with the input that keeps arriving, since select may keep preferring it to the cancelled context; external calls are assumed to return.
- `Server.Start` waiting for all connections: the accept goroutine may add to the wait group after the wait began.
- The private key of a returning password user, which is not loaded: no claim is made.
- Saving users to a configuration file and restoring them; virtual machine creation; logging; real time; grading of exercises.
