# p2p-pubsub: a Dafny model and its proofs

This project models the parts of p2p-pubsub whose correctness depends on how goroutines interleave, and proves what
they keep in every interleaving. Where the code does not keep what its documentation says, the model follows the code,
shows a run in which the promise fails, and states exactly when it holds.

| part | files |
|---|---|
| Readiness, bootstrap retry, shutdown | `Contexts`, `Infrastructure` (the struct), `RetrySystem` (the goroutines), `RetryInvariant`, `Starters`, `SingleLoop`, `Recovery`, `Quiescence`, `ReadinessEdges`, `RetryScenarios` |
| Bootstrap and its retry loop | `Bootstrap`, `RetryLoopSteps` (agreement with the goroutines) |
| Topics, subscriptions, listeners | `TopicNames`, `Topics` (DatabaseInstance), `PubSubSystem` (calls, locks, listeners), `PubSubInvariant`, `HandleOwnership`, `StuckTopics`, `LateStores`, `ListenerLife`, `Deadlock`, `SerialCalls`, `DisconnectOrder`, `CallRuns`, `Listener`, `ListenerSteps` |
| Authorization cache | `Gater` (the gater), `GaterSystem` (refresher, checks, registry) |
| Discovery rounds | `Discovery` (one round), `DiscoverySystem` (rounds that overlap) |

Each concurrent part is given twice. A class has the fields of the Go struct and methods that change them as one mutex
region or one loop does. A step system has any number of goroutines with program counters, and one step per mutex region,
lock operation or external call; its theorems are about every run of it. The two share the functions that say what a
region does, or are connected by lemmas saying that a call which nothing interrupts does, step by step, what the method
does (`SerialCalls`, `DisconnectOrder`, `GaterSystem.CheckInOneGo`, `RetryLoopSteps`, `ListenerSteps`), or saying that each
of many does so in every interleaving (`DiscoverySystem.RoundSeenAlone`).

External calls appear only through what they may answer. The broker's Join succeeds only if no handle of that full name
is open; Join, Subscribe and Close may fail at any time; a closed handle refuses to subscribe and closes again without
effect. The registry and the bootstrap function may fail or return any list, and the registry's list may change at any
time. Connect, message contents, the handler's return or panic, and the choice Go's select makes among ready cases are
arbitrary. Sleeps and tickers are steps that may happen at any time, so nothing is said about durations.

## What holds, and what does not

**Readiness and retry.** The goroutines that may start a retry loop are as many as the falling edges and the first
bootstrap's request, and at most that many loops are ever registered (`EdgeConservation`). Once no notification is in
flight, isReady agrees with the peers exactly if the last count stored and the last count taken agree (`QuietReadiness`);
so it does if counts are stored in the order in which they are taken (`OrderedReadiness`), as counting inside the mutex
would ensure. The code counts outside it, and isReady can stay wrong (`ReadinessCanGoStale`). ARCHITECTURE.md says that
losing all peers triggers a bootstrap retry. In the code a node that is not ready can be left without any:
`RecoveryCoverage` lists every way for that to be, `IdleExactly` and `BecomesIdleExactly` give the exact conditions on the
state and on the step, and `IdleAfterStaleReadyObservation`, `IdleAfterNilBootstrap` and `IdleAfterFirstFetchError` are
runs in which it happens; an idle node stays so until it has been ready and lost its peers again
(`IdleUntilNextFall`). There is at most one retry loop, and retryCancel tells whether there is one, in every state of a
run exactly if no stopBootstrapRetry of that run finds a registration (`OneLoopIffNothingStolen`); after one has, the
deferred clear of one loop can remove the registration of another (`ClearMayRemoveForeignRegistration`), exactly if that
one registered later (`ForeignExactly`). After shutdown, registrations, refusals and loop exits use up a measure exactly,
so late loops are at most as many as the goroutines that were past the shutdown check (`ShutdownQuiescence`); a late loop
is possible exactly if there is such a goroutine (`LateLoopExactly`, `LateLoop`).

**Topics and subscriptions.** Every open broker handle has one owner, so Publish's store after its lock upgrade never
overwrites another handle; by the time it sends, the handle is still in topics exactly if nobody has removed the topic
since (`SendsOnStoredHandleExactly`, `LateSend`). After Disconnect has emptied topics, a call that was under way can still fill it
(`LateStore`), exactly under the condition of `StoreToComeExactly`. Listeners and subscription entries match one to one
exactly if no entry was overwritten, which takes a nil handler (`OverwritesExactly`, `NilHandlerIsOverwritten`). A
subscription is closed only after its listener's context is cancelled, and a cancelled listener starts at most one more
handler call. After a failed Subscribe a topic can be stuck: topics keeps its closed handle, and every later Subscribe to it
fails until a Disconnect (`TopicGetsStuck`, `GetsStuckExactly`, `StuckForTheRun`). After a Close that failed, the handle can
stay open out of everybody's reach, and its name can never be joined again (`HandleLeaks`, `LeaksExactly`,
`LeakedForGood`). These are the only two ways in which a topic can no longer be subscribed to (`SubscribableExactly`). Some call can always go on. The documentation says that database names keep networks apart;
`SeparateExactly` says for which names the topics do stay apart, and `DatabasesCanShareATopic` shows two for which they do
not.

**Authorization cache.** With a constant registry the cache cannot be told from the registry, whatever is half done. When
the registry drops a wallet, it is refused from then on exactly if nothing of it is left in the cache or in flight
(`RefusedForGoodIffClean`), and a refresh that fetches after the drop gets there once the older checks have finished
(`BoundedStaleness`); without that condition a slow check can bring the wallet back (`SlowCheckBringsWalletBack`).

**Discovery.** However rounds overlap and connections change, each round dials exactly what processPeers dials for its
list with the changes that it noticed, and all rounds together connect at most five times each (`RoundSeenAlone`,
`RoundsAreBounded`). A round joins a peer twice only if it loses it in between (`JoinedPeersAreDistinct`,
`RejoinedExactly`).

## Model

| member | source | states |
|---|---|---|
| Contexts.CancelReachesDescendants | pubsub/infrastructure.go:399-401 | cancelling a context makes exactly it and its descendants done |
| Contexts.FreshChild | pubsub/infrastructure.go:399-401 | a new child context is done from the start exactly if its parent is, and no other context changes |
| Infrastructure.P2PInfrastructure.UpdateReadiness | pubsub/infrastructure.go:77-94 | isReady tells whether peers were counted; a starter is spawned exactly on a falling edge; nothing else changes |
| Infrastructure.P2PInfrastructure.RegisterRetry | pubsub/infrastructure.go:391-402 | refused without change exactly if a retry is registered; otherwise registers a new context, done from the start exactly if its parent is |
| Infrastructure.P2PInfrastructure.FinishRetry | pubsub/infrastructure.go:405-411 | the loop's context is done and retryCancel is cleared, whosever it was |
| Infrastructure.P2PInfrastructure.StopBootstrapRetry | pubsub/infrastructure.go:462-471 | what was registered is cancelled, and nothing is registered afterwards |
| Infrastructure.P2PInfrastructure.Shutdown | pubsub/pubsub_operations.go:286-292 | afterwards every context made under the shutdown context is done and nothing is registered |
| RetryInvariant.NextKeepsInv | pubsub/infrastructure.go:76-121 | every step of every goroutine keeps the invariant: own contexts, registered loops are live, live loops are registered until one is stolen, cancels in order, observations age |
| SingleLoop.OneLoopIffNothingStolen | pubsub/infrastructure.go:391-411 | in any run, every state has one registered loop or none, if and only if no stopBootstrapRetry of the run finds a registration |
| SingleLoop.ClearRemovesOwnRegistration | pubsub/infrastructure.go:405-411 | until then each deferred clear removes its own registration and leaves no loop |
| SingleLoop.ForeignExactly | pubsub/infrastructure.go:391-411 | a deferred clear removes a foreign registration if and only if something is registered and a loop has registered after this one |
| SingleLoop.ClearMayRemoveForeignRegistration | pubsub/infrastructure.go:405-411 | a reachable state in which a deferred clear does so |
| Recovery.RecoveryCoverage | pubsub/infrastructure.go:96-121 | every reachable state that is not ready and not shutting down has a starter pending or a loop registered, or its last loop ended after the latest falling edge on a nil bootstrap or an older ready observation, or there was only the initial bootstrap |
| Recovery.IdleExactly | pubsub/infrastructure.go:77-121 | in every reachable state that is not ready and not shutting down, nothing is under way if and only if there was only an initial bootstrap that asked for no retry, or no starter is pending and the last loop ended after the latest edge |
| Recovery.BecomesIdleExactly | pubsub/infrastructure.go:96-121 | the step that leaves a node idle is a loop's deferred clear while the node is not ready, not shutting down and no starter is pending, and no other |
| Recovery.IdleUntilNextFall | pubsub/infrastructure.go:77-121 | once the first bootstrap is over, an idle node registers no loop, and has no starter pending, in any run without a falling edge |
| Recovery.IdleAfterStaleReadyObservation | pubsub/infrastructure.go:98-106 | a starter skips because of a loop that has already decided to end |
| Recovery.IdleAfterNilBootstrap | pubsub/infrastructure.go:280-283 | a loop fetches nodes, the second fetch is empty, and the loop ends on that nil without a peer |
| Recovery.IdleAfterFirstFetchError | pubsub/infrastructure.go:354-357 | an error from the first fetch starts no retry |
| Quiescence.ShutdownQuiescence | pubsub/infrastructure.go:383-425 | after shutdown, twice the goroutines past the check plus the live loops is used up exactly by registrations, refusals and exits; late loops are at most those past the check |
| Quiescence.LoopsAreCancelled | pubsub/infrastructure.go:418-425 | after shutdown every loop, also one registered later, finds its context done |
| Quiescence.QuietForGood | pubsub/infrastructure.go:382-459 | once no loop is live and nobody is past the check, no loop registers and no loop takes a step ever again |
| Quiescence.LateLoopExactly | pubsub/infrastructure.go:383-402 | after the shutdown some run registers a loop if and only if a goroutine is past the shutdown check |
| Quiescence.LateLoop | pubsub/infrastructure.go:101-120 | a reachable state in which a delayed starter has registered a loop after a whole Disconnect |
| Starters.StarterGivesUp | pubsub/infrastructure.go:98-121 | a starter that finds a loop registered, or after its delay the node ready, or the shutdown begun, takes no further step in any later run and registers nothing |
| Starters.StarterInOneGo | pubsub/infrastructure.go:98-121 | every uninterrupted run of a delayed starter registers a loop if and only if none is registered, the node is not ready and the shutdown has not begun |
| Starters.StartersAccounted | pubsub/infrastructure.go:96-121 | over any run, the goroutines requested by falling edges and by the first bootstrap are those pending and those that ended; each registration is one of the ends, and takes one new context |
| ReadinessEdges.EdgeConservation | pubsub/infrastructure.go:77-94 | in any run from the start: falling edges and the first bootstrap's request equal pending and ended starters; every pending one is the goroutine of an edge or Connect's own; loops registered are at most falling edges and one; rising minus falling edges is 1 if and only if the node is ready |
| ReadinessEdges.QuietReadiness | pubsub/infrastructure.go:77-84 | with no notification in flight, isReady agrees with the peers if and only if the last count stored and the last count taken agree on whether there is a peer |
| ReadinessEdges.OrderedReadiness | pubsub/infrastructure.go:77-84 | if counts are stored in the order they were taken, every state with no notification in flight has isReady right, once something has been counted or if there were no peers at the start |
| ReadinessEdges.SerialisedIsInOrder | pubsub/infrastructure.go:242-256 | serialised notifications are in that order |
| ReadinessEdges.CountingUnderTheMutexIsInOrder | pubsub/infrastructure.go:78-81 | so would be notifications that count inside the mutex |
| ReadinessEdges.SerialisedReadiness | pubsub/infrastructure.go:242-256 | with serialised notifications, after each update the node is ready if and only if it has a peer |
| ReadinessEdges.SerialisedFromTheStart | pubsub/infrastructure.go:242-256 | so it is in every run from the start |
| ReadinessEdges.ReadinessCanGoStale | pubsub/infrastructure.go:77-84 | when one notification overtakes another, isReady can stay true with no peers and no notification in flight |
| Bootstrap.BootstrapNetwork | pubsub/infrastructure.go:268-349 | nil if and only if the DHT and the fetch work and the list is empty or some node passes both address parses, the key conversion and Connect; the count is the number of places with such nodes, and the nodes dialed are those that pass the first three, in order |
| Bootstrap.OrderDoesNotMatter | pubsub/infrastructure.go:286-338 | the count is the same for every order of the list |
| Bootstrap.NodesAreIndependent | pubsub/infrastructure.go:287-338 | each node adds to the count by itself |
| Bootstrap.SuccessWithoutAPeer | pubsub/infrastructure.go:280-283 | nil without a reached node happens exactly for the empty list |
| Bootstrap.BootstrapNetworkWithRetry | pubsub/infrastructure.go:352-379 | an error if and only if the first fetch fails; a retry is requested if and only if the first fetch is empty or the attempt fails |
| Bootstrap.RetryLoop | pubsub/infrastructure.go:418-457 | stops at the first wake that is cancelled, ready or connects; its attempts are the earlier not-ready ticks with nodes, plus that one if it connects |
| Bootstrap.StopIsDetermined | pubsub/infrastructure.go:418-457 | where the loop stops is unique and independent of the wakes after it |
| RetryLoopSteps.WakeInOneGo | pubsub/infrastructure.go:418-457 | one wake of a loop goroutine returns exactly if the loop method stops at it, for the same reason |
| RetryLoopSteps.InitialInOneGo | pubsub/infrastructure.go:352-379 | the initial goroutine goes on to start a retry exactly if the method requests one |
| TopicNames.OneNamePerTopic | pubsub/pubsub_operations.go:23 | within a database the full name determines the topic |
| TopicNames.SeparateExactly | pubsub/pubsub_operations.go:201 | two databases share no full topic name if and only if neither name with its underscore begins the other |
| TopicNames.PlainNamesAreSeparate | pubsub/pubsub_operations.go:23 | names without an underscore keep topics apart |
| TopicNames.DatabasesCanShareATopic | pubsub/pubsub_operations.go:23 | two different databases with a common full topic name |
| Topics.DatabaseInstance.Subscribe | pubsub/pubsub_operations.go:18-83 | each error with its condition and what it leaves in the maps; success stores a fresh listener on the topic's open handle |
| Topics.DatabaseInstance.Unsubscribe | pubsub/pubsub_operations.go:157-193 | an error exactly if not subscribed; otherwise listener cancelled, subscription and topic closed, both entries gone, and the name can be joined again unless Close failed |
| Topics.DatabaseInstance.PublishLookup | pubsub/pubsub_operations.go:204-211 | the stored handle, or a newly joined one exactly if the broker allows |
| Topics.DatabaseInstance.PublishStore | pubsub/pubsub_operations.go:214-217 | the handle is stored and the maps stay sound |
| Topics.DatabaseInstance.Disconnect | pubsub/pubsub_operations.go:294-313 | exactly the subscribed listeners are cancelled and closed, exactly the handles in topics are closed, and both maps are empty |
| SerialCalls.SubscribeInOneGo | pubsub/pubsub_operations.go:18-83 | uninterrupted, the steps of Subscribe do what the method does |
| SerialCalls.UnsubscribeInOneGo | pubsub/pubsub_operations.go:157-193 | uninterrupted, the steps of Unsubscribe do what the method does |
| SerialCalls.PublishInOneGo | pubsub/pubsub_operations.go:196-219 | uninterrupted, Publish stores a newly joined handle and changes nothing else, across its lock upgrade |
| CallRuns.PublishPasses | pubsub/pubsub_operations.go:196-238 | in every run a Publish that ended has looked its topic up once, and sent exactly once unless it had to join and the broker refused: on the handle that was in topics, which is still there at the send, or else on a newly joined one |
| CallRuns.DisconnectPasses | pubsub/pubsub_operations.go:282-313 | in every run a Disconnect that ended has cancelled the shutdown context, then stopped retrying under retryMutex, then worked on the maps, and both were empty when it gave back its lock |
| SerialCalls.DisconnectInOneGo | pubsub/pubsub_operations.go:282-313 | uninterrupted, Disconnect's loops over both maps have a run that does what the method does |
| DisconnectOrder.DisconnectWhateverOrder | pubsub/pubsub_operations.go:294-313 | every uninterrupted run of those loops, in whatever order the entries come, ends in the method's store for the handles whose Close failed in that run |
| SerialCalls.OverwritesExactly | pubsub/pubsub_operations.go:26-32 | a step overwrites a subscription entry if and only if it is a Subscribe that succeeds on a topic that has an entry, which then is one without a handler |
| SerialCalls.NilHandlerIsOverwritten | pubsub/pubsub_operations.go:26-72 | a reachable state from which a second Subscribe replaces a live entry |
| LateStores.StoreToComeExactly | pubsub/pubsub_operations.go:196-217 | in a reachable state with topics empty and no new call, some run fills topics if and only if a Publish holds a handle it has not stored, or a Publish or Subscribe has yet to join a name that can be joined |
| LateStores.LateStore | pubsub/pubsub_operations.go:214-217 | a run from the start in which a whole Disconnect empties topics and a Publish in its lock gap then stores its handle |
| LateStores.LateSend | pubsub/pubsub_operations.go:213-234 | a run from the start in which a Publish sends on a handle that is closed and no longer in topics |
| PubSubInvariant.NextKeepsInv | pubsub/pubsub_operations.go:17-343 | every step of every call and listener keeps the invariants on locks, handles, subscriptions and listeners |
| HandleOwnership.EveryOpenHandleIsOwned | pubsub/pubsub_operations.go:196-219 | an open handle is in topics under its key, or held by exactly one Publish in its gap but not both, or its Close failed |
| HandleOwnership.StoreOverwritesNothing | pubsub/pubsub_operations.go:213-217 | the store after the lock upgrade overwrites nothing and stores the one open handle of that full name |
| HandleOwnership.SendsOnStoredHandleExactly | pubsub/pubsub_operations.go:213-234 | when a Publish that stored its handle sends, the handle is still in topics if and only if no Unsubscribe or Disconnect has removed the topic since |
| HandleOwnership.ReadersHoldTopicsStill | pubsub/pubsub_operations.go:197-204 | while a Publish holds its read lock nothing is stored in topics or removed, so a handle it found there stays |
| HandleOwnership.UnsubscribeFreesTheName | pubsub/pubsub_operations.go:178-186 | once Close succeeds in Unsubscribe the name can be joined again |
| HandleOwnership.WhatDisconnectLeavesOpen | pubsub/pubsub_operations.go:305-313 | when Disconnect is through, a handle still open refused to close or is held by one Publish in its gap |
| StuckTopics.StuckForTheRun | pubsub/pubsub_operations.go:38-58 | a closed handle in topics without a subscriber stays there, and no Subscribe to it succeeds, until a Disconnect empties the map |
| StuckTopics.GetsStuckExactly | pubsub/pubsub_operations.go:38-58 | a step leaves a topic so if and only if it is the cleanup of a failed Subscribe whose Close reports no error while nobody was subscribed, or a Disconnect's removal of a subscriber whose handle was closed |
| StuckTopics.FailedSubscribeGetsStuck | pubsub/pubsub_operations.go:52-58 | of cleanup steps, exactly those whose Close reports no error while nobody was subscribed |
| StuckTopics.TopicGetsStuck | pubsub/pubsub_operations.go:46-58 | a reachable state with no call under way and a stuck topic |
| StuckTopics.LeaksExactly | pubsub/pubsub_operations.go:177-186 | a step leaks an open handle if and only if Unsubscribe or Disconnect takes it out of topics without its having been closed |
| StuckTopics.LeakedForGood | pubsub/pubsub_operations.go:177-186 | in every later run a leaked handle stays open and out of reach, and its name cannot be joined |
| StuckTopics.HandleLeaks | pubsub/pubsub_operations.go:177-186 | a reachable state with no call under way and a leaked handle |
| StuckTopics.SubscribableExactly | pubsub/pubsub_operations.go:18-193 | with no call under way, calls other than Disconnect can lead to a new subscription to a topic if and only if it is not stuck and no handle of its name has leaked |
| ListenerLife.ListenersMatchSubscriptions | pubsub/pubsub_operations.go:26-75 | with no writer at work, uncancelled listeners are the subscribed ones and the overwritten ones; subscribed keys are in topics with the same handle; the match is one to one if and only if none was overwritten |
| ListenerLife.RealHandlersKeepListenersMatched | pubsub/pubsub_operations.go:26-75 | in any run with non-nil handlers, listeners and subscription entries match one to one |
| ListenerLife.AtMostOneLateCall | pubsub/pubsub_operations.go:95-151 | after its cancel a listener starts at most one handler call, and none if it was neither in Next nor handling a message |
| ListenerLife.ClosedSubscriptionsEndTheirListener | pubsub/pubsub_operations.go:104-113 | an error from a subscription closed by Unsubscribe or Disconnect always ends the listener |
| ListenerLife.CancelledListenersReturn | pubsub/pubsub_operations.go:95-153 | in any run a cancelled listener takes at most four more steps of its own, and as many fewer as it is further on |
| Deadlock.LocksBelongToCalls | pubsub/pubsub_operations.go:196-219 | locks are held by calls under way only, and a Publish past its lock upgrade holds its read lock again |
| Deadlock.OnlyNestedAcquisition | pubsub/pubsub_operations.go:283-292 | a call waits for a lock while holding one only in Disconnect: instance.mutex, then retryMutex |
| Deadlock.NoDeadlock | pubsub/pubsub_operations.go:197-219 | in every reachable state with calls under way some call can go on, even if waiting writers block new readers |
| Listener.MessageListener | pubsub/pubsub_operations.go:86-154 | the handler gets exactly the accepted messages in order, up to and including the pass at which the listener returns; for one pass, nothing if it is from this node, does not parse or has no ID, and otherwise one event with its fields and its sender filled in |
| ListenerSteps.ListensInOneGo | pubsub/pubsub_operations.go:95-153 | over any stream the listener's steps call the handler as often as the method delivers, and return where the method does |
| Listener.DeliveriesConcat | pubsub/pubsub_operations.go:95-151 | what a stream delivers is what its parts deliver |
| Listener.SkippedMessagesLeaveNoTrace | pubsub/pubsub_operations.go:116-137 | removing a message that is not accepted changes nothing |
| Listener.DeliveredEvents | pubsub/pubsub_operations.go:116-151 | an event is delivered if and only if an accepted message carries it, stamped with its sender; it has an ID and a sender |
| Gater.SolanaRegistryGater.RefreshCache | common/gater.go:75-97 | a failed refresh leaves the cache, a successful one makes it the list fetched |
| Gater.SolanaRegistryGater.CheckWalletInCache | common/gater.go:202-241 | the verdict for cache hit, failed fetch and fetched list; only an accepted wallet is added; the registry is asked exactly on a miss |
| Gater.SolanaRegistryGater.IsAuthorizedPeer | common/gater.go:177-199 | a peer without a wallet is an error, otherwise the wallet's verdict |
| Gater.SolanaRegistryGater.InterceptPeerDial | common/gater.go:107-128 | allowed if and only if the peer has a wallet that is cached, or is on the list fetched; errors block |
| Gater.SolanaRegistryGater.InterceptSecured | common/gater.go:144-168 | allowed if and only if the peer has a wallet that is cached, or is on the list fetched; errors block |
| Gater.SolanaRegistryGater.ClearCache | common/gater.go:244-250 | the cache is empty |
| GaterSystem.RefreshInOneGo | common/gater.go:75-97 | uninterrupted, the refresher's steps make the cache the registry's list, and change nothing if the fetch fails |
| GaterSystem.RefreshCompletes | common/gater.go:86-93 | when a refresh gives back its lock, all that it fetched is in the cache, whatever happened in between |
| GaterSystem.ClearThenCheck | common/gater.go:244-250 | after ClearCache a check answers what the registry says, whatever was cached |
| GaterSystem.CheckInOneGo | common/gater.go:202-241 | uninterrupted, the steps of a check give the method's verdict and cache |
| GaterSystem.CacheIsTransparent | common/gater.go:202-241 | with a constant registry every answer is registry membership, whatever refreshes, clears and checks interleave; the errors are, in order, those of the checks whose own fetch failed |
| GaterSystem.TransparentFromTheStart | common/gater.go:202-241 | so it is in every run from an empty cache |
| GaterSystem.AnswersAreExplained | common/gater.go:177-241 | with a changing registry every accepted and every cached wallet was in some list the registry returned |
| GaterSystem.ExplainedFromTheStart | common/gater.go:177-241 | so it is in every run from an empty cache |
| GaterSystem.VerdictOfAMiss | common/gater.go:214-240 | a check that goes to the registry answers membership at the moment of its fetch, so a refusal is absence from the list it fetched |
| GaterSystem.RefusedForGoodIffClean | common/gater.go:202-233 | a dropped wallet is never accepted again before it is listed, if and only if nothing of it is cached or in flight |
| GaterSystem.BoundedStaleness | common/gater.go:75-93 | a refresh that fetched after the drop and clears when older checks have finished ends acceptance for good |
| GaterSystem.SlowCheckBringsWalletBack | common/gater.go:214-230 | without the condition on checks, a dropped wallet can come back after such a refresh |
| Discovery.Host.ProcessPeers | pubsub/discovery.go:112-148 | dials exactly the eligible entries of the shortest prefix with five connections, or of the whole list; the connections made are those of them that answer |
| Discovery.RoundLengthUnique | pubsub/discovery.go:144-147 | what a round finds determines how far it goes |
| Discovery.JoinedPeersAreDistinct | pubsub/discovery.go:121-124 | any two of a round's connections are to different peers, or the first was lost in between |
| Discovery.RejoinedExactly | pubsub/discovery.go:121-135 | a peer joined is joined again at a later entry if and only if it answers there and the connection was lost and not regained by others |
| Discovery.LostPeerIsJoinedAgain | pubsub/discovery.go:121-135 | a list in which that happens |
| DiscoverySystem.RoundSeenAlone | pubsub/discovery.go:77-148 | in every interleaving of any rounds and of changes by others, a round dials and joins exactly what processPeers does for its list with the changes it noticed, and a finished one has gone through the shortest prefix with five connections or the whole list |
| DiscoverySystem.DialsAreEligible | pubsub/discovery.go:117-128 | in every run, a peer dialed is not this node and was not connected when the round looked |
| DiscoverySystem.RoundsAreBounded | pubsub/discovery.go:77-148 | in every run each round connects at most five times, and all together at most five times the rounds started |

## Left out

- RetryInvariant.NextKeepsInv: Disconnect's hold on instance.mutex is not part of the retry system, so that it allows more interleavings of several Disconnect calls than the code; a Disconnect begins only once Connect has returned.
- FinishRetry: cancel and clear are one method here; the step system has them as two steps.
- CancelledListenersReturn: says nothing about when Next or a handler comes back.
- ListensInOneGo: a pass is uninterrupted, except that the caller's context may end in it; what an event says is followed in the method only.
- AtMostOneLateCall: counts calls of the handler; what a handler does with the database is a new call in the model, not nested in the listener.
- Weak-memory effects of replacing a sync.Map while lookups run without the lock: clearing, loading and storing are atomic steps.
- Wall-clock times: sleeps, tickers, timeouts and their lengths.
- libp2p itself: GossipSub, DHT, connection manager, transports, message signing.
- Key and address formats: a peer is given by the wallet its ID yields, if any; a bootstrap node by which of its addresses and keys parse.
- JSON and UUIDs: a message is given by what parsing makes of it; the event Publish builds and the outcome of sending it are not modelled.
- TopicSubscription objects: kept as values in a map from listener numbers, so that aliasing of pointers is not captured.
- Host construction, configuration checks, port defaults, loggers, key generation, example programs.
- advertiseLoop, ConnectedPeers, GetConnectedPeers and DHT statistics: input and output only.
- Stopping discovery or the gater on Disconnect: the code does not do it.
