# ts-actors: a verified model

This project models the three state machines of ts-actors and proves what holds over all their runs:

1. **The supervised actor tree.** Names, parents, child lists, references and the registry store one
   hierarchy several times over. `ActorTree.dfy` has the classes and, as the value `Store`, everything
   they hold; every method is proved to change that value by one atomic step, the code between two
   awaits. `WiredTree.dfy` says what every interleaving of those steps keeps, `TidyTree.dfy` when the
   copies agree. `RestartStart.dfy` is the synchronous start of a restart, dead entries and generated
   names included; `RestartRuns.dfy` any order of the REGISTER and REWIRE steps that follow, and
   `CleanRestarts.dfy` says exactly when all orders end in the old tree. `Restarts.dfy` and
   `RestartOrder.dfy` treat that case in detail, `RenamedRestarts.dfy` restarts that rename, `Overlaps.dfy`
   restarts of one actor that overlap, `Shutdowns.dfy` and `ShutdownProgress.dfy` overlapping shutdowns in
   any order, `DeadEntries.dfy` the entry that a shutdown may leave behind, and `Lifecycle.dfy` whole runs
   of creations, any number of them in flight, look-ups, restarts and shutdowns.
2. **The inbox.** `Inbox.dfy` has the routing of a message, the race of an ask's timer with its
   receiver, and supervision; `Deliveries.dfy` has runs in which messages, timers and receivers
   interleave with the steps of the tree, and `SystemShutdown.dfy` the shutdown of the whole system.
3. **The websocket protocol.** `WebSocketClient.dfy` is one client, `ClientRuns.dfy` its runs,
   `Promises.dfy` what becomes of each promise, `Deadlines.dfy` the same against the clock,
   `WebSocketMessageProxy.dfy` the proxy, `Routing.dfy` addresses, `DistributedActorSystem.dfy` the
   decision between local and remote, `Network.dfy` any number of systems around the proxy,
   `Transmissions.dfy` what they put on the wire, and `Conservation.dfy` the balance of questions, calls
   and answers on the network. On the network a frame that was put on a socket may be taken off any
   number of times, at any later time, or never: that is loss, duplication and reordering at once.

Objects are classes whose methods change their fields, and each method is proved against a step
function on values; the theorems are about all sequences of those steps.

## Results where the code falls short of its intent

- A question's own acknowledgement deletes its pending payload (`src/WebSocketClient.ts:202`), and the
  sweep reads a field of that payload. `Promises.RejectedIffReached` says exactly when an unanswered
  question is rejected: some sweep after its deadline lists no void answer, and neither the question nor
  one listed before it has been acknowledged. So a question that reached its target and gets no answer
  hangs for ever and keeps those behind it hanging (`ClientRuns.AckedQuestionHangs`, and a run in
  `Deadlines.QuestionHangs`).
- A missing acknowledgement is reported, but the promise of the send or answer is then never settled,
  whatever arrives later (`Promises.ReportedIsNeverSettled`); it is settled if and only if an
  acknowledgement is heard before the report (`Promises.SettledIffAckedUnreported`).
- An answer to a question does not free the question's payload (`src/WebSocketClient.ts:210` deletes
  under the answer's id): it is pending until the question is acknowledged or reported, and for ever if
  neither happens (last but one clause of `ClientRuns.SettledAtMostOnce`).
- An answer that carries undefined or null has no payload to read either. Once its deadline has passed
  without an acknowledgement, each sweep stops at it, and losses listed behind it are not reported
  (`Deadlines.VoidAnswerHidesLoss`). The deadline bound holds for a message if and only if the first sweep
  after its deadline lists no such answer up to it (`Deadlines.ReportedInTime`).
- The look at the registry when a creation begins does not protect its end. A creation finishes in a tidy
  tree if and only if its name is then still free and its parent still up (`Lifecycle.FinishIsTidyIff`).
- After a restart the parent lists another reference than the actor's own, and `removeChild` compares
  references. `DeadEntries.UnlistedIffOwn` says exactly when a shutdown takes the entry off the list;
  after a restart it does not. `restart` calls the entries without asking whether they are down, so the
  next restart of the parent creates the shut-down child again and, whatever the order of the steps,
  registers it (`DeadEntries.DeadChildIsRevived`).
- An actor that was not named explicitly comes back under another name and stays registered under the old
  one (`RenamedRestarts.RenamedRestartIsUntidy`), and its parent lists it twice
  (`RenamedRestarts.RenamedLists`). These two are all there is: a restart ends in the old tree,
  whatever the order of its steps, if and only if everybody it reaches through the entries is up and was
  named explicitly (`CleanRestarts.RestartIsCleanIff`).
- Two calls of `restart` on one actor that overlap may leave the registered instance with a reference that
  leads to the other one. For an explicitly named actor without children, and any number of calls, the tree
  is tidy again if and only if the instance that registered last also rewired last
  (`Overlaps.OverlapIsTidyIff`).
- A message sent under the name of an actor that came back under another one arrives under the new name
  (`Deliveries.RenamedSenderIsSeen`). In any run the sender's name is right if and only if nobody of another
  name has taken over the reference of the instance registered last under it (`Deliveries.EachMessageOnce`).
- The target of a qualified address is computed correctly exactly for system names without '/' and '.'
  (`Routing.RoutingRoundTrip`).

## What is taken for granted

- Message ids and generated names are fresh, and those of one type all have one length; client ids are
  unique; a client announces only its own id. Only the system actor has no parent, and it is not restarted.
- Lifecycle hooks succeed and are suspension points; constructors of actors do nothing to the tree.
- Local actor names have no '/': otherwise the name of a child does not determine its parent's.
- For the tidiness of the tree: creations in flight have different names and finish only under a parent
  that is still up; no step of a creation falls into a restart or a shutdown, though creations may be in
  flight while they run; restarts of actors with children and shutdowns do not overlap. What
  `Deliveries.dfy` says of the registry, the references and the inbox needs none of this: there the steps
  of creations, restarts and shutdowns interleave freely, restarts that rename and restarts of one actor
  that overlap included.
- Sweeps come on time in `Deadlines.dfy`, every 5000 ms. Handlers passed by the user return normally.
- The iteration order of a JavaScript map is left open: every order is allowed.

## Model

| member | source | states |
|---|---|---|
| `ActorTree.Actor.constructor` | src/Actor.ts:29-31 | a new actor is up, childless, has its class's strategy, and is known by a reference of its own |
| `ActorTree.Actor.AppendChild` | src/Actor.ts:91-93 | the actor's own reference is appended to this one list; all other lists stay |
| `ActorTree.Actor.RemoveChild` | src/Actor.ts:165-167 | exactly the entries that are this very reference leave this one list, in order |
| `ActorTree.Actor.UpdateChildren` | src/Actor.ts:174-184 | terminates on every hierarchy in which names grow downwards, whatever name the new child has, and equals the recursive tree function, children one after the other |
| `ActorTree.UpdateIsTraverse` | src/Actor.ts:174-184 | whatever the new child is called and however often an actor is come by, that function collapses the entries of the old name in exactly the actors reached without descending into such entries, all at once, and changes nothing else |
| `ActorTree.CollapseNamed` | src/Actor.ts:175-180 | in a collapsed list the entries of the old name are one new entry if there were any, the entries of every other name are as before, in order |
| `ActorTree.CollapseTwice` | src/Actor.ts:175-180 | replacing an old child again by the same new one, whatever that is called, changes nothing, so visiting an actor twice is harmless |
| `ActorTree.RewireTreeLists` | src/Actor.ts:76-80 | every list after a restart of any kind: the old instance's is empty, those on the traversal have one entry of the fresh reference for those of the old name, all others are as they were |
| `ActorTree.FreshTakesChildren` | src/Actor.ts:77-80 | whatever the fresh instance is called, it has exactly the old one's children, and the old one none |
| `ActorTree.FinishLists` | src/Actor.ts:156-167 | at the end of a shutdown, in any state, the parent's current instance loses exactly the actor's own reference, and no other list changes |
| `ActorTree.ActorSystem.constructor` | src/ActorSystem.ts:64-72 | a new system is the system actor alone, with an empty registry |
| `ActorTree.ActorSystem.BeginCreate` | src/ActorSystem.ts:86-106 | rejected exactly if the name is taken and may not be overwritten, and then nothing changes; else there is a fresh instance under the parent's name that the tree does not know yet |
| `ActorTree.ActorSystem.FinishCreate` | src/ActorSystem.ts:107-120 | the registry entry, the entry in the list of the parent's current instance and the strategy among the options, nothing else |
| `ActorTree.ActorSystem.FinishRestart` | src/Actor.ts:76-80 | the fresh instance takes over the reference and the children, every list on the way gets the fresh entry, the old instance loses its children; also when it has another name, or when somebody else has taken over the reference before |
| `ActorTree.ActorSystem.GetActorRef` | src/ActorSystem.ts:128-142 | the system actor's reference, the registered actor's own reference, or not found |
| `TidyTree.LookupFindsLive` | src/ActorSystem.ts:128-142 | in a tidy tree exactly the system actor and the live actors are found, each by its own reference, which leads to it |
| `ActorTree.ActorSystem.Remove` | src/ActorSystem.ts:185-187 | exactly the entry under the name behind the reference is deleted |
| `ActorTree.ActorSystem.FinishShutdown` | src/Actor.ts:154-157 | the actor is marked, dropped from the list of its parent's current instance and from the registry |
| `ActorTree.RewireClosed` | src/Actor.ts:76-80 | rewiring under the old name keeps every reference known and every name under its parent's |
| `WiredTree.RewireTreeWired` | src/Actor.ts:76-80 | rewiring of any kind, renaming or overlapping with another one, leaves no dangling reference, names that grow down the lists and the system actor's reference in place |
| `WiredTree.FinishWired` | src/Actor.ts:154-157 | so does the end of a shutdown, at any point of those restarts |
| `ActorTree.FinishClosed` | src/Actor.ts:154-157 | the end of a shutdown keeps every reference known and every name under its parent's, and is always possible |
| `TidyTree.LiveUnique` | src/ActorSystem.ts:95-107 | two live actors with one name are one actor |
| `TidyTree.ReachedIsRegistered` | src/ActorSystem.ts:107-112 | what live entries lead to from the system actor is registered under its own name |
| `RestartStart.BeginRestart` | src/Actor.ts:65-75 | the synchronous start of a restart makes exactly one fresh instance per actor reached through the entries, shut down or not, children before their parent, each of the name and under the parent that its options give, and leaves the tree as it was |
| `RestartStart.RecreateActor` | src/Actor.ts:71-75 | re-creating an actor, up or down, from its own options: never rejected, same class, options and parent, the explicit name or a generated one, beside everything started before |
| `RestartStart.CreatedFits` | src/ActorSystem.ts:93-105 | a creation keeps the facts that names and parents are those the options say |
| `RestartStart.ParentsStay` | src/Actor.ts:76-80 | a restart leaves everybody's parent the one that their options lead to |
| `RestartStart.NamesStay` | src/Actor.ts:76-80 | a restart that keeps the name keeps every other name what the options say |
| `RenamedRestarts.RenamedRestartIsUntidy` | src/Actor.ts:71-80 | an actor that comes back under another name stays registered under the old one, with a reference that leads to the new instance |
| `RenamedRestarts.RenamedLists` | src/Actor.ts:77-80 | in a tidy tree, such a restart leaves the parent's list without entries of the old name, the others in order and the fresh one twice at the end; the fresh instance has the old one's children; every other live list is as it was |
| `RestartRuns.AnyOrderCompletes` | src/Actor.ts:65-85 | whatever restarts have been started, dead, unnamed and repeated ones included, every legal order of the steps can be carried out to its end |
| `RestartRuns.CreateReturns` | src/ActorSystem.ts:106-120 | on the heap, the end of a creation is the REGISTER step of the schedule |
| `RestartRuns.RestartReturns` | src/Actor.ts:76-80 | on the heap, the rest of `restart` is the REWIRE step of the schedule |
| `RestartRuns.RegistryGrows` | src/ActorSystem.ts:107 | the names registered at the end of any order are those registered before and those of the fresh instances that registered; under each is the old actor or a fresh instance |
| `CleanRestarts.ReachesLiveOnce` | src/Actor.ts:70 | if everybody reached is up, a restart reaches each live actor of the subtree once and nobody else |
| `CleanRestarts.OrderIsDepthFirst` | src/Actor.ts:70-75 | then whoever is re-created earlier is below the other, or its branch is listed before the other's where they part |
| `CleanRestarts.CleanIfUpAndNamed` | src/Actor.ts:65-85 | then, if all were named explicitly, every order ends in a tidy tree of the old shape with everybody replaced by the one fresh instance |
| `CleanRestarts.UncleanIfNot` | src/Actor.ts:70-75 | else there is an order at whose end somebody is registered who should not be |
| `CleanRestarts.RestartIsCleanIff` | src/Actor.ts:65-85 | a restart ends in the old tree whatever the order of its steps if and only if everybody reached through the entries is up and was named explicitly |
| `Overlaps.OverlapIsTidyIff` | src/Actor.ts:65-85 | any number of overlapping restarts of an explicitly named actor without children end in a tidy tree if and only if the instance that registered last also rewired last |
| `Restarts.RegisterMid` | src/ActorSystem.ts:107-112 | a REGISTER at any point of a subtree restart keeps the invariant that says what every list, reference and registry entry holds |
| `Restarts.RewireMid` | src/Actor.ts:76-80 | so does a REWIRE at any point after the actor's own REGISTER |
| `Restarts.AnyInterleavingCompletes` | src/Actor.ts:65-85 | no order of the steps of a started restart gets stuck |
| `Restarts.AnyInterleavingRestarts` | src/Actor.ts:65-85 | every order ends in the same names and parents, each restarted actor replaced by its one fresh instance, which the registry, the original reference and the one entry in the parent's list all lead to |
| `RestartOrder.FinalOrder` | src/Actor.ts:76-80 | the exact child lists at the end: the entries of actors that were not restarted where they were, then the fresh ones in the order of their REWIRE steps |
| `RestartOrder.InterleavingsAgree` | src/Actor.ts:65-85 | two orders end in the same registry and references and in lists with the same entries, and in the same list if and only if they rewire the children of that actor in the same order |
| `DeadEntries.UnlistedIffOwn` | src/Actor.ts:154-167 | a shutdown takes an actor off its parent's list if and only if the parent lists the actor's own reference |
| `DeadEntries.RestartedThenShutDown` | src/Actor.ts:76-80 | a restarted actor that is shut down stays on its parent's list |
| `DeadEntries.DeadChildIsRevived` | src/Actor.ts:70-75 | after the shutdown of a restarted actor, a restart of its parent reaches it, and at the end of every order its name is registered again, for a fresh instance that is up |
| `Shutdowns.StepKeeps` | src/Actor.ts:140-159 | every step of every overlapping shutdown keeps the invariant: who waits for whom, and which entries and registrations are gone |
| `Shutdowns.MarkReady` | src/Actor.ts:146-154 | when the calls a shutdown waits for have settled, every actor on its list is down |
| `Shutdowns.ShutdownIsLeavesFirst` | src/Actor.ts:140-167 | at every moment of every interleaving an actor that is down has only descendants that are down and unregistered; only actors asked, directly or through an ancestor, go down; the registry is the old one without those that are down; nobody else's list changes but the parents' of those called; the rest is a tidy tree |
| `Shutdowns.ShutdownCompletes` | src/Actor.ts:140-159 | when a call returns, the whole subtree is down and unregistered |
| `ShutdownProgress.EveryShutdownCanReturn` | src/Actor.ts:140-159 | from every reachable state all calls can be driven to their return without any further call |
| `Shutdowns.SystemShutdownEmpties` | src/ActorSystem.ts:174-187 | after the system actor's shutdown the registry is empty and every actor is down |
| `SystemShutdown.NothingIsLeft` | src/ActorSystem.ts:174-187 | once the shutdown has stopped the inbox, and ever after, the registry is empty, every actor that was up is down, nothing more is scheduled, and nothing is delivered whenever it was sent or scheduled |
| `Lifecycle.FinishIsTidyIff` | src/ActorSystem.ts:95-112 | a creation finishes in a tidy tree if and only if its name is still free and its parent still up |
| `Lifecycle.RegistryMatchesTree` | src/ActorSystem.ts:86-142 | in any run, whatever creations are in flight, the registry is exactly the map from name to live actor reached from the system actor through live entries |
| `Lifecycle.HandedRefsAreCurrent` | src/ActorSystem.ts:120-142 | every reference ever handed out leads to an actor of the name it was handed out for: the newest instance, unless that was shut down |
| `Inbox.Delivery.OnTimer` | src/ActorSystem.ts:251-264 | the callback is called with the timeout error and the delivery remembers it |
| `Inbox.Delivery.OnReturn` | src/ActorSystem.ts:274-281 | a pending timer is cleared; the callback is called with the value unless the timer was first |
| `Inbox.Delivery.OnThrow` | src/ActorSystem.ts:282-287 | an exception neither calls the callback nor clears the timer |
| `Inbox.HandleInboxMessage` | src/ActorSystem.ts:226-273 | who receives which body, marked how, under which sender name, with which timer |
| `Inbox.Supervise` | src/ActorSystem.ts:282-302 | which actor is restarted or shut down after an exception: the one registered under the address, by its own strategy, never the system actor |
| `Inbox.ReceiverIsNewest` | src/ActorSystem.ts:228-246 | in every state without dangling references, mid-restart included, the registered instance receives the body unchanged, and without one the system actor does |
| `Inbox.ReceiverMidRestart` | src/ActorSystem.ts:228-246 | while a restart goes on, the receiver is the fresh instance from its REGISTER on and the old one before |
| `Deliveries.TreeIsHistory` | src/ActorSystem.ts:107-112 | in any interleaving of creations, restarts and shutdowns, renaming and overlapping ones included, the registry, each actor's own reference, whom each reference leads to and who is down are functions of the steps so far |
| `Deliveries.EachMessageOnce` | src/ActorSystem.ts:226-288 | in any such interleaving each accepted message has exactly one delivery, in order: that message, to the instance registered last under the address if that is up, or else to the system actor, marked as for nobody or as for an actor that is down, as the history says; under the name of whoever holds the sender's reference by then, which is the sender's if and only if nobody of another name has taken it over; there is no other delivery |
| `Deliveries.SenderIsFrom` | src/ActorSystem.ts:267-272 | while restarts keep names, every message of the run comes under its sender's name |
| `Deliveries.RenamedSenderIsSeen` | src/ActorSystem.ts:267-272 | a run in which a message sent under the old name of a restarted actor arrives under the new one |
| `Deliveries.AskCallback` | src/ActorSystem.ts:247-281 | a callback is called at most once, and once exactly when its timer is no longer pending, with the returned value or the timeout error |
| `Deliveries.RaceIsHistory` | src/ActorSystem.ts:247-287 | the callback has been called with the timeout error if the timer fired first, with the very value returned if that came first, and not at all if neither came |
| `Deliveries.ScheduleIsHistory` | src/Actor.ts:124-131 | what waits in the schedule is what actors sent before the inbox was stopped, in order, each until its zero-delay timer fires |
| `SocketClient.WebsocketClient.Send` | src/WebSocketClient.ts:261-269 | opens an acknowledgement with its deadline, keeps the payload, transmits |
| `SocketClient.WebsocketClient.AnswerQuestion` | src/WebSocketClient.ts:272-283 | the same for an answer to a question |
| `SocketClient.WebsocketClient.Ask` | src/WebSocketClient.ts:286-295 | opens a question with its deadline, keeps the payload, transmits; no acknowledgement is awaited |
| `SocketClient.WebsocketClient.OnMessage` | src/WebSocketClient.ts:185-217 | what a message, an acknowledgement and an answer settle, delete, deliver and send back, in order |
| `SocketClient.WebsocketClient.ExpiredKeys` | src/WebSocketClient.ts:132-138 | lists each entry whose deadline is before `t`, and no other, once |
| `SocketClient.WebsocketClient.HandleTimeouts` | src/WebSocketClient.ts:130-169 | the two loops equal the two-phase sweep over the expired entries, exception included |
| `ClientRuns.AnySweep` | src/WebSocketClient.ts:130-169 | whatever a sweep gives up, also when it is cut short, it deletes, reports once and, if a question, rejects once; it changes nothing else |
| `ClientRuns.SweepReaches` | src/WebSocketClient.ts:139-168 | how far a sweep gets: an expired acknowledgement is given up if and only if its payload and those before it can be read, a question if and only if in addition all acknowledgements' can |
| `ClientRuns.SweepIsFilter` | src/WebSocketClient.ts:130-169 | the sweep is a filter by deadline if and only if every expired payload can be read; each entry removed is reported once, each question among them rejected once |
| `ClientRuns.StepKeeps` | src/WebSocketClient.ts:130-295 | every operation keeps the client's books, whatever packets arrive |
| `ClientRuns.SettledAtMostOnce` | src/WebSocketClient.ts:130-212 | over any run: no promise settled twice, no message reported twice, reports carry their own message, every open acknowledgement is pending, an open question is pending exactly until its own acknowledgement is heard, and any message, with its own payload or outcome, exactly until it is acknowledged or reported |
| `ClientRuns.SweepThrowsExactly` | src/WebSocketClient.ts:139-168 | a sweep is cut short if and only if an expired answer carried nothing or an expired question was acknowledged |
| `ClientRuns.AckedQuestionHangs` | src/WebSocketClient.ts:158-168 | an acknowledged question without an answer is never rejected, and stops each sweep after its deadline |
| `Promises.LostIffReached` | src/WebSocketClient.ts:139-150 | over any run an unacknowledged send or answer is reported if and only if some sweep after its deadline lists no void answer up to it, and is open otherwise |
| `Promises.SettledIffAckedUnreported` | src/WebSocketClient.ts:139-204 | over any run a send or answer is settled if and only if an acknowledgement was heard before any sweep reported it |
| `Promises.ReportedIsNeverSettled` | src/WebSocketClient.ts:139-204 | once reported it is never settled, in any later state |
| `Promises.RejectedIffReached` | src/WebSocketClient.ts:158-168 | over any run an unanswered question is rejected if and only if some sweep after its deadline lists no void answer and neither the question nor one before it was acknowledged; it is open otherwise |
| `Deadlines.ReportedAtFirstDue` | src/WebSocketClient.ts:130-150 | a send is not reported before the first sweep after its deadline, and by that one if and only if no acknowledgement was heard until then and it lists no void answer up to the message |
| `Deadlines.ReportedInTime` | src/WebSocketClient.ts:113-150 | for an unacknowledged send or answer there is a sweep later than its deadline and at most 5000 ms later, which reports it with its own payload, as the only one, if and only if it lists no void answer up to it |
| `Deadlines.AckedInTimeIsNeverReported` | src/WebSocketClient.ts:197-204 | one acknowledged by its deadline is never reported |
| `Deadlines.RejectedInTime` | src/WebSocketClient.ts:113-168 | for an unanswered question there is a sweep later than its deadline and at most 5000 ms later, which rejects it, once, if and only if it gets as far as the question |
| `Deadlines.VoidAnswerHidesLoss` | src/WebSocketClient.ts:142-145 | a run in which a lost send behind an answer that carries nothing stays unreported |
| `Deadlines.QuestionHangs` | src/WebSocketClient.ts:158-168 | a run in which an acknowledged question is neither answered nor rejected |
| `MessageProxy.WebsocketMessageProxy.OnClient` | src/WebSocketMessageProxy.ts:87-91 | the announcing socket stands for the id from now on |
| `MessageProxy.WebsocketMessageProxy.OnMessage` | src/WebSocketMessageProxy.ts:92-101 | forwarded to the socket that announced the target id last, if that one has not been closed since, and to nobody otherwise |
| `MessageProxy.WebsocketMessageProxy.OnClose` | src/WebSocketMessageProxy.ts:56-61 | one entry that holds the closed socket is deleted, if there is any |
| `MessageProxy.SocketsAreHistory` | src/WebSocketMessageProxy.ts:54-91 | while each socket announces one id, the map is a function of the history: the last socket that announced an id, until that very socket closes |
| `MessageProxy.CloseForgetsOne` | src/WebSocketMessageProxy.ts:56-61 | however many ids a socket has announced, its close deletes exactly one of their entries, if there is any, and changes no other |
| `MessageProxy.LateCloseIsHarmless` | src/WebSocketMessageProxy.ts:56-61 | a late close of a superseded socket changes nothing |
| `Routing.RoutingRoundTrip` | src/WebsocketDistributor.ts:102-113 | the target computed from `actors://S/p` is S if and only if S has no '/' and no '.' |
| `Routing.TargetIsFirstPart` | src/WebsocketDistributor.ts:102-113 | for any name the computed target is what comes before its first '/' or '.' |
| `Routing.LocalIffOwn` | src/DistributedActorSystem.ts:71-74 | a system takes the local branch for its own addresses, and one whose name has no '/' exactly for the addresses that have its name up to their first slash |
| `Routing.SingleHop` | src/DistributedActorSystem.ts:68-77 | a message for another system is sent straight to it and is local there; a message for the own system does not leave |
| `Distribution.WebsocketDistributor.Send` | src/WebsocketDistributor.ts:102-104 | a send to the system cut from the channel, with 5000 ms |
| `Distribution.WebsocketDistributor.Ask` | src/WebsocketDistributor.ts:109-114 | a question to the system cut from the channel, with 5000 ms whatever the ask's own timeout |
| `Distribution.WebsocketDistributor.Call` | src/WebsocketDistributor.ts:89-91 | the bound callback answers the question it was bound to, to its origin |
| `Distribution.DistributedActorSystem.RemoteSubscription` | src/DistributedActorSystem.ts:68-102 | left to the local handler, or one question or send on the bus, due in 5000 ms; from then on a question's callback waits for the settlement |
| `Distribution.PostedEffects` | src/DistributedActorSystem.ts:71-93 | a message that asks nothing opens an acknowledgement and no question, a question a question and no acknowledgement, at the system of its address, with its own payload pending; nothing is posted exactly for own addresses |
| `Distribution.RegisteredIsLocal` | src/DistributedActorSystem.ts:71-73 | every registered actor's name is an address of its own system |
| `Distribution.DistributedActorSystem.OnSettled` | src/DistributedActorSystem.ts:80-90 | the calls made of a question's callback are exactly the answers and refusals that the client has settled it with, in order, and no other question's |
| `Distribution.AskRoundTrip` | src/WebsocketDistributor.ts:88-93 | a question goes to the system of its address, is local there, and the answer of the callback bound there goes back to the asker, closes that very question and is what the asker's callback gets |
| `Distribution.RepliesAreSettled` | src/DistributedActorSystem.ts:80-90 | the asker's callback is called no more often than the question is settled, with exactly the answers the client resolved it with, and with a refusal exactly if the client rejected it |
| `Network.StepKeepsNet` | src/WebSocketClient.ts:171-295 | every step of every node and of the proxy keeps the invariant over registrations, frames in flight, messages sent, logs and deliveries |
| `Network.AckSoundness` | src/WebSocketClient.ts:192-204 | a send or answer is resolved only after the client with its target id has processed that very message; sockets registered under an id belong to the client with that id |
| `Network.AskSoundness` | src/WebSocketClient.ts:191-213 | a remote ask resolves with v only if the inbox of the system it was sent to has handled exactly that question and called its callback with v, what the receiver returned or the timeout error, and with nothing else |
| `Network.AskCallbackSoundness` | src/DistributedActorSystem.ts:78-90 | the asker's own callback is called at most once, and with an outcome only if the callback at the target was called with it for exactly this question |
| `Network.DeliveredIsLocal` | src/DistributedActorSystem.ts:68-77 | what a client delivers was sent to it by another one and is for its own actors, so no message crosses the bus twice |
| `Network.NothingSettledTwice` | src/WebSocketClient.ts:130-212 | on the whole network no promise is settled twice and every missing acknowledgement has its message pending |
| `Transmissions.FramesAreTransmitted` | src/WebSocketClient.ts:185-217 | the frames that an event puts on the wire are exactly the packets that the client transmits in it |
| `Transmissions.HeardIsAckedOnce` | src/WebSocketClient.ts:192-213 | over any run, for each message or answer of another client: as many acknowledgements are sent as it was heard, each after it was heard and before it is handed on; no question is rejected before it is reported |
| `Transmissions.NetHeardIsAckedOnce` | src/WebSocketClient.ts:192-213 | the same at every client of the network |
| `Transmissions.QuestionsWereAsked` | src/WebSocketClient.ts:286-295 | on the network, whatever is open as a question, or was answered or rejected as one, was posted to another system by an ask |
| `Transmissions.PlainPostIsNoQuestion` | src/DistributedActorSystem.ts:92-93 | what is posted without asking opens an acknowledgement and is never open as a question, answered or rejected |
| `Conservation.AnswersAreConserved` | src/WebsocketDistributor.ts:88-93 | on the whole network, for each question: its target has sent exactly as many answers as callbacks of its deliveries were called, each at most once, and has not handled it more often than it was delivered, duplicates included |

## Left out

- The error actor and everything sent to it, loggers and the texts of errors.
- `restart` when a hook fails, where it logs and shuts the actor down (src/Actor.ts:81-84).
- What the tree looks like after restarts that overlap with a shutdown, with a creation under them or, of an actor with children, with each other; `Deliveries.dfy` says what holds of the registry, the references and the inbox then.
- Overlaps.OverlapIsTidyIff: actors with children, each of whom every one of the overlapping calls restarts too; those without a name of their own never come back tidily (`RenamedRestarts.RenamedRestartIsUntidy`).
- What `receive` does: it is any event that returns a value, throws or never comes.
- Payloads are opaque but for whether there is one; JSON, error serialisation and the shape that an answer takes when it is turned back into an error (src/DistributedActorSystem.ts:83-88) are not modelled.
- Sockets as such: upgrade, authentication, headers, tokens, keep-alive frames, the retry of a send while the socket is connecting. On the network a retried or dropped send is a delayed or lost frame.
- The proxy's `error` event, which deletes the entry of a different socket (src/WebSocketMessageProxy.ts:70-78), and its countdown on closing.
- Addresses without a system or without a path.
- The NATS distributor, which wraps a library that is not part of this model.
