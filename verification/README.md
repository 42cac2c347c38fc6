# The countermeasure operator's event pipeline, verified

The operator turns alerts into actions: a poller publishes events on an in-memory bus, the bus
delivers them to the consumers subscribed to their topics, and a goroutine for each installed
countermeasure runs its actions unless the event is suppressed. A controller installs and removes
countermeasures while all of this is going on. This project models that pipeline in Dafny and proves
what it promises over every interleaving, every input and every pattern of failures.

`dafny verify dfyconfig.toml` checks everything.

## How the model is organised

| file | what it holds |
|---|---|
| `Texts.dfy` | Go strings as bytes; sorting |
| `Events.dfy` | events and their de-duplication key (sort, FNV-1a, hexadecimal) |
| `Topics.dfy` | hierarchical topics, matching, qualified names |
| `WorkQueues.dfy` | the documented contract of the rate-limiting work queue |
| `BusProtocol.dfy`, `BusSafety.dfy`, `BusOrigins.dfy`, `BusLedger.dfy` | the bus as a state machine of 18 steps; its invariant; where messages come from; conservation and the delivery ledger |
| `EventBus.dfy` | the bus as an object; every method is an execution of protocol steps |
| `Merging.dfy` | the fan-in of consumers |
| `Specs.dfy`, `Admission.dfy`, `Execution.dfy` | the resource, its validation, the registry of builders, the runner |
| `Suppression.dfy`, `ActionState.dfy` | the suppression table, on values and as objects |
| `ManagerProtocol.dfy` | manager, reconciliations and consumer goroutines as one state machine on top of the bus |
| `Lockstep.dfy`, `Goroutines.dfy`, `ConsumerLoop.dfy`, `Removal.dfy`, `Reinstallation.dfy`, `Routing.dfy` | its tables stay in step; steps seen by one goroutine; suppression; what a Remove does to goroutines and their runs; when a key is installed again; which events a countermeasure gets to handle |
| `Reconciliation.dfy`, `Consumption.dfy` | the manager, the reconciler and the goroutine as the source writes them |
| `ManagerRuns.dfy`, `Refinement.dfy`, `Races.dfy` | runs of the state machine; the methods are such runs; runs that end badly |
| `Locking.dfy` | the locks and the order in which every operation takes them |
| `Polling.dfy` | the producer end: alerts to events to topics |
| `Sealing.dfy` | a way to keep a definition folded in proofs that only carry it along |

Two levels are used where the source is concurrent. A *protocol* has one step for each critical
section or interaction with a channel, and its theorems are about every run, that is, every
interleaving. The *objects* have the source's fields, methods and loops. The methods of `EventBus`
record the protocol steps they take in a ghost trace that is proved to be a run, and `Refinement` matches
the methods of the manager and the passes of a goroutine with runs of the manager protocol, so the
theorems about runs apply to the states the methods produce.

Clocks, Kubernetes and Prometheus are parameters: times that never run backwards, what the API server
answers, which attempts fail. `Consumption.SkippedIffInWindow`, for example, holds for every stream of
events and every such answer.

## What turned out not to hold

- A countermeasure removed while its actions run makes the end of the run dereference nil. Over every run,
  the start and the end of a goroutine's run panic if and only if the last that happened to its key since
  the look-up is a Remove (`Removal.PanicsIffRemoved`). `Races.PanicFromStart` gives, for every
  countermeasure and every event, a whole run that panics.
- One goroutine at work for each key: a deleted and recreated resource starts over at generation 1, so the
  same key can be installed again while an older goroutine of it has work left. The older goroutines of a
  key never act on the new installation if and only if, when it is inserted, each of them has returned or
  waits on its closed, empty channel (`Reinstallation.OrderlyIffOlderNeverAct`). That is a condition on the
  state before the insertion; runs that meet it are called orderly (`ConsumerLoop.OrderlyRun`), and
  suppression holds in them. `Races.OverlapFromStart` gives, for every countermeasure and every event, a
  whole run that does not meet it and ends with two goroutines for the key and the running flag down
  during a run.
- Add leaves an orphan goroutine behind if and only if the name is already installed
  (`Reconciliation.AddKeepsConsistentIff`); the Exists check before it is what prevents that.
- A qualified topic name determines its topic and its source if and only if neither the topic nor the
  namespace nor the name of the source contains a colon (`Topics.QualifiedNameDetermines`). Among the
  sources of one topic it determines the source if and only if the source contains no colon
  (`Topics.QualifiedNameExact`), and names of colon-free sources never collide with each other whatever
  the topics (`Topics.QualifiedNameInjective`).
- An alert whose name contains a colon reaches more than the three routes of its topic: they are all if and
  only if the name is colon-free (`Topics.QualifiedAncestorsIff`).
- The event key does not hash label names, although its comment speaks of hashing the event data: renaming
  labels keeps the key whenever the renaming keeps their order (`Events.OrderedRenamingKeepsKey`), and a
  renaming that reorders two labels can change the key (`Events.RenamingCanChangeKey`).
- The shut-down closes channels under the read lock, which workers share; it is safe only because the
  drain waits for them (`BusLedger.DrainContractNeeded`).

## Model

| member | source | states |
|---|---|---|
| `BusSafety.NextKeepsInv` | pkg/eventbus/eventbus.go:56-197 | every step of publishers, subscribers, unsubscribers, workers, consumers and shut-down keeps the bus invariant: channels registered once under one topic, open, bounded; workers and attempts consistent with the work queue |
| `BusSafety.TargetIsOpen` | pkg/eventbus/eventbus.go:164-172 | a channel a worker is about to send on is open |
| `BusLedger.NeverPanics` | pkg/eventbus/eventbus.go:65-121 | in every interleaving no event is sent on a closed channel and no channel is closed twice; registered channels are distinct, open and hold at most 10 events |
| `BusLedger.NoMessageLost` | pkg/eventbus/eventbus.go:87-197 | before shut-down every published message is pending, or an attempt begun after its publication put it on every channel that the table it read has under its topic or an ancestor of it |
| `BusLedger.ExactLedger` | pkg/eventbus/eventbus.go:164-187 | each finished attempt reached a prefix of its match list, all of it exactly when it forgot the message; copies sent on a channel equal the attempts that reached it; sent is received followed by buffered, in order |
| `BusLedger.NothingInvented` | pkg/eventbus/eventbus.go:87-178 | whatever is queued, waiting, processed, attempted or sent was published, and a channel is sent only messages of its topic or of a topic below it |
| `BusLedger.SendOrBlock` | pkg/eventbus/eventbus.go:170-177 | in every reachable state a worker sends, behind what is buffered, to the next channel exactly when it holds fewer than 10 events, and gives up exactly when it holds 10, leaving the message to be retried |
| `BusLedger.SubscribeExact` | pkg/eventbus/eventbus.go:96-105 | subscribing registers an empty, open channel last under its topic and under no other, and changes nothing else |
| `BusLedger.UnsubscribeExact` | pkg/eventbus/eventbus.go:107-121 | unsubscribing closes the channel, removes exactly it and keeps the order of the others; an unknown channel changes nothing |
| `BusLedger.DrainContractNeeded` | pkg/eventbus/eventbus.go:68-79 | in every state that a run reaches while it drains with a worker in its send loop, a drain that returned there would let the closing make the next send panic |
| `BusLedger.EveryRun` | pkg/eventbus/eventbus.go:45-197 | invariant, ledger and conservation hold in every reachable state |
| `WorkQueues.AddValid` | pkg/eventbus/eventbus.go:87-93 | adding and maturing keep the queue's discipline: queued at most once, never while being processed |
| `WorkQueues.GetValid` | pkg/eventbus/eventbus.go:135-140 | the item handed out was not being processed, and now is |
| `WorkQueues.DoneValid` | pkg/eventbus/eventbus.go:150-150 | marking an item done keeps the discipline: whatever is waiting is queued or being processed |
| `WorkQueues.AddOrder` | pkg/eventbus/eventbus.go:87-93 | the queue keeps its order, a new item comes last, and an item being processed is due to be queued again |
| `WorkQueues.DoneOrder` | pkg/eventbus/eventbus.go:150-150 | an item added while it was processed is queued last when it is done |
| `EventBuses.EventBus.constructor` | pkg/eventbus/eventbus.go:45-53 | a new bus is the start of a run |
| `EventBuses.EventBus.Publish` | pkg/eventbus/eventbus.go:87-93 | one Publish step of the protocol, never an error |
| `EventBuses.EventBus.Subscribe` | pkg/eventbus/eventbus.go:96-105 | one Subscribe step with a fresh channel |
| `EventBuses.EventBus.Unsubscribe` | pkg/eventbus/eventbus.go:107-121 | the scan and splice are one Unsubscribe step |
| `EventBuses.EventBus.Receive` | pkg/eventbus/consumer.go:104-106 | a consumer takes the oldest event |
| `EventBuses.EventBus.Deliver` | pkg/eventbus/eventbus.go:167-178 | the send loop serves exactly the channels in front of the first full one |
| `EventBuses.EventBus.Round` | pkg/eventbus/eventbus.go:142-188 | a worker's round is a run of protocol steps: get, match, sends up to the first full channel, then forget or retry, then done |
| `EventBuses.EventBus.ProcessNextWorkItem` | pkg/eventbus/eventbus.go:135-197 | a worker goes on while there is an item and exits when the queue is empty and shutting down |
| `EventBuses.EventBus.ShutDown` | pkg/eventbus/eventbus.go:68-68 | one ShutDown step: the queue accepts nothing from there on |
| `EventBuses.EventBus.Mature` | pkg/eventbus/eventbus.go:175-175 | one Mature step: a message waiting to be retried is queued again |
| `EventBuses.EventBus.Drain` | pkg/eventbus/eventbus.go:68-68 | the rounds of a worker empty a queue that is shutting down, leaving nothing in processing |
| `EventBuses.EventBus.Stop` | pkg/eventbus/eventbus.go:65-79 | from running to the worker signal: the queue is drained, then exactly the registered channels are closed and the table is emptied |
| `EventBuses.EventBus.CloseAll` | pkg/eventbus/eventbus.go:68-79 | after the drain exactly the registered channels are closed, once each, no buffered event is lost, and the table is empty |
| `Topics.JoinSplit` | pkg/eventbus/matcher.go:19-21 | joining what a topic splits into gives the topic back |
| `Topics.ColonSpelled` | pkg/eventbus/matcher.go:19-21 | the separator is the colon |
| `Topics.AncestorsExact` | pkg/eventbus/matcher.go:10-28 | the topics matched are exactly those s with s == topic or s + ":" a prefix of it, each once, longest first |
| `Topics.MatchExact` | pkg/eventbus/matcher.go:10-28 | matching returns exactly the channels of the ancestors, in that order, and reports a match exactly when there is one |
| `Topics.MatchComplete` | pkg/eventbus/matcher.go:10-28 | every channel registered under the topic or an ancestor of it is matched, and no other, and a match is reported exactly if there is one |
| `Topics.MatchPlaces` | pkg/eventbus/matcher.go:10-28 | the match is made of whole slices: the place of every channel, and the length as the sum of the slices |
| `Topics.MatchOrdered` | pkg/eventbus/matcher.go:10-28 | channels of a longer ancestor come before those of a shorter one, and table order holds inside a topic |
| `Topics.MatchDistinct` | pkg/eventbus/matcher.go:10-28 | when every channel is registered once, no channel is matched twice |
| `Topics.QualifiedNameInjective` | pkg/events/events.go:55-63 | qualified names of colon-free sources determine topic and source |
| `Topics.QualifiedNameSplits` | pkg/events/events.go:55-63 | a qualified name joins topic, namespace and name by colons, is the topic alone for the empty source, and splits into the three when they contain no colon |
| `Topics.QualifiedNameCollision` | pkg/events/events.go:55-63 | under every topic every source with a colon shares its qualified name with another source |
| `Topics.QualifiedNameExact` | pkg/events/events.go:55-63 | among the sources of one topic, a qualified name determines the source exactly if the source contains no colon |
| `Topics.QualifiedTopicCollision` | pkg/events/events.go:55-63 | every topic with a colon shares each of its qualified names with another topic |
| `Topics.QualifiedNameDetermines` | pkg/events/events.go:55-63 | a qualified name determines topic and source exactly if topic, namespace and name contain no colon |
| `Topics.QualifiedMatch` | pkg/eventbus/matcher.go:10-28 | an event of a colon-free name and source goes to the subscribers of name:ns:source, name:ns and name, in that order |
| `Topics.QualifiedAncestorsIff` | pkg/eventbus/matcher.go:10-28 | for a colon-free source the topics matched are those three exactly if the name is colon-free |
| `Events.Key` | pkg/events/events.go:28-51 | the loops compute the key of the sorted labels, whatever order the map is ranged over in |
| `Events.BuildKeyText` | pkg/events/events.go:33-45 | collecting, sorting and concatenating gives the values in label order |
| `Events.CollectKeys` | pkg/events/events.go:37-40 | the keys of the map, each once |
| `Texts.LeqIff` | pkg/events/events.go:41-41 | labels are sorted byte by byte from the left, prefixes first |
| `Events.Sum` | pkg/events/events.go:47-49 | the hash loop is FNV-1a from the 32-bit offset basis |
| `Events.StepIsFnv1a` | pkg/events/events.go:47-48 | a step flips the bits of the byte in the hash and multiplies by 0x01000193 modulo 2^32 |
| `Events.KeyDenotesHash` | pkg/events/events.go:47-50 | read as a hexadecimal number the key is the hash of the text from 0x811c9dc5 |
| `Events.HexDigitSpelled` | pkg/events/events.go:49-49 | the digits are 0123456789abcdef |
| `Events.PrimeInvertible` | pkg/events/events.go:47-49 | multiplication by the FNV prime has an inverse modulo 2^32 |
| `Events.FnvStepInjective` | pkg/events/events.go:47-49 | an FNV-1a step is injective in the state and in the byte |
| `Events.HexEncodeInjective` | pkg/events/events.go:49-49 | hexadecimal encoding is injective |
| `Events.KeySeparates` | pkg/events/events.go:28-51 | key texts that differ in exactly one byte give different keys |
| `Events.KeyShape` | pkg/events/events.go:28-51 | the key is empty exactly for an event without name and labels, and otherwise 8 lower-case hexadecimal digits |
| `Events.KeyDependsOnNameAndLabels` | pkg/events/events.go:28-51 | time, address of the labels and nil against empty do not matter |
| `Events.OrderedRenamingKeepsKey` | pkg/events/events.go:36-45 | renaming the labels in any way that keeps their order keeps the key |
| `Events.ReorderingSwapsValues` | pkg/events/events.go:41-44 | a renaming that moves a label past another swaps their values in the hashed text |
| `Events.RenamingCanChangeKey` | pkg/events/events.go:41-50 | under every event name there is such a renaming that changes the key |
| `Merging.MergedStream` | pkg/eventbus/consumer.go:72-82 | in every run the merged stream interleaves prefixes of the inputs, each in order, followed by the zero event only after a closed input was selected, which happens at most once |
| `Merging.NothingAfterReturn` | pkg/eventbus/consumer.go:74-81 | nothing follows the zero event |
| `Merging.NothingDropped` | pkg/eventbus/consumer.go:74-81 | everything received is emitted, but for at most one event on its way |
| `Merging.Merge` | pkg/eventbus/consumer.go:153-177 | a select on a drained closed input gives the zero event and an error, otherwise the next event of the input |
| `Events.ZeroEventIsEmpty` | pkg/eventbus/consumer.go:154-169 | the zero event has no name, no time, no labels and no key |
| `Merging.Forward` | pkg/eventbus/consumer.go:72-82 | the forwarding loop executes a run of the merger, with producers acting while it waits in the select and while it waits for the reader, and goes on exactly until a closed input is selected |
| `Suppression.PruningRefinesHistory` | pkg/actions/state/state.go:52-67 | after any operations under a monotone clock the pruned table gives the verdict of the never-pruned history |
| `Suppression.TableBoundedAfterGet` | pkg/actions/state/state.go:129-143 | after a Get the table has no more keys than runs started within the last window |
| `Suppression.FaithfulVerdict` | pkg/actions/state/state.go:145-160 | suppressed exactly while running or inside the window of a recorded run |
| `ActionStates.Entry.IsSuppressed` | pkg/actions/state/state.go:145-160 | the verdict of the entry |
| `ActionStates.Entry.ClearExpiredLastRuns` | pkg/actions/state/state.go:162-172 | deletes exactly the keys whose time lies strictly in the past |
| `ActionStates.ActionState.IsDeployed` | pkg/actions/state/state.go:82-88 | true for exactly the installed keys, generation included |
| `ActionStates.ActionState.IsRunning` | pkg/actions/state/state.go:39-49 | true for exactly the installed keys with a run in progress |
| `ActionStates.ActionState.Add` | pkg/actions/state/state.go:91-112 | replaces every generation of the name by one fresh entry |
| `ActionStates.ActionState.Remove` | pkg/actions/state/state.go:115-126 | drops every generation of the name and nothing else |
| `ActionStates.ActionState.GetCounterMeasure` | pkg/actions/state/state.go:129-143 | nil exactly for a key not installed; prunes that entry only |
| `ActionStates.ActionState.CounterMeasureStart` | pkg/actions/state/state.go:52-67 | records the start in that entry only, so that after the end the key is suppressed exactly until the duration of the policy has passed; a missing key is a nil dereference |
| `ActionStates.PolicySuppresses` | pkg/actions/state/state.go:60-63 | under a policy of duration d, a run started at now suppresses its event key exactly before now + d, and no other key |
| `ActionStates.NoPolicyNoTrace` | pkg/actions/state/state.go:60-63 | without a policy or a duration a run leaves no trace in the table |
| `ActionStates.NewSuppressesNothing` | pkg/actions/state/state.go:99-104 | a fresh entry suppresses nothing |
| `ActionStates.ActionState.CounterMeasureEnd` | pkg/actions/state/state.go:70-78 | clears the running flag of that entry only; a missing key is a nil dereference |
| `Lockstep.NextKeepsInv` | pkg/actions/manager.go:58-161 | every step of reconciliations, goroutines and the bus keeps consumers, state table, goroutines and subscriptions in step |
| `Lockstep.LockstepWhenFree` | pkg/actions/manager.go:95-161 | whenever the manager's lock is free, installed names and names in the state table agree, each with one generation, and registered channels correspond one to one to installed names or to Adds in flight |
| `Lockstep.RemoveLeavesNoOrphan` | pkg/actions/manager.go:136-149 | when Remove finishes no channel subscribed for its name is registered and no generation is left |
| `Lockstep.NothingToClean` | pkg/actions/state/state.go:95-96 | under the Exists-then-Add discipline the state's own removal inside Add finds nothing |
| `ConsumerLoop.SuppressionSound` | pkg/actions/manager.go:102-130 | in every orderly run, runs of one event key start at least the duration of the policy apart, every skip lies within that duration of an earlier run, and without a policy or a duration nothing is skipped |
| `ConsumerLoop.RunsDoNotOverlap` | pkg/actions/manager.go:104-126 | in every orderly run, no run of the key is in progress at any check, and the flag is set exactly between a start and its end |
| `Removal.StartsAndEndsAlternate` | pkg/actions/manager.go:124-126 | over every run without a panic the starts of a goroutine exceed its ends by one exactly while it acts |
| `Removal.InstalledByLastChange` | pkg/actions/state/state.go:91-126 | over every run a key is installed exactly if its last change was an insertion, or there was none and it was installed |
| `Removal.PanicsIffRemoved` | pkg/actions/state/state.go:52-78 | over every run since the look-up, start and end panic exactly if the last change of the key was a Remove |
| `Removal.RemoveRetires` | pkg/actions/manager.go:142-148 | Remove leaves each goroutine of the name with a closed channel and no entry |
| `Removal.AfterRemove` | pkg/actions/manager.go:136-149 | in every orderly run after Remove, an event dequeued starts no run, and a start whose look-up came earlier panics |
| `Removal.GoroutineExits` | pkg/actions/manager.go:103-130 | in every orderly run after Remove, the moves of the goroutine use up a budget of two for each buffered event and a few more, one by one, and it takes only what is buffered |
| `Removal.BudgetBound` | pkg/eventbus/consumer.go:16-16 | the budget is at most 23, for ten buffered events, and zero exactly when the goroutine has returned |
| `Removal.RetiredCanMove` | pkg/actions/manager.go:103-104 | until it has returned, such a goroutine can move |
| `Reinstallation.OrderlyIffOlderNeverAct` | pkg/actions/manager.go:99-128 | installing a key is orderly, its older goroutines having returned or waiting on closed, empty channels, exactly if in no run that follows one of them acts |
| `Races.RemoveDuringRunPanics` | pkg/actions/state/state.go:70-78 | from every state with a run in progress and free locks there is a run in which it panics |
| `Races.PanicFromStart` | pkg/actions/manager.go:102-149 | for every countermeasure and every event a run from the start that ends in the panic |
| `Races.ReinstallOverlaps` | pkg/actions/state/state.go:91-112 | installing a key again while its goroutine acts gives it a second goroutine and an entry not marked running, and the end of the run does not panic |
| `Races.OverlapFromStart` | pkg/actions/manager.go:90-149 | for every countermeasure and every event a run from the start in which the resource is removed and created again during a run, ending with two goroutines for the key |
| `Routing.HandlesOnlyItsTopic` | pkg/actions/manager.go:90-103 | in every run, an event a goroutine handles was published under the topic it was started for, or below it |
| `Routing.RunsOnlyItsEvents` | pkg/actions/manager.go:90-126 | in every orderly run, an event checked against or run by a countermeasure was published under the event name in its spec, or below it |
| `Routing.InstalledIsReached` | pkg/actions/manager.go:90-99 | in every run, whenever the manager's lock is free, an installed countermeasure has its channel in the match of every topic that is its event name or lies below it |
| `Reconciliation.Manager.Add` | pkg/actions/manager.go:58-133 | fails exactly when selected sources cannot be listed, and then changes nothing; otherwise subscribes, registers, installs and starts a goroutine |
| `Reconciliation.AddedExact` | pkg/actions/manager.go:90-100 | the channel of an Add is last under the event name and under no other topic, other subscriptions stay, and the countermeasure gets a fresh entry in place of every generation of its name |
| `Reconciliation.Manager.Remove` | pkg/actions/manager.go:136-149 | unsubscribes the name's channel if there is one and drops the name from both tables |
| `Reconciliation.Manager.Exists` | pkg/actions/manager.go:152-161 | true for exactly the installed names, whatever the generation |
| `Reconciliation.Manager.Reconcile` | controllers/countermeasure/countermeasure_controller.go:66-109 | the effect on bus, tables and goroutines for every answer of the cluster, and the outcome: success exactly if there was nothing to install or the name is installed and the status written |
| `Reconciliation.ReconcileConverges` | controllers/countermeasure/countermeasure_controller.go:66-109 | installed afterwards exactly if found and already installed, or valid and with its sources listed; what is installed is the resource as read back; no other name is touched |
| `Reconciliation.ReconcileIdempotent` | controllers/countermeasure/countermeasure_controller.go:66-109 | repeating it on an unchanged cluster changes nothing |
| `Reconciliation.ReconcileKeepsConsistent` | controllers/countermeasure/countermeasure_controller.go:85-103 | bus, consumers, state table and goroutines stay in step, without orphans |
| `Reconciliation.AddKeepsConsistentIff` | pkg/actions/manager.go:90-100 | Add leaves no orphan goroutine exactly if the name was not installed |
| `Refinement.AddIsRun` | pkg/actions/manager.go:58-133 | Add after its checks is a run of the manager protocol |
| `Refinement.RemoveIsRun` | pkg/actions/manager.go:136-149 | Remove is a run of the manager protocol |
| `Refinement.ReconcileIsRun` | controllers/countermeasure/countermeasure_controller.go:66-109 | for every answer of the cluster, what Reconcile does to the snapshot is what a run of the manager protocol does |
| `Refinement.HandleIsRun` | pkg/actions/manager.go:103-129 | one pass of the goroutine is a run of the manager protocol, which ends in a crash exactly if a builder panics |
| `Refinement.NewSystem` | pkg/actions/manager.go:41-55 | a new manager on a new bus is at the start of the manager protocol |
| `Consumption.Handle` | pkg/actions/manager.go:103-129 | one pass of the goroutine: ignored exactly if not installed, skipped, not built, or run between a start and an end, and then with the trace of one implementation of each action of the installed spec |
| `Consumption.Serve` | pkg/actions/manager.go:102-130 | the loop handles every buffered event in order, unless a builder panics |
| `Consumption.SkippedIffInWindow` | pkg/actions/manager.go:102-130 | over every stream of events, an event handled is skipped exactly if an earlier event of its key was run less than the duration of the policy before |
| `Consumption.RanRunsSpec` | pkg/actions/manager.go:118-126 | over every stream of events, an event that is run performs the actions of the installed spec in order, with its retries, its stop at the first failure and its recorded events |
| `Consumption.HandledFails` | pkg/actions/manager.go:118-122 | an event neither run nor skipped comes to an action of the installed spec that sets no kind, or panics at one that needs the missing client |
| `Consumption.ValidatedRunsOrSkips` | pkg/actions/manager.go:104-126 | a validated countermeasure runs exactly the events it does not skip, and each run performs the actions of its spec |
| `Consumption.ValidatedServesAll` | pkg/actions/manager.go:102-130 | given the debug client, a validated countermeasure handles every event of the stream |
| `Admission.ValidateAction` | apis/countermeasure/v1alpha1/webhook_validation.go:34-69 | accepts exactly the actions with one kind and, for debug, an image; each error is reported exactly when it applies |
| `Admission.ValidateOnEvent` | apis/countermeasure/v1alpha1/webhook_validation.go:71-78 | an event name is required |
| `Admission.ValidateSpec` | apis/countermeasure/v1alpha1/webhook_validation.go:13-32 | accepts exactly specs with an event name and one or more good actions; one error for each fault |
| `Admission.Registry.Initialize` | pkg/actions/action.go:84-106 | registers the four builders under their own kinds |
| `Admission.Registry.RegisterAction` | pkg/actions/action.go:109-116 | adds or replaces one builder |
| `Admission.Registry.Create` | pkg/actions/action.go:119-132 | calls the builder of the first field that is set and has one; an error if there is none |
| `Admission.Registry.NewRunner` | pkg/actions/action.go:135-149 | builds the actions in order; the first failure decides |
| `Admission.BuildsIff` | pkg/actions/action.go:84-149 | no builder dereferences nil; a runner results exactly if every action sets a kind and the debug client is there when needed, with one faithful implementation for each action |
| `Admission.BuiltImplements` | pkg/actions/action.go:135-149 | whatever is registered, a runner has one implementation of each action of the spec, in order |
| `Admission.FirstKindWins` | pkg/actions/action.go:119-132 | of several kinds in an action the first of delete, patch, debug and restart is built |
| `Admission.BuildFailure` | pkg/actions/action.go:84-149 | a runner that cannot be built fails at the first action that sets no kind, with an error naming it, or that needs the client that cannot be made, with a panic |
| `Admission.ValidatedSpecsBuild` | pkg/actions/action.go:135-149 | an accepted spec builds: one implementation for each action in order, of its single kind, with its retry setting and the spec's dry run |
| `Execution.OnError` | pkg/actions/action.go:179-183 | attempts until the first success; once without retry, at most the step count with it; fails only when all attempts are used |
| `Execution.Run` | pkg/actions/action.go:167-202 | the loop performs the trace that RunnerTrace characterises |
| `Execution.RunnerTrace` | pkg/actions/action.go:167-202 | successes form a prefix in document order, each action is attempted up to its first success or its limit, nothing is attempted after the first final failure, and the events are one Normal for each success, with the dry run, and at most one Warning at the end |
| `Locking.EveryRoutineOrdered` | pkg/actions/manager.go:90-161 | every operation takes consumersMux, subscribersMux, measuresMux and entry locks in ascending order, releases what it took, and executes actions holding none |
| `Locking.AddRequests` | pkg/actions/manager.go:90-100 | the locks Add asks for, in order, and what it holds each time |
| `Locking.RemoveRequests` | pkg/actions/manager.go:136-148 | the locks Remove asks for, in order, all while it holds the manager's lock |
| `Locking.HandleRequests` | pkg/actions/state/state.go:52-165 | the locks a pass of a goroutine asks for, in order, with the actions executed between start and end |
| `Locking.SkipRequests` | pkg/actions/state/state.go:129-160 | the locks of a pass that skips its event |
| `Locking.OtherRequests` | pkg/eventbus/eventbus.go:96-165 | deliveries and Exists read, the other operations take one lock for writing |
| `Locking.NoDeadlock` | pkg/actions/state/state.go:39-172 | in every run, whenever a thread holds or waits for a lock, such a thread can step |
| `Locking.MutualExclusion` | pkg/eventbus/eventbus.go:96-121 | a lock held for writing is held by one thread only |
| `Locking.ExecutesWithoutLocks` | pkg/actions/manager.go:124-126 | no lock is held while actions execute |
| `Polling.FindActiveAlert` | pkg/producer/prometheus/prometheus.go:80-89 | the active alerts and no others, in order |
| `Polling.ActiveIndices` | pkg/producer/prometheus/prometheus.go:80-89 | what is found are the alerts at ascending positions that are exactly those of active alerts |
| `Polling.CopyLabels` | pkg/producer/prometheus/prometheus.go:62-65 | the copy is the label map |
| `Polling.AlertNameSpelled` | pkg/producer/prometheus/prometheus.go:68-68 | the label of the name is alertname |
| `Polling.ToEvents` | pkg/producer/prometheus/prometheus.go:53-77 | one event for each active alert, in order, with its time, all its labels, its name, and an address of its own; an error exactly if there is none |
| `Polling.Poll` | pkg/producer/prometheus/prometheus_source.go:63-89 | extends the run of the bus by one Publish for each active alert, in order, and by nothing else |
| `Polling.EveryActivePublished` | pkg/producer/prometheus/prometheus_source.go:71-88 | every alert that is firing, or pending when asked for, is published with its time, labels and name |
| `Polling.PollRouting` | pkg/producer/prometheus/prometheus_source.go:82-88 | only such alerts are published, each reaches exactly the channels registered under its topic or an ancestor, and from a colon-free source these topics are name:ns:source, name:ns and name exactly if the name is colon-free |

## Left out

- The Perform bodies of delete, patch, debug and restart, and the templates: Kubernetes calls; an attempt succeeds or fails. Of their specs the model keeps the fields that validation and building read.
- The inside of the work queue, the rate limiter and the retry helper: their documented contracts are used, including that nothing is being processed once the drain has returned; the number of backoff steps is a parameter.
- Items of another type in the work queue (pkg/eventbus/eventbus.go:154-161): Publish adds only messages.
- An exited bus worker does not come back, while wait.Until starts it again after a second: the number of workers is arbitrary, and a worker exits only when nothing is queued and nothing is accepted any more.
- Delivery of the worker shut-down signal and the exit of each worker: a liveness question about a foreign helper.
- Aliasing of slices by the in-place splice: a subscriber slice is a value; slices handed out before are not observed after the lock is released.
- OnEventSync of both consumers and the Id of a consumer, a hash of the wall clock.
- pkg/producer/manager.go, the Prometheus controller, status conditions, metrics and logging.
- ConsumerLoop.SuppressionSound: about orderly runs; Reinstallation.OrderlyIffOlderNeverAct says exactly what they exclude, and Races.OverlapFromStart is a run that is not orderly.
- ConsumerLoop.RunsDoNotOverlap: about orderly runs, for the same reason.
- Removal.AfterRemove: about orderly runs; when the key is installed again, the older goroutine's buffered events run on the new entry.
- Removal.GoroutineExits: about orderly runs, for the same reason.
- Routing.RunsOnlyItsEvents: about orderly runs, for the same reason; Routing.HandlesOnlyItsTopic is about every run.
- Locking.NoDeadlock: before shut-down; the shut-down keeps the read lock while it waits for a worker to take its signal.
- EventBuses.EventBus.Round: stated without interference; the same steps interleaved with others are runs of BusProtocol.
- EventBuses.EventBus.Stop: stated for a bus with no other worker in the middle of a round; the interleavings are runs of BusProtocol.
- Consumption.Serve: stated without interference; the runs of ManagerProtocol have Removes between the steps of a pass.
- Reconciliation.Manager.Reconcile: of the status writes only whether they succeed is modelled, not the conditions they set.
