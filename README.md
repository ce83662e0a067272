# EventSystem dispatcher, modelled in Dafny

This project models the core of EventSystem, a C++ in-process publish/subscribe event bus. It has three parts:

* **The event-kind allocator.** `EventTypeGenerator::getNextId` and `EventType<T>::getId` give each event struct a stable integer tag the first time it is asked for.
  * `event_identity.dfy`, class `TypeIds`: a counter plus a map from struct to tag.
* **The events.** The `Event` base class with its private tag, and the three structs `PlayerInputEvent`, `GameStateChangeEvent` and `EntityInteractionEvent`, with their default-argument constructors and `clone`.
  * `events.dfy`: a datatype whose payload is one of the three structs.
* **The `EventDispatcher`.** A map from tag to a vector of (handle, callback) pairs, the global handle counter `nextListenerID`, and a FIFO queue of owned event copies. It has five operations:
  * `addListener` and `removeListener`;
  * `queueEvent`;
  * `processEvents`, which drains everything;
  * `processEventsOfType`, which dispatches one kind and keeps the rest in order via a side queue.

  They are modelled as:
  * `listeners.dfy`: the registry as a value, and the erase-remove filter;
  * `event_queue.dfy`: the call sequence a drain makes, as functions of the queue and the registry;
  * `dispatcher.dfy`: class `EventDispatcher`, whose methods are proved against those functions.

Callbacks are opaque tokens. Calling one appends an `Invocation` record (the registration and the event) to the dispatcher's `trace` field. "Every listener for the event's tag is called once, in registration order, events in FIFO order" is then a statement about `trace`.

`scenarios.dfy` replays the repository's test cases and the example consumer's subscribe/unsubscribe life against the model.

## Model

| member | source | states |
|---|---|---|
| EventIdentity.TypeIds.constructor | include/event_system.h:49 | the tag counter starts at 0 and no struct has a tag yet |
| EventIdentity.TypeIds.GetNextId | include/event_system.h:48-51 | returns the counter's value and the counter moves on by one; the returned value is above every tag already given out |
| EventIdentity.TypeIds.GetId | include/event_system.h:57-60 | the first call for a struct allocates the next counter value as its tag; every later call returns that same tag and changes nothing; other structs keep their tags, which differ from it; the allocator's invariant is preserved |
| EventIdentity.AllocateKeepsTagsValid | include/event_system.h:57-59 | giving the counter's value to a struct without a tag keeps all tags in [0, counter) and pairwise distinct |
| EventIdentity.TagCountBound | include/event_system.h:46-61 | no more structs have a tag than the counter has handed out |
| EventIdentity.InjectiveBound | include/event_system.h:57-58 | an injective tag map into a finite set of values has at most as many keys as that set has elements |
| Events.Clone | include/event_types.h:22-24 | the copy has the same struct, the same tag and the same field values as the original |
| Events.TagDeterminesVariant | include/event_system.h:54-61 | for events built by the constructors, equal tags hold exactly when the structs are equal |
| Events.NewEvent | include/event_system.h:18 | the event's tag is what `EventType<T>::getId` returns for its struct, allocated on first use |
| Events.NewPlayerInput | include/event_types.h:17-19 | the fields are the arguments (defaults MOVE, 0, 0, 0) and the tag is the PlayerInputEvent tag, allocated on first use |
| Events.NewGameStateChange | include/event_types.h:37-39 | the state is the argument (default START) and the tag is the GameStateChangeEvent tag |
| Events.NewEntityInteraction | include/event_types.h:60-62 | the fields are the arguments (defaults COLLISION, -1, -1) and the tag is the EntityInteractionEvent tag |
| Events.DefaultConstructed | include/event_types.h:17-62 | default-constructed events carry the declared default values and three pairwise different tags |
| Listeners.LookupRegister | src/event_system.cpp:6 | registering under one tag appends to that tag's vector; every other tag reads what it read before |
| Listeners.LookupUnregister | src/event_system.cpp:11-17 | removing under one tag filters that tag's vector; every other tag reads what it read before |
| Listeners.WithoutMembers | src/event_system.cpp:12-17 | a pair survives removal exactly when it was present and has another handle |
| Listeners.WithoutAbsent | src/event_system.cpp:12-17 | removing a handle that is not in the vector leaves it unchanged |
| Listeners.WithoutIdempotent | src/event_system.cpp:10-18 | removing the same handle twice equals removing it once |
| Listeners.WithoutAppend | src/event_system.cpp:12-17 | removal distributes over concatenation, so survivors keep their relative order |
| Listeners.WithoutIncreasing | src/event_system.cpp:12-17 | if handles grow along a vector they still do after removal |
| Listeners.AddThenRemove | src/event_system.cpp:5-18 | appending a pair with a fresh handle and then removing that handle gives back the old vector |
| Listeners.AddKeepsValid | src/event_system.cpp:3-8 | after `addListener` every handle is below the counter, handles grow along each vector and no handle is under two tags; the new handle was in use nowhere |
| Listeners.RemoveKeepsValid | src/event_system.cpp:10-18 | `removeListener` keeps the registry invariant |
| Listeners.SameLookupsKeepValid | src/event_system.cpp:25-34 | two registries whose tags all read the same are valid together |
| Listeners.WithoutStep | src/event_system.cpp:12-17 | one step of the pass: the front pair is kept exactly when its handle differs, and the rest is filtered after it |
| Listeners.RemoveIf | src/event_system.cpp:12-17 | the erase/remove_if pass returns exactly the pairs with another handle, in order |
| EventQueue.Notify | src/event_system.cpp:30-32 | the inner loop makes one call per registration, the i-th call going to the i-th registration |
| EventQueue.KindAppend | src/event_system.cpp:39-50 | taking and keeping by tag both distribute over concatenation |
| EventQueue.KindMembers | src/event_system.cpp:43-49 | an event is dispatched by `processEventsOfType(k)` exactly when it was queued with tag k, and kept exactly when it was queued with another tag |
| EventQueue.KindPartition | src/event_system.cpp:36-54 | the dispatched and the kept events together are the queue as a multiset, so no event is dropped or duplicated |
| EventQueue.NoneOfKind | src/event_system.cpp:37-53 | with no event of tag k queued, nothing is dispatched and the queue is kept as it was |
| EventQueue.DeliveriesAppend | src/event_system.cpp:26-33 | draining a then b makes the calls of a followed by the calls of b |
| EventQueue.DeliveriesMembers | src/event_system.cpp:26-33 | a call is made exactly when its event is queued and its registration is in that event's tag vector |
| EventQueue.CallsOfKindAppend | src/event_system.cpp:43-46 | keeping the calls on events of tag k distributes over concatenation |
| EventQueue.CallsOfKindNotify | src/event_system.cpp:43-46 | the calls for one event are kept all together when its tag is k, and dropped all together otherwise |
| EventQueue.OfKindDeliveries | src/event_system.cpp:39-50 | the calls of a filtered drain are exactly the full drain's calls on events of tag k: the same calls, as often, in the same order |
| EventQueue.OfKindDeliveriesMembers | src/event_system.cpp:43-46 | every call of a filtered drain is on a queued event of tag k, and a call is in the filtered drain exactly when it is in the full drain and its event has tag k |
| EventQueue.DeliveriesLookups | src/event_system.cpp:29-30 | two registries whose tags all read the same vectors make the same calls when draining the same queue |
| EventQueue.RemovedNotDelivered | src/event_system.cpp:10-18 | after removing handle id under tag k, no event of tag k reaches it, and every other registration for k still gets every queued k event |
| EventQueue.SplitDrain | src/event_system.cpp:36-54 | a filtered drain followed by a full drain makes the same calls, as a multiset, as one full drain |
| Dispatcher.EventDispatcher.constructor | include/event_system.h:40-41 | the registry and the queue start empty and the handle counter at 0 |
| Dispatcher.EventDispatcher.AddListener | src/event_system.cpp:5-8 | returns the counter's old value, which exceeds every registered handle; the pair goes to the end of that tag's vector; the counter moves on by one; queue and calls unchanged |
| Dispatcher.EventDispatcher.RemoveListener | src/event_system.cpp:10-18 | that tag's vector loses exactly the pairs with the handle; other tags are untouched; an unknown handle leaves the vector as it was |
| Dispatcher.EventDispatcher.QueueEvent | src/event_system.cpp:20-22 | a copy of the event goes to the back of the queue and no listener is called |
| Dispatcher.EventDispatcher.CallAll | src/event_system.cpp:30-32 | the listeners of a vector are called once each, in order |
| Dispatcher.EventDispatcher.Deliver | src/event_system.cpp:27-32 | the event is passed to every listener of its tag, and the tag gets an entry in the map if it had none |
| Dispatcher.EventDispatcher.ProcessEvents | src/event_system.cpp:25-34 | the queue ends empty; the calls made are the queued events in FIFO order, each to its tag's listeners in registration order; every tag reads its old vector |
| Dispatcher.EventDispatcher.ProcessEventsOfType | src/event_system.cpp:36-54 | exactly the events of the tag are dispatched, in queue order; the queue becomes the other events in their original order; the map gains the tag only if such an event was queued |
| Scenarios.DistinctKinds | tests.cpp:7-11 | the three structs receive three distinct tags, namely 0, 1 and 2 |
| Scenarios.QueueThenProcess | tests.cpp:13-27 | queuing calls nothing and the following drain calls the one listener once |
| Scenarios.RemovedListenerIsNotCalled | tests.cpp:29-46 | after removal, a second event of the same kind calls nothing more |
| Scenarios.TwoListenersOneEvent | tests.cpp:77-96 | both listeners of a kind are called once each, in registration order |
| Scenarios.FilteredThenFull | src/event_system.cpp:36-54 | with a PlayerInput and a GameStateChange queued, draining the PlayerInput kind calls only its listener and keeps the other event; the following full drain then calls the other listener |
| Scenarios.FilteredThenFullDrain | src/event_system.cpp:25-54 | `processEventsOfType(k)` followed by `processEvents()` empties the queue; the calls made before are kept, and all calls made together equal, as a multiset, those of one `processEvents()` on the original queue and registry; every tag still reads its old vector |
| Scenarios.FilteredDrainOfAbsentKind | src/event_system.cpp:37-53 | a filtered drain of a kind that is not queued calls nothing and keeps the queue |
| Scenarios.SubscribeThenUnsubscribe | src/player.cpp:4-39 | registering fresh handles under three distinct tags and then removing them restores every tag's vector |
| Scenarios.Subscribe | src/player.cpp:4-33 | the consumer's constructor registers one listener per kind and keeps the (tag, handle) pairs |
| Scenarios.Unsubscribe | src/player.cpp:35-39 | the consumer's destructor removes each kept pair, first to last |
| Scenarios.PlayerLifetime | src/player.cpp:4-39 | after the consumer's whole life every tag reads its old vector, and only the handle counter has moved on |

## Left out

- Callback bodies, lambda captures and what listeners do. A callback is an opaque token. Listeners are taken not to register, unregister or queue while a drain runs, so re-entrant drains are not modelled.
- `shared_ptr` ownership and heap cloning. Events are values, and the queue holds copies.
- Float semantics of `dx` and `dy`. They are `real` fields that are only copied.
- Overflow of the `int` tag counter, which is undefined behaviour in C++, and wrap-around of the `std::size_t` handle counter. Both counters are unbounded here. `ListenerID` is `nat`.
- EventIdentity.TypeIds: in the program the tag counter and the per-struct tags are statics, so there is one allocator per process. Here one `TypeIds` object stands for them. The model matches the program only when every event is built with that same object, and it does not enforce this; each scenario makes its own object, which stands for a fresh process.
- Dispatcher.EventDispatcher.AddListener: the handle counter is one process-wide variable shared by all dispatchers in the program. Here it is a field of the dispatcher, so the model matches the program as long as only one dispatcher exists.
- Density of tags is not an invariant. `getNextId` is public, so a direct call consumes a tag that no struct gets. The model states only that tags are below the counter, pairwise distinct and no more numerous than the counter.
- Thread safety. The model is sequential.
- The example consumer's own state and handlers (position, jumping flag, attack direction; src/player.cpp:42-85). Only its register-on-construct and remove-on-destroy pattern is modelled.
- The `static_cast` downcast in the listeners becomes a `match` on the payload. There is no separate cast operation.
