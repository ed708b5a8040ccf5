# A verified model of the engine core of a Cesium-based map SDK

The SDK wraps a Cesium viewer in an `Engine`. The engine owns three things:

- a dependency `Container`, a name-keyed registry of constructors and cached instances;
- an `EventBus`, with persistent and one-shot handler sets;
- a `ServiceRegistry`, which files eight default services and drives their init and dispose hooks.

Beside this substrate sit a `PluginManager`, the reactive state cell made by `createState`, and the bookkeeping of several services:

- tools, with at most one active;
- widgets, in two parallel maps;
- layers and layer groups;
- the base layer's visibility and clamped opacity;
- the camera's exclusive control modes, position history, path animations and limits;
- terrain, with its enabled/provider state;
- the data store and its CSV export.

## How the model is built

Each source file is one Dafny module. A class whose methods update fields becomes a Dafny `class` with those fields.

For every class, the model defines pure functions of its abstract state. These are `Registered`, `Resolved`, `Delivered`, `Emitted`, `Used`, `Launched`, `Activated`, `LayerAdded`, `OrbitOn`, `Loaded`, `Csv` and the like. Each method's postcondition ties the new fields and the returned value to one of these functions of the old state. The lemmas then state the source's promises about the functions.

Each service logs what it does in an `effects` sequence, oldest first:

- the events it emits;
- its calls into objects outside the model (a tool's `activate`, a layer's `destroy`, the camera's `setView`).

JavaScript `Set` and `Map` iterate in insertion order, and the code relies on that. They are modelled as duplicate-free sequences, and as such a sequence of keys beside a Dafny `map` (module `Ordered`).

Anything the core does not decide itself is a parameter of the operation that meets it:

- a plugin's `install` outcome;
- a service hook's outcome;
- a Cesium loader's outcome;
- a `destroy` outcome;
- the clock;
- the object URL;
- whether a viewer exists when a service reads it (`viewer`), or how a write through the terrain service's viewer ends (`write`).

The viewer service's getter throws "Viewer is not created yet" while there is no viewer (src/services/viewer/viewerService.ts:38-42). The camera and terrain operations take that as a parameter and model the state each throwing path leaves behind: a flag set before the throw stays set.

## Model

| member | source | states |
|---|---|---|
| Container.Registered | src/core/container.ts:14-16 | `register` binds the constructor slot of that one name, replacing any earlier binding; the other names and the instance map are untouched |
| Container.WithInstance | src/core/container.ts:22-24 | `registerInstance` binds the instance of that one name; the other names and the constructor map are untouched |
| Container.Resolved | src/core/container.ts:30-46 | a cached instance is returned and nothing changes; without a usable constructor `resolve` throws "not registered" and changes nothing; a non-class in the constructor slot throws; a class whose constructor throws passes that exception on and nothing is cached; otherwise a new object is built and cached under that name only, with the constructors untouched; nothing constructed is ever forgotten |
| Container.ConstructedIsFresh | src/core/container.ts:42-44 | the object `resolve` constructs differs from every instance cached before |
| Container.InstanceIsStable | src/core/container.ts:30-46 | once a name has a cached instance, every later `resolve` of it returns that instance, whatever else is registered or resolved, until `registerInstance` rebinds it |
| Container.RegisterInstanceThenResolve | src/core/container.ts:22-34 | after `registerInstance(n, x)` every `resolve(n)` returns `x`, whether `x` is a plain value or an object an earlier `resolve` built |
| Container.Singleton | src/core/container.ts:32-45 | a registered class whose constructor completes is constructed once: all `resolve` calls of a run return one and the same object built by that class |
| Container.ThrowingClassNeverCaches | src/core/container.ts:30-46 | a class whose constructor throws is never cached: every `resolve` of it in a run throws that exception again, and the name has no instance at the end |
| Container.CachedInstanceBeatsRegister | src/core/container.ts:14-34 | a `register` made after the name is cached does not change what `resolve` returns |
| Container.ReRegisterReplaces | src/core/container.ts:14-16 | registering twice under one name keeps only the second constructor |
| Container.Container.Register | src/core/container.ts:14-16 | the fields become `Registered` of the old ones |
| Container.Container.RegisterInstance | src/core/container.ts:22-24 | the fields become `WithInstance` of the old ones |
| Container.Container.Resolve | src/core/container.ts:30-46 | result and new fields are those of `Resolved` |
| Events.Subscribe | src/core/eventBus.ts:19-24 | `on`/`once` create the set for the event if needed and add the handler: the event's set becomes the old one (or the empty one) with the handler added; the sets of other events are untouched, and sets stay duplicate-free |
| Events.Listen | src/core/eventBus.ts:19-24 | `on(e, h)` puts `h` among the persistent handlers of `e`, leaves every other event's handlers and all one-shot sets as they were, and keeps the sets duplicate-free |
| Events.ListenOnce | src/core/eventBus.ts:54-59 | `once(e, h)` puts `h` among the one-shot handlers of `e`, leaves every other event's one-shot set and all persistent sets as they were, and keeps the sets duplicate-free |
| Events.OffAll | src/core/eventBus.ts:31-37 | `off(e)` leaves `e` with no handlers of either kind and every other event with the handlers it had |
| Events.OffOne | src/core/eventBus.ts:39-46 | deleting one handler from whichever sets of the event exist keeps every set duplicate-free |
| Events.Resubscribed | src/core/eventBus.ts:54-59 | handlers that call `once` while running only touch the once set of their own event |
| Events.Delivered | src/core/eventBus.ts:66-91 | `emit(e, d)` makes exactly one call per persistent handler, in set order, then one per snapshot entry, in snapshot order, each for `e` with `d`; no persistent call comes after a one-shot call |
| Events.Emitted | src/core/eventBus.ts:66-91 | `emit` leaves the persistent sets as they were and keeps every set duplicate-free |
| Events.Throwing | src/core/eventBus.ts:70-74 | the caught exceptions are exactly those of the throwing handlers that ran |
| Events.EveryHandlerRuns | src/core/eventBus.ts:68-90 | a throwing handler stops nobody: every persistent handler and every snapshot handler is called, and exactly the throwing ones are caught; conversely, every call made is for `e` with `d` and goes to a persistent handler or to a snapshot entry |
| Events.NothingElseRuns | src/core/eventBus.ts:66-91 | every call `emit` makes goes, in its phase, to a persistent handler of the event or to an entry of the once-snapshot |
| Events.OnThenEmit | src/core/eventBus.ts:19-76 | after `on(e, h)`, `emit(e, d)` calls `h` with `d` in the persistent phase exactly once, however often it was added |
| Events.OnIsIdempotent | src/core/eventBus.ts:19-24 | adding the same handler twice is one registration |
| Events.OnceIsConsumed | src/core/eventBus.ts:79-82 | a one-shot handler that does not resubscribe is gone from the once set after one `emit` of its event; an `emit` of another event leaves that set alone |
| Events.ResubscribedMembers | src/core/eventBus.ts:54-59 | after handlers run, a handler is in the once set exactly when it was there or is one of them that resubscribes |
| Events.ResubscribedNotReinvoked | src/core/eventBus.ts:80-89 | a one-shot handler that calls `once(e, itself)` runs once in that `emit` (the loop runs over a snapshot) and is registered again afterwards |
| Events.OneShotCountOfDelivered | src/core/eventBus.ts:78-90 | one `emit` makes at most one one-shot call of a handler for its event, and none for other events or absent handlers |
| Events.OnceFiresAtMostOnce | src/core/eventBus.ts:54-90 | over any run of emits, a non-resubscribing one-shot handler is called at most once, and never if it was not registered |
| Events.OffAllSilences | src/core/eventBus.ts:31-37 | after `off(e)`, `emit(e)` calls nothing, and the other events keep their handlers |
| Events.OffOneRemovesOnlyIt | src/core/eventBus.ts:39-46 | `off(e, h)` removes `h` from both sets of `e` and keeps every other handler; it is a no-op when `h` is absent |
| Events.EventBus.On | src/core/eventBus.ts:19-24 | the maps become `Listen` of the old ones |
| Events.EventBus.Off | src/core/eventBus.ts:31-47 | the maps become `OffAll` or `OffOne` of the old ones |
| Events.EventBus.Once | src/core/eventBus.ts:54-59 | the maps become `ListenOnce` of the old ones |
| Events.EventBus.Invoke | src/core/eventBus.ts:83-89 | the loop over a handler array makes `Calls`, catches `Throwing` and leaves the once map `Resubscribed` |
| Events.EventBus.Emit | src/core/eventBus.ts:66-91 | the calls made are `Delivered`, the exceptions caught `CaughtBy`, the new maps `Emitted` |
| PluginManager.Used | src/core/pluginManager.ts:27-41 | a known name returns without calling `install`; otherwise `install` is called, its failure propagates with nothing recorded, and its success records the plugin under its name only |
| PluginManager.Removed | src/core/pluginManager.ts:47-64 | the entry is always deleted, and `uninstall` is called exactly when the plugin is known and has one |
| PluginManager.UsePreservesFiled | src/core/pluginManager.ts:34-63 | `use` and `remove` keep every plugin filed under its own name |
| PluginManager.UseThenRemove | src/core/pluginManager.ts:34-63 | a successful `use` then `remove` gives back the old map, whatever `uninstall` does |
| PluginManager.FirstUseWins | src/core/pluginManager.ts:28-36 | a second `use` under a recorded name neither installs nor replaces |
| PluginManager.PluginManager.Use | src/core/pluginManager.ts:27-41 | outcome, install call and new map are those of `Used` |
| PluginManager.PluginManager.Remove | src/core/pluginManager.ts:47-64 | uninstall call and new map are those of `Removed` |
| PluginManager.PluginManager.Has | src/core/pluginManager.ts:71-73 | true exactly for a recorded name |
| PluginManager.PluginManager.Get | src/core/pluginManager.ts:80-82 | the recorded plugin, or nothing for an unknown name |
| ServiceRegistry.Produced | src/core/serviceRegistry.ts:36 | calling the factory resolves its dependency, whose error passes out; a factory that reads the viewer before it is created throws "Viewer is not created yet"; otherwise it yields its service object; whatever the resolution cached stays, and on error with the dependency already cached nothing changes |
| ServiceRegistry.Hooked | src/core/serviceRegistry.ts:38-44 | an init or dispose hook is stored only when supplied, replacing an earlier one for the same id in its place |
| ServiceRegistry.ServiceRegistered | src/core/serviceRegistry.ts:30-45 | as written: the factory runs once, immediately, and its object goes into the container's constructor slot; a failing factory files no hook and passes its error on |
| ServiceRegistry.ServiceInstanceRegistered | src/core/serviceRegistry.ts:30-45 | corrected: the factory's object is filed as the cached instance of the id; a failing factory files no hook and passes its error on |
| ServiceRegistry.Launched | src/core/serviceRegistry.ts:53-55 | every stored hook is started, in insertion order, one outcome per hook, before any is awaited |
| ServiceRegistry.JoinAll | src/core/serviceRegistry.ts:57 | `Promise.all` is fulfilled exactly when every outcome is, and otherwise rejects with one of the failures |
| ServiceRegistry.AllSettledPass | src/core/serviceRegistry.ts:50-58 | with every service cached and no hook failing, the launch is fulfilled and changes nothing |
| ServiceRegistry.OneFailureRejects | src/core/serviceRegistry.ts:53-57 | one failing hook rejects the whole launch, without stopping the others from starting |
| ServiceRegistry.LaunchedOutcomes | src/core/serviceRegistry.ts:53-55 | with every service cached, each hook's outcome is its service's own and the container is unchanged |
| ServiceRegistry.LaunchedJoin | src/core/serviceRegistry.ts:50-57 | with every service cached, the launch is fulfilled exactly when every hook is |
| ServiceRegistry.ServiceRegistry.Produce | src/core/serviceRegistry.ts:36 | result and new container are those of `Produced` |
| ServiceRegistry.ServiceRegistry.RegisterService | src/core/serviceRegistry.ts:30-45 | outcome, container and hooks are those of `ServiceRegistered` |
| ServiceRegistry.ServiceRegistry.RegisterServiceInstance | src/core/serviceRegistry.ts:30-45 | outcome, container and hooks are those of `ServiceInstanceRegistered` |
| ServiceRegistry.ServiceRegistry.Launch | src/core/serviceRegistry.ts:53-57 | the loop starts every hook in order and joins them: the result is `JoinAll` of `Launched` |
| ServiceRegistry.ServiceRegistry.InitServices | src/core/serviceRegistry.ts:50-59 | the init hooks are launched and joined; `services.initialized` is emitted only on full success, and nothing is emitted on failure |
| ServiceRegistry.ServiceRegistry.DisposeServices | src/core/serviceRegistry.ts:64-73 | the same for the dispose hooks and `services.disposed` |
| Engine.RegisterAll | src/core/engine.ts:128-243 | the `registerService` calls run one after another and the first that throws ends the sequence |
| Engine.DefaultServices | src/core/engine.ts:128-243 | definition: the eight services in registration order with their dependencies; `Engine.DefaultIdsDistinct`, `Engine.DefaultDepsFirst` and `Engine.DefaultServicesRegister` state its properties |
| Engine.RegisterAllInstances | src/core/engine.ts:128-243 | with corrected registration, services with distinct ids whose dependencies come first and that read no viewer before it exists all register: each id resolves to its own object and nothing cached before is lost |
| Engine.AsWrittenThirdThrows | src/core/engine.ts:130-170 | as written, a third service whose factory resolves the first throws "not a constructor" |
| Engine.AsWrittenConstructionThrows | src/core/engine.ts:159-163 | as written, the Engine constructor throws at `cameraService`, whose factory applies `new` to the viewer object |
| Engine.InstanceThirdThrows | src/core/engine.ts:130-170 | with only the registration corrected, a third service whose factory resolves the first and reads a viewer not yet created throws "Viewer is not created yet", after the first two are cached and without caching itself |
| Engine.InstancesOnlyConstructionThrows | src/core/engine.ts:158-170 | with only the registration corrected, the constructor still throws, at `cameraService`: the viewer and scene services are cached, and the camera service's constructor reads a viewer that no `init` has created |
| Engine.DefaultServicesRegister | src/core/engine.ts:128-243 | with corrected registration and the viewer read only once it exists, the eight default services register after the bus without error; with the viewer already created they register as written too |
| Engine.BootStep | src/core/engine.ts:128-243 | one more corrected registration caches its service and files its hooks last |
| Engine.RegisteredHooks | src/core/engine.ts:128-243 | once all services are registered, the init and the dispose hooks are theirs, in registration order, each naming a cached service |
| Engine.RegisteredLaunch | src/core/engine.ts:94 | after construction the init (or dispose) launch resolves nothing new, starts the hooks in registration order and is fulfilled exactly when every service's hook is |
| Engine.BootedLaunch | src/core/engine.ts:94 | the same for the engine's own eight services |
| Engine.InitStep | src/core/engine.ts:86-103 | an initialized engine returns doing nothing; success sets the flag after `services.initialized` and emits `engine.initialized`; failure emits `engine.error`, rethrows and leaves the flag false |
| Engine.DisposeStep | src/core/engine.ts:108-122 | an engine not initialized returns emitting nothing; success clears the flag after `services.disposed` and emits `engine.disposed`; failure emits `engine.error`, rethrows and leaves the flag true |
| Engine.Lifecycle | src/core/engine.ts:86-122 | for the short call sequences: a failed first `init` leaves the flag false, `dispose` after `init` clears it unless it fails, and a second `init` is a no-op whatever the hooks would do |
| Engine.Replayed | src/core/engine.ts:86-122 | definition: the flag after a sequence of `init`/`dispose` calls, each settled before the next; `Engine.ReplayedFlag` states what it is |
| Engine.ReplayedFlag | src/core/engine.ts:86-122 | over any sequence of `init` and `dispose` calls on a new engine, the flag is set exactly when some successful `init` has no successful `dispose` after it |
| Engine.Engine.constructor | src/core/engine.ts:60-81 | corrected: the bus is filed as instance `events` and the eight services are registered in order, as instances and reading no viewer yet; `autoStart` only schedules `init` |
| Engine.Engine.RegisterDefaultServices | src/core/engine.ts:128-244 | corrected: the loop over the eight registrations leaves every service cached and its hooks filed in order |
| Engine.Engine.Service | src/core/engine.ts:291-300 | a service getter is a `resolve` on the container |
| Engine.Engine.Init | src/core/engine.ts:86-103 | flag, result, container and published events are those of `InitStep` over the registry's launch; the bus gains exactly `services.initialized` and `engine.initialized` on success, `engine.error` on failure, and nothing on a repeated call |
| Engine.Engine.Dispose | src/core/engine.ts:108-122 | flag, result, container and published events are those of `DisposeStep` over the registry's launch; the bus gains exactly `services.disposed` and `engine.disposed` on success, `engine.error` on failure, and nothing before `init` |
| Engine.CameraDisposeRejects | src/core/engine.ts:108-169 | on a booted engine, the viewer's dispose hook runs first and the camera's third; with the camera's dispose throwing for want of a viewer, the launch is rejected, `engine.error` is published and the engine stays initialized |
| StateCell.Merged | src/core/state/createState.ts:25-26 | every field of the patch takes its new value and every other field keeps its old one |
| StateCell.Notices | src/core/state/createState.ts:28 | one notice per subscriber, in insertion order, with the post-update state |
| StateCell.Received | src/core/state/createState.ts:28 | how many notices go to one subscriber: at most one per notice, and none exactly when no notice names it |
| StateCell.MergeEmpty | src/core/state/createState.ts:26 | an empty patch changes nothing |
| StateCell.MergeIdempotent | src/core/state/createState.ts:26 | the same patch twice is the patch once |
| StateCell.MergeComposes | src/core/state/createState.ts:25-26 | two updates are one update with the second patch over the first |
| StateCell.NotifiedOnce | src/core/state/createState.ts:28 | each update notifies every current subscriber exactly once and nobody else |
| StateCell.SubscribeTwice | src/core/state/createState.ts:36-37 | subscribing the same function twice keeps one registration |
| StateCell.UnsubscribedIsSilent | src/core/state/createState.ts:39-41 | after its unsubscriber runs, a subscriber gets no notice from later updates |
| StateCell.Cell.constructor | src/core/state/createState.ts:6-10 | a copy of the initial record and no subscribers |
| StateCell.Cell.Get | src/core/state/createState.ts:17-19 | the current record |
| StateCell.Cell.Update | src/core/state/createState.ts:25-29 | the record becomes `Merged` and the loop makes `Notices` with the new record |
| StateCell.Cell.Subscribe | src/core/state/createState.ts:36-42 | the subscriber is added to the set and its unsubscriber returned |
| StateCell.Cell.Unsubscribe | src/core/state/createState.ts:39-41 | the subscriber leaves the set |
| Tools.Deactivated | src/services/tool/toolService.ts:47-56 | an unknown id is a no-op; otherwise the tool's `deactivate` runs; if it throws, the exception leaves with nothing changed and no event; else the active id is cleared only if it was this one, and `tool.deactivated` is emitted |
| Tools.Activated | src/services/tool/toolService.ts:25-41 | an unknown id is a no-op; otherwise a truthy different active tool is deactivated first, and its exception ends the call there; then the tool's `activate` runs; if it throws, the exception leaves without the tool becoming active or an event; else it becomes active and `tool.activated` is emitted |
| Tools.Switches | src/services/tool/toolService.ts:33 | definition: `activate` deactivates first exactly when the active id is truthy and differs from the new one; `Tools.SwitchDeactivatesPrevious` and `Tools.EmptyIdIsNotSwitchedOff` state what follows |
| Tools.Registered | src/services/tool/toolService.ts:63-77 | an existing id keeps its tool and nothing runs; a new tool is stored, its `init` called once when present, and `tool.registered` emitted unless `init` threw, whose exception is passed on |
| Tools.ActiveStaysRegistered | src/services/tool/toolService.ts:25-56 | every operation, whatever the tools' methods do, keeps the active id null or registered, so at most one tool is active |
| Tools.SwitchDeactivatesPrevious | src/services/tool/toolService.ts:33-39 | a switch deactivates the previous tool exactly once, before anything else, and never deactivates the new one; the new tool's `activate` runs once, right after, unless the previous `deactivate` threw |
| Tools.FailedSwitch | src/services/tool/toolService.ts:33-40 | a switch whose previous `deactivate` throws changes nothing; one whose new `activate` throws leaves no tool active |
| Tools.ReactivateSkipsDeactivate | src/services/tool/toolService.ts:33-40 | re-activating the active tool calls its `activate` again without a deactivate, and changes nothing else |
| Tools.DeactivateOtherKeepsActive | src/services/tool/toolService.ts:51-54 | deactivating a tool that is not active keeps the active one |
| Tools.EmptyIdIsNotSwitchedOff | src/services/tool/toolService.ts:33-35 | an active tool with the empty id is not deactivated by a switch, because `''` is falsy; it stays active only if the new `activate` throws |
| Tools.FailedInitStillStored | src/services/tool/toolService.ts:63-77 | a tool whose `init` throws stays registered without `tool.registered`, and a later `register` under its id changes nothing |
| Tools.ToolService.Activate | src/services/tool/toolService.ts:25-41 | outcome, fields and effects are those of `Activated` |
| Tools.ToolService.Deactivate | src/services/tool/toolService.ts:47-56 | outcome, fields and effects are those of `Deactivated` |
| Tools.ToolService.Register | src/services/tool/toolService.ts:63-77 | outcome, fields and effects are those of `Registered` |
| Tools.ToolService.GetTool | src/services/tool/toolService.ts:83-85 | the registered tool, or nothing |
| Tools.ToolService.GetActiveTool | src/services/tool/toolService.ts:90-92 | the active id, which names a registered tool |
| Widgets.Shown | src/services/widget/widgetService.ts:88-97 | an unknown id does nothing; a known one calls `show` exactly when the widget has it; a `show` that throws passes its exception on before any event; otherwise `widget.shown` is emitted last |
| Widgets.Hidden | src/services/widget/widgetService.ts:103-112 | the same for `hide` and `widget.hidden` |
| Widgets.Added | src/services/widget/widgetService.ts:39-53 | an existing id changes nothing; a new widget and its options go in both maps under the id; the call throws exactly when the widget is shown and its `show` throws, and then `widget.added` is not emitted; otherwise `widget.added` is emitted last |
| Widgets.Removed | src/services/widget/widgetService.ts:59-74 | an unknown id is a no-op; otherwise `destroy` is called exactly when present; if it throws, both maps stay as they were; else the id leaves both maps and `widget.removed` is emitted last |
| Widgets.ParallelKept | src/services/widget/widgetService.ts:45-72 | adding and removing keep the two maps' key sets equal, whether or not the widget's methods throw |
| Widgets.AddShowsUnlessHidden | src/services/widget/widgetService.ts:39-53 | a new widget is shown exactly when `options.show` is not `false` and its `show` does not throw, so the default `{}` shows it; `widget.added` follows exactly when nothing threw |
| Widgets.AddThenRemove | src/services/widget/widgetService.ts:39-74 | adding a new widget and removing it gives back both maps, even when its `show` threw; a `destroy` that throws keeps it filed |
| Widgets.RemoveTouchesOnlyIt | src/services/widget/widgetService.ts:71-72 | removing one widget leaves every other id as it was |
| Widgets.WidgetService.AddWidget | src/services/widget/widgetService.ts:39-53 | outcome, maps and effects are those of `Added` |
| Widgets.WidgetService.RemoveWidget | src/services/widget/widgetService.ts:59-74 | outcome, maps and effects are those of `Removed` |
| Widgets.WidgetService.GetWidget | src/services/widget/widgetService.ts:80-82 | the stored widget, or nothing |
| Widgets.WidgetService.ShowWidget | src/services/widget/widgetService.ts:88-97 | maps unchanged; outcome and new effects are those of `Shown` |
| Widgets.WidgetService.HideWidget | src/services/widget/widgetService.ts:103-112 | maps unchanged; outcome and new effects are those of `Hidden` |
| LayerCatalog.EmptyCatalog | src/services/layer/layerService.ts:429-430 | the empty catalog is well formed and its groups name only filed layers |
| LayerCatalog.Joined | src/services/layer/layerService.ts:181-187 | the group is created if needed and gains the id; other groups are untouched |
| LayerCatalog.Ungrouped | src/services/layer/layerService.ts:194-198 | every group loses the id and no group goes away |
| LayerCatalog.Grouped | src/services/layer/layerService.ts:95-97 | a layer joins the named group only when the name is truthy, and nothing else joins any group |
| LayerCatalog.LayerAdded | src/services/layer/layerService.ts:62-111 | a duplicate id throws before anything happens; terrain, unknown types and failed builds emit `layer.error`, throw and change nothing; success files the built layer and groups it |
| LayerCatalog.LayerRemoved | src/services/layer/layerService.ts:117-141 | an unknown id returns false and changes nothing; otherwise the id leaves every group first, then a successful `destroy` deletes it and returns true, while a failing one leaves it in the map and returns false |
| LayerCatalog.RemovedEach | src/services/layer/layerService.ts:425-426 | definition: `removeLayer` applied to the ids one after the other, each on the catalog the previous left; `LayerCatalog.LayerService.RemoveEach` is proved against it |
| LayerCatalog.Present | src/services/layer/layerService.ts:170-172 | the map-and-filter keeps exactly the ids of the group that have layers, each with its layer; the group's order is stated only when every id is filed, where all are kept in order, which `GroupsKnown` keeps for the service's own groups |
| LayerCatalog.LayersByGroup | src/services/layer/layerService.ts:164-173 | an unknown group gives an empty list |
| LayerCatalog.OfKind | src/services/layer/layerService.ts:206 | the filter keeps exactly the layers of the type, and no more of them than its input holds; `LayerCatalog.OfKindFilter` states its order |
| LayerCatalog.LayersByKind | src/services/layer/layerService.ts:205-207 | `getLayersByType` lists exactly the filed layers of that type, as the filter `OfKind` of the layers in insertion order; with `LayerCatalog.OfKindFilter` this keeps their insertion order, and `LayerCatalog.AddListsLast` shows a new layer coming last |
| LayerCatalog.OfKindFilter | src/services/layer/layerService.ts:206 | the filter keeps a single layer exactly when it has the type, and filters a concatenation part by part, so it keeps the order and the repeats of its input |
| LayerCatalog.AddListsLast | src/services/layer/layerService.ts:62-111 | a layer added under a new id is listed last by `getLayersByType` of its type, after the layers listed before; the listing of other types is unchanged |
| LayerCatalog.DuplicateRefused | src/services/layer/layerService.ts:64-66 | a duplicate id throws before any state change or event |
| LayerCatalog.UnbuildableRefused | src/services/layer/layerService.ts:76-110 | terrain and unsupported types emit `layer.error`, throw and add nothing |
| LayerCatalog.AddFiles | src/services/layer/layerService.ts:91-100 | success stores the layer under its id, last in order, adds the id to the named group, creating it if needed, and touches no other group |
| LayerCatalog.RemoveForgets | src/services/layer/layerService.ts:123-140 | after a removal the id is in no group; it leaves the map and the call returns true exactly when `destroy` succeeds |
| LayerCatalog.AddKeepsGroupsKnown | src/services/layer/layerService.ts:62-111 | `addLayer` keeps every group member naming a filed layer, each under its own id |
| LayerCatalog.RemoveKeepsGroupsKnown | src/services/layer/layerService.ts:117-141 | so does `removeLayer`, whether or not `destroy` fails |
| LayerCatalog.ByGroupSkipsNone | src/services/layer/layerService.ts:164-173 | while group members name filed layers, `getLayersByGroup` returns all of them in joining order |
| LayerCatalog.FailedDestroyUnlisted | src/services/layer/layerService.ts:123-140 | a layer whose `destroy` throws stays in the map but is listed by no group |
| LayerCatalog.LayerService.AddLayer | src/services/layer/layerService.ts:62-111 | result, maps and effects are those of `LayerAdded` |
| LayerCatalog.LayerService.AddLayerToGroup | src/services/layer/layerService.ts:181-187 | the groups become `Joined` |
| LayerCatalog.LayerService.RemoveLayerFromAllGroups | src/services/layer/layerService.ts:194-198 | the loop over the groups leaves them `Ungrouped` |
| LayerCatalog.LayerService.RemoveLayer | src/services/layer/layerService.ts:117-141 | result, maps and effects are those of `LayerRemoved` |
| LayerCatalog.LayerService.RemoveEach | src/services/layer/layerService.ts:425-426 | `removeLayer` on each id in turn |
| LayerCatalog.LayerService.ClearLayers | src/services/layer/layerService.ts:423-434 | every layer is removed in order, then both maps end up empty and `layer.cleared` is emitted |
| LayerCatalog.LayerService.Dispose | src/services/layer/layerService.ts:53-56 | `clearLayers`, then `layer.disposed` |
| LayerCatalog.LayerService.GetLayersByGroup | src/services/layer/layerService.ts:164-173 | the layers of the group, as `LayersByGroup` gives them |
| LayerCatalog.LayerService.GetLayersByType | src/services/layer/layerService.ts:205-207 | the layers of the type in insertion order, as `LayersByKind` gives them |
| BaseLayers.InitialVisible | src/models/layer/BaseLayer.ts:23 | a layer is visible unless `options.visible` is `false` |
| BaseLayers.InitialOpacity | src/models/layer/BaseLayer.ts:24 | opacity is 1.0 when `options.opacity` is undefined, and the given value, unclamped, otherwise |
| BaseLayers.VisibilityChanged | src/models/layer/BaseLayer.ts:32-46 | definition: the `layer.visibility.changed` message with the layer id and the new visibility, as `show` and `hide` emit it |
| BaseLayers.Clamp | src/models/layer/BaseLayer.ts:49 | the result lies in [0, 1], is the input when that is in range, and is the nearer bound otherwise |
| BaseLayers.ClampIdempotent | src/models/layer/BaseLayer.ts:49 | clamping twice is clamping once, and clamping is monotone |
| BaseLayers.ConstructionDoesNotClamp | src/models/layer/BaseLayer.ts:24 | a layer built with opacity 1.5 keeps it until `setOpacity` |
| BaseLayers.BaseLayer.constructor | src/models/layer/BaseLayer.ts:15-30 | the defaults above, and a layer built invisible has emitted one visibility event |
| BaseLayers.BaseLayer.Show | src/models/layer/BaseLayer.ts:32-38 | visible, with `layer.visibility.changed` carrying `true` |
| BaseLayers.BaseLayer.Hide | src/models/layer/BaseLayer.ts:40-46 | invisible, with `layer.visibility.changed` carrying `false` |
| BaseLayers.BaseLayer.SetOpacity | src/models/layer/BaseLayer.ts:48-54 | the clamped value is stored, so opacity lies in [0, 1], and announced |
| BaseLayers.BaseLayer.GetOpacity | src/models/layer/BaseLayer.ts:56-58 | the stored opacity |
| Camera.InitialRig | src/services/camera/cameraService.ts:26-31 | both controls off, no history, no animation, no limits |
| Camera.OrbitOff | src/services/camera/cameraService.ts:300-307 | a no-op when orbit control is off; otherwise it goes off and `camera.orbitControlDisabled` is emitted; it never touches the viewer |
| Camera.FirstPersonOff | src/services/camera/cameraService.ts:341-355 | a no-op when first-person control is off; otherwise it goes off, and the disable is announced only with a viewer; without one the call throws "Viewer is not created yet" with the flag already cleared |
| Camera.OrbitOn | src/services/camera/cameraService.ts:277-295 | a no-op when on; with a viewer, orbit goes on and first-person off, announcing the disable first when it was on; without one the flag is set, first-person control is left as it was, nothing is announced and the call throws "Viewer is not created yet" |
| Camera.FirstPersonOn | src/services/camera/cameraService.ts:312-336 | a no-op when on; otherwise first-person goes on and orbit off in every case, with the orbit disable announced when it was on; `camera.firstPersonControlEnabled` follows only with a viewer, and without one the call throws |
| Camera.OrbitOnChecked | src/services/camera/cameraService.ts:277-295 | the corrected `enableOrbitControl`: a call that throws changes nothing and emits nothing; one that completes, and every call with a viewer, is the call as written |
| Camera.FirstPersonOnChecked | src/services/camera/cameraService.ts:312-336 | the corrected `enableFirstPersonControl`, in the same terms |
| Camera.BothControlsOn | src/services/camera/cameraService.ts:277-336 | without a viewer, enabling orbit control while first-person control is on throws with both on; from the start state, enabling first-person and then orbit control without a viewer leaves both on |
| Camera.CheckedControlsExclusive | src/services/camera/cameraService.ts:277-336 | with the viewer read before any flag changes, every enable keeps the controls exclusive; a throwing call changes nothing and emits nothing, a completed one leaves its own control on, and with a viewer the calls are the ones as written |
| Camera.SaveId | src/services/camera/cameraService.ts:388 | a truthy name is the id; otherwise `position_` and the clock reading |
| Camera.DecimalValue | src/services/camera/cameraService.ts:388 | the digits written for a clock reading spell that number |
| Camera.GeneratedIdsDistinct | src/services/camera/cameraService.ts:388-431 | two generated position ids, and two animation ids, are equal exactly when the clock readings are |
| Camera.Saved | src/services/camera/cameraService.ts:379-395 | without a viewer the camera read throws and nothing is saved or emitted; with one the id of `SaveId` is returned |
| Camera.Restored | src/services/camera/cameraService.ts:400-417 | an unknown id returns false; a saved id returns true exactly when a viewer exists; otherwise the call throws "Viewer is not created yet" and emits nothing |
| Camera.WaypointDuration | src/services/camera/cameraService.ts:433 | an undefined or zero duration counts as 2 |
| Camera.TotalDuration | src/services/camera/cameraService.ts:433 | the left-fold sum of the leg durations over exact reals: 0 for no waypoints, and never negative when no leg is |
| Camera.PathAnimation | src/services/camera/cameraService.ts:429-438 | the animation keeps the waypoints, does not loop and lasts the sum of the leg durations |
| Camera.Stopped | src/services/camera/cameraService.ts:495-507 | a no-op with nothing active; with a viewer the flight is cancelled, the animation announced as cancelled and none stays active; without one the call throws with the animation still active and only marked cancelled |
| Camera.Played | src/services/camera/cameraService.ts:443-489 | without a viewer, a running animation makes the stop throw and nothing else happens; otherwise the running one is stopped first, the new one is active and not cancelled and `camera.animationStarted` is emitted; with waypoints, the flight to the first one starts with its duration, and only with a viewer; with none and no loop, the `finally` block emits `camera.animationCompleted` at once and nothing stays active |
| Camera.LimitsSet | src/services/camera/cameraService.ts:166-167 | the fields of the patch take their new values, every other limit keeps its old one, and nothing but the limits changes |
| Camera.LimitsApplied | src/services/camera/cameraService.ts:166-187 | the limits are always merged and nothing is emitted; the call throws "Viewer is not created yet" exactly when there is no viewer and the patch names a zoom distance, the bounds or a pitch limit |
| Camera.Disposed | src/services/camera/cameraService.ts:597-612 | without a viewer the guard `if (this.camera)` throws and nothing is cleared; with one, the history is emptied and no animation is active, and the control flags and limits are kept |
| Camera.DisposedChecked | src/services/camera/cameraService.ts:597-612 | with the listener removal guarded instead of the throwing getter, dispose always clears the history and the animation and announces itself, and with a viewer it is the dispose as written |
| Camera.ControlsExclusive | src/services/camera/cameraService.ts:277-355 | every operation keeps orbit and first-person control from being on together, with or without a viewer, except `enableOrbitControl` without a viewer while first-person control is on, which breaks it exactly then; each enable leaves its own control on, and with a viewer orbit alone |
| Camera.EnableIdempotent | src/services/camera/cameraService.ts:277-342 | enabling an enabled control and disabling a disabled one do nothing, with or without a viewer |
| Camera.SaveThenRestore | src/services/camera/cameraService.ts:379-417 | without a viewer nothing is saved; a named save with a viewer files the position under the name, in an earlier entry's place if there was one, and restoring it moves the camera back to the saved pose while a viewer exists and throws once it is gone |
| Camera.SavedHistory | src/services/camera/cameraService.ts:389-424 | without a viewer the history is unchanged; a save under a new id puts its position last in the history; under a known id the history keeps its length |
| Camera.RestoreUnknown | src/services/camera/cameraService.ts:400-402 | an unknown id returns false and emits nothing, with or without a viewer |
| Camera.DefaultDurations | src/services/camera/cameraService.ts:433 | waypoints without durations take two seconds each |
| Camera.DurationAppend | src/services/camera/cameraService.ts:433 | over exact reals, the total duration of two paths joined is the sum of their totals |
| Camera.DurationCoversEachLeg | src/services/camera/cameraService.ts:433 | with positive leg durations, a path lasts at least as long as each of its legs |
| Camera.PlayThenStop | src/services/camera/cameraService.ts:443-507 | stopping with nothing active is a no-op; stopping a played animation that is still active cancels the flight and announces that animation while a viewer exists, and without one throws with the animation still active and marked cancelled; an empty non-looping animation has already finished, so stopping it does nothing |
| Camera.LimitsMerge | src/services/camera/cameraService.ts:166-167 | setting limits merges them field by field: the same limits twice are set once, and later limits win |
| Camera.CameraService.constructor | src/services/camera/cameraService.ts:26-31 | the fields start as `InitialRig` |
| Camera.CameraService.Init | src/services/camera/cameraService.ts:589-592 | only `camera.service.initialized` is emitted |
| Camera.CameraService.SetLimits | src/services/camera/cameraService.ts:166-187 | outcome and new limits are those of `LimitsApplied` |
| Camera.CameraService.EnableOrbitControl | src/services/camera/cameraService.ts:277-295 | outcome, fields and effects are those of `OrbitOn`, including the partial state of a call without a viewer |
| Camera.CameraService.DisableOrbitControl | src/services/camera/cameraService.ts:300-307 | fields and effects are those of `OrbitOff` |
| Camera.CameraService.EnableFirstPersonControl | src/services/camera/cameraService.ts:312-336 | outcome, fields and effects are those of `FirstPersonOn`, including the partial state of a call without a viewer |
| Camera.CameraService.DisableFirstPersonControl | src/services/camera/cameraService.ts:341-355 | outcome, fields and effects are those of `FirstPersonOff` |
| Camera.CameraService.SavePosition | src/services/camera/cameraService.ts:379-395 | result, fields and effects are those of `Saved`: the id, or the viewer error with nothing saved |
| Camera.CameraService.RestorePosition | src/services/camera/cameraService.ts:400-417 | fields unchanged; result and effects are those of `Restored` |
| Camera.CameraService.GetPositionHistory | src/services/camera/cameraService.ts:422-424 | the saved positions in the order their ids were first saved |
| Camera.CameraService.PlayAnimation | src/services/camera/cameraService.ts:443-489 | outcome, fields and effects are those of `Played` |
| Camera.CameraService.StopAnimation | src/services/camera/cameraService.ts:495-507 | outcome, fields and effects are those of `Stopped` |
| Camera.CameraService.Dispose | src/services/camera/cameraService.ts:597-612 | outcome, fields and effects are those of `Disposed`: without a viewer it throws and clears nothing |
| Terrain.ViewerWrite | src/services/terrain/terrainService.ts:37-39 | a write through `this.viewer` goes through exactly when the service holds the viewer service and a viewer exists; holding anything else, it fails with the TypeError of an undefined viewer |
| Terrain.ChosenProvider | src/services/terrain/terrainService.ts:50-72 | definition: the provider the `switch` settles on, or the error it throws; `Terrain.MissingSourceRefused` and `Terrain.LoadSucceeds` state its cases |
| Terrain.Loaded | src/services/terrain/terrainService.ts:46-82 | definition: `loadTerrain` as a function of the state, the options, the provider creation and the viewer write; `Terrain.LoadSucceeds`, `Terrain.MissingSourceRefused` and `Terrain.BackedKept` state its properties |
| Terrain.Enabled | src/services/terrain/terrainService.ts:87-93 | definition: `enableTerrain`; `Terrain.EnableDisable` and `Terrain.BackedKept` state its properties |
| Terrain.Disabled | src/services/terrain/terrainService.ts:98-104 | definition: `disableTerrain`; `Terrain.EnableDisable` and `Terrain.DisableThenEnable` state its properties |
| Terrain.BackedKept | src/services/terrain/terrainService.ts:46-104 | every operation keeps enabled terrain backed by a current provider, whether its write to the viewer goes through or not |
| Terrain.MissingSourceRefused | src/services/terrain/terrainService.ts:58-81 | `url` without a URL, `custom` without a provider, and any other kind (`arcgis` among them) emit `terrain.error`, throw and change nothing |
| Terrain.LoadSucceeds | src/services/terrain/terrainService.ts:46-82 | a load succeeds exactly when a provider was obtained and the write to the viewer went through, and then that provider is current and terrain is enabled; a provider obtained but not written stays current with the flag as it was, and the write's error is announced with `terrain.error` and thrown |
| Terrain.EnableDisable | src/services/terrain/terrainService.ts:87-104 | enabling does nothing before a provider is loaded; disabling acts only when enabled; both pass a failed write's error on and then change nothing; a disable whose write goes through leaves terrain off; neither changes the provider |
| Terrain.DisableThenEnable | src/services/terrain/terrainService.ts:87-104 | disabling then enabling, with the writes going through, brings back the same provider |
| Terrain.EngineWiredNeverWrites | src/core/engine.ts:190 | holding what the engine passes, every write fails with or without a viewer: a load makes its provider current but never turns terrain on, and neither enable nor disable changes the flag |
| Terrain.ServiceWiredLoads | src/services/terrain/terrainService.ts:46-104 | holding the viewer service once a viewer exists, a load succeeds exactly when its provider is obtained and turns terrain on with it; enabling a loaded provider turns terrain on and disabling turns it off |
| Terrain.TerrainService.constructor | src/services/terrain/terrainService.ts:14-15 | terrain off and no provider |
| Terrain.TerrainService.LoadTerrain | src/services/terrain/terrainService.ts:46-82 | outcome, fields and effects are those of `Loaded` |
| Terrain.TerrainService.EnableTerrain | src/services/terrain/terrainService.ts:87-93 | outcome, fields and effects are those of `Enabled` |
| Terrain.TerrainService.DisableTerrain | src/services/terrain/terrainService.ts:98-104 | outcome, fields and effects are those of `Disabled` |
| Terrain.TerrainService.IsEnabled | src/services/terrain/terrainService.ts:138-140 | the flag, which implies a current provider |
| Data.Join | src/services/data/dataService.ts:122-133 | `Array.join`: the empty list gives `""`, and a non-empty one starts with its first part and ends with its last |
| Data.RowLine | src/services/data/dataService.ts:126-130 | one record's line: empty without headers, otherwise beginning and ending with a quote |
| Data.Quoted | src/services/data/dataService.ts:127-128 | a cell is its rendered value between double quotes, unescaped; `undefined` and `null` give `""` |
| Data.CsvLines | src/services/data/dataService.ts:115-131 | no records give no lines; otherwise a header of the first record's keys, then one line per record over those keys |
| Data.Csv | src/services/data/dataService.ts:115-134 | `_convertToCSV`: `""` for no records, otherwise text that starts with the header line |
| Data.FileName | src/services/data/dataService.ts:80 | the filename when truthy, otherwise `export` |
| Data.Exported | src/services/data/dataService.ts:78-109 | `exportData` returns the URL exactly when the format `switch` produced content, and then hands that content to the `Blob` and emits `data.exported` with the format and the file name; otherwise it throws the `switch`'s error and emits nothing |
| Data.CsvEmpty | src/services/data/dataService.ts:116 | an empty array gives the empty string |
| Data.CsvLineCount | src/services/data/dataService.ts:122-133 | `n` records give `n + 1` lines, so `n` line breaks when no key or cell has one |
| Data.LaterRowsUseFirstKeys | src/services/data/dataService.ts:119-131 | a record is written only through the first record's keys |
| Data.QuotesNotEscaped | src/services/data/dataService.ts:128 | an embedded double quote is written as is |
| Data.ExportDispatch | src/services/data/dataService.ts:78-109 | `csv` with non-array data, `kml` and unknown formats throw and emit nothing; the other cases return the URL and emit `data.exported` with the filename or `export` |
| Data.CsvExportContent | src/services/data/dataService.ts:87-94 | a CSV export downloads the CSV text |
| Data.SaveThenGet | src/services/data/dataService.ts:60-71 | `getData(k)` after `saveData(k, v)` is `v`, every other key reads as before, and a second save under `k` replaces the first |
| Data.Stored | src/services/data/dataService.ts:60-63 | `saveData` adds the key, binds it to the data and leaves every other key's data as it was |
| Data.Lookup | src/services/data/dataService.ts:69-71 | `getData` finds something exactly when the key is stored, and then the stored data |
| Data.DataService.SaveData | src/services/data/dataService.ts:60-63 | the store becomes `Stored` of the old one and `data.saved` is emitted |
| Data.DataService.GetData | src/services/data/dataService.ts:69-71 | the result is `Lookup` of the store |
| Data.DataService.ExportData | src/services/data/dataService.ts:78-109 | store unchanged; result and effects are those of `Exported` |
| Data.DataService.ConvertToCsv | src/services/data/dataService.ts:115-134 | the loop collects `CsvLines` and joins them into `Csv` |

## Left out

- Cesium calls: the camera's `setView`, `flyTo` and `cancelFlight`, the scene controller flags, `frustum.near`, and the viewer's terrain provider are recorded as effects or left out; the float geometry behind them is not modelled.
- Logging: `console.warn` and `console.error` output is not modelled.
- Handler reentrancy: an `on` or `off` call made by a persistent handler during `emit` is not modelled, because JavaScript iterates the live `Set`. A handler's body is reduced to two facts: whether it throws and whether it calls `once` for its own event.
- `EventBus.on` returns nothing, and there is no `clear`, although the `IEventBus` interface in src/core/types.ts promises an unsubscribe function. The model follows the code.
- `Container.has` is declared in the interface but not implemented, so it is not modelled.
- `createState` has no `reset`, although the `State` interface declares one, so it is not modelled.
- ServiceRegistry.JoinAll: when several hooks fail, it takes the first failure in launch order. `Promise.all` rejects with whichever rejection settles first in time, which the model does not capture.
- Hook bodies: each service's own `init` and `dispose` are outcomes passed in.
- Async interleaving: each async operation (`init`, `dispose`, `addLayer`, `loadTerrain`, the registry's launches) is modelled as one atomic step, and calls that overlap are not modelled. Each of these tests its state before its first `await` and updates it only after.
- Engine.InitStep: a second `init` is a no-op only once the first has settled. An `autoStart` init that overlaps an explicit `init()` passes the `_initialized` test too, and every init hook runs twice. `dispose` has the same shape. `Engine.Lifecycle` and `Engine.ReplayedFlag` are about calls that each settle before the next.
- LayerCatalog.DuplicateRefused: holds for calls that settle one after the other. Two overlapping `addLayer` calls with one id both pass the duplicate check before their `await`, and the second `set` replaces the first layer. Overlapping `loadTerrain` calls likewise both write, and the last to settle wins.
- StateCell.Notices: `update` walks the live subscriber `Set`, so a subscriber that subscribes or unsubscribes during the walk changes who gets the notice. The model's subscribers do neither, so `StateCell.NotifiedOnce` is about a subscriber set that stays fixed during `update`.
- Data.Exported: the `json` and `geojson` paths always succeed in the model. In the code, `JSON.stringify` throws for circular or BigInt data, and `exportData` then rejects without emitting anything.
- Engine.Engine.constructor: models the corrected constructor, not the source's, which always throws (see Findings): as written at `cameraService`, with "not a constructor"; with `registerInstance` alone, still at `cameraService`, with "Viewer is not created yet". A Dafny constructor cannot throw, so the model files the products as instances and has the camera and terrain services read the viewer only when they use it. The eight calls are a loop over a fixed list.
- Engine.Engine.RegisterDefaultServices: the same corrected registration as the constructor; the throwing variants are stated by `Engine.AsWrittenConstructionThrows` and `Engine.InstancesOnlyConstructionThrows` over the function model.
- Viewer creation: whether the viewer service's `init` has created the viewer is a parameter; `createViewer` and the rest of the viewer service are not part of this model.
- `_applyOptions`: an `autoStart` option makes the constructor record a pending `init` instead of calling `setTimeout`. The container and the performance and debug options do nothing in the code and are left out.
- `ApiManager`: the API manager and its `init` call are one-line delegations and are left out.
- Services record their events locally rather than on the shared bus instance. The engine's own events go through the modelled bus.
- Event payloads are reduced to the ids and values the model keeps, leaving out objects such as `{ layer }` and `{ widget }`.
- Widgets and tools are compared with JavaScript truthiness only as far as map presence goes. A falsy value stored under an id is not modelled.
- NaN: `Math.max`/`Math.min` with NaN input, and a NaN waypoint duration, are not modelled (real numbers have no NaN).
- Data.CsvLines: a header is every key `Object.keys` returns, in insertion order. JavaScript's ordering of integer-like keys first is not modelled.
- Data.Quoted: a cell's `${val}` rendering is given as text, so a cell is modelled by its rendered string.
- Data.DataService.ExportData: the `JSON.stringify` text is recorded as the data it was made from. The `Blob` and `URL.createObjectURL` are outside the model, with the URL passed in.
- CSV rows: elements of the array that are not objects are not modelled.
- `loadData` (with `fetch` and `DOMParser`) is not part of this model.
- Camera.TotalDuration: durations are exact reals, so IEEE double rounding and the non-associativity of the sum are not modelled, and `Camera.DurationAppend` holds of the model only. For the durations [0.1, 0.2, 0.3] the left fold gives 0.6000000000000001, while the first leg plus the total of the other two gives 0.1 + 0.5 = 0.6.
- Camera.DurationAppend: holds for exact reals only. Under IEEE doubles the total of two joined paths can differ from the sum of their totals in the last place, for the reason given under Camera.TotalDuration.
- Camera.CameraService.PlayAnimation: only the synchronous part is modelled: the stop, the start event, and either the start of the first flight or, with no waypoints, the `finally` block. The awaited flights, `camera.waypointReached`, the later legs and the `finally` block after them are left out. Without a viewer, the first `flyTo` reads the camera inside its promise's executor, so that promise rejects. After the first `await`, the `finally` block then emits `camera.animationCompleted` and clears the active animation, and `playAnimation` rejects. That later part is not modelled; the synchronous outcome is `Pass`.
- Camera.Played: an empty looping animation calls `playAnimation` again synchronously, without end, until the stack overflows; the model stops at that call and shows the first round only.
- StateCell.Cell.Update: a subscriber that throws ends the `forEach` and passes the exception out of `update`, after the record has changed; the model's subscribers always return, so every notice is delivered.
- The remaining CameraService operations work on the Cesium camera only and are not part of this model:
  - `setView`, `flyTo`, `lookAt`, `flyToNorth`;
  - `setHeading`, `setPitch`, `setRoll`;
  - `setZoomLimits` and `_enforceLimits`;
  - the move handlers and the `_cameraState` cell;
  - `onMoveEnd` and its sibling subscriptions.
- Terrain: `setExaggeration` and `getHeight` write to or sample the Cesium scene and are left out.
- Terrain.TerrainOptions: a `customProvider` is either absent (undefined or null) or an object. Other falsy values are not modelled.
- Camera.Saved: `Date.now()` is read twice, once for the timestamp and once for a generated id. Both readings are passed in.
- LayerService's `showLayer`, `hideLayer`, `setLayerOpacity`, the group show/hide helpers and the `_create…Layer` builders act on Cesium objects. Building a layer is an outcome passed to `addLayer`.
- Layer subclasses, the scene and viewer services and the API facades are not part of this model.

## Findings

| source | as written | input that shows it | evidently intended | confidence | as-written member | corrected member |
|---|---|---|---|---|---|---|
| src/core/serviceRegistry.ts:36 | `registerService` passes the factory's result, a service object, to `Container.register`, which files it as a constructor; the next `resolve` applies `new` to that object | `new Engine()`: the `cameraService` factory reads `this.viewerService`, whose `resolve` finds the viewer object in the constructor slot and throws a TypeError, so the constructor never completes | the factory's result is the service instance, filed with `registerInstance` | not executed | ServiceRegistry.ServiceRegistered | ServiceRegistry.ServiceInstanceRegistered |
| src/core/engine.ts:159-163 | the default registrations, run through the as-written `registerService`, stop at the third service | the eight default services with the bus already cached | all eight register and each id resolves to its own service; this needs both the `registerInstance` fix and the lazy viewer access of the next row | not executed | Engine.AsWrittenConstructionThrows | Engine.DefaultServicesRegister |
| src/services/camera/cameraService.ts:47-81 | the camera service's constructor reads `viewer.camera`, and the terrain factory (src/core/engine.ts:190) reads `viewerService.viewer`, while the engine constructor runs; the viewer getter (src/services/viewer/viewerService.ts:38-42) throws until `init` creates the viewer | `new Engine()` with the products filed by `registerInstance`: the viewer and scene services register, then the camera service's constructor throws "Viewer is not created yet" | services read the viewer when they use it, after `init` | not executed | Engine.InstancesOnlyConstructionThrows | Engine.DefaultServicesRegister |
| src/services/camera/cameraService.ts:277-336 | `enableOrbitControl` and `enableFirstPersonControl` set their own flag before reading the viewer, and `enableOrbitControl` turns first-person control off only after that read | without a viewer, `enableFirstPersonControl()` then `enableOrbitControl()`: both calls throw "Viewer is not created yet", and both controls are left on | a call that cannot reach the viewer changes no flag, so at most one control is ever on | not executed | Camera.BothControlsOn | Camera.CheckedControlsExclusive |
| src/services/camera/cameraService.ts:597-612 | `dispose` guards the listener removal with `if (this.camera)`, which reads the throwing viewer getter | `engine.dispose()` after a successful `init`: the viewer service's dispose hook starts first and destroys the viewer, so the camera service's hook throws; `dispose` publishes `engine.error`, rethrows and leaves the engine initialized | the guard tests whether a viewer exists, so `dispose` always releases the history and the animation | not executed | Engine.CameraDisposeRejects | Camera.DisposedChecked |
| src/core/engine.ts:190 | the terrain factory passes `this.viewerService.viewer`, a Cesium viewer, where `TerrainService` expects the viewer service; its `viewer` getter then reads `viewer` of a Cesium viewer, which is undefined | `loadTerrain({ provider: 'custom', customProvider: p })` with a viewer created: `p` becomes current, the write `this.viewer.terrainProvider = p` is a TypeError, `terrain.error` is emitted and terrain stays off | the factory passes `this.viewerService` | not executed | Terrain.EngineWiredNeverWrites | Terrain.ServiceWiredLoads |
