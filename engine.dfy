/** The Engine of src/core/engine.ts: it builds the container and the bus, files
    the bus as instance `events`, registers the eight default services in a fixed
    order, and runs the two-state `init` / `dispose` lifecycle. */
module Engine {
  import opened Wrappers
  import opened Ordered
  import opened Messages
  import C = Container
  import E = Events
  import R = ServiceRegistry
  import Camera

  /** One `registerService` call of `_registerDefaultServices`: its id and factory;
      its init and dispose hooks resolve the service by its own id. */
  datatype Service = Service(id: string, factory: R.Factory)

  /** The eight services, in the order the constructor registers them. The
      camera, layer, terrain and widget factories read `this.viewerService`.
      With `eager`, as written, two of them also read the Cesium viewer while
      building: the camera service's constructor reads `viewer.camera`, and the
      terrain factory passes `this.viewerService.viewer`. Without it they are
      the same services reading the viewer only when they use it. */
  function DefaultServices(eager: bool): seq<Service> {
    [ Service("viewerService", R.Factory(None, "ViewerService", false)),
      Service("sceneService", R.Factory(None, "SceneService", false)),
      Service("cameraService", R.Factory(Some("viewerService"), "CameraService", eager)),
      Service("layerService", R.Factory(Some("viewerService"), "LayerService", false)),
      Service("terrainService", R.Factory(Some("viewerService"), "TerrainService", eager)),
      Service("widgetService", R.Factory(Some("viewerService"), "WidgetService", false)),
      Service("toolService", R.Factory(None, "ToolService", false)),
      Service("dataService", R.Factory(None, "DataService", false)) ]
  }

  function Ids(svcs: seq<Service>): (r: seq<string>)
    ensures |r| == |svcs| && forall i :: 0 <= i < |svcs| ==> r[i] == svcs[i].id
  {
    seq(|svcs|, i requires 0 <= i < |svcs| => svcs[i].id)
  }

  /** The container right after `registerInstance('events', this.events)`. */
  function Started(): (s: C.Store)
    ensures C.ValidStore(s)
  {
    C.WithInstance(C.EmptyStore(), "events", C.Object("events"))
  }

  function NoHooks(): (h: R.Hooks)
    ensures R.ValidHooks(h)
  {
    R.Hooks(EmptyMap(), EmptyMap())
  }

  /** `registerService` calls one after the other; the first that throws ends the
      sequence (and the Engine constructor with it). `asInstance` selects the
      corrected registration; `false` is the code as written. `viewerCreated`
      is whether the viewer exists while they run. */
  function RegisterAll(s: C.Store, h: R.Hooks, svcs: seq<Service>, asInstance: bool, viewerCreated: bool): (r: R.Registration)
    requires C.ValidStore(s)
    ensures C.ValidStore(r.store)
    decreases |svcs|
  {
    if svcs == [] then R.Registration(Pass, s, h)
    else
      var v := svcs[0];
      var g := if asInstance then R.ServiceInstanceRegistered(s, h, v.id, v.factory, Some(R.Hook(v.id)), Some(R.Hook(v.id)), viewerCreated)
               else R.ServiceRegistered(s, h, v.id, v.factory, Some(R.Hook(v.id)), Some(R.Hook(v.id)), viewerCreated);
      if g.result.Fail? then g else RegisterAll(g.store, g.hooks, svcs[1..], asInstance, viewerCreated)
  }

  /** No factory of `svcs` reads a viewer that does not exist. */
  ghost predicate ViewerReady(svcs: seq<Service>, viewerCreated: bool) {
    forall i :: 0 <= i < |svcs| && svcs[i].factory.readsViewer ==> viewerCreated
  }

  /** Every service whose factory depends on another comes after it, or finds it
      already in the container. */
  ghost predicate DepsFirst(s: C.Store, svcs: seq<Service>) {
    forall i :: 0 <= i < |svcs| && svcs[i].factory.dep.Some? ==>
      svcs[i].factory.dep.value in s.instances || svcs[i].factory.dep.value in Ids(svcs[..i])
  }

  /** Each hook filed under a service id resolves that same service. */
  ghost predicate SelfHooked(m: OMap<string, R.Hook>) {
    forall k :: k in m.entries ==> m.entries[k] == R.Hook(k)
  }

  /** One corrected registration whose dependency is already cached. */
  lemma OneInstance(s: C.Store, h: R.Hooks, v: Service, viewerCreated: bool)
    requires C.ValidStore(s)
    requires v.factory.dep.Some? ==> v.factory.dep.value in s.instances
    requires v.factory.readsViewer ==> viewerCreated
    ensures var g := R.ServiceInstanceRegistered(s, h, v.id, v.factory, Some(R.Hook(v.id)), Some(R.Hook(v.id)), viewerCreated);
      && g.result == Pass
      && g.store == C.WithInstance(s, v.id, C.Object(v.factory.product))
      && g.hooks == R.Hooks(h.initializers.Put(v.id, R.Hook(v.id)), h.disposers.Put(v.id, R.Hook(v.id)))
  {
  }

  /** The dependencies of `svcs[1..]` still come first once `svcs[0]` is cached. */
  lemma DepsFirstTail(s: C.Store, s': C.Store, svcs: seq<Service>)
    requires |svcs| > 0 && DepsFirst(s, svcs)
    requires s.instances.Keys + {svcs[0].id} <= s'.instances.Keys
    ensures DepsFirst(s', svcs[1..])
  {
    var rest := svcs[1..];
    forall i | 0 <= i < |rest| && rest[i].factory.dep.Some?
      ensures rest[i].factory.dep.value in s'.instances || rest[i].factory.dep.value in Ids(rest[..i])
    {
      assert rest[i] == svcs[i + 1];
      assert Ids(svcs[..i + 1]) == [svcs[0].id] + Ids(rest[..i]);
    }
  }

  lemma NoDupTail(svcs: seq<Service>)
    requires |svcs| > 0 && NoDup(Ids(svcs))
    ensures NoDup(Ids(svcs[1..]))
    ensures forall i :: 1 <= i < |svcs| ==> svcs[i].id != svcs[0].id
  {
    var rest := svcs[1..];
    forall i, j | 0 <= i < j < |rest| ensures Ids(rest)[i] != Ids(rest)[j] {
      assert Ids(svcs)[i + 1] == Ids(rest)[i] && Ids(svcs)[j + 1] == Ids(rest)[j];
    }
    forall i | 1 <= i < |svcs| ensures svcs[i].id != svcs[0].id {
      assert Ids(svcs)[0] == svcs[0].id && Ids(svcs)[i] == svcs[i].id;
    }
  }

  /** With the corrected registration, a sequence of services with distinct ids,
      whose dependencies come first and which read no viewer before it exists,
      registers without error: each id resolves to its own service object and
      nothing cached before is lost. */
  lemma {:induction false} RegisterAllInstances(s: C.Store, h: R.Hooks, svcs: seq<Service>, viewerCreated: bool)
    requires C.ValidStore(s) && DepsFirst(s, svcs) && NoDup(Ids(svcs)) && ViewerReady(svcs, viewerCreated)
    ensures var r := RegisterAll(s, h, svcs, true, viewerCreated);
      && r.result == Pass
      && (forall i :: 0 <= i < |svcs| ==>
            svcs[i].id in r.store.instances && r.store.instances[svcs[i].id] == C.Object(svcs[i].factory.product))
      && (forall n :: n in s.instances && n !in Ids(svcs) ==> n in r.store.instances && r.store.instances[n] == s.instances[n])
      && (forall n :: n in r.store.instances ==> n in s.instances || n in Ids(svcs))
    decreases |svcs|
  {
    if svcs != [] {
      var v := svcs[0];
      var rest := svcs[1..];
      var g := R.ServiceInstanceRegistered(s, h, v.id, v.factory, Some(R.Hook(v.id)), Some(R.Hook(v.id)), viewerCreated);
      RegisterHead(s, h, svcs, viewerCreated);
      RegisterAllInstances(g.store, g.hooks, rest, viewerCreated);
      var r := RegisterAll(g.store, g.hooks, rest, true, viewerCreated);
      assert r == RegisterAll(s, h, svcs, true, viewerCreated);
      forall i | 0 <= i < |svcs|
        ensures svcs[i].id in r.store.instances && r.store.instances[svcs[i].id] == C.Object(svcs[i].factory.product)
      {
        if i > 0 {
          assert svcs[i] == rest[i - 1];
        }
      }
      forall n | n in s.instances && n !in Ids(svcs)
        ensures n in r.store.instances && r.store.instances[n] == s.instances[n]
      {
        assert n != v.id && n !in Ids(rest);
      }
      forall n | n in r.store.instances ensures n in s.instances || n in Ids(svcs) {
        assert n in g.store.instances || n in Ids(rest);
      }
    }
  }

  /** The first step of `RegisterAllInstances`: the head registers, and the
      rest of the services still meet the lemma's requirements. */
  lemma RegisterHead(s: C.Store, h: R.Hooks, svcs: seq<Service>, viewerCreated: bool)
    requires C.ValidStore(s) && DepsFirst(s, svcs) && NoDup(Ids(svcs)) && ViewerReady(svcs, viewerCreated)
    requires svcs != []
    ensures var v := svcs[0];
      var g := R.ServiceInstanceRegistered(s, h, v.id, v.factory, Some(R.Hook(v.id)), Some(R.Hook(v.id)), viewerCreated);
      && g.result == Pass && g.store == C.WithInstance(s, v.id, C.Object(v.factory.product))
      && Ids(svcs) == [v.id] + Ids(svcs[1..])
      && DepsFirst(g.store, svcs[1..]) && NoDup(Ids(svcs[1..])) && ViewerReady(svcs[1..], viewerCreated)
      && RegisterAll(s, h, svcs, true, viewerCreated) == RegisterAll(g.store, g.hooks, svcs[1..], true, viewerCreated)
  {
    var v := svcs[0];
    var rest := svcs[1..];
    assert Ids(svcs) == [v.id] + Ids(rest);
    if v.factory.dep.Some? {
      assert Ids(svcs[..0]) == [];
    }
    OneInstance(s, h, v, viewerCreated);
    var g := R.ServiceInstanceRegistered(s, h, v.id, v.factory, Some(R.Hook(v.id)), Some(R.Hook(v.id)), viewerCreated);
    DepsFirstTail(s, g.store, svcs);
    NoDupTail(svcs);
    assert ViewerReady(rest, viewerCreated) by {
      forall i | 0 <= i < |rest| ensures rest[i] == svcs[i + 1] { }
    }
  }

  /** As written, when the first two services need nothing and the third resolves
      the first, registration stops at the third: the first product sits in the
      constructor slot, and `new` is applied to it. */
  lemma AsWrittenThirdThrows(s: C.Store, h: R.Hooks, svcs: seq<Service>, viewerCreated: bool)
    requires C.ValidStore(s) && |svcs| >= 3
    requires svcs[0].factory.dep.None? && svcs[1].factory.dep.None?
    requires !svcs[0].factory.readsViewer && !svcs[1].factory.readsViewer
    requires svcs[2].factory.dep == Some(svcs[0].id)
    requires svcs[0].id !in s.instances && svcs[1].id != svcs[0].id
    ensures RegisterAll(s, h, svcs, false, viewerCreated).result == Fail(NotAConstructor(svcs[0].id))
  {
    var v0, v1, v2 := svcs[0], svcs[1], svcs[2];
    var g0 := R.ServiceRegistered(s, h, v0.id, v0.factory, Some(R.Hook(v0.id)), Some(R.Hook(v0.id)), viewerCreated);
    assert g0.result == Pass;
    var g1 := R.ServiceRegistered(g0.store, g0.hooks, v1.id, v1.factory, Some(R.Hook(v1.id)), Some(R.Hook(v1.id)), viewerCreated);
    assert g1.result == Pass;
    assert v0.id !in g1.store.instances;
    assert g1.store.constructors[v0.id] == C.Object(v0.factory.product);
    var g2 := R.ServiceRegistered(g1.store, g1.hooks, v2.id, v2.factory, Some(R.Hook(v2.id)), Some(R.Hook(v2.id)), viewerCreated);
    assert g2.result == Fail(NotAConstructor(v0.id));
    assert svcs[1..][0] == v1 && svcs[1..][1..][0] == v2;
    assert RegisterAll(g1.store, g1.hooks, svcs[1..][1..], false, viewerCreated) == g2;
    assert RegisterAll(g0.store, g0.hooks, svcs[1..], false, viewerCreated) ==
      RegisterAll(g1.store, g1.hooks, svcs[1..][1..], false, viewerCreated);
  }

  /** The constructor, as the code is written, never completes: the viewer and
      scene products are filed as constructors, and the camera factory's
      `this.viewerService` then applies `new` to the viewer object. */
  lemma AsWrittenConstructionThrows()
    ensures RegisterAll(Started(), NoHooks(), DefaultServices(true), false, false).result == Fail(NotAConstructor("viewerService"))
  {
    assert IdSignature("sceneService") != IdSignature("viewerService");
    AsWrittenThirdThrows(Started(), NoHooks(), DefaultServices(true), false);
  }

  /** With corrected registration, when the first two services need nothing
      and the third resolves the first and reads a viewer that does not exist,
      registration stops at the third with the viewer getter's error, after the
      first two are cached. */
  lemma InstanceThirdThrows(s: C.Store, h: R.Hooks, svcs: seq<Service>)
    requires C.ValidStore(s) && |svcs| >= 3
    requires svcs[0].factory.dep.None? && svcs[1].factory.dep.None?
    requires !svcs[0].factory.readsViewer && !svcs[1].factory.readsViewer
    requires svcs[2].factory.dep == Some(svcs[0].id) && svcs[2].factory.readsViewer
    ensures var r := RegisterAll(s, h, svcs, true, false);
      && r.result == Fail(ViewerNotCreated)
      && svcs[0].id in r.store.instances && svcs[1].id in r.store.instances
      && (svcs[2].id !in s.instances && svcs[2].id != svcs[0].id && svcs[2].id != svcs[1].id ==>
            svcs[2].id !in r.store.instances)
  {
    var v0, v1, v2 := svcs[0], svcs[1], svcs[2];
    var g0 := R.ServiceInstanceRegistered(s, h, v0.id, v0.factory, Some(R.Hook(v0.id)), Some(R.Hook(v0.id)), false);
    assert g0.result == Pass;
    var g1 := R.ServiceInstanceRegistered(g0.store, g0.hooks, v1.id, v1.factory, Some(R.Hook(v1.id)), Some(R.Hook(v1.id)), false);
    assert g1.result == Pass;
    assert v0.id in g1.store.instances;
    var g2 := R.ServiceInstanceRegistered(g1.store, g1.hooks, v2.id, v2.factory, Some(R.Hook(v2.id)), Some(R.Hook(v2.id)), false);
    assert g2.result == Fail(ViewerNotCreated) && g2.store == g1.store;
    assert svcs[1..][0] == v1 && svcs[1..][1..][0] == v2;
    assert RegisterAll(g1.store, g1.hooks, svcs[1..][1..], true, false) == g2;
    assert RegisterAll(g0.store, g0.hooks, svcs[1..], true, false) == RegisterAll(g1.store, g1.hooks, svcs[1..][1..], true, false);
  }

  /** Filing the products as instances is not enough on its own: the viewer and
      scene services register, then the camera service's constructor reads the
      viewer before any `init` has created it, and the constructor throws. */
  lemma InstancesOnlyConstructionThrows()
    ensures var r := RegisterAll(Started(), NoHooks(), DefaultServices(true), true, false);
      && r.result == Fail(ViewerNotCreated)
      && "viewerService" in r.store.instances && "sceneService" in r.store.instances
      && "cameraService" !in r.store.instances
  {
    assert IdSignature("cameraService") != IdSignature("viewerService") && IdSignature("cameraService") != IdSignature("sceneService");
    assert IdSignature("cameraService") != IdSignature("events");
    InstanceThirdThrows(Started(), NoHooks(), DefaultServices(true));
  }

  /** With the corrected registration the eight default services register
      without error after the bus, when the camera and terrain services read the
      viewer only once they use it, or when the viewer already exists. */
  lemma DefaultServicesRegister(eager: bool)
    ensures RegisterAll(Started(), NoHooks(), DefaultServices(false), true, false).result == Pass
    ensures RegisterAll(Started(), NoHooks(), DefaultServices(eager), true, true).result == Pass
  {
    DefaultServicesOrdered(false);
    RegisterAllInstances(Started(), NoHooks(), DefaultServices(false), false);
    DefaultServicesOrdered(eager);
    RegisterAllInstances(Started(), NoHooks(), DefaultServices(eager), true);
  }

  /** The first `k` services of `svcs` are registered, as instances, after the
      bus: each one is cached as its own object, the bus is still cached as
      `events`, and their init and dispose hooks are filed under their ids in
      registration order. */
  ghost predicate RegisteredUpTo(svcs: seq<Service>, s: C.Store, h: R.Hooks, k: nat) {
    && k <= |svcs| && C.ValidStore(s) && R.ValidHooks(h)
    && (forall i :: 0 <= i < k ==>
          svcs[i].id in s.instances && s.instances[svcs[i].id] == C.Object(svcs[i].factory.product))
    && "events" in s.instances && s.instances["events"] == C.Object("events")
    && h.initializers.keys == Ids(svcs[..k]) && h.disposers.keys == Ids(svcs[..k])
    && SelfHooked(h.initializers) && SelfHooked(h.disposers)
  }

  /** What the constructor leaves behind. */
  ghost predicate Booted(s: C.Store, h: R.Hooks) {
    RegisteredUpTo(DefaultServices(false), s, h, |DefaultServices(false)|)
  }

  /** The id of `svcs[k]` is not among those before it. */
  lemma FreshId(svcs: seq<Service>, k: nat)
    requires NoDup(Ids(svcs)) && k < |svcs|
    ensures svcs[k].id !in Ids(svcs[..k]) && Ids(svcs[..k + 1]) == Ids(svcs[..k]) + [svcs[k].id]
    ensures forall i :: 0 <= i < k ==> svcs[i].id != svcs[k].id
  {
    var ids := Ids(svcs[..k]);
    forall i | 0 <= i < |ids| ensures ids[i] != svcs[k].id {
      assert ids[i] == Ids(svcs)[i] && svcs[k].id == Ids(svcs)[k];
    }
    forall i | 0 <= i < k ensures svcs[i].id != svcs[k].id {
      assert svcs[i].id == Ids(svcs)[i] && svcs[k].id == Ids(svcs)[k];
    }
  }

  /** The dependency of `svcs[k]`, if any, is already cached. */
  lemma DepCached(svcs: seq<Service>, s: C.Store, h: R.Hooks, k: nat)
    requires DepsFirst(Started(), svcs) && RegisteredUpTo(svcs, s, h, k) && k < |svcs|
    ensures svcs[k].factory.dep.Some? ==> svcs[k].factory.dep.value in s.instances
  {
    var v := svcs[k];
    if v.factory.dep.Some? && v.factory.dep.value !in Started().instances {
      var ids := Ids(svcs[..k]);
      assert v.factory.dep.value in ids;
      var i :| 0 <= i < |ids| && ids[i] == v.factory.dep.value;
      assert svcs[..k][i] == svcs[i];
    }
  }

  /** One more corrected registration keeps `RegisteredUpTo`. */
  lemma BootStep(svcs: seq<Service>, s: C.Store, h: R.Hooks, k: nat, viewerCreated: bool)
    requires DepsFirst(Started(), svcs) && NoDup(Ids(svcs)) && "events" !in Ids(svcs)
    requires ViewerReady(svcs, viewerCreated)
    requires RegisteredUpTo(svcs, s, h, k) && k < |svcs|
    ensures var v := svcs[k];
      var g := R.ServiceInstanceRegistered(s, h, v.id, v.factory, Some(R.Hook(v.id)), Some(R.Hook(v.id)), viewerCreated);
      g.result == Pass && RegisteredUpTo(svcs, g.store, g.hooks, k + 1)
  {
    var v := svcs[k];
    DepCached(svcs, s, h, k);
    assert v.factory.readsViewer ==> viewerCreated;
    OneInstance(s, h, v, viewerCreated);
    RegisteredGrow(svcs, s, h, k);
  }

  /** Caching `svcs[k]` and filing its two hooks extends `RegisteredUpTo` by one. */
  lemma RegisteredGrow(svcs: seq<Service>, s: C.Store, h: R.Hooks, k: nat)
    requires NoDup(Ids(svcs)) && "events" !in Ids(svcs)
    requires RegisteredUpTo(svcs, s, h, k) && k < |svcs|
    ensures var v := svcs[k];
      RegisteredUpTo(svcs, C.WithInstance(s, v.id, C.Object(v.factory.product)),
                     R.Hooks(h.initializers.Put(v.id, R.Hook(v.id)), h.disposers.Put(v.id, R.Hook(v.id))), k + 1)
  {
    FreshId(svcs, k);
    assert svcs[k].id != "events" by {
      assert svcs[k].id == Ids(svcs)[k];
    }
  }

  /** An id's length and first letter: the proofs that service ids are
      distinct compare these instead of whole strings. */
  function IdSignature(id: string): (int, char) {
    if id == [] then (0, ' ') else (|id|, id[0])
  }

  lemma DefaultDepsFirst(eager: bool)
    ensures DepsFirst(Started(), DefaultServices(eager))
  {
    var d := DefaultServices(eager);
    assert Ids(d[..1]) == ["viewerService"];
    forall i | 2 <= i < |d| ensures "viewerService" in Ids(d[..i]) {
      assert Ids(d[..i])[0] == "viewerService";
    }
  }

  lemma DefaultIdsDistinct(eager: bool)
    ensures NoDup(Ids(DefaultServices(eager))) && "events" !in Ids(DefaultServices(eager))
  {
    var ids := Ids(DefaultServices(eager));
    var tags := [(13, 'v'), (12, 's'), (13, 'c'), (12, 'l'), (14, 't'), (13, 'w'), (11, 't'), (11, 'd')];
    assert forall i :: 0 <= i < |ids| ==> IdSignature(ids[i]) == tags[i];
    assert IdSignature("events") == (6, 'e');
  }

  lemma DefaultServicesOrdered(eager: bool)
    ensures DepsFirst(Started(), DefaultServices(eager)) && NoDup(Ids(DefaultServices(eager)))
    ensures "events" !in Ids(DefaultServices(eager))
    ensures ViewerReady(DefaultServices(eager), true) && (!eager ==> ViewerReady(DefaultServices(eager), false))
  {
    DefaultDepsFirst(eager);
    DefaultIdsDistinct(eager);
    var d := DefaultServices(eager);
    assert forall i :: 0 <= i < |d| ==> d[i].factory.readsViewer == (eager && (i == 2 || i == 4));
  }

  /** Once all of `svcs` are registered, the init and the dispose hooks are
      theirs, in registration order, and each names a cached service. */
  lemma RegisteredHooks(svcs: seq<Service>, s: C.Store, h: R.Hooks, hs: OMap<string, R.Hook>)
    requires RegisteredUpTo(svcs, s, h, |svcs|) && (hs == h.initializers || hs == h.disposers)
    ensures hs.Valid() && |hs.Values()| == |svcs|
    ensures forall i :: 0 <= i < |svcs| ==> hs.Values()[i] == R.Hook(svcs[i].id) && svcs[i].id in s.instances
  {
    assert svcs[..|svcs|] == svcs;
  }

  /** Once all of `svcs` are registered, every one is already cached, so the init
      (or dispose) launch resolves nothing new, starts their hooks in
      registration order, and comes out fulfilled exactly when every one of
      them does. */
  lemma RegisteredLaunch(svcs: seq<Service>, s: C.Store, h: R.Hooks, settle: string -> Outcome<Error>, dispose: bool)
    requires RegisteredUpTo(svcs, s, h, |svcs|)
    ensures var hs := if dispose then h.disposers else h.initializers;
      && hs.Valid()
      && (forall i :: 0 <= i < |hs.Values()| ==> hs.Values()[i] == R.Hook(Ids(svcs)[i]))
      && R.Launched(s, hs.Values(), settle).1 == s
      && (R.JoinAll(R.Launched(s, hs.Values(), settle).0).Pass? <==>
          forall i :: 0 <= i < |svcs| ==> settle(svcs[i].id).Pass?)
  {
    var hs := if dispose then h.disposers else h.initializers;
    RegisteredHooks(svcs, s, h, hs);
    var vs := hs.Values();
    assert forall i :: 0 <= i < |vs| ==> vs[i].service == svcs[i].id;
    R.LaunchedJoin(s, vs, settle);
  }

  /** The same for the engine's own services once the constructor is done. */
  lemma BootedLaunch(s: C.Store, h: R.Hooks, settle: string -> Outcome<Error>, dispose: bool)
    requires Booted(s, h)
    ensures var hs := if dispose then h.disposers else h.initializers;
      && hs.Valid()
      && (forall i :: 0 <= i < |hs.Values()| ==> hs.Values()[i] == R.Hook(Ids(DefaultServices(false))[i]))
      && R.Launched(s, hs.Values(), settle).1 == s
      && (R.JoinAll(R.Launched(s, hs.Values(), settle).0).Pass? <==>
          forall i :: 0 <= i < |DefaultServices(false)| ==> settle(DefaultServices(false)[i].id).Pass?)
  {
    RegisteredLaunch(DefaultServices(false), s, h, settle, dispose);
  }

  /** `dispose` on a booted engine never completes. The dispose hooks start in
      registration order, and each runs its service's `dispose` before its
      first `await`: the viewer service's, first, destroys the viewer, so the
      camera service's, third, reads the viewer getter with no viewer and
      throws, whatever state the camera is in. The launch is rejected, `dispose`
      publishes `engine.error` and rethrows, and the engine stays initialized. */
  lemma CameraDisposeRejects(s: C.Store, h: R.Hooks, rig: Camera.Rig, settle: string -> Outcome<Error>)
    requires Booted(s, h)
    requires settle("cameraService") == Camera.Disposed(rig, false).outcome
    ensures h.disposers.Valid() && |h.disposers.Values()| == 8
    ensures h.disposers.Values()[0] == R.Hook("viewerService") && h.disposers.Values()[2] == R.Hook("cameraService")
    ensures var joined := R.JoinAll(R.Launched(s, h.disposers.Values(), settle).0);
      && joined.Fail?
      && DisposeStep(true, joined) == Step(joined, true, [("engine.error", ErrorData(joined.error))])
  {
    BootedDisposers(s, h);
    BootedDisposeFails(s, h, settle);
  }

  /** A booted engine's dispose hooks are its eight services', the viewer
      service's first and the camera service's third. */
  lemma BootedDisposers(s: C.Store, h: R.Hooks)
    requires Booted(s, h)
    ensures h.disposers.Valid() && |h.disposers.Values()| == 8
    ensures h.disposers.Values()[0] == R.Hook("viewerService") && h.disposers.Values()[2] == R.Hook("cameraService")
  {
    RegisteredHooks(DefaultServices(false), s, h, h.disposers);
  }

  /** A booted engine's dispose launch is rejected when the camera service's
      hook is. */
  lemma BootedDisposeFails(s: C.Store, h: R.Hooks, settle: string -> Outcome<Error>)
    requires Booted(s, h) && settle("cameraService").Fail?
    ensures R.JoinAll(R.Launched(s, h.disposers.Values(), settle).0).Fail?
  {
    BootedDisposers(s, h);
    var d := DefaultServices(false);
    RegisteredHooks(d, s, h, h.disposers);
    R.OneFailureRejects(s, h.disposers.Values(), settle, 2);
  }

  /** What `init` returns and publishes, given the outcome of the registry's
      launch. */
  datatype Step = Step(result: Outcome<Error>, initialized: bool, published: seq<(string, Payload)>)

  function InitStep(initialized: bool, services: Outcome<Error>): (r: Step)
    ensures initialized ==> r == Step(Pass, true, [])
    ensures !initialized && services.Pass? ==>
      r == Step(Pass, true, [("services.initialized", NoData), ("engine.initialized", NoData)])
    ensures !initialized && services.Fail? ==>
      r == Step(services, false, [("engine.error", ErrorData(services.error))])
  {
    if initialized then Step(Pass, true, [])
    else if services.Fail? then Step(services, false, [("engine.error", ErrorData(services.error))])
    else Step(Pass, true, [("services.initialized", NoData), ("engine.initialized", NoData)])
  }

  function DisposeStep(initialized: bool, services: Outcome<Error>): (r: Step)
    ensures !initialized ==> r == Step(Pass, false, [])
    ensures initialized && services.Pass? ==>
      r == Step(Pass, false, [("services.disposed", NoData), ("engine.disposed", NoData)])
    ensures initialized && services.Fail? ==>
      r == Step(services, true, [("engine.error", ErrorData(services.error))])
  {
    if !initialized then Step(Pass, false, [])
    else if services.Fail? then Step(services, true, [("engine.error", ErrorData(services.error))])
    else Step(Pass, false, [("services.disposed", NoData), ("engine.disposed", NoData)])
  }

  /** The flag always reports whether the last state-changing call was a
      successful `init`: a failed call leaves it where it was, and `dispose`
      after `init` goes back to the start. */
  lemma Lifecycle(a: Outcome<Error>, b: Outcome<Error>, c: Outcome<Error>)
    ensures InitStep(InitStep(false, a).initialized, b).initialized == a.Pass? || b.Pass?
    ensures InitStep(false, a).result.Fail? <==> !InitStep(false, a).initialized
    ensures DisposeStep(InitStep(false, Pass).initialized, c).initialized == c.Fail?
    ensures DisposeStep(DisposeStep(true, Pass).initialized, c) == Step(Pass, false, [])
    ensures forall x :: InitStep(InitStep(false, Pass).initialized, x) == Step(Pass, true, [])
  {
  }

  /** One call of the lifecycle, with the outcome its registry launch would
      have if it ran. */
  datatype Call = InitCall(services: Outcome<Error>) | DisposeCall(services: Outcome<Error>)

  /** The `_initialized` flag after `calls`, made in order on a new engine. */
  function Replayed(calls: seq<Call>): bool
    decreases |calls|
  {
    if calls == [] then false
    else
      var before := Replayed(calls[..|calls| - 1]);
      match calls[|calls| - 1]
      case InitCall(o) => InitStep(before, o).initialized
      case DisposeCall(o) => DisposeStep(before, o).initialized
  }

  /** Some `init` whose services all came up has no `dispose` whose services
      all went down after it. */
  ghost predicate InitializedBy(calls: seq<Call>) {
    exists i :: 0 <= i < |calls| && calls[i] == InitCall(Pass) &&
      forall j :: i < j < |calls| ==> calls[j] != DisposeCall(Pass)
  }

  /** Over any sequence of calls, the flag is set exactly when some successful
      `init` has not been followed by a successful `dispose`: failed calls and
      calls in the wrong state leave it alone. */
  lemma {:induction false} ReplayedFlag(calls: seq<Call>)
    ensures Replayed(calls) <==> InitializedBy(calls)
    decreases |calls|
  {
    if calls != [] {
      var init, last := calls[..|calls| - 1], calls[|calls| - 1];
      ReplayedFlag(init);
      if InitializedBy(init) && last != DisposeCall(Pass) {
        var i :| 0 <= i < |init| && init[i] == InitCall(Pass) &&
          forall j :: i < j < |init| ==> init[j] != DisposeCall(Pass);
        assert calls[i] == init[i];
        assert forall j :: i < j < |calls| ==> calls[j] != DisposeCall(Pass) by {
          forall j | i < j < |calls| ensures calls[j] != DisposeCall(Pass) {
            if j < |init| {
              assert calls[j] == init[j];
            }
          }
        }
      }
      if InitializedBy(calls) && last != InitCall(Pass) {
        var i :| 0 <= i < |calls| && calls[i] == InitCall(Pass) &&
          forall j :: i < j < |calls| ==> calls[j] != DisposeCall(Pass);
        assert i < |init|;
        assert init[i] == calls[i];
        assert last != DisposeCall(Pass) by {
          assert calls[|calls| - 1] == last;
        }
        assert forall j :: i < j < |init| ==> init[j] != DisposeCall(Pass) by {
          forall j | i < j < |init| ensures init[j] != DisposeCall(Pass) {
            assert init[j] == calls[j];
          }
        }
      }
      if last == InitCall(Pass) {
        assert calls[|calls| - 1] == InitCall(Pass);
      }
    }
  }

  class Engine {
    const container: C.Container
    const events: E.EventBus<Payload>
    const registry: R.ServiceRegistry
    var initialized: bool
    /** `autoStart` defers `init` with `setTimeout(…, 0)`; the model records that a
        call is pending instead of running it. */
    var initScheduled: bool

    ghost predicate Valid()
      reads this, registry, container, events
    {
      registry.container == container && registry.events == events && registry.Valid()
    }

    constructor(autoStart: bool)
      ensures Valid() && fresh(container) && fresh(events) && fresh(registry)
      ensures Booted(container.State(), registry.hooks)
      ensures events.State() == E.Bus(map[], map[]) && events.published == []
      ensures !initialized && initScheduled == autoStart
    {
      var c := new C.Container();
      var b := new E.EventBus<Payload>();
      c.RegisterInstance("events", C.Object("events"));
      var reg := new R.ServiceRegistry(c, b);
      container, events, registry := c, b, reg;
      initialized := false;
      initScheduled := autoStart;
      new;
      RegisterDefaultServices();
    }

    /** `_registerDefaultServices`, with each product filed as an instance and
        the viewer read only once it exists: the eight `registerService` calls,
        in order, while no viewer has been created. */
    method RegisterDefaultServices()
      requires Valid() && container.State() == Started() && registry.hooks == NoHooks()
      modifies registry, container
      ensures Valid() && unchanged(events)
      ensures Booted(container.State(), registry.hooks)
    {
      var d := DefaultServices(false);
      DefaultServicesOrdered(false);
      for k := 0 to |d|
        invariant Valid() && unchanged(events)
        invariant RegisteredUpTo(d, container.State(), registry.hooks, k)
      {
        RegisterDefault(d, k);
      }
    }

    /** The `registerService` call for the `k`-th service of `svcs`. */
    method RegisterDefault(svcs: seq<Service>, k: nat)
      requires Valid() && DepsFirst(Started(), svcs) && NoDup(Ids(svcs)) && "events" !in Ids(svcs)
      requires ViewerReady(svcs, false)
      requires k < |svcs| && RegisteredUpTo(svcs, container.State(), registry.hooks, k)
      modifies registry, container
      ensures Valid() && unchanged(events)
      ensures RegisteredUpTo(svcs, container.State(), registry.hooks, k + 1)
    {
      var v := svcs[k];
      BootStep(svcs, container.State(), registry.hooks, k, false);
      var _ := registry.RegisterServiceInstance(v.id, v.factory, Some(R.Hook(v.id)), Some(R.Hook(v.id)), false);
    }

    /** A getter such as `viewerService`: a `resolve` on the container. */
    method Service(id: string) returns (r: Result<C.Value, Error>)
      requires Valid()
      modifies container
      ensures Valid()
      ensures r == C.Resolved(old(container.State()), id).result
      ensures container.State() == C.Resolved(old(container.State()), id).after
    {
      r := container.Resolve(id);
    }

    /** `init`; `settle(id)` is how the init hook of service `id` ends. The call
        to the API manager's `init` does nothing. */
    method Init(settle: string -> Outcome<Error>) returns (r: Outcome<Error>)
      requires Valid()
      modifies this, container, events
      ensures Valid() && initScheduled == old(initScheduled)
      ensures var launch := R.Launched(old(container.State()), registry.hooks.initializers.Values(), settle);
        var services := R.JoinAll(launch.0);
        var step := InitStep(old(initialized), services);
        && r == step.result && initialized == step.initialized
        && events.published == old(events.published) + step.published
        && container.State() == (if old(initialized) then old(container.State()) else launch.1)
      ensures old(initialized) ==> events.State() == old(events.State())
      ensures !old(initialized) && r.Fail? ==> events.State() == E.Emitted(old(events.State()), "engine.error")
      ensures !old(initialized) && r.Pass? ==>
        events.State() == E.Emitted(E.Emitted(old(events.State()), "services.initialized"), "engine.initialized")
    {
      if initialized {
        return Pass;
      }
      ghost var launch := R.Launched(container.State(), registry.hooks.initializers.Values(), settle);
      ghost var p0 := events.published;
      r := registry.InitServices(settle);
      assert r == R.JoinAll(launch.0) && container.State() == launch.1;
      if r.Fail? {
        assert events.published == p0;
        var _, _ := events.Emit("engine.error", ErrorData(r.error));
        assert events.published == p0 + [("engine.error", ErrorData(r.error))];
        return r;
      }
      assert events.published == p0 + [("services.initialized", NoData)];
      initialized := true;
      var _, _ := events.Emit("engine.initialized", NoData);
      assert events.published == p0 + [("services.initialized", NoData), ("engine.initialized", NoData)];
    }

    /** `dispose`; `settle(id)` is how the dispose hook of service `id` ends. */
    method Dispose(settle: string -> Outcome<Error>) returns (r: Outcome<Error>)
      requires Valid()
      modifies this, container, events
      ensures Valid() && initScheduled == old(initScheduled)
      ensures var launch := R.Launched(old(container.State()), registry.hooks.disposers.Values(), settle);
        var services := R.JoinAll(launch.0);
        var step := DisposeStep(old(initialized), services);
        && r == step.result && initialized == step.initialized
        && events.published == old(events.published) + step.published
        && container.State() == (if old(initialized) then launch.1 else old(container.State()))
      ensures !old(initialized) ==> events.State() == old(events.State())
      ensures old(initialized) && r.Fail? ==> events.State() == E.Emitted(old(events.State()), "engine.error")
      ensures old(initialized) && r.Pass? ==>
        events.State() == E.Emitted(E.Emitted(old(events.State()), "services.disposed"), "engine.disposed")
    {
      if !initialized {
        return Pass;
      }
      ghost var launch := R.Launched(container.State(), registry.hooks.disposers.Values(), settle);
      ghost var p0 := events.published;
      r := registry.DisposeServices(settle);
      assert r == R.JoinAll(launch.0) && container.State() == launch.1;
      if r.Fail? {
        assert events.published == p0;
        var _, _ := events.Emit("engine.error", ErrorData(r.error));
        assert events.published == p0 + [("engine.error", ErrorData(r.error))];
        return r;
      }
      assert events.published == p0 + [("services.disposed", NoData)];
      initialized := false;
      var _, _ := events.Emit("engine.disposed", NoData);
      assert events.published == p0 + [("services.disposed", NoData), ("engine.disposed", NoData)];
    }
  }
}
