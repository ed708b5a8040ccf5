/** The service registry of src/core/serviceRegistry.ts: it files each service's
    product in the container and keeps the optional init and dispose hooks, in
    registration order, for `initServices` and `disposeServices`. */
module ServiceRegistry {
  import opened Wrappers
  import opened Ordered
  import opened Messages
  import C = Container
  import E = Events

  /** A service factory of the engine: it resolves at most one other service from
      the container (the engine's factories use `this.viewerService`, which is a
      `resolve`), then returns a new service object. `readsViewer` says whether
      the factory, or the constructor it calls, reads the Cesium viewer from the
      resolved viewer service while building the service; that getter throws
      until the viewer service's `init` has created the viewer. */
  datatype Factory = Factory(dep: Option<string>, product: string, readsViewer: bool)

  /** An init or dispose hook of the engine: it resolves `service` from the
      container (through the engine's getter) and calls the service's own hook,
      whose outcome is outside the model. */
  datatype Hook = Hook(service: string)

  /** What the registry holds besides the container. */
  datatype Hooks = Hooks(initializers: OMap<string, Hook>, disposers: OMap<string, Hook>)

  ghost predicate ValidHooks(h: Hooks) {
    h.initializers.Valid() && h.disposers.Valid()
  }

  /** Calling `serviceFactory()`, with the viewer created or not: a failed
      resolution propagates out of it, and so does the viewer getter's error
      when the factory reads a viewer that does not exist yet. Whatever the
      resolution cached stays cached. */
  function Produced(s: C.Store, f: Factory, viewerCreated: bool): (r: C.Resolution)
    requires C.ValidStore(s)
    ensures C.ValidStore(r.after)
    ensures r.result.Ok? ==> r.result.value == C.Object(f.product)
    ensures f.dep.None? ==> r.after == s
    ensures f.dep.Some? ==> r.after == C.Resolved(s, f.dep.value).after
    ensures f.dep.Some? && C.Resolved(s, f.dep.value).result.Err? ==>
      r.result == Err(C.Resolved(s, f.dep.value).result.error)
    ensures f.dep.None? || C.Resolved(s, f.dep.value).result.Ok? ==>
      r.result == if f.readsViewer && !viewerCreated then Err(ViewerNotCreated) else Ok(C.Object(f.product))
    ensures r.result.Err? && (f.dep.None? || f.dep.value in s.instances) ==> r.after == s
  {
    var d := if f.dep.None? then C.Resolution(Ok(C.Falsy), s) else C.Resolved(s, f.dep.value);
    if d.result.Err? then C.Resolution(Err(d.result.error), d.after)
    else if f.readsViewer && !viewerCreated then C.Resolution(Err(ViewerNotCreated), d.after)
    else C.Resolution(Ok(C.Object(f.product)), d.after)
  }

  /** `if (initFn) …set(serviceId, initFn)`, and the same for `disposeFn`. */
  function Hooked(h: Hooks, id: string, init: Option<Hook>, dispose: Option<Hook>): (r: Hooks)
    ensures ValidHooks(h) ==> ValidHooks(r)
    ensures init.None? ==> r.initializers == h.initializers
    ensures init.Some? ==> r.initializers == h.initializers.Put(id, init.value)
    ensures dispose.None? ==> r.disposers == h.disposers
    ensures dispose.Some? ==> r.disposers == h.disposers.Put(id, dispose.value)
  {
    Hooks(if init.Some? then h.initializers.Put(id, init.value) else h.initializers,
          if dispose.Some? then h.disposers.Put(id, dispose.value) else h.disposers)
  }

  datatype Registration = Registration(result: Outcome<Error>, store: C.Store, hooks: Hooks)

  /** `registerService` as written: the factory's product goes into the
      container's constructor slot (`register`), although it is an object. */
  function ServiceRegistered(s: C.Store, h: Hooks, id: string, f: Factory, init: Option<Hook>, dispose: Option<Hook>, viewerCreated: bool): (r: Registration)
    requires C.ValidStore(s)
    ensures C.ValidStore(r.store)
    ensures r.result.Fail? <==> Produced(s, f, viewerCreated).result.Err?
    ensures r.result.Fail? ==> r.hooks == h && Produced(s, f, viewerCreated).result == Err(r.result.error)
    ensures r.result.Fail? ==> r.store == Produced(s, f, viewerCreated).after
    ensures r.result.Fail? && (f.dep.None? || f.dep.value in s.instances) ==> r.store == s
    ensures r.result.Pass? ==> id in r.store.constructors && r.store.constructors[id] == C.Object(f.product)
    ensures r.result.Pass? ==> r.hooks == Hooked(h, id, init, dispose)
  {
    var p := Produced(s, f, viewerCreated);
    if p.result.Err? then Registration(Fail(p.result.error), p.after, h)
    else Registration(Pass, C.Registered(p.after, id, p.result.value), Hooked(h, id, init, dispose))
  }

  /** `registerService` as evidently intended: the factory's product is the
      service instance, filed with `registerInstance`. */
  function ServiceInstanceRegistered(s: C.Store, h: Hooks, id: string, f: Factory, init: Option<Hook>, dispose: Option<Hook>, viewerCreated: bool): (r: Registration)
    requires C.ValidStore(s)
    ensures C.ValidStore(r.store)
    ensures r.result.Fail? <==> Produced(s, f, viewerCreated).result.Err?
    ensures r.result.Fail? ==> r.hooks == h && Produced(s, f, viewerCreated).result == Err(r.result.error)
    ensures r.result.Fail? ==> r.store == Produced(s, f, viewerCreated).after
    ensures r.result.Fail? && (f.dep.None? || f.dep.value in s.instances) ==> r.store == s
    ensures r.result.Pass? ==> id in r.store.instances && r.store.instances[id] == C.Object(f.product)
    ensures r.result.Pass? ==> r.hooks == Hooked(h, id, init, dispose)
  {
    var p := Produced(s, f, viewerCreated);
    if p.result.Err? then Registration(Fail(p.result.error), p.after, h)
    else Registration(Pass, C.WithInstance(p.after, id, p.result.value), Hooked(h, id, init, dispose))
  }

  /** Running one hook: the resolution in the engine's getter, then the service's
      own hook, whose outcome `settle` gives. */
  function Settled(s: C.Store, hook: Hook, settle: string -> Outcome<Error>): (r: (Outcome<Error>, C.Store))
    requires C.ValidStore(s)
    ensures C.ValidStore(r.1)
  {
    var d := C.Resolved(s, hook.service);
    if d.result.Err? then (Fail(d.result.error), d.after) else (settle(hook.service), d.after)
  }

  /** `hooks.forEach(fn => promises.push(fn()))`: every hook is started, in
      order, whether or not an earlier one is going to fail. */
  function Launched(s: C.Store, hooks: seq<Hook>, settle: string -> Outcome<Error>): (r: (seq<Outcome<Error>>, C.Store))
    requires C.ValidStore(s)
    ensures C.ValidStore(r.1) && |r.0| == |hooks|
    decreases |hooks|
  {
    if hooks == [] then ([], s)
    else
      var p := Launched(s, hooks[..|hooks| - 1], settle);
      var q := Settled(p.1, hooks[|hooks| - 1], settle);
      (p.0 + [q.0], q.1)
  }

  /** `await Promise.all(promises)`: fulfilled when every promise is; otherwise it
      rejects with a failure of one of them. Which one wins depends on timing;
      the model takes the first in launch order. */
  function JoinAll(outcomes: seq<Outcome<Error>>): (r: Outcome<Error>)
    ensures r.Pass? <==> forall i :: 0 <= i < |outcomes| ==> outcomes[i].Pass?
    ensures r.Fail? ==> r in outcomes
    decreases |outcomes|
  {
    if outcomes == [] then Pass
    else if outcomes[0].Fail? then outcomes[0]
    else
      var rest := JoinAll(outcomes[1..]);
      assert forall i :: 0 <= i < |outcomes| - 1 ==> outcomes[1..][i] == outcomes[i + 1];
      rest
  }

  /** The launch of the init hooks when every service resolves and no hook
      fails comes out fulfilled. */
  lemma {:induction false} AllSettledPass(s: C.Store, hooks: seq<Hook>, settle: string -> Outcome<Error>)
    requires C.ValidStore(s)
    requires forall i :: 0 <= i < |hooks| ==> hooks[i].service in s.instances && settle(hooks[i].service).Pass?
    ensures JoinAll(Launched(s, hooks, settle).0).Pass?
    ensures Launched(s, hooks, settle).1 == s
    decreases |hooks|
  {
    if hooks != [] {
      var init := hooks[..|hooks| - 1];
      assert forall i :: 0 <= i < |init| ==> init[i] == hooks[i];
      AllSettledPass(s, init, settle);
      var p := Launched(s, init, settle);
      var last := hooks[|hooks| - 1];
      assert Settled(p.1, last, settle).0 == Pass;
      var os := p.0 + [Pass];
      assert forall i :: 0 <= i < |os| ==> os[i].Pass? by {
        assert forall i :: 0 <= i < |p.0| ==> p.0[i].Pass?;
      }
    }
  }

  /** One failing hook is enough to reject the whole launch. */
  lemma {:induction false} OneFailureRejects(s: C.Store, hooks: seq<Hook>, settle: string -> Outcome<Error>, k: nat)
    requires C.ValidStore(s)
    requires k < |hooks| && forall i :: 0 <= i < |hooks| ==> hooks[i].service in s.instances
    requires settle(hooks[k].service).Fail?
    ensures JoinAll(Launched(s, hooks, settle).0).Fail?
  {
    LaunchedOutcomes(s, hooks, settle);
    assert Launched(s, hooks, settle).0[k] == settle(hooks[k].service);
  }

  /** With every hooked service already in the container, each hook's outcome is
      its service's own. */
  lemma {:induction false} LaunchedOutcomes(s: C.Store, hooks: seq<Hook>, settle: string -> Outcome<Error>)
    requires C.ValidStore(s)
    requires forall i :: 0 <= i < |hooks| ==> hooks[i].service in s.instances
    ensures Launched(s, hooks, settle).1 == s
    ensures forall i :: 0 <= i < |hooks| ==> Launched(s, hooks, settle).0[i] == settle(hooks[i].service)
    decreases |hooks|
  {
    if hooks != [] {
      var init, last := hooks[..|hooks| - 1], hooks[|hooks| - 1];
      assert forall i :: 0 <= i < |init| ==> init[i] == hooks[i];
      LaunchedOutcomes(s, init, settle);
      var p := Launched(s, init, settle);
      assert C.Resolved(s, last.service) == C.Resolution(Ok(s.instances[last.service]), s);
      assert Settled(s, last, settle) == (settle(last.service), s);
      assert Launched(s, hooks, settle) == (p.0 + [settle(last.service)], s);
      forall i | 0 <= i < |hooks| ensures Launched(s, hooks, settle).0[i] == settle(hooks[i].service) {
        if i < |init| {
          assert Launched(s, hooks, settle).0[i] == p.0[i];
        }
      }
    }
  }

  /** With every hooked service already in the container, the launch leaves the
      container as it was and is fulfilled exactly when every hook is. */
  lemma LaunchedJoin(s: C.Store, hooks: seq<Hook>, settle: string -> Outcome<Error>)
    requires C.ValidStore(s)
    requires forall i :: 0 <= i < |hooks| ==> hooks[i].service in s.instances
    ensures Launched(s, hooks, settle).1 == s
    ensures JoinAll(Launched(s, hooks, settle).0).Pass? <==> forall i :: 0 <= i < |hooks| ==> settle(hooks[i].service).Pass?
  {
    LaunchedOutcomes(s, hooks, settle);
  }

  class ServiceRegistry {
    const container: C.Container
    const events: E.EventBus<Payload>
    var hooks: Hooks

    ghost predicate Valid()
      reads this, container, events
    {
      container.Valid() && events.Valid() && ValidHooks(hooks)
    }

    constructor(container: C.Container, events: E.EventBus<Payload>)
      requires container.Valid() && events.Valid()
      ensures Valid() && this.container == container && this.events == events
      ensures hooks == Hooks(EmptyMap(), EmptyMap())
    {
      this.container := container;
      this.events := events;
      hooks := Hooks(EmptyMap(), EmptyMap());
    }

    /** The factory call: `serviceFactory()`; `viewerCreated` is whether the
        viewer service's `init` has created the viewer. */
    method Produce(f: Factory, viewerCreated: bool) returns (r: Result<C.Value, Error>)
      requires container.Valid()
      modifies container
      ensures container.Valid()
      ensures r == Produced(old(container.State()), f, viewerCreated).result
      ensures container.State() == Produced(old(container.State()), f, viewerCreated).after
    {
      if f.dep.Some? {
        var d := container.Resolve(f.dep.value);
        if d.Err? {
          return Err(d.error);
        }
      }
      if f.readsViewer && !viewerCreated {
        return Err(ViewerNotCreated);
      }
      r := Ok(C.Object(f.product));
    }

    /** `registerService` as written. */
    method RegisterService(id: string, f: Factory, init: Option<Hook>, dispose: Option<Hook>, viewerCreated: bool) returns (r: Outcome<Error>)
      requires Valid()
      modifies this, container
      ensures Valid() && unchanged(events)
      ensures var g := ServiceRegistered(old(container.State()), old(hooks), id, f, init, dispose, viewerCreated);
        r == g.result && container.State() == g.store && hooks == g.hooks
    {
      var product := Produce(f, viewerCreated);
      if product.Err? {
        return Fail(product.error);
      }
      container.Register(id, product.value);
      hooks := Hooked(hooks, id, init, dispose);
      r := Pass;
    }

    /** `registerService` with the product filed as an instance. */
    method RegisterServiceInstance(id: string, f: Factory, init: Option<Hook>, dispose: Option<Hook>, viewerCreated: bool) returns (r: Outcome<Error>)
      requires Valid()
      modifies this, container
      ensures Valid() && unchanged(events)
      ensures var g := ServiceInstanceRegistered(old(container.State()), old(hooks), id, f, init, dispose, viewerCreated);
        r == g.result && container.State() == g.store && hooks == g.hooks
    {
      var product := Produce(f, viewerCreated);
      if product.Err? {
        return Fail(product.error);
      }
      container.RegisterInstance(id, product.value);
      hooks := Hooked(hooks, id, init, dispose);
      r := Pass;
    }

    /** The launch loop shared by `initServices` and `disposeServices`, and the
        `await Promise.all` after it. */
    method Launch(hs: seq<Hook>, settle: string -> Outcome<Error>) returns (r: Outcome<Error>)
      requires container.Valid()
      modifies container
      ensures container.Valid()
      ensures var l := Launched(old(container.State()), hs, settle);
        r == JoinAll(l.0) && container.State() == l.1
    {
      ghost var s0 := container.State();
      var outcomes: seq<Outcome<Error>> := [];
      for i := 0 to |hs|
        invariant container.Valid()
        invariant (outcomes, container.State()) == Launched(s0, hs[..i], settle)
      {
        assert hs[..i + 1][..i] == hs[..i];
        var d := container.Resolve(hs[i].service);
        var o := if d.Err? then Fail(d.error) else settle(hs[i].service);
        outcomes := outcomes + [o];
      }
      assert hs[..|hs|] == hs;
      r := JoinAll(outcomes);
    }

    method InitServices(settle: string -> Outcome<Error>) returns (r: Outcome<Error>)
      requires Valid()
      modifies container, events
      ensures Valid() && hooks == old(hooks)
      ensures var l := Launched(old(container.State()), hooks.initializers.Values(), settle);
        r == JoinAll(l.0) && container.State() == l.1
      ensures r.Fail? ==> events.State() == old(events.State()) && events.published == old(events.published)
      ensures r.Pass? ==> events.State() == E.Emitted(old(events.State()), "services.initialized")
      ensures r.Pass? ==> events.published == old(events.published) + [("services.initialized", NoData)]
    {
      r := Launch(hooks.initializers.Values(), settle);
      if r.Pass? {
        var _, _ := events.Emit("services.initialized", NoData);
      }
    }

    method DisposeServices(settle: string -> Outcome<Error>) returns (r: Outcome<Error>)
      requires Valid()
      modifies container, events
      ensures Valid() && hooks == old(hooks)
      ensures var l := Launched(old(container.State()), hooks.disposers.Values(), settle);
        r == JoinAll(l.0) && container.State() == l.1
      ensures r.Fail? ==> events.State() == old(events.State()) && events.published == old(events.published)
      ensures r.Pass? ==> events.State() == E.Emitted(old(events.State()), "services.disposed")
      ensures r.Pass? ==> events.published == old(events.published) + [("services.disposed", NoData)]
    {
      r := Launch(hooks.disposers.Values(), settle);
      if r.Pass? {
        var _, _ := events.Emit("services.disposed", NoData);
      }
    }
  }
}
