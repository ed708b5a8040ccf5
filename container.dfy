/** The dependency container of src/core/container.ts: a name-keyed registry with
    one map of constructors and one map of cached instances. */
module Container {
  import opened Wrappers

  /** What a name can be bound to. TypeScript types the constructor slot as a
      class, but at run time any value can be put there; only `Class` values can
      be applied to `new`. `resolve` runs `new constructor()` with no arguments,
      so the class's constructor body either builds an object or throws the
      same way every time: `raises` is what it throws, if anything.
      `Constructed(ctor, serial)` is the object that the `serial`-th run of `new`
      built, so two constructions never give the same object. `Falsy` stands for
      `undefined`, `null` and the other falsy values. */
  datatype Value =
    | Falsy
    | Object(id: string)
    | Class(ctor: nat, raises: Option<Error>)
    | Constructed(ctor: nat, serial: nat)

  /** The two maps of a Container, and how many objects `new` has built so far. */
  datatype Store = Store(constructors: map<string, Value>, instances: map<string, Value>, built: nat)

  /** Every object `new` built is numbered below `built`. */
  ghost predicate ValidStore(s: Store) {
    forall n :: n in s.instances && s.instances[n].Constructed? ==> s.instances[n].serial < s.built
  }

  function EmptyStore(): (s: Store)
    ensures ValidStore(s) && s.constructors == map[] && s.instances == map[]
  {
    Store(map[], map[], 0)
  }

  /** The store after `register(name, ctor)`. */
  function Registered(s: Store, name: string, ctor: Value): (r: Store)
    ensures r.constructors.Keys == s.constructors.Keys + {name} && r.constructors[name] == ctor
    ensures forall n :: n in s.constructors && n != name ==> r.constructors[n] == s.constructors[n]
    ensures r.instances == s.instances && r.built == s.built
    ensures ValidStore(s) ==> ValidStore(r)
  {
    s.(constructors := s.constructors[name := ctor])
  }

  /** The store after `registerInstance(name, instance)`. */
  function WithInstance(s: Store, name: string, instance: Value): (r: Store)
    requires ValidStore(s)
    requires instance.Constructed? ==> instance.serial < s.built
    ensures r.instances.Keys == s.instances.Keys + {name} && r.instances[name] == instance
    ensures forall n :: n in s.instances && n != name ==> r.instances[n] == s.instances[n]
    ensures r.constructors == s.constructors && r.built == s.built
    ensures ValidStore(r)
  {
    s.(instances := s.instances[name := instance])
  }

  /** What `resolve(name)` returns or throws, and the store it leaves. */
  datatype Resolution = Resolution(result: Result<Value, Error>, after: Store)

  function Resolved(s: Store, name: string): (r: Resolution)
    requires ValidStore(s)
    ensures ValidStore(r.after)
    // a cached instance wins and nothing changes
    ensures name in s.instances ==> r == Resolution(Ok(s.instances[name]), s)
    // never registered (or registered as a falsy value): the error, and nothing changes
    ensures name !in s.instances && (name !in s.constructors || s.constructors[name].Falsy?) ==>
              r == Resolution(Err(ServiceNotRegistered(name)), s)
    // a truthy value that is not a class: the TypeError of `new`, and nothing changes
    ensures name !in s.instances && name in s.constructors && !s.constructors[name].Falsy?
              && !s.constructors[name].Class? ==>
              r == Resolution(Err(NotAConstructor(name)), s)
    // a class whose constructor throws: its exception, and nothing is cached
    ensures name !in s.instances && name in s.constructors && s.constructors[name].Class?
              && s.constructors[name].raises.Some? ==>
              r == Resolution(Err(s.constructors[name].raises.value), s)
    // a class: one fresh object, cached under `name` and under no other key
    ensures name !in s.instances && name in s.constructors && s.constructors[name].Class?
              && s.constructors[name].raises.None? ==>
              && r.result == Ok(Constructed(s.constructors[name].ctor, s.built))
              && r.after == Store(s.constructors, s.instances[name := r.result.value], s.built + 1)
    ensures r.result.Err? ==> r.after == s
    ensures r.after.constructors == s.constructors && r.after.built >= s.built
    ensures r.after.instances.Keys <= s.instances.Keys + {name}
    ensures forall n :: n in s.instances ==> n in r.after.instances && r.after.instances[n] == s.instances[n]
  {
    if name in s.instances then Resolution(Ok(s.instances[name]), s)
    else if name !in s.constructors || s.constructors[name].Falsy? then
      Resolution(Err(ServiceNotRegistered(name)), s)
    else if !s.constructors[name].Class? then Resolution(Err(NotAConstructor(name)), s)
    else if s.constructors[name].raises.Some? then Resolution(Err(s.constructors[name].raises.value), s)
    else
      var v := Constructed(s.constructors[name].ctor, s.built);
      Resolution(Ok(v), Store(s.constructors, s.instances[name := v], s.built + 1))
  }

  /** An object `resolve` constructs is none of the instances cached before. */
  lemma ConstructedIsFresh(s: Store, name: string)
    requires ValidStore(s)
    requires name !in s.instances && name in s.constructors && s.constructors[name].Class?
    requires s.constructors[name].raises.None?
    ensures Resolved(s, name).result.Ok?
    ensures forall n :: n in s.instances ==> s.instances[n] != Resolved(s, name).result.value
  {
    forall n | n in s.instances
      ensures s.instances[n] != Resolved(s, name).result.value
    {
      if s.instances[n].Constructed? {
        assert s.instances[n].serial < s.built;
      }
    }
  }

  /** A sequence of calls on one container. */
  datatype Op = RegisterOp(name: string, ctor: Value) | RegisterInstanceOp(name: string, instance: Value) | ResolveOp(name: string)

  /** The answer to one `resolve` call in a run. */
  datatype Answer = Answer(name: string, result: Result<Value, Error>)

  datatype Trace = Trace(answers: seq<Answer>, final: Store)

  /** A `registerInstance` call whose argument is an object `new` has not yet built
      would be a forged reference; a run only re-files objects built before it
      started (`registerInstance('b', resolve('a'))` with `a` resolved earlier). */
  ghost predicate Admissible(s: Store, ops: seq<Op>) {
    forall i :: 0 <= i < |ops| && ops[i].RegisterInstanceOp? && ops[i].instance.Constructed? ==>
      ops[i].instance.serial < s.built
  }

  /** A run stays admissible from any store that has built at least as much. */
  lemma AdmissibleTail(s: Store, s': Store, ops: seq<Op>)
    requires Admissible(s, ops) && |ops| > 0 && s'.built >= s.built
    ensures Admissible(s', ops[1..])
  {
    var rest := ops[1..];
    forall i | 0 <= i < |rest| && rest[i].RegisterInstanceOp? && rest[i].instance.Constructed?
      ensures rest[i].instance.serial < s'.built
    {
      assert rest[i] == ops[i + 1];
    }
  }

  function Run(s: Store, ops: seq<Op>): (t: Trace)
    requires ValidStore(s) && Admissible(s, ops)
    ensures ValidStore(t.final)
    decreases |ops|
  {
    if ops == [] then Trace([], s)
    else
      var rest := ops[1..];
      match ops[0]
      case RegisterOp(n, c) =>
        AdmissibleTail(s, Registered(s, n, c), ops);
        Run(Registered(s, n, c), rest)
      case RegisterInstanceOp(n, v) =>
        assert v.Constructed? ==> v.serial < s.built by { assert ops[0] == ops[0]; }
        AdmissibleTail(s, WithInstance(s, n, v), ops);
        Run(WithInstance(s, n, v), rest)
      case ResolveOp(n) =>
        var r := Resolved(s, n);
        AdmissibleTail(s, r.after, ops);
        var t := Run(r.after, rest);
        Trace([Answer(n, r.result)] + t.answers, t.final)
  }

  ghost predicate Rebinds(ops: seq<Op>, name: string) {
    !forall i :: 0 <= i < |ops| && ops[i].RegisterInstanceOp? ==> ops[i].name != name
  }

  ghost predicate Reregisters(ops: seq<Op>, name: string) {
    !forall i :: 0 <= i < |ops| && ops[i].RegisterOp? ==> ops[i].name != name
  }

  /** Once `name` has a cached instance, every later `resolve(name)` returns it,
      whatever else is registered or resolved, until `registerInstance(name, …)`
      binds it again. In particular, after `registerInstance(n, x)` every
      `resolve(n)` returns `x`. */
  lemma {:induction false} InstanceIsStable(s: Store, name: string, ops: seq<Op>)
    requires ValidStore(s) && Admissible(s, ops)
    requires name in s.instances && !Rebinds(ops, name)
    ensures forall a :: a in Run(s, ops).answers && a.name == name ==> a.result == Ok(s.instances[name])
    ensures name in Run(s, ops).final.instances && Run(s, ops).final.instances[name] == s.instances[name]
    decreases |ops|
  {
    if ops != [] {
      var rest := ops[1..];
      assert forall i :: 0 <= i < |rest| ==> rest[i] == ops[i + 1];
      match ops[0]
      case RegisterOp(n, c) =>
        AdmissibleTail(s, Registered(s, n, c), ops);
        InstanceIsStable(Registered(s, n, c), name, rest);
      case RegisterInstanceOp(n, v) =>
        assert n != name by { assert ops[0] == ops[0]; }
        AdmissibleTail(s, WithInstance(s, n, v), ops);
        InstanceIsStable(WithInstance(s, n, v), name, rest);
      case ResolveOp(n) =>
        AdmissibleTail(s, Resolved(s, n).after, ops);
        InstanceIsStable(Resolved(s, n).after, name, rest);
    }
  }

  lemma RegisterInstanceThenResolve(s: Store, name: string, x: Value, ops: seq<Op>)
    requires ValidStore(s) && (x.Constructed? ==> x.serial < s.built)
    requires Admissible(s, ops) && !Rebinds(ops, name)
    ensures forall a :: a in Run(WithInstance(s, name, x), ops).answers && a.name == name ==> a.result == Ok(x)
  {
    InstanceIsStable(WithInstance(s, name, x), name, ops);
  }

  /** All answers for `name` are one and the same object, built by class `c`. */
  ghost predicate SameObject(answers: seq<Answer>, name: string, c: nat) {
    && (forall a :: a in answers && a.name == name ==>
          a.result.Ok? && a.result.value.Constructed? && a.result.value.ctor == c)
    && (forall a, b :: a in answers && b in answers && a.name == name && b.name == name ==> a.result == b.result)
  }

  /** Every registration is a singleton: while `name` is neither re-registered nor
      re-bound, all `resolve(name)` calls of a run return one and the same object,
      built by the registered class. */
  lemma {:induction false} Singleton(s: Store, name: string, c: nat, ops: seq<Op>)
    requires ValidStore(s) && Admissible(s, ops)
    requires name !in s.instances && name in s.constructors && s.constructors[name] == Class(c, None)
    requires !Rebinds(ops, name)
    requires !Reregisters(ops, name)
    ensures SameObject(Run(s, ops).answers, name, c)
    decreases |ops|
  {
    if ops != [] {
      var rest := ops[1..];
      assert forall i :: 0 <= i < |rest| ==> rest[i] == ops[i + 1];
      match ops[0]
      case RegisterOp(n, v) =>
        assert n != name by { assert ops[0] == ops[0]; }
        AdmissibleTail(s, Registered(s, n, v), ops);
        Singleton(Registered(s, n, v), name, c, rest);
      case RegisterInstanceOp(n, v) =>
        assert n != name by { assert ops[0] == ops[0]; }
        AdmissibleTail(s, WithInstance(s, n, v), ops);
        Singleton(WithInstance(s, n, v), name, c, rest);
      case ResolveOp(n) =>
        var r := Resolved(s, n);
        AdmissibleTail(s, r.after, ops);
        if n == name {
          InstanceIsStable(r.after, name, rest);
        } else {
          Singleton(r.after, name, c, rest);
        }
    }
  }

  /** A class whose constructor throws is never cached: while `name` is neither
      re-registered nor re-bound, every `resolve(name)` of a run throws the
      constructor's exception again, and `name` has no instance at the end. */
  lemma {:induction false} ThrowingClassNeverCaches(s: Store, name: string, c: nat, e: Error, ops: seq<Op>)
    requires ValidStore(s) && Admissible(s, ops)
    requires name !in s.instances && name in s.constructors && s.constructors[name] == Class(c, Some(e))
    requires !Rebinds(ops, name)
    requires !Reregisters(ops, name)
    ensures forall a :: a in Run(s, ops).answers && a.name == name ==> a.result == Err(e)
    ensures name !in Run(s, ops).final.instances
    decreases |ops|
  {
    if ops != [] {
      var rest := ops[1..];
      assert forall i :: 0 <= i < |rest| ==> rest[i] == ops[i + 1];
      match ops[0]
      case RegisterOp(n, v) =>
        assert n != name by { assert ops[0] == ops[0]; }
        AdmissibleTail(s, Registered(s, n, v), ops);
        ThrowingClassNeverCaches(Registered(s, n, v), name, c, e, rest);
      case RegisterInstanceOp(n, v) =>
        assert n != name by { assert ops[0] == ops[0]; }
        AdmissibleTail(s, WithInstance(s, n, v), ops);
        ThrowingClassNeverCaches(WithInstance(s, n, v), name, c, e, rest);
      case ResolveOp(n) =>
        AdmissibleTail(s, Resolved(s, n).after, ops);
        ThrowingClassNeverCaches(Resolved(s, n).after, name, c, e, rest);
    }
  }

  /** A `register(name, …)` made after `name` has been cached changes nothing that
      `resolve(name)` returns. */
  lemma CachedInstanceBeatsRegister(s: Store, name: string, ctor: Value)
    requires ValidStore(s) && name in s.instances
    ensures Resolved(Registered(s, name, ctor), name).result == Resolved(s, name).result
  {
  }

  /** Registering a constructor twice under one name keeps only the second. */
  lemma ReRegisterReplaces(s: Store, name: string, first: Value, second: Value)
    ensures Registered(Registered(s, name, first), name, second) == Registered(s, name, second)
  {
  }

  /** The Container object. Its methods follow the source line by line; each one's
      new state is the corresponding function of the old one above. */
  class Container {
    var constructors: map<string, Value>
    var instances: map<string, Value>
    var built: nat

    function State(): Store
      reads this
    {
      Store(constructors, instances, built)
    }

    ghost predicate Valid()
      reads this
    {
      ValidStore(State())
    }

    constructor()
      ensures Valid() && State() == EmptyStore()
    {
      constructors := map[];
      instances := map[];
      built := 0;
    }

    method Register(name: string, ctor: Value)
      requires Valid()
      modifies this
      ensures Valid() && State() == Registered(old(State()), name, ctor)
    {
      constructors := constructors[name := ctor];
    }

    method RegisterInstance(name: string, instance: Value)
      requires Valid()
      requires instance.Constructed? ==> instance.serial < built
      modifies this
      ensures Valid() && State() == WithInstance(old(State()), name, instance)
    {
      instances := instances[name := instance];
    }

    method Resolve(name: string) returns (r: Result<Value, Error>)
      requires Valid()
      modifies this
      ensures Valid()
      ensures r == Resolved(old(State()), name).result
      ensures State() == Resolved(old(State()), name).after
    {
      if name in instances {
        return Ok(instances[name]);
      }
      if name !in constructors || constructors[name].Falsy? {
        return Err(ServiceNotRegistered(name));
      }
      var ctor := constructors[name];
      if !ctor.Class? {
        return Err(NotAConstructor(name));
      }
      if ctor.raises.Some? {
        // `new constructor()` throws before `set` runs
        return Err(ctor.raises.value);
      }
      var instance := Constructed(ctor.ctor, built);
      built := built + 1;
      instances := instances[name := instance];
      return Ok(instance);
    }
  }
}
