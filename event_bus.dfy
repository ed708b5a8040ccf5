/** The event bus of src/core/eventBus.ts: two maps from event name to a set of
    handlers, the persistent ones (`on`) and the one-shot ones (`once`). */
module Events {
  import opened Wrappers
  import opened Ordered

  /** A handler function. What its body does that matters to the bus is part of
      the value: `throws` says that it raises an exception once it has done its
      work, and `subscribesOnce` says that its body calls `once(event, itself)` for
      the event it is handling. */
  datatype Handler = Handler(id: nat, throws: bool, subscribesOnce: bool)

  datatype Phase = Persistent | OneShot

  /** One invocation `handler(data)` made by `emit(event, data)`. */
  datatype Call<D> = Call(event: string, handler: Handler, data: D, phase: Phase)

  /** A map from event name to a JavaScript `Set` of handlers. */
  type Registry = map<string, seq<Handler>>

  /** The two maps of an EventBus. */
  datatype Bus = Bus(handlers: Registry, once: Registry)

  ghost predicate ValidRegistry(m: Registry) {
    forall e :: e in m ==> NoDup(m[e])
  }

  ghost predicate ValidBus(b: Bus) {
    ValidRegistry(b.handlers) && ValidRegistry(b.once)
  }

  /** The handlers registered for `e`, in insertion order (none if the key is absent). */
  function Get(m: Registry, e: string): seq<Handler> {
    if e in m then m[e] else []
  }

  /** Create the set for `e` if needed, then add `h` to it. */
  function Subscribe(m: Registry, e: string, h: Handler): (r: Registry)
    ensures ValidRegistry(m) ==> ValidRegistry(r)
    ensures forall k :: k != e ==> (k in r <==> k in m)
    ensures forall k :: k != e && k in m ==> r[k] == m[k]
    ensures e in r && r[e] == Add(Get(m, e), h) && h in r[e]
  {
    m[e := Add(Get(m, e), h)]
  }

  function Listen(b: Bus, e: string, h: Handler): (r: Bus)
    ensures ValidBus(b) ==> ValidBus(r)
    ensures h in Get(r.handlers, e) && r.once == b.once
    ensures forall k :: k != e ==> Get(r.handlers, k) == Get(b.handlers, k)
  {
    b.(handlers := Subscribe(b.handlers, e, h))
  }

  function ListenOnce(b: Bus, e: string, h: Handler): (r: Bus)
    ensures ValidBus(b) ==> ValidBus(r)
    ensures h in Get(r.once, e) && r.handlers == b.handlers
    ensures forall k :: k != e ==> Get(r.once, k) == Get(b.once, k)
  {
    b.(once := Subscribe(b.once, e, h))
  }

  /** `off(e)` without a handler. */
  function OffAll(b: Bus, e: string): (r: Bus)
    ensures ValidBus(b) ==> ValidBus(r)
    ensures Get(r.handlers, e) == [] && Get(r.once, e) == []
    ensures forall k :: k != e ==> Get(r.handlers, k) == Get(b.handlers, k) && Get(r.once, k) == Get(b.once, k)
  {
    Bus(b.handlers - {e}, b.once - {e})
  }

  /** `off(e, h)`: delete `h` from whichever of the two sets for `e` exist. */
  function OffOne(b: Bus, e: string, h: Handler): (r: Bus)
    ensures ValidBus(b) ==> ValidBus(r)
  {
    Bus(if e in b.handlers then b.handlers[e := Remove(b.handlers[e], h)] else b.handlers,
        if e in b.once then b.once[e := Remove(b.once[e], h)] else b.once)
  }

  /** The once-registry after the handlers `hs` have run for `e`, each one that
      subscribes itself calling `once(e, itself)` in turn. */
  function Resubscribed(m: Registry, e: string, hs: seq<Handler>): (r: Registry)
    ensures ValidRegistry(m) ==> ValidRegistry(r)
    ensures forall k :: k != e ==> (k in r <==> k in m)
    ensures forall k :: k != e && k in m ==> r[k] == m[k]
    decreases |hs|
  {
    if hs == [] then m
    else
      var before := Resubscribed(m, e, hs[..|hs| - 1]);
      if hs[|hs| - 1].subscribesOnce then Subscribe(before, e, hs[|hs| - 1]) else before
  }

  /** The once-registry when the persistent handlers for `e` have run. */
  function AfterPersistent(b: Bus, e: string): Registry {
    Resubscribed(b.once, e, Get(b.handlers, e))
  }

  /** The array `Array.from(onceHandlers.get(e))` that `emit(e)` iterates. */
  function Snapshot(b: Bus, e: string): seq<Handler> {
    Get(AfterPersistent(b, e), e)
  }

  function Calls<D>(e: string, hs: seq<Handler>, d: D, phase: Phase): (r: seq<Call<D>>)
    ensures |r| == |hs|
    ensures forall i :: 0 <= i < |hs| ==> r[i] == Call(e, hs[i], d, phase)
  {
    seq(|hs|, i requires 0 <= i < |hs| => Call(e, hs[i], d, phase))
  }

  /** The invocations `emit(e, d)` makes: every persistent handler of `e`, then
      every handler of the once-snapshot; nothing for any other event. */
  function Delivered<D>(b: Bus, e: string, d: D): (r: seq<Call<D>>)
    ensures forall i :: 0 <= i < |r| ==> r[i].event == e && r[i].data == d
    ensures forall i, j :: 0 <= i < j < |r| && r[j].phase == Persistent ==> r[i].phase == Persistent
    ensures |r| == |Get(b.handlers, e)| + |Snapshot(b, e)|
    ensures forall i :: 0 <= i < |Get(b.handlers, e)| ==> r[i] == Call(e, Get(b.handlers, e)[i], d, Persistent)
    ensures forall i :: 0 <= i < |Snapshot(b, e)| ==> r[|Get(b.handlers, e)| + i] == Call(e, Snapshot(b, e)[i], d, OneShot)
  {
    Calls(e, Get(b.handlers, e), d, Persistent) + Calls(e, Snapshot(b, e), d, OneShot)
  }

  /** The bus after `emit(e, d)`: the persistent handlers are untouched; the once
      set for `e` is deleted before the snapshot runs, so what it holds afterwards
      is only what the snapshot's handlers put back. */
  function Emitted(b: Bus, e: string): (r: Bus)
    ensures ValidBus(b) ==> ValidBus(r)
    ensures r.handlers == b.handlers
  {
    Bus(b.handlers, Resubscribed(AfterPersistent(b, e) - {e}, e, Snapshot(b, e)))
  }

  /** The handlers whose exceptions `emit` caught, in the order they ran. */
  function Throwing(hs: seq<Handler>): (r: seq<Handler>)
    ensures forall h :: h in r <==> h in hs && h.throws
    decreases |hs|
  {
    if hs == [] then []
    else Throwing(hs[..|hs| - 1]) + (if hs[|hs| - 1].throws then [hs[|hs| - 1]] else [])
  }

  /** One more handler of `hs` run: the three folds over `hs[..i]` extended
      by `hs[i]`. */
  lemma InvokeStep<D>(m: Registry, e: string, hs: seq<Handler>, i: nat, d: D, phase: Phase)
    requires i < |hs|
    ensures var before := Resubscribed(m, e, hs[..i]);
      Resubscribed(m, e, hs[..i + 1]) == if hs[i].subscribesOnce then Subscribe(before, e, hs[i]) else before
    ensures Calls(e, hs[..i + 1], d, phase) == Calls(e, hs[..i], d, phase) + [Call(e, hs[i], d, phase)]
    ensures Throwing(hs[..i + 1]) == Throwing(hs[..i]) + (if hs[i].throws then [hs[i]] else [])
  {
    assert hs[..i + 1][..i] == hs[..i];
  }

  function CaughtBy(b: Bus, e: string): seq<Handler> {
    Throwing(Get(b.handlers, e)) + Throwing(Snapshot(b, e))
  }

  /** A throwing handler stops nobody: every persistent handler and every
      handler of the snapshot is called, and what `emit` catches is exactly the
      exceptions of the throwing ones among them. Conversely, nothing else is
      called: no handler of another event, and no one-shot handler outside the
      snapshot. */
  lemma EveryHandlerRuns<D>(b: Bus, e: string, d: D)
    ensures forall h :: h in Get(b.handlers, e) ==> Call(e, h, d, Persistent) in Delivered(b, e, d)
    ensures forall h :: h in Snapshot(b, e) ==> Call(e, h, d, OneShot) in Delivered(b, e, d)
    ensures forall c :: c in Delivered(b, e, d) ==>
      && c.event == e && c.data == d
      && (c.phase == Persistent ==> c.handler in Get(b.handlers, e))
      && (c.phase == OneShot ==> c.handler in Snapshot(b, e))
    ensures forall h :: h in CaughtBy(b, e) <==> h.throws && (h in Get(b.handlers, e) || h in Snapshot(b, e))
  {
    var p, snap := Get(b.handlers, e), Snapshot(b, e);
    var r := Delivered(b, e, d);
    forall h | h in p ensures Call(e, h, d, Persistent) in r {
      var k :| 0 <= k < |p| && p[k] == h;
      assert r[k] == Call(e, h, d, Persistent);
    }
    forall h | h in snap ensures Call(e, h, d, OneShot) in r {
      var k :| 0 <= k < |snap| && snap[k] == h;
      assert r[|p| + k] == Call(e, h, d, OneShot);
    }
    NothingElseRuns(b, e, d);
  }

  /** Every call of `Calls(e, hs, d, phase)` is for `e` with `d`, in `phase`, to
      a handler of `hs`. */
  lemma CallsMembers<D>(e: string, hs: seq<Handler>, d: D, phase: Phase)
    ensures forall c :: c in Calls(e, hs, d, phase) ==> c.phase == phase && c.handler in hs
  {
    var r := Calls(e, hs, d, phase);
    forall c | c in r ensures c.phase == phase && c.handler in hs {
      var k :| 0 <= k < |r| && r[k] == c;
    }
  }

  /** Every call `emit(e, d)` makes goes to a persistent handler of `e` or to a
      handler of the snapshot, in its own phase. */
  lemma NothingElseRuns<D>(b: Bus, e: string, d: D)
    ensures forall c :: c in Delivered(b, e, d) ==>
      && (c.phase == Persistent ==> c.handler in Get(b.handlers, e))
      && (c.phase == OneShot ==> c.handler in Snapshot(b, e))
  {
    CallsMembers(e, Get(b.handlers, e), d, Persistent);
    CallsMembers(e, Snapshot(b, e), d, OneShot);
  }

  /** Who is subscribed for `e` once handlers `hs` have resubscribed themselves. */
  lemma {:induction false} ResubscribedMembers(m: Registry, e: string, hs: seq<Handler>, h: Handler)
    ensures h in Get(Resubscribed(m, e, hs), e) <==> h in Get(m, e) || (h in hs && h.subscribesOnce)
    decreases |hs|
  {
    if hs != [] {
      var init := hs[..|hs| - 1];
      ResubscribedMembers(m, e, init, h);
      assert hs == init + [hs[|hs| - 1]];
    }
  }

  lemma {:induction false} ResubscribedKeeps(m: Registry, e: string, hs: seq<Handler>)
    ensures e in m ==> e in Resubscribed(m, e, hs) && m[e] <= Resubscribed(m, e, hs)[e]
    ensures (exists i :: 0 <= i < |hs| && hs[i].subscribesOnce) ==> e in Resubscribed(m, e, hs)
    decreases |hs|
  {
    if hs != [] {
      var init := hs[..|hs| - 1];
      ResubscribedKeeps(m, e, init);
      if exists i :: 0 <= i < |hs| && hs[i].subscribesOnce {
        var i :| 0 <= i < |hs| && hs[i].subscribesOnce;
        if i < |hs| - 1 {
          assert init[i] == hs[i];
        }
      }
    }
  }

  /** After `on(e, h)`, `emit(e, d)` calls `h` with `d`, in the persistent phase,
      exactly once: the store is a set, so registering `h` twice is registering
      it once. */
  lemma OnThenEmit<D>(b: Bus, e: string, h: Handler, d: D)
    requires ValidBus(b)
    ensures var r := Delivered(Listen(b, e, h), e, d);
      && Call(e, h, d, Persistent) in r
      && forall i, j :: 0 <= i < j < |r| && r[i] == Call(e, h, d, Persistent) ==> r[j] != r[i]
  {
    var b' := Listen(b, e, h);
    assert Get(b'.handlers, e) == Add(Get(b.handlers, e), h);
    CallsPersistentEach(e, Get(b'.handlers, e), Snapshot(b', e), d, h);
  }

  lemma OnIsIdempotent(b: Bus, e: string, h: Handler)
    ensures Listen(Listen(b, e, h), e, h) == Listen(b, e, h)
  {
  }

  /** A one-shot handler that does not subscribe itself again is gone from the
      once set of `e` after one `emit(e)`, and `emit` on any other event leaves that
      set alone. */
  lemma OnceIsConsumed(b: Bus, e: string, x: string, h: Handler)
    requires !h.subscribesOnce
    ensures x == e ==> h !in Get(Emitted(b, x).once, e)
    ensures x != e ==> Get(Emitted(b, x).once, e) == Get(b.once, e)
  {
    if x == e {
      ResubscribedMembers(AfterPersistent(b, e) - {e}, e, Snapshot(b, e), h);
    }
  }

  /** A handler that calls `once(e, itself)` while it runs as a one-shot handler is
      invoked once in that `emit`, and is registered for the next one. */
  lemma ResubscribedNotReinvoked<D>(b: Bus, e: string, h: Handler, d: D)
    requires ValidBus(b)
    requires h in Snapshot(b, e) && h.subscribesOnce
    ensures var r := Delivered(b, e, d);
      && Call(e, h, d, OneShot) in r
      && forall i, j :: 0 <= i < j < |r| && r[i] == Call(e, h, d, OneShot) ==> r[j] != r[i]
    ensures h in Get(Emitted(b, e).once, e)
  {
    var snap := Snapshot(b, e);
    ResubscribedMembers(AfterPersistent(b, e) - {e}, e, snap, h);
    assert ValidRegistry(AfterPersistent(b, e));
    CallsOnceEach(e, Get(b.handlers, e), snap, d, h);
  }

  /** In the calls of a persistent phase followed by a one-shot phase over
      handlers without repeats, a one-shot call of `h` occurs at most once. */
  lemma CallsOnceEach<D>(e: string, p: seq<Handler>, snap: seq<Handler>, d: D, h: Handler)
    requires NoDup(snap) && h in snap
    ensures var r := Calls(e, p, d, Persistent) + Calls(e, snap, d, OneShot);
      && Call(e, h, d, OneShot) in r
      && forall i, j :: 0 <= i < j < |r| && r[i] == Call(e, h, d, OneShot) ==> r[j] != r[i]
  {
    var pc, sc := Calls(e, p, d, Persistent), Calls(e, snap, d, OneShot);
    var r := pc + sc;
    var k :| 0 <= k < |snap| && snap[k] == h;
    assert r[|p| + k] == sc[k];
    forall i, j | 0 <= i < j < |r| && r[i] == Call(e, h, d, OneShot)
      ensures r[j] != r[i]
    {
      assert i >= |p|;
      assert r[i] == sc[i - |p|] && r[j] == sc[j - |p|];
      assert snap[i - |p|] != snap[j - |p|];
    }
  }

  /** In the calls of a persistent phase over handlers without repeats followed
      by a one-shot phase, a persistent call of `h` occurs at most once. */
  lemma CallsPersistentEach<D>(e: string, p: seq<Handler>, snap: seq<Handler>, d: D, h: Handler)
    requires NoDup(p) && h in p
    ensures var r := Calls(e, p, d, Persistent) + Calls(e, snap, d, OneShot);
      && Call(e, h, d, Persistent) in r
      && forall i, j :: 0 <= i < j < |r| && r[i] == Call(e, h, d, Persistent) ==> r[j] != r[i]
  {
    var pc, sc := Calls(e, p, d, Persistent), Calls(e, snap, d, OneShot);
    var r := pc + sc;
    var k :| 0 <= k < |p| && p[k] == h;
    assert r[k] == pc[k];
    forall i, j | 0 <= i < j < |r| && r[i] == Call(e, h, d, Persistent)
      ensures r[j] != r[i]
    {
      assert i < |p|;
      if j < |p| {
        assert r[i] == pc[i] && r[j] == pc[j];
        assert p[i] != p[j];
      }
    }
  }

  /** A run of emits, on any events, with no other calls in between. */
  function EmitRun<D>(b: Bus, evs: seq<(string, D)>): (seq<Call<D>>, Bus)
    decreases |evs|
  {
    if evs == [] then ([], b)
    else
      var (e, d) := evs[0];
      var rest := EmitRun(Emitted(b, e), evs[1..]);
      (Delivered(b, e, d) + rest.0, rest.1)
  }

  /** How many one-shot invocations of `h` for event `e` there are in `calls`. */
  function OneShotCount<D>(calls: seq<Call<D>>, e: string, h: Handler): nat
    decreases |calls|
  {
    if calls == [] then 0
    else (if calls[0].event == e && calls[0].handler == h && calls[0].phase == OneShot then 1 else 0)
         + OneShotCount(calls[1..], e, h)
  }

  lemma {:induction false} OneShotCountAppend<D>(a: seq<Call<D>>, b: seq<Call<D>>, e: string, h: Handler)
    ensures OneShotCount(a + b, e, h) == OneShotCount(a, e, h) + OneShotCount(b, e, h)
    decreases |a|
  {
    if a == [] {
      assert a + b == b;
    } else {
      assert (a + b)[0] == a[0];
      assert (a + b)[1..] == a[1..] + b;
      OneShotCountAppend(a[1..], b, e, h);
    }
  }

  /** How many one-shot invocations of `h` for `e` a single emit makes. */
  lemma {:induction false} OneShotCountOfDelivered<D>(b: Bus, x: string, d: D, e: string, h: Handler)
    requires ValidBus(b)
    ensures x != e ==> OneShotCount(Delivered(b, x, d), e, h) == 0
    ensures x == e && h !in Snapshot(b, x) ==> OneShotCount(Delivered(b, x, d), e, h) == 0
    ensures x == e ==> OneShotCount(Delivered(b, x, d), e, h) <= 1
  {
    var p := Calls(x, Get(b.handlers, x), d, Persistent);
    var snap := Snapshot(b, x);
    var o := Calls(x, snap, d, OneShot);
    OneShotCountAppend(p, o, e, h);
    NoOneShot(p, e, h);
    assert ValidRegistry(AfterPersistent(b, x));
    assert NoDup(snap);
    CountDistinct(o, x, snap, d, e, h);
  }

  lemma {:induction false} NoOneShot<D>(calls: seq<Call<D>>, e: string, h: Handler)
    requires forall i :: 0 <= i < |calls| ==> calls[i].phase == Persistent
    ensures OneShotCount(calls, e, h) == 0
    decreases |calls|
  {
    if calls != [] {
      NoOneShot(calls[1..], e, h);
    }
  }

  lemma {:induction false} CountDistinct<D>(o: seq<Call<D>>, x: string, hs: seq<Handler>, d: D, e: string, h: Handler)
    requires NoDup(hs) && o == Calls(x, hs, d, OneShot)
    ensures OneShotCount(o, e, h) <= 1
    ensures (x != e || h !in hs) ==> OneShotCount(o, e, h) == 0
    decreases |hs|
  {
    if hs != [] {
      assert o[1..] == Calls(x, hs[1..], d, OneShot);
      assert NoDup(hs[1..]) by {
        forall i, j | 0 <= i < j < |hs| - 1 ensures hs[1..][i] != hs[1..][j] {
          assert hs[1..][i] == hs[i + 1] && hs[1..][j] == hs[j + 1];
        }
      }
      CountDistinct(o[1..], x, hs[1..], d, e, h);
      if hs[0] == h {
        assert h !in hs[1..] by {
          forall i | 0 <= i < |hs| - 1 ensures hs[1..][i] != h {
            assert hs[1..][i] == hs[i + 1];
          }
        }
      }
    }
  }

  /** A one-shot handler fires on at most one emit of its event, however many
      emits (of any events) follow, unless it subscribes itself again. */
  lemma {:induction false} OnceFiresAtMostOnce<D>(b: Bus, evs: seq<(string, D)>, e: string, h: Handler)
    requires ValidBus(b) && !h.subscribesOnce
    ensures OneShotCount(EmitRun(b, evs).0, e, h) <= 1
    ensures h !in Get(b.once, e) ==> OneShotCount(EmitRun(b, evs).0, e, h) == 0
    decreases |evs|
  {
    if evs != [] {
      var (x, d) := evs[0];
      var b' := Emitted(b, x);
      OneShotCountAppend(Delivered(b, x, d), EmitRun(b', evs[1..]).0, e, h);
      OneShotCountOfDelivered(b, x, d, e, h);
      OnceIsConsumed(b, e, x, h);
      ResubscribedMembers(b.once, x, Get(b.handlers, x), h);
      OnceFiresAtMostOnce(b', evs[1..], e, h);
      if x == e {
        assert h !in Get(b'.once, e);
      } else {
        assert Get(b'.once, e) == Get(b.once, e);
        if h in Snapshot(b, x) {
          assert OneShotCount(Delivered(b, x, d), e, h) == 0;
        }
      }
    }
  }

  /** `off(e)` silences `e`: the next `emit(e)` invokes nothing. */
  lemma OffAllSilences<D>(b: Bus, e: string, d: D)
    ensures Delivered(OffAll(b, e), e, d) == []
    ensures forall k :: k != e && k in b.handlers ==> k in OffAll(b, e).handlers && OffAll(b, e).handlers[k] == b.handlers[k]
  {
    assert Get(OffAll(b, e).handlers, e) == [];
    assert Snapshot(OffAll(b, e), e) == [];
  }

  /** `off(e, h)` removes exactly `h`, from both sets of `e`, and is a no-op when
      `h` is registered for neither. */
  lemma OffOneRemovesOnlyIt(b: Bus, e: string, h: Handler)
    ensures h !in Get(OffOne(b, e, h).handlers, e) && h !in Get(OffOne(b, e, h).once, e)
    ensures forall g :: g != h ==> (g in Get(OffOne(b, e, h).handlers, e) <==> g in Get(b.handlers, e))
    ensures forall g :: g != h ==> (g in Get(OffOne(b, e, h).once, e) <==> g in Get(b.once, e))
    ensures h !in Get(b.handlers, e) && h !in Get(b.once, e) ==> OffOne(b, e, h) == b
  {
  }

  /** The EventBus object. */
  class EventBus<D> {
    var handlers: Registry
    var onceHandlers: Registry
    /** Every `emit` call so far, for stating what the callers of the bus publish. */
    ghost var published: seq<(string, D)>

    function State(): Bus
      reads this
    {
      Bus(handlers, onceHandlers)
    }

    ghost predicate Valid()
      reads this
    {
      ValidBus(State())
    }

    constructor()
      ensures Valid() && State() == Bus(map[], map[]) && published == []
    {
      handlers := map[];
      onceHandlers := map[];
      published := [];
    }

    /** `on` returns nothing here, although the `IEventBus` interface promises an
        unsubscribe function. */
    method On(e: string, h: Handler)
      requires Valid()
      modifies this
      ensures Valid() && State() == Listen(old(State()), e, h) && published == old(published)
    {
      var current := if e in handlers then handlers[e] else [];
      handlers := handlers[e := Add(current, h)];
    }

    method Off(e: string, h: Option<Handler>)
      requires Valid()
      modifies this
      ensures Valid() && published == old(published)
      ensures h.None? ==> State() == OffAll(old(State()), e)
      ensures h.Some? ==> State() == OffOne(old(State()), e, h.value)
    {
      if h.None? {
        handlers := handlers - {e};
        onceHandlers := onceHandlers - {e};
        return;
      }
      if e in handlers {
        handlers := handlers[e := Remove(handlers[e], h.value)];
      }
      if e in onceHandlers {
        onceHandlers := onceHandlers[e := Remove(onceHandlers[e], h.value)];
      }
    }

    method Once(e: string, h: Handler)
      requires Valid()
      modifies this
      ensures Valid() && State() == ListenOnce(old(State()), e, h) && published == old(published)
    {
      var current := if e in onceHandlers then onceHandlers[e] else [];
      onceHandlers := onceHandlers[e := Add(current, h)];
    }

    /** The loop `for (const handler of hs) { try { handler(data) } catch … }`
        that `emit` runs twice, once per phase. */
    method Invoke(e: string, hs: seq<Handler>, d: D, phase: Phase) returns (calls: seq<Call<D>>, caught: seq<Handler>)
      requires Valid()
      modifies this
      ensures Valid() && handlers == old(handlers) && published == old(published)
      ensures onceHandlers == Resubscribed(old(onceHandlers), e, hs)
      ensures calls == Calls(e, hs, d, phase)
      ensures caught == Throwing(hs)
    {
      calls, caught := [], [];
      for i := 0 to |hs|
        invariant Valid() && handlers == old(handlers) && published == old(published)
        invariant onceHandlers == Resubscribed(old(onceHandlers), e, hs[..i])
        invariant calls == Calls(e, hs[..i], d, phase)
        invariant caught == Throwing(hs[..i])
      {
        var h := hs[i];
        InvokeStep(old(onceHandlers), e, hs, i, d, phase);
        calls := calls + [Call(e, h, d, phase)];
        if h.subscribesOnce {
          Once(e, h);
        }
        if h.throws {
          caught := caught + [h];
        }
      }
      assert hs[..|hs|] == hs;
    }

    /** Runs every handler; a handler's exception is caught (and logged), so it
        never stops the others and never leaves `emit`. */
    method Emit(e: string, d: D) returns (calls: seq<Call<D>>, caught: seq<Handler>)
      requires Valid()
      modifies this
      ensures Valid()
      ensures calls == Delivered(old(State()), e, d)
      ensures caught == CaughtBy(old(State()), e)
      ensures State() == Emitted(old(State()), e)
      ensures published == old(published) + [(e, d)]
    {
      ghost var b := State();
      calls, caught := [], [];
      if e in handlers {
        calls, caught := Invoke(e, handlers[e], d, Persistent);
      }
      assert onceHandlers == AfterPersistent(b, e);
      if e in onceHandlers {
        var snapshot := onceHandlers[e];
        onceHandlers := onceHandlers - {e};
        var more, moreCaught := Invoke(e, snapshot, d, OneShot);
        calls, caught := calls + more, caught + moreCaught;
      } else {
        assert onceHandlers - {e} == onceHandlers;
      }
      published := published + [(e, d)];
    }
  }
}
