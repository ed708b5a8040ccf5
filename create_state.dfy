/** The reactive state cell of src/core/state/createState.ts: a record that
    `update` merges a partial record into, and a set of subscribers that every
    update notifies with the new record. */
module StateCell {
  import opened Ordered

  /** A record: its fields by name. */
  type Record<V> = map<string, V>

  /** A subscriber function, by identity: the `Set` holds each function once. */
  datatype Subscriber = Subscriber(id: nat)

  /** One call `subscriber({ ...state })` made by `update`. */
  datatype Notice<V> = Notice(subscriber: Subscriber, state: Record<V>)

  /** The closure `subscribe` returns: calling it deletes its own subscriber. */
  datatype Unsubscriber = Unsubscriber(subscriber: Subscriber)

  /** `{ ...state, ...patch }`: the fields of `patch` take their new values and
      every other field keeps its old one. */
  function Merged<V>(state: Record<V>, patch: Record<V>): (r: Record<V>)
    ensures forall k :: k in patch ==> k in r && r[k] == patch[k]
    ensures forall k :: k !in patch ==> (k in r <==> k in state)
    ensures forall k :: k !in patch && k in state ==> r[k] == state[k]
  {
    state + patch
  }

  /** The calls `subscribers.forEach(…)` makes, in insertion order. */
  function Notices<V>(subs: seq<Subscriber>, state: Record<V>): (r: seq<Notice<V>>)
    ensures |r| == |subs|
    ensures forall i :: 0 <= i < |subs| ==> r[i] == Notice(subs[i], state)
  {
    seq(|subs|, i requires 0 <= i < |subs| => Notice(subs[i], state))
  }

  /** How many of `ns` go to `s`. */
  function Received<V>(ns: seq<Notice<V>>, s: Subscriber): (n: nat)
    ensures n <= |ns|
    ensures n == 0 <==> forall i :: 0 <= i < |ns| ==> ns[i].subscriber != s
    decreases |ns|
  {
    if ns == [] then 0
    else Received(ns[..|ns| - 1], s) + (if ns[|ns| - 1].subscriber == s then 1 else 0)
  }

  /** An empty patch changes nothing. */
  lemma MergeEmpty<V>(state: Record<V>)
    ensures Merged(state, map[]) == state
  {
  }

  /** Applying the same patch twice is applying it once. */
  lemma MergeIdempotent<V>(state: Record<V>, patch: Record<V>)
    ensures Merged(Merged(state, patch), patch) == Merged(state, patch)
  {
  }

  /** Two updates in a row are one update with the second patch over the first. */
  lemma MergeComposes<V>(state: Record<V>, p: Record<V>, q: Record<V>)
    ensures Merged(Merged(state, p), q) == Merged(state, Merged(p, q))
  {
  }

  /** Each update notifies every current subscriber exactly once and nobody
      else. */
  lemma {:induction false} NotifiedOnce<V>(subs: seq<Subscriber>, state: Record<V>, s: Subscriber)
    requires NoDup(subs)
    ensures Received(Notices(subs, state), s) == if s in subs then 1 else 0
    decreases |subs|
  {
    if subs != [] {
      var init := subs[..|subs| - 1];
      assert NoDup(init);
      assert Notices(subs, state)[..|subs| - 1] == Notices(init, state);
      NotifiedOnce(init, state, s);
      assert subs == init + [subs[|subs| - 1]];
      assert s in subs <==> s in init || s == subs[|subs| - 1];
    }
  }

  /** Subscribing the same function again keeps the single registration. */
  lemma SubscribeTwice(subs: seq<Subscriber>, s: Subscriber)
    ensures Add(Add(subs, s), s) == Add(subs, s)
  {
  }

  /** After its unsubscriber runs, a subscriber gets no notice from later
      updates. */
  lemma UnsubscribedIsSilent<V>(subs: seq<Subscriber>, state: Record<V>, s: Subscriber)
    requires NoDup(subs)
    ensures Received(Notices(Remove(subs, s), state), s) == 0
  {
    NotifiedOnce(Remove(subs, s), state, s);
  }

  /** The object `createState` returns, with the closure variables `state`
      and `subscribers` as its fields. */
  class Cell<V> {
    var state: Record<V>
    var subscribers: seq<Subscriber>

    ghost predicate Valid()
      reads this
    {
      NoDup(subscribers)
    }

    /** `createState(initialState)`: a copy of the initial record, no subscribers. */
    constructor(initial: Record<V>)
      ensures Valid() && state == initial && subscribers == []
    {
      state := initial;
      subscribers := [];
    }

    /** `get`: a copy of the current record. */
    function Get(): (r: Record<V>)
      reads this
      ensures r == state
    {
      state
    }

    /** `update`: merges `patch`, then notifies every subscriber with the new
        record; the calls made are returned. */
    method Update(patch: Record<V>) returns (notices: seq<Notice<V>>)
      requires Valid()
      modifies this
      ensures Valid() && subscribers == old(subscribers)
      ensures state == Merged(old(state), patch)
      ensures notices == Notices(subscribers, state)
    {
      state := state + patch;
      notices := [];
      for i := 0 to |subscribers|
        invariant notices == Notices(subscribers[..i], state)
      {
        assert subscribers[..i + 1] == subscribers[..i] + [subscribers[i]];
        notices := notices + [Notice(subscribers[i], state)];
      }
      assert subscribers[..|subscribers|] == subscribers;
    }

    /** `subscribe`: adds `s` to the set and returns its unsubscriber. */
    method Subscribe(s: Subscriber) returns (u: Unsubscriber)
      requires Valid()
      modifies this
      ensures Valid() && state == old(state)
      ensures subscribers == Add(old(subscribers), s)
      ensures u == Unsubscriber(s)
    {
      subscribers := Add(subscribers, s);
      u := Unsubscriber(s);
    }

    /** Calling the closure `subscribe` returned. */
    method Unsubscribe(u: Unsubscriber)
      requires Valid()
      modifies this
      ensures Valid() && state == old(state)
      ensures subscribers == Remove(old(subscribers), u.subscriber)
    {
      subscribers := Remove(subscribers, u.subscriber);
    }
  }
}
