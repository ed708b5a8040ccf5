/** The layer bookkeeping of src/services/layer/layerService.ts: an
    insertion-ordered map from layer id to layer, and named groups, each an
    insertion-ordered set of layer ids. Making a layer (the Cesium providers
    behind `_createImageryLayer` and its siblings) and destroying one are
    outside the model: their outcomes are parameters. */
module LayerCatalog {
  import opened Wrappers
  import opened Ordered
  import opened Messages
  import opened BaseLayers

  /** A layer object: its id and `type` come from its options; `handle` stands
      for the Cesium object behind it. */
  datatype Layer = Layer(id: string, kind: string, handle: nat)

  type Groups = OMap<string, seq<string>>

  /** `_layers` and `_layerGroups`. */
  datatype Catalog = Catalog(layers: OMap<string, Layer>, groups: Groups)

  ghost predicate ValidGroups(gs: Groups) {
    gs.Valid() && forall g :: g in gs.entries ==> NoDup(gs.entries[g])
  }

  ghost predicate ValidCatalog(c: Catalog) {
    c.layers.Valid() && ValidGroups(c.groups)
  }

  /** Every id in a group names a layer of the map. */
  ghost predicate GroupsKnown(c: Catalog) {
    forall g, id :: g in c.groups.entries && id in c.groups.entries[g] ==> id in c.layers.entries
  }

  function EmptyCatalog(): (c: Catalog)
    ensures ValidCatalog(c) && GroupsKnown(c)
  {
    Catalog(EmptyMap(), EmptyMap())
  }

  /** Whether `layer.destroy()` was called, and the events emitted. */
  datatype Effect = DestroyCalled(id: string) | Published(message: Message)

  datatype AddResult = AddResult(result: Result<Layer, Error>, after: Catalog, effects: seq<Effect>)

  datatype RemoveResult = RemoveResult(removed: bool, after: Catalog, effects: seq<Effect>)

  /** The layer types `addLayer` knows how to build. */
  predicate Buildable(kind: string) {
    kind == "imagery" || kind == "tileset" || kind == "geojson" || kind == "custom"
  }

  function LayerError(o: LayerOptions, e: Error): Effect {
    Published(Message("layer.error", LayerErrorData(o.id, o.kind, e)))
  }

  /** The members of group `g` (none if there is no such group). */
  function Members(gs: Groups, g: string): seq<string> {
    if g in gs.entries then gs.entries[g] else []
  }

  /** `_addLayerToGroup(id, g)`: creates the group if needed and adds `id`. */
  function Joined(gs: Groups, g: string, id: string): (r: Groups)
    ensures ValidGroups(gs) ==> ValidGroups(r)
    ensures g in r.entries && r.entries[g] == Add(Members(gs, g), id)
    ensures forall h :: h != g ==> (h in r.entries <==> h in gs.entries)
    ensures forall h :: h != g && h in gs.entries ==> r.entries[h] == gs.entries[h]
  {
    gs.Put(g, Add(Members(gs, g), id))
  }

  /** `_removeLayerFromAllGroups(id)`: every group loses `id`, and no group goes
      away. */
  function Ungrouped(gs: Groups, id: string): (r: Groups)
    ensures r.keys == gs.keys && r.entries.Keys == gs.entries.Keys
    ensures ValidGroups(gs) ==> ValidGroups(r)
    ensures forall g :: g in r.entries ==> r.entries[g] == Remove(gs.entries[g], id)
  {
    OMap(gs.keys, map g | g in gs.entries :: Remove(gs.entries[g], id))
  }

  /** The groups after a layer is filed: it joins `group` when that names one
      (`if (options.group)`). */
  function Grouped(gs: Groups, group: Option<string>, id: string): (r: Groups)
    ensures ValidGroups(gs) ==> ValidGroups(r)
    ensures forall g, x :: g in r.entries && x in r.entries[g] ==> x == id || (g in gs.entries && x in gs.entries[g])
  {
    if group.Some? && group.value != "" then Joined(gs, group.value, id) else gs
  }

  /** `addLayer(options)` when building the layer would end with `created`:
      a duplicate id throws before anything happens; a terrain, unknown or
      failed layer announces `layer.error` and throws; otherwise the layer is
      filed and, when a non-empty group is named, joins it. */
  function LayerAdded(c: Catalog, o: LayerOptions, created: Result<nat, Error>): (r: AddResult)
    ensures o.id in c.layers.entries ==> r == AddResult(Err(DuplicateLayerId(o.id)), c, [])
    ensures r.result.Err? ==> r.after == c
    ensures r.result.Ok? <==> o.id !in c.layers.entries && Buildable(o.kind) && created.Ok?
    ensures r.result.Ok? ==> r.result.value == Layer(o.id, o.kind, created.value)
    ensures r.result.Ok? ==> r.after == Catalog(c.layers.Put(o.id, r.result.value), Grouped(c.groups, o.group, o.id))
  {
    if o.id in c.layers.entries then AddResult(Err(DuplicateLayerId(o.id)), c, [])
    else if o.kind == "terrain" then AddResult(Err(TerrainLayerNotSupported), c, [LayerError(o, TerrainLayerNotSupported)])
    else if !Buildable(o.kind) then AddResult(Err(UnsupportedLayerType(o.kind)), c, [LayerError(o, UnsupportedLayerType(o.kind))])
    else if created.Err? then AddResult(Err(created.error), c, [LayerError(o, created.error)])
    else
      var l := Layer(o.id, o.kind, created.value);
      AddResult(Ok(l), Catalog(c.layers.Put(o.id, l), Grouped(c.groups, o.group, o.id)), [Published(Message("layer.added", IdData(o.id)))])
  }

  /** `removeLayer(id)` when the layer's `destroy` would end with `destroy`: the
      id leaves every group first, so a failing `destroy` leaves it in the map
      but in no group. */
  function LayerRemoved(c: Catalog, id: string, destroy: Outcome<Error>): (r: RemoveResult)
    ensures id !in c.layers.entries ==> r == RemoveResult(false, c, [])
    ensures id in c.layers.entries ==> r.after.groups == Ungrouped(c.groups, id)
    ensures id in c.layers.entries && destroy.Pass? ==> r.removed && r.after.layers == c.layers.Delete(id)
    ensures id in c.layers.entries && destroy.Fail? ==> !r.removed && r.after.layers == c.layers
  {
    if id !in c.layers.entries then RemoveResult(false, c, [])
    else
      var gs := Ungrouped(c.groups, id);
      if destroy.Fail? then
        RemoveResult(false, Catalog(c.layers, gs), [DestroyCalled(id), Published(Message("layer.error", IdErrorData(id, destroy.error)))])
      else
        RemoveResult(true, Catalog(c.layers.Delete(id), gs), [DestroyCalled(id), Published(Message("layer.removed", IdData(id)))])
  }

  /** `Array.from(group).map(id => layers.get(id)).filter(Boolean)`. */
  function Present(ids: seq<string>, m: map<string, Layer>): (r: seq<Layer>)
    ensures |r| <= |ids|
    ensures forall x :: x in r ==> exists id :: id in ids && id in m && m[id] == x
    ensures forall id :: id in ids && id in m ==> m[id] in r
    ensures (forall id :: id in ids ==> id in m) ==> |r| == |ids| && forall i :: 0 <= i < |ids| ==> r[i] == m[ids[i]]
    decreases |ids|
  {
    if ids == [] then []
    else
      var rest := Present(ids[1..], m);
      assert forall id :: id in ids[1..] ==> id in ids;
      (if ids[0] in m then [m[ids[0]]] else []) + rest
  }

  /** `getLayersByGroup(g)`. */
  function LayersByGroup(c: Catalog, g: string): (r: seq<Layer>)
    ensures g !in c.groups.entries ==> r == []
  {
    if g !in c.groups.entries then [] else Present(c.groups.entries[g], c.layers.entries)
  }

  /** The layers of `ls` of type `kind`, in order and with repeats kept; see
      `OfKindFilter`. */
  function OfKind(ls: seq<Layer>, kind: string): (r: seq<Layer>)
    ensures forall x :: x in r <==> x in ls && x.kind == kind
    ensures |r| <= |ls|
    decreases |ls|
  {
    if ls == [] then []
    else OfKind(ls[..|ls| - 1], kind) + (if ls[|ls| - 1].kind == kind then [ls[|ls| - 1]] else [])
  }

  /** `getLayersByType(kind)`: a filter of `getLayers()`, in insertion order. */
  function LayersByKind(c: Catalog, kind: string): (r: seq<Layer>)
    requires c.layers.Valid()
    ensures forall x :: x in r <==> x in c.layers.entries.Values && x.kind == kind
    ensures r == OfKind(c.layers.Values(), kind)
  {
    var vs := c.layers.Values();
    assert forall x :: x in c.layers.entries.Values ==> x in vs by {
      forall x | x in c.layers.entries.Values ensures x in vs {
        var k :| k in c.layers.entries && c.layers.entries[k] == x;
        assert k in c.layers.keys;
        var i :| 0 <= i < |c.layers.keys| && c.layers.keys[i] == k;
        assert vs[i] == x;
      }
    }
    OfKind(vs, kind)
  }

  /** The `forEach(id => this.removeLayer(id))` of `clearLayers`. */
  function RemovedEach(c: Catalog, ids: seq<string>, destroy: string -> Outcome<Error>): (r: (Catalog, seq<Effect>))
    decreases |ids|
  {
    if ids == [] then (c, [])
    else
      var p := RemovedEach(c, ids[..|ids| - 1], destroy);
      var q := LayerRemoved(p.0, ids[|ids| - 1], destroy(ids[|ids| - 1]));
      (q.after, p.1 + q.effects)
  }

  /** One more id removed from the front of `ids`. */
  lemma RemovedEachStep(c: Catalog, ids: seq<string>, i: nat, destroy: string -> Outcome<Error>)
    requires i < |ids|
    ensures var p := RemovedEach(c, ids[..i], destroy);
      var q := LayerRemoved(p.0, ids[i], destroy(ids[i]));
      RemovedEach(c, ids[..i + 1], destroy) == (q.after, p.1 + q.effects)
  {
    assert ids[..i + 1][..i] == ids[..i];
  }

  /** A duplicate id is refused before anything happens. */
  lemma DuplicateRefused(c: Catalog, o: LayerOptions, created: Result<nat, Error>)
    requires o.id in c.layers.entries
    ensures LayerAdded(c, o, created) == AddResult(Err(DuplicateLayerId(o.id)), c, [])
  {
  }

  /** A terrain layer, or a type the service does not build, is refused with
      `layer.error` and nothing filed. */
  lemma UnbuildableRefused(c: Catalog, o: LayerOptions, created: Result<nat, Error>)
    requires o.id !in c.layers.entries && !Buildable(o.kind)
    ensures var e := if o.kind == "terrain" then TerrainLayerNotSupported else UnsupportedLayerType(o.kind);
      LayerAdded(c, o, created) == AddResult(Err(e), c, [LayerError(o, e)])
  {
  }

  /** A successful `addLayer` files the layer under its id, after the others,
      puts the id in the named group (making it if it is new), and touches no
      other layer or group. */
  lemma AddFiles(c: Catalog, o: LayerOptions, h: nat)
    requires ValidCatalog(c) && o.id !in c.layers.entries && Buildable(o.kind)
    ensures var r := LayerAdded(c, o, Ok(h));
      && r.result == Ok(Layer(o.id, o.kind, h))
      && r.after.layers.keys == c.layers.keys + [o.id]
      && r.after.layers.entries == c.layers.entries[o.id := Layer(o.id, o.kind, h)]
      && (o.group.Some? && o.group.value != "" ==>
            o.group.value in r.after.groups.entries && o.id in r.after.groups.entries[o.group.value])
      && (forall g :: (o.group.None? || o.group.value == "" || g != o.group.value) && g in c.groups.entries ==>
            g in r.after.groups.entries && r.after.groups.entries[g] == c.groups.entries[g])
      && r.effects == [Published(Message("layer.added", IdData(o.id)))]
  {
    assert o.id !in c.layers.keys;
  }

  /** The filter keeps the layers of the type one by one and in order: a
      single layer is kept exactly when it has the type, and filtering a
      concatenation filters each part. */
  lemma {:induction false} OfKindFilter(a: seq<Layer>, b: seq<Layer>, x: Layer, kind: string)
    ensures OfKind([x], kind) == (if x.kind == kind then [x] else [])
    ensures OfKind(a + b, kind) == OfKind(a, kind) + OfKind(b, kind)
    decreases |b|
  {
    assert [x][..0] == [];
    if b == [] {
      assert a + b == a;
    } else {
      var b' := b[..|b| - 1];
      assert (a + b)[..|a + b| - 1] == a + b';
      OfKindFilter(a, b', x, kind);
    }
  }

  /** A layer added under a new id comes last in `getLayersByType` of its type,
      after those listed before, and leaves the listing of other types as it
      was. */
  lemma AddListsLast(c: Catalog, o: LayerOptions, h: nat, kind: string)
    requires ValidCatalog(c) && o.id !in c.layers.entries && Buildable(o.kind)
    ensures LayerAdded(c, o, Ok(h)).after.layers.Valid()
    ensures LayersByKind(LayerAdded(c, o, Ok(h)).after, kind) ==
            LayersByKind(c, kind) + (if o.kind == kind then [Layer(o.id, o.kind, h)] else [])
  {
    AddFiles(c, o, h);
    var x := Layer(o.id, o.kind, h);
    var after := LayerAdded(c, o, Ok(h)).after.layers;
    assert after.Values() == c.layers.Values() + [x] by {
      var vs, ws := after.Values(), c.layers.Values() + [x];
      assert |vs| == |ws|;
      forall i | 0 <= i < |vs| ensures vs[i] == ws[i] {
        if i < |c.layers.keys| {
          assert after.keys[i] == c.layers.keys[i];
          assert c.layers.keys[i] != o.id;
        }
      }
    }
    OfKindFilter(c.layers.Values(), [x], x, kind);
  }

  /** A successful removal takes the id out of the map and out of every group;
      a failing `destroy` takes it out of every group only. */
  lemma RemoveForgets(c: Catalog, id: string, destroy: Outcome<Error>)
    requires ValidCatalog(c) && id in c.layers.entries
    ensures var r := LayerRemoved(c, id, destroy);
      && (forall g :: g in r.after.groups.entries ==> id !in r.after.groups.entries[g])
      && (r.removed <==> destroy.Pass?)
      && (id in r.after.layers.entries <==> destroy.Fail?)
      && DestroyCalled(id) in r.effects
  {
  }

  /** Every layer is filed under its own id. */
  ghost predicate Filed(c: Catalog) {
    forall k :: k in c.layers.entries ==> c.layers.entries[k].id == k
  }

  /** `addLayer` keeps group members naming filed layers, each under its id. */
  lemma AddKeepsGroupsKnown(c: Catalog, o: LayerOptions, created: Result<nat, Error>)
    requires ValidCatalog(c) && GroupsKnown(c) && Filed(c)
    ensures var r := LayerAdded(c, o, created).after;
      ValidCatalog(r) && GroupsKnown(r) && Filed(r)
  {
    var r := LayerAdded(c, o, created);
    if r.result.Ok? {
      var ls := c.layers.Put(o.id, r.result.value);
      assert ls.entries == c.layers.entries[o.id := r.result.value];
    }
  }

  /** So does `removeLayer`, whether or not `destroy` fails. */
  lemma RemoveKeepsGroupsKnown(c: Catalog, id: string, destroy: Outcome<Error>)
    requires ValidCatalog(c) && GroupsKnown(c) && Filed(c)
    ensures var r := LayerRemoved(c, id, destroy).after;
      ValidCatalog(r) && GroupsKnown(r) && Filed(r)
  {
    var r := LayerRemoved(c, id, destroy).after;
    if id in c.layers.entries {
      forall g, x | g in r.groups.entries && x in r.groups.entries[g]
        ensures x in r.layers.entries
      {
        assert x in c.groups.entries[g] && x != id;
      }
    }
  }

  /** While group members name filed layers, `getLayersByGroup` skips none of
      them: it returns the group's layers in the order they joined. */
  lemma ByGroupSkipsNone(c: Catalog, g: string)
    requires GroupsKnown(c) && g in c.groups.entries
    ensures var ids := c.groups.entries[g];
      |LayersByGroup(c, g)| == |ids| &&
      forall i :: 0 <= i < |ids| ==> LayersByGroup(c, g)[i] == c.layers.entries[ids[i]]
  {
  }

  /** What `Present` lists is filed under one of the given ids. */
  lemma {:induction false} PresentFromIds(ids: seq<string>, m: map<string, Layer>)
    requires forall k :: k in m ==> m[k].id == k
    ensures forall x :: x in Present(ids, m) ==> x.id in ids
    decreases |ids|
  {
    if ids != [] {
      PresentFromIds(ids[1..], m);
      assert forall k :: k in ids[1..] ==> k in ids;
    }
  }

  /** A layer whose `destroy` fails stays in the map without a group, and
      `getLayersByGroup` no longer lists it. */
  lemma FailedDestroyUnlisted(c: Catalog, id: string, e: Error, g: string)
    requires ValidCatalog(c) && Filed(c) && id in c.layers.entries
    ensures var r := LayerRemoved(c, id, Fail(e));
      && id in r.after.layers.entries
      && c.layers.entries[id] !in LayersByGroup(r.after, g)
  {
    var r := LayerRemoved(c, id, Fail(e)).after;
    if g in r.groups.entries {
      PresentFromIds(r.groups.entries[g], r.layers.entries);
      assert id !in r.groups.entries[g];
    }
  }

  /** The groups part-way through `_removeLayerFromAllGroups`: those in `done`
      have lost `id`. */
  function Swept(m: map<string, seq<string>>, done: seq<string>, id: string): map<string, seq<string>> {
    map g | g in m :: if g in done then Remove(m[g], id) else m[g]
  }

  lemma SweptStep(m: map<string, seq<string>>, keys: seq<string>, i: nat, id: string)
    requires i < |keys| && keys[i] in m
    ensures var w := Swept(m, keys[..i], id);
      Swept(m, keys[..i + 1], id) == w[keys[i] := Remove(w[keys[i]], id)]
  {
    assert keys[..i + 1] == keys[..i] + [keys[i]];
  }

  lemma SweptAll(gs: Groups, id: string)
    requires ValidGroups(gs)
    ensures OMap(gs.keys, Swept(gs.entries, gs.keys[..|gs.keys|], id)) == Ungrouped(gs, id)
  {
    assert gs.keys[..|gs.keys|] == gs.keys;
  }

  class LayerService {
    var layers: OMap<string, Layer>
    var groups: Groups
    var effects: seq<Effect>

    function State(): Catalog
      reads this
    {
      Catalog(layers, groups)
    }

    ghost predicate Valid()
      reads this
    {
      ValidCatalog(State())
    }

    constructor()
      ensures Valid() && State() == EmptyCatalog() && effects == []
    {
      layers, groups, effects := EmptyMap(), EmptyMap(), [];
    }

    /** `addLayer(options)`; `created` is how building the layer ends. */
    method AddLayer(o: LayerOptions, created: Result<nat, Error>) returns (r: Result<Layer, Error>)
      requires Valid()
      modifies this
      ensures Valid()
      ensures r == LayerAdded(old(State()), o, created).result
      ensures State() == LayerAdded(old(State()), o, created).after
      ensures effects == old(effects) + LayerAdded(old(State()), o, created).effects
    {
      if o.id in layers.entries {
        return Err(DuplicateLayerId(o.id));
      }
      var failure: Option<Error> := None;
      if o.kind == "terrain" {
        failure := Some(TerrainLayerNotSupported);
      } else if !Buildable(o.kind) {
        failure := Some(UnsupportedLayerType(o.kind));
      } else if created.Err? {
        failure := Some(created.error);
      }
      if failure.Some? {
        effects := effects + [LayerError(o, failure.value)];
        return Err(failure.value);
      }
      var l := Layer(o.id, o.kind, created.value);
      layers := layers.Put(o.id, l);
      if o.group.Some? && o.group.value != "" {
        AddLayerToGroup(o.id, o.group.value);
      }
      effects := effects + [Published(Message("layer.added", IdData(o.id)))];
      r := Ok(l);
    }

    method AddLayerToGroup(id: string, g: string)
      requires Valid()
      modifies this
      ensures Valid() && layers == old(layers) && effects == old(effects)
      ensures groups == Joined(old(groups), g, id)
    {
      var members := if g in groups.entries then groups.entries[g] else [];
      groups := groups.Put(g, Add(members, id));
    }

    /** The `for (const [_, group] of this._layerGroups)` loop. */
    method RemoveLayerFromAllGroups(id: string)
      requires Valid()
      modifies this
      ensures Valid() && layers == old(layers) && effects == old(effects)
      ensures groups == Ungrouped(old(groups), id)
    {
      ghost var gs, ls := groups, layers;
      assert ls.Valid() && ValidGroups(gs);
      var keys, entries := groups.keys, groups.entries;
      for i := 0 to |keys|
        invariant layers == ls && groups == gs && effects == old(effects)
        invariant entries == Swept(gs.entries, keys[..i], id)
      {
        var g := keys[i];
        SweptStep(gs.entries, keys, i, id);
        entries := entries[g := Remove(entries[g], id)];
      }
      groups := OMap(keys, entries);
      SweptAll(gs, id);
    }

    /** `removeLayer(id)`; `destroy` is how the layer's `destroy` ends. */
    method RemoveLayer(id: string, destroy: Outcome<Error>) returns (removed: bool)
      requires Valid()
      modifies this
      ensures Valid()
      ensures removed == LayerRemoved(old(State()), id, destroy).removed
      ensures State() == LayerRemoved(old(State()), id, destroy).after
      ensures effects == old(effects) + LayerRemoved(old(State()), id, destroy).effects
    {
      if id !in layers.entries {
        return false;
      }
      ghost var r := LayerRemoved(State(), id, destroy);
      RemoveLayerFromAllGroups(id);
      if destroy.Fail? {
        effects := effects + [DestroyCalled(id), Published(Message("layer.error", IdErrorData(id, destroy.error)))];
        return false;
      }
      layers := layers.Delete(id);
      effects := effects + [DestroyCalled(id), Published(Message("layer.removed", IdData(id)))];
      removed := true;
    }

    /** The loop of `clearLayers`: `removeLayer` on each id of `ids` in turn. */
    method RemoveEach(ids: seq<string>, destroy: string -> Outcome<Error>)
      requires Valid()
      modifies this
      ensures Valid()
      ensures State() == RemovedEach(old(State()), ids, destroy).0
      ensures effects == old(effects) + RemovedEach(old(State()), ids, destroy).1
    {
      ghost var c0, e0 := State(), effects;
      assert ids[..0] == [];
      for i := 0 to |ids|
        invariant Valid()
        invariant State() == RemovedEach(c0, ids[..i], destroy).0
        invariant effects == e0 + RemovedEach(c0, ids[..i], destroy).1
      {
        RemovedEachStep(c0, ids, i, destroy);
        var _ := RemoveLayer(ids[i], destroy(ids[i]));
      }
      assert ids[..|ids|] == ids;
    }

    /** `clearLayers`; `destroy(id)` is how the `destroy` of layer `id` ends.
        Whatever those do, both maps end up empty. */
    method ClearLayers(destroy: string -> Outcome<Error>)
      requires Valid()
      modifies this
      ensures Valid() && State() == EmptyCatalog()
      ensures effects == old(effects) + RemovedEach(old(State()), old(layers.keys), destroy).1
        + [Published(Message("layer.cleared", NoData))]
    {
      RemoveEach(layers.keys, destroy);
      layers, groups := EmptyMap(), EmptyMap();
      effects := effects + [Published(Message("layer.cleared", NoData))];
    }

    /** `dispose`. */
    method Dispose(destroy: string -> Outcome<Error>)
      requires Valid()
      modifies this
      ensures Valid() && State() == EmptyCatalog()
      ensures effects == old(effects) + RemovedEach(old(State()), old(layers.keys), destroy).1
        + [Published(Message("layer.cleared", NoData)), Published(Message("layer.disposed", NoData))]
    {
      ClearLayers(destroy);
      effects := effects + [Published(Message("layer.disposed", NoData))];
    }

    function GetLayersByGroup(g: string): (r: seq<Layer>)
      reads this
      ensures r == LayersByGroup(State(), g)
    {
      LayersByGroup(State(), g)
    }

    function GetLayersByType(kind: string): (r: seq<Layer>)
      reads this
      requires Valid()
      ensures r == LayersByKind(State(), kind)
    {
      LayersByKind(State(), kind)
    }
  }
}
