/** The terrain service of src/services/terrain/terrainService.ts: whether
    terrain is enabled and which provider was last loaded. Terrain providers are
    Cesium objects, taken by identity; the asynchronous creation of one (the
    Cesium world terrain, or a provider fetched from a URL) comes in as its
    outcome. The service's writes to `viewer.terrainProvider` are recorded beside
    the events it emits; whether each write goes through (the viewer it reaches
    may be missing, or not a viewer at all) comes in as its outcome `write`. */
module Terrain {
  import opened Wrappers
  import opened Messages

  /** `TerrainOptions`: the provider kind, `url` and `customProvider` (`None` is
      undefined or null; a provider object is always truthy). */
  datatype TerrainOptions = TerrainOptions(provider: string, url: Option<string>, customProvider: Option<nat>)

  datatype Effect =
    | ShowProvider(provider: nat)   // `viewer.terrainProvider = provider`
    | ShowDefault                   // `viewer.terrainProvider = this._defaultTerrainProvider`
    | Published(message: Message)

  /** `_enabled` and `_currentTerrainProvider` (`null` is `None`). */
  datatype Ground = Ground(enabled: bool, current: Option<nat>)

  datatype Step = Step(outcome: Outcome<Error>, after: Ground, effects: seq<Effect>)

  datatype LoadResult = LoadResult(outcome: Outcome<Error>, after: Ground, effects: seq<Effect>)

  /** Enabled terrain always has a provider behind it. */
  ghost predicate Backed(g: Ground) {
    g.enabled ==> g.current.Some?
  }

  /** How a write `this.viewer.terrainProvider = …` ends. The constructor expects
      the viewer service, whose `viewer` getter throws until a viewer exists.
      `serviceWired` is false for what src/core/engine.ts:190 passes instead:
      the Cesium viewer itself, whose `viewer` property is undefined, so every
      write is a TypeError. */
  function ViewerWrite(serviceWired: bool, viewerCreated: bool): (w: Outcome<Error>)
    ensures w.Pass? <==> serviceWired && viewerCreated
    ensures !serviceWired ==> w == Fail(UndefinedViewer)
  {
    if !serviceWired then Fail(UndefinedViewer)
    else if !viewerCreated then Fail(ViewerNotCreated)
    else Pass
  }

  /** The `switch` of `loadTerrain`: the provider it settles on, or the error
      it throws. `created` is the outcome of the asynchronous Cesium call the
      `cesium` and `url` cases await. */
  function ChosenProvider(o: TerrainOptions, created: Result<nat, Error>): Result<nat, Error>
  {
    match o.provider
    case "cesium" => created
    case "url" => if o.url.None? || o.url.value == "" then Err(TerrainUrlRequired) else created
    case "custom" => if o.customProvider.None? then Err(TerrainCustomProviderRequired) else Ok(o.customProvider.value)
    case _ => Err(UnsupportedTerrainProvider(o.provider))
  }

  /** `loadTerrain(options)`; `write` is how the write to the viewer ends. The
      provider becomes current before that write, so a failed write leaves it
      current with the flag as it was. Any error is announced with
      `terrain.error` and rethrown; one from the `switch` changes nothing. */
  function Loaded(g: Ground, o: TerrainOptions, created: Result<nat, Error>, write: Outcome<Error>): LoadResult
  {
    match ChosenProvider(o, created)
    case Ok(p) =>
      if write.Fail? then
        LoadResult(write, g.(current := Some(p)), [Published(Message("terrain.error", ProviderErrorData(o.provider, write.error)))])
      else
        LoadResult(Pass, Ground(true, Some(p)), [ShowProvider(p), Published(Message("terrain.loaded", ProviderData(o.provider)))])
    case Err(e) => LoadResult(Fail(e), g, [Published(Message("terrain.error", ProviderErrorData(o.provider, e)))])
  }

  /** `enableTerrain`: the write comes before the flag, so a failed write changes
      nothing and emits nothing. */
  function Enabled(g: Ground, write: Outcome<Error>): Step {
    if g.current.None? then Step(Pass, g, [])
    else if write.Fail? then Step(write, g, [])
    else Step(Pass, g.(enabled := true), [ShowProvider(g.current.value), Published(Message("terrain.enabled", NoData))])
  }

  /** `disableTerrain`, likewise. */
  function Disabled(g: Ground, write: Outcome<Error>): Step {
    if !g.enabled then Step(Pass, g, [])
    else if write.Fail? then Step(write, g, [])
    else Step(Pass, g.(enabled := false), [ShowDefault, Published(Message("terrain.disabled", NoData))])
  }

  /** Every operation keeps enabled terrain backed by a provider, whether its
      write to the viewer succeeds or not. */
  lemma BackedKept(g: Ground, o: TerrainOptions, created: Result<nat, Error>, write: Outcome<Error>)
    requires Backed(g)
    ensures Backed(Loaded(g, o, created, write).after) && Backed(Enabled(g, write).after) && Backed(Disabled(g, write).after)
  {
  }

  /** A `url` load without a URL, a `custom` load without a provider, and any
      other provider kind (`arcgis` among them) are refused after `terrain.error`,
      leaving the state as it was; the viewer is never reached. */
  lemma MissingSourceRefused(g: Ground, o: TerrainOptions, created: Result<nat, Error>, write: Outcome<Error>)
    requires || (o.provider == "url" && (o.url.None? || o.url == Some("")))
             || (o.provider == "custom" && o.customProvider.None?)
             || o.provider !in {"cesium", "url", "custom"}
    ensures var r := Loaded(g, o, created, write);
      && r.outcome.Fail? && r.after == g
      && r.effects == [Published(Message("terrain.error", ProviderErrorData(o.provider, r.outcome.error)))]
    ensures o.provider == "arcgis" ==> Loaded(g, o, created, write).outcome == Fail(UnsupportedTerrainProvider("arcgis"))
  {
  }

  /** A load succeeds exactly when the chosen provider was obtained and the
      write to the viewer went through, and then that provider is current and
      terrain is on. A provider obtained but not written stays current, with
      the flag as it was, and the write's error is announced and thrown. */
  lemma LoadSucceeds(g: Ground, o: TerrainOptions, created: Result<nat, Error>, write: Outcome<Error>)
    ensures Loaded(g, o, created, write).outcome.Pass? <==> ChosenProvider(o, created).Ok? && write.Pass?
    ensures Loaded(g, o, created, write).outcome.Pass? ==>
      Loaded(g, o, created, write).after == Ground(true, Some(ChosenProvider(o, created).value))
    ensures ChosenProvider(o, created).Ok? && write.Fail? ==>
      && Loaded(g, o, created, write).outcome == write
      && Loaded(g, o, created, write).after == Ground(g.enabled, Some(ChosenProvider(o, created).value))
      && Loaded(g, o, created, write).effects == [Published(Message("terrain.error", ProviderErrorData(o.provider, write.error)))]
    ensures o.provider == "custom" && o.customProvider.Some? && write.Pass? ==>
      Loaded(g, o, created, write).after == Ground(true, o.customProvider)
  {
  }

  /** Enabling does nothing until a provider has been loaded; disabling acts
      only when enabled. Both pass the write's error on and then change
      nothing; a disable whose write goes through leaves terrain off. Neither
      changes the provider. */
  lemma EnableDisable(g: Ground, write: Outcome<Error>)
    ensures g.current.None? ==> Enabled(g, write) == Step(Pass, g, [])
    ensures g.current.Some? ==> Enabled(g, write).outcome == write
    ensures g.current.Some? ==> Enabled(g, write).after == (if write.Pass? then Ground(true, g.current) else g)
    ensures !g.enabled ==> Disabled(g, write) == Step(Pass, g, [])
    ensures g.enabled ==> Disabled(g, write).outcome == write
    ensures g.enabled ==> Disabled(g, write).after == (if write.Pass? then g.(enabled := false) else g)
    ensures write.Pass? ==> !Disabled(g, write).after.enabled
    ensures Enabled(g, write).after.current == g.current && Disabled(g, write).after.current == g.current
  {
  }

  /** Disabling and then enabling again brings back the same provider. */
  lemma DisableThenEnable(g: Ground)
    requires Backed(g) && g.enabled
    ensures Enabled(Disabled(g, Pass).after, Pass).after == g
    ensures Enabled(Disabled(g, Pass).after, Pass).effects[0] == ShowProvider(g.current.value)
  {
  }

  /** As the engine wires it, the terrain service holds the Cesium viewer where
      it expects the viewer service, and every write through `this.viewer`
      throws, with or without a viewer: a load makes its provider current but
      terrain is never turned on, and neither enable nor disable changes the
      flag. */
  lemma EngineWiredNeverWrites(g: Ground, o: TerrainOptions, created: Result<nat, Error>, viewerCreated: bool)
    ensures var w := ViewerWrite(false, viewerCreated);
      && (ChosenProvider(o, created).Ok? ==>
            && Loaded(g, o, created, w).outcome == Fail(UndefinedViewer)
            && Loaded(g, o, created, w).after == Ground(g.enabled, Some(ChosenProvider(o, created).value)))
      && Loaded(g, o, created, w).after.enabled == g.enabled
      && Enabled(g, w).after == g && Disabled(g, w).after == g
      && (g.current.Some? ==> Enabled(g, w).outcome == Fail(UndefinedViewer))
      && (g.enabled ==> Disabled(g, w).outcome == Fail(UndefinedViewer))
  {
  }

  /** Wired with the viewer service, once the viewer exists: a load succeeds
      exactly when its provider is obtained, and turns terrain on with it;
      enabling a loaded provider turns terrain on and disabling turns it off. */
  lemma ServiceWiredLoads(g: Ground, o: TerrainOptions, created: Result<nat, Error>)
    ensures var w := ViewerWrite(true, true);
      && (Loaded(g, o, created, w).outcome.Pass? <==> ChosenProvider(o, created).Ok?)
      && (ChosenProvider(o, created).Ok? ==> Loaded(g, o, created, w).after == Ground(true, Some(ChosenProvider(o, created).value)))
      && (g.current.Some? ==> Enabled(g, w).after.enabled)
      && !Disabled(g, w).after.enabled
  {
  }

  class TerrainService {
    var enabled: bool
    var current: Option<nat>
    /** The writes to the viewer's terrain provider and the events emitted,
        oldest first. */
    var effects: seq<Effect>

    function State(): Ground
      reads this
    {
      Ground(enabled, current)
    }

    ghost predicate Valid()
      reads this
    {
      Backed(State())
    }

    /** The constructor: terrain off and no provider. */
    constructor()
      ensures Valid() && State() == Ground(false, None) && effects == []
    {
      enabled, current, effects := false, None, [];
    }

    /** `loadTerrain(options)`; `write` is how the write to the viewer ends,
        here and in the methods below. */
    method LoadTerrain(o: TerrainOptions, created: Result<nat, Error>, write: Outcome<Error>) returns (outcome: Outcome<Error>)
      requires Valid()
      modifies this
      ensures Valid()
      ensures outcome == Loaded(old(State()), o, created, write).outcome
      ensures State() == Loaded(old(State()), o, created, write).after
      ensures effects == old(effects) + Loaded(old(State()), o, created, write).effects
    {
      var chosen: Result<nat, Error>;
      if o.provider == "cesium" {
        chosen := created;
      } else if o.provider == "url" {
        if o.url.None? || o.url.value == "" {
          chosen := Err(TerrainUrlRequired);
        } else {
          chosen := created;
        }
      } else if o.provider == "custom" {
        if o.customProvider.None? {
          chosen := Err(TerrainCustomProviderRequired);
        } else {
          chosen := Ok(o.customProvider.value);
        }
      } else {
        chosen := Err(UnsupportedTerrainProvider(o.provider));
      }
      if chosen.Err? {
        effects := effects + [Published(Message("terrain.error", ProviderErrorData(o.provider, chosen.error)))];
        return Fail(chosen.error);
      }
      current := Some(chosen.value);
      if write.Fail? {
        effects := effects + [Published(Message("terrain.error", ProviderErrorData(o.provider, write.error)))];
        return write;
      }
      effects := effects + [ShowProvider(chosen.value)];
      enabled := true;
      effects := effects + [Published(Message("terrain.loaded", ProviderData(o.provider)))];
      outcome := Pass;
    }

    method EnableTerrain(write: Outcome<Error>) returns (outcome: Outcome<Error>)
      requires Valid()
      modifies this
      ensures Valid()
      ensures outcome == Enabled(old(State()), write).outcome
      ensures State() == Enabled(old(State()), write).after
      ensures effects == old(effects) + Enabled(old(State()), write).effects
    {
      outcome := Pass;
      if current.Some? {
        if write.Fail? {
          return write;
        }
        effects := effects + [ShowProvider(current.value)];
        enabled := true;
        effects := effects + [Published(Message("terrain.enabled", NoData))];
      }
    }

    method DisableTerrain(write: Outcome<Error>) returns (outcome: Outcome<Error>)
      requires Valid()
      modifies this
      ensures Valid()
      ensures outcome == Disabled(old(State()), write).outcome
      ensures State() == Disabled(old(State()), write).after
      ensures effects == old(effects) + Disabled(old(State()), write).effects
    {
      outcome := Pass;
      if enabled {
        if write.Fail? {
          return write;
        }
        effects := effects + [ShowDefault];
        enabled := false;
        effects := effects + [Published(Message("terrain.disabled", NoData))];
      }
    }

    function IsEnabled(): (r: bool)
      reads this
      requires Valid()
      ensures r ==> current.Some?
      ensures r == enabled
    {
      enabled
    }
  }
}
