/** The plugin manager of src/core/pluginManager.ts: a map from plugin name to
    plugin, filled by `use` once the plugin's `install` hook has returned. */
module PluginManager {
  import opened Wrappers

  /** A plugin object. Its hooks are outside the model: whether `install` and
      `uninstall` throw is a parameter of `use` and `remove`. */
  datatype Plugin = Plugin(name: string, id: nat, hasUninstall: bool)

  datatype UseResult = UseResult(result: Outcome<Error>, installCalled: bool, after: map<string, Plugin>)

  /** `use(plugin)` on the registry `m`, when `install` would end with `install`. */
  function Used(m: map<string, Plugin>, p: Plugin, install: Outcome<Error>): (r: UseResult)
    ensures p.name in m ==> r == UseResult(Pass, false, m)
    ensures p.name !in m ==> r.installCalled && r.result == install
    ensures p.name !in m && install.Pass? ==> r.after == m[p.name := p]
    ensures install.Fail? ==> r.after == m
  {
    if p.name in m then UseResult(Pass, false, m)
    else if install.Fail? then UseResult(install, true, m)
    else UseResult(Pass, true, m[p.name := p])
  }

  datatype RemoveResult = RemoveResult(uninstallCalled: bool, after: map<string, Plugin>)

  /** `remove(name)`: an exception from `uninstall` is caught and logged, so the
      outcome of the hook does not matter to the registry. */
  function Removed(m: map<string, Plugin>, name: string): (r: RemoveResult)
    ensures r.after == m - {name}
    ensures r.uninstallCalled <==> name in m && m[name].hasUninstall
  {
    if name !in m then RemoveResult(false, m)
    else RemoveResult(m[name].hasUninstall, m - {name})
  }

  /** Every plugin is filed under its own name. */
  ghost predicate Filed(m: map<string, Plugin>) {
    forall n :: n in m ==> m[n].name == n
  }

  lemma UsePreservesFiled(m: map<string, Plugin>, p: Plugin, install: Outcome<Error>)
    requires Filed(m)
    ensures Filed(Used(m, p, install).after) && Filed(Removed(m, p.name).after)
  {
  }

  /** A successful `use` followed by `remove` gives back the registry there was,
      whatever `uninstall` does. */
  lemma UseThenRemove(m: map<string, Plugin>, p: Plugin)
    requires p.name !in m
    ensures Removed(Used(m, p, Pass).after, p.name).after == m
    ensures Removed(Used(m, p, Pass).after, p.name).uninstallCalled == p.hasUninstall
  {
    assert m[p.name := p] - {p.name} == m;
  }

  /** The first plugin registered under a name stays until it is removed: a
      second `use` under that name neither installs nor replaces anything. */
  lemma FirstUseWins(m: map<string, Plugin>, p: Plugin, q: Plugin, install: Outcome<Error>)
    requires p.name !in m && q.name == p.name
    ensures var m' := Used(m, p, Pass).after;
      Used(m', q, install) == UseResult(Pass, false, m') && m'[p.name] == p
  {
  }

  class PluginManager {
    var plugins: map<string, Plugin>

    constructor()
      ensures plugins == map[]
    {
      plugins := map[];
    }

    method Use(p: Plugin, install: Outcome<Error>) returns (r: Outcome<Error>, installCalled: bool)
      modifies this
      ensures UseResult(r, installCalled, plugins) == Used(old(plugins), p, install)
    {
      if p.name in plugins {
        return Pass, false;
      }
      installCalled := true;
      if install.Fail? {
        return install, installCalled;
      }
      plugins := plugins[p.name := p];
      r := Pass;
    }

    method Remove(name: string) returns (uninstallCalled: bool)
      modifies this
      ensures RemoveResult(uninstallCalled, plugins) == Removed(old(plugins), name)
    {
      if name !in plugins {
        return false;
      }
      uninstallCalled := plugins[name].hasUninstall;
      plugins := plugins - {name};
    }

    function Has(name: string): (r: bool)
      reads this
      ensures r <==> name in plugins
    {
      name in plugins
    }

    function Get(name: string): (r: Option<Plugin>)
      reads this
      ensures r.Some? <==> Has(name)
      ensures r.Some? ==> r.value == plugins[name]
    {
      if name in plugins then Some(plugins[name]) else None
    }
  }
}
