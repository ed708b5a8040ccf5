/** The widget service of src/services/widget/widgetService.ts: two maps keyed
    by widget id, one for the widget objects and one for their options. The
    widgets' own `show`, `hide` and `destroy` are outside the model; the
    service's calls to them are recorded beside the events it emits. */
module Widgets {
  import opened Wrappers
  import opened Messages

  /** A widget object, by identity, and which of the optional methods it has. */
  datatype Widget = Widget(handle: nat, hasShow: bool, hasHide: bool, hasDestroy: bool)

  /** `WidgetOptions`; only `show` is read by the service (`None` is undefined). */
  datatype WidgetOptions = WidgetOptions(show: Option<bool>, rest: nat)

  /** The default argument `{}`. */
  function NoOptions(): WidgetOptions {
    WidgetOptions(None, 0)
  }

  datatype WidgetHook = ShowHook | HideHook | DestroyHook

  datatype Effect = Called(widgetId: string, hook: WidgetHook) | Published(message: Message)

  /** `_widgets` and `_widgetOptions`. */
  datatype Panel = Panel(widgets: map<string, Widget>, options: map<string, WidgetOptions>)

  /** Whether a call on the widget service returned or threw, and what it did
      outside its fields. */
  datatype Ack = Ack(outcome: Outcome<Error>, effects: seq<Effect>)

  /** Whether the call returned or threw, the new maps and what was done on the
      way. */
  datatype Step = Step(outcome: Outcome<Error>, after: Panel, effects: seq<Effect>)

  /** The two maps always have the same keys. */
  ghost predicate Parallel(p: Panel) {
    p.widgets.Keys == p.options.Keys
  }

  /** `showWidget(id)`; `call` is how the widget's own `show()` ends. An exception
      from it leaves before `widget.shown` is emitted. */
  function Shown(p: Panel, id: string, call: Outcome<Error>): (r: Ack)
    ensures id !in p.widgets ==> r == Ack(Pass, [])
    ensures r.outcome == (if id in p.widgets && p.widgets[id].hasShow then call else Pass)
    ensures id in p.widgets && r.outcome.Pass? ==>
      |r.effects| > 0 && r.effects[|r.effects| - 1] == Published(Message("widget.shown", IdData(id)))
    ensures r.outcome.Fail? ==> r.effects == [Called(id, ShowHook)]
    ensures Called(id, ShowHook) in r.effects <==> id in p.widgets && p.widgets[id].hasShow
  {
    if id !in p.widgets then Ack(Pass, [])
    else if p.widgets[id].hasShow && call.Fail? then Ack(call, [Called(id, ShowHook)])
    else Ack(Pass, (if p.widgets[id].hasShow then [Called(id, ShowHook)] else []) + [Published(Message("widget.shown", IdData(id)))])
  }

  /** `hideWidget(id)`; `call` is how the widget's own `hide()` ends. */
  function Hidden(p: Panel, id: string, call: Outcome<Error>): (r: Ack)
    ensures id !in p.widgets ==> r == Ack(Pass, [])
    ensures r.outcome == (if id in p.widgets && p.widgets[id].hasHide then call else Pass)
    ensures id in p.widgets && r.outcome.Pass? ==>
      |r.effects| > 0 && r.effects[|r.effects| - 1] == Published(Message("widget.hidden", IdData(id)))
    ensures r.outcome.Fail? ==> r.effects == [Called(id, HideHook)]
    ensures Called(id, HideHook) in r.effects <==> id in p.widgets && p.widgets[id].hasHide
  {
    if id !in p.widgets then Ack(Pass, [])
    else if p.widgets[id].hasHide && call.Fail? then Ack(call, [Called(id, HideHook)])
    else Ack(Pass, (if p.widgets[id].hasHide then [Called(id, HideHook)] else []) + [Published(Message("widget.hidden", IdData(id)))])
  }

  /** `addWidget(id, widget, options)`: an id already present changes nothing;
      a new widget is filed in both maps and then shown unless `options.show` is
      `false` (`show` is how its `show()` ends). A widget whose `show` throws
      stays filed, and `widget.added` is not emitted. */
  function Added(p: Panel, id: string, w: Widget, opts: WidgetOptions, show: Outcome<Error>): (r: Step)
    ensures id in p.widgets ==> r == Step(Pass, p, [])
    ensures id !in p.widgets ==> r.after == Panel(p.widgets[id := w], p.options[id := opts])
    ensures id !in p.widgets ==> r.outcome == (if opts.show != Some(false) && w.hasShow then show else Pass)
    ensures id !in p.widgets && r.outcome.Pass? ==>
      |r.effects| > 0 && r.effects[|r.effects| - 1] == Published(Message("widget.added", IdData(id)))
    ensures r.outcome.Fail? ==> Published(Message("widget.added", IdData(id))) !in r.effects
  {
    if id in p.widgets then Step(Pass, p, [])
    else
      var q := Panel(p.widgets[id := w], p.options[id := opts]);
      var shown := if opts.show != Some(false) then Shown(q, id, show) else Ack(Pass, []);
      if shown.outcome.Fail? then Step(shown.outcome, q, shown.effects)
      else Step(Pass, q, shown.effects + [Published(Message("widget.added", IdData(id)))])
  }

  /** `removeWidget(id)`: `destroy` runs when the widget has it (ending as
      `destroy`), then the id leaves both maps. A widget whose `destroy` throws
      stays in both. */
  function Removed(p: Panel, id: string, destroy: Outcome<Error>): (r: Step)
    ensures id !in p.widgets ==> r == Step(Pass, p, [])
    ensures id in p.widgets ==> r.outcome == (if p.widgets[id].hasDestroy then destroy else Pass)
    ensures id in p.widgets && r.outcome.Pass? ==> r.after == Panel(p.widgets - {id}, p.options - {id})
    ensures id in p.widgets && r.outcome.Pass? ==> |r.effects| > 0 && r.effects[|r.effects| - 1] == Published(Message("widget.removed", IdData(id)))
    ensures r.outcome.Fail? ==> r.after == p && r.effects == [Called(id, DestroyHook)]
    ensures id in p.widgets ==> (Called(id, DestroyHook) in r.effects <==> p.widgets[id].hasDestroy)
  {
    if id !in p.widgets then Step(Pass, p, [])
    else if p.widgets[id].hasDestroy && destroy.Fail? then Step(destroy, p, [Called(id, DestroyHook)])
    else
      Step(Pass, Panel(p.widgets - {id}, p.options - {id}),
           (if p.widgets[id].hasDestroy then [Called(id, DestroyHook)] else []) + [Published(Message("widget.removed", IdData(id)))])
  }

  /** Adding and removing keep the two maps' keys equal, whether or not the
      widget's methods throw. */
  lemma ParallelKept(p: Panel, id: string, w: Widget, opts: WidgetOptions, show: Outcome<Error>, destroy: Outcome<Error>)
    requires Parallel(p)
    ensures Parallel(Added(p, id, w, opts, show).after) && Parallel(Removed(p, id, destroy).after)
  {
  }

  /** A new widget is shown by `addWidget` exactly when `options.show` is not
      `false` and its `show` does not throw, so the default `{}` shows it; and
      `widget.added` follows exactly when nothing threw. */
  lemma AddShowsUnlessHidden(p: Panel, id: string, w: Widget, opts: WidgetOptions, show: Outcome<Error>)
    requires id !in p.widgets
    ensures Published(Message("widget.shown", IdData(id))) in Added(p, id, w, opts, show).effects <==>
      opts.show != Some(false) && (show.Pass? || !w.hasShow)
    ensures show.Pass? || !w.hasShow ==>
      Published(Message("widget.shown", IdData(id))) in Added(p, id, w, NoOptions(), show).effects
    ensures Published(Message("widget.added", IdData(id))) in Added(p, id, w, opts, show).effects <==>
      Added(p, id, w, opts, show).outcome.Pass?
  {
    var q := Panel(p.widgets[id := w], p.options[id := opts]);
    var shown := Published(Message("widget.shown", IdData(id)));
    var added := Published(Message("widget.added", IdData(id)));
    assert shown != added;
    if show.Pass? || !w.hasShow {
      assert shown in Shown(q, id, show).effects;
      var q' := Panel(p.widgets[id := w], p.options[id := NoOptions()]);
      assert shown in Shown(q', id, show).effects;
    }
  }

  /** Adding a new widget and removing it again gives back the maps as they
      were, even when its `show` threw; a `destroy` that throws keeps it filed. */
  lemma AddThenRemove(p: Panel, id: string, w: Widget, opts: WidgetOptions, show: Outcome<Error>, destroy: Outcome<Error>)
    requires id !in p.widgets && Parallel(p)
    ensures destroy.Pass? || !w.hasDestroy ==> Removed(Added(p, id, w, opts, show).after, id, destroy).after == p
    ensures destroy.Fail? && w.hasDestroy ==>
      Removed(Added(p, id, w, opts, show).after, id, destroy).after == Added(p, id, w, opts, show).after
  {
    assert p.widgets[id := w] - {id} == p.widgets;
    assert id !in p.options;
    assert p.options[id := opts] - {id} == p.options;
  }

  /** Removing one widget leaves every other id where it was. */
  lemma RemoveTouchesOnlyIt(p: Panel, id: string, other: string, destroy: Outcome<Error>)
    requires other != id
    ensures other in Removed(p, id, destroy).after.widgets <==> other in p.widgets
    ensures other in p.widgets ==> Removed(p, id, destroy).after.widgets[other] == p.widgets[other]
  {
  }

  class WidgetService {
    var widgets: map<string, Widget>
    var options: map<string, WidgetOptions>
    var effects: seq<Effect>

    function State(): Panel
      reads this
    {
      Panel(widgets, options)
    }

    ghost predicate Valid()
      reads this
    {
      Parallel(State())
    }

    constructor()
      ensures Valid() && State() == Panel(map[], map[]) && effects == []
    {
      widgets, options, effects := map[], map[], [];
    }

    /** `show` is how the new widget's `show()` ends; `Fail` is an exception
        that leaves the method. */
    method AddWidget(id: string, w: Widget, opts: WidgetOptions, show: Outcome<Error>) returns (r: Outcome<Error>)
      requires Valid()
      modifies this
      ensures Valid()
      ensures r == Added(old(State()), id, w, opts, show).outcome
      ensures State() == Added(old(State()), id, w, opts, show).after
      ensures effects == old(effects) + Added(old(State()), id, w, opts, show).effects
    {
      if id in widgets {
        return Pass;
      }
      widgets := widgets[id := w];
      options := options[id := opts];
      if opts.show != Some(false) {
        r := ShowWidget(id, show);
        if r.Fail? {
          return;
        }
      }
      effects := effects + [Published(Message("widget.added", IdData(id)))];
      return Pass;
    }

    method RemoveWidget(id: string, destroy: Outcome<Error>) returns (r: Outcome<Error>)
      requires Valid()
      modifies this
      ensures Valid()
      ensures r == Removed(old(State()), id, destroy).outcome
      ensures State() == Removed(old(State()), id, destroy).after
      ensures effects == old(effects) + Removed(old(State()), id, destroy).effects
    {
      if id !in widgets {
        return Pass;
      }
      if widgets[id].hasDestroy {
        effects := effects + [Called(id, DestroyHook)];
        if destroy.Fail? {
          return destroy;
        }
      }
      widgets := widgets - {id};
      options := options - {id};
      effects := effects + [Published(Message("widget.removed", IdData(id)))];
      return Pass;
    }

    function GetWidget(id: string): (r: Option<Widget>)
      reads this
      ensures r.Some? <==> id in widgets
      ensures r.Some? ==> r.value == widgets[id]
    {
      if id in widgets then Some(widgets[id]) else None
    }

    method ShowWidget(id: string, call: Outcome<Error>) returns (r: Outcome<Error>)
      modifies this
      ensures State() == old(State())
      ensures r == Shown(old(State()), id, call).outcome
      ensures effects == old(effects) + Shown(old(State()), id, call).effects
    {
      if id !in widgets {
        return Pass;
      }
      if widgets[id].hasShow {
        effects := effects + [Called(id, ShowHook)];
        if call.Fail? {
          return call;
        }
      }
      effects := effects + [Published(Message("widget.shown", IdData(id)))];
      return Pass;
    }

    method HideWidget(id: string, call: Outcome<Error>) returns (r: Outcome<Error>)
      modifies this
      ensures State() == old(State())
      ensures r == Hidden(old(State()), id, call).outcome
      ensures effects == old(effects) + Hidden(old(State()), id, call).effects
    {
      if id !in widgets {
        return Pass;
      }
      if widgets[id].hasHide {
        effects := effects + [Called(id, HideHook)];
        if call.Fail? {
          return call;
        }
      }
      effects := effects + [Published(Message("widget.hidden", IdData(id)))];
      return Pass;
    }
  }
}
