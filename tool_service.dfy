/** The tool service of src/services/tool/toolService.ts: a map of registered
    tools and the id of the active one. The tools' own `init`, `activate` and
    `deactivate` are outside the model; the service's calls to them are
    recorded, in order, beside the events it emits. */
module Tools {
  import opened Wrappers
  import opened Messages

  /** A tool object, by identity; `hasInit` says whether it has an `init` method. */
  datatype Tool = Tool(handle: nat, hasInit: bool)

  datatype ToolHook = InitHook | ActivateHook | DeactivateHook

  /** What the service does outside its own fields. */
  datatype Effect = Called(toolId: string, hook: ToolHook) | Published(message: Message)

  /** `_tools` and `_activeTool` (`null` is `None`). */
  datatype Board = Board(tools: map<string, Tool>, active: Option<string>)

  /** Whether the call returned or threw, the new fields and what was done on
      the way. */
  datatype Step = Step(outcome: Outcome<Error>, after: Board, effects: seq<Effect>)

  /** Every active id names a registered tool. */
  ghost predicate ActiveRegistered(b: Board) {
    b.active.Some? ==> b.active.value in b.tools
  }

  /** JavaScript truthiness of `_activeTool`: `null` and `''` are false. */
  predicate ActiveTruthy(active: Option<string>) {
    active.Some? && active.value != ""
  }

  /** `deactivate(toolId)`; `off` is how the tool's own `deactivate()` ends. When
      it throws, the exception leaves the service before its fields change or
      the event is emitted. */
  function Deactivated(b: Board, id: string, off: Outcome<Error>): (r: Step)
    ensures id !in b.tools ==> r == Step(Pass, b, [])
    ensures r.outcome == (if id in b.tools then off else Pass)
    ensures id in b.tools && off.Fail? ==> r.after == b && r.effects == [Called(id, DeactivateHook)]
    ensures id in b.tools && off.Pass? ==>
      && r.after == Board(b.tools, if b.active == Some(id) then None else b.active)
      && r.effects == [Called(id, DeactivateHook), Published(Message("tool.deactivated", IdData(id)))]
  {
    if id !in b.tools then Step(Pass, b, [])
    else if off.Fail? then Step(off, b, [Called(id, DeactivateHook)])
    else
      Step(Pass, Board(b.tools, if b.active == Some(id) then None else b.active),
           [Called(id, DeactivateHook), Published(Message("tool.deactivated", IdData(id)))])
  }

  /** Whether `activate(toolId)` first deactivates the active tool: only a truthy
      one other than `toolId`. */
  predicate Switches(b: Board, id: string) {
    ActiveTruthy(b.active) && b.active.value != id
  }

  /** `activate(toolId)`: a truthy active tool other than `toolId` is deactivated
      first (`off` is how its `deactivate()` ends); then the new tool's
      `activate()` runs and ends as `on`. An exception from either stops the
      call where it is thrown. */
  function Activated(b: Board, id: string, off: Outcome<Error>, on: Outcome<Error>): (r: Step)
    ensures id !in b.tools ==> r == Step(Pass, b, [])
    ensures id in b.tools && Switches(b, id) && b.active.value in b.tools && off.Fail? ==>
      r == Step(off, b, [Called(b.active.value, DeactivateHook)])
    ensures id in b.tools && !(Switches(b, id) && b.active.value in b.tools && off.Fail?) ==>
      && r.outcome == on
      && r.after == (if on.Pass? then Board(b.tools, Some(id))
                     else if Switches(b, id) && b.active.value in b.tools then Deactivated(b, b.active.value, off).after
                     else b)
      && r.effects == (if Switches(b, id) then Deactivated(b, b.active.value, off).effects else [])
                      + [Called(id, ActivateHook)]
                      + (if on.Pass? then [Published(Message("tool.activated", IdData(id)))] else [])
  {
    if id !in b.tools then Step(Pass, b, [])
    else
      var first := if Switches(b, id) then Deactivated(b, b.active.value, off) else Step(Pass, b, []);
      if first.outcome.Fail? then first
      else if on.Fail? then Step(on, first.after, first.effects + [Called(id, ActivateHook)])
      else
        Step(Pass, Board(first.after.tools, Some(id)),
             first.effects + [Called(id, ActivateHook), Published(Message("tool.activated", IdData(id)))])
  }

  /** `register(toolId, tool)`: an id already present keeps its tool. The tool is
      filed before its `init()` runs (ending as `init`), so one whose `init`
      throws stays registered, and no event announces it. */
  function Registered(b: Board, id: string, tool: Tool, init: Outcome<Error>): (r: Step)
    ensures id in b.tools ==> r == Step(Pass, b, [])
    ensures id !in b.tools ==> r.after == Board(b.tools[id := tool], b.active)
    ensures id !in b.tools ==> r.outcome == (if tool.hasInit then init else Pass)
    ensures id !in b.tools ==>
      r.effects == (if tool.hasInit then [Called(id, InitHook)] else [])
                   + (if r.outcome.Pass? then [Published(Message("tool.registered", IdData(id)))] else [])
  {
    if id in b.tools then Step(Pass, b, [])
    else if tool.hasInit && init.Fail? then
      Step(init, Board(b.tools[id := tool], b.active), [Called(id, InitHook)])
    else
      Step(Pass, Board(b.tools[id := tool], b.active),
           (if tool.hasInit then [Called(id, InitHook)] else []) + [Published(Message("tool.registered", IdData(id)))])
  }

  /** How often `effects` calls `hook` on tool `id`. */
  function Calls(effects: seq<Effect>, id: string, hook: ToolHook): nat
    decreases |effects|
  {
    if effects == [] then 0
    else Calls(effects[1..], id, hook) + (if effects[0] == Called(id, hook) then 1 else 0)
  }

  lemma CallsCons(x: Effect, rest: seq<Effect>, id: string, hook: ToolHook)
    ensures Calls([x] + rest, id, hook) == Calls(rest, id, hook) + (if x == Called(id, hook) then 1 else 0)
  {
    assert ([x] + rest)[1..] == rest;
  }

  /** All three operations keep the active tool registered, however the tools'
      own methods end: at every moment at most one tool is active, and it is a
      known one. */
  lemma ActiveStaysRegistered(b: Board, id: string, tool: Tool, off: Outcome<Error>, on: Outcome<Error>, init: Outcome<Error>)
    requires ActiveRegistered(b)
    ensures ActiveRegistered(Activated(b, id, off, on).after)
    ensures ActiveRegistered(Deactivated(b, id, off).after)
    ensures ActiveRegistered(Registered(b, id, tool, init).after)
  {
  }

  /** Switching tools deactivates the previous one exactly once, before anything
      else, and never deactivates the new one; the new one's `activate` runs
      once, right after the previous tool's event, unless the previous tool's
      `deactivate` threw. */
  lemma SwitchDeactivatesPrevious(b: Board, id: string, off: Outcome<Error>, on: Outcome<Error>)
    requires ActiveRegistered(b) && id in b.tools
    requires Switches(b, id)
    ensures var r := Activated(b, id, off, on);
      && r.effects[0] == Called(b.active.value, DeactivateHook)
      && (off.Pass? ==> r.effects[2] == Called(id, ActivateHook))
      && Calls(r.effects, b.active.value, DeactivateHook) == 1
      && Calls(r.effects, id, DeactivateHook) == 0
      && Calls(r.effects, id, ActivateHook) == (if off.Pass? then 1 else 0)
  {
    var p := b.active.value;
    var d0, d1 := Called(p, DeactivateHook), Published(Message("tool.deactivated", IdData(p)));
    var a0 := Called(id, ActivateHook);
    var tail := if on.Pass? then [Published(Message("tool.activated", IdData(id)))] else [];
    if off.Fail? {
      assert Activated(b, id, off, on).effects == [d0] + [];
      forall x: string, hook: ToolHook
        ensures Calls(Activated(b, id, off, on).effects, x, hook) == (if d0 == Called(x, hook) then 1 else 0)
      {
        CallsCons(d0, [], x, hook);
      }
    } else {
      assert Activated(b, id, off, on).effects == [d0] + ([d1] + ([a0] + tail));
      forall x: string, hook: ToolHook
        ensures Calls(Activated(b, id, off, on).effects, x, hook) ==
          (if d0 == Called(x, hook) then 1 else 0) + (if a0 == Called(x, hook) then 1 else 0)
      {
        if on.Pass? {
          CallsCons(tail[0], [], x, hook);
          assert tail == [tail[0]] + [];
        }
        CallsCons(a0, tail, x, hook);
        CallsCons(d1, [a0] + tail, x, hook);
        CallsCons(d0, [d1] + ([a0] + tail), x, hook);
      }
    }
  }

  /** A switch that throws half way leaves no tool active: when the new tool's
      `activate` throws, the previous tool has already been switched off; when
      the previous tool's `deactivate` throws, nothing has changed. */
  lemma FailedSwitch(b: Board, id: string, off: Outcome<Error>, on: Outcome<Error>)
    requires id in b.tools && Switches(b, id) && b.active.value in b.tools
    ensures off.Fail? ==> Activated(b, id, off, on).after == b && Activated(b, id, off, on).outcome == off
    ensures off.Pass? && on.Fail? ==> Activated(b, id, off, on).after == Board(b.tools, None)
    ensures off.Pass? && on.Fail? ==> Activated(b, id, off, on).outcome == on
  {
  }

  /** Activating the tool that is already active calls its `activate` again and
      deactivates nothing. */
  lemma ReactivateSkipsDeactivate(b: Board, id: string, off: Outcome<Error>, on: Outcome<Error>)
    requires id in b.tools && b.active == Some(id)
    ensures on.Pass? ==>
      Activated(b, id, off, on) == Step(Pass, b, [Called(id, ActivateHook), Published(Message("tool.activated", IdData(id)))])
    ensures on.Fail? ==> Activated(b, id, off, on) == Step(on, b, [Called(id, ActivateHook)])
  {
  }

  /** Deactivating a tool that is not active keeps the active one. */
  lemma DeactivateOtherKeepsActive(b: Board, id: string, off: Outcome<Error>)
    requires b.active != Some(id)
    ensures Deactivated(b, id, off).after == b
  {
  }

  /** A tool filed under the empty id is never deactivated by a switch: `''` is
      falsy, so `activate` then skips the deactivation of the active tool. */
  lemma EmptyIdIsNotSwitchedOff(b: Board, id: string, off: Outcome<Error>, on: Outcome<Error>)
    requires b.active == Some("") && id in b.tools && id != ""
    ensures Calls(Activated(b, id, off, on).effects, "", DeactivateHook) == 0
    ensures Activated(b, id, off, on).after.active == if on.Pass? then Some(id) else Some("")
  {
    var a0 := Called(id, ActivateHook);
    var tail := if on.Pass? then [Published(Message("tool.activated", IdData(id)))] else [];
    assert Activated(b, id, off, on).effects == [a0] + tail;
    if on.Pass? {
      CallsCons(tail[0], [], "", DeactivateHook);
      assert tail == [tail[0]] + [];
    }
    CallsCons(a0, tail, "", DeactivateHook);
  }

  /** A tool whose `init` throws stays registered without its event, and its id
      is then taken: registering under it again changes nothing. */
  lemma FailedInitStillStored(b: Board, id: string, tool: Tool, init: Outcome<Error>, other: Tool, again: Outcome<Error>)
    requires id !in b.tools && tool.hasInit && init.Fail?
    ensures var r := Registered(b, id, tool, init);
      && r.outcome == init && id in r.after.tools && r.after.tools[id] == tool
      && r.effects == [Called(id, InitHook)]
      && Registered(r.after, id, other, again) == Step(Pass, r.after, [])
  {
  }

  class ToolService {
    var tools: map<string, Tool>
    var active: Option<string>
    /** The calls into tools and the events emitted, oldest first. */
    var effects: seq<Effect>

    function State(): Board
      reads this
    {
      Board(tools, active)
    }

    ghost predicate Valid()
      reads this
    {
      ActiveRegistered(State())
    }

    constructor()
      ensures Valid() && State() == Board(map[], None) && effects == []
    {
      tools, active, effects := map[], None, [];
    }

    /** `off` and `on` are how the previous tool's `deactivate` and this tool's
        `activate` end; `Fail` is an exception that leaves the method. */
    method Activate(id: string, off: Outcome<Error>, on: Outcome<Error>) returns (r: Outcome<Error>)
      requires Valid()
      modifies this
      ensures Valid()
      ensures r == Activated(old(State()), id, off, on).outcome
      ensures State() == Activated(old(State()), id, off, on).after
      ensures effects == old(effects) + Activated(old(State()), id, off, on).effects
    {
      if id !in tools {
        return Pass;
      }
      if active.Some? && active.value != "" && active.value != id {
        r := Deactivate(active.value, off);
        if r.Fail? {
          return;
        }
      }
      effects := effects + [Called(id, ActivateHook)];
      if on.Fail? {
        return on;
      }
      active := Some(id);
      effects := effects + [Published(Message("tool.activated", IdData(id)))];
      return Pass;
    }

    method Deactivate(id: string, off: Outcome<Error>) returns (r: Outcome<Error>)
      requires Valid()
      modifies this
      ensures Valid()
      ensures r == Deactivated(old(State()), id, off).outcome
      ensures State() == Deactivated(old(State()), id, off).after
      ensures effects == old(effects) + Deactivated(old(State()), id, off).effects
    {
      if id !in tools {
        return Pass;
      }
      effects := effects + [Called(id, DeactivateHook)];
      if off.Fail? {
        return off;
      }
      if active == Some(id) {
        active := None;
      }
      effects := effects + [Published(Message("tool.deactivated", IdData(id)))];
      return Pass;
    }

    method Register(id: string, tool: Tool, init: Outcome<Error>) returns (r: Outcome<Error>)
      requires Valid()
      modifies this
      ensures Valid()
      ensures r == Registered(old(State()), id, tool, init).outcome
      ensures State() == Registered(old(State()), id, tool, init).after
      ensures effects == old(effects) + Registered(old(State()), id, tool, init).effects
    {
      if id in tools {
        return Pass;
      }
      tools := tools[id := tool];
      if tool.hasInit {
        effects := effects + [Called(id, InitHook)];
        if init.Fail? {
          return init;
        }
      }
      effects := effects + [Published(Message("tool.registered", IdData(id)))];
      return Pass;
    }

    function GetTool(id: string): (r: Option<Tool>)
      reads this
      ensures r.Some? <==> id in tools
      ensures r.Some? ==> r.value == tools[id]
    {
      if id in tools then Some(tools[id]) else None
    }

    function GetActiveTool(): (r: Option<string>)
      reads this
      requires Valid()
      ensures r == active && (r.Some? ==> r.value in tools)
    {
      active
    }
  }
}
