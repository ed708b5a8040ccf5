/** The camera service of src/services/camera/cameraService.ts: two control
    flags meant to exclude each other, a history of saved camera positions, the
    active path animation and the merged camera limits. The Cesium camera
    itself is outside the model: what the service reads from it (the current
    pose) and the clock come in as arguments, and its calls to the camera are
    recorded beside the events it emits. Every access to the camera or the
    scene goes through the viewer service's `viewer` getter
    (src/services/viewer/viewerService.ts:38-42), which throws "Viewer is not
    created yet" before the viewer is created and after it is destroyed; the
    parameter `viewer` says whether one exists at the call. */
module Camera {
  import opened Wrappers
  import opened Ordered
  import opened Messages
  import StateCell

  /** A camera pose as read from the camera: the cloned `position`, by
      identity, and the three angles. */
  datatype Pose = Pose(position: nat, heading: real, pitch: real, roll: real)

  /** `CameraPosition`: a pose and the `Date.now()` it was taken at. */
  datatype CameraPosition = CameraPosition(pose: Pose, timestamp: nat)

  /** `CameraWaypoint` (`None` is undefined). */
  datatype Waypoint = Waypoint(position: nat, heading: Option<real>, pitch: Option<real>,
                               roll: Option<real>, duration: Option<real>)

  /** `CameraAnimation`. */
  datatype Animation = Animation(id: string, waypoints: seq<Waypoint>, duration: real, loop: bool)

  /** A value of `CameraLimits`: a distance or pitch, or the `bounds` rectangle
      by identity. */
  datatype LimitValue = Number(x: real) | Bounds(rectangle: nat)

  /** `FlyTo(w, t)` is the `camera.flyTo` call that starts the flight to
      waypoint `w`, lasting `t` seconds. */
  datatype Effect = SetView(pose: Pose) | CancelFlight | FlyTo(waypoint: Waypoint, duration: real) | Published(message: Message)

  /** The service's own fields. */
  datatype Rig = Rig(
    orbit: bool, firstPerson: bool,
    history: OMap<string, CameraPosition>,
    active: Option<Animation>, cancelled: bool,
    limits: StateCell.Record<LimitValue>)

  /** How a call ends, the fields it leaves behind (also when it throws part
      way) and what it did, oldest first. */
  datatype Step = Step(outcome: Outcome<Error>, after: Rig, effects: seq<Effect>)

  /** The single invariant of the two controls: never both on. */
  ghost predicate Exclusive(r: Rig) {
    !(r.orbit && r.firstPerson)
  }

  /** The fields each service starts with. */
  function InitialRig(): (r: Rig)
    ensures Exclusive(r) && r.history.Valid() && r.history.Values() == []
    ensures r.active.None? && r.limits == map[]
  {
    Rig(false, false, EmptyMap(), None, false, map[])
  }

  function Emitted(event: string): Effect {
    Published(Message(event, NoData))
  }

  /** `disableOrbitControl`, which never reads the viewer. */
  function OrbitOff(r: Rig): (s: Step)
    ensures !r.orbit ==> s == Step(Pass, r, [])
    ensures r.orbit ==> s == Step(Pass, r.(orbit := false), [Emitted("camera.orbitControlDisabled")])
  {
    if !r.orbit then Step(Pass, r, [])
    else Step(Pass, r.(orbit := false), [Emitted("camera.orbitControlDisabled")])
  }

  /** `disableFirstPersonControl`. `viewer` says whether the viewer service holds
      a viewer; its getter throws "Viewer is not created yet" otherwise. The
      flag is cleared before the scene is read, so a call without a viewer
      throws with first-person control already off and announces nothing. */
  function FirstPersonOff(r: Rig, viewer: bool): (s: Step)
    ensures !r.firstPerson ==> s == Step(Pass, r, [])
    ensures r.firstPerson ==> s.after == r.(firstPerson := false)
    ensures r.firstPerson && viewer ==> s.outcome == Pass && s.effects == [Emitted("camera.firstPersonControlDisabled")]
    ensures r.firstPerson && !viewer ==> s.outcome == Fail(ViewerNotCreated) && s.effects == []
  {
    if !r.firstPerson then Step(Pass, r, [])
    else if !viewer then Step(Fail(ViewerNotCreated), r.(firstPerson := false), [])
    else Step(Pass, r.(firstPerson := false), [Emitted("camera.firstPersonControlDisabled")])
  }

  /** `enableOrbitControl`: turns first-person control off on the way. The flag
      is set before the scene is read, so without a viewer the call throws with
      orbit control on, first-person control as it was and nothing announced. */
  function OrbitOn(r: Rig, viewer: bool): (s: Step)
    ensures r.orbit ==> s == Step(Pass, r, [])
    ensures !r.orbit && viewer ==> s.outcome == Pass && s.after == r.(orbit := true, firstPerson := false)
    ensures !r.orbit && viewer ==>
      s.effects == (if r.firstPerson then [Emitted("camera.firstPersonControlDisabled")] else []) + [Emitted("camera.orbitControlEnabled")]
    ensures !r.orbit && !viewer ==> s == Step(Fail(ViewerNotCreated), r.(orbit := true), [])
  {
    if r.orbit then Step(Pass, r, [])
    else if !viewer then Step(Fail(ViewerNotCreated), r.(orbit := true), [])
    else
      var d := FirstPersonOff(r.(orbit := true), viewer);
      Step(Pass, d.after, d.effects + [Emitted("camera.orbitControlEnabled")])
  }

  /** `enableFirstPersonControl`: turns orbit control off on the way. Both flag
      changes come before the scene is read, so without a viewer the call throws
      after them and before `camera.firstPersonControlEnabled`. */
  function FirstPersonOn(r: Rig, viewer: bool): (s: Step)
    ensures r.firstPerson ==> s == Step(Pass, r, [])
    ensures !r.firstPerson ==> s.after == r.(orbit := false, firstPerson := true)
    ensures !r.firstPerson ==> s.outcome == (if viewer then Pass else Fail(ViewerNotCreated))
    ensures !r.firstPerson ==>
      s.effects == (if r.orbit then [Emitted("camera.orbitControlDisabled")] else [])
                   + (if viewer then [Emitted("camera.firstPersonControlEnabled")] else [])
  {
    if r.firstPerson then Step(Pass, r, [])
    else
      var d := OrbitOff(r.(firstPerson := true));
      if !viewer then Step(Fail(ViewerNotCreated), d.after, d.effects)
      else Step(Pass, d.after, d.effects + [Emitted("camera.firstPersonControlEnabled")])
  }

  /** The enable calls with the viewer read before any flag changes, so that a
      call that throws changes nothing. */
  function OrbitOnChecked(r: Rig, viewer: bool): (s: Step)
    ensures s.outcome.Fail? ==> s == Step(Fail(ViewerNotCreated), r, [])
    ensures s.outcome.Pass? ==> s == OrbitOn(r, viewer)
    ensures viewer ==> s == OrbitOn(r, viewer)
  {
    if r.orbit || viewer then OrbitOn(r, viewer) else Step(Fail(ViewerNotCreated), r, [])
  }

  function FirstPersonOnChecked(r: Rig, viewer: bool): (s: Step)
    ensures s.outcome.Fail? ==> s == Step(Fail(ViewerNotCreated), r, [])
    ensures s.outcome.Pass? ==> s == FirstPersonOn(r, viewer)
    ensures viewer ==> s == FirstPersonOn(r, viewer)
  {
    if r.firstPerson || viewer then FirstPersonOn(r, viewer) else Step(Fail(ViewerNotCreated), r, [])
  }

  /** As written, two enable calls made without a viewer leave both controls
      on: first-person control keeps its flag when its call throws, and the
      orbit call then sets its own flag and throws before it turns first-person
      control off. */
  lemma BothControlsOn(r: Rig)
    requires !r.orbit && r.firstPerson
    ensures OrbitOn(r, false).outcome.Fail? && !Exclusive(OrbitOn(r, false).after)
    ensures var one := FirstPersonOn(InitialRig(), false);
      var two := OrbitOn(one.after, false);
      && one.outcome.Fail? && two.outcome.Fail?
      && two.after.orbit && two.after.firstPerson
  {
  }

  /** With the viewer read first, every enable call keeps the controls
      exclusive, with or without a viewer; a call that throws changes nothing
      and emits nothing, and one that completes leaves exactly its own control
      on. With a viewer the checked calls are the calls as written. */
  lemma CheckedControlsExclusive(r: Rig, viewer: bool)
    requires Exclusive(r)
    ensures Exclusive(OrbitOnChecked(r, viewer).after) && Exclusive(FirstPersonOnChecked(r, viewer).after)
    ensures OrbitOnChecked(r, viewer).outcome.Fail? ==> OrbitOnChecked(r, viewer) == Step(Fail(ViewerNotCreated), r, [])
    ensures FirstPersonOnChecked(r, viewer).outcome.Fail? ==> FirstPersonOnChecked(r, viewer) == Step(Fail(ViewerNotCreated), r, [])
    ensures OrbitOnChecked(r, viewer).outcome.Pass? ==> OrbitOnChecked(r, viewer).after.orbit
    ensures FirstPersonOnChecked(r, viewer).outcome.Pass? ==> FirstPersonOnChecked(r, viewer).after.firstPerson
    ensures viewer ==> OrbitOnChecked(r, viewer) == OrbitOn(r, viewer) && FirstPersonOnChecked(r, viewer) == FirstPersonOn(r, viewer)
  {
  }

  /** The decimal digits of a natural number, as a template literal renders it. */
  function Decimal(n: nat): (s: string)
    ensures |s| > 0 && forall i :: 0 <= i < |s| ==> '0' <= s[i] <= '9'
  {
    var d := ['0' + (n % 10) as char];
    if n < 10 then d else Decimal(n / 10) + d
  }

  /** The number a string of decimal digits denotes. */
  function DigitsValue(s: string): nat
    requires forall i :: 0 <= i < |s| ==> '0' <= s[i] <= '9'
    decreases |s|
  {
    if s == [] then 0
    else DigitsValue(s[..|s| - 1]) * 10 + (s[|s| - 1] as int - '0' as int)
  }

  /** `Decimal(n)` spells `n`. */
  lemma {:induction false} DecimalValue(n: nat)
    ensures DigitsValue(Decimal(n)) == n
    decreases n
  {
    var s := Decimal(n);
    if n >= 10 {
      DecimalValue(n / 10);
      assert s[..|s| - 1] == Decimal(n / 10);
    }
  }

  /** Distinct clock readings give distinct generated ids, for saved positions
      and for path animations alike. */
  lemma GeneratedIdsDistinct(t: nat, u: nat)
    ensures Decimal(t) == Decimal(u) <==> t == u
    ensures SaveId(None, t) == SaveId(None, u) <==> t == u
    ensures forall w, w' :: PathAnimation(w, t).id == PathAnimation(w', u).id <==> t == u
  {
    DecimalValue(t);
    DecimalValue(u);
    var p, q := "position_" + Decimal(t), "position_" + Decimal(u);
    if p == q {
      assert p[|"position_"|..] == Decimal(t) && q[|"position_"|..] == Decimal(u);
    }
    var a, c := "animation_" + Decimal(t), "animation_" + Decimal(u);
    if a == c {
      assert a[|"animation_"|..] == Decimal(t) && c[|"animation_"|..] == Decimal(u);
    }
  }

  /** The id `savePosition` files under: the name when it is truthy, otherwise
      `position_` and the clock reading. */
  function SaveId(name: Option<string>, now: nat): (id: string)
    ensures name.Some? && name.value != "" ==> id == name.value
    ensures !(name.Some? && name.value != "") ==> id == "position_" + Decimal(now)
    ensures id != ""
  {
    if name.Some? && name.value != "" then name.value else "position_" + Decimal(now)
  }

  /** What `savePosition` returns or throws, and what it leaves behind. */
  datatype SaveResult = SaveResult(result: Result<string, Error>, after: Rig, effects: seq<Effect>)

  /** `savePosition(name)`: the pose is read from the camera first, so without
      a viewer the call throws and saves nothing. `Date.now()` is read twice,
      once for the timestamp (`stamp`) and once for a generated id (`idStamp`). */
  function Saved(r: Rig, name: Option<string>, pose: Pose, stamp: nat, idStamp: nat, viewer: bool): (s: SaveResult)
    ensures !viewer ==> s == SaveResult(Err(ViewerNotCreated), r, [])
    ensures viewer ==> s.result == Ok(SaveId(name, idStamp))
  {
    if !viewer then SaveResult(Err(ViewerNotCreated), r, [])
    else
      var id := SaveId(name, idStamp);
      SaveResult(Ok(id), r.(history := r.history.Put(id, CameraPosition(pose, stamp))),
                 [Published(Message("camera.positionSaved", IdData(id)))])
  }

  /** What `restorePosition` returns or throws, and what it did. */
  datatype RestoreResult = RestoreResult(result: Result<bool, Error>, effects: seq<Effect>)

  /** `restorePosition(id)`: an unknown id returns false before the camera is
      touched; a saved one moves the camera back to its pose, which throws when
      there is no viewer. The fields never change. */
  function Restored(r: Rig, id: string, viewer: bool): (s: RestoreResult)
    ensures s.result == Ok(false) <==> id !in r.history.entries
    ensures s.result == Ok(true) <==> id in r.history.entries && viewer
    ensures s.result.Err? ==> s == RestoreResult(Err(ViewerNotCreated), [])
  {
    if id !in r.history.entries then RestoreResult(Ok(false), [])
    else if !viewer then RestoreResult(Err(ViewerNotCreated), [])
    else RestoreResult(Ok(true), [SetView(r.history.entries[id].pose), Published(Message("camera.positionRestored", IdData(id)))])
  }

  /** `wp.duration || 2`: an undefined or zero duration counts as two seconds. */
  function WaypointDuration(wp: Waypoint): (d: real)
    ensures wp.duration.None? || wp.duration == Some(0.0) ==> d == 2.0
    ensures wp.duration.Some? && wp.duration.value != 0.0 ==> d == wp.duration.value
  {
    if wp.duration.Some? && wp.duration.value != 0.0 then wp.duration.value else 2.0
  }

  /** `waypoints.reduce((sum, wp) => sum + (wp.duration || 2), 0)`, folded from
      the left. */
  function TotalDuration(wps: seq<Waypoint>): (d: real)
    ensures wps == [] ==> d == 0.0
    ensures (forall i :: 0 <= i < |wps| ==> WaypointDuration(wps[i]) >= 0.0) ==> d >= 0.0
    decreases |wps|
  {
    if wps == [] then 0.0
    else TotalDuration(wps[..|wps| - 1]) + WaypointDuration(wps[|wps| - 1])
  }

  /** `createPathAnimation(waypoints)`, with `now` the clock reading. */
  function PathAnimation(wps: seq<Waypoint>, now: nat): (a: Animation)
    ensures a.id == "animation_" + Decimal(now) && a.waypoints == wps && !a.loop
    ensures a.duration == TotalDuration(wps)
  {
    Animation("animation_" + Decimal(now), wps, TotalDuration(wps), false)
  }

  /** `stopAnimation`: the cancel flag is raised before the camera is read, so
      without a viewer the call throws with the animation still active and
      nothing announced. */
  function Stopped(r: Rig, viewer: bool): (s: Step)
    ensures r.active.None? ==> s == Step(Pass, r, [])
    ensures r.active.Some? && !viewer ==> s == Step(Fail(ViewerNotCreated), r.(cancelled := true), [])
    ensures r.active.Some? && viewer ==>
      s == Step(Pass, r.(active := None, cancelled := true),
                [CancelFlight, Published(Message("camera.animationCancelled", IdData(r.active.value.id)))])
  {
    if r.active.None? then Step(Pass, r, [])
    else if !viewer then Step(Fail(ViewerNotCreated), r.(cancelled := true), [])
    else Step(Pass, r.(active := None, cancelled := true),
              [CancelFlight, Published(Message("camera.animationCancelled", IdData(r.active.value.id)))])
  }

  /** What `playAnimation(animation)` does before its first `await`: a running
      animation is stopped, this one becomes active, and the flight to its
      first waypoint is started. The method is `async`, so a throw becomes the
      rejection of its promise, shown here as a `Fail` outcome: when the stop
      throws for want of a viewer nothing else happens. Without a viewer the
      first flight is never started, and its rejection only arrives after the
      `await`. With no waypoints and no looping the loop body never runs, so
      the `finally` block completes the animation at once. */
  function Played(r: Rig, a: Animation, viewer: bool): (s: Step)
    ensures r.active.Some? && !viewer ==> s == Step(Fail(ViewerNotCreated), r.(cancelled := true), [])
    ensures r.active.None? || viewer ==> s.outcome == Pass
    ensures r.active.None? || viewer ==>
      var stop := if r.active.Some? then Stopped(r, viewer).effects else [];
      var started := stop + [Published(Message("camera.animationStarted", IdData(a.id)))];
      && (a.waypoints != [] ==>
            && s.after == r.(active := Some(a), cancelled := false)
            && s.effects == started + (if viewer then [FlyTo(a.waypoints[0], WaypointDuration(a.waypoints[0]))] else []))
      && (a.waypoints == [] && !a.loop ==>
            && s.after == r.(active := None, cancelled := false)
            && s.effects == started + [Published(Message("camera.animationCompleted", IdData(a.id)))])
      && (a.waypoints == [] && a.loop ==>
            s.after == r.(active := Some(a), cancelled := false) && s.effects == started)
  {
    if r.active.Some? && !viewer then Stopped(r, viewer)
    else
      var first := if r.active.Some? then Stopped(r, viewer) else Step(Pass, r, []);
      var started := first.effects + [Published(Message("camera.animationStarted", IdData(a.id)))];
      var playing := first.after.(active := Some(a), cancelled := false);
      if a.waypoints != [] then
        Step(Pass, playing, started + (if viewer then [FlyTo(a.waypoints[0], WaypointDuration(a.waypoints[0]))] else []))
      else if !a.loop then
        Step(Pass, playing.(active := None), started + [Published(Message("camera.animationCompleted", IdData(a.id)))])
      else Step(Pass, playing, started)
  }

  /** `setLimits(limits)`: `{ ...this._limits, ...limits }`. */
  function LimitsSet(r: Rig, patch: StateCell.Record<LimitValue>): (s: Rig)
    ensures forall k :: k in patch ==> k in s.limits && s.limits[k] == patch[k]
    ensures forall k :: k !in patch ==> (k in s.limits <==> k in r.limits)
    ensures forall k :: k !in patch && k in r.limits ==> s.limits[k] == r.limits[k]
    ensures s.(limits := r.limits) == r
  {
    r.(limits := StateCell.Merged(r.limits, patch))
  }

  /** Whether `setLimits(patch)` goes on to the camera: it does for a zoom
      distance, the bounds or a pitch limit. A key of the record is a defined
      field. */
  predicate TouchesCamera(patch: StateCell.Record<LimitValue>) {
    || "minZoomDistance" in patch || "maxZoomDistance" in patch
    || "bounds" in patch || "minPitch" in patch || "maxPitch" in patch
  }

  /** `setLimits(limits)` as a whole: the merge comes first, so it stands even
      when the camera access after it throws for want of a viewer. */
  function LimitsApplied(r: Rig, patch: StateCell.Record<LimitValue>, viewer: bool): (s: Step)
    ensures s.after == LimitsSet(r, patch) && s.effects == []
    ensures s.outcome.Fail? <==> !viewer && TouchesCamera(patch)
    ensures s.outcome.Fail? ==> s.outcome.error == ViewerNotCreated
  {
    Step(if !viewer && TouchesCamera(patch) then Fail(ViewerNotCreated) else Pass, LimitsSet(r, patch), [])
  }

  /** `dispose`: `if (this.camera)` reads the viewer getter, so without a viewer
      it throws before anything is cleared. With one, the history is emptied and
      no animation is active. */
  function Disposed(r: Rig, viewer: bool): (s: Step)
    ensures !viewer ==> s == Step(Fail(ViewerNotCreated), r, [])
    ensures viewer ==> s.outcome == Pass && s.after.history.Valid() && s.after.history.Values() == [] && s.after.active.None?
    ensures viewer ==> s.after.orbit == r.orbit && s.after.firstPerson == r.firstPerson && s.after.limits == r.limits
    ensures viewer ==> s.effects == [Emitted("camera.service.disposed")]
  {
    if !viewer then Step(Fail(ViewerNotCreated), r, [])
    else Step(Pass, r.(history := EmptyMap(), active := None), [Emitted("camera.service.disposed")])
  }

  /** `dispose` with the listener removal guarded by whether a viewer exists,
      without the throwing getter: the history and the animation are released in
      every case. */
  function DisposedChecked(r: Rig, viewer: bool): (s: Step)
    ensures s.outcome == Pass && s.after.history.Valid() && s.after.history.Values() == [] && s.after.active.None?
    ensures s.after.orbit == r.orbit && s.after.firstPerson == r.firstPerson && s.after.limits == r.limits
    ensures s.effects == [Emitted("camera.service.disposed")]
    ensures viewer ==> s == Disposed(r, viewer)
  {
    Step(Pass, r.(history := EmptyMap(), active := None), [Emitted("camera.service.disposed")])
  }

  /** Every operation keeps the two controls exclusive, except `enableOrbitControl`
      without a viewer while first-person control is on; a completed enable
      leaves exactly its own control on. */
  lemma ControlsExclusive(r: Rig, name: Option<string>, pose: Pose, stamp: nat, idStamp: nat, a: Animation,
                          patch: StateCell.Record<LimitValue>, viewer: bool)
    requires Exclusive(r)
    ensures Exclusive(OrbitOn(r, viewer).after) <==> viewer || r.orbit || !r.firstPerson
    ensures OrbitOn(r, viewer).after.orbit && (viewer ==> !OrbitOn(r, viewer).after.firstPerson)
    ensures FirstPersonOn(r, viewer).after.firstPerson && !FirstPersonOn(r, viewer).after.orbit
    ensures Exclusive(OrbitOff(r).after) && Exclusive(FirstPersonOff(r, viewer).after)
    ensures Exclusive(Saved(r, name, pose, stamp, idStamp, viewer).after) && Exclusive(Stopped(r, viewer).after)
    ensures Exclusive(Played(r, a, viewer).after) && Exclusive(Disposed(r, viewer).after)
    ensures Exclusive(LimitsApplied(r, patch, viewer).after)
  {
    EnablesExclusive(r, viewer);
    ClearsExclusive(r, viewer);
    UpdatesExclusive(r, name, pose, stamp, idStamp, a, patch, viewer);
  }

  /** The enable calls' part of `ControlsExclusive`. */
  lemma EnablesExclusive(r: Rig, viewer: bool)
    requires Exclusive(r)
    ensures Exclusive(OrbitOn(r, viewer).after) <==> viewer || r.orbit || !r.firstPerson
    ensures OrbitOn(r, viewer).after.orbit && (viewer ==> !OrbitOn(r, viewer).after.firstPerson)
    ensures FirstPersonOn(r, viewer).after.firstPerson && !FirstPersonOn(r, viewer).after.orbit
  {
  }

  /** The disable, stop and dispose calls' part of `ControlsExclusive`. */
  lemma ClearsExclusive(r: Rig, viewer: bool)
    requires Exclusive(r)
    ensures Exclusive(OrbitOff(r).after) && Exclusive(FirstPersonOff(r, viewer).after)
    ensures Exclusive(Stopped(r, viewer).after) && Exclusive(Disposed(r, viewer).after)
  {
  }

  /** The save, play and limits calls' part of `ControlsExclusive`. */
  lemma UpdatesExclusive(r: Rig, name: Option<string>, pose: Pose, stamp: nat, idStamp: nat, a: Animation,
                         patch: StateCell.Record<LimitValue>, viewer: bool)
    requires Exclusive(r)
    ensures Exclusive(Saved(r, name, pose, stamp, idStamp, viewer).after)
    ensures Exclusive(Played(r, a, viewer).after)
    ensures Exclusive(LimitsApplied(r, patch, viewer).after)
  {
  }

  /** Enabling a control twice is enabling it once; the second call emits
      nothing, with or without a viewer, since the flag is set before the viewer
      is read. Disabling an off control does nothing. */
  lemma EnableIdempotent(r: Rig, viewer: bool, again: bool)
    ensures OrbitOn(OrbitOn(r, viewer).after, again) == Step(Pass, OrbitOn(r, viewer).after, [])
    ensures FirstPersonOn(FirstPersonOn(r, viewer).after, again) == Step(Pass, FirstPersonOn(r, viewer).after, [])
    ensures OrbitOff(OrbitOff(r).after) == Step(Pass, OrbitOff(r).after, [])
    ensures FirstPersonOff(FirstPersonOff(r, viewer).after, again) == Step(Pass, FirstPersonOff(r, viewer).after, [])
  {
  }

  /** A position saved under a name, with a viewer, is filed under that name,
      replacing an earlier one in its old place; restoring it moves the camera
      back to the saved pose while a viewer exists, and throws once it is gone.
      Without a viewer nothing is saved. */
  lemma SaveThenRestore(r: Rig, name: string, pose: Pose, stamp: nat, idStamp: nat, viewer: bool)
    requires name != "" && r.history.Valid()
    ensures Saved(r, Some(name), pose, stamp, idStamp, false) == SaveResult(Err(ViewerNotCreated), r, [])
    ensures var s := Saved(r, Some(name), pose, stamp, idStamp, true);
      && s.result == Ok(name)
      && s.after.history.Valid()
      && s.after.history.entries[name] == CameraPosition(pose, stamp)
      && (name in r.history.entries ==> s.after.history.keys == r.history.keys)
      && Restored(s.after, name, viewer) ==
         (if viewer then RestoreResult(Ok(true), [SetView(pose), Published(Message("camera.positionRestored", IdData(name)))])
          else RestoreResult(Err(ViewerNotCreated), []))
  {
  }

  /** A save that completes adds its position to the history's values: last
      when the id is new, in the old entry's place otherwise. */
  lemma SavedHistory(r: Rig, name: Option<string>, pose: Pose, stamp: nat, idStamp: nat, viewer: bool)
    requires r.history.Valid()
    ensures var s := Saved(r, name, pose, stamp, idStamp, viewer);
      var id := SaveId(name, idStamp);
      var vs := s.after.history.Values();
      && s.after.history.Valid()
      && (!viewer ==> vs == r.history.Values())
      && (viewer && id !in r.history.entries ==> vs == r.history.Values() + [CameraPosition(pose, stamp)])
      && (viewer && id in r.history.entries ==> |vs| == |r.history.Values()|)
  {
    var s := Saved(r, name, pose, stamp, idStamp, viewer);
    var id := SaveId(name, idStamp);
    if viewer && id !in r.history.entries {
      var vs, ws := s.after.history.Values(), r.history.Values() + [CameraPosition(pose, stamp)];
      assert |vs| == |ws|;
      forall i | 0 <= i < |vs| ensures vs[i] == ws[i] {
        if i < |r.history.keys| {
          assert s.after.history.keys[i] == r.history.keys[i];
          assert r.history.keys[i] != id;
        }
      }
    }
  }

  /** Restoring an id that was never saved returns false and emits nothing,
      whether or not there is a viewer. */
  lemma RestoreUnknown(r: Rig, id: string, viewer: bool)
    requires id !in r.history.entries
    ensures Restored(r, id, viewer) == RestoreResult(Ok(false), [])
  {
  }

  /** The left fold of the durations is additive over concatenation. */
  lemma {:induction false} DurationAppend(a: seq<Waypoint>, b: seq<Waypoint>)
    ensures TotalDuration(a + b) == TotalDuration(a) + TotalDuration(b)
    decreases |b|
  {
    if b == [] {
      assert a + b == a;
    } else {
      var b' := b[..|b| - 1];
      assert (a + b)[..|a + b| - 1] == a + b';
      DurationAppend(a, b');
    }
  }

  /** Waypoints that all leave their duration undefined (or zero) take two
      seconds each. */
  lemma {:induction false} DefaultDurations(wps: seq<Waypoint>)
    requires forall i :: 0 <= i < |wps| ==> wps[i].duration.None? || wps[i].duration == Some(0.0)
    ensures TotalDuration(wps) == 2.0 * |wps| as real
    decreases |wps|
  {
    if wps != [] {
      DefaultDurations(wps[..|wps| - 1]);
    }
  }

  /** With every duration positive or defaulted, a non-empty path takes at
      least as long as its longest leg. */
  lemma {:induction false} DurationCoversEachLeg(wps: seq<Waypoint>, i: nat)
    requires forall j :: 0 <= j < |wps| ==> WaypointDuration(wps[j]) > 0.0
    requires i < |wps|
    ensures WaypointDuration(wps[i]) <= TotalDuration(wps)
    decreases |wps|
  {
    var init := wps[..|wps| - 1];
    if i < |wps| - 1 {
      DurationCoversEachLeg(init, i);
    } else {
      DurationNonNegative(init);
    }
  }

  lemma {:induction false} DurationNonNegative(wps: seq<Waypoint>)
    requires forall j :: 0 <= j < |wps| ==> WaypointDuration(wps[j]) > 0.0
    ensures TotalDuration(wps) >= 0.0
    decreases |wps|
  {
    if wps != [] {
      DurationNonNegative(wps[..|wps| - 1]);
    }
  }

  /** Stopping with nothing playing does nothing. With a viewer, stopping a
      played animation that is still in flight announces exactly that
      animation's cancellation and leaves none active; an animation without
      waypoints or looping has already completed, so stopping it afterwards
      does nothing. Without a viewer the stop throws and the animation stays
      active, only marked cancelled. */
  lemma PlayThenStop(r: Rig, a: Animation, viewer: bool)
    ensures r.active.None? ==> Stopped(r, viewer) == Step(Pass, r, [])
    ensures a.waypoints != [] || a.loop ==>
      Stopped(Played(r, a, true).after, true) ==
      Step(Pass, r.(active := None, cancelled := true),
           [CancelFlight, Published(Message("camera.animationCancelled", IdData(a.id)))])
    ensures a.waypoints != [] || a.loop ==>
      Stopped(Played(r, a, true).after, false) ==
      Step(Fail(ViewerNotCreated), r.(active := Some(a), cancelled := true), [])
    ensures a.waypoints == [] && !a.loop ==> Stopped(Played(r, a, true).after, viewer) == Step(Pass, Played(r, a, true).after, [])
  {
  }

  /** Setting the same limits twice is setting them once, and later limits win
      field by field. */
  lemma LimitsMerge(r: Rig, p: StateCell.Record<LimitValue>, q: StateCell.Record<LimitValue>)
    ensures LimitsSet(LimitsSet(r, p), p) == LimitsSet(r, p)
    ensures LimitsSet(LimitsSet(r, p), q) == LimitsSet(r, StateCell.Merged(p, q))
  {
    StateCell.MergeIdempotent(r.limits, p);
    StateCell.MergeComposes(r.limits, p, q);
  }

  class CameraService {
    var orbit: bool
    var firstPerson: bool
    var history: OMap<string, CameraPosition>
    var active: Option<Animation>
    var cancelled: bool
    var limits: StateCell.Record<LimitValue>
    /** The calls into the camera and the events emitted, oldest first. */
    var effects: seq<Effect>

    function State(): Rig
      reads this
    {
      Rig(orbit, firstPerson, history, active, cancelled, limits)
    }

    ghost predicate Valid()
      reads this
    {
      history.Valid()
    }

    constructor()
      ensures Valid() && Exclusive(State()) && State() == InitialRig() && effects == []
    {
      orbit, firstPerson, history, active, cancelled, limits := false, false, EmptyMap(), None, false, map[];
      effects := [];
    }

    /** `init`. */
    method Init()
      modifies this
      ensures State() == old(State())
      ensures effects == old(effects) + [Emitted("camera.service.initialized")]
    {
      effects := effects + [Emitted("camera.service.initialized")];
    }

    /** `setLimits(patch)`; `viewer` says whether the viewer service holds a
        viewer, here and in the methods below. */
    method SetLimits(patch: StateCell.Record<LimitValue>, viewer: bool) returns (outcome: Outcome<Error>)
      modifies this
      ensures outcome == LimitsApplied(old(State()), patch, viewer).outcome
      ensures State() == LimitsApplied(old(State()), patch, viewer).after && effects == old(effects)
    {
      limits := limits + patch;
      if !viewer && TouchesCamera(patch) {
        // `this.camera` throws
        return Fail(ViewerNotCreated);
      }
      outcome := Pass;
    }

    method EnableOrbitControl(viewer: bool) returns (outcome: Outcome<Error>)
      modifies this
      ensures outcome == OrbitOn(old(State()), viewer).outcome
      ensures State() == OrbitOn(old(State()), viewer).after
      ensures effects == old(effects) + OrbitOn(old(State()), viewer).effects
    {
      if orbit {
        return Pass;
      }
      orbit := true;
      if !viewer {
        // `this._viewerService.viewer.scene` throws
        return Fail(ViewerNotCreated);
      }
      if firstPerson {
        var _ := DisableFirstPersonControl(viewer);
      }
      effects := effects + [Emitted("camera.orbitControlEnabled")];
      outcome := Pass;
    }

    method DisableOrbitControl()
      modifies this
      ensures State() == OrbitOff(old(State())).after
      ensures effects == old(effects) + OrbitOff(old(State())).effects
    {
      if !orbit {
        return;
      }
      orbit := false;
      effects := effects + [Emitted("camera.orbitControlDisabled")];
    }

    method EnableFirstPersonControl(viewer: bool) returns (outcome: Outcome<Error>)
      modifies this
      ensures outcome == FirstPersonOn(old(State()), viewer).outcome
      ensures State() == FirstPersonOn(old(State()), viewer).after
      ensures effects == old(effects) + FirstPersonOn(old(State()), viewer).effects
    {
      if firstPerson {
        return Pass;
      }
      firstPerson := true;
      if orbit {
        DisableOrbitControl();
      }
      if !viewer {
        // `this._viewerService.viewer.scene` throws
        return Fail(ViewerNotCreated);
      }
      effects := effects + [Emitted("camera.firstPersonControlEnabled")];
      outcome := Pass;
    }

    method DisableFirstPersonControl(viewer: bool) returns (outcome: Outcome<Error>)
      modifies this
      ensures outcome == FirstPersonOff(old(State()), viewer).outcome
      ensures State() == FirstPersonOff(old(State()), viewer).after
      ensures effects == old(effects) + FirstPersonOff(old(State()), viewer).effects
    {
      if !firstPerson {
        return Pass;
      }
      firstPerson := false;
      if !viewer {
        return Fail(ViewerNotCreated);
      }
      effects := effects + [Emitted("camera.firstPersonControlDisabled")];
      outcome := Pass;
    }

    /** `savePosition(name)`, with the camera's current `pose` and the two
        clock readings. */
    method SavePosition(name: Option<string>, pose: Pose, stamp: nat, idStamp: nat, viewer: bool) returns (r: Result<string, Error>)
      requires Valid()
      modifies this
      ensures Valid()
      ensures r == Saved(old(State()), name, pose, stamp, idStamp, viewer).result
      ensures State() == Saved(old(State()), name, pose, stamp, idStamp, viewer).after
      ensures effects == old(effects) + Saved(old(State()), name, pose, stamp, idStamp, viewer).effects
    {
      if !viewer {
        // `this.camera.position` throws
        return Err(ViewerNotCreated);
      }
      var id := if name.Some? && name.value != "" then name.value else "position_" + Decimal(idStamp);
      history := history.Put(id, CameraPosition(pose, stamp));
      effects := effects + [Published(Message("camera.positionSaved", IdData(id)))];
      r := Ok(id);
    }

    method RestorePosition(id: string, viewer: bool) returns (r: Result<bool, Error>)
      modifies this
      ensures State() == old(State())
      ensures r == Restored(old(State()), id, viewer).result
      ensures effects == old(effects) + Restored(old(State()), id, viewer).effects
    {
      if id !in history.entries {
        return Ok(false);
      }
      var saved := history.entries[id];
      if !viewer {
        // `setView` reads `this.camera`, which throws
        return Err(ViewerNotCreated);
      }
      effects := effects + [SetView(saved.pose)];
      effects := effects + [Published(Message("camera.positionRestored", IdData(id)))];
      r := Ok(true);
    }

    /** `getPositionHistory`: the saved positions in the order their ids were
        first saved. */
    function GetPositionHistory(): (r: seq<CameraPosition>)
      reads this
      requires Valid()
      ensures |r| == |history.keys|
      ensures forall i :: 0 <= i < |r| ==> r[i] == history.entries[history.keys[i]]
    {
      history.Values()
    }

    method PlayAnimation(a: Animation, viewer: bool) returns (outcome: Outcome<Error>)
      modifies this
      ensures outcome == Played(old(State()), a, viewer).outcome
      ensures State() == Played(old(State()), a, viewer).after
      ensures effects == old(effects) + Played(old(State()), a, viewer).effects
    {
      if active.Some? {
        outcome := StopAnimation(viewer);
        if outcome.Fail? {
          return;
        }
      }
      active := Some(a);
      cancelled := false;
      effects := effects + [Published(Message("camera.animationStarted", IdData(a.id)))];
      outcome := Pass;
      if |a.waypoints| > 0 {
        // the first round of the loop, up to its `await`; without a viewer
        // `flyTo` returns a rejected promise and starts no flight
        if viewer {
          var w := a.waypoints[0];
          effects := effects + [FlyTo(w, if w.duration.Some? && w.duration.value != 0.0 then w.duration.value else 2.0)];
        }
        return;
      }
      if a.loop {
        // `return this.playAnimation(animation)` recurses without end; the model stops here
        return;
      }
      // the `finally` block
      if !cancelled {
        effects := effects + [Published(Message("camera.animationCompleted", IdData(a.id)))];
      }
      active := None;
    }

    method StopAnimation(viewer: bool) returns (outcome: Outcome<Error>)
      modifies this
      ensures outcome == Stopped(old(State()), viewer).outcome
      ensures State() == Stopped(old(State()), viewer).after
      ensures effects == old(effects) + Stopped(old(State()), viewer).effects
    {
      if active.None? {
        return Pass;
      }
      cancelled := true;
      if !viewer {
        // `this.camera.cancelFlight()` throws
        return Fail(ViewerNotCreated);
      }
      effects := effects + [CancelFlight];
      effects := effects + [Published(Message("camera.animationCancelled", IdData(active.value.id)))];
      active := None;
      outcome := Pass;
    }

    method Dispose(viewer: bool) returns (outcome: Outcome<Error>)
      requires Valid()
      modifies this
      ensures Valid()
      ensures outcome == Disposed(old(State()), viewer).outcome
      ensures State() == Disposed(old(State()), viewer).after
      ensures effects == old(effects) + Disposed(old(State()), viewer).effects
    {
      if !viewer {
        // `if (this.camera)` throws
        return Fail(ViewerNotCreated);
      }
      history := EmptyMap();
      active := None;
      effects := effects + [Emitted("camera.service.disposed")];
      outcome := Pass;
    }
  }
}
