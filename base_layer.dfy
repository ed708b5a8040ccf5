/** The layer base class of src/models/layer/BaseLayer.ts: options read at
    construction, a visibility flag and an opacity, each change announced on the
    bus. The subclasses' Cesium objects and their `destroy` are outside the
    model. */
module BaseLayers {
  import opened Wrappers
  import opened Messages

  /** `LayerOptions`: the fields the base class and the layer service read
      (`None` is undefined). `kind` is the `type` string. */
  datatype LayerOptions = LayerOptions(
    id: string, name: string, kind: string,
    visible: Option<bool>, opacity: Option<real>, group: Option<string>)

  /** `options.visible !== undefined ? options.visible : true`. */
  function InitialVisible(o: LayerOptions): (r: bool)
    ensures r <==> o.visible != Some(false)
  {
    if o.visible.Some? then o.visible.value else true
  }

  /** `options.opacity !== undefined ? options.opacity : 1.0`; construction does
      not clamp. */
  function InitialOpacity(o: LayerOptions): (r: real)
    ensures o.opacity.None? ==> r == 1.0
    ensures o.opacity.Some? ==> r == o.opacity.value
  {
    if o.opacity.Some? then o.opacity.value else 1.0
  }

  /** `Math.max(0, Math.min(1, x))`. */
  function Clamp(x: real): (r: real)
    ensures 0.0 <= r <= 1.0
    ensures 0.0 <= x <= 1.0 ==> r == x
    ensures x < 0.0 ==> r == 0.0
    ensures x > 1.0 ==> r == 1.0
  {
    var m := if x < 1.0 then x else 1.0;
    if m > 0.0 then m else 0.0
  }

  /** Clamping twice is clamping once, and clamping is monotone. */
  lemma ClampIdempotent(x: real, y: real)
    ensures Clamp(Clamp(x)) == Clamp(x)
    ensures x <= y ==> Clamp(x) <= Clamp(y)
  {
  }

  /** A layer built with an opacity outside [0, 1] keeps it until the first
      `setOpacity`. */
  lemma ConstructionDoesNotClamp()
    ensures InitialOpacity(LayerOptions("a", "a", "imagery", None, Some(1.5), None)) == 1.5
    ensures Clamp(1.5) == 1.0
  {
  }

  function VisibilityChanged(id: string, visible: bool): Message {
    Message("layer.visibility.changed", VisibilityData(id, visible))
  }

  class BaseLayer {
    const id: string
    const name: string
    const kind: string
    /** The Cesium object the subclass made, by identity. */
    const instance: nat
    var visible: bool
    var opacity: real
    /** The events this layer has emitted, oldest first. */
    var published: seq<Message>

    /** The constructor: a layer built invisible announces it through `hide`. */
    constructor(options: LayerOptions, instance: nat)
      ensures id == options.id && name == options.name && kind == options.kind && this.instance == instance
      ensures visible == InitialVisible(options) && opacity == InitialOpacity(options)
      ensures published == if visible then [] else [VisibilityChanged(id, false)]
    {
      id, name, kind, this.instance := options.id, options.name, options.kind, instance;
      visible := if options.visible.Some? then options.visible.value else true;
      opacity := if options.opacity.Some? then options.opacity.value else 1.0;
      published := [];
      new;
      if !visible {
        Hide();
      }
    }

    method Show()
      modifies this
      ensures visible && opacity == old(opacity)
      ensures published == old(published) + [VisibilityChanged(id, true)]
    {
      visible := true;
      published := published + [VisibilityChanged(id, true)];
    }

    method Hide()
      modifies this
      ensures !visible && opacity == old(opacity)
      ensures published == old(published) + [VisibilityChanged(id, false)]
    {
      visible := false;
      published := published + [VisibilityChanged(id, false)];
    }

    /** Stores the clamped value and announces it. */
    method SetOpacity(x: real)
      modifies this
      ensures opacity == Clamp(x) && 0.0 <= opacity <= 1.0 && visible == old(visible)
      ensures published == old(published) + [Message("layer.opacity.changed", OpacityData(id, Clamp(x)))]
    {
      opacity := Clamp(x);
      published := published + [Message("layer.opacity.changed", OpacityData(id, opacity))];
    }

    function GetOpacity(): (r: real)
      reads this
      ensures r == opacity
    {
      opacity
    }
  }
}
