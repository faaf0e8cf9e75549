/**
  The instant-configuration object both 3D model managers re-create on every model load:
  a `trackMouse` accessor pair over the backing slot `_trackMouse`, whose setter zeroes
  the mouse-focus helper's rotation when tracking is switched off, plus plain slots.
*/
module InstantConfigs {
  import opened Values

  /** The Euler rotation of the object the mouse-focus helper turns. */
  datatype Rotation = Rotation(x: real, y: real, z: real)

  const Zero := Rotation(0.0, 0.0, 0.0)

  /** `_trackMouse` and every other own slot of the object. */
  datatype InstantConfig = InstantConfig(trackMouse: Value, slots: map<string, Value>)

  /** The two names that reach the `_trackMouse` slot. */
  predicate IsTrackMouseName(name: string) {
    name == "trackMouse" || name == "_trackMouse"
  }

  /** `instantConfig[name]`: the getter returns the backing slot; a missing slot is `undefined`. */
  function Read(cfg: InstantConfig, name: string): (r: Value)
    ensures IsTrackMouseName(name) ==> r == cfg.trackMouse
    ensures !IsTrackMouseName(name) && name !in cfg.slots ==> r == Undefined
  {
    if IsTrackMouseName(name) then cfg.trackMouse
    else if name in cfg.slots then cfg.slots[name] else Undefined
  }

  /** The configuration and the helper's rotation (if there is a helper) after `instantConfig[name] = value`. */
  datatype Written = Written(config: InstantConfig, helper: Option<Rotation>)

  function Write(cfg: InstantConfig, name: string, value: Value, helper: Option<Rotation>): (w: Written)
    ensures Read(w.config, name) == value
    ensures w.config.slots.Keys == cfg.slots.Keys + (if IsTrackMouseName(name) then {} else {name})
    ensures w.helper.Some? == helper.Some?
    ensures w.helper != helper ==> name == "trackMouse" && !Truthy(value) && w.helper == Some(Zero)
  {
    if name == "trackMouse" then
      Written(cfg.(trackMouse := value), if !Truthy(value) && helper.Some? then Some(Zero) else helper)
    else if name == "_trackMouse" then
      Written(cfg.(trackMouse := value), helper)
    else
      Written(cfg.(slots := cfg.slots[name := value]), helper)
  }

  /**
    A write is read back under the same name, and under no name that is not an alias of
    it; only a falsy `trackMouse` through the setter touches the helper, and then zeroes it.
  */
  lemma WriteThenRead(cfg: InstantConfig, name: string, value: Value, helper: Option<Rotation>, other: string)
    ensures var w := Write(cfg, name, value, helper);
      && Read(w.config, name) == value
      && (other != name && !(IsTrackMouseName(name) && IsTrackMouseName(other)) ==> Read(w.config, other) == Read(cfg, other))
      && (w.helper != helper ==> name == "trackMouse" && !Truthy(value) && w.helper == Some(Zero))
      && (name == "trackMouse" && !Truthy(value) && helper.Some? ==> w.helper == Some(Zero))
      && w.helper.Some? == helper.Some?
  {
  }
}
