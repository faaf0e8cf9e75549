/**
  The glTF model manager of the display window, as far as control messages and the
  per-frame update reach it: only the instant configuration and the mouse-focus
  decision. Loading is given by its outcome (whether the scene holds a mesh, and that
  mesh's rotation); the rotation the focus helper aims at each frame is an input.
*/
module GltfBackend {
  import opened Values
  import opened InstantConfigs

  /** The configuration `_initInstantConfig` creates: tracking off, no other slot. */
  const DefaultConfig := InstantConfig(Bool(false), map[])

  /** A finished load: the rotation of the first mesh found in the scene, if it has one. */
  datatype LoadedScene = LoadedScene(firstMesh: Option<Rotation>)

  datatype TransformRequest = BindNode(nodeId: Value) | SetNodeTransform(data: Value)

  /** The channels `handleMessage` acts on. */
  const Channels: set<string> := {"control:bind-node-transform", "control:set-node-transform", "control:change-instant-config"}

  class GltfManager {
    var config: Option<InstantConfig>
    /** The mouse-focus helper's rotation; `None` while there is no helper. */
    var helper: Option<Rotation>
    var transformRequests: seq<TransformRequest>

    constructor ()
      ensures config == None && helper == None && transformRequests == []
    {
      config := None;
      helper := None;
      transformRequests := [];
    }

    /**
      `loadModel`: the configuration is re-created before loading starts; a loaded scene
      gets a new helper only when it contains a mesh, and otherwise the previous helper
      stays.
    */
    method LoadModel(loaded: Option<LoadedScene>)
      modifies this`config, this`helper
      ensures config == Some(DefaultConfig)
      ensures helper == if loaded.Some? && loaded.value.firstMesh.Some? then loaded.value.firstMesh else old(helper)
    {
      config := Some(DefaultConfig);
      if loaded.Some? && loaded.value.firstMesh.Some? {
        helper := loaded.value.firstMesh;
      }
    }

    /**
      `handleMessage`: node-transform requests are forwarded, `change-instant-config`
      writes `value` under `name`; every other channel, the sequence, skin and body-group
      ones included, is ignored. Destructuring a missing `data` throws, except on
      `set-node-transform`, which passes `data` on as it is.
    */
    method HandleMessage(channel: string, data: Value) returns (threw: bool)
      modifies this
      ensures channel !in Channels ==> !threw && unchanged(this)
      ensures channel == "control:set-node-transform" ==>
        !threw && config == old(config) && helper == old(helper) && transformRequests == old(transformRequests) + [SetNodeTransform(data)]
      ensures channel != "control:set-node-transform" && channel in Channels && Nullish(data) ==> threw && unchanged(this)
      ensures channel == "control:bind-node-transform" && !Nullish(data) ==>
        !threw && config == old(config) && helper == old(helper) && transformRequests == old(transformRequests) + [BindNode(Prop(data, "nodeId"))]
      ensures channel == "control:change-instant-config" && !Nullish(data) ==>
        var name := Prop(data, "name");
        && (threw <==> old(config).None?)
        && (old(config).Some? && name.Str? ==>
              var w := Write(old(config).value, name.s, Prop(data, "value"), old(helper));
              config == Some(w.config) && helper == w.helper)
        && (!(old(config).Some? && name.Str?) ==> config == old(config) && helper == old(helper))
        && transformRequests == old(transformRequests)
    {
      if channel !in Channels {
        return false;
      }
      threw := false;
      if channel == "control:set-node-transform" {
        transformRequests := transformRequests + [SetNodeTransform(data)];
      } else if Nullish(data) {
        threw := true;
      } else if channel == "control:bind-node-transform" {
        transformRequests := transformRequests + [BindNode(Prop(data, "nodeId"))];
      } else {
        if config.None? {
          return true;
        }
        var name := Prop(data, "name");
        if name.Str? {
          var w := Write(config.value, name.s, Prop(data, "value"), helper);
          config := Some(w.config);
          helper := w.helper;
        }
      }
    }

    /** Tracking is on and there is a helper. */
    predicate FocusRuns()
      reads this
    {
      config.Some? && Truthy(config.value.trackMouse) && helper.Some?
    }

    /** The mouse part of `_updateObjects`: the helper turns to `aim` exactly when `FocusRuns`. */
    method UpdateObjects(aim: Rotation) returns (focused: bool)
      modifies this`helper
      ensures focused == old(FocusRuns())
      ensures helper == if focused then Some(aim) else old(helper)
    {
      focused := FocusRuns();
      if focused {
        helper := Some(aim);
      }
    }
  }

  /** A freshly loaded glTF model does not follow the mouse until tracking is switched on. */
  method NoTrackingAfterLoad(m: GltfManager, loaded: Option<LoadedScene>, aim: Rotation) returns (focused: bool)
    modifies m
    ensures !focused
  {
    m.LoadModel(loaded);
    focused := m.UpdateObjects(aim);
  }

  /** Switching tracking on makes a model with a mesh follow the mouse. */
  method TrackingOnFollows(m: GltfManager, scene: LoadedScene, aim: Rotation) returns (focused: bool)
    requires scene.firstMesh.Some?
    modifies m
    ensures focused && m.helper == Some(aim)
  {
    m.LoadModel(Some(scene));
    var threw := m.HandleMessage("control:change-instant-config", Obj(map["name" := Str("trackMouse"), "value" := Bool(true)]));
    focused := m.UpdateObjects(aim);
  }

  /** Switching tracking off zeroes the helper, and the next frame leaves it there. */
  method TrackingOffZeroes(m: GltfManager, aim: Rotation) returns (focused: bool)
    requires m.config.Some? && m.helper.Some?
    modifies m
    ensures !focused && m.helper == Some(Zero)
  {
    var threw := m.HandleMessage("control:change-instant-config", Obj(map["name" := Str("trackMouse"), "value" := Bool(false)]));
    focused := m.UpdateObjects(aim);
  }

  /** The sequence, skin and body-group messages the router sends do nothing to a glTF model. */
  method SourceChannelsIgnored(m: GltfManager, data: Value) returns (threw: seq<bool>)
    modifies m
    ensures threw == [false, false, false, false] && unchanged(m)
  {
    var a := m.HandleMessage("control:play-sequence", data);
    var b := m.HandleMessage("control:stop-sequence", data);
    var c := m.HandleMessage("control:set-skin", data);
    var d := m.HandleMessage("control:set-bodygroup", data);
    threw := [a, b, c, d];
  }
}
