/**
 * The engine's camera as the rest of the code uses it. modules/camera.py
 * only builds an identity view and projection matrix; the `position`
 * attribute and the `move`, `rotate`, `reset_camera` and `look_at_scene`
 * methods that modules/core.py and modules/scene.py call are defined
 * nowhere, so the camera here keeps its matrices and position and records,
 * in order, every call it receives.
 */
module Camera {
  import opened GlMath

  datatype Call =
    | MoveCall(direction: string, dt: real)
    | RotateCall(x: real, y: real, dx: real, dy: real)
    | ResetCall
    | LookAtSceneCall

  class Camera {
    var view: Mat
    var projection: Mat
    var position: Vec3
    var calls: seq<Call>

    /** `Camera.__init__`: identity view and projection, eye at the origin. */
    constructor()
      ensures view == Identity && projection == Identity
      ensures position == Vec3(0.0, 0.0, 0.0)
      ensures calls == []
    {
      view := Identity;
      projection := Identity;
      position := Vec3(0.0, 0.0, 0.0);
      calls := [];
    }

    method Move(direction: string, dt: real)
      modifies this`calls
      ensures calls == old(calls) + [MoveCall(direction, dt)]
    {
      calls := calls + [MoveCall(direction, dt)];
    }

    method Rotate(x: real, y: real, dx: real, dy: real)
      modifies this`calls
      ensures calls == old(calls) + [RotateCall(x, y, dx, dy)]
    {
      calls := calls + [RotateCall(x, y, dx, dy)];
    }

    method ResetCamera()
      modifies this`calls
      ensures calls == old(calls) + [ResetCall]
    {
      calls := calls + [ResetCall];
    }

    method LookAtScene()
      modifies this`calls
      ensures calls == old(calls) + [LookAtSceneCall]
    {
      calls := calls + [LookAtSceneCall];
    }
  }
}
