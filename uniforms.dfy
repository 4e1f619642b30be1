/**
 * A moderngl shader program seen as its table of uniforms. Scene code and
 * the demo objects store into it in two ways: `program[name] = value`
 * (Assigned) and `program[name].write(value)` (Written). The GPU side of
 * either call is not modelled; only which value was last stored under which
 * name, and how.
 */
module Uniforms {
  import opened GlMath

  /** The values the code stores: matrices, vectors and plain numbers. */
  datatype Value = MatrixValue(m: Mat) | VectorValue(v: Vec3) | NumberValue(x: real)

  datatype Uniform = Assigned(value: Value) | Written(value: Value)

  type Table = map<string, Uniform>

  const ModelMatrixName := "model_matrix"
  const ViewMatrixName := "view_matrix"
  const ProjectionMatrixName := "projection_matrix"
  const CameraPositionName := "camera_position"

  /** The table holds exactly `u` under `name`. */
  predicate Holds(t: Table, name: string, u: Uniform)
  {
    name in t && t[name] == u
  }
}
