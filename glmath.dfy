/**
 * Vectors and 4x4 matrices of modules/glmath.py. The matrix operations are
 * PyGLM's floating-point routines, so matrices are kept as symbolic terms:
 * two matrices are equal here when they were built by the same operations
 * from the same operands, and nothing is computed.
 */
module GlMath {
  import opened Wrappers

  datatype Vec3 = Vec3(x: real, y: real, z: real)

  datatype Mat =
    | Identity
    | Translate(base: Mat, offset: Vec3)               // glm.translate(base, offset)
    | Rotation(angle: real, axis: Vec3)                // glm.rotate(angle, axis)
    | Product(left: Mat, right: Mat)                   // left * right

  /** A positional argument of a call into the wrapper, by its Python type. */
  datatype Arg = MatArg(m: Mat) | RealArg(r: real) | VecArg(v: Vec3)

  /**
   * The `rotate(angle, axis, *args)` wrapper: with an extra argument that is
   * a matrix it rotates that matrix, with an extra argument of any other
   * type it raises ValueError, and without one it builds a rotation. PyGLM
   * itself is taken to accept only a real angle and a vector axis; any other
   * pair is None as well.
   */
  function Rotate(angle: Arg, axis: Arg, args: seq<Arg>): (r: Option<Mat>)
    ensures |args| > 0 && !args[0].MatArg? ==> r.None?
    ensures |args| > 0 && args[0].MatArg? && angle.RealArg? && axis.VecArg?
            ==> r == Some(Product(args[0].m, Rotation(angle.r, axis.v)))
    ensures |args| == 0 && angle.RealArg? && axis.VecArg? ==> r == Some(Rotation(angle.r, axis.v))
    ensures r.Some? ==> angle.RealArg? && axis.VecArg?
  {
    if |args| > 0 then
      if !args[0].MatArg? then None
      else if angle.RealArg? && axis.VecArg? then Some(Product(args[0].m, Rotation(angle.r, axis.v)))
      else None
    else if angle.RealArg? && axis.VecArg? then Some(Rotation(angle.r, axis.v))
    else None
  }
}
