// Small value types shared by every module of the model.

module Common {

  /** A value that may be absent: JavaScript's `undefined`/`null`, Python's `None`. */
  datatype Option<T> = None | Some(value: T)
  {
    /** The `x ?? d` / `x || d` idiom of the source for a possibly absent value. */
    function GetOr(default: T): (r: T)
      ensures this.Some? ==> r == this.value
      ensures this.None? ==> r == default
    {
      match this
      case Some(v) => v
      case None => default
    }
  }

  /** A point or vector of three.js / cannon-es, in world units. */
  datatype Vec3 = Vec3(x: real, y: real, z: real)

  const Origin := Vec3(0.0, 0.0, 0.0)
}
