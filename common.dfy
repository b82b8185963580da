/** Values shared by the modules of this model: the optional value used for
    C's NULL pointers and Swift's failable raw-value initialisers, and an
    uninterpreted double-precision number. */
module Common {

  datatype Option<+T> = None | Some(value: T) {

    /** The held value, or `default` when there is none (Swift's `??`). */
    function GetOr(default: T): (r: T)
      ensures Some? ==> r == value
      ensures None? ==> r == default
    {
      match this
      case Some(v) => v
      case None => default
    }
  }

  /** A C `double` or Swift `Double`, known only by its 64 bits: values of
      this type are stored and passed on, never computed with. */
  datatype Double = Double(bits: bv64)

  /** 0.0 and 1.0 in IEEE 754 binary64. */
  const DoubleZero: Double := Double(0)
  const DoubleOne: Double := Double(0x3FF0_0000_0000_0000)
}
