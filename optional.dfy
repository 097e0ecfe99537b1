/** Small value wrappers shared by every module of the model. */
module Optional {

  /** An optional value. A policy that never found an action returns `None`:
      the source returns its `inf` sentinel in that case. */
  datatype Option<T> = None | Some(value: T)

  /** A Python/numpy float that may be NaN. */
  datatype Float = NaN | Num(value: real)
}
