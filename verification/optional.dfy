/** Java's nullable references and `java.util.Optional`, as one datatype. */
module Optional {

  /** `None` stands for `null` (or an empty `Optional`), `Some(v)` for a present value. */
  datatype Option<+T> = None | Some(value: T)
}
