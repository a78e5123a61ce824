/** Optional values, used both for "absent" results and for Java references that may be null. */
module Options {

  datatype Option<+T> = None | Some(value: T)

  /** A Java `String` reference: `None` stands for `null`. */
  type JString = Option<string>
}
