/** The value a lookup found, if any: the source's NULL or sentinel results. */
module Options {
  datatype Option<+T> = None | Some(value: T)
}
