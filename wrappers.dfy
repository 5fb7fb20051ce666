/** Optional values: `None` stands for an outcome that ends the run (a fatal log or a panic). */
module Wrappers {
  datatype Option<+T> = None | Some(value: T)
}
