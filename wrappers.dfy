/** Optional values, used for results the source may leave empty (`null`, `NaN`). */
module Wrappers {
  datatype Option<+T> = None | Some(value: T)
}
