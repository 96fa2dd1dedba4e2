/** Python's `None`-or-value arguments (`object_name=None`, `local_path=None`, ...). */
module Wrappers {

  datatype Option<+T> = None | Some(value: T)
}
