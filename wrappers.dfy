/** A value that may be absent: models an empty `std::function` and a failed
    `unordered_map::find`. */
module Wrappers {

  datatype Option<+T> = None | Some(value: T)

}
