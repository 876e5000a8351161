/** PHP's nullable values (`?string`, `?int`) as an Option. */
module Wrappers {

  datatype Option<+T> = None | Some(value: T)
}
