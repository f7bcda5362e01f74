/** An optional value: stands for a `std::function` slot that may be empty. */
module Optional {

  datatype Option<+T> = None | Some(value: T)
}
