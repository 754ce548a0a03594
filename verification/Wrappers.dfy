// Option, shared by every module of the model.
module Wrappers {
  datatype Option<+T> = None | Some(value: T)

  // The values an option holds: none or one.
  function Elements<T(==)>(o: Option<T>): set<T> {
    if o.Some? then {o.value} else {}
  }
}
