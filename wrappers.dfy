/** The optional result of the pool builder: `None` stands for Python's `None`. */
module Wrappers {

  datatype Option<+T> = None | Some(value: T)
}
