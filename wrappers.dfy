/** Small helpers shared by every module of the model. */
module Wrappers {

  /** An optional value: `None` stands for Python's raised exception or JavaScript's `undefined`,
      depending on the module that uses it. */
  datatype Option<+T> = None | Some(value: T)

  function Min(a: int, b: int): int
  {
    if a <= b then a else b
  }
}
