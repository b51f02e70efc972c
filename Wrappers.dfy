/** Option and Result values shared by every module of the model.
    `Err` stands for a raised exception or a returned validation error. */
module Wrappers {
  datatype Option<T> = None | Some(value: T)

  datatype Result<T, E> = Ok(value: T) | Err(error: E)

  /** Python truthiness of an optional integer: None and 0 are both false. */
  predicate Truthy(x: Option<int>) {
    x.Some? && x.value != 0
  }

  /** Python truthiness of an optional real amount (Decimal). */
  predicate TruthyReal(x: Option<real>) {
    x.Some? && x.value != 0.0
  }

  function Max(a: int, b: int): int { if a >= b then a else b }

  function Min(a: int, b: int): int { if a <= b then a else b }

  function MaxR(a: real, b: real): real { if a >= b then a else b }

  function MinR(a: real, b: real): real { if a <= b then a else b }
}
