/** The value types the crate's macros and signatures rely on: Rust's `Option` and `Result`, and the
    outcome of an operation that may stop the program (`panic!`, `unreachable!`), together with the
    two partial unwraps `expect!` and `expect_opt!` of src/macros.rs. */
module Macros {

  datatype Option<+T> = None | Some(value: T)

  datatype Result<+T, +E> = Ok(value: T) | Err(error: E)

  /** What a call that may panic yields: its value, or a panic carrying the context words the call
      site wrote (the formatted message around them is not modelled). */
  datatype Outcome<+T> = Returned(value: T) | Panicked(context: string)

  /** `expect!(inner, context)`: the `Ok` payload unchanged, or a panic naming the context. */
  function Expect<T, E>(inner: Result<T, E>, context: string): (r: Outcome<T>)
    ensures r.Returned? <==> inner.Ok?
    ensures inner.Ok? ==> r.value == inner.value
    ensures inner.Err? ==> r.context == context
  {
    match inner
    case Ok(v) => Returned(v)
    case Err(_) => Panicked(context)
  }

  /** `expect_opt!(inner, context)`: the `Some` payload unchanged, or a panic naming the context. */
  function ExpectOpt<T>(inner: Option<T>, context: string): (r: Outcome<T>)
    ensures r.Returned? <==> inner.Some?
    ensures inner.Some? ==> r.value == inner.value
    ensures inner.None? ==> r.context == context
  {
    match inner
    case Some(v) => Returned(v)
    case None => Panicked(context)
  }
}
