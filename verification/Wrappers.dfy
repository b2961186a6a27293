/** Failure-compatible wrappers shared by every module of the model. */
module Wrappers {

  datatype Option<+T> = None | Some(value: T)

  datatype Result<+T, +E> = Ok(value: T) | Err(error: E)
}

/**
 * The JavaScript notions the model needs at its boundaries: the exceptions the
 * library raises, and what a call into host code (a provider method, an
 * attribute handler) can come back with.
 */
module Js {

  /** An exception raised by the library, or by a collaborator it called. */
  datatype Error =
    | TypeError(message: string)
      /** A read of an identifier that is not in scope (strict mode). */
    | ReferenceError(identifier: string)
      /** An object or a falsy value that a host collaborator threw or rejected with. */
    | Thrown
      /** A truthy primitive (a non-empty string, a non-zero number, `true`) a collaborator threw. */
    | ThrownPrimitive

  /**
   * The outcome of a call into host code, once its promise (if any) settled:
   * a value, or a throw or rejection with an object or falsy value, or with a
   * truthy primitive. The difference matters to a catch that sets a property
   * on what was thrown: in strict mode that fails on a primitive.
   */
  datatype Outcome<+T> = Returned(value: T) | Threw | ThrewPrimitive

  /** The exception a failed call passes on unchanged. */
  function Rethrown<T>(o: Outcome<T>): Error
    requires !o.Returned?
  {
    if o.Threw? then Thrown else ThrownPrimitive
  }

  /** A list of names as a provider returns it: an array, a falsy value, or any other truthy value. */
  datatype NameList = Array(names: seq<string>) | Falsy | NotAnArray
}
