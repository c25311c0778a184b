/** Failure-compatible wrappers shared by every module of the model. */
module Wrappers {

  datatype Option<+T> = None | Some(value: T)

  datatype Result<+T, +E> = Success(value: T) | Failure(error: E)

  /** The outcome of a Ruby call whose return value does not matter: it either
      returns normally or raises `error`. */
  datatype Outcome<+E> = Pass | Fail(error: E)
}

/** The exceptions the engine raises (lib/rake_factory/exceptions.rb and the
    NoMethodError/ArgumentError that Ruby itself raises on its behalf). */
module Exceptions {

  datatype Error =
    | RequiredParameterUnset(message: string)
    | NoMethodError(selector: string)
    | ArgumentError(message: string)
}
