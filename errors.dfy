/** Go errors as far as process.go uses them: opaque errors produced by
    collaborators, and errors wrapped with a context message by
    `fmt.Errorf("<context>: %w", cause)`. */
module Errors {
  import opened Wrappers

  datatype Error =
    | Failure(text: string)                   // an error produced by code outside this model
    | Wrapped(context: string, cause: Error)  // fmt.Errorf("<context>: %w", cause)

  /** The text that `err.Error()` returns. */
  function Message(e: Error): string
  {
    match e
    case Failure(text) => text
    case Wrapped(context, cause) => context + ": " + Message(cause)
  }

  /** `errors.Unwrap`: the cause a `%w` wrapper keeps, None for a plain error. */
  function Unwrap(e: Error): Option<Error>
  {
    match e
    case Failure(_) => None
    case Wrapped(_, cause) => Some(cause)
  }

  /** Wrapping with `fmt.Errorf("<context>: %w", cause)`: the cause stays
      reachable through Unwrap and its text ends the new message. */
  function Wrap(context: string, cause: Error): (e: Error)
    ensures Unwrap(e) == Some(cause)
    ensures Message(e) == context + ": " + Message(cause)
    ensures Wraps(e, cause) && e != cause
  {
    Wrapped(context, cause)
  }

  /** `errors.Is` on this error type: `target` is on the Unwrap chain of `e`. */
  predicate Wraps(e: Error, target: Error)
  {
    e == target || (e.Wrapped? && Wraps(e.cause, target))
  }

  predicate IsSuffix(s: string, t: string)
  {
    |s| <= |t| && t[|t| - |s|..] == s
  }

  /** However deep the wrapping, the message of a wrapped error ends with
      the message of every error on its chain. */
  lemma {:induction false} WrapsMessageSuffix(e: Error, target: Error)
    requires Wraps(e, target)
    ensures IsSuffix(Message(target), Message(e))
  {
    if e != target {
      WrapsMessageSuffix(e.cause, target);
      var inner := Message(e.cause);
      var prefix := e.context + ": ";
      assert Message(e) == prefix + inner;
      assert (prefix + inner)[|prefix + inner| - |inner|..] == inner;
      var m := Message(target);
      assert inner[|inner| - |m|..] == m;
      assert (prefix + inner)[|prefix + inner| - |m|..] == inner[|inner| - |m|..];
    }
  }
}
