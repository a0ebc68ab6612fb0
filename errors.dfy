/** Go's `error` values as the todo stores build them: a cause reported by the
    Redis client, a `fmt.Errorf("...: %w", err)` wrapper around another error,
    or the component store's `*TodoError`. */
module Errors {

  import opened Wrappers

  /** The three kinds of TodoError. */
  datatype TodoErrorType = NotFound | Invalid | Unknown

  /** A store-level error with a message that is safe to show a client and,
      separately, the underlying cause (nil when there is none). */
  datatype TodoError = TodoError(errorType: TodoErrorType, clientMessage: string, err: Option<Error>)
  {
    /** The error's text: the client message when there is no cause, the
        cause's text otherwise. */
    function Error(): (s: string)
      ensures err.None? ==> s == clientMessage
      ensures err.Some? ==> s == err.value.Text()
      decreases this, 1
    {
      match err
      case None => clientMessage
      case Some(cause) => cause.Text()
    }
  }

  /** A Go error. */
  datatype Error =
    | Cause(text: string)
    | Wrapped(context: string, inner: Error)
    | TodoErr(todoError: TodoError)
  {
    /** `err.Error()`: a wrapper reads "context: " followed by its inner text,
        so the inner text survives whole at the end. */
    function Text(): (text: string)
      ensures Cause? ==> text == this.text
      ensures Wrapped? ==> context + ": " <= text && text[|context| + 2..] == inner.Text()
      ensures TodoErr? ==> text == todoError.Error()
      decreases this, 0
    {
      match this
      case Cause(text) => text
      case Wrapped(context, inner) => context + ": " + inner.Text()
      case TodoErr(todoError) => todoError.Error()
    }
  }

  /** `errors.As(err, &todoError)`: the first TodoError along the chain of
      wrappers, if there is one. A TodoError does not unwrap further. */
  function AsTodoError(e: Error): (r: Option<TodoError>)
    ensures e.TodoErr? ==> r == Some(e.todoError)
    ensures e.Cause? ==> r == None
    ensures e.Wrapped? ==> r == AsTodoError(e.inner)
  {
    match e
    case Cause(_) => None
    case Wrapped(_, inner) => AsTodoError(inner)
    case TodoErr(todoError) => Some(todoError)
  }

  /** The errors along a chain of `%w` wrappers: the error itself, then what
      it wraps, down to the first error that is not a wrapper. */
  function Chain(e: Error): (chain: seq<Error>)
    ensures |chain| >= 1 && chain[0] == e
    ensures forall i :: 0 <= i < |chain| - 1 ==> chain[i].Wrapped? && chain[i + 1] == chain[i].inner
    ensures !chain[|chain| - 1].Wrapped?
  {
    match e
    case Wrapped(_, inner) => [e] + Chain(inner)
    case _ => [e]
  }

  /** errors.As finds `t` exactly when `TodoErr(t)` lies on the chain, and
      finds nothing exactly when no TodoError lies on it: however many
      wrappers surround a TodoError, they neither hide it nor invent one. */
  lemma {:induction false} AsTodoErrorOnChain(e: Error, t: TodoError)
    ensures AsTodoError(e) == Some(t) <==> TodoErr(t) in Chain(e)
    ensures AsTodoError(e).None? <==> forall x :: x in Chain(e) ==> !x.TodoErr?
  {
    match e
    case Cause(_) =>
    case TodoErr(_) =>
    case Wrapped(_, inner) =>
      AsTodoErrorOnChain(inner, t);
      assert Chain(e) == [e] + Chain(inner);
  }
}
