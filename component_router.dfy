/** How the component's HTTP handlers turn an error into a response
    (handleError in pkg/components/todos/router.go). */
module ComponentRouter {

  import opened Wrappers
  import opened Errors
  import ComponentStore

  /** An HTTP error response: status code and message. */
  datatype HttpError = HttpError(code: int, message: string)

  const StatusBadRequest: int := 400
  const StatusNotFound: int := 404
  const StatusInternalServerError: int := 500

  /** echo.ErrInternalServerError: 500 with the standard status text. */
  const GenericServerError: HttpError := HttpError(StatusInternalServerError, "Internal Server Error")

  /** The status code a kind of TodoError maps to. */
  function CodeOf(kind: TodoErrorType): (code: int)
  {
    match kind
    case Unknown => StatusInternalServerError
    case NotFound => StatusNotFound
    case Invalid => StatusBadRequest
  }

  /** handleError: a TodoError found along the error chain gives 500, 404 or
      400 for Unknown, NotFound or Invalid, always with its client message;
      any other error, a request-binding failure among them, gives the generic
      500. */
  function HandleError(err: Error): (r: HttpError)
    ensures AsTodoError(err).None? ==> r == GenericServerError
    ensures AsTodoError(err).Some? ==> r.message == AsTodoError(err).value.clientMessage
    ensures AsTodoError(err).Some? && AsTodoError(err).value.errorType == Unknown ==> r.code == 500
    ensures AsTodoError(err).Some? && AsTodoError(err).value.errorType == NotFound ==> r.code == 404
    ensures AsTodoError(err).Some? && AsTodoError(err).value.errorType == Invalid ==> r.code == 400
  {
    match AsTodoError(err)
    case Some(todoError) =>
      if todoError.errorType == Unknown then HttpError(StatusInternalServerError, todoError.clientMessage)
      else if todoError.errorType == NotFound then HttpError(StatusNotFound, todoError.clientMessage)
      else HttpError(StatusBadRequest, todoError.clientMessage)
    case None => GenericServerError
  }

  /** The response never depends on the wrapped cause: two TodoErrors that
      differ only in their cause give the same response, and that response is
      CodeOf the kind with the client message. */
  lemma HandleErrorHidesCause(kind: TodoErrorType, message: string, cause1: Option<Error>, cause2: Option<Error>)
    ensures HandleError(TodoErr(TodoError(kind, message, cause1)))
         == HandleError(TodoErr(TodoError(kind, message, cause2)))
         == HttpError(CodeOf(kind), message)
  {
  }

  /** An Update whose read failed for a reason other than a missing todo still
      answers 404: the outer NotFound TodoError is the one errors.As finds. */
  lemma UpdateReadFailureAnswersNotFound(cause: string)
    ensures HandleError(TodoErr(TodoError(NotFound, "todo not found", Some(TodoErr(
              ComponentStore.UnknownError("failed to get todo", "failed to get todo", Cause(cause)))))))
         == HttpError(404, "todo not found")
  {
  }
}
