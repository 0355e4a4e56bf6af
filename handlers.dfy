/** The three exception handlers the application installs: each turns a raised
    exception into a JSON response with a status code and a single `detail` key. */
module Handlers {
  import opened Errors

  /** A raised exception, by the handler it is dispatched to: a database
      (SQLAlchemy) error, an exception of the CustomException hierarchy, or any
      other exception. The text is what `str(exc)` would show. */
  datatype Raised =
    | DatabaseError(text: string)
    | Custom(exc: CustomException)
    | OtherError(text: string)

  datatype JsonResponse = JsonResponse(statusCode: int, content: map<string, string>)

  const DatabaseDetail: string := "Internal Database Error"
  const GenericDetail: string := "An unexpected error occurred."

  /** A database error: 500, and the error's own text is not shown. */
  function DatabaseExceptionHandler(text: string): (r: JsonResponse)
    ensures r.statusCode == HTTP_500_INTERNAL_SERVER_ERROR
    ensures r.content.Keys == {"detail"} && r.content["detail"] == DatabaseDetail
  {
    JsonResponse(HTTP_500_INTERNAL_SERVER_ERROR, map["detail" := DatabaseDetail])
  }

  /** A CustomException: its own status code, its own message as the detail. */
  function CustomExceptionHandler(exc: CustomException): (r: JsonResponse)
    ensures r.statusCode == exc.statusCode
    ensures r.content.Keys == {"detail"} && r.content["detail"] == exc.message
  {
    JsonResponse(exc.statusCode, map["detail" := exc.message])
  }

  /** Any other exception: 500, and the exception's own text is not shown. */
  function GenericExceptionHandler(text: string): (r: JsonResponse)
    ensures r.statusCode == HTTP_500_INTERNAL_SERVER_ERROR
    ensures r.content.Keys == {"detail"} && r.content["detail"] == GenericDetail
  {
    JsonResponse(HTTP_500_INTERNAL_SERVER_ERROR, map["detail" := GenericDetail])
  }

  /** The response for a raised exception. The body always has the one key
      `detail`; only a CustomException can choose a status other than 500, and
      only a CustomException's own text can reach the body. */
  function Handle(e: Raised): (r: JsonResponse)
    ensures r.content.Keys == {"detail"}
    ensures !e.Custom? ==> r.statusCode == HTTP_500_INTERNAL_SERVER_ERROR
    ensures e.Custom? ==> r.statusCode == e.exc.statusCode && r.content["detail"] == e.exc.message
    ensures !e.Custom? ==> r.content["detail"] in {DatabaseDetail, GenericDetail}
  {
    match e
    case DatabaseError(text) => DatabaseExceptionHandler(text)
    case Custom(exc) => CustomExceptionHandler(exc)
    case OtherError(text) => GenericExceptionHandler(text)
  }

  /** A database error gives 500 "Internal Database Error", whatever its text. */
  lemma DatabaseErrorHidden(t1: string, t2: string)
    ensures Handle(DatabaseError(t1)) == Handle(DatabaseError(t2))
    ensures Handle(DatabaseError(t1)) == JsonResponse(500, map["detail" := "Internal Database Error"])
  {
  }

  /** Any other exception gives 500 "An unexpected error occurred.", whatever its text. */
  lemma OtherErrorHidden(t1: string, t2: string)
    ensures Handle(OtherError(t1)) == Handle(OtherError(t2))
    ensures Handle(OtherError(t1)) == JsonResponse(500, map["detail" := "An unexpected error occurred."])
  {
  }

  /** A NotFoundError becomes 404 with its message as the detail. */
  lemma NotFoundResponse(message: string)
    ensures Handle(Custom(NewNotFoundError(message))) == JsonResponse(404, map["detail" := message])
  {
  }
}
