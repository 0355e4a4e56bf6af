/** The application's exception hierarchy: `CustomException` carries a message
    and an HTTP status code; `ClientError`, `NotFoundError` and `ServerError`
    derive from it and differ only in the status code they supply. */
module Errors {
  import opened Wrappers

  const HTTP_400_BAD_REQUEST: int := 400
  const HTTP_404_NOT_FOUND: int := 404
  const HTTP_500_INTERNAL_SERVER_ERROR: int := 500

  datatype ExceptionClass =
    | CustomExceptionClass
    | ClientErrorClass
    | NotFoundErrorClass
    | ServerErrorClass

  /** The class each one directly derives from; CustomException's own base is
      Python's Exception, outside this hierarchy. */
  function BaseClass(c: ExceptionClass): Option<ExceptionClass> {
    match c
    case CustomExceptionClass => None
    case ClientErrorClass => Some(CustomExceptionClass)
    case NotFoundErrorClass => Some(ClientErrorClass)
    case ServerErrorClass => Some(CustomExceptionClass)
  }

  function Depth(c: ExceptionClass): nat {
    match BaseClass(c)
    case None => 0
    case Some(b) => if b == CustomExceptionClass then 1 else 2
  }

  /** `issubclass(c, ancestor)` within the hierarchy. */
  predicate IsSubclass(c: ExceptionClass, ancestor: ExceptionClass)
    decreases Depth(c)
  {
    c == ancestor || (BaseClass(c).Some? && IsSubclass(BaseClass(c).value, ancestor))
  }

  /** An instance: every class in the hierarchy has exactly these two fields;
      `str(e)` is its message, since the message is what goes to Exception. */
  datatype CustomException = CustomException(cls: ExceptionClass, message: string, statusCode: int)

  /** `CustomException(message, status_code=500)`; `None` stands for an omitted argument. */
  function NewCustomException(message: string, statusCode: Option<int>): (e: CustomException)
    ensures e.cls == CustomExceptionClass
    ensures e.message == message
    ensures statusCode.None? ==> e.statusCode == HTTP_500_INTERNAL_SERVER_ERROR
    ensures statusCode.Some? ==> e.statusCode == statusCode.value
  {
    CustomException(CustomExceptionClass, message, statusCode.GetOr(HTTP_500_INTERNAL_SERVER_ERROR))
  }

  /** `ClientError(message, status_code=400)`, built through CustomException's constructor. */
  function NewClientError(message: string, statusCode: Option<int>): (e: CustomException)
    ensures e.cls == ClientErrorClass
    ensures IsSubclass(e.cls, ClientErrorClass) && IsSubclass(e.cls, CustomExceptionClass)
    ensures e.message == message
    ensures statusCode.None? ==> e.statusCode == HTTP_400_BAD_REQUEST
    ensures statusCode.Some? ==> e.statusCode == statusCode.value
  {
    NewCustomException(message, Some(statusCode.GetOr(HTTP_400_BAD_REQUEST))).(cls := ClientErrorClass)
  }

  /** `NotFoundError(message)`: no status argument, so the status is always 404. */
  function NewNotFoundError(message: string): (e: CustomException)
    ensures e.cls == NotFoundErrorClass
    ensures IsSubclass(e.cls, ClientErrorClass) && IsSubclass(e.cls, CustomExceptionClass)
    ensures e.message == message
    ensures e.statusCode == HTTP_404_NOT_FOUND
  {
    NewClientError(message, Some(HTTP_404_NOT_FOUND)).(cls := NotFoundErrorClass)
  }

  /** `ServerError(message, status_code=500)`. */
  function NewServerError(message: string, statusCode: Option<int>): (e: CustomException)
    ensures e.cls == ServerErrorClass && IsSubclass(e.cls, CustomExceptionClass)
    ensures e.message == message
    ensures statusCode.None? ==> e.statusCode == HTTP_500_INTERNAL_SERVER_ERROR
    ensures statusCode.Some? ==> e.statusCode == statusCode.value
  {
    NewCustomException(message, Some(statusCode.GetOr(HTTP_500_INTERNAL_SERVER_ERROR))).(cls := ServerErrorClass)
  }

  /** Every class of the hierarchy is a CustomException, and the only subclass
      relations besides identity are the declared ones. */
  lemma HierarchyShape(c: ExceptionClass, a: ExceptionClass)
    ensures IsSubclass(c, CustomExceptionClass)
    ensures IsSubclass(c, a) <==>
      c == a || a == CustomExceptionClass || (c == NotFoundErrorClass && a == ClientErrorClass)
  {
  }
}
