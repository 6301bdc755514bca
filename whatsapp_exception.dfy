/**
 * WhatsAppException, the package's base exception: a message, a code and an
 * error-response array that defaults to {status: 'error', message, code}.
 * Its two subclasses share this record and differ only in their class tag.
 */
module WhatsAppErrors {
  import opened Php

  /** Which exception class an instance belongs to. */
  datatype ExceptionClass = WhatsAppClass | ValidationClass | ConnectionClass

  datatype WhatsAppException = WhatsAppException(
    cls: ExceptionClass,
    message: string,
    code: int,
    errorResponse: map<string, Value>)
  {
    /** getErrorResponse(). */
    function GetErrorResponse(): map<string, Value> { errorResponse }
  }

  /** The error response built when none is given. */
  function DefaultErrorResponse(message: string, code: int): map<string, Value>
  {
    map["status" := Str("error"), "message" := Str(message), "code" := Int(code)]
  }

  /** The instance carries the default error response built from its own message and code. */
  predicate HasDefaultResponse(e: WhatsAppException)
  {
    e.errorResponse == DefaultErrorResponse(e.message, e.code)
  }

  /**
   * The constructor `new C($message, $code, null, $errorResponse)` for class C:
   * an empty error response (PHP's falsy []) is replaced by the default one.
   */
  function NewException(
    cls: ExceptionClass,
    message: string := "",
    code: int := 0,
    errorResponse: map<string, Value> := map[]): (e: WhatsAppException)
    ensures e.cls == cls && e.message == message && e.code == code
    ensures errorResponse == map[] ==> HasDefaultResponse(e)
    ensures errorResponse != map[] ==> e.GetErrorResponse() == errorResponse
  {
    WhatsAppException(cls, message, code,
      if errorResponse == map[] then DefaultErrorResponse(message, code) else errorResponse)
  }

  /** `new C()`: the message defaults to "" and the code to 0. */
  lemma NewExceptionDefaults(cls: ExceptionClass)
    ensures NewException(cls).message == "" && NewException(cls).code == 0
    ensures NewException(cls).GetErrorResponse() == map["status" := Str("error"), "message" := Str(""), "code" := Int(0)]
  {
  }

  /** The default response reports status 'error' and repeats the message and the code. */
  lemma DefaultResponseFields(message: string, code: int)
    ensures var e := NewException(WhatsAppClass, message, code);
      && e.GetErrorResponse()["status"] == Str("error")
      && e.GetErrorResponse()["message"] == Str(message)
      && e.GetErrorResponse()["code"] == Int(code)
      && e.GetErrorResponse().Keys == {"status", "message", "code"}
  {
  }

  /** A non-empty error response given to the constructor is returned unchanged. */
  lemma GivenResponseKept(message: string, code: int, errorResponse: map<string, Value>)
    requires errorResponse != map[]
    ensures NewException(WhatsAppClass, message, code, errorResponse).GetErrorResponse() == errorResponse
  {
  }

  /** Shorthand for `new WhatsAppException($message, $code)`. */
  function Raise(message: string, code: int): (e: WhatsAppException)
    ensures e.cls == WhatsAppClass && e.message == message && e.code == code
    ensures HasDefaultResponse(e)
  {
    NewException(WhatsAppClass, message, code)
  }

  function MissingMessage(): (e: WhatsAppException)
    ensures e.code == 400 && e.message == "Message content is required"
    ensures e.cls == WhatsAppClass && HasDefaultResponse(e)
  {
    Raise("Message content is required", 400)
  }

  function EmptyMessage(): (e: WhatsAppException)
    ensures e.code == 400 && e.message == "Message content cannot be empty"
    ensures e.cls == WhatsAppClass && HasDefaultResponse(e)
  {
    Raise("Message content cannot be empty", 400)
  }

  function MissingConfigField(field: string): (e: WhatsAppException)
    ensures e.code == 400 && e.message == "Missing required configuration: " + field
    ensures e.cls == WhatsAppClass && HasDefaultResponse(e)
  {
    Raise("Missing required configuration: " + field, 400)
  }

  function EmptyConfigField(field: string): (e: WhatsAppException)
    ensures e.code == 400 && e.message == "Configuration field '" + field + "' cannot be empty"
    ensures e.cls == WhatsAppClass && HasDefaultResponse(e)
  {
    Raise("Configuration field '" + field + "' cannot be empty", 400)
  }

  function InvalidPhoneNumber(message: string): (e: WhatsAppException)
    ensures e.code == 400 && e.message == message
    ensures e.cls == WhatsAppClass && HasDefaultResponse(e)
  {
    Raise(message, 400)
  }

  function AuthenticationFailed(): (e: WhatsAppException)
    ensures e.code == 401 && e.message == "Authentication failed. Please check your credentials."
    ensures e.cls == WhatsAppClass && HasDefaultResponse(e)
  {
    Raise("Authentication failed. Please check your credentials.", 401)
  }

  function RateLimitExceeded(): (e: WhatsAppException)
    ensures e.code == 429 && e.message == "Rate limit exceeded. Please wait before sending more messages."
    ensures e.cls == WhatsAppClass && HasDefaultResponse(e)
  {
    Raise("Rate limit exceeded. Please wait before sending more messages.", 429)
  }
}
