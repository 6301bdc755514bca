/**
 * The vendor SDK's RestException: the record an HTTP failure of the REST API
 * arrives as. It is the input of the package's error mapping.
 */
module TwilioRest {
  import opened Php

  /** message, code and the HTTP status, with the optional more-info link and details. */
  datatype RestException = RestException(
    message: string,
    code: int,
    statusCode: int,
    moreInfo: string,
    details: map<string, Value>)
  {
    /** getCode(): the code forwarded to the base exception. */
    function GetCode(): int { code }

    /** getMessage(): the message forwarded to the base exception. */
    function GetMessage(): string { message }

    /** getStatusCode(). */
    function GetStatusCode(): int { statusCode }

    /** getMoreInfo(). */
    function GetMoreInfo(): string { moreInfo }

    /** getDetails(). */
    function GetDetails(): map<string, Value> { details }
  }

  /** The constructor: statusCode defaults to 500, moreInfo to '' and details to []. */
  function NewRestException(
    message: string,
    code: int,
    statusCode: int := 500,
    moreInfo: string := "",
    details: map<string, Value> := map[]): (e: RestException)
    ensures e.GetMessage() == message && e.GetCode() == code
    ensures e.GetStatusCode() == statusCode
    ensures e.GetMoreInfo() == moreInfo && e.GetDetails() == details
  {
    RestException(message, code, statusCode, moreInfo, details)
  }

  /** Built with only a message and a code, the exception reports HTTP status 500, no more-info link and no details. */
  lemma RestExceptionDefaults(message: string, code: int)
    ensures NewRestException(message, code).GetStatusCode() == 500
    ensures NewRestException(message, code).GetMoreInfo() == ""
    ensures NewRestException(message, code).GetDetails() == map[]
    ensures NewRestException(message, code).GetCode() == code
  {
  }
}
