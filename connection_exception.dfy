/** ConnectionException: a WhatsAppException for failures talking to the vendor API. */
module ConnectionErrors {
  import opened WhatsAppErrors

  function AuthenticationFailed(): (e: WhatsAppException)
    ensures e.code == 3001 && e.message == "Failed to authenticate with Twilio API"
    ensures e.cls == ConnectionClass && HasDefaultResponse(e)
  {
    NewException(ConnectionClass, "Failed to authenticate with Twilio API", 3001)
  }

  function ResourceNotFound(message: string): (e: WhatsAppException)
    ensures e.code == 3002 && e.message == "Resource not found: " + message
    ensures e.cls == ConnectionClass && HasDefaultResponse(e)
  {
    NewException(ConnectionClass, "Resource not found: " + message, 3002)
  }

  /** Keeps the caller's code and prefixes the message. */
  function GeneralError(message: string, code: int): (e: WhatsAppException)
    ensures e.code == code && e.message == "Twilio API error: " + message
    ensures e.cls == ConnectionClass && HasDefaultResponse(e)
  {
    NewException(ConnectionClass, "Twilio API error: " + message, code)
  }
}
