/**
 * The WhatsApp facade: configuration validation at construction, message
 * validation and request shaping for sendMessage, the mapping of vendor
 * REST errors to package exceptions, and webhook normalisation.
 */
module Facade {
  import opened Wrappers
  import opened Php
  import opened WhatsAppErrors
  import opened PhoneNumbers
  import opened TwilioRest

  /** MAX_MESSAGE_LENGTH. */
  const MaxMessageLength: nat := 1600

  /** RATE_LIMIT_ERROR_CODE. */
  const RateLimitErrorCode: int := 429

  /** AUTH_ERROR_CODES. */
  const AuthErrorCodes: seq<int> := [401, 403]

  /** The configuration keys the constructor insists on, in the order it checks them. */
  const Required: seq<string> := ["account_sid", "auth_token", "from_number"]

  /** The default for the `timeout` property. */
  const DefaultTimeout: int := 30

  // ---------------------------------------------------------------------------
  // Configuration

  /** `array_diff($required, array_keys($config))`: the required keys absent from the config, in order. */
  function MissingKeys(config: map<string, Value>): (missing: seq<string>)
    ensures forall f :: f in missing <==> f in Required && f !in config
    ensures |missing| <= |Required|
    ensures forall i, j :: 0 <= i < j < |missing| ==>
      exists a, b :: 0 <= a < b < |Required| && missing[i] == Required[a] && missing[j] == Required[b]
  {
    var fields := Required;
    (if fields[0] in config then [] else [fields[0]])
      + (if fields[1] in config then [] else [fields[1]])
      + (if fields[2] in config then [] else [fields[2]])
  }

  /** `empty(trim($config[$field]))`. */
  predicate IsBlank(v: Value)
  {
    IsEmpty(Trim(ToStr(v)))
  }

  /** The index of the first required field, from i on, whose value is blank; |Required| if none is. */
  function FirstBlankFrom(config: map<string, Value>, i: nat): (j: nat)
    requires i <= |Required|
    requires forall f :: f in Required ==> f in config
    ensures i <= j <= |Required|
    ensures j < |Required| ==> IsBlank(config[Required[j]])
    ensures forall k :: i <= k < j ==> !IsBlank(config[Required[k]])
    decreases |Required| - i
  {
    if i == |Required| then i
    else if IsBlank(config[Required[i]]) then i
    else FirstBlankFrom(config, i + 1)
  }

  /** The invalid-from_number message. */
  const InvalidFromNumberMessage: string :=
    "Invalid 'from_number' format in configuration. Must be E.164 format (e.g., +1234567890)"

  /**
   * What validateConfig throws, in its order: the missing keys all at once,
   * then the first blank required field, then a malformed from_number.
   */
  function ConfigError(config: map<string, Value>): (err: Option<WhatsAppException>)
    ensures err.Some? ==> err.value.code == 400 && err.value.cls == WhatsAppClass
  {
    var missing := MissingKeys(config);
    if missing != [] then Some(MissingConfigField(Join(missing, ", ")))
    else
      var j := FirstBlankFrom(config, 0);
      if j < |Required| then Some(EmptyConfigField(Required[j]))
      else if !IsValidPhoneNumber(config["from_number"]) then Some(Raise(InvalidFromNumberMessage, 400))
      else None
  }

  /** validateConfig(): the key check, then a loop over the required fields, then the phone check. */
  method ValidateConfig(config: map<string, Value>) returns (err: Option<WhatsAppException>)
    ensures err == ConfigError(config)
  {
    var missing := MissingKeys(config);
    if missing != [] {
      return Some(MissingConfigField(Join(missing, ", ")));
    }
    var i := 0;
    while i < |Required|
      invariant 0 <= i <= |Required|
      invariant FirstBlankFrom(config, 0) == FirstBlankFrom(config, i)
    {
      var field := Required[i];
      if IsBlank(config[field]) {
        return Some(EmptyConfigField(field));
      }
      i := i + 1;
    }
    if !IsValidPhoneNumber(config["from_number"]) {
      return Some(Raise(InvalidFromNumberMessage, 400));
    }
    return None;
  }

  /** A configuration is accepted exactly when every required key is present, none is blank and from_number is well formed. */
  lemma ConfigAcceptedIff(config: map<string, Value>)
    ensures ConfigError(config).None? <==>
      && (forall f :: f in Required ==> f in config && !IsBlank(config[f]))
      && IsValidPhoneNumber(config["from_number"])
  {
    if forall f :: f in Required ==> f in config {
      assert MissingKeys(config) == [];
      var j := FirstBlankFrom(config, 0);
      if j < |Required| {
        assert Required[j] in Required;
      } else {
        forall f | f in Required ensures !IsBlank(config[f]) {
          var k :| 0 <= k < |Required| && Required[k] == f;
        }
      }
    } else {
      var f :| f in Required && f !in config;
      assert f in MissingKeys(config);
    }
  }

  /** Every configuration error has code 400; a missing-key error names every missing key and only those, in the checked order. */
  lemma ConfigErrorShape(config: map<string, Value>)
    requires ConfigError(config).Some?
    ensures ConfigError(config).value.code == 400
    ensures MissingKeys(config) != [] ==>
      ConfigError(config).value.message == "Missing required configuration: " + Join(MissingKeys(config), ", ")
    ensures MissingKeys(config) == [] && FirstBlankFrom(config, 0) < |Required| ==>
      ConfigError(config).value.message
        == "Configuration field '" + Required[FirstBlankFrom(config, 0)] + "' cannot be empty"
  {
  }

  /** "0", blanks and null all count as empty for a required field. */
  lemma BlankExamples()
    ensures IsBlank(Str("0")) && IsBlank(Str(" 0\n")) && IsBlank(Str("  ")) && IsBlank(Null) && IsBlank(Int(0))
    ensures !IsBlank(Str("00")) && !IsBlank(Str("AC123"))
  {
    assert Trim(" 0\n") == "0" by {
      assert TrimLeft(" 0\n") == "0\n";
      assert "0\n"[..1] == "0";
    }
    assert Trim("  ") == "" by {
      assert "  "[1..] == " ";
    }
  }

  /** A client handle: the vendor client is built from the account SID and auth token alone. */
  datatype ClientHandle = ClientHandle(accountSid: Value, authToken: Value)

  /** The facade object: its fields are assigned once, by the constructor. */
  class WhatsApp {
    const client: ClientHandle
    const fromNumber: string
    const timeout: Value

    /** The invariant the constructor establishes: the sender number is well formed. */
    predicate Valid()
    {
      MatchesPhonePattern(fromNumber)
    }

    /** Field assignment once the configuration has passed validation. */
    constructor Init(client: ClientHandle, fromNumber: string, timeout: Value)
      requires MatchesPhonePattern(fromNumber)
      ensures this.client == client && this.fromNumber == fromNumber && this.timeout == timeout
      ensures Valid()
    {
      this.client := client;
      this.fromNumber := fromNumber;
      this.timeout := timeout;
    }

    /**
     * `new WhatsApp($config)`: a null config, then validateConfig's errors,
     * are thrown; otherwise the fields are set, timeout falling back to 30.
     */
    static method Create(config: Option<map<string, Value>>) returns (r: Result<WhatsApp, WhatsAppException>)
      ensures config.None? ==> r == Failure(Raise("WhatsApp configuration is required", 400))
      ensures config.Some? && ConfigError(config.value).Some? ==> r == Failure(ConfigError(config.value).value)
      ensures config.Some? && ConfigError(config.value).None? ==>
        && r.Success? && fresh(r.value) && r.value.Valid()
        && Str(r.value.fromNumber) == config.value["from_number"]
        && r.value.timeout == Coalesce(config.value, "timeout", Int(DefaultTimeout))
        && r.value.client == ClientHandle(config.value["account_sid"], config.value["auth_token"])
    {
      if config.None? {
        return Failure(Raise("WhatsApp configuration is required", 400));
      }
      var cfg := config.value;
      var err := ValidateConfig(cfg);
      if err.Some? {
        return Failure(err.value);
      }
      ConfigAcceptedIff(cfg);
      var from := cfg["from_number"];
      assert from.Str? by {
        if from.Int? { IntegerIsNeverValid(from.i); }
      }
      var w := new WhatsApp.Init(
        ClientHandle(cfg["account_sid"], cfg["auth_token"]), from.s, Coalesce(cfg, "timeout", Int(DefaultTimeout)));
      return Success(w);
    }

    // -------------------------------------------------------------------------
    // Sending

    /** The request sendMessage would hand to the client, or the validation error that stops it. */
    function PrepareRequest(to: Value, message: Value, checkEncoding: string -> bool): (r: Result<Request, WhatsAppException>)
      ensures r.Failure? ==> r.error.code == 400 && r.error.cls == WhatsAppClass
      ensures r.Success? ==> && to != Null && IsValidPhoneNumber(to)
                             && ValidateMessage(message, checkEncoding).None?
                             && r.value.from == "whatsapp:" + fromNumber && r.value.body == message
    {
      if to == Null then Failure(Raise("Recipient phone number is required", 400))
      else if message == Null then Failure(MissingMessage())
      else if !IsValidPhoneNumber(to) then Failure(Raise(InvalidRecipientMessage, 400))
      else match ValidateMessage(message, checkEncoding)
        case Some(e) => Failure(e)
        case None =>
          Success(Request("whatsapp:" + FormatPhoneNumber(ToStr(to)), "whatsapp:" + fromNumber, message))
    }

    /**
     * What the constructor's invariant buys: every request is sent from
     * "whatsapp:" followed by a number of the accepted shape.
     */
    lemma RequestSenderAccepted(to: Value, message: Value, checkEncoding: string -> bool)
      requires Valid()
      ensures PrepareRequest(to, message, checkEncoding).Success? ==>
        var from := PrepareRequest(to, message, checkEncoding).value.from;
        |from| > 9 && from[..9] == "whatsapp:" && AcceptedPhoneText(from[9..])
    {
      MatchImpliesAccepted(fromNumber);
      var from := "whatsapp:" + fromNumber;
      assert from[..9] == "whatsapp:" && from[9..] == fromNumber;
    }

    /**
     * sendMessage(): validation, then one client call whose outcome is the
     * `client` argument's answer for the request; vendor failures are mapped.
     */
    function SendMessage(to: Value, message: Value, checkEncoding: string -> bool, client: Request -> ClientOutcome)
      : (r: Result<Receipt, WhatsAppException>)
      ensures PrepareRequest(to, message, checkEncoding).Failure? ==>
        r == Failure(PrepareRequest(to, message, checkEncoding).error)
      ensures PrepareRequest(to, message, checkEncoding).Success? ==>
        r == InterpretOutcome(client(PrepareRequest(to, message, checkEncoding).value))
      ensures r.Success? ==> r.value.status == "success"
    {
      match PrepareRequest(to, message, checkEncoding)
      case Failure(e) => Failure(e)
      case Success(req) => InterpretOutcome(client(req))
    }

    /** sendMessage checks, in order: a null recipient, a null message, the recipient's format, then the body; each with code 400. */
    lemma SendValidationOrder(to: Value, message: Value, checkEncoding: string -> bool)
      ensures var p := PrepareRequest(to, message, checkEncoding);
        && (to == Null ==> p == Failure(Raise("Recipient phone number is required", 400)))
        && (to != Null && message == Null ==> p == Failure(MissingMessage()))
        && (to != Null && message != Null && !IsValidPhoneNumber(to) ==>
              p == Failure(Raise(InvalidRecipientMessage, 400)))
        && (to != Null && message != Null && IsValidPhoneNumber(to) ==>
              (p.Failure? <==> ValidateMessage(message, checkEncoding).Some?))
        && (p.Failure? ==> p.error.code == 400)
    {
      if to != Null && message != Null && IsValidPhoneNumber(to) {
        match ValidateMessage(message, checkEncoding)
        case Some(e) => ValidateMessageCodes(message, checkEncoding);
        case None =>
      }
    }

    /** When validation fails the client is never consulted: any two clients give the same result. */
    lemma NoClientCallOnInvalidInput(
      to: Value, message: Value, checkEncoding: string -> bool, c1: Request -> ClientOutcome, c2: Request -> ClientOutcome)
      requires PrepareRequest(to, message, checkEncoding).Failure?
      ensures SendMessage(to, message, checkEncoding, c1) == SendMessage(to, message, checkEncoding, c2)
      ensures SendMessage(to, message, checkEncoding, c1).error.code == 400
    {
      SendValidationOrder(to, message, checkEncoding);
    }

    /**
     * The request addresses `whatsapp:` and the recipient's digits without
     * the `+`, comes from `whatsapp:` and the configured number unchanged,
     * and carries the message as given.
     */
    lemma RequestShape(to: Value, message: Value, checkEncoding: string -> bool)
      requires PrepareRequest(to, message, checkEncoding).Success?
      ensures var req := PrepareRequest(to, message, checkEncoding).value;
        && |req.to| >= 9 && req.to[..9] == "whatsapp:"
        && var digits := req.to[9..];
           && AllDigits(digits)
           && (to == Str("+" + digits) || to == Str("+" + digits + "\n"))
           && req.from == "whatsapp:" + fromNumber
           && req.body == message
    {
      assert to.Str? by {
        if to.Int? { IntegerIsNeverValid(to.i); }
      }
      var digits := FormatPhoneNumber(to.s);
      FormatAcceptedNumber(to.s);
      var req := PrepareRequest(to, message, checkEncoding).value;
      assert req.to == "whatsapp:" + digits;
      assert req.to[9..] == digits;
    }

    /**
     * A recipient `+` followed by 10 to 15 digits (the first not 0) and a
     * valid body make the request `whatsapp:` + those digits, as in the
     * package's own send test with "+1234567890".
     */
    lemma SendsDigits(d: string, body: Value, checkEncoding: string -> bool)
      requires 10 <= |d| <= 15 && '1' <= d[0] <= '9' && AllDigits(d)
      requires ValidateMessage(body, checkEncoding).None?
      ensures PrepareRequest(Str("+" + d), body, checkEncoding)
        == Success(Request("whatsapp:" + d, "whatsapp:" + fromNumber, body))
    {
      var t := "+" + d;
      assert IsE164Text(t) by {
        assert t[1] == d[0];
        forall k | 0 <= k < |t[2..]| ensures IsDigit(t[2..][k]) {
          assert t[2..][k] == d[k + 1];
        }
      }
      AcceptedImpliesMatch(t);
      FormatSignedDigits(d);
    }
  }

  /** The recipient-format message of sendMessage. */
  const InvalidRecipientMessage: string :=
    "Invalid recipient phone number format. Must be E.164 format (e.g., +1234567890)"

  /** The arguments of `$client->messages->create(to, ['from' => …, 'body' => …])`. */
  datatype Request = Request(to: string, from: string, body: Value)

  /** How the vendor call ended: a message resource, or one of three kinds of exception. */
  datatype ClientOutcome =
    | Created(sid: Value, to: Value, from: Value)
    | RestFailure(e: RestException)
    | TwilioFailure(message: string)
    | OtherFailure(message: string)

  /** The array sendMessage returns: status 'success', the message SID and the echoed addresses. */
  datatype Receipt = Receipt(status: string, message: Value, to: Value, from: Value)

  /** The try/catch around the vendor call. */
  function InterpretOutcome(outcome: ClientOutcome): (r: Result<Receipt, WhatsAppException>)
    ensures r.Success? <==> outcome.Created?
    ensures outcome.Created? ==> r.value == Receipt("success", outcome.sid, outcome.to, outcome.from)
    ensures outcome.RestFailure? ==> r == Failure(MapRestError(outcome.e))
    ensures outcome.TwilioFailure? ==> r.error.code == 401
    ensures outcome.OtherFailure? ==> r.error.code == 500
  {
    match outcome
    case Created(sid, to, from) => Success(Receipt("success", sid, to, from))
    case RestFailure(e) => Failure(MapRestError(e))
    case TwilioFailure(m) => Failure(Raise("Twilio authentication error: " + m, 401))
    case OtherFailure(m) => Failure(Raise("Unexpected error while sending WhatsApp message: " + m, 500))
  }

  // ---------------------------------------------------------------------------
  // Message body

  /**
   * validateMessage(): null or blank, then longer than 1600 characters, then
   * not valid UTF-8 (`checkEncoding` stands for mb_check_encoding).
   */
  function ValidateMessage(message: Value, checkEncoding: string -> bool): (err: Option<WhatsAppException>)
    ensures err.Some? ==> err.value.code == 400 && err.value.cls == WhatsAppClass
    ensures err.None? ==> && message != Null && !IsBlank(message)
                          && |ToStr(message)| <= MaxMessageLength && checkEncoding(ToStr(message))
  {
    if message == Null || IsBlank(message) then Some(EmptyMessage())
    else if |ToStr(message)| > MaxMessageLength then
      Some(Raise("Message exceeds maximum length of 1600 characters", 400))
    else if !checkEncoding(ToStr(message)) then Some(Raise("Message contains invalid characters or encoding", 400))
    else None
  }

  /** A body passes exactly when it is non-blank, at most 1600 characters long and well encoded; every rejection has code 400. */
  lemma ValidateMessageCodes(message: Value, checkEncoding: string -> bool)
    ensures ValidateMessage(message, checkEncoding).None? <==>
      message != Null && !IsBlank(message) && |ToStr(message)| <= 1600 && checkEncoding(ToStr(message))
    ensures ValidateMessage(message, checkEncoding).Some? ==> ValidateMessage(message, checkEncoding).value.code == 400
  {
  }

  /**
   * The blank check comes first (a null or blank body is reported as empty
   * whatever its length or encoding), then length, then encoding.
   */
  lemma ValidateMessageOrder(s: string, checkEncoding: string -> bool)
    ensures ValidateMessage(Null, checkEncoding) == Some(EmptyMessage())
    ensures IsBlank(Str(s)) ==> ValidateMessage(Str(s), checkEncoding) == Some(EmptyMessage())
    ensures ValidateMessage(Str("0"), checkEncoding) == Some(EmptyMessage())
    ensures |s| > 1600 && !IsBlank(Str(s)) ==>
      ValidateMessage(Str(s), checkEncoding).value.message == "Message exceeds maximum length of 1600 characters"
    ensures |s| == 1600 && !IsBlank(Str(s)) && checkEncoding(s) ==> ValidateMessage(Str(s), checkEncoding).None?
  {
  }

  // ---------------------------------------------------------------------------
  // Vendor error mapping

  /** `$e->getCode() ?: $e->getStatusCode()`. */
  function EffectiveCode(e: RestException): int
  {
    if e.GetCode() != 0 then e.GetCode() else e.GetStatusCode()
  }

  /**
   * `case in_array($code, AUTH_ERROR_CODES):` under the switch's loose `==`:
   * the case value is a boolean, and `$code == true` holds for any non-zero
   * code while `$code == false` holds for 0, so the case is taken for 401,
   * 403 and also for 0.
   */
  predicate AuthCaseMatches(code: int)
  {
    var inArray := code in AuthErrorCodes;
    if inArray then code != 0 else code == 0
  }

  /**
   * The switch of handleTwilioError() for an effective code and the vendor
   * message, as (message, code) of the exception thrown; `authCase` says
   * whether the `case in_array(...)` arm is taken.
   */
  function SwitchCode(code: int, authCase: bool, vendorMessage: string): int
  {
    if code == RateLimitErrorCode then 429
    else if authCase then 401
    else if code == 404 then 404
    else if code == 400 then (if Contains(vendorMessage, "unverified") then 403 else 400)
    else if code != 0 then code
    else 500
  }

  function SwitchMessage(code: int, authCase: bool, vendorMessage: string): string
  {
    if code == RateLimitErrorCode then "Rate limit exceeded. Please wait before sending more messages."
    else if authCase then "Authentication failed. Please check your credentials."
    else if code == 404 then "The recipient number is not registered with WhatsApp or is invalid."
    else if code == 400 then
      if Contains(vendorMessage, "unverified") then "The recipient number is not verified in your Twilio console."
      else "Invalid request: " + vendorMessage
    else "WhatsApp API error: " + vendorMessage
  }

  /** handleTwilioError(): the exception thrown for a vendor RestException. */
  function MapRestError(e: RestException): (r: WhatsAppException)
    ensures r.cls == WhatsAppClass && HasDefaultResponse(r)
  {
    var code := EffectiveCode(e);
    var authCase := AuthCaseMatches(code);
    Raise(SwitchMessage(code, authCase, e.GetMessage()), SwitchCode(code, authCase, e.GetMessage()))
  }

  /** The code each vendor code maps to. */
  lemma MapRestErrorCodes(e: RestException)
    ensures var c := EffectiveCode(e); var r := MapRestError(e);
      && (c == 429 ==> r.code == 429)
      && (c == 401 || c == 403 || c == 0 ==> r.code == 401)
      && (c == 404 ==> r.code == 404)
      && (c == 400 ==> r.code == 403 || r.code == 400)
      && (c != 0 && c != 400 && c != 401 && c != 403 && c != 404 && c != 429 ==> r.code == c)
  {
    var c := EffectiveCode(e);
    if c == 401 || c == 403 || c == 0 {
      assert AuthCaseMatches(c);
    } else {
      assert !AuthCaseMatches(c);
    }
  }

  /** A 400 becomes 403 exactly when the vendor message mentions "unverified". */
  lemma MapRestErrorBadRequest(e: RestException)
    requires EffectiveCode(e) == 400
    ensures MapRestError(e).code == 403 <==> Contains(e.GetMessage(), "unverified")
    ensures MapRestError(e).code == 400 <==> !Contains(e.GetMessage(), "unverified")
  {
    assert !AuthCaseMatches(400);
  }

  /** Codes without an arm of their own keep the vendor message behind "WhatsApp API error: ". */
  lemma MapRestErrorDefaultMessage(e: RestException)
    requires var c := EffectiveCode(e); c != 0 && c != 400 && c != 401 && c != 403 && c != 404 && c != 429
    ensures MapRestError(e).message == "WhatsApp API error: " + e.GetMessage()
  {
  }

  /** The thrown code is never 0: even a code of 0 (with status 0) comes out as 401. */
  lemma MapRestErrorNonZero(e: RestException)
    ensures MapRestError(e).code != 0
  {
  }

  /** A zero code falls back to the HTTP status, which defaults to 500. */
  lemma ZeroCodeUsesStatus(message: string)
    ensures MapRestError(NewRestException(message, 0)).code == 500
    ensures MapRestError(NewRestException(message, 0, 429)).code == 429
    ensures MapRestError(NewRestException(message, 0, 0)).code == 401
  {
  }

  // ---------------------------------------------------------------------------
  // Webhooks

  /** The webhook argument: null, something that is not an array, or a form-field array. */
  datatype Payload = NullPayload | NonArrayPayload | ArrayPayload(fields: map<string, Value>)

  /** One normalised inbound message. */
  datatype InboundMessage = InboundMessage(
    messageId: Value, from: string, to: string, timestamp: int, text: Value, kind: string)

  /** The two shapes of a successful webhook result: {status:'no_messages'} or {status:'success', message:[…]}. */
  datatype WebhookResult = NoMessages | Received(messages: seq<InboundMessage>)

  const InvalidSenderMessage: string :=
    "Invalid sender phone number format in webhook payload. Must be E.164 format (e.g., +1234567890)"

  const InvalidWebhookRecipientMessage: string :=
    "Invalid recipient phone number format in webhook payload. Must be E.164 format (e.g., +1234567890)"

  /** The body of the try block; its exceptions are re-thrown by the catch. */
  function WebhookBody(fields: map<string, Value>, now: int): (r: Result<WebhookResult, WhatsAppException>)
    ensures r == Success(NoMessages) <==> !IsSet(fields, "Body")
    ensures r.Failure? ==> r.error.code == 400
    ensures r.Success? && r.value.Received? ==>
      && |r.value.messages| == 1 && r.value.messages[0].text == fields["Body"]
      && r.value.messages[0].timestamp == now && r.value.messages[0].kind == "text"
  {
    if !IsSet(fields, "Body") then Success(NoMessages)
    else
      var from := Coalesce(fields, "From", Str(""));
      if !IsValidPhoneNumber(from) then Failure(Raise(InvalidSenderMessage, 400))
      else
        var to := Coalesce(fields, "To", Str(""));
        if !IsValidPhoneNumber(to) then Failure(Raise(InvalidWebhookRecipientMessage, 400))
        else Success(Received([InboundMessage(
          Coalesce(fields, "MessageSid", Null),
          ReplaceAll(ToStr(from), "whatsapp:", ""),
          ReplaceAll(ToStr(to), "whatsapp:", ""),
          now,
          fields["Body"],
          "text")]))
  }

  /** `catch (\Exception $e)`: re-thrown with code 500 and the message prefixed. */
  function WrapWebhookError(e: WhatsAppException): WhatsAppException
  {
    Raise("Failed to process webhook: " + e.message, 500)
  }

  /** handleWebhook(); `now` stands for time(). */
  function HandleWebhook(payload: Payload, now: int): (r: Result<WebhookResult, WhatsAppException>)
    ensures payload.NullPayload? ==> r == Failure(Raise("Webhook payload is required", 400))
    ensures payload.NonArrayPayload? ==> r == Failure(Raise("Invalid webhook payload format", 400))
    ensures payload.ArrayPayload? && r.Failure? ==> r.error.code == 500
  {
    match payload
    case NullPayload => Failure(Raise("Webhook payload is required", 400))
    case NonArrayPayload => Failure(Raise("Invalid webhook payload format", 400))
    case ArrayPayload(fields) =>
      match WebhookBody(fields, now)
      case Success(v) => Success(v)
      case Failure(e) => Failure(WrapWebhookError(e))
  }

  /** `str_replace('whatsapp:', '', …)` leaves an accepted number as it is. */
  lemma StripPrefixOfAccepted(s: string)
    requires MatchesPhonePattern(s)
    ensures ReplaceAll(s, "whatsapp:", "") == s
  {
    MatchImpliesAccepted(s);
    var t := if IsE164Text(s) then s else s[..|s| - 1];
    forall i | 0 <= i < |s| ensures s[i] != 'w' {
      if i == 0 {
        assert s[i] == '+';
      } else if i == 1 {
        assert IsDigit(s[i]);
      } else if i < |t| {
        assert s[i] == t[2..][i - 2];
      } else {
        assert s[i] == '\n';
      }
    }
    forall i | 0 <= i <= |s| ensures !OccursAt(s, "whatsapp:", i) {
      if i + 9 <= |s| {
        assert s[i..i + 9][0] == s[i];
      }
    }
    ReplaceAllAbsent(s, "whatsapp:", "");
  }

  /** What a webhook with a Body yields: no messages without a Body, a 500 for a bad From or To, else exactly one text message. */
  lemma WebhookOutcomes(fields: map<string, Value>, now: int)
    ensures var r := HandleWebhook(ArrayPayload(fields), now);
      var from := Coalesce(fields, "From", Str(""));
      var to := Coalesce(fields, "To", Str(""));
      && (!IsSet(fields, "Body") ==> r == Success(NoMessages))
      && (IsSet(fields, "Body") && !IsValidPhoneNumber(from) ==>
            r == Failure(Raise("Failed to process webhook: " + InvalidSenderMessage, 500)))
      && (IsSet(fields, "Body") && IsValidPhoneNumber(from) && !IsValidPhoneNumber(to) ==>
            r == Failure(Raise("Failed to process webhook: " + InvalidWebhookRecipientMessage, 500)))
      && (IsSet(fields, "Body") && IsValidPhoneNumber(from) && IsValidPhoneNumber(to) ==>
            && r.Success? && r.value.Received? && |r.value.messages| == 1
            && r.value.messages[0] == InboundMessage(
                 Coalesce(fields, "MessageSid", Null), ToStr(from), ToStr(to), now, fields["Body"], "text"))
  {
    var from := Coalesce(fields, "From", Str(""));
    var to := Coalesce(fields, "To", Str(""));
    if IsSet(fields, "Body") && IsValidPhoneNumber(from) && IsValidPhoneNumber(to) {
      StripPrefixOfAccepted(ToStr(from));
      StripPrefixOfAccepted(ToStr(to));
    }
  }

  /** The vendor's own sender format, `whatsapp:+…`, is rejected: the check runs before the prefix is stripped. */
  lemma PrefixedSenderRejected(body: string, now: int)
    ensures var fields := map["Body" := Str(body), "From" := Str("whatsapp:+1234567890"), "To" := Str("+1234567890")];
      HandleWebhook(ArrayPayload(fields), now)
        == Failure(Raise("Failed to process webhook: " + InvalidSenderMessage, 500))
  {
    var fields := map["Body" := Str(body), "From" := Str("whatsapp:+1234567890"), "To" := Str("+1234567890")];
    assert IsSet(fields, "Body");
    assert Coalesce(fields, "From", Str("")) == Str("whatsapp:+1234567890");
    RejectedExamples();
  }

  /** A payload with only a Body has an empty From, so it is rejected with 500 rather than normalised. */
  lemma BodyOnlyRejected(body: string, now: int)
    ensures HandleWebhook(ArrayPayload(map["Body" := Str(body)]), now).Failure?
    ensures HandleWebhook(ArrayPayload(map["Body" := Str(body)]), now).error.code == 500
  {
  }

  // ---------------------------------------------------------------------------
  // Corrected variants of two behaviours that the code gets wrong.

  /** The auth case as evidently meant: strict membership in AUTH_ERROR_CODES. */
  function MapRestErrorIntended(e: RestException): (r: WhatsAppException)
    ensures r.cls == WhatsAppClass && HasDefaultResponse(r)
  {
    var code := EffectiveCode(e);
    var authCase := code in AuthErrorCodes;
    Raise(SwitchMessage(code, authCase, e.GetMessage()), SwitchCode(code, authCase, e.GetMessage()))
  }

  /**
   * The intended mapping agrees with the code on every non-zero code, and a
   * zero code reaches the default branch, whose `?: 500` then applies.
   */
  lemma IntendedMappingOnlyFixesZero(e: RestException)
    ensures EffectiveCode(e) != 0 ==> MapRestErrorIntended(e) == MapRestError(e)
    ensures EffectiveCode(e) == 0 ==> MapRestErrorIntended(e).code == 500
    ensures EffectiveCode(e) == 0 ==> MapRestError(e).code == 401
  {
  }

  /** The webhook body as evidently meant: strip `whatsapp:` first, then validate what is left. */
  function WebhookBodyIntended(fields: map<string, Value>, now: int): Result<WebhookResult, WhatsAppException>
  {
    if !IsSet(fields, "Body") then Success(NoMessages)
    else
      var from := ReplaceAll(ToStr(Coalesce(fields, "From", Str(""))), "whatsapp:", "");
      if !MatchesPhonePattern(from) then Failure(Raise(InvalidSenderMessage, 400))
      else
        var to := ReplaceAll(ToStr(Coalesce(fields, "To", Str(""))), "whatsapp:", "");
        if !MatchesPhonePattern(to) then Failure(Raise(InvalidWebhookRecipientMessage, 400))
        else Success(Received([InboundMessage(
          Coalesce(fields, "MessageSid", Null), from, to, now, fields["Body"], "text")]))
  }

  /** handleWebhook with the intended order of stripping and validation. */
  function HandleWebhookIntended(payload: Payload, now: int): Result<WebhookResult, WhatsAppException>
  {
    match payload
    case NullPayload => Failure(Raise("Webhook payload is required", 400))
    case NonArrayPayload => Failure(Raise("Invalid webhook payload format", 400))
    case ArrayPayload(fields) =>
      match WebhookBodyIntended(fields, now)
      case Success(v) => Success(v)
      case Failure(e) => Failure(WrapWebhookError(e))
  }

  /** Stripping the vendor prefix from `whatsapp:` + an accepted number gives the number back. */
  lemma StripVendorPrefix(n: string)
    requires MatchesPhonePattern(n)
    ensures ReplaceAll("whatsapp:" + n, "whatsapp:", "") == n
  {
    var s := "whatsapp:" + n;
    assert s[..9] == "whatsapp:" && s[9..] == n;
    StripPrefixOfAccepted(n);
  }

  /** With the intended order, the vendor's `whatsapp:+…` addresses are accepted and reported without the prefix. */
  lemma IntendedWebhookAcceptsVendorFormat(body: Value, sid: Value, from: string, to: string, now: int)
    requires body != Null
    requires MatchesPhonePattern(from) && MatchesPhonePattern(to)
    ensures var fields := map["Body" := body, "MessageSid" := sid,
                              "From" := Str("whatsapp:" + from), "To" := Str("whatsapp:" + to)];
      HandleWebhookIntended(ArrayPayload(fields), now)
        == Success(Received([InboundMessage(sid, from, to, now, body, "text")]))
  {
    var fields := map["Body" := body, "MessageSid" := sid,
                      "From" := Str("whatsapp:" + from), "To" := Str("whatsapp:" + to)];
    assert fields["Body"] == body && fields["MessageSid"] == sid;
    assert fields["From"] == Str("whatsapp:" + from) && fields["To"] == Str("whatsapp:" + to);
    StripVendorPrefix(from);
    StripVendorPrefix(to);
  }
}
