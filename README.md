# WhatsApp integration package — a verified model of its core

This project models the core of a PHP package that sends WhatsApp messages through
the Twilio REST API and receives them through a webhook.

- **`WhatsApp` facade.** Covers:
  - how the constructor validates its configuration;
  - how `sendMessage` validates a recipient and a body and shapes the request for the vendor client;
  - how vendor `RestException`s are mapped to the package's own exceptions;
  - how `handleWebhook` normalises an inbound payload.
- **`TemplateHelper`.** Covers:
  - the default template table, and lookup in which configured templates override it;
  - per-component validation of template variables;
  - placeholder substitution.
- **The exception taxonomy.** `WhatsAppException` has a default error response. `ValidationException` has codes 1001 to 1014. `ConnectionException` has codes 3001 and 3002 and a pass-through code. The vendor's `RestException` is the input record of the error mapping.

## Layout

| file | module | models |
|---|---|---|
| `wrappers.dfy` | `Wrappers` | `Option` and `Result` |
| `php.dfy` | `Php` | the PHP runtime behaviour the core relies on, listed below |
| `rest_exception.dfy` | `TwilioRest` | the vendor `RestException` |
| `whatsapp_exception.dfy` | `WhatsAppErrors` | `WhatsAppException` |
| `validation_exception.dfy` | `ValidationErrors` | `ValidationException` |
| `connection_exception.dfy` | `ConnectionErrors` | `ConnectionException` |
| `phone.dfy` | `PhoneNumbers` | `isValidPhoneNumber` and `formatPhoneNumber` |
| `whatsapp.dfy` | `Facade` | the `WhatsApp` class |
| `template_helper.dfy` | `TemplateHelper` | `TemplateHelper` |

`php.dfy` models these parts of PHP:
- mixed values as `Null | Str | Int`, and their conversion to string;
- `trim`, `empty` (where `"0"` is empty), `isset` and `??`;
- `str_replace`, `strpos`, `strtolower` and `implode`;
- arrays with string keys and their insertion order.

## How the source's forms are kept

- **The facade object.** `WhatsApp` is a class whose fields are assigned once.
  - The throwing PHP constructor is the static method `Create`, which returns a `Result`.
  - `validateConfig`'s loop over the required fields is the method `ValidateConfig`, with a `while` loop. It is proved equal to the specification function `ConfigError`.
- **Template validation.** `validateTemplateVariables` is a method whose loop stops at the first failing component. It is proved equal to `VariablesError`.
- **Template building.** `buildTemplateMessage` is a method that rebinds the message in a loop. It is proved equal to `Substitute`, a left-to-right fold of replace-all operations.
- **Everything else** is a pure function of its arguments, as in the source. This covers phone checks, formatting, body validation, error mapping, webhooks, lookup and the exception factories.

## How the model treats its inputs

- **Library predicates** are function-typed parameters:
  - `mb_check_encoding` becomes `checkEncoding`;
  - "`strtotime` returns a truthy timestamp" becomes `isDate`;
  - `is_numeric` on strings becomes `isNumeric`.
- **Bodies** are sequences of code points, so `mb_strlen` is the sequence length.
- **The vendor client** is a parameter `Request -> ClientOutcome`.
  - A `ClientOutcome` is a created message (sid, to, from), a `RestException`, another Twilio exception, or any other exception.
  - "No client call on invalid input" is stated as: the result does not depend on the client.
- **`time()`** is the parameter `now`.
- **The configured template table** is a parameter. It is `None` when the Laravel `Config` facade throws.

## Model

| member | source | states |
|---|---|---|
| `TwilioRest.NewRestException` | vendor/twilio/sdk/src/Twilio/Exceptions/RestException.php:19-51 | getCode, getMessage, getStatusCode, getMoreInfo and getDetails return exactly the constructor's arguments |
| `TwilioRest.RestExceptionDefaults` | vendor/twilio/sdk/src/Twilio/Exceptions/RestException.php:19-23 | built from a message and a code alone, the status is 500, moreInfo is '' and details is empty, and the code is kept |
| `WhatsAppErrors.NewException` | src/Exceptions/WhatsAppException.php:9-17 | message, code and class are recorded; an empty error response is replaced by the default, and a non-empty one is kept |
| `WhatsAppErrors.NewExceptionDefaults` | src/Exceptions/WhatsAppException.php:9-17 | with no arguments, the message is "", the code is 0 and the error response is the default one |
| `WhatsAppErrors.DefaultResponseFields` | src/Exceptions/WhatsAppException.php:12-16 | the default response has exactly the keys status, message and code, with 'error', the message and the code |
| `WhatsAppErrors.GivenResponseKept` | src/Exceptions/WhatsAppException.php:12-22 | a non-empty error response is returned unchanged by getErrorResponse |
| `WhatsAppErrors.Raise` | src/Exceptions/WhatsAppException.php:9-17 | `new WhatsAppException(m, c)` carries m, c and the default response built from them |
| `WhatsAppErrors.MissingMessage` | src/Exceptions/WhatsAppException.php:24-27 | code 400, "Message content is required" |
| `WhatsAppErrors.EmptyMessage` | src/Exceptions/WhatsAppException.php:29-32 | code 400, "Message content cannot be empty" |
| `WhatsAppErrors.MissingConfigField` | src/Exceptions/WhatsAppException.php:34-37 | code 400, message embeds the field |
| `WhatsAppErrors.EmptyConfigField` | src/Exceptions/WhatsAppException.php:39-42 | code 400, message embeds the field in quotes |
| `WhatsAppErrors.InvalidPhoneNumber` | src/Exceptions/WhatsAppException.php:44-47 | code 400, message passed through |
| `WhatsAppErrors.AuthenticationFailed` | src/Exceptions/WhatsAppException.php:49-52 | code 401 with the fixed text |
| `WhatsAppErrors.RateLimitExceeded` | src/Exceptions/WhatsAppException.php:54-57 | code 429 with the fixed text |
| `ValidationErrors.Validation` | src/Exceptions/ValidationException.php:5 | a ValidationException is a WhatsAppException whose default response repeats its message and code |
| `ValidationErrors.MissingConfig` | src/Exceptions/ValidationException.php:7-10 | code 1001, message embeds the key |
| `ValidationErrors.InvalidPhoneNumber` | src/Exceptions/ValidationException.php:12-15 | code 1002, message embeds the number |
| `ValidationErrors.InvalidTemplateSid` | src/Exceptions/ValidationException.php:17-20 | code 1003, message embeds the SID |
| `ValidationErrors.InvalidTemplateVariables` | src/Exceptions/ValidationException.php:22-25 | code 1004 with the fixed text |
| `ValidationErrors.MissingSignature` | src/Exceptions/ValidationException.php:27-30 | code 1005 with the fixed text |
| `ValidationErrors.MissingWebhookUrl` | src/Exceptions/ValidationException.php:32-35 | code 1006 with the fixed text |
| `ValidationErrors.InvalidSignature` | src/Exceptions/ValidationException.php:37-40 | code 1007 with the fixed text |
| `ValidationErrors.MissingMessageSid` | src/Exceptions/ValidationException.php:42-45 | code 1008 with the fixed text |
| `ValidationErrors.InvalidParameters` | src/Exceptions/ValidationException.php:47-50 | code 1009, message embeds the argument |
| `ValidationErrors.MissingTemplateVariable` | src/Exceptions/ValidationException.php:59-65 | code 1010, message names the key and the template |
| `ValidationErrors.InvalidTemplateVariableType` | src/Exceptions/ValidationException.php:75-81 | code 1011, message names key, template and expected type |
| `ValidationErrors.TemplateNotFound` | src/Exceptions/ValidationException.php:89-95 | code 1012, message embeds the name |
| `ValidationErrors.InvalidTemplateFormat` | src/Exceptions/ValidationException.php:103-109 | code 1013, message embeds the template name |
| `ValidationErrors.InvalidTemplateComponent` | src/Exceptions/ValidationException.php:118-124 | code 1014, message names component and template |
| `ValidationErrors.FactoryCodesDistinct` | src/Exceptions/ValidationException.php:7-124 | the fourteen factories' codes are 1001 to 1014 in declaration order, whatever the arguments, so they are pairwise distinct |
| `ValidationErrors.MissingTemplateVariableNamesBoth` | src/Exceptions/ValidationException.php:59-65 | the missing-variable message contains both the key and the template name |
| `ValidationErrors.InvalidTypeEndsWithExpected` | src/Exceptions/ValidationException.php:75-81 | the wrong-type message ends with "Expected " and the expected type |
| `ConnectionErrors.AuthenticationFailed` | src/Exceptions/ConnectionException.php:7-10 | code 3001, fixed text, default response |
| `ConnectionErrors.ResourceNotFound` | src/Exceptions/ConnectionException.php:12-15 | code 3002, "Resource not found: " + argument, default response |
| `ConnectionErrors.GeneralError` | src/Exceptions/ConnectionException.php:17-20 | the caller's code, "Twilio API error: " + argument, default response |
| `Php.TrimEmptyIff` | src/WhatsApp.php:52 | trim gives "" exactly when every character is one of the six stripped ones |
| `Php.ReplaceAllAbsent` | src/WhatsApp.php:192-193 | str_replace with a search string that does not occur leaves the subject unchanged |
| `Php.ToLowerIdempotent` | src/Helpers/TemplateHelper.php:131 | strtolower leaves no ASCII upper-case letter, and lowering twice is lowering once |
| `Php.ToLowerCaseInsensitive` | src/Helpers/TemplateHelper.php:131 | two strings that differ only in the case of ASCII letters lower to the same string, so the status check ignores case |
| `Php.Lookup` | src/Helpers/TemplateHelper.php:94 | a key is absent exactly when no entry has it; a found value belongs to an entry with that key |
| `PhoneNumbers.MatchImpliesAccepted` | src/WhatsApp.php:146-148 | every string the pattern matches is `+`, a digit 1-9 and 9 to 14 more digits, with at most one final newline |
| `PhoneNumbers.AcceptedImpliesMatch` | src/WhatsApp.php:146-148 | every string of that shape is matched |
| `PhoneNumbers.MatchesPhonePatternIff` | src/WhatsApp.php:146-148 | the pattern accepts exactly the strings of that shape |
| `PhoneNumbers.IsValidPhoneNumberIff` | src/WhatsApp.php:146-148 | isValidPhoneNumber() holds exactly for a string of the accepted shape; null and integers never pass |
| `PhoneNumbers.IntegerIsNeverValid` | src/WhatsApp.php:146-148 | an integer argument is always rejected |
| `PhoneNumbers.AcceptedExamples` | src/WhatsApp.php:147 | "+1234567890", a 15-digit number and "+1234567890\n" are accepted |
| `PhoneNumbers.RejectedExamples` | src/WhatsApp.php:147 | "+123", "12345", "++1234567890", "+0123456789" and "whatsapp:+1234567890" are rejected |
| `PhoneNumbers.RejectedByDigitRun` | src/WhatsApp.php:147 | "+1234abc5678" and a 16-digit number are rejected |
| `PhoneNumbers.FormatPhoneNumber` | src/WhatsApp.php:150-152 | the result has only ASCII digits and is no longer than the input |
| `PhoneNumbers.FormatAppend` | src/WhatsApp.php:151 | removing non-digits distributes over concatenation |
| `PhoneNumbers.FormatKeepsDigits` | src/WhatsApp.php:151 | a digit string is unchanged |
| `PhoneNumbers.FormatDropsNonDigits` | src/WhatsApp.php:151 | a string without digits formats to the empty string, so with `FormatAppend` every non-digit is removed and every digit kept in order |
| `PhoneNumbers.FormatAcceptedNumber` | src/WhatsApp.php:150-152 | for an accepted number, `+` followed by the result gives back the number, apart from an optional final newline |
| `PhoneNumbers.FormatSignedDigits` | src/WhatsApp.php:150-152 | `+` followed by digits formats to exactly those digits |
| `Facade.MissingKeys` | src/WhatsApp.php:41-42 | exactly the required keys absent from the config, each once, in the order account_sid, auth_token, from_number |
| `Facade.FirstBlankFrom` | src/WhatsApp.php:51-58 | the first required field whose trimmed value is empty, with every earlier field non-empty |
| `Facade.ConfigError` | src/WhatsApp.php:40-66 | every configuration error is a base WhatsAppException with code 400 |
| `Facade.ValidateConfig` | src/WhatsApp.php:40-66 | the loop over the required fields throws exactly the error `ConfigError` describes, or nothing |
| `Facade.ConfigAcceptedIff` | src/WhatsApp.php:40-66 | a config is accepted exactly when every required key is present and non-blank and from_number passes the phone check |
| `Facade.ConfigErrorShape` | src/WhatsApp.php:44-58 | every config error has code 400; the missing-keys message lists all missing keys; the blank-field message names the first blank field |
| `Facade.BlankExamples` | src/WhatsApp.php:52 | "0", " 0\n", blanks, null and the integer 0 count as empty; "00" and an SID do not |
| `Facade.WhatsApp.Init` | src/WhatsApp.php:27-29 | the fields hold the given client, sender and timeout, and the sender is well formed |
| `Facade.WhatsApp.Create` | src/WhatsApp.php:18-30 | a null config gives 400 "WhatsApp configuration is required"; otherwise validation's error; otherwise a new object whose sender is from_number, whose client is built from the SID and token, and whose timeout is config timeout or 30 |
| `Facade.WhatsApp.PrepareRequest` | src/WhatsApp.php:69-95 | every validation failure has code 400; a request is built only for a non-null, well-formed recipient and a valid body, from "whatsapp:" + the sender, carrying the body as given |
| `Facade.WhatsApp.RequestSenderAccepted` | src/WhatsApp.php:60-65 | under the constructor's invariant, every request's sender is "whatsapp:" followed by a number of the accepted phone shape |
| `Facade.WhatsApp.SendMessage` | src/WhatsApp.php:69-110 | a validation failure is the result unchanged; a valid request is handed to the client once and its outcome interpreted (receipt echoed, vendor errors mapped); a success has status 'success' |
| `Facade.WhatsApp.SendValidationOrder` | src/WhatsApp.php:69-86 | null recipient, then null message, then recipient format, then body, each with code 400 |
| `Facade.WhatsApp.NoClientCallOnInvalidInput` | src/WhatsApp.php:69-88 | after a validation failure, the result is the same for any client, so no client call takes place |
| `Facade.WhatsApp.RequestShape` | src/WhatsApp.php:89-94 | the request goes to "whatsapp:" and the recipient's digits without `+`, from "whatsapp:" and the sender unchanged, with the body as given |
| `Facade.WhatsApp.SendsDigits` | src/WhatsApp.php:79-94 | a recipient `+` and 10 to 15 digits (first not 0) with a valid body gives the request ("whatsapp:" + digits, "whatsapp:" + sender, body) |
| `Facade.InterpretOutcome` | src/WhatsApp.php:97-109 | success exactly for a created message, whose sid, to and from are echoed; a RestException is mapped; another Twilio exception gives 401; anything else gives 500 |
| `Facade.ValidateMessage` | src/WhatsApp.php:112-124 | every rejection is a 400 WhatsAppException; an accepted body is non-null, non-blank, at most 1600 characters and well encoded |
| `Facade.ValidateMessageCodes` | src/WhatsApp.php:112-124 | a body passes exactly when it is non-null, non-blank, at most 1600 characters and well encoded; every rejection has code 400 |
| `Facade.ValidateMessageOrder` | src/WhatsApp.php:112-121 | null and every blank body (whatever its length or encoding) are rejected as empty, so the blank check comes first; "0" is empty; length is checked before encoding; exactly 1600 characters pass |
| `Facade.MapRestError` | src/WhatsApp.php:126-143 | every mapped error is a base WhatsAppException with the default response |
| `Facade.MapRestErrorCodes` | src/WhatsApp.php:126-143 | 429 gives 429; 401, 403 and 0 give 401; 404 gives 404; 400 gives 403 or 400; any other code passes through unchanged |
| `Facade.MapRestErrorBadRequest` | src/WhatsApp.php:136-140 | a 400 becomes 403 exactly when the vendor message contains "unverified", and stays 400 otherwise |
| `Facade.MapRestErrorDefaultMessage` | src/WhatsApp.php:141-142 | a code without its own case keeps the vendor message behind "WhatsApp API error: " |
| `Facade.MapRestErrorNonZero` | src/WhatsApp.php:127-142 | the thrown code is never 0 |
| `Facade.ZeroCodeUsesStatus` | src/WhatsApp.php:127 | a zero code falls back to the HTTP status: default 500 gives 500, 429 gives 429, 0 gives 401 |
| `Facade.HandleWebhook` | src/WhatsApp.php:154-203 | a null payload gives 400 "Webhook payload is required"; a non-array gives 400 "Invalid webhook payload format"; any failure inside the try has code 500 |
| `Facade.WebhookBody` | src/WhatsApp.php:163-199 | no_messages exactly when Body is not set; a validation failure has code 400 before wrapping; a result carries one text message with Body and the given time |
| `Facade.StripPrefixOfAccepted` | src/WhatsApp.php:192-193 | stripping "whatsapp:" from an accepted number changes nothing |
| `Facade.WebhookOutcomes` | src/WhatsApp.php:163-202 | no Body gives no_messages; a bad From or To gives 500 with "Failed to process webhook: "; otherwise exactly one text message carrying MessageSid or null, From, To, the time and Body |
| `Facade.PrefixedSenderRejected` | src/WhatsApp.php:170-176 | a From of "whatsapp:+1234567890" is rejected with 500 |
| `Facade.BodyOnlyRejected` | src/WhatsApp.php:165-176 | a payload with only a Body fails with 500 |
| `Facade.MapRestErrorIntended` | src/WhatsApp.php:132-133 | with strict membership, the result is still a base WhatsAppException with the default response |
| `Facade.IntendedMappingOnlyFixesZero` | src/WhatsApp.php:126-143 | strict membership agrees with the code for every non-zero code; for a zero code it gives 500, where the code gives 401 |
| `Facade.StripVendorPrefix` | src/WhatsApp.php:192 | stripping "whatsapp:" from "whatsapp:" + an accepted number gives the number |
| `Facade.IntendedWebhookAcceptsVendorFormat` | src/WhatsApp.php:170-193 | with the prefix stripped before validation, "whatsapp:"-prefixed From and To are accepted and reported without the prefix |
| `TemplateHelper.GetAllTemplates` | src/Helpers/TemplateHelper.php:70-78 | without config, the defaults; with config, the union of keys, config entries winning on a clash and defaults kept elsewhere |
| `TemplateHelper.GetTemplate` | src/Helpers/TemplateHelper.php:49-63 | a configured entry wins; a name absent from the config is found exactly when it is a default name, with the default entry |
| `TemplateHelper.GetTemplateAgreesWithAll` | src/Helpers/TemplateHelper.php:49-78 | getTemplate finds a name exactly when getAllTemplates holds it, and returns the same entry: config first, then defaults, then null |
| `TemplateHelper.DefaultsAlwaysFound` | src/Helpers/TemplateHelper.php:15-62 | the three default templates are found whatever the config; an unknown name without config gives null |
| `TemplateHelper.TimeTextIff` | src/Helpers/TemplateHelper.php:120 | the time pattern's core accepts exactly H:MM or HH:MM with hour 0-23 and minutes 00-59 |
| `TemplateHelper.ValidateVariableType` | src/Helpers/TemplateHelper.php:111-136 | every failure is a ValidationException with code 1011; types other than date, time, amount and status accept anything |
| `TemplateHelper.VariableTypeRules` | src/Helpers/TemplateHelper.php:111-136 | each of date, time, amount and status passes exactly when its predicate holds; a failure has code 1011; other types accept anything |
| `TemplateHelper.StatusExamples` | src/Helpers/TemplateHelper.php:129-133 | "Shipped" passes the status check and "lost" does not |
| `TemplateHelper.ValidateTemplateVariables` | src/Helpers/TemplateHelper.php:87-100 | the loop stops at the first failing component, and throws exactly what `VariablesError` describes |
| `TemplateHelper.VariablesAcceptedIff` | src/Helpers/TemplateHelper.php:87-100 | validation passes exactly when components is an array and every component passes |
| `TemplateHelper.MissingVariableReported` | src/Helpers/TemplateHelper.php:93-96 | the first failing component, if its variable is absent or null, raises 1010 naming that key and the template |
| `TemplateHelper.MissingComponentsReported` | src/Helpers/TemplateHelper.php:89-91 | a template without a components array raises 1013 |
| `TemplateHelper.BuildTemplateMessage` | src/Helpers/TemplateHelper.php:145-156 | missing content raises 1013; otherwise the loop gives the content with each variable substituted in order |
| `TemplateHelper.SubstituteWithoutPlaceholders` | src/Helpers/TemplateHelper.php:151-155 | with no variables, or none of their placeholders in the content, the content is returned unchanged |
| `TemplateHelper.LaterReplacementsSeeInsertedText` | src/Helpers/TemplateHelper.php:152-154 | a value inserted by one replacement is rewritten by a later one |
| `TemplateHelper.SingleBracePlaceholderLeavesBraces` | src/Helpers/TemplateHelper.php:153 | as written, "{{1}}" in brace-free text becomes "{" + value + "}" |
| `TemplateHelper.IntendedPlaceholderFilled` | src/Helpers/TemplateHelper.php:153 | with the double-brace search string, "{{1}}" becomes the value with no braces left |

## Left out

- **Vendor client.** Constructing the Twilio client and the network call `messages->create` are left out. The client is a parameter returning a `ClientOutcome`. The exception `initializeClient` would raise with code 401 is not modelled, because `new Client(sid, token)` does no I/O here.
- **`time()`** is the parameter `now`.
- **`mb_check_encoding`, `strtotime` and `is_numeric` on strings** are uninterpreted parameters.
- **The Laravel `Config` facade** is an argument: the configured template map, or `None` when the facade throws.
- **Configured templates.** Only string keys and template-shaped entries are modelled. Numeric keys that `array_merge` renumbers, and a null entry, which `isset` skips, are not.
- **Order of getAllTemplates.** The merged table is a map, so `array_merge`'s key order (defaults first, then new configured names) is not modelled; nothing in the core iterates it.
- **PHP type errors.** Values other than null, strings and integers are not modelled: floats, booleans and arrays passed as phone numbers, bodies or variables. Neither are the `TypeError`s PHP raises for them. The one kept is a null template name reaching a `string` parameter; it is the failure `NameTypeError`.
- **Component types** are modelled as strings only.
- **The `$previous` argument** of exceptions, and exception chaining, are not modelled.
- **`RateLimitException`** is not part of this model. It reads a constant that the facade does not define.
- **The service provider and the configuration file** are not part of this model. They are framework registration and environment lookups.
- **Tests written for other revisions of the facade** give no properties here. They cover constructor-injected clients, Meta-style payloads and a Body-only webhook that succeeds.

## Findings

| source | as written | input that shows it | evidently intended | confidence | as-written member | corrected member |
|---|---|---|---|---|---|---|
| src/Helpers/TemplateHelper.php:153 | `"{{$key}}"` is complex interpolation, so the search string is `{1}` and a `{{1}}` placeholder becomes `{value}` | the delivery_update content with variable 1 = "shipped" gives "…updated to {shipped}." | the key in double braces, so that `{{1}}` is replaced whole | high (not executed) | `TemplateHelper.SingleBracePlaceholderLeavesBraces` | `TemplateHelper.IntendedPlaceholderFilled` |
| src/WhatsApp.php:132 | `case in_array(...)` is compared loosely with the code, so a code of 0 (`0 == false`) takes the authentication branch | a RestException with code 0 and status 0 is reported as 401 "Authentication failed" | a zero code falls to the default branch and is reported as 500 | medium (not executed) | `Facade.ZeroCodeUsesStatus` | `Facade.IntendedMappingOnlyFixesZero` |
| src/WhatsApp.php:170-193 | From and To are checked against the phone pattern before "whatsapp:" is stripped, so the vendor's own address format is rejected | From = "whatsapp:+1234567890" with a Body fails with 500 | strip the prefix, then validate the bare number | medium (not executed) | `Facade.PrefixedSenderRejected` | `Facade.IntendedWebhookAcceptsVendorFormat` |
