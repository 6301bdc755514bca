/**
 * ValidationException: a WhatsAppException whose static factories each carry
 * a fixed code in the 1001-1014 range and a message that embeds the
 * factory's arguments.
 */
module ValidationErrors {
  import opened Php
  import opened WhatsAppErrors

  /** `new self($message, $code)` inside ValidationException. */
  function Validation(message: string, code: int): (e: WhatsAppException)
    ensures e.cls == ValidationClass && e.message == message && e.code == code
    ensures HasDefaultResponse(e)
  {
    NewException(ValidationClass, message, code)
  }

  function MissingConfig(key: string): (e: WhatsAppException)
    ensures e.code == 1001 && e.message == "Missing required configuration key: " + key
    ensures e.cls == ValidationClass && HasDefaultResponse(e)
  {
    Validation("Missing required configuration key: " + key, 1001)
  }

  function InvalidPhoneNumber(number: string): (e: WhatsAppException)
    ensures e.code == 1002 && e.message == "Invalid phone number format: " + number
    ensures e.cls == ValidationClass && HasDefaultResponse(e)
  {
    Validation("Invalid phone number format: " + number, 1002)
  }

  function InvalidTemplateSid(sid: string): (e: WhatsAppException)
    ensures e.code == 1003 && e.message == "Invalid template SID format: " + sid
    ensures e.cls == ValidationClass && HasDefaultResponse(e)
  {
    Validation("Invalid template SID format: " + sid, 1003)
  }

  function InvalidTemplateVariables(): (e: WhatsAppException)
    ensures e.code == 1004 && e.message == "Invalid template variables format. Must be a valid JSON string"
    ensures e.cls == ValidationClass && HasDefaultResponse(e)
  {
    Validation("Invalid template variables format. Must be a valid JSON string", 1004)
  }

  function MissingSignature(): (e: WhatsAppException)
    ensures e.code == 1005 && e.message == "Missing webhook signature"
    ensures e.cls == ValidationClass && HasDefaultResponse(e)
  {
    Validation("Missing webhook signature", 1005)
  }

  function MissingWebhookUrl(): (e: WhatsAppException)
    ensures e.code == 1006 && e.message == "Missing webhook URL"
    ensures e.cls == ValidationClass && HasDefaultResponse(e)
  {
    Validation("Missing webhook URL", 1006)
  }

  function InvalidSignature(): (e: WhatsAppException)
    ensures e.code == 1007 && e.message == "Invalid webhook signature"
    ensures e.cls == ValidationClass && HasDefaultResponse(e)
  {
    Validation("Invalid webhook signature", 1007)
  }

  function MissingMessageSid(): (e: WhatsAppException)
    ensures e.code == 1008 && e.message == "Missing MessageSid in webhook data"
    ensures e.cls == ValidationClass && HasDefaultResponse(e)
  {
    Validation("Missing MessageSid in webhook data", 1008)
  }

  function InvalidParameters(message: string): (e: WhatsAppException)
    ensures e.code == 1009 && e.message == "Invalid parameters: " + message
    ensures e.cls == ValidationClass && HasDefaultResponse(e)
  {
    Validation("Invalid parameters: " + message, 1009)
  }

  function MissingTemplateVariable(key: string, templateName: string): (e: WhatsAppException)
    ensures e.code == 1010
    ensures e.message == "Missing required template variable '" + key + "' for template '" + templateName + "'"
    ensures e.cls == ValidationClass && HasDefaultResponse(e)
  {
    Validation("Missing required template variable '" + key + "' for template '" + templateName + "'", 1010)
  }

  function InvalidTemplateVariableType(key: string, templateName: string, expectedType: string): (e: WhatsAppException)
    ensures e.code == 1011
    ensures e.message == "Invalid type for template variable '" + key + "' in template '" + templateName
      + "'. Expected " + expectedType
    ensures e.cls == ValidationClass && HasDefaultResponse(e)
  {
    Validation("Invalid type for template variable '" + key + "' in template '" + templateName
      + "'. Expected " + expectedType, 1011)
  }

  function TemplateNotFound(templateName: string): (e: WhatsAppException)
    ensures e.code == 1012 && e.message == "Template not found: " + templateName
    ensures e.cls == ValidationClass && HasDefaultResponse(e)
  {
    Validation("Template not found: " + templateName, 1012)
  }

  function InvalidTemplateFormat(templateName: string): (e: WhatsAppException)
    ensures e.code == 1013
    ensures e.message == "Invalid template format for template '" + templateName + "'. Missing required fields"
    ensures e.cls == ValidationClass && HasDefaultResponse(e)
  {
    Validation("Invalid template format for template '" + templateName + "'. Missing required fields", 1013)
  }

  function InvalidTemplateComponent(component: string, templateName: string): (e: WhatsAppException)
    ensures e.code == 1014
    ensures e.message == "Invalid template component '" + component + "' in template '" + templateName + "'"
    ensures e.cls == ValidationClass && HasDefaultResponse(e)
  {
    Validation("Invalid template component '" + component + "' in template '" + templateName + "'", 1014)
  }

  /** The codes of the fourteen factories, in declaration order, for any arguments. */
  function FactoryCodes(a: string, b: string, c: string): seq<int>
  {
    [ MissingConfig(a).code, InvalidPhoneNumber(a).code, InvalidTemplateSid(a).code,
      InvalidTemplateVariables().code, MissingSignature().code, MissingWebhookUrl().code,
      InvalidSignature().code, MissingMessageSid().code, InvalidParameters(a).code,
      MissingTemplateVariable(a, b).code, InvalidTemplateVariableType(a, b, c).code,
      TemplateNotFound(a).code, InvalidTemplateFormat(a).code, InvalidTemplateComponent(a, b).code ]
  }

  /** The factories' codes run 1001, 1002, ..., 1014 in declaration order, so no two coincide. */
  lemma FactoryCodesDistinct(a: string, b: string, c: string)
    ensures forall k :: 0 <= k < |FactoryCodes(a, b, c)| ==> FactoryCodes(a, b, c)[k] == 1001 + k
    ensures |FactoryCodes(a, b, c)| == 14
    ensures forall i, j :: 0 <= i < j < 14 ==> FactoryCodes(a, b, c)[i] != FactoryCodes(a, b, c)[j]
  {
  }

  /** A missing-variable message names both the variable and the template. */
  lemma MissingTemplateVariableNamesBoth(key: string, templateName: string)
    ensures Contains(MissingTemplateVariable(key, templateName).message, key)
    ensures Contains(MissingTemplateVariable(key, templateName).message, templateName)
  {
    var m := MissingTemplateVariable(key, templateName).message;
    var p := "Missing required template variable '";
    assert OccursAt(m, key, |p|) by {
      assert m[|p|..|p| + |key|] == key;
    }
    var q := p + key + "' for template '";
    assert OccursAt(m, templateName, |q|) by {
      assert m[|q|..|q| + |templateName|] == templateName;
    }
  }

  /** A wrong-type message ends with "Expected " and the expected type. */
  lemma InvalidTypeEndsWithExpected(key: string, templateName: string, expectedType: string)
    ensures var m := InvalidTemplateVariableType(key, templateName, expectedType).message;
      var tail := "Expected " + expectedType;
      |m| >= |tail| && m[|m| - |tail|..] == tail
  {
  }
}
