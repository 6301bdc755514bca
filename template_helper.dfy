/**
 * TemplateHelper: the table of message templates, lookup with configured
 * templates taking precedence, per-component validation of template
 * variables, and placeholder substitution.
 */
module TemplateHelper {
  import opened Wrappers
  import opened Php
  import opened WhatsAppErrors
  import opened ValidationErrors

  /**
   * A template array. `components` is None when the key is absent, null or
   * not an array; otherwise it lists (placeholder key, variable type) pairs
   * in declared order.
   */
  datatype Template = Template(sid: Value, name: Value, content: Value, components: Option<PhpArray<string>>)

  /** `$defaultTemplates`. */
  const DefaultTemplates: map<string, Template> := map[
    "order_confirmation" := Template(
      Str("HX350d429d32e64a552466cafecbe95f3c"),
      Str("order_confirmation"),
      Str("Your order has been confirmed. Your delivery is scheduled for {{1}} at {{2}}."),
      Some([("1", "date"), ("2", "time")])),
    "delivery_update" := Template(
      Str("HX123456789abcdef123456789abcdef12"),
      Str("delivery_update"),
      Str("Your delivery status has been updated to {{1}}."),
      Some([("1", "status")])),
    "payment_received" := Template(
      Str("HX987654321abcdef123456789abcdef12"),
      Str("payment_received"),
      Str("We have received your payment of {{1}}. Thank you!"),
      Some([("1", "amount")]))
  ]

  // ---------------------------------------------------------------------------
  // Lookup. `config` is what Config::get('whatsapp.templates', []) returns, or
  // None when the Config facade throws.

  /** getTemplate(): the configured entry if there is one, else the default entry, else null. */
  function GetTemplate(templateName: string, config: Option<map<string, Template>>): (r: Option<Template>)
    ensures config.Some? && templateName in config.value ==> r == Some(config.value[templateName])
    ensures (config.None? || templateName !in config.value) ==>
      (r.Some? <==> templateName in DefaultTemplates) && (r.Some? ==> r.value == DefaultTemplates[templateName])
  {
    if config.Some? && templateName in config.value then Some(config.value[templateName])
    else if templateName in DefaultTemplates then Some(DefaultTemplates[templateName])
    else None
  }

  /** getAllTemplates(): array_merge of the defaults and the configured templates. */
  function GetAllTemplates(config: Option<map<string, Template>>): (all: map<string, Template>)
    ensures config.None? ==> all == DefaultTemplates
    ensures config.Some? ==> all.Keys == DefaultTemplates.Keys + config.value.Keys
    ensures config.Some? ==> forall n :: n in config.value ==> all[n] == config.value[n]
    ensures forall n :: n in DefaultTemplates && (config.None? || n !in config.value) ==> all[n] == DefaultTemplates[n]
  {
    match config
    case None => DefaultTemplates
    case Some(c) => DefaultTemplates + c
  }

  /** Looking one template up agrees with the merged table: same names, same entries. */
  lemma GetTemplateAgreesWithAll(templateName: string, config: Option<map<string, Template>>)
    ensures GetTemplate(templateName, config).Some? <==> templateName in GetAllTemplates(config)
    ensures GetTemplate(templateName, config).Some? ==>
      GetTemplate(templateName, config).value == GetAllTemplates(config)[templateName]
  {
  }

  /** The three default names are always available, whether or not configuration is readable. */
  lemma DefaultsAlwaysFound(config: Option<map<string, Template>>)
    ensures GetTemplate("order_confirmation", config).Some?
    ensures GetTemplate("delivery_update", config).Some?
    ensures GetTemplate("payment_received", config).Some?
    ensures GetTemplate("no_such_template", None).None?
  {
  }

  // ---------------------------------------------------------------------------
  // Variable validation

  /** Why validation stopped: a thrown ValidationException, or PHP's TypeError for a null template name. */
  datatype TemplateFailure = Thrown(e: WhatsAppException) | NameTypeError

  /** `$template['name'] ?? 'unknown'`. */
  function NameOrUnknown(t: Template): string
  {
    if t.name == Null then "unknown" else ToStr(t.name)
  }

  /** `/^([0-1]?[0-9]|2[0-3]):[0-5][0-9]$/` without its end anchor's newline allowance. */
  predicate IsTimeText(s: string)
  {
    || (|s| == 4 && IsDigit(s[0]) && s[1] == ':' && '0' <= s[2] <= '5' && IsDigit(s[3]))
    || (&& |s| == 5
        && (('0' <= s[0] <= '1' && IsDigit(s[1])) || (s[0] == '2' && '0' <= s[1] <= '3'))
        && s[2] == ':' && '0' <= s[3] <= '5' && IsDigit(s[4]))
  }

  /** The time pattern: `$` also matches before one final newline. */
  predicate MatchesTimePattern(s: string)
  {
    IsTimeText(s) || (|s| > 0 && s[|s| - 1] == '\n' && IsTimeText(s[..|s| - 1]))
  }

  /** A clock reading with an h-digit hour: hour 0-23, a colon, two-digit minutes 00-59. */
  predicate IsClockTime(s: string, h: nat)
  {
    && |s| == h + 3 && s[h] == ':'
    && AllDigits(s[..h]) && AllDigits(s[h + 1..])
    && DigitsValue(s[..h]) <= 23 && DigitsValue(s[h + 1..]) <= 59
  }

  lemma TwoDigitsValue(s: string)
    requires |s| == 2 && AllDigits(s)
    ensures DigitsValue(s) == DigitValue(s[0]) * 10 + DigitValue(s[1])
  {
    var h := s[..1];
    assert h[..0] == [] && h[0] == s[0] && s[..|s| - 1] == h;
    assert DigitsValue(h) == DigitsValue(h[..0]) * 10 + DigitValue(h[0]);
    assert DigitsValue(s) == DigitsValue(h) * 10 + DigitValue(s[1]);
  }

  /** The time pattern accepts exactly H:MM and HH:MM with hour 0-23 and minutes 00-59. */
  lemma TimeTextIff(s: string)
    ensures IsTimeText(s) <==> IsClockTime(s, 1) || IsClockTime(s, 2)
  {
    if |s| == 4 && AllDigits(s[2..]) {
      TwoDigitsValue(s[2..]);
      assert s[..1][..0] == [];
    }
    if |s| == 5 && AllDigits(s[..2]) && AllDigits(s[3..]) {
      TwoDigitsValue(s[..2]);
      TwoDigitsValue(s[3..]);
    }
  }

  /** `is_numeric()`: integers are numeric, null is not, strings as `isNumeric` says. */
  predicate IsNumericValue(value: Value, isNumeric: string -> bool)
  {
    match value
    case Null => false
    case Int(_) => true
    case Str(s) => isNumeric(s)
  }

  const ValidStatuses: seq<string> := ["pending", "shipped", "delivered", "cancelled"]

  /**
   * validateVariableType(): the check for one component type; `isDate`
   * stands for "strtotime() returns a truthy timestamp".
   */
  function ValidateVariableType(
    value: Value, varType: string, key: string, templateName: string,
    isDate: string -> bool, isNumeric: string -> bool): (err: Option<WhatsAppException>)
    ensures err.Some? ==> err.value.code == 1011 && err.value.cls == ValidationClass
    ensures varType != "date" && varType != "time" && varType != "amount" && varType != "status" ==> err.None?
  {
    if varType == "date" then
      if !isDate(ToStr(value)) then Some(InvalidTemplateVariableType(key, templateName, "date")) else None
    else if varType == "time" then
      if !MatchesTimePattern(ToStr(value)) then Some(InvalidTemplateVariableType(key, templateName, "time (HH:MM)"))
      else None
    else if varType == "amount" then
      if !IsNumericValue(value, isNumeric) then Some(InvalidTemplateVariableType(key, templateName, "numeric amount"))
      else None
    else if varType == "status" then
      if ToLower(ToStr(value)) !in ValidStatuses then
        Some(InvalidTemplateVariableType(key, templateName, "status (" + Join(ValidStatuses, ", ") + ")"))
      else None
    else None
  }

  /** Each type check fails exactly when its predicate fails, always with code 1011; unknown types accept everything. */
  lemma VariableTypeRules(
    value: Value, varType: string, key: string, templateName: string,
    isDate: string -> bool, isNumeric: string -> bool)
    ensures var r := ValidateVariableType(value, varType, key, templateName, isDate, isNumeric);
      && (r.Some? ==> r.value.code == 1011)
      && (varType == "time" ==> (r.None? <==> MatchesTimePattern(ToStr(value))))
      && (varType == "status" ==> (r.None? <==>
            ToLower(ToStr(value)) in {"pending", "shipped", "delivered", "cancelled"}))
      && (varType == "date" ==> (r.None? <==> isDate(ToStr(value))))
      && (varType == "amount" ==> (r.None? <==> IsNumericValue(value, isNumeric)))
      && (varType !in {"date", "time", "amount", "status"} ==> r.None?)
  {
  }

  /** Status matching ignores ASCII case. */
  lemma StatusExamples(key: string, templateName: string, isDate: string -> bool, isNumeric: string -> bool)
    ensures ValidateVariableType(Str("Shipped"), "status", key, templateName, isDate, isNumeric).None?
    ensures ValidateVariableType(Str("lost"), "status", key, templateName, isDate, isNumeric).Some?
  {
    assert ToLower("Shipped") == "shipped";
  }

  /**
   * The check for one component: a null template name makes the call
   * itself fail; then the variable must be set; then its type is checked.
   */
  function ComponentError(
    comp: (string, string), name: Value, variables: PhpArray<Value>,
    isDate: string -> bool, isNumeric: string -> bool): Option<TemplateFailure>
  {
    var (key, varType) := comp;
    if name == Null then Some(NameTypeError)
    else
      var value := Lookup(variables, key);
      if value.None? || value.value == Null then Some(Thrown(MissingTemplateVariable(key, ToStr(name))))
      else match ValidateVariableType(value.value, varType, key, ToStr(name), isDate, isNumeric)
        case Some(e) => Some(Thrown(e))
        case None => None
  }

  /** The outcome of each component's check, in declared order. */
  function ComponentErrors(
    comps: PhpArray<string>, name: Value, variables: PhpArray<Value>,
    isDate: string -> bool, isNumeric: string -> bool): (errs: seq<Option<TemplateFailure>>)
    ensures |errs| == |comps|
    ensures forall k :: 0 <= k < |comps| ==> errs[k] == ComponentError(comps[k], name, variables, isDate, isNumeric)
  {
    seq(|comps|, k requires 0 <= k < |comps| => ComponentError(comps[k], name, variables, isDate, isNumeric))
  }

  /** The index of the first failure, from i on; |errs| if there is none. */
  function FirstFailure(errs: seq<Option<TemplateFailure>>, i: nat): (j: nat)
    requires i <= |errs|
    ensures i <= j <= |errs|
    ensures j < |errs| ==> errs[j].Some?
    ensures forall k :: i <= k < j ==> errs[k].None?
    decreases |errs| - i
  {
    if i == |errs| || errs[i].Some? then i else FirstFailure(errs, i + 1)
  }

  /** What validateTemplateVariables throws: a format error, or the first failing component's error. */
  function VariablesError(
    template: Template, variables: PhpArray<Value>,
    isDate: string -> bool, isNumeric: string -> bool): Option<TemplateFailure>
  {
    match template.components
    case None => Some(Thrown(InvalidTemplateFormat(NameOrUnknown(template))))
    case Some(comps) =>
      var errs := ComponentErrors(comps, template.name, variables, isDate, isNumeric);
      var j := FirstFailure(errs, 0);
      if j < |errs| then errs[j] else None
  }

  /** validateTemplateVariables(): the format check, then a loop over the components that stops at the first failure. */
  method ValidateTemplateVariables(
    template: Template, variables: PhpArray<Value>,
    isDate: string -> bool, isNumeric: string -> bool) returns (err: Option<TemplateFailure>)
    ensures err == VariablesError(template, variables, isDate, isNumeric)
  {
    if template.components.None? {
      return Some(Thrown(InvalidTemplateFormat(NameOrUnknown(template))));
    }
    var comps := template.components.value;
    ghost var errs := ComponentErrors(comps, template.name, variables, isDate, isNumeric);
    var i := 0;
    while i < |comps|
      invariant 0 <= i <= |comps|
      invariant FirstFailure(errs, 0) == FirstFailure(errs, i)
    {
      var e := ComponentError(comps[i], template.name, variables, isDate, isNumeric);
      if e.Some? {
        return e;
      }
      i := i + 1;
    }
    return None;
  }

  /**
   * Validation passes exactly when the components are an array and every
   * component, in declared order, passes its check.
   */
  lemma VariablesAcceptedIff(
    template: Template, variables: PhpArray<Value>, isDate: string -> bool, isNumeric: string -> bool)
    ensures VariablesError(template, variables, isDate, isNumeric).None? <==>
      && template.components.Some?
      && forall k :: 0 <= k < |template.components.value| ==>
           ComponentError(template.components.value[k], template.name, variables, isDate, isNumeric).None?
  {
  }

  /**
   * A missing or null variable for the first component that fails raises
   * 1010 naming that key and the template; components before it all passed.
   */
  lemma MissingVariableReported(
    template: Template, variables: PhpArray<Value>, isDate: string -> bool, isNumeric: string -> bool, j: nat)
    requires template.components.Some? && template.name != Null
    requires j < |template.components.value|
    requires forall k :: 0 <= k < j ==>
      ComponentError(template.components.value[k], template.name, variables, isDate, isNumeric).None?
    requires var v := Lookup(variables, template.components.value[j].0); v.None? || v.value == Null
    ensures VariablesError(template, variables, isDate, isNumeric)
      == Some(Thrown(MissingTemplateVariable(template.components.value[j].0, ToStr(template.name))))
    ensures VariablesError(template, variables, isDate, isNumeric).value.e.code == 1010
  {
    var comps := template.components.value;
    var errs := ComponentErrors(comps, template.name, variables, isDate, isNumeric);
    assert errs[j].Some?;
    assert FirstFailure(errs, 0) == j;
  }

  /** A template without an array of components is rejected with 1013 before any variable is looked at. */
  lemma MissingComponentsReported(
    template: Template, variables: PhpArray<Value>, isDate: string -> bool, isNumeric: string -> bool)
    requires template.components.None?
    ensures VariablesError(template, variables, isDate, isNumeric).value.e.code == 1013
  {
  }

  // ---------------------------------------------------------------------------
  // Substitution

  /**
   * The string `"{{$key}}"` as PHP reads it: `{$key}` is complex
   * interpolation, so only the outer braces are literal and the search
   * string is the key in single braces.
   */
  function Placeholder(key: string): string
  {
    "{" + key + "}"
  }

  /** The foreach of buildTemplateMessage: one replace-all per variable, left to right. */
  function Substitute(message: string, variables: seq<(string, Value)>): string
    decreases |variables|
  {
    if variables == [] then message
    else Substitute(ReplaceAll(message, Placeholder(variables[0].0), ToStr(variables[0].1)), variables[1..])
  }

  /** buildTemplateMessage(): a missing content raises 1013; otherwise the content with each variable substituted in turn. */
  method BuildTemplateMessage(template: Template, variables: PhpArray<Value>) returns (r: Result<string, WhatsAppException>)
    ensures template.content == Null ==> r == Failure(InvalidTemplateFormat(NameOrUnknown(template)))
    ensures template.content != Null ==> r == Success(Substitute(ToStr(template.content), variables))
  {
    if template.content == Null {
      return Failure(InvalidTemplateFormat(NameOrUnknown(template)));
    }
    var message := ToStr(template.content);
    var i := 0;
    while i < |variables|
      invariant 0 <= i <= |variables|
      invariant Substitute(message, variables[i..]) == Substitute(ToStr(template.content), variables)
    {
      assert variables[i..][1..] == variables[i + 1..];
      message := ReplaceAll(message, Placeholder(variables[i].0), ToStr(variables[i].1));
      i := i + 1;
    }
    assert variables[i..] == [];
    return Success(message);
  }

  /** With no placeholder of any variable in the content, the content comes back unchanged. */
  lemma {:induction false} SubstituteWithoutPlaceholders(message: string, variables: seq<(string, Value)>)
    requires forall k :: 0 <= k < |variables| ==> !Contains(message, Placeholder(variables[k].0))
    ensures Substitute(message, variables) == message
    decreases |variables|
  {
    if variables != [] {
      ReplaceAllAbsent(message, Placeholder(variables[0].0), ToStr(variables[0].1));
      forall k | 0 <= k < |variables[1..]| ensures !Contains(message, Placeholder(variables[1..][k].0)) {
        assert variables[1..][k] == variables[k + 1];
      }
      SubstituteWithoutPlaceholders(message, variables[1..]);
    }
  }

  /** A value inserted by one replacement is itself subject to the later replacements. */
  lemma LaterReplacementsSeeInsertedText()
    ensures Substitute("{a}", [("a", Str("{b}")), ("b", Str("x"))]) == "x"
  {
    assert ReplaceAll("{a}", "{a}", "{b}") == "{b}";
    assert ReplaceAll("{b}", "{b}", "x") == "x";
  }

  /**
   * ReplaceAll on p + rest, when no occurrence starts inside p, keeps p and
   * works on rest alone.
   */
  lemma {:induction false} ReplaceAllAfterPrefix(p: string, rest: string, pat: string, rep: string)
    requires |pat| > 0
    requires forall i :: 0 <= i < |p| ==> !OccursAt(p + rest, pat, i)
    ensures ReplaceAll(p + rest, pat, rep) == p + ReplaceAll(rest, pat, rep)
    decreases |p|
  {
    if p != [] {
      var s := p + rest;
      assert s[1..] == p[1..] + rest;
      forall i | 0 <= i < |p[1..]| ensures !OccursAt(p[1..] + rest, pat, i) {
        assert !OccursAt(s, pat, i + 1);
        OccursAtTail(s, pat, i);
      }
      ReplaceAllAfterPrefix(p[1..], rest, pat, rep);
      if |s| >= |pat| {
        assert !OccursAt(s, pat, 0);
        assert s[..|pat|] != pat;
      }
    } else {
      assert p + rest == rest;
    }
  }

  /** No `{` anywhere in s. */
  predicate NoOpenBrace(s: string)
  {
    forall i :: 0 <= i < |s| ==> s[i] != '{'
  }

  /** A search string that starts with `{` cannot start inside a brace-free prefix. */
  lemma NoOccurrenceInBraceFreePrefix(p: string, rest: string, pat: string)
    requires |pat| > 0 && pat[0] == '{' && NoOpenBrace(p)
    ensures forall i :: 0 <= i < |p| ==> !OccursAt(p + rest, pat, i)
  {
    forall i | 0 <= i < |p| ensures !OccursAt(p + rest, pat, i) {
      if i + |pat| <= |p + rest| {
        assert (p + rest)[i..i + |pat|][0] == p[i];
      }
    }
  }

  /** A brace-free string holds no placeholder. */
  lemma BraceFreeHasNoPlaceholder(q: string, pat: string, rep: string)
    requires |pat| > 0 && pat[0] == '{' && NoOpenBrace(q)
    ensures ReplaceAll(q, pat, rep) == q
  {
    NoOccurrenceInBraceFreePrefix(q, "", pat);
    assert q + "" == q;
    ReplaceAllAbsent(q, pat, rep);
  }

  /**
   * As written, a `{{1}}` placeholder keeps its outer braces: the search
   * string is `{1}`, so "…updated to {{1}}." with "shipped" becomes
   * "…updated to {shipped}.".
   */
  lemma SingleBracePlaceholderLeavesBraces(p: string, q: string, v: Value)
    requires NoOpenBrace(p) && NoOpenBrace(q)
    ensures Substitute(p + "{{1}}" + q, [("1", v)]) == p + "{" + ToStr(v) + "}" + q
  {
    var pat := Placeholder("1");
    var rep := ToStr(v);
    assert pat == "{1}";
    var rest := "{{1}}" + q;
    assert p + "{{1}}" + q == p + rest;
    NoOccurrenceInBraceFreePrefix(p, rest, pat);
    ReplaceAllAfterPrefix(p, rest, pat, rep);
    SingleBraceInsideDouble(q, rep);
    var vars := [("1", v)];
    assert vars[1..] == [];
    calc {
      Substitute(p + "{{1}}" + q, vars);
      Substitute(ReplaceAll(p + rest, pat, rep), []);
      p + ReplaceAll(rest, pat, rep);
      p + ("{" + rep + "}" + q);
    }
  }

  /** The `{1}` search inside `{{1}}`: the first brace is skipped, the rest replaced, the last brace kept. */
  lemma SingleBraceInsideDouble(q: string, rep: string)
    requires NoOpenBrace(q)
    ensures ReplaceAll("{{1}}" + q, "{1}", rep) == "{" + rep + "}" + q
  {
    var pat := "{1}";
    var rest := "{{1}}" + q;
    var tail := "}" + q;
    assert rest[..3][1] == '{' && pat[1] == '1';
    assert rest[0] == '{' && rest[1..] == pat + tail;
    assert ReplaceAll(rest, pat, rep) == "{" + ReplaceAll(pat + tail, pat, rep);
    assert (pat + tail)[..3] == pat && (pat + tail)[3..] == tail;
    assert ReplaceAll(pat + tail, pat, rep) == rep + ReplaceAll(tail, pat, rep);
    assert NoOpenBrace(tail) by {
      forall i | 0 <= i < |tail| ensures tail[i] != '{' {
        if i > 0 { assert tail[i] == q[i - 1]; }
      }
    }
    BraceFreeHasNoPlaceholder(tail, pat, rep);
  }

  /** The evident intent of `"{{$key}}"`: the key in double braces. */
  function IntendedPlaceholder(key: string): string
  {
    "{{" + key + "}}"
  }

  /** Substitution with the intended placeholders. */
  function SubstituteIntended(message: string, variables: seq<(string, Value)>): string
    decreases |variables|
  {
    if variables == [] then message
    else SubstituteIntended(
      ReplaceAll(message, IntendedPlaceholder(variables[0].0), ToStr(variables[0].1)), variables[1..])
  }

  /** With the intended placeholder, `{{1}}` is replaced by the value and no brace is left behind. */
  lemma IntendedPlaceholderFilled(p: string, q: string, v: Value)
    requires NoOpenBrace(p) && NoOpenBrace(q)
    ensures SubstituteIntended(p + "{{1}}" + q, [("1", v)]) == p + ToStr(v) + q
  {
    var pat := IntendedPlaceholder("1");
    var rep := ToStr(v);
    assert pat == "{{1}}";
    var rest := "{{1}}" + q;
    assert p + "{{1}}" + q == p + rest;
    NoOccurrenceInBraceFreePrefix(p, rest, pat);
    ReplaceAllAfterPrefix(p, rest, pat, rep);
    assert rest[..5] == pat && rest[5..] == q;
    BraceFreeHasNoPlaceholder(q, pat, rep);
    var vars := [("1", v)];
    assert vars[1..] == [];
    calc {
      SubstituteIntended(p + "{{1}}" + q, vars);
      SubstituteIntended(ReplaceAll(p + rest, pat, rep), []);
      p + ReplaceAll(rest, pat, rep);
      { assert ReplaceAll(rest, pat, rep) == rep + ReplaceAll(q, pat, rep); }
      p + (rep + q);
    }
  }
}
