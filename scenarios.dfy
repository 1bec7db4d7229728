/** The behaviour the repository's unit tests describe, stated over the model. The format
    checks stay uninterpreted: what a test relies on them to say is a `requires`. */
module Scenarios {
  import opened Wrappers
  import opened Exceptions
  import opened NullableStrings
  import opened ValidationErrors
  import opened TypeExtensions
  import opened RulePredicates
  import opened FluentStub
  import opened RuleBuilderExtensions
  import opened RuleBuilderWithExtensions

  /** The test request type: string properties, none of them carrying a JSON name. */
  const DummyRequest := TypeInfo("ByteDev.Validation.Fluent.UnitTests.DummyRequest",
    map["Guid" := [], "GuidWithOverriddenMessage" := [], "GuidOrEmpty" := [], "Url" := [],
        "UrlOrEmpty" := [], "EmailAddress" := [], "EmailAddressOrEmpty" := [], "Digits" := [],
        "DigitsOrEmpty" := [], "In" := [], "InIgnoreCase" := [], "DateTime" := [], "DateTimeOrEmpty" := []])

  /** The valid items of the `IsIn` rules: "A", "B", "C", "" and null. */
  const ValidItems: seq<NString> := [Str("A"), Str("B"), Str("C"), Str(""), Null]

  function AsciiLower(c: char): char {
    if 'A' <= c <= 'Z' then (c as int + 32) as char else c
  }

  /** Case-insensitive equality on ASCII letters, standing in for `StringComparer.InvariantCultureIgnoreCase`. */
  function IgnoreCaseEquals(a: NString, b: NString): bool {
    match (a, b)
    case (Null, Null) => true
    case (Str(x), Str(y)) => |x| == |y| && forall i :: 0 <= i < |x| ==> AsciiLower(x[i]) == AsciiLower(y[i])
    case _ => false
  }

  /** `IsIn` without a comparer: "D" is rejected, the listed values (null and "" among them) pass. */
  lemma IsInExamples(fc: FormatChecks)
    ensures !Passes(fc, Check.IsIn(ValidItems), Str("D"))
    ensures Passes(fc, Check.IsIn(ValidItems), Null)
    ensures Passes(fc, Check.IsIn(ValidItems), Str(""))
    ensures Passes(fc, Check.IsIn(ValidItems), Str("A"))
    ensures !Passes(fc, Check.IsIn(ValidItems), Str("a"))
  {
    IsInIff(fc, ValidItems, Str("D"));
    IsInIff(fc, ValidItems, Str("a"));
  }

  /** `IsIn` with the case-insensitive comparer: "a", "b", "c", "" and null pass, "D" does not. */
  lemma IsInIgnoreCaseExamples(fc: FormatChecks, comparer: EqualityComparer)
    requires comparer.equals == IgnoreCaseEquals
    ensures Passes(fc, IsInWith(ValidItems, comparer), Str("a"))
    ensures Passes(fc, IsInWith(ValidItems, comparer), Str("b"))
    ensures Passes(fc, IsInWith(ValidItems, comparer), Str("c"))
    ensures Passes(fc, IsInWith(ValidItems, comparer), Str(""))
    ensures Passes(fc, IsInWith(ValidItems, comparer), Null)
    ensures !Passes(fc, IsInWith(ValidItems, comparer), Str("D"))
  {
    assert IgnoreCaseEquals(Str("A"), Str("a"));
    assert IgnoreCaseEquals(Str("B"), Str("b"));
    assert IgnoreCaseEquals(Str("C"), Str("c"));
    assert AsciiLower("A"[0]) != AsciiLower("D"[0]);
    assert AsciiLower("B"[0]) != AsciiLower("D"[0]);
    assert AsciiLower("C"[0]) != AsciiLower("D"[0]);
  }

  /** `Url = null` against `IsUrl().WithValidationError(new ValidationError("100", "Custom error message"))`
      gives one failure with that code, that message and the property `Url`; a valid URL gives none. */
  method UrlValidationErrorScenario(fc: FormatChecks) returns (invalid: ValidationResult, valid: ValidationResult)
    requires !fc.isHttpUrl(Null)
    requires fc.isHttpUrl(Str("http://www.google.com/"))
    ensures !invalid.IsValid()
    ensures invalid.errors == [ValidationFailure("Url", Some("Custom error message"), Some("100"),
                                                 Some(ValidationError("100", "Custom error message", Str(""))))]
    ensures valid.IsValid()
  {
    var rule := new Rule(DummyRequest, "Url");
    IsUrl(rule);
    var err := Create("100", "Custom error message");
    var outcome := WithValidationError(rule, err, false, None);
    assert outcome == Pass;
    var bound := rule.components[0];
    invalid := Validate(fc, [rule], _ => Null);
    ValidateSingleRule(fc, rule, _ => Null);
    SingleComponentFailures(fc, bound, "Url", Null);
    var url: Instance := p => if p == "Url" then Str("http://www.google.com/") else Null;
    valid := Validate(fc, [rule], url);
    ValidateSingleRule(fc, rule, url);
    SingleComponentFailures(fc, bound, "Url", url("Url"));
  }

  /** `IsGuid().WithMessage("This is a overridden message")` reports the overriding text. */
  method OverriddenMessageScenario(fc: FormatChecks) returns (result: ValidationResult)
    requires !fc.isGuid(Str("a"))
    ensures result.errors == [ValidationFailure("GuidWithOverriddenMessage", Some("This is a overridden message"), None, None)]
  {
    var rule := new Rule(DummyRequest, "GuidWithOverriddenMessage");
    IsGuid(rule);
    rule.WithMessage("This is a overridden message");
    var request: Instance := p => if p == "GuidWithOverriddenMessage" then Str("a") else Null;
    result := Validate(fc, [rule], request);
    ValidateSingleRule(fc, rule, request);
    SingleComponentFailures(fc, rule.components[0], rule.member, request(rule.member));
  }

  /** With `useJsonPropertyName` and an error naming a property annotated `url`, failures report `url`;
      with an override type, that type is the one searched. */
  method JsonPropertyNameScenario(fc: FormatChecks) returns (result: ValidationResult, nested: ValidationResult)
    requires !fc.isHttpUrl(Null)
    ensures result.errors == [ValidationFailure("url", Some("Custom error message"), Some("100"),
                                                Some(ValidationError("100", "Custom error message", Str("Url"))))]
    ensures nested.errors == [ValidationFailure("parent_url", Some("Custom error message"), Some("100"),
                                                Some(ValidationError("100", "Custom error message", Str("Url"))))]
  {
    var annotated := TypeInfo("Request", map["Url" := ["url"]]);
    var parent := TypeInfo("ParentRequest", map["Url" := ["parent_url"]]);
    var err := CreateWithPropertyName("100", "Custom error message", Str("Url"));

    var rule := new Rule(annotated, "Url");
    IsUrl(rule);
    var outcome := WithValidationError(rule, err, true, None);
    assert outcome == Pass;
    result := Validate(fc, [rule], _ => Null);
    ValidateSingleRule(fc, rule, _ => Null);
    SingleComponentFailures(fc, rule.components[0], "url", Null);

    var child := new Rule(annotated, "Url");
    IsUrl(child);
    outcome := WithValidationError(child, err, true, Some(parent));
    assert outcome == Pass;
    nested := Validate(fc, [child], _ => Null);
    ValidateSingleRule(fc, child, _ => Null);
    SingleComponentFailures(fc, child.components[0], "parent_url", Null);
  }

  /** Naming a property the type does not have throws and leaves the rule as it was. */
  method MissingPropertyScenario() returns (outcome: Outcome<Exception>, components: seq<Component>)
    ensures outcome == Fail(InvalidOperationException(NoSuchPropertyMessage("Missing", "Request")))
    ensures components == [BuiltComponent(Is(HttpUrl))]
  {
    var rule := new Rule(TypeInfo("Request", map["Url" := []]), "Url");
    IsUrl(rule);
    outcome := WithValidationError(rule, CreateWithPropertyName("100", "m", Str("Missing")), true, None);
    components := rule.components;
  }

  /** `GuidOrEmpty` passes on null and "" whatever the GUID check says, and its failure text is the GUID one. */
  method GuidOrEmptyScenario(fc: FormatChecks) returns (onNull: ValidationResult, onEmpty: ValidationResult, onA: ValidationResult)
    requires !fc.isGuid(Str("a"))
    ensures onNull.IsValid() && onEmpty.IsValid()
    ensures onA.errors == [ValidationFailure("GuidOrEmpty", Some("{PropertyName} must be a valid GUID."), None, None)]
  {
    var rule := new Rule(DummyRequest, "GuidOrEmpty");
    IsGuidOrEmpty(rule);
    var c := rule.components[0];
    DefaultMessageTexts([]);
    onNull := Validate(fc, [rule], _ => Null);
    ValidateSingleRule(fc, rule, _ => Null);
    SingleComponentFailures(fc, c, "GuidOrEmpty", Null);
    onEmpty := Validate(fc, [rule], _ => Str(""));
    ValidateSingleRule(fc, rule, _ => Str(""));
    SingleComponentFailures(fc, c, "GuidOrEmpty", Str(""));
    onA := Validate(fc, [rule], _ => Str("a"));
    ValidateSingleRule(fc, rule, _ => Str("a"));
    SingleComponentFailures(fc, c, "GuidOrEmpty", Str("a"));
  }

  /** The properties the test validator checks, in declaration order (its two date-time rules
      are not part of this model). */
  const Members: seq<string> := ["Guid", "GuidWithOverriddenMessage", "GuidOrEmpty", "Url", "UrlOrEmpty",
    "EmailAddress", "EmailAddressOrEmpty", "Digits", "DigitsOrEmpty", "In", "InIgnoreCase"]

  /** The check each of those rules runs; `comparer` is the case-insensitive one of the last rule. */
  function DummyChecks(comparer: EqualityComparer): (checks: seq<Check>)
    ensures |checks| == |Members|
  {
    [Is(Guid), Is(Guid), IsOrEmpty(Guid), Is(HttpUrl), IsOrEmpty(HttpUrl), Is(EmailAddress),
     IsOrEmpty(EmailAddress), Is(Digits), IsOrEmpty(Digits), Check.IsIn(ValidItems), IsInWith(ValidItems, comparer)]
  }

  /** The one component of rule `k`: the builder's own, except that rule 1 overrides its message. */
  function DummyComponent(comparer: EqualityComparer, k: nat): (c: Component)
    requires k < |Members|
    ensures c.check == DummyChecks(comparer)[k] && c.code.None? && c.customState.None?
    ensures c.message == Some(if k == 1 then "This is a overridden message" else DefaultMessage(DummyChecks(comparer)[k]))
  {
    if k == 1 then Component(Is(Guid), Some("This is a overridden message"), None, None)
    else BuiltComponent(DummyChecks(comparer)[k])
  }

  /** `RuleFor(r => r.<member>)` on the test validator followed by one rule builder. */
  method NewRule(member: string, check: Check) returns (rule: Rule)
    ensures fresh(rule) && rule.ownerType == DummyRequest && rule.member == member
    ensures rule.components == [BuiltComponent(check)] && rule.propertyNameOverride == None
  {
    rule := new Rule(DummyRequest, member);
    MustWithMessage(rule, check);
  }

  /** The rules of the test validator for `DummyRequest`, in declaration order. */
  method DummyRequestValidator(comparer: EqualityComparer) returns (rules: seq<Rule>)
    ensures |rules| == |Members|
    ensures forall j :: 0 <= j < |rules| ==>
      && rules[j].ownerType == DummyRequest
      && rules[j].member == Members[j]
      && rules[j].components == [DummyComponent(comparer, j)]
      && rules[j].propertyNameOverride == None
  {
    var guid := NewRule("Guid", Is(Guid));
    var overridden := NewRule("GuidWithOverriddenMessage", Is(Guid));
    overridden.WithMessage("This is a overridden message");
    var guidOrEmpty := NewRule("GuidOrEmpty", IsOrEmpty(Guid));
    var url := NewRule("Url", Is(HttpUrl));
    var urlOrEmpty := NewRule("UrlOrEmpty", IsOrEmpty(HttpUrl));
    var email := NewRule("EmailAddress", Is(EmailAddress));
    var emailOrEmpty := NewRule("EmailAddressOrEmpty", IsOrEmpty(EmailAddress));
    var digits := NewRule("Digits", Is(Digits));
    var digitsOrEmpty := NewRule("DigitsOrEmpty", IsOrEmpty(Digits));
    var isIn := NewRule("In", Check.IsIn(ValidItems));
    var inIgnoreCase := NewRule("InIgnoreCase", IsInWith(ValidItems, comparer));
    rules := [guid, overridden, guidOrEmpty, url, urlOrEmpty, email, emailOrEmpty, digits, digitsOrEmpty, isIn, inIgnoreCase];
  }

  /** `DummyRequest.CreateValid()`; `guid` stands for the freshly generated GUID text. */
  function CreateValid(guid: string): Instance {
    p =>
      if p == "Guid" || p == "GuidWithOverriddenMessage" || p == "GuidOrEmpty" then Str(guid)
      else if p == "Url" || p == "UrlOrEmpty" then Str("http://localhost/")
      else if p == "EmailAddress" || p == "EmailAddressOrEmpty" then Str("someone@somewhere.com")
      else if p == "Digits" || p == "DigitsOrEmpty" then Str("0123")
      else if p == "DateTime" || p == "DateTimeOrEmpty" then Str("2000-01-01T12:00:00")
      else Null
  }

  /** The valid request with property `Members[k]` set to `value`, as each test does. */
  function Request(guid: string, k: nat, value: NString): Instance
    requires k < |Members|
  {
    p => if p == Members[k] then value else CreateValid(guid)(p)
  }

  /** What the tests rely on the format checks to say about `DummyRequest.CreateValid()`. */
  predicate AcceptsValidRequest(fc: FormatChecks, guid: string) {
    && fc.isGuid(Str(guid))
    && fc.isHttpUrl(Str("http://localhost/"))
    && fc.isEmailAddress(Str("someone@somewhere.com"))
    && fc.isDigits(Str("0123"))
  }

  /** The eleven property names are pairwise distinct. */
  lemma MembersDistinct(j: nat, k: nat)
    requires j < |Members| && k < |Members| && j != k
    ensures Members[j] != Members[k]
  {
    if |Members[j]| == |Members[k]| {
      assert {j, k} == {5, 10};
      assert Members[5][0] != Members[10][0];
    }
  }

  /** Rule `j` of the test validator passes on its property of the valid request. */
  lemma ValidValuePasses(fc: FormatChecks, guid: string, comparer: EqualityComparer, j: nat)
    requires AcceptsValidRequest(fc, guid) && comparer.equals == IgnoreCaseEquals
    requires j < |Members|
    ensures Passes(fc, DummyChecks(comparer)[j], CreateValid(guid)(Members[j]))
  {
    var request := CreateValid(guid);
    if j <= 2 {
      assert request(Members[j]) == Str(guid);
    } else if j <= 4 {
      assert request(Members[j]) == Str("http://localhost/");
    } else if j <= 6 {
      assert request(Members[j]) == Str("someone@somewhere.com");
    } else if j <= 8 {
      assert request(Members[j]) == Str("0123");
    } else if j == 9 {
      assert request(Members[j]) == Null;
      IsInExamples(fc);
    } else {
      assert request(Members[j]) == Null;
      IsInIgnoreCaseExamples(fc, comparer);
    }
  }

  /** Setting one property `Members[k]` of the valid request to `value`: the result is valid exactly
      when rule `k`'s check accepts `value`, and otherwise rule `k`'s failure, with its template
      (or the overriding text of rule 1), is the only one. With `value` the valid request's own
      value this is the valid request itself. */
  method RequestScenario(fc: FormatChecks, guid: string, comparer: EqualityComparer, k: nat, value: NString)
    returns (result: ValidationResult)
    requires AcceptsValidRequest(fc, guid) && comparer.equals == IgnoreCaseEquals
    requires k < |Members|
    ensures result.IsValid() <==> Passes(fc, DummyChecks(comparer)[k], value)
    ensures !Passes(fc, DummyChecks(comparer)[k], value) ==>
      result.errors == [ValidationFailure(Members[k], DummyComponent(comparer, k).message, None, None)]
  {
    var rules := DummyRequestValidator(comparer);
    var request := Request(guid, k, value);
    forall j, i | 0 <= j < |rules| && j != k && 0 <= i < |rules[j].components|
      ensures Passes(fc, rules[j].components[i].check, request(rules[j].member))
    {
      MembersDistinct(j, k);
      ValidValuePasses(fc, guid, comparer, j);
    }
    FailuresOfOneRule(fc, rules, request, k);
    SingleComponentFailures(fc, rules[k].components[0], Members[k], value);
    result := Validate(fc, rules, request);
  }

  /** Three of the per-property tests: `Url = null` gives the URL template, `DigitsOrEmpty = "A1"`
      the digits "or not set" template and `In = "D"` the set-of-values template, each alone. */
  method PerPropertyScenarios(fc: FormatChecks, guid: string)
    returns (urlNull: ValidationResult, digitsA1: ValidationResult, inD: ValidationResult)
    requires AcceptsValidRequest(fc, guid)
    requires !fc.isHttpUrl(Null) && !fc.isDigits(Str("A1"))
    ensures urlNull.errors == [ValidationFailure("Url", Some("{PropertyName} must be a valid HTTP URL."), None, None)]
    ensures digitsA1.errors == [ValidationFailure("DigitsOrEmpty", Some("{PropertyName} must contain only digits or not set."), None, None)]
    ensures inD.errors == [ValidationFailure("In", Some("{PropertyName} must contain one of the defined set of values."), None, None)]
  {
    var comparer := new EqualityComparer(IgnoreCaseEquals);
    DefaultMessageTexts(ValidItems);
    IsInExamples(fc);
    urlNull := RequestScenario(fc, guid, comparer, 3, Null);
    digitsA1 := RequestScenario(fc, guid, comparer, 8, Str("A1"));
    inD := RequestScenario(fc, guid, comparer, 9, Str("D"));
  }

  /** The valid request passes every rule of the test validator. */
  method ValidRequestScenario(fc: FormatChecks, guid: string) returns (result: ValidationResult)
    requires AcceptsValidRequest(fc, guid)
    ensures result.IsValid()
  {
    var comparer := new EqualityComparer(IgnoreCaseEquals);
    result := RequestScenario(fc, guid, comparer, 3, Str("http://localhost/"));
  }
}
