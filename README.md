# ByteDev.Validation.Fluent, modelled in Dafny

ByteDev.Validation.Fluent adds a few rule builders to a fluent validation library:

- checks that a string property is a GUID, an HTTP URL, an email address, only digits, or one of a set of values;
- an "OrEmpty" variant of each format check, which lets null and "" through;
- `WithValidationError`, which attaches an error code, a message and the object itself as custom state to the rule's current validator. It can also rename the property a failure reports: the new name is the JSON name of the property `ValidationError.PropertyName` on the validated type or on an override type, or that property's declared name when it carries no JSON name. That name can differ from the member the rule validates.

The model covers that core:

- `RulePredicates` holds the checks as functions of a nullable string and the default message templates.
- `RuleBuilderExtensions` holds the builders, as methods that append a component to a rule.
- `ValidationErrors` holds the error value and its two constructors.
- `MemberInfoExtensions` and `TypeExtensions` hold the JSON-name resolver. Its guards and exceptions are those of the source. Reflection is replaced by an explicit table: type → property name → JSON-name attributes.
- `RuleBuilderWithExtensions` holds the error binding, as a method on a rule object.

`FluentStub` is a minimal stand-in for the library. It has a rule class with an optional property-name override and a list of components, and a validator that runs every component of every rule in order. `Scenarios` restates the repository's unit tests over the model, except those of the date-time rules.

C# `null` strings are `NString.Null`. Thrown exceptions are `Result.Failure` or `Outcome.Fail` values that carry the exception's kind, parameter name and message. The four format checks come from `ByteDev.Strings`, which is not part of this model. They are a `FormatChecks` record of uninterpreted functions. Whatever a test assumes about them (for example that null is not a URL) is a `requires` of that scenario.

About the error cases and the order of configuration calls:

- A resolver failure is one of three exceptions: null type, null or empty name, missing property. A fourth comes from `Single()` when a property has several JSON-name attributes.
- `ValidationError.PropertyName` may be null as well as empty. Both count as "not set".
- A later `WithMessage` on the same rule overwrites the current component's message, even after `WithValidationError`.

## Model

| member | source | states |
|---|---|---|
| ValidationErrors.Create | src/ByteDev.Validation.Fluent/ValidationError.cs:13-16 | code and message are stored, the property name is "", and `IsPropertyNameSet` is false |
| ValidationErrors.CreateWithPropertyName | src/ByteDev.Validation.Fluent/ValidationError.cs:24-29 | all three arguments are stored unchanged; the name counts as set iff it is non-null and non-empty |
| ValidationErrors.TwoArgumentConstructorLeavesNameUnset | src/ByteDev.Validation.Fluent/ValidationError.cs:13-16 | the two-argument constructor is the three-argument one given "" and never sets a name |
| ValidationErrors.IsPropertyNameSetIff | src/ByteDev.Validation.Fluent/ValidationError.cs:46 | `IsPropertyNameSet` is false exactly for a null or empty name |
| ValidationErrors.IsPropertyNameSet | src/ByteDev.Validation.Fluent/ValidationError.cs:46 | when true, the property name is a non-empty string (the converse is `IsPropertyNameSetIff`) |
| RulePredicates.OrEmpty | src/ByteDev.Validation.Fluent/RuleBuilderExtensions.cs:34-40 | the OrEmpty lambda: null or "" passes, and a rejection means the base check rejected the value (the converse is `OrEmptyDelegates`) |
| RulePredicates.Passes | src/ByteDev.Validation.Fluent/RuleBuilderExtensions.cs:19-174 | the lambda each builder hands to `Must`: every `...OrEmpty` check passes null and "" (membership checks are characterised by `IsInIff` and `IsInWithIff`) |
| RulePredicates.Contains | src/ByteDev.Validation.Fluent/RuleBuilderExtensions.cs:173 | `Enumerable.Contains`: an empty list never matches, and a match at the first item is found without looking further (fully characterised by `ContainsIff`) |
| RulePredicates.ComparerEquals | src/ByteDev.Validation.Fluent/RuleBuilderExtensions.cs:173 | a null comparer means default equality, otherwise the comparer's `Equals` (see `NullComparerIsDefault`) |
| RuleBuilderExtensions.MustWithMessage | src/ByteDev.Validation.Fluent/RuleBuilderExtensions.cs:19-21 | `Must(check).WithMessage(template)` appends the check's component with its default template and keeps the override |
| TypeExtensions.NoSuchPropertyMessage | src/ByteDev.Validation.Fluent/TypeExtensions.cs:19 | the missing-property message names the property right after its opening quote and the type's full name right before the closing full stop |
| MemberInfoExtensions.GetAttribute | src/ByteDev.Validation.Fluent/MemberInfoExtensions.cs:20-30 | no attribute gives null, one attribute gives it, and several make `Single()` throw `InvalidOperationException` (each is an iff) |
| MemberInfoExtensions.GetJsonPropertyNameOrDefault | src/ByteDev.Validation.Fluent/MemberInfoExtensions.cs:10-18 | a null member throws `ArgumentNullException("source")`; otherwise the result is the member's name when unannotated, its JSON name when annotated once, and the `Single()` error otherwise |
| MemberInfoExtensions.JsonNameOrDefaultIsDeclaredOrAnnotated | src/ByteDev.Validation.Fluent/MemberInfoExtensions.cs:15-17 | a resolved name is always the declared name or one of the member's JSON names |
| TypeExtensions.GetProperty | src/ByteDev.Validation.Fluent/TypeExtensions.cs:15 | a property is found iff the type declares that exact name, and it is returned with that name and its attributes |
| TypeExtensions.GetJsonPropertyName | src/ByteDev.Validation.Fluent/TypeExtensions.cs:7-23 | null type gives `ArgumentNullException`; null or empty name gives `ArgumentException`; a missing property gives `InvalidOperationException` naming the property and the type; otherwise it delegates to the property's JSON-name-or-default |
| TypeExtensions.ResolvesIff | src/ByteDev.Validation.Fluent/TypeExtensions.cs:9-22 | resolution succeeds iff the type is non-null, the name is set, the property exists and has at most one JSON name |
| TypeExtensions.UnannotatedResolvesToItself | src/ByteDev.Validation.Fluent/TypeExtensions.cs:22 | an existing property without a JSON-name attribute resolves to the name it was looked up by |
| TypeExtensions.AnnotatedResolvesToJsonName | src/ByteDev.Validation.Fluent/TypeExtensions.cs:22 | an existing property with one JSON-name attribute resolves to that attribute's name |
| TypeExtensions.GuardOrder | src/ByteDev.Validation.Fluent/TypeExtensions.cs:9-20 | the type guard is checked before the name guard, and both before the existence check |
| RulePredicates.OrEmptyAcceptsNullAndEmpty | src/ByteDev.Validation.Fluent/RuleBuilderExtensions.cs:34-40 | every OrEmpty check passes on null and on "" whatever its base check says |
| RulePredicates.OrEmptyDelegates | src/ByteDev.Validation.Fluent/RuleBuilderExtensions.cs:68-74 | on a non-empty string every OrEmpty check decides exactly as its base check |
| RulePredicates.ContainsIff | src/ByteDev.Validation.Fluent/RuleBuilderExtensions.cs:173 | the in-order search `Contains(items, value, comparer)` succeeds iff some item equals the value under the comparer |
| RulePredicates.IsInIff | src/ByteDev.Validation.Fluent/RuleBuilderExtensions.cs:157 | `IsIn` without a comparer passes iff the value is one of the items, null included when null is listed; this is the source's behaviour for items whose own `Contains` is default equality, such as arrays and `List<string>` |
| RulePredicates.IsInWithIff | src/ByteDev.Validation.Fluent/RuleBuilderExtensions.cs:170-175 | `IsIn` with a comparer passes iff some item is equal to the value under that comparer |
| RulePredicates.NullComparerIsDefault | src/ByteDev.Validation.Fluent/RuleBuilderExtensions.cs:173 | a null comparer decides as the overload without one, for items whose own `Contains` is default equality, such as arrays and `List<string>` |
| RulePredicates.OrEmptyMessages | src/ByteDev.Validation.Fluent/RuleBuilderExtensions.cs:21-143 | `IsGuidOrEmpty` reuses the `IsGuid` text; the Url, Email and Digits OrEmpty texts are the base text with " or not set" before the full stop |
| RulePredicates.DefaultMessageTexts | src/ByteDev.Validation.Fluent/RuleBuilderExtensions.cs:17-159 | each builder's `WithMessage` template, as `DefaultMessage` gives it, written out in full |
| RulePredicates.IsInMessagesAgree | src/ByteDev.Validation.Fluent/RuleBuilderExtensions.cs:158-174 | both `IsIn` overloads attach the same template |
| FluentStub.Rule.Must | src/ByteDev.Validation.Fluent/RuleBuilderExtensions.cs:20 | `Must` appends one component, with the library defaults, and changes nothing else |
| FluentStub.Rule.WithMessage | tests/ByteDev.Validation.Fluent.UnitTests/RuleBuilderExtensionsTests.cs:376-378 | `WithMessage` replaces only the current component's message |
| FluentStub.Rule.OverridePropertyName | src/ByteDev.Validation.Fluent/RuleBuilderWithExtensions.cs:30 | `OverridePropertyName` sets the reported name and leaves the components alone |
| FluentStub.Rule.ConfigureCurrent | src/ByteDev.Validation.Fluent/RuleBuilderWithExtensions.cs:35-41 | `Configure` sets message, code and custom state of the current component only |
| FluentStub.ComponentFailures | tests/ByteDev.Validation.Fluent.UnitTests/ValidatorTestBase.cs:9-15 | at most one failure per component; none iff every component passes; each failure reports the rule's property name |
| FluentStub.ValidIff | tests/ByteDev.Validation.Fluent.UnitTests/RuleBuilderExtensionsTests.cs:23-29 | a result is valid iff every component of every rule passes on its property's value |
| FluentStub.AllFailuresAppend | tests/ByteDev.Validation.Fluent.UnitTests/RuleBuilderExtensionsTests.cs:369-413 | failures of rules run one after another are the concatenation, in declaration order |
| FluentStub.FailuresOfOneRule | tests/ByteDev.Validation.Fluent.UnitTests/RuleBuilderExtensionsTests.cs:93-101 | when all rules but one pass, the failures are exactly that rule's |
| FluentStub.ValidateSingleRule | tests/ByteDev.Validation.Fluent.UnitTests/RuleBuilderWithExtensionsTests.cs:33-41 | a validator with one rule reports that rule's failures |
| FluentStub.SingleComponentFailures | tests/ByteDev.Validation.Fluent.UnitTests/ValidatorTestBase.cs:11-14 | a lone component reports one failure with its message, code and state iff its check fails |
| RuleBuilderExtensions.BuiltComponent | src/ByteDev.Validation.Fluent/RuleBuilderExtensions.cs:19-21 | a builder's component carries its check and its default template, and no code or state |
| RuleBuilderExtensions.IsGuid | src/ByteDev.Validation.Fluent/RuleBuilderExtensions.cs:17-22 | appends the GUID check with the GUID template |
| RuleBuilderExtensions.IsGuidOrEmpty | src/ByteDev.Validation.Fluent/RuleBuilderExtensions.cs:31-42 | appends the GUID-or-empty check with the GUID template |
| RuleBuilderExtensions.IsUrl | src/ByteDev.Validation.Fluent/RuleBuilderExtensions.cs:51-56 | appends the HTTP URL check with its template |
| RuleBuilderExtensions.IsUrlOrEmpty | src/ByteDev.Validation.Fluent/RuleBuilderExtensions.cs:65-76 | appends the URL-or-empty check with the "or not set" template |
| RuleBuilderExtensions.IsEmailAddress | src/ByteDev.Validation.Fluent/RuleBuilderExtensions.cs:85-90 | appends the email check with its template |
| RuleBuilderExtensions.IsEmailAddressOrEmpty | src/ByteDev.Validation.Fluent/RuleBuilderExtensions.cs:99-110 | appends the email-or-empty check with the "or not set" template |
| RuleBuilderExtensions.IsDigits | src/ByteDev.Validation.Fluent/RuleBuilderExtensions.cs:119-124 | appends the digits check with its template |
| RuleBuilderExtensions.IsDigitsOrEmpty | src/ByteDev.Validation.Fluent/RuleBuilderExtensions.cs:133-144 | appends the digits-or-empty check with the "or not set" template |
| RuleBuilderExtensions.IsIn | src/ByteDev.Validation.Fluent/RuleBuilderExtensions.cs:154-159 | appends the membership check over the given items with the set-of-values template |
| RuleBuilderExtensions.IsInWithComparer | src/ByteDev.Validation.Fluent/RuleBuilderExtensions.cs:170-175 | appends the membership check under the given comparer with the same template |
| RuleBuilderExtensions.WithMessageReplacesDefault | tests/ByteDev.Validation.Fluent.UnitTests/RuleBuilderExtensionsTests.cs:48-57 | a failing builder reports its default template, and after a later `WithMessage` it reports that text instead |
| RuleBuilderWithExtensions.ResolveOverride | src/ByteDev.Validation.Fluent/RuleBuilderWithExtensions.cs:27-33 | no override unless `useJsonPropertyName` and the name is set; then the name is resolved against the override type if given, else against the rule's type, and resolver exceptions propagate |
| RuleBuilderWithExtensions.OverrideErrorIsInvalidOperation | src/ByteDev.Validation.Fluent/RuleBuilderWithExtensions.cs:27-32 | the only exception the override can raise is `InvalidOperationException` |
| RuleBuilderWithExtensions.UnannotatedOverrideKeepsName | src/ByteDev.Validation.Fluent/RuleBuilderWithExtensions.cs:29-32 | for an unannotated property the override is the error's own property name, on either type |
| RuleBuilderWithExtensions.BindCurrent | src/ByteDev.Validation.Fluent/RuleBuilderWithExtensions.cs:35-41 | the current component takes the error's message and code and the error as custom state; earlier components are unchanged |
| RuleBuilderWithExtensions.BindingOverridesEarlierMessage | src/ByteDev.Validation.Fluent/RuleBuilderWithExtensions.cs:37-38 | an earlier `WithMessage` makes no difference once the error is bound |
| RuleBuilderWithExtensions.WithValidationError | src/ByteDev.Validation.Fluent/RuleBuilderWithExtensions.cs:22-42 | a resolver exception leaves the rule unchanged; otherwise the override is set as `ResolveOverride` decides and the components are `BindCurrent` of the old ones |
| Scenarios.IsInExamples | tests/ByteDev.Validation.Fluent.UnitTests/RuleBuilderExtensionsTests.cs:224-232 | against {"A","B","C","",null}: "D" and "a" fail; "A", "" and null pass |
| Scenarios.IsInIgnoreCaseExamples | tests/ByteDev.Validation.Fluent.UnitTests/RuleBuilderExtensionsTests.cs:248-271 | with case-insensitive equality, "a", "b", "c", "" and null pass and "D" fails |
| Scenarios.UrlValidationErrorScenario | tests/ByteDev.Validation.Fluent.UnitTests/RuleBuilderWithExtensionsTests.cs:17-31 | `Url = null` gives exactly one failure: code "100", "Custom error message", property "Url", the error as state; a valid URL gives none |
| Scenarios.OverriddenMessageScenario | tests/ByteDev.Validation.Fluent.UnitTests/RuleBuilderExtensionsTests.cs:48-57 | the overriding message is the one reported |
| Scenarios.JsonPropertyNameScenario | src/ByteDev.Validation.Fluent/RuleBuilderWithExtensions.cs:27-32 | with `useJsonPropertyName`, failures report the JSON name, taken from the override type when one is given |
| Scenarios.MissingPropertyScenario | src/ByteDev.Validation.Fluent/TypeExtensions.cs:15-20 | naming a missing property throws the "No property called" exception and leaves the rule's components as they were |
| Scenarios.GuidOrEmptyScenario | tests/ByteDev.Validation.Fluent.UnitTests/RuleBuilderExtensionsTests.cs:61-83 | null and "" pass whatever the GUID check says; "a" fails with the GUID template |
| Scenarios.DummyChecks | tests/ByteDev.Validation.Fluent.UnitTests/RuleBuilderExtensionsTests.cs:373-405 | the check of each of the test validator's eleven non-date rules, in order |
| Scenarios.DummyComponent | tests/ByteDev.Validation.Fluent.UnitTests/RuleBuilderExtensionsTests.cs:373-405 | each rule's component: its check, its builder's template (the overriding text for `GuidWithOverriddenMessage`), no code or state |
| Scenarios.DummyRequestValidator | tests/ByteDev.Validation.Fluent.UnitTests/RuleBuilderExtensionsTests.cs:369-406 | rule `j` is bound to `Members[j]` on `DummyRequest`, has exactly the component `DummyComponent(j)` and no override |
| Scenarios.MembersDistinct | tests/ByteDev.Validation.Fluent.UnitTests/RuleBuilderExtensionsTests.cs:320-346 | the eleven validated property names are pairwise distinct |
| Scenarios.ValidValuePasses | tests/ByteDev.Validation.Fluent.UnitTests/RuleBuilderExtensionsTests.cs:348-366 | each rule passes on its property of `CreateValid()`, given what the tests assume of the format checks |
| Scenarios.RequestScenario | tests/ByteDev.Validation.Fluent.UnitTests/RuleBuilderExtensionsTests.cs:31-272 | setting one property of the valid request to any value (null included): valid iff that rule's check accepts it, otherwise that rule's failure with its template is the only one |
| Scenarios.PerPropertyScenarios | tests/ByteDev.Validation.Fluent.UnitTests/RuleBuilderExtensionsTests.cs:89-101 | `Url = null`, `DigitsOrEmpty = "A1"` and `In = "D"` each give exactly one failure, with the URL, digits-or-not-set and set-of-values templates |
| Scenarios.ValidRequestScenario | tests/ByteDev.Validation.Fluent.UnitTests/RuleBuilderExtensionsTests.cs:23-29 | the valid request passes every rule |

## Left out

- The format checks of `ByteDev.Strings` (`IsGuid`, `IsHttpUrl`, `IsEmailAddress`, `IsDigits`) are uninterpreted functions. No GUID, URL or email grammar is modelled.
- `StringExtensions.IsDateTime` is not modelled. It wraps the culture-aware `DateTime.TryParseExact`. The date-time rule builders the tests call are not among the rule builders modelled here.
- The library substitutes `{PropertyName}` in a message with a display name split into words ("GuidOrEmpty" becomes "Guid Or Empty"). The model does not: failures carry the raw template.
- The library's own default message, error code and custom state for `Must` are not modelled. They appear as `None`.
- FluentValidation's storage of options, rule execution, cascade modes and error aggregation are reduced to `FluentStub`. Every component runs in order.
- RuleBuilderExtensions.IsIn: the source keeps a reference to the caller's `IEnumerable<string>` and enumerates it again each time the rule runs. A list changed after the rule is built, or a lazy sequence, changes which values pass. The model takes the items as a value when the rule is built, so it does not capture that aliasing. The same holds for `RuleBuilderExtensions.IsInWithComparer`.
- RuleBuilderExtensions.IsIn / RulePredicates.NullComparerIsDefault: the overload without a comparer calls the two-argument `Enumerable.Contains`, which hands over to the collection's own `Contains` when the items are an `ICollection<string>`. A `HashSet<string>` built with a case-insensitive comparer then accepts "a" for {"A"}, and `Dictionary.Keys` throws `ArgumentNullException` on a null value. The three-argument call with a null comparer always searches with default equality. The model searches with default equality in both cases, so `RulePredicates.IsInIff` and `RulePredicates.NullComparerIsDefault` describe the source only for items whose `Contains` is default equality, such as arrays and `List<string>`.
- `RuleBuilderExtensions.IsIn`, `RuleBuilderExtensions.IsInWithComparer`: a null `validItems` collection is not modelled. It would throw when the rule runs.
- `RuleBuilderWithExtensions.WithValidationError`: a null `validationError` is not modelled. Its `requires` asks for a current component, which is what an `IRuleBuilderOptions` always has. It returns exceptions as `Outcome.Fail` instead of throwing them.
- `RuleBuilderWithExtensions.BindCurrent`: the source stores a provider `c => validationError` that returns the same object. The model stores the error value itself.
- `ValidationErrors.ValidationError`: `Code` and `Message` are non-null strings here. A null code or message is not modelled.
- `TypeExtensions.GetProperty` looks properties up by exact name in a table. Reflection's binding flags and its ambiguous-match exception are not modelled.
- `MemberInfoExtensions.GetAttribute` takes as given the `JsonPropertyNameAttribute`s that `GetCustomAttributes(…, true)` returns. A null attribute name is not modelled.
- `Scenarios.IgnoreCaseEquals` is case-insensitive on ASCII letters only. It stands in for `StringComparer.InvariantCultureIgnoreCase`, whose culture rules are not modelled.
- `Guid.NewGuid()` in the test request is a parameter (`guid`). Assumptions about it are `requires`.
