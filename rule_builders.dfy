/** The rule builders: each appends a component with its check and sets that component's
    default message, as `Must(...).WithMessage(...)` does. */
module RuleBuilderExtensions {
  import opened Wrappers
  import opened NullableStrings
  import opened RulePredicates
  import opened FluentStub

  /** The component a builder for `check` appends. */
  function BuiltComponent(check: Check): (c: Component)
    ensures c.check == check && c.message == Some(DefaultMessage(check))
    ensures c.code.None? && c.customState.None?
  {
    Component(check, Some(DefaultMessage(check)), None, None)
  }

  method MustWithMessage(r: Rule, check: Check)
    modifies r
    ensures r.components == old(r.components) + [BuiltComponent(check)]
    ensures r.propertyNameOverride == old(r.propertyNameOverride)
  {
    r.Must(check);
    r.WithMessage(DefaultMessage(check));
  }

  method IsGuid(r: Rule)
    modifies r
    ensures r.components == old(r.components) + [BuiltComponent(Is(Guid))]
    ensures r.propertyNameOverride == old(r.propertyNameOverride)
  {
    MustWithMessage(r, Is(Guid));
  }

  method IsGuidOrEmpty(r: Rule)
    modifies r
    ensures r.components == old(r.components) + [BuiltComponent(IsOrEmpty(Guid))]
    ensures r.propertyNameOverride == old(r.propertyNameOverride)
  {
    MustWithMessage(r, IsOrEmpty(Guid));
  }

  method IsUrl(r: Rule)
    modifies r
    ensures r.components == old(r.components) + [BuiltComponent(Is(HttpUrl))]
    ensures r.propertyNameOverride == old(r.propertyNameOverride)
  {
    MustWithMessage(r, Is(HttpUrl));
  }

  method IsUrlOrEmpty(r: Rule)
    modifies r
    ensures r.components == old(r.components) + [BuiltComponent(IsOrEmpty(HttpUrl))]
    ensures r.propertyNameOverride == old(r.propertyNameOverride)
  {
    MustWithMessage(r, IsOrEmpty(HttpUrl));
  }

  method IsEmailAddress(r: Rule)
    modifies r
    ensures r.components == old(r.components) + [BuiltComponent(Is(EmailAddress))]
    ensures r.propertyNameOverride == old(r.propertyNameOverride)
  {
    MustWithMessage(r, Is(EmailAddress));
  }

  method IsEmailAddressOrEmpty(r: Rule)
    modifies r
    ensures r.components == old(r.components) + [BuiltComponent(IsOrEmpty(EmailAddress))]
    ensures r.propertyNameOverride == old(r.propertyNameOverride)
  {
    MustWithMessage(r, IsOrEmpty(EmailAddress));
  }

  method IsDigits(r: Rule)
    modifies r
    ensures r.components == old(r.components) + [BuiltComponent(Is(Digits))]
    ensures r.propertyNameOverride == old(r.propertyNameOverride)
  {
    MustWithMessage(r, Is(Digits));
  }

  method IsDigitsOrEmpty(r: Rule)
    modifies r
    ensures r.components == old(r.components) + [BuiltComponent(IsOrEmpty(Digits))]
    ensures r.propertyNameOverride == old(r.propertyNameOverride)
  {
    MustWithMessage(r, IsOrEmpty(Digits));
  }

  method IsIn(r: Rule, validItems: seq<NString>)
    modifies r
    ensures r.components == old(r.components) + [BuiltComponent(Check.IsIn(validItems))]
    ensures r.propertyNameOverride == old(r.propertyNameOverride)
  {
    MustWithMessage(r, Check.IsIn(validItems));
  }

  method IsInWithComparer(r: Rule, validItems: seq<NString>, comparer: EqualityComparer?)
    modifies r
    ensures r.components == old(r.components) + [BuiltComponent(IsInWith(validItems, comparer))]
    ensures r.propertyNameOverride == old(r.propertyNameOverride)
  {
    MustWithMessage(r, IsInWith(validItems, comparer));
  }

  /** A builder's component, when its check fails, reports the builder's default text; a
      later `WithMessage` on the same rule replaces exactly that text. */
  lemma {:induction false} WithMessageReplacesDefault(fc: FormatChecks, check: Check, components: seq<Component>, name: string, value: NString, text: string)
    requires !Passes(fc, check, value)
    requires forall i :: 0 <= i < |components| ==> Passes(fc, components[i].check, value)
    ensures ComponentFailures(fc, components + [BuiltComponent(check)], name, value) ==
      [ValidationFailure(name, Some(DefaultMessage(check)), None, None)]
    ensures ComponentFailures(fc, ReplaceCurrent(components + [BuiltComponent(check)], Some(text), None, None), name, value) ==
      [ValidationFailure(name, Some(text), None, None)]
    decreases |components|
  {
    var cs := components + [BuiltComponent(check)];
    var cs' := ReplaceCurrent(cs, Some(text), None, None);
    if components == [] {
      assert cs[1..] == [] && cs'[1..] == [];
    } else {
      assert cs[1..] == components[1..] + [BuiltComponent(check)];
      assert cs'[1..] == ReplaceCurrent(components[1..] + [BuiltComponent(check)], Some(text), None, None);
      WithMessageReplacesDefault(fc, check, components[1..], name, value, text);
    }
  }
}

/** `WithValidationError`: the property-name override decision and the binding of
    message, code and custom state to the current component. */
module RuleBuilderWithExtensions {
  import opened Wrappers
  import opened Exceptions
  import opened NullableStrings
  import opened ValidationErrors
  import opened TypeExtensions
  import opened FluentStub

  /** `WithValidationError`'s override decision: `Success(None)` keeps the reported name, `Success(Some(n))`
      overrides it with `n`, `Failure` is the exception the resolver throws. */
  function ResolveOverride(ownerType: TypeInfo, err: ValidationError, useJsonPropertyName: bool, overrideType: Option<TypeInfo>): (r: Result<Option<string>, Exception>)
    ensures !useJsonPropertyName ==> r == Success(None)
    ensures !IsPropertyNameSet(err) ==> r == Success(None)
    ensures useJsonPropertyName && IsPropertyNameSet(err) ==> r != Success(None)
    ensures useJsonPropertyName && IsPropertyNameSet(err) ==>
      var resolved := GetJsonPropertyName(Some(overrideType.GetOr(ownerType)), err.propertyName);
      (r.Failure? <==> resolved.Failure?) &&
      (r.Failure? ==> r.error == resolved.error) &&
      (r.Success? ==> r.value == Some(resolved.value))
  {
    if useJsonPropertyName && IsPropertyNameSet(err) then
      var target := if overrideType.None? then ownerType else overrideType.value;
      match GetJsonPropertyName(Some(target), err.propertyName)
      case Failure(e) => Failure(e)
      case Success(name) => Success(Some(name))
    else
      Success(None)
  }

  /** The only exception the override can raise is the missing-property (or several-attributes)
      one: the type is never null and the name was checked to be set. */
  lemma OverrideErrorIsInvalidOperation(ownerType: TypeInfo, err: ValidationError, useJsonPropertyName: bool, overrideType: Option<TypeInfo>)
    ensures var r := ResolveOverride(ownerType, err, useJsonPropertyName, overrideType);
      r.Failure? ==> r.error.InvalidOperationException?
  {
  }

  /** An unannotated property named by the error resolves to its own name, on whichever type is chosen. */
  lemma UnannotatedOverrideKeepsName(ownerType: TypeInfo, err: ValidationError, overrideType: Option<TypeInfo>)
    requires IsPropertyNameSet(err)
    requires var t := overrideType.GetOr(ownerType); err.propertyName.value in t.properties && t.properties[err.propertyName.value] == []
    ensures ResolveOverride(ownerType, err, true, overrideType) == Success(Some(err.propertyName.value))
  {
  }

  /** The `Configure` callback of `WithValidationError`: the current component takes the error's message, code and the error itself as
      custom state; the components before it are untouched. */
  function BindCurrent(components: seq<Component>, err: ValidationError): (r: seq<Component>)
    requires |components| > 0
    ensures |r| == |components|
    ensures forall i :: 0 <= i < |r| - 1 ==> r[i] == components[i]
    ensures var last := r[|r| - 1];
      last.check == components[|r| - 1].check &&
      last.message == Some(err.message) && last.code == Some(err.code) && last.customState == Some(err)
  {
    ReplaceCurrent(components, Some(err.message), Some(err.code), Some(err))
  }

  /** Binding wins over any earlier message: whatever text or code the current component had,
      its failure reports the error's message and code. */
  lemma BindingOverridesEarlierMessage(components: seq<Component>, text: string, err: ValidationError)
    requires |components| > 0
    ensures var cs := ReplaceCurrent(components, Some(text), components[|components| - 1].code, components[|components| - 1].customState);
      BindCurrent(cs, err) == BindCurrent(components, err)
  {
    var cs := ReplaceCurrent(components, Some(text), components[|components| - 1].code, components[|components| - 1].customState);
    assert forall i :: 0 <= i < |components| ==> BindCurrent(cs, err)[i] == BindCurrent(components, err)[i];
  }

  method WithValidationError(r: Rule, validationError: ValidationError, useJsonPropertyName: bool, overrideType: Option<TypeInfo>)
    returns (outcome: Outcome<Exception>)
    requires |r.components| > 0
    modifies r
    ensures var resolved := ResolveOverride(r.ownerType, validationError, useJsonPropertyName, overrideType);
      && (outcome.Fail? <==> resolved.Failure?)
      && (resolved.Failure? ==>
            outcome.error == resolved.error &&
            r.components == old(r.components) && r.propertyNameOverride == old(r.propertyNameOverride))
      && (resolved.Success? ==>
            r.components == BindCurrent(old(r.components), validationError) &&
            r.propertyNameOverride == (if resolved.value.Some? then resolved.value else old(r.propertyNameOverride)))
  {
    if useJsonPropertyName && IsPropertyNameSet(validationError) {
      var name;
      if overrideType.None? {
        name := GetJsonPropertyName(Some(r.ownerType), validationError.propertyName);
      } else {
        name := GetJsonPropertyName(overrideType, validationError.propertyName);
      }
      if name.Failure? {
        return Fail(name.error);
      }
      r.OverridePropertyName(name.value);
    }
    r.ConfigureCurrent(validationError.message, validationError.code, validationError);
    outcome := Pass;
  }
}
