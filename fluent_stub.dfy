/** A minimal stand-in for the validation library the core extends: a rule bound to one
    property of the validated type, holding an ordered list of component validators,
    and a validator that runs a list of rules against an instance. */
module FluentStub {
  import opened Wrappers
  import opened NullableStrings
  import opened RulePredicates
  import opened ValidationErrors
  import opened TypeExtensions

  /** One component validator: its check and the three options the core sets. `None` stands for
      the library's own default (its generic message, its validator-name code, no custom state). */
  datatype Component = Component(
    check: Check,
    message: Option<string>,
    code: Option<string>,
    customState: Option<ValidationError>)

  /** What one failing component reports. */
  datatype ValidationFailure = ValidationFailure(
    propertyName: string,
    message: Option<string>,
    code: Option<string>,
    customState: Option<ValidationError>)

  datatype ValidationResult = ValidationResult(errors: seq<ValidationFailure>) {
    predicate IsValid() { errors == [] }
  }

  /** A validated object: the value of each of its string properties. */
  type Instance = string -> NString

  /** `components` with the last one's message, code and custom state replaced. */
  function ReplaceCurrent(components: seq<Component>, message: Option<string>, code: Option<string>, customState: Option<ValidationError>): (r: seq<Component>)
    requires |components| > 0
    ensures |r| == |components|
    ensures forall i :: 0 <= i < |r| - 1 ==> r[i] == components[i]
    ensures r[|r| - 1].check == components[|r| - 1].check
    ensures r[|r| - 1].message == message && r[|r| - 1].code == code && r[|r| - 1].customState == customState
  {
    components[..|components| - 1] + [components[|components| - 1].(message := message, code := code, customState := customState)]
  }

  /** `RuleFor(x => x.Member)` on a validator of `ownerType`. */
  class Rule {
    const ownerType: TypeInfo
    const member: string
    var propertyNameOverride: Option<string>
    var components: seq<Component>

    constructor (ownerType: TypeInfo, member: string)
      ensures this.ownerType == ownerType && this.member == member
      ensures propertyNameOverride == None && components == []
    {
      this.ownerType := ownerType;
      this.member := member;
      propertyNameOverride := None;
      components := [];
    }

    /** The property name failures of this rule report. */
    function PropertyName(): string
      reads this
    {
      propertyNameOverride.GetOr(member)
    }

    /** `Must(predicate)`: appends a component that becomes the current one. */
    method Must(check: Check)
      modifies this
      ensures components == old(components) + [Component(check, None, None, None)]
      ensures propertyNameOverride == old(propertyNameOverride)
    {
      components := components + [Component(check, None, None, None)];
    }

    /** `WithMessage(text)`: sets the current component's message. */
    method WithMessage(message: string)
      requires |components| > 0
      modifies this
      ensures components == ReplaceCurrent(old(components), Some(message), old(components[|components| - 1].code), old(components[|components| - 1].customState))
      ensures propertyNameOverride == old(propertyNameOverride)
    {
      var current := components[|components| - 1];
      components := ReplaceCurrent(components, Some(message), current.code, current.customState);
    }

    /** `OverridePropertyName(name)`. */
    method OverridePropertyName(name: string)
      modifies this
      ensures propertyNameOverride == Some(name)
      ensures components == old(components)
    {
      propertyNameOverride := Some(name);
    }

    /** `Configure` assigning the current validator's message source, code source and custom state. */
    method ConfigureCurrent(message: string, code: string, customState: ValidationError)
      requires |components| > 0
      modifies this
      ensures components == ReplaceCurrent(old(components), Some(message), Some(code), Some(customState))
      ensures propertyNameOverride == old(propertyNameOverride)
    {
      components := ReplaceCurrent(components, Some(message), Some(code), Some(customState));
    }

    function Failures(fc: FormatChecks, instance: Instance): seq<ValidationFailure>
      reads this
    {
      ComponentFailures(fc, components, PropertyName(), instance(member))
    }
  }

  /** Every component runs, in order; each that does not pass reports one failure. */
  function ComponentFailures(fc: FormatChecks, components: seq<Component>, propertyName: string, value: NString): (r: seq<ValidationFailure>)
    ensures |r| <= |components|
    ensures r == [] <==> forall i :: 0 <= i < |components| ==> Passes(fc, components[i].check, value)
    ensures forall k :: 0 <= k < |r| ==> r[k].propertyName == propertyName
    decreases |components|
  {
    if components == [] then []
    else
      var c := components[0];
      var rest := ComponentFailures(fc, components[1..], propertyName, value);
      if Passes(fc, c.check, value) then rest
      else [ValidationFailure(propertyName, c.message, c.code, c.customState)] + rest
  }

  /** The failures of every rule, rule by rule in declaration order (no rule stops the others). */
  function AllFailures(fc: FormatChecks, rules: seq<Rule>, instance: Instance): seq<ValidationFailure>
    reads rules
    decreases |rules|
  {
    if rules == [] then [] else rules[0].Failures(fc, instance) + AllFailures(fc, rules[1..], instance)
  }

  function Validate(fc: FormatChecks, rules: seq<Rule>, instance: Instance): ValidationResult
    reads rules
  {
    ValidationResult(AllFailures(fc, rules, instance))
  }

  /** A validator with one rule reports exactly that rule's failures. */
  lemma ValidateSingleRule(fc: FormatChecks, rule: Rule, instance: Instance)
    ensures Validate(fc, [rule], instance).errors == rule.Failures(fc, instance)
  {
    assert [rule][1..] == [];
    assert AllFailures(fc, [rule], instance) == rule.Failures(fc, instance) + AllFailures(fc, [], instance);
  }

  /** A single component reports one failure, carrying its options, exactly when its check fails. */
  lemma SingleComponentFailures(fc: FormatChecks, c: Component, propertyName: string, value: NString)
    ensures ComponentFailures(fc, [c], propertyName, value) ==
      if Passes(fc, c.check, value) then [] else [ValidationFailure(propertyName, c.message, c.code, c.customState)]
  {
    assert [c][1..] == [];
  }

  /** Failures aggregate: running two lists of rules after each other gives their failures concatenated. */
  lemma {:induction false} AllFailuresAppend(fc: FormatChecks, rules1: seq<Rule>, rules2: seq<Rule>, instance: Instance)
    ensures AllFailures(fc, rules1 + rules2, instance) == AllFailures(fc, rules1, instance) + AllFailures(fc, rules2, instance)
    decreases |rules1|
  {
    if rules1 != [] {
      assert (rules1 + rules2)[1..] == rules1[1..] + rules2;
      AllFailuresAppend(fc, rules1[1..], rules2, instance);
    } else {
      assert rules1 + rules2 == rules2;
    }
  }

  /** The result is valid exactly when every component of every rule passes on its property's value. */
  lemma {:induction false} ValidIff(fc: FormatChecks, rules: seq<Rule>, instance: Instance)
    ensures Validate(fc, rules, instance).IsValid() <==>
      forall j, i :: 0 <= j < |rules| && 0 <= i < |rules[j].components| ==>
        Passes(fc, rules[j].components[i].check, instance(rules[j].member))
    decreases |rules|
  {
    if rules != [] {
      ValidIff(fc, rules[1..], instance);
      assert forall j :: 1 <= j < |rules| ==> rules[1..][j - 1] == rules[j];
    }
  }

  /** When every rule but the `k`-th passes, the failures are exactly those of the `k`-th rule. */
  lemma {:induction false} FailuresOfOneRule(fc: FormatChecks, rules: seq<Rule>, instance: Instance, k: nat)
    requires k < |rules|
    requires forall j, i :: 0 <= j < |rules| && j != k && 0 <= i < |rules[j].components| ==>
      Passes(fc, rules[j].components[i].check, instance(rules[j].member))
    ensures AllFailures(fc, rules, instance) == rules[k].Failures(fc, instance)
    decreases |rules|
  {
    assert forall j :: 1 <= j < |rules| ==> rules[1..][j - 1] == rules[j];
    if k == 0 {
      ValidIff(fc, rules[1..], instance);
      assert AllFailures(fc, rules[1..], instance) == [];
      assert rules[0].Failures(fc, instance) + [] == rules[0].Failures(fc, instance);
    } else {
      assert rules[0].Failures(fc, instance) == [];
      FailuresOfOneRule(fc, rules[1..], instance, k - 1);
    }
  }
}
