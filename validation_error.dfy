/** The immutable code / message / property-name triple a caller binds to a rule. */
module ValidationErrors {
  import opened NullableStrings

  /** Code and message are never null here; the property name may be null (only
      `IsPropertyNameSet` inspects it). A datatype value cannot change after it is
      built, which is what the get-only properties of the class give. */
  datatype ValidationError = ValidationError(code: string, message: string, propertyName: NString)

  /** `new ValidationError(code, message)`: delegates with an empty property name. */
  function Create(code: string, message: string): (e: ValidationError)
    ensures e.code == code && e.message == message
    ensures e.propertyName == Str("")
    ensures !IsPropertyNameSet(e)
  {
    CreateWithPropertyName(code, message, Str(""))
  }

  /** `new ValidationError(code, message, propertyName)`: every argument stored unchanged. */
  function CreateWithPropertyName(code: string, message: string, propertyName: NString): (e: ValidationError)
    ensures e.code == code && e.message == message && e.propertyName == propertyName
    ensures IsPropertyNameSet(e) <==> propertyName.Str? && |propertyName.value| > 0
  {
    ValidationError(code, message, propertyName)
  }

  /** True iff the property name is neither null nor empty. */
  predicate IsPropertyNameSet(e: ValidationError): (isSet: bool)
    ensures isSet ==> e.propertyName.Str? && |e.propertyName.value| > 0
  {
    !IsNullOrEmpty(e.propertyName)
  }

  /** Whatever the code and message, the two-argument constructor never sets a property name,
      and it is the three-argument constructor given the empty string. */
  lemma TwoArgumentConstructorLeavesNameUnset(code: string, message: string)
    ensures !IsPropertyNameSet(Create(code, message))
    ensures Create(code, message) == CreateWithPropertyName(code, message, Str(""))
  {
  }

  /** A null property name counts as not set, like the empty one. */
  lemma IsPropertyNameSetIff(e: ValidationError)
    ensures IsPropertyNameSet(e) <==> e.propertyName != Null && e.propertyName != Str("")
  {
  }
}
