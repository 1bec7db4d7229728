/** Reflection replaced by explicit data: a property is its declared name plus the
    JSON-name attributes that `GetCustomAttributes(…, true)` returns for it. */
module MemberInfoExtensions {
  import opened Wrappers
  import opened Exceptions

  /** `attributes` lists the `Name` of every `JsonPropertyNameAttribute` that
      `GetCustomAttributes(typeof(JsonPropertyNameAttribute), true)` returns. */
  datatype MemberInfo = MemberInfo(name: string, jsonNameAttributes: seq<string>)

  /** The .NET message `Enumerable.Single` throws with when the sequence has several elements. */
  const MoreThanOneElement := "Sequence contains more than one element"

  /** `GetAttribute<JsonPropertyNameAttribute>`: null when none is found, the only one when there
      is one, and `Single()` fails when there are several. */
  function GetAttribute(member: MemberInfo): (r: Result<Option<string>, Exception>)
    ensures r == Success(None) <==> |member.jsonNameAttributes| == 0
    ensures r.Success? && r.value.Some? <==> |member.jsonNameAttributes| == 1
    ensures r.Success? && r.value.Some? ==> r.value.value == member.jsonNameAttributes[0]
    ensures r.Failure? <==> |member.jsonNameAttributes| > 1
    ensures r.Failure? ==> r.error == InvalidOperationException(MoreThanOneElement)
  {
    var attributes := member.jsonNameAttributes;
    if |attributes| > 0 then
      if |attributes| == 1 then Success(Some(attributes[0]))
      else Failure(InvalidOperationException(MoreThanOneElement))
    else
      Success(None)
  }

  /** `GetJsonPropertyNameOrDefault`: the attribute's name when annotated, else the member's own name. */
  function GetJsonPropertyNameOrDefault(source: Option<MemberInfo>): (r: Result<string, Exception>)
    ensures source.None? ==> r == Failure(ArgumentNullException("source"))
    ensures source.Some? && |source.value.jsonNameAttributes| == 0 ==> r == Success(source.value.name)
    ensures source.Some? && |source.value.jsonNameAttributes| == 1 ==> r == Success(source.value.jsonNameAttributes[0])
    ensures source.Some? && |source.value.jsonNameAttributes| > 1 ==> r == Failure(InvalidOperationException(MoreThanOneElement))
  {
    if source.None? then
      Failure(ArgumentNullException("source"))
    else
      match GetAttribute(source.value)
      case Failure(e) => Failure(e)
      case Success(attribute) => Success(if attribute.None? then source.value.name else attribute.value)
  }

  /** A member's reported name is always either its declared name or one of its JSON names. */
  lemma JsonNameOrDefaultIsDeclaredOrAnnotated(member: MemberInfo)
    ensures var r := GetJsonPropertyNameOrDefault(Some(member));
      r.Success? ==> r.value == member.name || r.value in member.jsonNameAttributes
  {
  }
}

/** `Type.GetJsonPropertyName`: the guards, the property lookup and the delegation. */
module TypeExtensions {
  import opened Wrappers
  import opened Exceptions
  import opened NullableStrings
  import opened MemberInfoExtensions

  /** A type: its `FullName` and, for each public property name, the JSON-name attributes on it. */
  datatype TypeInfo = TypeInfo(fullName: string, properties: map<string, seq<string>>)

  /** `Type.GetProperty(name)`: the property with exactly that name, or null. */
  function GetProperty(t: TypeInfo, name: string): (p: Option<MemberInfo>)
    ensures p.Some? <==> name in t.properties
    ensures p.Some? ==> p.value.name == name && p.value.jsonNameAttributes == t.properties[name]
  {
    if name in t.properties then Some(MemberInfo(name, t.properties[name])) else None
  }

  const NullOrEmptyNameMessage := "Property name was null or empty."

  function NoSuchPropertyMessage(propertyName: string, typeName: string): (message: string)
    ensures |message| == 21 + |propertyName| + 18 + |typeName| + 1
    ensures message[21..21 + |propertyName|] == propertyName
    ensures message[21 + |propertyName| + 18..|message| - 1] == typeName
  {
    "No property called: '" + propertyName + "' exists on type: " + typeName + "."
  }

  /** The name the property `propertyName` of `source` is serialized under. */
  function GetJsonPropertyName(source: Option<TypeInfo>, propertyName: NString): (r: Result<string, Exception>)
    ensures source.None? ==> r == Failure(ArgumentNullException("source"))
    ensures source.Some? && IsNullOrEmpty(propertyName) ==>
      r == Failure(ArgumentException(NullOrEmptyNameMessage, "propertyName"))
    ensures source.Some? && !IsNullOrEmpty(propertyName) && propertyName.value !in source.value.properties ==>
      r == Failure(InvalidOperationException(NoSuchPropertyMessage(propertyName.value, source.value.fullName)))
    ensures source.Some? && !IsNullOrEmpty(propertyName) && propertyName.value in source.value.properties ==>
      r == GetJsonPropertyNameOrDefault(Some(MemberInfo(propertyName.value, source.value.properties[propertyName.value])))
  {
    if source.None? then
      Failure(ArgumentNullException("source"))
    else if IsNullOrEmpty(propertyName) then
      Failure(ArgumentException(NullOrEmptyNameMessage, "propertyName"))
    else
      var propertyInfo := GetProperty(source.value, propertyName.value);
      if propertyInfo.None? then
        Failure(InvalidOperationException(NoSuchPropertyMessage(propertyName.value, source.value.fullName)))
      else
        GetJsonPropertyNameOrDefault(propertyInfo)
  }

  /** Success exactly when every guard passes and the property carries at most one JSON name. */
  lemma ResolvesIff(source: Option<TypeInfo>, propertyName: NString)
    ensures GetJsonPropertyName(source, propertyName).Success? <==>
      && source.Some?
      && !IsNullOrEmpty(propertyName)
      && propertyName.value in source.value.properties
      && |source.value.properties[propertyName.value]| <= 1
  {
  }

  /** An unannotated property resolves to the very name it was looked up by. */
  lemma UnannotatedResolvesToItself(t: TypeInfo, name: string)
    requires name != "" && name in t.properties && t.properties[name] == []
    ensures GetJsonPropertyName(Some(t), Str(name)) == Success(name)
  {
  }

  /** A property with one JSON name resolves to that name. */
  lemma AnnotatedResolvesToJsonName(t: TypeInfo, name: string, json: string)
    requires name != "" && name in t.properties && t.properties[name] == [json]
    ensures GetJsonPropertyName(Some(t), Str(name)) == Success(json)
  {
  }

  /** The guards run in order: a null type wins over a bad name, a bad name over a missing property. */
  lemma GuardOrder(source: Option<TypeInfo>, propertyName: NString)
    ensures source.None? ==> GetJsonPropertyName(source, propertyName).error.ArgumentNullException?
    ensures source.Some? && IsNullOrEmpty(propertyName) ==>
      GetJsonPropertyName(source, propertyName).error.ArgumentException?
    ensures var r := GetJsonPropertyName(source, propertyName);
      r.Failure? && r.error.InvalidOperationException? ==> source.Some? && !IsNullOrEmpty(propertyName)
  {
  }
}
