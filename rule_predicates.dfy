/** The checks the rule builders attach, as pure functions of the property value. */
module RulePredicates {
  import opened NullableStrings

  /** The four format checks of `ByteDev.Strings`, which is not part of this model; each is
      given as an uninterpreted function of a possibly-null string. */
  datatype FormatChecks = FormatChecks(
    isGuid: NString -> bool,
    isHttpUrl: NString -> bool,
    isEmailAddress: NString -> bool,
    isDigits: NString -> bool)

  datatype Format = Guid | HttpUrl | EmailAddress | Digits

  /** An `IEqualityComparer<string>` object supplied by the caller; its `Equals` is the caller's code. */
  class EqualityComparer {
    const equals: (NString, NString) -> bool

    constructor (equals: (NString, NString) -> bool)
      ensures this.equals == equals
    {
      this.equals := equals;
    }
  }

  /** The check a rule builder hands to `Must`. */
  datatype Check =
    | Is(format: Format)                                          // IsGuid, IsUrl, IsEmailAddress, IsDigits
    | IsOrEmpty(format: Format)                                   // the `...OrEmpty` variants
    | IsIn(validItems: seq<NString>)                              // IsIn(validItems)
    | IsInWith(validItems: seq<NString>, comparer: EqualityComparer?) // IsIn(validItems, comparer)

  function BaseCheck(fc: FormatChecks, f: Format): NString -> bool {
    match f
    case Guid => fc.isGuid
    case HttpUrl => fc.isHttpUrl
    case EmailAddress => fc.isEmailAddress
    case Digits => fc.isDigits
  }

  /** The `...OrEmpty` lambda: null or "" passes, anything else is left to the base check. */
  function OrEmpty(base: NString -> bool, s: NString): (ok: bool)
    ensures IsNullOrEmpty(s) ==> ok
    ensures !ok ==> !base(s)
  {
    if IsNullOrEmpty(s) then true else base(s)
  }

  /** `EqualityComparer<string>.Default`: ordinal equality, and null equals only null. */
  function DefaultEquals(a: NString, b: NString): bool {
    a == b
  }

  /** `Enumerable.Contains(source, value, comparer)`: walks the items in order and asks the
      comparer `Equals(item, value)`; a null comparer means the default one. */
  function Contains(items: seq<NString>, value: NString, equals: (NString, NString) -> bool): (found: bool)
    ensures items == [] ==> !found
    ensures |items| > 0 && equals(items[0], value) ==> found
    decreases |items|
  {
    if items == [] then false
    else if equals(items[0], value) then true
    else Contains(items[1..], value, equals)
  }

  function ComparerEquals(comparer: EqualityComparer?): (equals: (NString, NString) -> bool)
    ensures comparer != null ==> equals == comparer.equals
    ensures comparer == null ==> forall a, b :: equals(a, b) <==> a == b
  {
    if comparer == null then DefaultEquals else comparer.equals
  }

  /** Whether `value` passes `check`. */
  function Passes(fc: FormatChecks, check: Check, value: NString): (ok: bool)
    ensures check.IsOrEmpty? && IsNullOrEmpty(value) ==> ok
  {
    match check
    case Is(f) => BaseCheck(fc, f)(value)
    case IsOrEmpty(f) => OrEmpty(BaseCheck(fc, f), value)
    case IsIn(items) => Contains(items, value, DefaultEquals)
    case IsInWith(items, comparer) => Contains(items, value, ComparerEquals(comparer))
  }

  /** The default message templates, `{PropertyName}` left for the library to fill in.
      Each is a phrase closed by a full stop; the `...OrEmpty` ones add " or not set". */
  const GuidPhrase := "{PropertyName} must be a valid GUID"
  const HttpUrlPhrase := "{PropertyName} must be a valid HTTP URL"
  const EmailAddressPhrase := "{PropertyName} must be a valid email address"
  const DigitsPhrase := "{PropertyName} must contain only digits"
  const IsInPhrase := "{PropertyName} must contain one of the defined set of values"

  function Sentence(phrase: string): string { phrase + "." }
  function OrNotSet(phrase: string): string { phrase + " or not set." }

  /** The template each rule builder attaches with `WithMessage`. */
  function DefaultMessage(check: Check): (template: string)
  {
    match check
    case Is(Guid) => Sentence(GuidPhrase)
    case IsOrEmpty(Guid) => Sentence(GuidPhrase)
    case Is(HttpUrl) => Sentence(HttpUrlPhrase)
    case IsOrEmpty(HttpUrl) => OrNotSet(HttpUrlPhrase)
    case Is(EmailAddress) => Sentence(EmailAddressPhrase)
    case IsOrEmpty(EmailAddress) => OrNotSet(EmailAddressPhrase)
    case Is(Digits) => Sentence(DigitsPhrase)
    case IsOrEmpty(Digits) => OrNotSet(DigitsPhrase)
    case IsIn(_) => Sentence(IsInPhrase)
    case IsInWith(_, _) => Sentence(IsInPhrase)
  }

  // ----- properties -----

  /** Every `...OrEmpty` check accepts null and "" whatever its base check says. */
  lemma OrEmptyAcceptsNullAndEmpty(fc: FormatChecks, f: Format)
    ensures Passes(fc, IsOrEmpty(f), Null)
    ensures Passes(fc, IsOrEmpty(f), Str(""))
  {
  }

  /** On a non-empty string an `...OrEmpty` check decides exactly as its base check. */
  lemma OrEmptyDelegates(fc: FormatChecks, f: Format, s: string)
    requires s != ""
    ensures Passes(fc, IsOrEmpty(f), Str(s)) == Passes(fc, Is(f), Str(s))
  {
  }

  /** `Contains` is the existential it enumerates: some item equals the value under `equals`. */
  lemma {:induction false} ContainsIff(items: seq<NString>, value: NString, equals: (NString, NString) -> bool)
    ensures Contains(items, value, equals) <==> exists i :: 0 <= i < |items| && equals(items[i], value)
    decreases |items|
  {
    if items != [] {
      ContainsIff(items[1..], value, equals);
      if Contains(items[1..], value, equals) {
        var i :| 0 <= i < |items[1..]| && equals(items[1..][i], value);
        assert equals(items[i + 1], value);
      }
      if exists i :: 0 <= i < |items| && equals(items[i], value) {
        var i :| 0 <= i < |items| && equals(items[i], value);
        if i > 0 {
          assert equals(items[1..][i - 1], value);
        }
      }
    }
  }

  /** `IsIn` without a comparer passes exactly for the listed values, null included when listed. */
  lemma IsInIff(fc: FormatChecks, items: seq<NString>, value: NString)
    ensures Passes(fc, IsIn(items), value) <==> value in items
  {
    ContainsIff(items, value, DefaultEquals);
    if value in items {
      var i :| 0 <= i < |items| && items[i] == value;
      assert DefaultEquals(items[i], value);
    }
  }

  /** `IsIn` with a comparer passes exactly when some listed item equals the value under it. */
  lemma IsInWithIff(fc: FormatChecks, items: seq<NString>, comparer: EqualityComparer, value: NString)
    ensures Passes(fc, IsInWith(items, comparer), value) <==>
      exists i :: 0 <= i < |items| && comparer.equals(items[i], value)
  {
    ContainsIff(items, value, comparer.equals);
  }

  /** A null comparer behaves as `IsIn` without one. */
  lemma NullComparerIsDefault(fc: FormatChecks, items: seq<NString>, value: NString)
    ensures Passes(fc, IsInWith(items, null), value) == Passes(fc, IsIn(items), value)
  {
  }

  /** `IsGuidOrEmpty` keeps the `IsGuid` text; the other three `...OrEmpty` texts are their base
      text with " or not set" put before the closing full stop. */
  lemma OrEmptyMessages(f: Format)
    ensures f == Guid ==> DefaultMessage(IsOrEmpty(f)) == DefaultMessage(Is(f))
    ensures f != Guid ==> var m := DefaultMessage(Is(f));
      |m| > 0 && m[|m| - 1] == '.' && DefaultMessage(IsOrEmpty(f)) == m[..|m| - 1] + " or not set."
  {
    var phrase := match f
      case Guid => GuidPhrase
      case HttpUrl => HttpUrlPhrase
      case EmailAddress => EmailAddressPhrase
      case Digits => DigitsPhrase;
    assert DefaultMessage(Is(f)) == Sentence(phrase);
    assert Sentence(phrase)[..|phrase|] == phrase;
  }

  /** The texts in full, as the rule builders write them. The proof goes one format at a
      time through the lemmas below, because all nine literals at once exceed the
      verifier's resource limit. */
  lemma DefaultMessageTexts(items: seq<NString>)
    ensures DefaultMessage(Is(Guid)) == "{PropertyName} must be a valid GUID."
    ensures DefaultMessage(IsOrEmpty(Guid)) == "{PropertyName} must be a valid GUID."
    ensures DefaultMessage(Is(HttpUrl)) == "{PropertyName} must be a valid HTTP URL."
    ensures DefaultMessage(IsOrEmpty(HttpUrl)) == "{PropertyName} must be a valid HTTP URL or not set."
    ensures DefaultMessage(Is(EmailAddress)) == "{PropertyName} must be a valid email address."
    ensures DefaultMessage(IsOrEmpty(EmailAddress)) == "{PropertyName} must be a valid email address or not set."
    ensures DefaultMessage(Is(Digits)) == "{PropertyName} must contain only digits."
    ensures DefaultMessage(IsOrEmpty(Digits)) == "{PropertyName} must contain only digits or not set."
    ensures DefaultMessage(IsIn(items)) == "{PropertyName} must contain one of the defined set of values."
  {
    GuidTexts();
    HttpUrlTexts();
    EmailAddressTexts();
    DigitsTexts();
    IsInText(items);
  }

  lemma GuidTexts()
    ensures DefaultMessage(Is(Guid)) == "{PropertyName} must be a valid GUID."
    ensures DefaultMessage(IsOrEmpty(Guid)) == "{PropertyName} must be a valid GUID."
  {
  }

  lemma HttpUrlTexts()
    ensures DefaultMessage(Is(HttpUrl)) == "{PropertyName} must be a valid HTTP URL."
    ensures DefaultMessage(IsOrEmpty(HttpUrl)) == "{PropertyName} must be a valid HTTP URL or not set."
  {
  }

  lemma EmailAddressTexts()
    ensures DefaultMessage(Is(EmailAddress)) == "{PropertyName} must be a valid email address."
    ensures DefaultMessage(IsOrEmpty(EmailAddress)) == "{PropertyName} must be a valid email address or not set."
  {
  }

  lemma DigitsTexts()
    ensures DefaultMessage(Is(Digits)) == "{PropertyName} must contain only digits."
    ensures DefaultMessage(IsOrEmpty(Digits)) == "{PropertyName} must contain only digits or not set."
  {
  }

  lemma IsInText(items: seq<NString>)
    ensures DefaultMessage(IsIn(items)) == "{PropertyName} must contain one of the defined set of values."
  {
  }

  /** Both `IsIn` builders attach the same text, with or without a comparer. */
  lemma IsInMessagesAgree(items: seq<NString>, comparer: EqualityComparer?)
    ensures DefaultMessage(IsIn(items)) == DefaultMessage(IsInWith(items, comparer)) == Sentence(IsInPhrase)
  {
  }
}
