/** The oldest option class (MiscrosoftCommandLine.Option.cs, the folder's
    own spelling): `Option<T>` over an older argument library, with the
    help name, multiplicity and requiredness stored in library properties. */
module LegacyOptions {
  import opened Runtime

  /** The host's `Func<T>` default provider, opaque to the toolkit. */
  datatype DefaultProvider = DefaultProvider(id: nat)

  /** The older library's parse result; `GetValueForOption` yields a value
      for each option. */
  datatype ParseResult = ParseResult(valueOf: Option -> Value)

  class Option {
    const tag: TypeTag
    const names: seq<string>
    // state of the older library's System.CommandLine.Option<T>
    const aliases: seq<string>
    var description: Nullable<string>
    var argumentHelpName: Nullable<string>
    var allowMultipleArgumentsPerToken: bool
    var isRequired: bool
    var defaultValue: Nullable<DefaultProvider>
    var value: Value

    /** The constructor without a default provider. The argument library
        refuses an option without aliases. */
    constructor (tag: TypeTag, names: seq<string>, description: Nullable<string>,
                 allowMultipleValue: bool, isRequired: bool, valueHelpName: Nullable<string>)
      requires |names| > 0
      ensures this.tag == tag && this.names == names && aliases == names
      ensures this.description == description && ValueHelpName() == valueHelpName
      ensures AllowMultipleValue() == allowMultipleValue && IsRequired() == isRequired
      ensures defaultValue == Null && value == DefaultOf(tag)
    {
      this.tag := tag;
      this.names := names;
      this.aliases := names;
      this.description := description;
      this.defaultValue := Null;
      this.value := DefaultOf(tag);
      this.argumentHelpName := valueHelpName;
      this.allowMultipleArgumentsPerToken := allowMultipleValue;
      this.isRequired := isRequired;
    }

    /** The constructor that hands `getDefaultValue` to the library. */
    constructor WithDefault(tag: TypeTag, names: seq<string>, getDefaultValue: DefaultProvider,
                            description: Nullable<string>, allowMultipleValue: bool,
                            isRequired: bool, valueHelpName: Nullable<string>)
      requires |names| > 0
      ensures this.tag == tag && this.names == names && aliases == names
      ensures this.description == description && ValueHelpName() == valueHelpName
      ensures AllowMultipleValue() == allowMultipleValue && IsRequired() == isRequired
      ensures defaultValue == NonNull(getDefaultValue) && value == DefaultOf(tag)
    {
      this.tag := tag;
      this.names := names;
      this.aliases := names;
      this.description := description;
      this.defaultValue := NonNull(getDefaultValue);
      this.value := DefaultOf(tag);
      this.argumentHelpName := valueHelpName;
      this.allowMultipleArgumentsPerToken := allowMultipleValue;
      this.isRequired := isRequired;
    }

    /** `ValueHelpName`: a view of the library's `ArgumentHelpName`. */
    function ValueHelpName(): Nullable<string>
      reads this
    {
      argumentHelpName
    }

    /** The `ValueHelpName` setter writes `ArgumentHelpName` and nothing else. */
    method SetValueHelpName(v: Nullable<string>)
      modifies this`argumentHelpName
      ensures ValueHelpName() == v && argumentHelpName == v
    {
      argumentHelpName := v;
    }

    /** `AllowMultipleValue`: a view of `AllowMultipleArgumentsPerToken`. */
    function AllowMultipleValue(): bool
      reads this
    {
      allowMultipleArgumentsPerToken
    }

    /** The `AllowMultipleValue` setter writes the library property. */
    method SetAllowMultipleValue(v: bool)
      modifies this`allowMultipleArgumentsPerToken
      ensures AllowMultipleValue() == v && allowMultipleArgumentsPerToken == v
    {
      allowMultipleArgumentsPerToken := v;
    }

    /** `IsRequired`, the library's own settable property. */
    function IsRequired(): bool
      reads this
    {
      isRequired
    }

    method SetIsRequired(v: bool)
      modifies this`isRequired
      ensures IsRequired() == v
    {
      isRequired := v;
    }

    /** `IOption.Value`, the untyped view of the typed `Value`. */
    function UntypedValue(): Value
      reads this
    {
      value
    }

    /** `UpdateValue(result)`: `Value` becomes the result's value for this
        option; a null result fails on the member access with a
        NullReferenceException and `Value` is kept. */
    method UpdateValue(result: Nullable<ParseResult>) returns (outcome: Outcome)
      modifies this`value
      ensures result.Null? ==> outcome == Fail(NullReference) && value == old(value)
      ensures result.NonNull? ==> outcome == Pass && value == result.value.valueOf(this)
      ensures UntypedValue() == value
    {
      if result.Null? {
        return Fail(NullReference);
      }
      value := result.value.valueOf(this);
      return Pass;
    }
  }
}
