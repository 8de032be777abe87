/** The option classes of the earlier binding revision
    (MicrosoftCommandLine.Option.cs), built on an older argument library
    whose `Option<T>` keeps `ArgumentHelpName`, a settable `IsRequired`, and
    a `ParseArgument<T>` delegate with an `isDefault` flag. One Dafny class
    stands for `Option<T>` and `CustomOption<T>`, whose constructor only
    sets the arity after the protected base constructor. */
module EarlyOptions {
  import opened Runtime
  import Options

  /** `T : ICustomValue<T>, new()`: what `new T().Parse(data)` returns or
      throws for a text. */
  datatype CustomValueType = CustomValueType(parse: string -> Result<Value>)

  /** The `ParseArgument<T>` delegate handed to the protected constructor;
      `CustomOption<T>` hands its static `ParseArgument` for `T`. */
  datatype ArgumentParser = FirstTokenOf(valueType: CustomValueType)

  /** The older library's parse result; `GetValueForOption` yields a value
      for each option. */
  datatype ParseResult = ParseResult(valueOf: Option -> Value)

  class Option {
    const tag: TypeTag
    const names: seq<string>
    // state of the older library's System.CommandLine.Option<T>
    const aliases: seq<string>
    var description: Nullable<string>
    var argumentHelpName: Nullable<string>
    var allowMultipleArgumentsPerToken: bool
    var isRequired: bool
    var defaultValueFactory: Nullable<Options.DefaultFactory>
    var parseArgument: Nullable<ArgumentParser>
    var isDefault: bool
    var arity: Options.Arity
    var value: Value

    /** The constructor without a default provider. The argument library
        refuses an option without aliases. */
    constructor (tag: TypeTag, names: seq<string>, description: Nullable<string>,
                 allowMultipleValue: bool, isRequired: bool, valueHelpName: Nullable<string>)
      requires |names| > 0
      ensures this.tag == tag && this.names == names && aliases == names
      ensures this.description == description && ValueHelpName() == valueHelpName
      ensures AllowMultipleValue() == allowMultipleValue && IsRequired() == isRequired
      ensures defaultValueFactory == Null && parseArgument == Null && !isDefault
      ensures arity == Options.LibraryDefault && value == DefaultOf(tag)
    {
      this.tag := tag;
      this.names := names;
      this.aliases := names;
      this.description := description;
      this.defaultValueFactory := Null;
      this.parseArgument := Null;
      this.isDefault := false;
      this.arity := Options.LibraryDefault;
      this.value := DefaultOf(tag);
      this.argumentHelpName := valueHelpName;
      this.allowMultipleArgumentsPerToken := allowMultipleValue;
      this.isRequired := isRequired;
    }

    /** The constructor that hands `getDefaultValue` to the library. */
    constructor WithDefault(tag: TypeTag, names: seq<string>, getDefaultValue: Options.DefaultFactory,
                            description: Nullable<string>, allowMultipleValue: bool,
                            isRequired: bool, valueHelpName: Nullable<string>)
      requires |names| > 0
      ensures this.tag == tag && this.names == names && aliases == names
      ensures this.description == description && ValueHelpName() == valueHelpName
      ensures AllowMultipleValue() == allowMultipleValue && IsRequired() == isRequired
      ensures defaultValueFactory == NonNull(getDefaultValue) && parseArgument == Null && !isDefault
      ensures arity == Options.LibraryDefault && value == DefaultOf(tag)
    {
      this.tag := tag;
      this.names := names;
      this.aliases := names;
      this.description := description;
      this.defaultValueFactory := NonNull(getDefaultValue);
      this.parseArgument := Null;
      this.isDefault := false;
      this.arity := Options.LibraryDefault;
      this.value := DefaultOf(tag);
      this.argumentHelpName := valueHelpName;
      this.allowMultipleArgumentsPerToken := allowMultipleValue;
      this.isRequired := isRequired;
    }

    /** The protected constructor that hands a `ParseArgument<T>` delegate
        and its `isDefault` flag to the library. */
    constructor WithParser(tag: TypeTag, names: seq<string>, parseArgument: ArgumentParser,
                           description: Nullable<string>, isDefault: bool, allowMultipleValue: bool,
                           isRequired: bool, valueHelpName: Nullable<string>)
      requires |names| > 0
      ensures this.tag == tag && this.names == names && aliases == names
      ensures this.description == description && ValueHelpName() == valueHelpName
      ensures AllowMultipleValue() == allowMultipleValue && IsRequired() == isRequired
      ensures defaultValueFactory == Null && this.parseArgument == NonNull(parseArgument)
      ensures this.isDefault == isDefault
      ensures arity == Options.LibraryDefault && value == DefaultOf(tag)
    {
      this.tag := tag;
      this.names := names;
      this.aliases := names;
      this.description := description;
      this.defaultValueFactory := Null;
      this.parseArgument := NonNull(parseArgument);
      this.isDefault := isDefault;
      this.arity := Options.LibraryDefault;
      this.value := DefaultOf(tag);
      this.argumentHelpName := valueHelpName;
      this.allowMultipleArgumentsPerToken := allowMultipleValue;
      this.isRequired := isRequired;
    }

    /** `CustomOption<T>`: the protected constructor with the first-token
        parser for `T`, then `Arity = OneOrMore` whatever
        `allowMultipleValue` says. */
    constructor Custom(tag: TypeTag, names: seq<string>, valueType: CustomValueType,
                       description: Nullable<string>, isDefault: bool, allowMultipleValue: bool,
                       isRequired: bool, valueHelpName: Nullable<string>)
      requires |names| > 0
      ensures this.tag == tag && this.names == names && aliases == names
      ensures this.description == description && ValueHelpName() == valueHelpName
      ensures AllowMultipleValue() == allowMultipleValue && IsRequired() == isRequired
      ensures defaultValueFactory == Null && parseArgument == NonNull(FirstTokenOf(valueType))
      ensures this.isDefault == isDefault
      ensures arity == Options.OneOrMore && value == DefaultOf(tag)
    {
      this.tag := tag;
      this.names := names;
      this.aliases := names;
      this.description := description;
      this.defaultValueFactory := Null;
      this.parseArgument := NonNull(FirstTokenOf(valueType));
      this.isDefault := isDefault;
      this.value := DefaultOf(tag);
      this.argumentHelpName := valueHelpName;
      this.allowMultipleArgumentsPerToken := allowMultipleValue;
      this.isRequired := isRequired;
      this.arity := Options.OneOrMore;
    }

    /** `ValueHelpName`: a view of the library's `ArgumentHelpName`. */
    function ValueHelpName(): Nullable<string>
      reads this
    {
      argumentHelpName
    }

    /** The `ValueHelpName` setter writes `ArgumentHelpName` and nothing else. */
    method SetValueHelpName(v: Nullable<string>)
      modifies this`argumentHelpName
      ensures ValueHelpName() == v && argumentHelpName == v
    {
      argumentHelpName := v;
    }

    /** `AllowMultipleValue`: a view of `AllowMultipleArgumentsPerToken`. */
    function AllowMultipleValue(): bool
      reads this
    {
      allowMultipleArgumentsPerToken
    }

    /** The `AllowMultipleValue` setter writes the library property. */
    method SetAllowMultipleValue(v: bool)
      modifies this`allowMultipleArgumentsPerToken
      ensures AllowMultipleValue() == v && allowMultipleArgumentsPerToken == v
    {
      allowMultipleArgumentsPerToken := v;
    }

    /** `IsRequired`, the library's own settable property. */
    function IsRequired(): bool
      reads this
    {
      isRequired
    }

    method SetIsRequired(v: bool)
      modifies this`isRequired
      ensures IsRequired() == v
    {
      isRequired := v;
    }

    /** `IOption.Value`, the untyped view of the typed `Value`. */
    function UntypedValue(): Value
      reads this
    {
      value
    }

    /** `UpdateValue(result)`: `Value` becomes the result's value for this
        option. There is no null check: a null result fails on the member
        access with a NullReferenceException and `Value` is kept. */
    method UpdateValue(result: Nullable<ParseResult>) returns (outcome: Outcome)
      modifies this`value
      ensures result.Null? ==> outcome == Fail(NullReference) && value == old(value)
      ensures result.NonNull? ==> outcome == Pass && value == result.value.valueOf(this)
      ensures UntypedValue() == value
    {
      if result.Null? {
        return Fail(NullReference);
      }
      value := result.value.valueOf(this);
      return Pass;
    }

    /** What the library gets when it runs this option's parse delegate on a
        token list. */
    function RunParseArgument(tokens: seq<string>): (r: Nullable<Result<Value>>)
      reads this
      ensures parseArgument.Null? <==> r.Null?
      ensures parseArgument.NonNull? ==> r == NonNull(ParseArgument(tokens, parseArgument.value.valueType))
    {
      match parseArgument
      case Null => Null
      case NonNull(FirstTokenOf(t)) => NonNull(ParseArgument(tokens, t))
    }
  }

  /** The text `CustomOption.ParseArgument` parses: the first token, or ""
      when there is none. */
  function FirstTokenOrEmpty(tokens: seq<string>): (data: string)
    ensures |tokens| == 0 ==> data == ""
    ensures |tokens| > 0 ==> data == tokens[0]
  {
    if |tokens| > 0 then tokens[0] else ""
  }

  /** `CustomOption<T>.ParseArgument(result)`: `new T().Parse(data)` on the
      first token's text, or on "". */
  function ParseArgument(tokens: seq<string>, t: CustomValueType): Result<Value> {
    t.parse(FirstTokenOrEmpty(tokens))
  }

  /** Only the first token reaches the value type's parser: two token lists
      that start alike (or are both empty) parse alike, and an empty list
      parses as the empty text. */
  lemma ParseArgumentSeesFirstTokenOnly(t: CustomValueType, a: seq<string>, b: seq<string>)
    requires (|a| == 0 && |b| == 0) || (|a| > 0 && |b| > 0 && a[0] == b[0])
    ensures ParseArgument(a, t) == ParseArgument(b, t)
    ensures |a| == 0 ==> ParseArgument(a, t) == t.parse("")
    ensures |a| > 0 ==> ParseArgument(a, t) == t.parse(a[0])
  {
  }

  /** Whatever `allowMultipleValue` says, a custom option takes one or more
      tokens, and parses only the first. */
  lemma CustomOptionReadsFirstToken(o: Option, t: CustomValueType, tok: string, rest: seq<string>)
    requires o.parseArgument == NonNull(FirstTokenOf(t))
    ensures o.RunParseArgument([tok] + rest) == NonNull(t.parse(tok))
    ensures o.RunParseArgument([]) == NonNull(t.parse(""))
  {
  }
}
