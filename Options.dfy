/** The option classes of the current binding backend, `CommonOption<T>` and
    `CustomOption<T>`, built on the argument library's `Option<T>`. One Dafny
    class stands for both: `CustomOption<T>` only sets two library properties
    in its constructor, which the `Custom` constructor below does. The type
    argument `T` is the constant `tag`. */
module Options {
  import opened Runtime

  /** The host's `Func<IEnumerable<string>, T>` handed to `CreateCustomOption`;
      it receives token texts and may throw. */
  datatype TokenParser = TokenParser(run: seq<string> -> Result<Value>)

  /** The library's `CustomParser` property when `CustomOption` sets it: the
      lambda `(arg) => ParseArgument(arg, parseValue)`, kept with the host
      parser it closes over. */
  datatype ParserAdapter = ForwardTokens(parseValue: Nullable<TokenParser>)

  /** The host's default-value provider, opaque to the toolkit. */
  datatype DefaultFactory = DefaultFactory(id: nat)

  /** The library's `ArgumentArity`; `LibraryDefault` is the arity the library
      derives from `T` when nobody sets it. */
  datatype Arity = LibraryDefault | ExactlyOne | OneOrMore

  /** The argument library's result of parsing one command line. Which value
      it yields for an option (converted tokens, a default, or default(T)) is
      the library's business; the toolkit only asks for it. */
  datatype ParseResult = ParseResult(valueOf: CommonOption -> Value)

  class CommonOption {
    // the type argument T
    const tag: TypeTag
    // IOption<T>: `Names { get; init; }` and the auto-properties of the class
    const names: seq<string>
    var valueHelpName: Nullable<string>
    var value: Value
    // state of the library base class System.CommandLine.Option<T>
    const name: string
    const aliases: seq<string>
    var description: Nullable<string>
    var allowMultipleArgumentsPerToken: bool
    var required: bool
    var defaultValueFactory: Nullable<DefaultFactory>
    var arity: Arity
    var customParser: Nullable<ParserAdapter>

    /** The constructor without a default provider. `names.First()` requires
        a non-empty collection; the parser's factories report the empty case. */
    constructor (tag: TypeTag, names: seq<string>, description: Nullable<string>,
                 allowMultipleValue: bool, isRequired: bool, valueHelpName: Nullable<string>)
      requires |names| > 0
      ensures this.tag == tag && this.names == names
      ensures name == names[0] && aliases == names
      ensures this.description == description && this.valueHelpName == valueHelpName
      ensures AllowMultipleValue() == allowMultipleValue && IsRequired() == isRequired
      ensures defaultValueFactory == Null && arity == LibraryDefault && customParser == Null
      ensures value == DefaultOf(tag)
    {
      this.tag := tag;
      this.names := names;
      this.name := names[0];
      this.aliases := names;
      this.valueHelpName := valueHelpName;
      this.description := description;
      this.allowMultipleArgumentsPerToken := allowMultipleValue;
      this.required := isRequired;
      this.defaultValueFactory := Null;
      this.arity := LibraryDefault;
      this.customParser := Null;
      this.value := DefaultOf(tag);
    }

    /** The constructor that also sets `DefaultValueFactory`. */
    constructor WithDefault(tag: TypeTag, names: seq<string>, getDefaultValue: DefaultFactory,
                            description: Nullable<string>, allowMultipleValue: bool,
                            isRequired: bool, valueHelpName: Nullable<string>)
      requires |names| > 0
      ensures this.tag == tag && this.names == names
      ensures name == names[0] && aliases == names
      ensures this.description == description && this.valueHelpName == valueHelpName
      ensures AllowMultipleValue() == allowMultipleValue && IsRequired() == isRequired
      ensures defaultValueFactory == NonNull(getDefaultValue)
      ensures arity == LibraryDefault && customParser == Null
      ensures value == DefaultOf(tag)
    {
      this.tag := tag;
      this.names := names;
      this.name := names[0];
      this.aliases := names;
      this.valueHelpName := valueHelpName;
      this.description := description;
      this.defaultValueFactory := NonNull(getDefaultValue);
      this.allowMultipleArgumentsPerToken := allowMultipleValue;
      this.required := isRequired;
      this.arity := LibraryDefault;
      this.customParser := Null;
      this.value := DefaultOf(tag);
    }

    /** `CustomOption<T>`: the base construction, then the arity (one or more
        tokens when several values are allowed, else exactly one) and the
        adapter that forwards the tokens to `parseValue`. A null `parseValue`
        is not rejected here; the adapter throws when the library runs it. */
    constructor Custom(tag: TypeTag, names: seq<string>, parseValue: Nullable<TokenParser>,
                       description: Nullable<string>, allowMultipleValue: bool,
                       isRequired: bool, valueHelpName: Nullable<string>)
      requires |names| > 0
      ensures this.tag == tag && this.names == names
      ensures name == names[0] && aliases == names
      ensures this.description == description && this.valueHelpName == valueHelpName
      ensures AllowMultipleValue() == allowMultipleValue && IsRequired() == isRequired
      ensures defaultValueFactory == Null
      ensures arity == (if allowMultipleValue then OneOrMore else ExactlyOne)
      ensures customParser == NonNull(ForwardTokens(parseValue))
      ensures value == DefaultOf(tag)
    {
      this.tag := tag;
      this.names := names;
      this.name := names[0];
      this.aliases := names;
      this.valueHelpName := valueHelpName;
      this.description := description;
      this.allowMultipleArgumentsPerToken := allowMultipleValue;
      this.required := isRequired;
      this.defaultValueFactory := Null;
      this.value := DefaultOf(tag);
      this.arity := if allowMultipleValue then OneOrMore else ExactlyOne;
      this.customParser := NonNull(ForwardTokens(parseValue));
    }

    /** `AllowMultipleValue`: a view of the library's
        `AllowMultipleArgumentsPerToken`, not a field of its own. */
    function AllowMultipleValue(): bool
      reads this
    {
      allowMultipleArgumentsPerToken
    }

    /** The `AllowMultipleValue` setter writes through to the library property. */
    method SetAllowMultipleValue(v: bool)
      modifies this`allowMultipleArgumentsPerToken
      ensures AllowMultipleValue() == v && allowMultipleArgumentsPerToken == v
    {
      allowMultipleArgumentsPerToken := v;
    }

    /** `IsRequired => Required`: a read-only view of the library property. */
    function IsRequired(): bool
      reads this
    {
      required
    }

    /** `IOption.Value`, the untyped view of the typed `Value`. */
    function UntypedValue(): Value
      reads this
    {
      value
    }

    /** `UpdateValue(result)`: a null result throws and leaves `Value` alone;
        otherwise `Value` becomes the library's value for this option. This is
        the only writer of `Value`. */
    method UpdateValue(result: Nullable<ParseResult>) returns (outcome: Outcome)
      modifies this`value
      ensures result.Null? ==> outcome == Fail(ArgumentNull("result")) && value == old(value)
      ensures result.NonNull? ==> outcome == Pass && value == result.value.valueOf(this)
      ensures UntypedValue() == value
    {
      if result.Null? {
        return Fail(ArgumentNull("result"));
      }
      value := result.value.valueOf(this);
      return Pass;
    }

    /** What the library gets when it runs this option's `CustomParser` on an
        argument result holding `tokens`. */
    function RunCustomParser(tokens: seq<string>): (r: Nullable<Result<Value>>)
      reads this
      ensures customParser.Null? <==> r.Null?
      ensures customParser.NonNull? ==> r == NonNull(ParseArgument(NonNull(tokens), customParser.value.parseValue))
    {
      match customParser
      case Null => Null
      case NonNull(ForwardTokens(p)) => NonNull(ParseArgument(NonNull(tokens), p))
    }
  }

  /** `CustomOption.ParseArgument(result, parser)`: both arguments are
      null-checked, result first; then the token texts go to the host parser
      in token order and whatever it returns or throws is passed on. */
  function ParseArgument(result: Nullable<seq<string>>, parser: Nullable<TokenParser>): (r: Result<Value>)
    ensures result.Null? ==> r == Err(ArgumentNull("result"))
    ensures result.NonNull? && parser.Null? ==> r == Err(ArgumentNull("parser"))
    ensures result.NonNull? && parser.NonNull? ==> r == parser.value.run(result.value)
  {
    if result.Null? then Err(ArgumentNull("result"))
    else if parser.Null? then Err(ArgumentNull("parser"))
    else parser.value.run(result.value)
  }

  /** A custom option built from a host parser hands every token list to that
      parser unchanged, whatever the arity; built from a null parser it fails
      with ArgumentNullException("parser") on every run. */
  lemma CustomOptionForwardsTokens(o: CommonOption, parseValue: Nullable<TokenParser>, tokens: seq<string>)
    requires o.customParser == NonNull(ForwardTokens(parseValue))
    ensures parseValue.NonNull? ==> o.RunCustomParser(tokens) == NonNull(parseValue.value.run(tokens))
    ensures parseValue.Null? ==> o.RunCustomParser(tokens) == NonNull(Err(ArgumentNull("parser")))
  {
  }
}
