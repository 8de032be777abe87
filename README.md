# console-toolkit command-line core, modelled in Dafny

This project models the core of the Eppie console toolkit (`Tuvi.Toolkit.Cli`).
The toolkit has three parts:
- a declaration model of commands and options, with alias lookup;
- a binder that maps a declared command tree onto the `System.CommandLine` argument library and dispatches to host actions;
- console input helpers.

Three binder revisions are modelled side by side:
- the current `Parser` with `CommonOption<T>`/`CustomOption<T>`;
- an earlier `Option<T>`/`CustomOption<T>` over an older library;
- the oldest `Parser`/`Command`/`Option<T>`, in the folder the repository spells `MiscrosoftCommandLine`.

The custom value type of the test project, `CustomData`, comes with its text parser.

The modules, one per source file or concept:

- `Runtime`: nullable references, the exceptions thrown, `Result`/`Outcome`, type tags, boxed option values, and `char.IsWhiteSpace`.
- `Lookup`: the "first option whose `Names` contain a name" search shared by every `Command` revision.
- `Options`: `CommonOption<T>` and `CustomOption<T>` of the current backend, as a class whose `value` slot `UpdateValue` overwrites.
- `Commands`: the current `Command`/`AsyncCommand` as values, and their lookups `GetOption`, `GetOption<T>`, `GetRequiredOption<T>`, `GetValueOrDefualt<T>` and `GetRequiredValue<T>`.
- `Binder`:
  - the current `Parser`: its factories, `Bind`, the recursive `BindCommand`/`BindCommands` (methods with loops, proved equal to a specification function `Bound`), and `Invoke`;
  - the bound action, which refreshes each option slot in collection order and then records the host delegate's run in a trace.
- `EarlyOptions`: the earlier `Option<T>`/`CustomOption<T>`.
- `LegacyOptions`, `LegacyCommands`, `LegacyParser`: the oldest revision.
- `CustomValues`: `CustomData.Parse(string)`, `Parse(IEnumerable)`, `ParseList`, and the printing they invert.
- `ConsoleInput`: `ReadValue`, `ReadBool`, `ReadSecretLine` and `ReadMultiLine`, as methods of a `Terminal` object that holds:
  - the input lines still to come;
  - the key presses still to come;
  - the text written so far;
  - `TreatControlCAsInput`.

What the argument library does with a command line is an input.
- `Invoke` receives its verdict on the bound tree as a function: either the library handled the line and gives an exit code, or it selected a node and gives a parse result.
- A parse result is a function from option objects to values.

Exceptions are `Err`/`Fail` results that carry the exception and its parameter name.

All source paths below are relative to the repository root.

## Model

| member | source | states |
|---|---|---|
| Lookup.FirstNamed | source/console-toolkit/CommandLine/Parser/MicrosoftCommandLine.Command.cs:29-32 | the result is the position of the first alias list containing the name, or the length of the collection exactly when no list contains it |
| Lookup.EveryAliasFindsItsPosition | source/test/Data/ParserData.cs:68-71 | when no alias is shared between options, every alias of the option at position k finds k |
| Options.CommonOption.constructor | source/console-toolkit/CommandLine/Parser/MicrosoftCommandLine/Option.cs:31-44 | Names are kept as given, the first name is the library name and all names are aliases; description, help name, multiplicity and requiredness are the arguments; no default factory; Value is default(T) |
| Options.CommonOption.WithDefault | source/console-toolkit/CommandLine/Parser/MicrosoftCommandLine/Option.cs:46-61 | as the plain constructor, and DefaultValueFactory is the given provider |
| Options.CommonOption.Custom | source/console-toolkit/CommandLine/Parser/MicrosoftCommandLine/Option.cs:81-94 | the base construction, then arity OneOrMore when several values are allowed and ExactlyOne otherwise, and a custom parser that forwards to parseValue |
| Options.CommonOption.SetAllowMultipleValue | source/console-toolkit/CommandLine/Parser/MicrosoftCommandLine/Option.cs:66 | writing AllowMultipleValue writes AllowMultipleArgumentsPerToken and reads back through both |
| Options.CommonOption.UpdateValue | source/console-toolkit/CommandLine/Parser/MicrosoftCommandLine/Option.cs:67-78 | a null result fails with ArgumentNullException("result") and keeps Value; otherwise Value becomes the result's value for this option; the untyped Value always equals the typed one |
| Options.CommonOption.RunCustomParser | source/console-toolkit/CommandLine/Parser/MicrosoftCommandLine/Option.cs:93 | the library's custom parser, when set, is ParseArgument over the tokens and the captured host parser |
| Options.ParseArgument | source/console-toolkit/CommandLine/Parser/MicrosoftCommandLine/Option.cs:96-103 | a null result, then a null parser, throw ArgumentNullException with that name; otherwise the host parser's outcome on the token texts, unchanged |
| Options.CustomOptionForwardsTokens | source/console-toolkit/CommandLine/Parser/MicrosoftCommandLine/Option.cs:93-102 | a custom option hands every token list, in order, to its host parser and returns what that parser returns; with a null parser every run fails with ArgumentNullException("parser") |
| Commands.AliasLists | source/console-toolkit/CommandLine/Parser/MicrosoftCommandLine.Command.cs:31 | one alias list per option, in collection order, each the option's Names |
| Commands.GetOption | source/console-toolkit/CommandLine/Parser/MicrosoftCommandLine.Command.cs:29-32 | fails with ArgumentNullException("source") exactly when Options is null; null exactly when no option carries the name; otherwise the first option whose Names contain it |
| Commands.GetTypedOption | source/console-toolkit/CommandLine/Parser/MicrosoftCommandLine.Command.cs:34-37 | GetOption's option when it has type argument T, null otherwise; errors are passed on |
| Commands.GetRequiredOption | source/console-toolkit/CommandLine/Parser/MicrosoftCommandLine.Command.cs:39-42 | the typed option when there is one; InvalidOperationException when the typed lookup finds none |
| Commands.GetValueOrDefault | source/console-toolkit/CommandLine/Parser/MicrosoftCommandLine.Command.cs:44-53 | the typed option's Value, or default(T) when there is no typed option |
| Commands.GetRequiredValue | source/console-toolkit/CommandLine/Parser/MicrosoftCommandLine.Command.cs:55-58 | throws InvalidOperationException exactly when GetValueOrDefualt gives null; otherwise returns that value |
| Commands.GetRequiredValueChecked | source/console-toolkit/CommandLine/Parser/MicrosoftCommandLine.Command.cs:39-58 | the value of the required typed option; InvalidOperationException when no typed option exists or its value is null |
| Commands.RequiredValueAcceptsMissingValueType | source/console-toolkit/CommandLine/Parser/MicrosoftCommandLine.Command.cs:55-58 | for a value type T and a name no option carries, GetRequiredOption throws but GetRequiredValue returns default(T) |
| Commands.RequiredValueCheckedAgrees | source/console-toolkit/CommandLine/Parser/MicrosoftCommandLine.Command.cs:55-58 | where a typed option exists, the corrected lookup and the written one agree |
| Commands.EveryAliasFindsItsOption | source/test/Data/ParserData.cs:68-71 | with distinct aliases, each alias of an option finds that option |
| Commands.UnknownNameFindsNothing | source/test/Data/ParserData.cs:80-82 | a name no option carries finds nothing, typed or not, and the required lookup throws |
| Binder.CreateCommand | source/console-toolkit/CommandLine/Parser/MicrosoftCommandLine/Parser.cs:36-51 | a synchronous command whose name, description, options, subcommands and action are the arguments |
| Binder.CreateRoot | source/console-toolkit/CommandLine/Parser/MicrosoftCommandLine/Parser.cs:27-34 | equals CreateCommand with the name "" |
| Binder.CreateAsyncCommand | source/console-toolkit/CommandLine/Parser/MicrosoftCommandLine/Parser.cs:62-77 | an async command with the given name, description and collections, AsyncAction the given delegate and Action null |
| Binder.CreateAsyncRoot | source/console-toolkit/CommandLine/Parser/MicrosoftCommandLine/Parser.cs:53-60 | equals CreateAsyncCommand with the name "" |
| Binder.CreatedRootsIgnoreName | source/console-toolkit/CommandLine/Parser/MicrosoftCommandLine/Parser.cs:27-77 | whatever name a root is declared with, it binds to the same library tree as the one CreateRoot or CreateAsyncRoot makes |
| Binder.CreateOption | source/console-toolkit/CommandLine/Parser/MicrosoftCommandLine/Parser.cs:79-90 | the default-provider constructor exactly when getDefaultValue is non-null, with every field from the arguments; empty names fail as First() does |
| Binder.CreateCustomOption | source/console-toolkit/CommandLine/Parser/MicrosoftCommandLine/Parser.cs:92-101 | a fresh custom option over parseValue, with the arity chosen from allowMultipleValue |
| Binder.LibraryOptionsFilter | source/console-toolkit/CommandLine/Parser/MicrosoftCommandLine/Parser.cs:148 | the options added are exactly the entries that are library options: the backend's own and the host's options derived from the library's class; host options without that class are skipped; no more than the collection lists |
| Binder.LibraryOptionsAppend | source/console-toolkit/CommandLine/Parser/MicrosoftCommandLine/Parser.cs:148 | the filter keeps collection order: filtering a concatenation concatenates the filtered parts |
| Binder.AddOptions | source/console-toolkit/CommandLine/Parser/MicrosoftCommandLine/Parser.cs:148 | the loop appends the library options of the collection (own and host-derived), in order, to the library command and changes nothing else |
| Binder.BindCommand | source/console-toolkit/CommandLine/Parser/MicrosoftCommandLine/Parser.cs:140-181 | the built library command equals the specification Bound(command, isRoot) |
| Binder.BindCommands | source/console-toolkit/CommandLine/Parser/MicrosoftCommandLine/Parser.cs:130-138 | the loop appends the binding of every listed subcommand, in list order; a null collection adds nothing |
| Binder.BoundMirrors | source/console-toolkit/CommandLine/Parser/MicrosoftCommandLine/Parser.cs:140-181 | the root loses its name and gets a non-null description; other nodes keep both; the node's options are the library options of the collection; the async action is installed exactly for an async command and captures the command; the action refreshes exactly the backend's own options among them; children mirror the subcommands |
| Binder.NullCollectionsAreEmpty | source/console-toolkit/CommandLine/Parser/MicrosoftCommandLine/Parser.cs:134-178 | null Options or Subcommands bind like empty ones: no options, nothing refreshed, no children |
| Binder.PathsCorrespond | source/console-toolkit/CommandLine/Parser/MicrosoftCommandLine/Parser.cs:136-178 | the bound and declared trees have the same paths, and each bound node is the binding of the declared command at that path |
| Binder.RootNameIgnored | source/console-toolkit/CommandLine/Parser/MicrosoftCommandLine/Parser.cs:144-145 | renaming the root changes nothing in its binding |
| Binder.RefreshedValues | source/console-toolkit/CommandLine/Parser/MicrosoftCommandLine/Parser.cs:169-172 | after a refresh, an own option (`IValueUpdater`) holds the parsed value and every other entry, host-derived or host-implemented, keeps its value, position by position |
| Binder.DerivedOptionBoundNotRefreshed | source/console-toolkit/CommandLine/Parser/MicrosoftCommandLine/Parser.cs:148-172 | a host option derived from the library's class is added to the library command but the action leaves its value as the host has it |
| Binder.Parser.constructor | source/console-toolkit/CommandLine/Parser/MicrosoftCommandLine/Parser.cs:23 | no root is bound and nothing has run |
| Binder.Parser.Root | source/console-toolkit/CommandLine/Parser/MicrosoftCommandLine/Parser.cs:25 | the bound root, or InvalidOperationException("Root command not defined") exactly when none is bound |
| Binder.Parser.Bind | source/console-toolkit/CommandLine/Parser/MicrosoftCommandLine/Parser.cs:103-108 | a null root fails with ArgumentNullException("root") and keeps the old binding; otherwise the fresh binding replaces the old one |
| Binder.Parser.RunAction | source/console-toolkit/CommandLine/Parser/MicrosoftCommandLine/Parser.cs:150-175 | every own option of the command holds its parsed value; then the trace gains the synchronous Action's run for a Command, or the AsyncAction's run for an AsyncCommand, with the refreshed values; nothing runs when that delegate is null |
| Binder.Parser.Invoke | source/console-toolkit/CommandLine/Parser/MicrosoftCommandLine/Parser.cs:110-128 | with no root bound it throws "Root command not defined" and runs nothing; handled lines return the library's code; otherwise the selected node's action runs and 0 is returned |
| Binder.DispatchReachesDeclared | source/console-toolkit/CommandLine/Parser/MicrosoftCommandLine/Parser.cs:150-178 | invoking the tree bound from a declared root runs, for the declared command at the selected path, its AsyncAction if it is async and its Action otherwise, with refreshed values |
| EarlyOptions.Option.constructor | source/console-toolkit/CommandLine/Parser/MicrosoftCommandLine.Option.cs:31-43 | Names as given and all names as aliases; ValueHelpName, AllowMultipleValue and IsRequired from the arguments; Value is default(T) |
| EarlyOptions.Option.WithDefault | source/console-toolkit/CommandLine/Parser/MicrosoftCommandLine.Option.cs:45-58 | as the plain constructor, with the default provider handed to the library |
| EarlyOptions.Option.WithParser | source/console-toolkit/CommandLine/Parser/MicrosoftCommandLine.Option.cs:60-74 | as the plain constructor, with the parse delegate and its isDefault flag handed to the library |
| EarlyOptions.Option.Custom | source/console-toolkit/CommandLine/Parser/MicrosoftCommandLine.Option.cs:93-103 | the first-token parser for T, and arity OneOrMore regardless of allowMultipleValue |
| EarlyOptions.Option.SetValueHelpName | source/console-toolkit/CommandLine/Parser/MicrosoftCommandLine.Option.cs:78 | ValueHelpName and ArgumentHelpName are one storage |
| EarlyOptions.Option.SetAllowMultipleValue | source/console-toolkit/CommandLine/Parser/MicrosoftCommandLine.Option.cs:79 | AllowMultipleValue and AllowMultipleArgumentsPerToken are one storage |
| EarlyOptions.Option.SetIsRequired | source/console-toolkit/CommandLine/Parser/MicrosoftCommandLine.Option.cs:42 | IsRequired is the library's own settable property and takes the value set |
| EarlyOptions.Option.UpdateValue | source/console-toolkit/CommandLine/Parser/MicrosoftCommandLine.Option.cs:80-87 | Value becomes the result's value for this option; a null result fails with NullReferenceException and keeps it; the untyped Value equals it |
| EarlyOptions.Option.RunParseArgument | source/console-toolkit/CommandLine/Parser/MicrosoftCommandLine.Option.cs:68 | the library's parse delegate, when set, is ParseArgument for the value type |
| EarlyOptions.FirstTokenOrEmpty | source/console-toolkit/CommandLine/Parser/MicrosoftCommandLine.Option.cs:107-112 | the first token's text, or "" when there is none |
| EarlyOptions.ParseArgumentSeesFirstTokenOnly | source/console-toolkit/CommandLine/Parser/MicrosoftCommandLine.Option.cs:105-115 | token lists that start alike parse alike; an empty list parses ""; otherwise the first token is parsed |
| EarlyOptions.CustomOptionReadsFirstToken | source/console-toolkit/CommandLine/Parser/MicrosoftCommandLine.Option.cs:100-115 | a custom option parses only its first token, or "" when there are none |
| LegacyOptions.Option.constructor | source/console-toolkit/CommandLine/Parser/MiscrosoftCommandLine.Option.cs:28-40 | Names as given and all names as aliases; ValueHelpName, AllowMultipleValue and IsRequired from the arguments; no default provider; Value is default(T) |
| LegacyOptions.Option.WithDefault | source/console-toolkit/CommandLine/Parser/MiscrosoftCommandLine.Option.cs:42-55 | as the plain constructor, with the default provider handed to the library |
| LegacyOptions.Option.SetValueHelpName | source/console-toolkit/CommandLine/Parser/MiscrosoftCommandLine.Option.cs:59 | ValueHelpName and ArgumentHelpName are one storage |
| LegacyOptions.Option.SetAllowMultipleValue | source/console-toolkit/CommandLine/Parser/MiscrosoftCommandLine.Option.cs:60 | AllowMultipleValue and AllowMultipleArgumentsPerToken are one storage |
| LegacyOptions.Option.SetIsRequired | source/console-toolkit/CommandLine/Parser/MiscrosoftCommandLine.Option.cs:39 | IsRequired is the library's own settable property and takes the value set |
| LegacyOptions.Option.UpdateValue | source/console-toolkit/CommandLine/Parser/MiscrosoftCommandLine.Option.cs:61-68 | Value becomes the result's value for this option; a null result fails with NullReferenceException and keeps it; the untyped Value equals it |
| LegacyCommands.AliasLists | source/console-toolkit/CommandLine/Parser/MiscrosoftCommandLine.Command.cs:31 | one Names list per entry, in collection order |
| LegacyCommands.FindOption | source/console-toolkit/CommandLine/Parser/MiscrosoftCommandLine.Command.cs:29-32 | fails exactly when Options is null; null exactly when no option carries the name; otherwise the first option whose Names contain it |
| LegacyCommands.FindTypedOption | source/console-toolkit/CommandLine/Parser/MiscrosoftCommandLine.Command.cs:34-37 | FindOption's option when it has type argument T, null otherwise |
| LegacyCommands.EveryAliasFindsItsOption | source/test/CommandLine.cs:294-296 | with distinct aliases, each alias finds its option, typed or not |
| LegacyCommands.UnknownNameFindsNothing | source/test/CommandLine.cs:306-308 | a name no option carries finds nothing, typed or not |
| LegacyParser.CreateCommand | source/console-toolkit/CommandLine/Parser/MiscrosoftCommandLine.Parser.cs:36-51 | a command whose fields are the arguments |
| LegacyParser.CreateRoot | source/console-toolkit/CommandLine/Parser/MiscrosoftCommandLine.Parser.cs:27-34 | equals CreateCommand with the name "" |
| LegacyParser.CreateOption | source/console-toolkit/CommandLine/Parser/MiscrosoftCommandLine.Parser.cs:53-67 | the default-provider constructor exactly when getDefaultValue is non-null, with every field from the arguments |
| LegacyParser.LibraryOptionsFilter | source/console-toolkit/CommandLine/Parser/MiscrosoftCommandLine.Parser.cs:104 | the options added are exactly the entries that are library options, own or host-derived |
| LegacyParser.AddOptions | source/console-toolkit/CommandLine/Parser/MiscrosoftCommandLine.Parser.cs:104 | the loop appends the library options (own and host-derived), in order |
| LegacyParser.BindCommand | source/console-toolkit/CommandLine/Parser/MiscrosoftCommandLine.Parser.cs:98-115 | the built library command equals the specification Bound(command, isRoot) |
| LegacyParser.BindCommands | source/console-toolkit/CommandLine/Parser/MiscrosoftCommandLine.Parser.cs:90-96 | each listed subcommand is bound and added, in list order; null adds nothing |
| LegacyParser.BoundMirrors | source/console-toolkit/CommandLine/Parser/MiscrosoftCommandLine.Parser.cs:98-115 | the root loses its name, other nodes keep name and description, the library options are added, and children mirror subcommands |
| LegacyParser.PathsCorrespond | source/console-toolkit/CommandLine/Parser/MiscrosoftCommandLine.Parser.cs:94-112 | both trees have the same paths, and each bound node's handler captures the declared command at that path |
| LegacyParser.RefreshedValues | source/console-toolkit/CommandLine/Parser/MiscrosoftCommandLine.Parser.cs:108 | after a refresh, own options hold parsed values and every other entry keeps its value |
| LegacyParser.DerivedOptionBoundNotRefreshed | source/console-toolkit/CommandLine/Parser/MiscrosoftCommandLine.Parser.cs:104-108 | a host option derived from the library's class is added to the library command but the handler leaves its value as the host has it |
| LegacyParser.Parser.constructor | source/console-toolkit/CommandLine/Parser/MiscrosoftCommandLine.Parser.cs:25 | no root is bound and nothing has run |
| LegacyParser.Parser.Bind | source/console-toolkit/CommandLine/Parser/MiscrosoftCommandLine.Parser.cs:69-72 | the fresh binding overwrites the old one; a null root fails with NullReferenceException before the assignment |
| LegacyParser.Parser.RunHandler | source/console-toolkit/CommandLine/Parser/MiscrosoftCommandLine.Parser.cs:106-110 | every own option holds its parsed value, then Action runs with the refreshed values unless it is null |
| LegacyParser.Parser.Invoke | source/console-toolkit/CommandLine/Parser/MiscrosoftCommandLine.Parser.cs:74-88 | with no root bound nothing happens at all; otherwise the selected node's handler runs |
| LegacyParser.DispatchReachesDeclared | source/console-toolkit/CommandLine/Parser/MiscrosoftCommandLine.Parser.cs:106-112 | invoking the tree bound from a declared root runs the Action of the declared command at the selected path |
| CustomValues.Split | source/test/Data/CustomData.cs:32 | String.Split(): one more field than there are white-space characters, and no field contains white space |
| CustomValues.SplitAt | source/test/Data/CustomData.cs:32 | a white-space-free prefix up to the first separator is the first field |
| CustomValues.SplitWord | source/test/Data/CustomData.cs:32 | a text without white space is one field |
| CustomValues.TrimEndPadding | source/test/Data/CustomData.cs:38-39 | trimming a padding of droppable characters off the end leaves the text before it, when that does not end in one |
| CustomValues.TrimStartPadding | source/test/Data/CustomData.cs:38-39 | the same at the start |
| CustomValues.PlainNumberBody | source/test/Data/CustomData.cs:38 | a number that neither starts with white space nor ends with white space or NUL is read as it stands |
| CustomValues.PaddedNumberParses | source/test/Data/CustomData.cs:38 | white space around a number and NULs after it do not change what int.Parse reads |
| CustomValues.ParseInt32 | source/test/Data/CustomData.cs:38 | failures are FormatException or OverflowException; what is read is the text without trailing NULs and surrounding white space; overflow only when that is a well-formed digit string |
| CustomValues.ParseBool | source/test/Data/CustomData.cs:39 | true exactly when the text, with white space and NUL trimmed from both ends, is "True" in any letter case; false exactly for "False" likewise; anything else is FormatException |
| CustomValues.TrimmedWordIsItself | source/test/Data/CustomData.cs:39 | "True" and "False" in any letter case are left as they are by the trimming |
| CustomValues.PaddedBoolParses | source/test/Data/CustomData.cs:39 | white space and NULs around a word do not change what bool.Parse reads |
| CustomValues.ParseText | source/test/Data/CustomData.cs:28-47 | succeeds exactly when there are two fields and both parse, with IntValue from the first and BoolValue from the second; every failure is CustomDataParseException("data") |
| CustomValues.ParseTokens | source/test/Data/CustomData.cs:49-52 | only the first token is parsed; no token parses "" and fails |
| CustomValues.ParseList | source/test/Data/CustomData.cs:54-57 | same count and order, element k being the parse of text k |
| CustomValues.DigitsRoundTrip | source/test/Data/CustomData.cs:38 | the decimal digits printed for a natural number denote that number |
| CustomValues.Int32RoundTrip | source/test/Data/CustomData.cs:38 | int.Parse reads back every printed int |
| CustomValues.BoolRoundTrip | source/test/Data/CustomData.cs:39 | bool.Parse reads back every printed bool |
| CustomValues.SplitPair | source/test/Data/CustomData.cs:32 | two white-space-free fields around one space split into exactly those two fields |
| CustomValues.MinValuePrinted | source/test/Data/ParserData.cs:85-88 | int.MinValue prints as "-2147483648" |
| CustomValues.TextRoundTrip | source/test/Data/CustomData.cs:28-47 | "<IntValue> <BoolValue>" parses back to the same record |
| CustomValues.NulPaddedIntParses | source/test/Data/CustomData.cs:38 | a printed int followed by NULs parses back to itself and holds no white space |
| CustomValues.NulPaddedBoolParses | source/test/Data/CustomData.cs:39 | a printed bool followed by NULs parses back to itself and holds no white space |
| CustomValues.NulPaddedTextParses | source/test/Data/CustomData.cs:31-47 | "<IntValue><NULs> <BoolValue><NULs>" parses back to the same record |
| CustomValues.NulPaddedExample | source/test/Data/CustomData.cs:31-47 | "1\0 True\0" parses to IntValue 1 and BoolValue true |
| CustomValues.MinValueTokenParses | source/test/Data/ParserData.cs:85-88 | the token "-2147483648 True" parses to IntValue int.MinValue and BoolValue true |
| CustomValues.FieldCountMatters | source/test/Data/CustomData.cs:34-46 | a text without exactly one separator fails |
| CustomValues.EmptyFails | source/test/Data/CustomData.cs:49-52 | no token at all, and the empty text, fail |
| ConsoleInput.Terminal.constructor | source/console-toolkit/ConsoleExtension.cs:26 | the console starts with the given input lines, key presses, NewLine and TreatControlCAsInput, and nothing written |
| ConsoleInput.Terminal.ReadLine | source/console-toolkit/ConsoleExtension.cs:170 | Console.ReadLine yields the next input line and consumes it, or null once the input is exhausted |
| ConsoleInput.Terminal.ReadKey | source/console-toolkit/ConsoleExtension.cs:98 | Console.ReadKey yields the next key press and consumes it, or InvalidOperationException when no key is left |
| ConsoleInput.AnswerMeansYes | source/console-toolkit/ConsoleExtension.cs:67-78 | the answer is yes exactly for a non-empty reply starting with y or Y; end of input and an empty reply are no |
| ConsoleInput.Terminal.ReadValue | source/console-toolkit/ConsoleExtension.cs:46-60 | a null writer, then a null reader, throw ArgumentNullException with that name before any I/O; otherwise the query is written once and the line read is returned unchanged |
| ConsoleInput.Terminal.ReadBool | source/console-toolkit/ConsoleExtension.cs:67-78 | a null writer throws first; otherwise the query is written and the answer is that of the next line |
| ConsoleInput.EditBuffer | source/console-toolkit/ConsoleExtension.cs:101-114 | Backspace removes the last character of a non-empty buffer, a non-control character is appended, every other key leaves the buffer unchanged |
| ConsoleInput.SecretLoop | source/console-toolkit/ConsoleExtension.cs:96-119 | the loop reads at least one key when there are keys and never more than there are |
| ConsoleInput.SecretStep | source/console-toolkit/ConsoleExtension.cs:96-119 | a key that neither cancels nor is Enter edits the buffer, echoes, and the loop goes on |
| ConsoleInput.SecretEnds | source/console-toolkit/ConsoleExtension.cs:96-123 | the loop ends with exhausted keys, with Ctrl+C after one more key and nothing echoed, or with Enter after one more key, edited and echoed like any other |
| ConsoleInput.Terminal.ReadSecretLine | source/console-toolkit/ConsoleExtension.cs:85-129 | the keys read, the fillers written, the new line after Enter and the result (text, null on Ctrl+C, or the ReadKey failure) are those of the specification loop; TreatControlCAsInput is restored on every path |
| ConsoleInput.SecretHasNoControl | source/console-toolkit/ConsoleExtension.cs:110-113 | the entered secret never contains a control character |
| ConsoleInput.TypedTextIsEntered | source/console-toolkit/ConsoleExtension.cs:96-123 | typing letters and digits and then Enter enters exactly that text, echoing one filler per character |
| ConsoleInput.BackspaceUndoesTyping | source/console-toolkit/ConsoleExtension.cs:101-114 | a Backspace right after a typed character takes it back |
| ConsoleInput.MarkerIndex | source/console-toolkit/ConsoleExtension.cs:168-182 | the position of the first line equal to the marker, or the number of lines when none is |
| ConsoleInput.Join | source/console-toolkit/ConsoleExtension.cs:184 | no parts give "", one part gives that part, and the length is the parts' total plus one separator between each two |
| ConsoleInput.JoinConcat | source/console-toolkit/ConsoleExtension.cs:184 | joining two non-empty runs of parts is joining each with one separator between them |
| ConsoleInput.MultiLineConsumed | source/console-toolkit/ConsoleExtension.cs:168-182 | the loop consumes no more lines than there are |
| ConsoleInput.Terminal.ReadMultiLine | source/console-toolkit/ConsoleExtension.cs:154-185 | a null, empty or white-space marker throws ArgumentNullException("endMarker") before any I/O; a non-empty query is written as a line; the lines through the marker are consumed and the result is MultiLineText of the input |
| ConsoleInput.MultiLineTextCases | source/console-toolkit/ConsoleExtension.cs:170-184 | the result is null exactly when the input ends before the marker or the marker comes first; otherwise it is the earlier lines joined by NewLine, and lines after the marker are ignored |
| ConsoleInput.MarkerAfter | source/console-toolkit/ConsoleExtension.cs:168-182 | a marker preceded by marker-free lines is found right after them |
| ConsoleInput.MultiLineExamples | source/test/ConsoleExtensionTests.cs:9-76 | the unit-test inputs give the tested results: null for a lone marker and for no input, the joined lines, the custom END marker, and "" for one empty line |
| ConsoleInput.BlankMarkersRejected | source/test/ConsoleExtensionTests.cs:46-56 | "", "   " and "          " are refused as markers; "EOF" and "END" are accepted |

## Left out

- The argument library (`System.CommandLine`) is not modelled. That covers tokenising, subcommand selection, required-option checks, multi-value accumulation, default values and type conversion. It also covers the validation of command names and option aliases: the library rejects an empty name or one containing white space, so `Bind` would throw where the model's `Binder.Parser.Bind` and `LegacyParser.Parser.Bind` succeed. Its verdict on a command line and its value for each option are inputs of `Invoke` and `UpdateValue`.
- Everything asynchronous is not modelled: `Task`, `await` and `ConfigureAwait`.
  - `InvokeAsync` is `Invoke`.
  - The async action is the same as the sync one: refresh the values, then record the delegate's run.
  - The `Invoke(string)` and `Invoke(string[])` overloads share one model, because both only hand the line to the library.
- What the host's delegates do (actions, default providers, custom parsers) is not modelled. The model records that an action ran, and takes a parser's outcome as given.
- Library command objects are values, not objects. The toolkit only builds them and never reads them back.
- Null elements inside a collection, and a null command passed to `BindCommand`/`BindCommands`, are left out. The `ThrowIfNull` guards on those are unreachable from `Bind`, which checks its root.
- Binder.Parser.Invoke: requires that a path the library selects exists in the bound tree, which the library guarantees.
- Options.CommonOption.constructor, Options.CommonOption.WithDefault, Options.CommonOption.Custom: require a non-empty alias list, on which `names.First()` throws. `Binder.CreateOption` and `Binder.CreateCustomOption` model that empty case.
- EarlyOptions.Option.constructor, EarlyOptions.Option.WithDefault, EarlyOptions.Option.WithParser, EarlyOptions.Option.Custom: require a non-empty alias list, because the older argument library refuses an option without one.
- LegacyOptions.Option.constructor, LegacyOptions.Option.WithDefault: require a non-empty alias list, for the same reason.
- LegacyParser.CreateOption: passes the non-empty alias requirement of the option constructors on to its callers.
- The current `CreateOption` passes a `Func<T>` where the constructor takes `Func<ArgumentResult, T>`. The model treats both as an opaque default provider.
- Options.ParseArgument: a null value returned by the host parser is passed on, not rejected. The code null-checks only `result` and `parser`.
- CustomValues.ParseInt32: culture-specific number formats are not modelled. The model reads an optional ASCII `-` or `+` sign, as the invariant and English cultures write it; other cultures' signs, digits and group separators are not modelled.
- `char` is a Unicode scalar value, as in Dafny. UTF-16 surrogate halves are not modelled.
- Console colours, `WriteLine`/`Write` with colours, and `EraseConsoleChar` are left out. So `ReadSecretLine`'s output omits the cursor moves and the blank that Backspace writes over the filler.
- The `ReadValue(query)` and `ReadBool(query = "(y/n): ")` overloads are the modelled calls with `Callback.ConsoleBacked` for each delegate. `DefaultBoolQuery` is the default prompt.
- A host-supplied writer or reader is modelled as the console's own. Any other delegate's behaviour is outside the toolkit.
- `Console.ReadKey` on exhausted or redirected input throws InvalidOperationException. The `ReadKey` model returns that error.
- Binder.Parser.RunAction: commands are snapshotted at `Bind`. `Name` is init-only, but `Description`, `Options`, `Subcommands`, `Action` and `AsyncAction` have setters, and the installed actions read `Options` and the action delegates when they run. A host that changes them after `Bind` changes which delegate fires and which options are refreshed; the model runs the command as it was at `Bind`. The command lookups only read, so they are functions on the command value.
- LegacyParser.Parser.RunHandler: the same snapshot at `Bind` holds for this revision, whose handler reads `Options` and `Action` when it runs.

## Findings

| source | as written | input that shows it | evidently intended | confidence | as-written member | corrected member |
|---|---|---|---|---|---|---|
| source/console-toolkit/CommandLine/Parser/MicrosoftCommandLine.Command.cs:55-58 | `GetValueOrDefualt<T>(name) ?? throw new InvalidOperationException()` throws only when that value is null | `GetRequiredValue<int>("--missing")` on a command with no such option returns 0 | a required value whose option is missing throws InvalidOperationException, as `GetRequiredOption<T>` does | not executed | Commands.RequiredValueAcceptsMissingValueType | Commands.GetRequiredValueChecked |
