/** The oldest declared command (MiscrosoftCommandLine.Command.cs): a
    command value with `FindOption` and `FindOption<T>`. There is no async
    command in this revision. `AliasLists` repeats the one of `Commands`,
    since this revision declares its own `IOption` entries. */
module LegacyCommands {
  import opened Runtime
  import opened Lookup
  import LegacyOptions

  /** An element of a command's `Options`: one of the revision's own
      options; a host `IOption` derived from the library's `Option<T>`,
      added but not refreshed; or one the host implemented without it. */
  datatype OptionEntry =
    | Own(slot: LegacyOptions.Option)
    | Derived(names: seq<string>, tag: TypeTag, value: Value)
    | Foreign(names: seq<string>, tag: TypeTag, value: Value)

  /** `Command`; the collection properties may be null, and `Name` is fixed
      at initialisation. */
  datatype Command = Command(name: string, description: Nullable<string>,
                             options: Nullable<seq<OptionEntry>>, subcommands: CommandList,
                             action: Nullable<ActionId>)

  /** A command's `Subcommands`: null, or the listed commands in order. */
  datatype CommandList = NullList | List(items: seq<Command>)

  function Items(l: CommandList): seq<Command> {
    if l.NullList? then [] else l.items
  }

  function Entries(c: Command): seq<OptionEntry> {
    if c.options.Null? then [] else c.options.value
  }

  function NamesOf(e: OptionEntry): seq<string> {
    match e
    case Own(o) => o.names
    case Derived(n, _, _) => n
    case Foreign(n, _, _) => n
  }

  function TagOf(e: OptionEntry): TypeTag {
    match e
    case Own(o) => o.tag
    case Derived(_, t, _) => t
    case Foreign(_, t, _) => t
  }

  /** The `Names` of each entry, in collection order. */
  function AliasLists(entries: seq<OptionEntry>): (r: seq<seq<string>>)
    ensures |r| == |entries|
    ensures forall k :: 0 <= k < |entries| ==> r[k] == NamesOf(entries[k])
  {
    seq(|entries|, k requires 0 <= k < |entries| => NamesOf(entries[k]))
  }

  /** `FindOption(name)`: the first option whose `Names` contain `name`, or
      null; a null `Options` makes the LINQ query throw. */
  function FindOption(c: Command, name: string): (r: Result<Nullable<OptionEntry>>)
    ensures c.options.Null? <==> r == Err(ArgumentNull("source"))
    ensures r == Ok(Null) <==>
      c.options.NonNull? && forall j :: 0 <= j < |c.options.value| ==> name !in NamesOf(c.options.value[j])
    ensures r.Ok? && r.value.NonNull? ==>
      exists k :: IsFirstNamed(AliasLists(c.options.value), name, k) && c.options.value[k] == r.value.value
  {
    match c.options
    case Null => Err(ArgumentNull("source"))
    case NonNull(entries) =>
      var k := FirstNamed(AliasLists(entries), name);
      if k < |entries| then Ok(NonNull(entries[k])) else Ok(Null)
  }

  /** `FindOption<T>(name)`: `FindOption(name) as IOption<T>`. */
  function FindTypedOption(c: Command, name: string, t: TypeTag): (r: Result<Nullable<OptionEntry>>)
    ensures FindOption(c, name).Err? ==> r == FindOption(c, name)
    ensures r.Ok? && r.value.NonNull? <==>
      FindOption(c, name).Ok? && FindOption(c, name).value.NonNull? && TagOf(FindOption(c, name).value.value) == t
    ensures r.Ok? && r.value.NonNull? ==> r.value == FindOption(c, name).value
    ensures FindOption(c, name).Ok? ==> r.Ok?
  {
    match FindOption(c, name)
    case Err(e) => Err(e)
    case Ok(Null) => Ok(Null)
    case Ok(NonNull(e)) => if TagOf(e) == t then Ok(NonNull(e)) else Ok(Null)
  }

  /** With distinct aliases, every alias of an option (`-i`, `--int`,
      `/Int`) finds that option. */
  lemma EveryAliasFindsItsOption(c: Command, k: nat, name: string)
    requires c.options.NonNull? && k < |c.options.value|
    requires DistinctAliases(AliasLists(c.options.value))
    requires name in NamesOf(c.options.value[k])
    ensures FindOption(c, name) == Ok(NonNull(c.options.value[k]))
    ensures FindTypedOption(c, name, TagOf(c.options.value[k])) == Ok(NonNull(c.options.value[k]))
  {
    EveryAliasFindsItsPosition(AliasLists(c.options.value), k, name);
  }

  /** A name no option carries (`-U`, `--unknown`, `/Unknown`) finds
      nothing, typed or not. */
  lemma UnknownNameFindsNothing(c: Command, name: string, t: TypeTag)
    requires c.options.NonNull?
    requires forall j :: 0 <= j < |c.options.value| ==> name !in NamesOf(c.options.value[j])
    ensures FindOption(c, name) == Ok(Null) && FindTypedOption(c, name, t) == Ok(Null)
  {
  }
}
