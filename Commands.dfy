/** The declared command tree of the current backend: `Command`,
    `AsyncCommand` and the option lookups of `Command`. A command is a value;
    the options it lists are `CommonOption` objects whose value slots the
    binder updates, or host objects implementing `IOption` directly. */
module Commands {
  import opened Runtime
  import opened Options
  import opened Lookup

  /** An element of a command's `Options`: one of the backend's own options
      (a library option that is also an `IValueUpdater`); a host `IOption`
      whose class derives from the library's `Option<T>`, which the binder
      adds but never refreshes, since `IValueUpdater` is internal; or an
      `IOption` the host implemented without it, which the binder skips. */
  datatype OptionEntry =
    | Own(slot: CommonOption)
    | Derived(names: seq<string>, tag: TypeTag, value: Value)
    | Foreign(names: seq<string>, tag: TypeTag, value: Value)

  /** `Command` (with a synchronous `Action`) or `AsyncCommand` (which adds
      `AsyncAction`). The collection properties may be null. */
  datatype Command =
    | Command(name: string, description: Nullable<string>, options: Nullable<seq<OptionEntry>>,
              subcommands: CommandList, action: Nullable<ActionId>)
    | AsyncCommand(name: string, description: Nullable<string>, options: Nullable<seq<OptionEntry>>,
                   subcommands: CommandList, action: Nullable<ActionId>,
                   asyncAction: Nullable<ActionId>)

  /** A command's `Subcommands`: null, or the listed commands in order. */
  datatype CommandList = NullList | List(items: seq<Command>)

  /** The listed subcommands, none when the collection is null. */
  function Items(l: CommandList): seq<Command> {
    if l.NullList? then [] else l.items
  }

  /** The listed options, none when the collection is null. */
  function Entries(c: Command): seq<OptionEntry> {
    if c.options.Null? then [] else c.options.value
  }

  function NamesOf(e: OptionEntry): seq<string> {
    match e
    case Own(o) => o.names
    case Derived(n, _, _) => n
    case Foreign(n, _, _) => n
  }

  function TagOf(e: OptionEntry): TypeTag {
    match e
    case Own(o) => o.tag
    case Derived(_, t, _) => t
    case Foreign(_, t, _) => t
  }

  /** The objects an entry's `Value` is read from. */
  function Footprint(e: OptionEntry): set<object> {
    if e.Own? then {e.slot} else {}
  }

  /** `IOption.Value` of an entry. */
  function ValueOf(e: OptionEntry): Value
    reads Footprint(e)
  {
    match e
    case Own(o) => o.value
    case Derived(_, _, v) => v
    case Foreign(_, _, v) => v
  }

  /** The option objects listed, directly, by a sequence of entries. */
  function Slots(entries: seq<OptionEntry>): set<CommonOption> {
    set k | 0 <= k < |entries| && entries[k].Own? :: entries[k].slot
  }

  /** `IOption.Value` of each entry, in collection order. */
  function Values(entries: seq<OptionEntry>): (vs: seq<Value>)
    reads Slots(entries)
  {
    seq(|entries|, k requires 0 <= k < |entries| reads Slots(entries) => ValueOf(entries[k]))
  }

  /** The command's own option objects (none when `Options` is null). */
  function CommandSlots(c: Command): set<CommonOption> {
    if c.options.Null? then {} else Slots(c.options.value)
  }

  /** The `Names` of each entry, in collection order. */
  function AliasLists(entries: seq<OptionEntry>): (r: seq<seq<string>>)
    ensures |r| == |entries|
    ensures forall k :: 0 <= k < |entries| ==> r[k] == NamesOf(entries[k])
  {
    seq(|entries|, k requires 0 <= k < |entries| => NamesOf(entries[k]))
  }

  /** `GetOption(name)`: the LINQ query over `Options` (which throws
      ArgumentNullException("source") when `Options` is null) and
      `FirstOrDefault`: the first option whose `Names` contain `name`, or null. */
  function GetOption(c: Command, name: string): (r: Result<Nullable<OptionEntry>>)
    ensures c.options.Null? <==> r.Err?
    ensures r.Err? ==> r.error == ArgumentNull("source")
    ensures r == Ok(Null) <==>
      c.options.NonNull? && forall j :: 0 <= j < |c.options.value| ==> name !in NamesOf(c.options.value[j])
    ensures r.Ok? && r.value.NonNull? ==>
      exists k :: IsFirstNamed(AliasLists(c.options.value), name, k) && c.options.value[k] == r.value.value
  {
    match c.options
    case Null => Err(ArgumentNull("source"))
    case NonNull(entries) =>
      var k := FirstNamed(AliasLists(entries), name);
      if k < |entries| then Ok(NonNull(entries[k])) else Ok(Null)
  }

  /** `GetOption<T>(name)`: `GetOption(name) as IOption<T>`, null when the
      found option has another type argument. */
  function GetTypedOption(c: Command, name: string, t: TypeTag): (r: Result<Nullable<OptionEntry>>)
    ensures GetOption(c, name).Err? ==> r == GetOption(c, name)
    ensures GetOption(c, name).Ok? ==> r.Ok?
    ensures r.Ok? && r.value.NonNull? <==>
      GetOption(c, name).Ok? && GetOption(c, name).value.NonNull? && TagOf(GetOption(c, name).value.value) == t
    ensures r.Ok? && r.value.NonNull? ==> r.value == GetOption(c, name).value
  {
    match GetOption(c, name)
    case Err(e) => Err(e)
    case Ok(Null) => Ok(Null)
    case Ok(NonNull(e)) => if TagOf(e) == t then Ok(NonNull(e)) else Ok(Null)
  }

  /** `GetRequiredOption<T>(name)`: the typed option, or InvalidOperationException. */
  function GetRequiredOption(c: Command, name: string, t: TypeTag): (r: Result<OptionEntry>)
    ensures r.Ok? <==> GetTypedOption(c, name, t).Ok? && GetTypedOption(c, name, t).value.NonNull?
    ensures r.Ok? ==> r.value == GetTypedOption(c, name, t).value.value && TagOf(r.value) == t
    ensures GetTypedOption(c, name, t) == Ok(Null) ==> r == Err(InvalidOperation(""))
  {
    match GetTypedOption(c, name, t)
    case Err(e) => Err(e)
    case Ok(Null) => Err(InvalidOperation(""))
    case Ok(NonNull(e)) => Ok(e)
  }

  /** `GetValueOrDefualt<T>(name)` (the source's spelling): the typed option's
      `Value`, or `default(T)` when no option of type `T` has that name. */
  function GetValueOrDefault(c: Command, name: string, t: TypeTag): (r: Result<Value>)
    reads CommandSlots(c)
    ensures GetTypedOption(c, name, t).Err? ==> r.Err? && r.error == ArgumentNull("source")
    ensures GetTypedOption(c, name, t) == Ok(Null) ==> r == Ok(DefaultOf(t))
    ensures GetTypedOption(c, name, t).Ok? && GetTypedOption(c, name, t).value.NonNull? ==>
      r == Ok(ValueOf(GetTypedOption(c, name, t).value.value))
  {
    match GetTypedOption(c, name, t)
    case Err(e) => Err(e)
    case Ok(Null) => Ok(DefaultOf(t))
    case Ok(NonNull(e)) =>
      assert e in c.options.value;
      Ok(ValueOf(e))
  }

  /** `GetRequiredValue<T>(name)` as written: `GetValueOrDefualt<T>(name) ??
      throw`. It throws only when that value is null, so for a value type `T`
      a missing option yields `default(T)` instead of an exception. */
  function GetRequiredValue(c: Command, name: string, t: TypeTag): (r: Result<Value>)
    reads CommandSlots(c)
    ensures GetValueOrDefault(c, name, t).Err? ==> r == GetValueOrDefault(c, name, t)
    ensures GetValueOrDefault(c, name, t) == Ok(NullValue) <==> r == Err(InvalidOperation(""))
    ensures r.Ok? ==> r == GetValueOrDefault(c, name, t) && r.value != NullValue
  {
    match GetValueOrDefault(c, name, t)
    case Err(e) => Err(e)
    case Ok(v) => if v == NullValue then Err(InvalidOperation("")) else Ok(v)
  }

  /** The lookup `GetRequiredValue<T>` is meant to be: the bound value of the
      typed option, and InvalidOperationException when there is no such
      option or its value is null. */
  function GetRequiredValueChecked(c: Command, name: string, t: TypeTag): (r: Result<Value>)
    reads CommandSlots(c)
    ensures GetTypedOption(c, name, t) == Ok(Null) ==> r == Err(InvalidOperation(""))
    ensures r.Ok? <==> GetRequiredOption(c, name, t).Ok? && ValueOf(GetRequiredOption(c, name, t).value) != NullValue
    ensures r.Ok? ==> r.value == ValueOf(GetRequiredOption(c, name, t).value)
  {
    match GetRequiredOption(c, name, t)
    case Err(e) => Err(e)
    case Ok(e) =>
      assert e in c.options.value;
      if ValueOf(e) == NullValue then Err(InvalidOperation("")) else Ok(ValueOf(e))
  }

  /** The written lookup fails to reject a missing option of a value type:
      it returns `default(T)` where `GetRequiredOption<T>` throws. */
  lemma RequiredValueAcceptsMissingValueType(c: Command, name: string, t: TypeTag)
    requires c.options.NonNull? && t.isValueType
    requires forall j :: 0 <= j < |c.options.value| ==> name !in NamesOf(c.options.value[j])
    ensures GetRequiredOption(c, name, t) == Err(InvalidOperation(""))
    ensures GetRequiredValue(c, name, t) == Ok(Zero(t))
    ensures GetRequiredValueChecked(c, name, t) == Err(InvalidOperation(""))
  {
  }

  /** Where a typed option exists, the corrected lookup and the written one
      agree. */
  lemma RequiredValueCheckedAgrees(c: Command, name: string, t: TypeTag)
    requires GetTypedOption(c, name, t).Ok? && GetTypedOption(c, name, t).value.NonNull?
    ensures GetRequiredValueChecked(c, name, t) == GetRequiredValue(c, name, t)
  {
  }

  /** With distinct aliases, each alias of an option finds that option (`-i`,
      `--int` and `/Int` all resolve to one `int` option). */
  lemma EveryAliasFindsItsOption(c: Command, k: nat, name: string)
    requires c.options.NonNull? && k < |c.options.value|
    requires DistinctAliases(AliasLists(c.options.value))
    requires name in NamesOf(c.options.value[k])
    ensures GetOption(c, name) == Ok(NonNull(c.options.value[k]))
  {
    EveryAliasFindsItsPosition(AliasLists(c.options.value), k, name);
  }

  /** A name no option carries (`-U`, `--unknown`, `/Unknown`) finds nothing,
      typed or not, and the required lookup throws. */
  lemma UnknownNameFindsNothing(c: Command, name: string, t: TypeTag)
    requires c.options.NonNull?
    requires forall j :: 0 <= j < |c.options.value| ==> name !in NamesOf(c.options.value[j])
    ensures GetOption(c, name) == Ok(Null) && GetTypedOption(c, name, t) == Ok(Null)
    ensures GetRequiredOption(c, name, t) == Err(InvalidOperation(""))
  {
  }
}
