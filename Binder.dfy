/** The current binding backend, `Parser` in MicrosoftCommandLine/Parser.cs:
    the factories for declared commands and options, the binder that turns a
    declared tree into the argument library's tree of commands, and the
    actions it installs on each bound node.

    The library's own work (tokenising, matching a subcommand, converting
    option tokens) is an input: `Invoke` receives the library's verdict on
    the bound tree as a function, and an option's parsed value is whatever
    the `ParseResult` yields for it. Library command objects are modelled as
    values, since the toolkit only builds them and never reads them back. */
module Binder {
  import opened Runtime
  import opened Options
  import opened Commands

  /** A `RootCommand` takes no name (the library names it after the
      executable); every other library command takes the declared name. */
  datatype NodeName = RootName | Named(name: string)

  /** The closure `BindCommand` hands to `SetAction`, with the declared
      command it captures: the synchronous one, or the async one for an
      `IAsyncCommand`. */
  datatype Handler = SyncHandler(command: Command) | AsyncHandler(command: Command)

  /** A `System.CommandLine.Command` as the binder leaves it: name,
      description, the added options in order, the action, and the added
      subcommands in order. */
  datatype BoundCommand = BoundCommand(name: NodeName, description: Nullable<string>,
                                       options: seq<OptionEntry>, handler: Handler,
                                       children: seq<BoundCommand>)

  /** A host delegate run by a bound action, with the values of the command's
      options (`IOption.Value`, in collection order) at the moment it ran. */
  datatype Event =
    | ActionCalled(action: ActionId, command: Command, values: seq<Value>)
    | AsyncActionAwaited(action: ActionId, command: Command, values: seq<Value>)

  /** What the argument library makes of a command line on the bound tree:
      either it handles the line itself (parse errors, help) and returns an
      exit code, or it selects the node at `path` and runs its action with
      the parse result. */
  datatype LibraryParse = Handled(exitCode: int) | Matched(path: seq<nat>, result: ParseResult)

  const RootMissing := "Root command not defined"

  /** Whether an entry is a `System.CommandLine.Option`, the type
      `OfType<System.CommandLine.Option>()` keeps: the backend's own options,
      and host options whose class derives from the library's. */
  predicate IsLibraryOption(e: OptionEntry) {
    e.Own? || e.Derived?
  }

  /** `OfType<System.CommandLine.Option>()`: the entries the library
      command receives, in order. */
  function LibraryOptions(entries: seq<OptionEntry>): seq<OptionEntry> {
    if |entries| == 0 then []
    else LibraryOptions(entries[..|entries| - 1]) +
         (if IsLibraryOption(entries[|entries| - 1]) then [entries[|entries| - 1]] else [])
  }

  /** The library command `BindCommand(c, isRoot)` builds. */
  function Bound(c: Command, isRoot: bool): BoundCommand
    decreases c, 1
  {
    BoundCommand(
      if isRoot then RootName else Named(c.name),
      if isRoot then NonNull(if c.description.Null? then "" else c.description.value) else c.description,
      LibraryOptions(Entries(c)),
      if c.AsyncCommand? then AsyncHandler(c) else SyncHandler(c),
      BoundChildren(c.subcommands, |Items(c.subcommands)|))
  }

  /** The bindings of the first `k` listed subcommands, in order. */
  function BoundChildren(subs: CommandList, k: nat): seq<BoundCommand>
    requires k <= |Items(subs)|
    decreases subs, 0, k
  {
    seq(k, i requires 0 <= i < k => Bound(subs.items[i], false))
  }

  /** Exactly the library options of the collection are added: the
      backend's own and the host's derived ones; options the host implemented
      without the library's class are skipped. */
  lemma {:induction false} LibraryOptionsFilter(entries: seq<OptionEntry>)
    ensures |LibraryOptions(entries)| <= |entries|
    ensures forall e :: e in LibraryOptions(entries) <==> e in entries && IsLibraryOption(e)
  {
    if |entries| > 0 {
      var init := entries[..|entries| - 1];
      LibraryOptionsFilter(init);
      assert entries == init + [entries[|entries| - 1]];
    }
  }

  /** Binding two collections one after the other adds the options of the
      first, then those of the second. */
  lemma {:induction false} LibraryOptionsAppend(a: seq<OptionEntry>, b: seq<OptionEntry>)
    ensures LibraryOptions(a + b) == LibraryOptions(a) + LibraryOptions(b)
    decreases |b|
  {
    if |b| > 0 {
      var b' := b[..|b| - 1];
      assert (a + b)[..|a + b| - 1] == a + b';
      LibraryOptionsAppend(a, b');
    } else {
      assert a + b == a;
    }
  }

  /** The bound tree mirrors the declared one node for node: the root drops
      its name and replaces a null description by "", other nodes keep both;
      the options are the library options in order, of which the action
      refreshes the backend's own ones; the action is the
      async one exactly for an `AsyncCommand`; and there is one child per
      subcommand, each the binding of that subcommand. */
  lemma BoundMirrors(c: Command, isRoot: bool)
    ensures isRoot ==> Bound(c, isRoot).name == RootName && Bound(c, isRoot).description.NonNull?
    ensures !isRoot ==> Bound(c, isRoot).name == Named(c.name) && Bound(c, isRoot).description == c.description
    ensures forall e :: e in Bound(c, isRoot).options <==> e in Entries(c) && IsLibraryOption(e)
    ensures Bound(c, isRoot).handler.AsyncHandler? <==> c.AsyncCommand?
    ensures Bound(c, isRoot).handler.command == c
    ensures forall o :: o in HandlerSlots(Bound(c, isRoot).handler) <==> Own(o) in Bound(c, isRoot).options
    ensures |Bound(c, isRoot).children| == |Items(c.subcommands)|
    ensures forall i :: 0 <= i < |Items(c.subcommands)| ==>
      Bound(c, isRoot).children[i] == Bound(Items(c.subcommands)[i], false)
  {
    LibraryOptionsFilter(Entries(c));
  }

  /** Two library commands that differ at most in the declared command
      their action captures. */
  predicate SameShape(a: BoundCommand, b: BoundCommand) {
    a.name == b.name && a.description == b.description && a.options == b.options &&
    a.children == b.children && a.handler.AsyncHandler? == b.handler.AsyncHandler?
  }

  /** A null `Options` or `Subcommands` binds exactly like an empty one:
      no options are added, the action refreshes nothing and reports no
      values, and no children are added. */
  lemma NullCollectionsAreEmpty(c: Command, isRoot: bool, result: ParseResult)
    ensures SameShape(Bound(c.(options := Null), isRoot), Bound(c.(options := NonNull([])), isRoot))
    ensures Bound(c.(options := Null), isRoot).options == []
    ensures RefreshedValues(Entries(c.(options := Null)), result) == []
    ensures HandlerSlots(Bound(c.(options := Null), isRoot).handler) == {}
    ensures SameShape(Bound(c.(subcommands := NullList), isRoot), Bound(c.(subcommands := List([])), isRoot))
    ensures Bound(c.(subcommands := NullList), isRoot).children == []
  {
  }

  /** The node a path of child indices reaches in a bound tree. */
  function NodeAt(b: BoundCommand, path: seq<nat>): Nullable<BoundCommand>
    decreases |path|
  {
    if |path| == 0 then NonNull(b)
    else if path[0] < |b.children| then NodeAt(b.children[path[0]], path[1..])
    else Null
  }

  /** The declared command a path of subcommand indices reaches. */
  function CommandAt(c: Command, path: seq<nat>): Nullable<Command>
    decreases |path|
  {
    if |path| == 0 then NonNull(c)
    else if path[0] < |Items(c.subcommands)| then CommandAt(Items(c.subcommands)[path[0]], path[1..])
    else Null
  }

  /** Every node of the bound tree is the binding of the declared command at
      the same path, and the trees have the same paths. */
  lemma {:induction false} PathsCorrespond(c: Command, isRoot: bool, path: seq<nat>)
    ensures NodeAt(Bound(c, isRoot), path).NonNull? <==> CommandAt(c, path).NonNull?
    ensures CommandAt(c, path).NonNull? ==>
      NodeAt(Bound(c, isRoot), path).value == Bound(CommandAt(c, path).value, isRoot && |path| == 0)
    decreases |path|
  {
    if |path| > 0 {
      BoundMirrors(c, isRoot);
      if path[0] < |Items(c.subcommands)| {
        PathsCorrespond(Items(c.subcommands)[path[0]], false, path[1..]);
      }
    }
  }

  /** The root command's declared name never reaches the bound tree. */
  lemma RootNameIgnored(c: Command, name: string)
    ensures SameShape(Bound(c.(name := name), true), Bound(c, true))
    ensures Bound(c.(name := name), true).name == RootName
  {
  }

  /** The values the host sees after a bound action refreshed the
      command's own options from `result` (`OfType<IValueUpdater>()`): the
      parsed value for each of them, the host's own value for every other
      entry, derived from the library's option class or not. */
  function RefreshedValues(entries: seq<OptionEntry>, result: ParseResult): (vs: seq<Value>)
    ensures |vs| == |entries|
    ensures forall k :: 0 <= k < |entries| && entries[k].Own? ==> vs[k] == result.valueOf(entries[k].slot)
    ensures forall k :: 0 <= k < |entries| && !entries[k].Own? ==> vs[k] == entries[k].value
  {
    seq(|entries|, k requires 0 <= k < |entries| =>
      if entries[k].Own? then result.valueOf(entries[k].slot) else entries[k].value)
  }

  /** A host option derived from the library's option class reaches the
      library command, which parses it, but the action leaves its value to
      the host. */
  lemma DerivedOptionBoundNotRefreshed(c: Command, isRoot: bool, result: ParseResult, k: nat)
    requires k < |Entries(c)| && Entries(c)[k].Derived?
    ensures Entries(c)[k] in Bound(c, isRoot).options
    ensures RefreshedValues(Entries(c), result)[k] == Entries(c)[k].value
  {
    LibraryOptionsFilter(Entries(c));
  }

  /** The host delegate a bound action runs once the values are refreshed:
      the synchronous `Action` for a `Command`, the `AsyncAction` (and never
      `Action`) for an `AsyncCommand`; none when that delegate is null. */
  function Fired(h: Handler, result: ParseResult): seq<Event> {
    var c := h.command;
    match h
    case SyncHandler(_) =>
      if c.action.Null? then [] else [ActionCalled(c.action.value, c, RefreshedValues(Entries(c), result))]
    case AsyncHandler(_) =>
      if !c.AsyncCommand? || c.asyncAction.Null? then []
      else [AsyncActionAwaited(c.asyncAction.value, c, RefreshedValues(Entries(c), result))]
  }

  /** The option objects a handler refreshes. */
  function HandlerSlots(h: Handler): set<CommonOption> {
    Slots(Entries(h.command))
  }

  /** `CreateCommand(name, description, options, subcommands, action)`. */
  function CreateCommand(name: string, description: string, options: Nullable<seq<OptionEntry>>,
                         subcommands: CommandList, action: Nullable<ActionId>): (c: Command)
    ensures c.Command? && c.name == name && c.description == NonNull(description)
    ensures c.options == options && c.subcommands == subcommands && c.action == action
  {
    Command(name, NonNull(description), options, subcommands, action)
  }

  /** `CreateRoot(description, options, subcommands, action)`: a command
      named "". */
  function CreateRoot(description: string, options: Nullable<seq<OptionEntry>>,
                      subcommands: CommandList, action: Nullable<ActionId>): (c: Command)
    ensures c == CreateCommand("", description, options, subcommands, action)
  {
    CreateCommand("", description, options, subcommands, action)
  }

  /** `CreateAsyncCommand(...)`: the delegate goes to `AsyncAction`; the
      synchronous `Action` stays null. */
  function CreateAsyncCommand(name: string, description: string, options: Nullable<seq<OptionEntry>>,
                              subcommands: CommandList, action: Nullable<ActionId>): (c: Command)
    ensures c.AsyncCommand? && c.name == name && c.description == NonNull(description)
    ensures c.options == options && c.subcommands == subcommands
    ensures c.action == Null && c.asyncAction == action
  {
    AsyncCommand(name, NonNull(description), options, subcommands, Null, action)
  }

  /** `CreateAsyncRoot(...)`: an async command named "". */
  function CreateAsyncRoot(description: string, options: Nullable<seq<OptionEntry>>,
                           subcommands: CommandList, action: Nullable<ActionId>): (c: Command)
    ensures c == CreateAsyncCommand("", description, options, subcommands, action)
  {
    CreateAsyncCommand("", description, options, subcommands, action)
  }

  /** Whatever name a root is declared with, it binds to the same tree as
      the one `CreateRoot` makes; likewise for async roots. */
  lemma CreatedRootsIgnoreName(name: string, description: string, options: Nullable<seq<OptionEntry>>,
                               subcommands: CommandList, action: Nullable<ActionId>)
    ensures SameShape(Bound(CreateCommand(name, description, options, subcommands, action), true),
                      Bound(CreateRoot(description, options, subcommands, action), true))
    ensures SameShape(Bound(CreateAsyncCommand(name, description, options, subcommands, action), true),
                      Bound(CreateAsyncRoot(description, options, subcommands, action), true))
  {
    RootNameIgnored(CreateRoot(description, options, subcommands, action), name);
    RootNameIgnored(CreateAsyncRoot(description, options, subcommands, action), name);
  }

  /** The exception `names.First()` throws on an empty collection. */
  const NoElements := "Sequence contains no elements"

  /** `CreateOption<T>`: the default-provider constructor exactly when
      `getDefaultValue` is non-null. */
  method CreateOption(tag: TypeTag, names: seq<string>, description: Nullable<string>,
                      getDefaultValue: Nullable<DefaultFactory>, allowMultipleValue: bool,
                      isRequired: bool, valueHelpName: Nullable<string>)
    returns (r: Result<CommonOption>)
    ensures |names| == 0 <==> r == Err(InvalidOperation(NoElements))
    ensures r.Ok? ==> fresh(r.value) && r.value.tag == tag && r.value.names == names
    ensures r.Ok? ==> r.value.name == names[0] && r.value.aliases == names
    ensures r.Ok? ==> r.value.description == description && r.value.valueHelpName == valueHelpName
    ensures r.Ok? ==> r.value.AllowMultipleValue() == allowMultipleValue && r.value.IsRequired() == isRequired
    ensures r.Ok? ==> r.value.defaultValueFactory == getDefaultValue
    ensures r.Ok? ==> r.value.arity == LibraryDefault && r.value.customParser == Null
    ensures r.Ok? ==> r.value.value == DefaultOf(tag)
  {
    if |names| == 0 {
      return Err(InvalidOperation(NoElements));
    }
    var o: CommonOption;
    if getDefaultValue.Null? {
      o := new CommonOption(tag, names, description, allowMultipleValue, isRequired, valueHelpName);
    } else {
      o := new CommonOption.WithDefault(tag, names, getDefaultValue.value, description,
                                        allowMultipleValue, isRequired, valueHelpName);
    }
    return Ok(o);
  }

  /** `CreateCustomOption<T>`: a `CustomOption<T>` over `parseValue`. */
  method CreateCustomOption(tag: TypeTag, names: seq<string>, parseValue: Nullable<TokenParser>,
                            description: Nullable<string>, allowMultipleValue: bool,
                            isRequired: bool, valueHelpName: Nullable<string>)
    returns (r: Result<CommonOption>)
    ensures |names| == 0 <==> r == Err(InvalidOperation(NoElements))
    ensures r.Ok? ==> fresh(r.value) && r.value.tag == tag && r.value.names == names
    ensures r.Ok? ==> r.value.name == names[0] && r.value.aliases == names
    ensures r.Ok? ==> r.value.description == description && r.value.valueHelpName == valueHelpName
    ensures r.Ok? ==> r.value.AllowMultipleValue() == allowMultipleValue && r.value.IsRequired() == isRequired
    ensures r.Ok? ==> r.value.arity == (if allowMultipleValue then OneOrMore else ExactlyOne)
    ensures r.Ok? ==> r.value.customParser == NonNull(ForwardTokens(parseValue))
    ensures r.Ok? ==> r.value.defaultValueFactory == Null && r.value.value == DefaultOf(tag)
  {
    if |names| == 0 {
      return Err(InvalidOperation(NoElements));
    }
    var o := new CommonOption.Custom(tag, names, parseValue, description, allowMultipleValue,
                                     isRequired, valueHelpName);
    return Ok(o);
  }

  /** `command.Options?.OfType<System.CommandLine.Option>().ToList().ForEach(cmd.Add)`. */
  method AddOptions(cmd: BoundCommand, entries: seq<OptionEntry>) returns (r: BoundCommand)
    ensures r == cmd.(options := cmd.options + LibraryOptions(entries))
  {
    r := cmd;
    var i := 0;
    while i < |entries|
      invariant 0 <= i <= |entries|
      invariant r == cmd.(options := cmd.options + LibraryOptions(entries[..i]))
    {
      assert entries[..i + 1][..i] == entries[..i];
      if IsLibraryOption(entries[i]) {
        r := r.(options := r.options + [entries[i]]);
      }
      i := i + 1;
    }
    assert entries[..|entries|] == entries;
  }

  /** `BindCommand(command, isRoot)`: build the library command, add the
      options, install the action, then bind the subcommands. */
  method BindCommand(command: Command, isRoot: bool) returns (cmd: BoundCommand)
    ensures cmd == Bound(command, isRoot)
    decreases command, 1
  {
    if isRoot {
      cmd := BoundCommand(RootName, NonNull(if command.description.Null? then "" else command.description.value),
                          [], SyncHandler(command), []);
    } else {
      cmd := BoundCommand(Named(command.name), command.description, [], SyncHandler(command), []);
    }
    cmd := AddOptions(cmd, Entries(command));
    if command.AsyncCommand? {
      cmd := cmd.(handler := AsyncHandler(command));
    }
    cmd := BindCommands(cmd, command.subcommands);
  }

  /** `BindCommands(parent, commands)`: each listed subcommand, bound as a
      non-root, is added to `parent` in list order; null adds nothing. */
  method BindCommands(parent: BoundCommand, commands: CommandList) returns (r: BoundCommand)
    ensures r == parent.(children := parent.children + BoundChildren(commands, |Items(commands)|))
    decreases commands, 0
  {
    r := parent;
    match commands {
      case NullList =>
      case List(cs) =>
        var i := 0;
        while i < |cs|
          invariant 0 <= i <= |cs|
          invariant r == parent.(children := parent.children + BoundChildren(commands, i))
        {
          var child := BindCommand(cs[i], false);
          assert BoundChildren(commands, i + 1) == BoundChildren(commands, i) + [child];
          r := r.(children := r.children + [child]);
          i := i + 1;
        }
    }
  }

  class Parser {
    /** `_root`: the bound root, null until `Bind`. */
    var boundRoot: Nullable<BoundCommand>
    /** The host delegates run so far, in order. */
    var trace: seq<Event>

    constructor ()
      ensures boundRoot == Null && trace == []
    {
      boundRoot := Null;
      trace := [];
    }

    /** The `Root` getter. */
    function Root(): (r: Result<BoundCommand>)
      reads this
      ensures boundRoot.Null? <==> r == Err(InvalidOperation(RootMissing))
      ensures boundRoot.NonNull? ==> r == Ok(boundRoot.value)
    {
      if boundRoot.Null? then Err(InvalidOperation(RootMissing)) else Ok(boundRoot.value)
    }

    /** `Bind(root)`: a null root throws and keeps the old binding; otherwise
        the freshly bound tree replaces whatever was bound before. */
    method Bind(root: Nullable<Command>) returns (outcome: Outcome)
      modifies this`boundRoot
      ensures root.Null? ==> outcome == Fail(ArgumentNull("root")) && boundRoot == old(boundRoot)
      ensures root.NonNull? ==> outcome == Pass && boundRoot == NonNull(Bound(root.value, true))
    {
      if root.Null? {
        return Fail(ArgumentNull("root"));
      }
      var cmd := BindCommand(root.value, true);
      boundRoot := NonNull(cmd);
      return Pass;
    }

    /** The option objects `Invoke` may refresh: those of the node the
        library selects. */
    function Selected(parse: BoundCommand -> LibraryParse): set<CommonOption>
      reads this
    {
      if boundRoot.Null? then {}
      else match parse(boundRoot.value)
        case Handled(_) => {}
        case Matched(path, _) =>
          var node := NodeAt(boundRoot.value, path);
          if node.Null? then {} else HandlerSlots(node.value.handler)
    }

    /** A bound action: refresh the value of every own option of the
        command, in collection order, then run the host's delegate. */
    method RunAction(h: Handler, result: ParseResult)
      modifies HandlerSlots(h)`value, this`trace
      ensures forall o :: o in HandlerSlots(h) ==> o.value == result.valueOf(o)
      ensures trace == old(trace) + Fired(h, result)
    {
      var entries := Entries(h.command);
      // the `OfType<IValueUpdater>().ToList()` snapshot, visited in order
      var i := 0;
      while i < |entries|
        invariant 0 <= i <= |entries|
        invariant forall j :: 0 <= j < i && entries[j].Own? ==>
          entries[j].slot.value == result.valueOf(entries[j].slot)
        invariant trace == old(trace)
      {
        if entries[i].Own? {
          var _ := entries[i].slot.UpdateValue(NonNull(result));
        }
        i := i + 1;
      }
      var seen := Values(entries);
      assert seen == RefreshedValues(entries, result) by {
        forall k | 0 <= k < |entries| && entries[k].Own?
          ensures seen[k] == result.valueOf(entries[k].slot)
        {
          assert entries[k] in entries;
        }
      }
      var c := h.command;
      match h {
        case SyncHandler(_) =>
          if c.action.NonNull? {
            trace := trace + [ActionCalled(c.action.value, c, seen)];
          }
        case AsyncHandler(_) =>
          if c.AsyncCommand? && c.asyncAction.NonNull? {
            trace := trace + [AsyncActionAwaited(c.asyncAction.value, c, seen)];
          }
      }
    }

    /** `Invoke(args)` and `InvokeAsync(args)`: with nothing bound, throw
        before the library is consulted; when the library handles the line,
        return its code and run nothing; otherwise run the selected node's
        action and return 0. */
    method Invoke(parse: BoundCommand -> LibraryParse) returns (r: Result<int>)
      requires boundRoot.NonNull? && parse(boundRoot.value).Matched? ==>
        NodeAt(boundRoot.value, parse(boundRoot.value).path).NonNull?
      modifies Selected(parse)`value, this`trace
      ensures boundRoot == old(boundRoot)
      ensures old(boundRoot).Null? ==> r == Err(InvalidOperation(RootMissing)) && trace == old(trace)
      ensures old(boundRoot).NonNull? && parse(old(boundRoot).value).Handled? ==>
        r == Ok(parse(old(boundRoot).value).exitCode) && trace == old(trace)
      ensures old(boundRoot).NonNull? && parse(old(boundRoot).value).Matched? ==>
        var node := NodeAt(old(boundRoot).value, parse(old(boundRoot).value).path).value;
        var result := parse(old(boundRoot).value).result;
        r == Ok(0) &&
        (forall o :: o in HandlerSlots(node.handler) ==> o.value == result.valueOf(o)) &&
        trace == old(trace) + Fired(node.handler, result)
    {
      match Root() {
        case Err(e) => return Err(e);
        case Ok(root) =>
          match parse(root) {
            case Handled(code) => return Ok(code);
            case Matched(path, result) =>
              var node := NodeAt(root, path).value;
              RunAction(node.handler, result);
              return Ok(0);
          }
      }
    }
  }

  /** Invoking a bound tree runs the action of the declared command at the
      selected path: a `Command` runs its `Action` and an `AsyncCommand` its
      `AsyncAction`, after its options were refreshed. */
  lemma DispatchReachesDeclared(c: Command, path: seq<nat>, result: ParseResult)
    requires CommandAt(c, path).NonNull?
    ensures NodeAt(Bound(c, true), path).NonNull?
    ensures NodeAt(Bound(c, true), path).value.handler.command == CommandAt(c, path).value
    ensures NodeAt(Bound(c, true), path).value.handler.AsyncHandler? <==> CommandAt(c, path).value.AsyncCommand?
    ensures CommandAt(c, path).value.AsyncCommand? ==>
      Fired(NodeAt(Bound(c, true), path).value.handler, result) ==
        (if CommandAt(c, path).value.asyncAction.Null? then []
         else [AsyncActionAwaited(CommandAt(c, path).value.asyncAction.value, CommandAt(c, path).value,
                                  RefreshedValues(Entries(CommandAt(c, path).value), result))])
    ensures !CommandAt(c, path).value.AsyncCommand? ==>
      Fired(NodeAt(Bound(c, true), path).value.handler, result) ==
        (if CommandAt(c, path).value.action.Null? then []
         else [ActionCalled(CommandAt(c, path).value.action.value, CommandAt(c, path).value,
                            RefreshedValues(Entries(CommandAt(c, path).value), result))])
  {
    PathsCorrespond(c, true, path);
  }
}
