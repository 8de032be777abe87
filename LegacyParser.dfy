/** The oldest binder (MiscrosoftCommandLine.Parser.cs): the same recursive
    binding as the current one, over the older library. Every bound node
    gets the one synchronous handler; `Bind` has no null check and `Invoke`
    silently does nothing while no root is bound. The tree helpers repeat
    those of `Binder` one for one, as this revision's source repeats the
    current one's. */
module LegacyParser {
  import opened Runtime
  import opened LegacyOptions
  import opened LegacyCommands

  /** A `RootCommand` takes no name; other library commands take the
      declared one. */
  datatype NodeName = RootName | Named(name: string)

  /** A library command as the binder leaves it; `command` is the declared
      command the handler captures. */
  datatype BoundCommand = BoundCommand(name: NodeName, description: Nullable<string>,
                                       options: seq<OptionEntry>, command: Command,
                                       children: seq<BoundCommand>)

  /** The host's `Action` run by a handler, with the values of the command's
      options at that moment. */
  datatype Event = ActionCalled(action: ActionId, command: Command, values: seq<Value>)

  /** What the older library makes of a command line: it handles the line
      itself, or runs the handler of the node at `path` with its result. */
  datatype LibraryParse = Handled | Matched(path: seq<nat>, result: ParseResult)

  /** Whether an entry is a `System.CommandLine.Option`, the type
      `OfType<System.CommandLine.Option>()` keeps: the backend's own options,
      and host options whose class derives from the library's. */
  predicate IsLibraryOption(e: OptionEntry) {
    e.Own? || e.Derived?
  }

  /** `OfType<System.CommandLine.Option>()`: the entries the library
      command receives, in order. */
  function LibraryOptions(entries: seq<OptionEntry>): seq<OptionEntry> {
    if |entries| == 0 then []
    else LibraryOptions(entries[..|entries| - 1]) +
         (if IsLibraryOption(entries[|entries| - 1]) then [entries[|entries| - 1]] else [])
  }

  /** The library command `BindCommand(c, isRoot)` builds. */
  function Bound(c: Command, isRoot: bool): BoundCommand
    decreases c, 1
  {
    BoundCommand(
      if isRoot then RootName else Named(c.name),
      if isRoot then NonNull(if c.description.Null? then "" else c.description.value) else c.description,
      LibraryOptions(Entries(c)),
      c,
      BoundChildren(c.subcommands, |Items(c.subcommands)|))
  }

  /** The bindings of the first `k` listed subcommands, in order. */
  function BoundChildren(subs: CommandList, k: nat): seq<BoundCommand>
    requires k <= |Items(subs)|
    decreases subs, 0, k
  {
    seq(k, i requires 0 <= i < k => Bound(subs.items[i], false))
  }

  /** Exactly the library options of the collection are added. */
  lemma {:induction false} LibraryOptionsFilter(entries: seq<OptionEntry>)
    ensures |LibraryOptions(entries)| <= |entries|
    ensures forall e :: e in LibraryOptions(entries) <==> e in entries && IsLibraryOption(e)
  {
    if |entries| > 0 {
      var init := entries[..|entries| - 1];
      LibraryOptionsFilter(init);
      assert entries == init + [entries[|entries| - 1]];
    }
  }

  /** The bound tree mirrors the declared one: names (but the root's),
      descriptions, library options and one child per subcommand in order. */
  lemma BoundMirrors(c: Command, isRoot: bool)
    ensures isRoot ==> Bound(c, isRoot).name == RootName && Bound(c, isRoot).description.NonNull?
    ensures !isRoot ==> Bound(c, isRoot).name == Named(c.name) && Bound(c, isRoot).description == c.description
    ensures forall e :: e in Bound(c, isRoot).options <==> e in Entries(c) && IsLibraryOption(e)
    ensures |Bound(c, isRoot).children| == |Items(c.subcommands)|
    ensures forall i :: 0 <= i < |Items(c.subcommands)| ==>
      Bound(c, isRoot).children[i] == Bound(Items(c.subcommands)[i], false)
  {
    LibraryOptionsFilter(Entries(c));
  }

  /** The node a path of child indices reaches in a bound tree. */
  function NodeAt(b: BoundCommand, path: seq<nat>): Nullable<BoundCommand>
    decreases |path|
  {
    if |path| == 0 then NonNull(b)
    else if path[0] < |b.children| then NodeAt(b.children[path[0]], path[1..])
    else Null
  }

  /** The declared command a path of subcommand indices reaches. */
  function CommandAt(c: Command, path: seq<nat>): Nullable<Command>
    decreases |path|
  {
    if |path| == 0 then NonNull(c)
    else if path[0] < |Items(c.subcommands)| then CommandAt(Items(c.subcommands)[path[0]], path[1..])
    else Null
  }

  /** Subcommands are bound recursively: every bound node is the binding of
      the declared command at the same path, and its handler captures that
      command. */
  lemma {:induction false} PathsCorrespond(c: Command, isRoot: bool, path: seq<nat>)
    ensures NodeAt(Bound(c, isRoot), path).NonNull? <==> CommandAt(c, path).NonNull?
    ensures CommandAt(c, path).NonNull? ==>
      NodeAt(Bound(c, isRoot), path).value == Bound(CommandAt(c, path).value, isRoot && |path| == 0) &&
      NodeAt(Bound(c, isRoot), path).value.command == CommandAt(c, path).value
    decreases |path|
  {
    if |path| > 0 {
      BoundMirrors(c, isRoot);
      if path[0] < |Items(c.subcommands)| {
        PathsCorrespond(Items(c.subcommands)[path[0]], false, path[1..]);
      }
    }
  }

  /** The values the host sees once a handler refreshed the own options. */
  function RefreshedValues(entries: seq<OptionEntry>, result: ParseResult): (vs: seq<Value>)
    ensures |vs| == |entries|
    ensures forall k :: 0 <= k < |entries| && entries[k].Own? ==> vs[k] == result.valueOf(entries[k].slot)
    ensures forall k :: 0 <= k < |entries| && !entries[k].Own? ==> vs[k] == entries[k].value
  {
    seq(|entries|, k requires 0 <= k < |entries| =>
      if entries[k].Own? then result.valueOf(entries[k].slot) else entries[k].value)
  }

  /** A host option derived from the library's option class reaches the
      library command, which parses it, but the action leaves its value to
      the host. */
  lemma DerivedOptionBoundNotRefreshed(c: Command, isRoot: bool, result: ParseResult, k: nat)
    requires k < |Entries(c)| && Entries(c)[k].Derived?
    ensures Entries(c)[k] in Bound(c, isRoot).options
    ensures RefreshedValues(Entries(c), result)[k] == Entries(c)[k].value
  {
    LibraryOptionsFilter(Entries(c));
  }

  /** The option objects of a sequence of entries. */
  function Slots(entries: seq<OptionEntry>): set<Option> {
    set k | 0 <= k < |entries| && entries[k].Own? :: entries[k].slot
  }

  /** `IOption.Value` of an entry. */
  function ValueOf(e: OptionEntry): Value
    reads if e.Own? then {e.slot} else {}
  {
    match e
    case Own(o) => o.value
    case Derived(_, _, v) => v
    case Foreign(_, _, v) => v
  }

  function Values(entries: seq<OptionEntry>): seq<Value>
    reads Slots(entries)
  {
    seq(|entries|, k requires 0 <= k < |entries| reads Slots(entries) => ValueOf(entries[k]))
  }

  /** What a handler reports: the `Action` with the refreshed values, or
      nothing when `Action` is null. */
  function Fired(c: Command, result: ParseResult): seq<Event> {
    if c.action.Null? then [] else [ActionCalled(c.action.value, c, RefreshedValues(Entries(c), result))]
  }

  /** `CreateCommand(name, description, options, subcommands, action)`. */
  function CreateCommand(name: string, description: string, options: Nullable<seq<OptionEntry>>,
                         subcommands: CommandList, action: Nullable<ActionId>): (c: Command)
    ensures c.name == name && c.description == NonNull(description)
    ensures c.options == options && c.subcommands == subcommands && c.action == action
  {
    Command(name, NonNull(description), options, subcommands, action)
  }

  /** `CreateRoot(...)`: a command named "". */
  function CreateRoot(description: string, options: Nullable<seq<OptionEntry>>,
                      subcommands: CommandList, action: Nullable<ActionId>): (c: Command)
    ensures c == CreateCommand("", description, options, subcommands, action)
  {
    CreateCommand("", description, options, subcommands, action)
  }

  /** `CreateOption<T>`: the default-provider constructor exactly when
      `getDefaultValue` is non-null. */
  method CreateOption(tag: TypeTag, names: seq<string>, description: Nullable<string>,
                      getDefaultValue: Nullable<DefaultProvider>, allowMultipleValue: bool,
                      isRequired: bool, valueHelpName: Nullable<string>)
    returns (o: Option)
    requires |names| > 0
    ensures fresh(o) && o.tag == tag && o.names == names && o.aliases == names
    ensures o.description == description && o.ValueHelpName() == valueHelpName
    ensures o.AllowMultipleValue() == allowMultipleValue && o.IsRequired() == isRequired
    ensures o.defaultValue == getDefaultValue && o.value == DefaultOf(tag)
  {
    if getDefaultValue.NonNull? {
      o := new Option.WithDefault(tag, names, getDefaultValue.value, description,
                                  allowMultipleValue, isRequired, valueHelpName);
      return;
    }
    o := new Option(tag, names, description, allowMultipleValue, isRequired, valueHelpName);
  }

  /** `command.Options?.OfType<System.CommandLine.Option>().ToList().ForEach(cmd.AddOption)`. */
  method AddOptions(cmd: BoundCommand, entries: seq<OptionEntry>) returns (r: BoundCommand)
    ensures r == cmd.(options := cmd.options + LibraryOptions(entries))
  {
    r := cmd;
    var i := 0;
    while i < |entries|
      invariant 0 <= i <= |entries|
      invariant r == cmd.(options := cmd.options + LibraryOptions(entries[..i]))
    {
      assert entries[..i + 1][..i] == entries[..i];
      if IsLibraryOption(entries[i]) {
        r := r.(options := r.options + [entries[i]]);
      }
      i := i + 1;
    }
    assert entries[..|entries|] == entries;
  }

  /** `BindCommand(command, isRoot)`: build the library command, add the
      options, install the handler, then bind the subcommands. */
  method BindCommand(command: Command, isRoot: bool) returns (cmd: BoundCommand)
    ensures cmd == Bound(command, isRoot)
    decreases command, 1
  {
    if isRoot {
      cmd := BoundCommand(RootName, NonNull(if command.description.Null? then "" else command.description.value),
                          [], command, []);
    } else {
      cmd := BoundCommand(Named(command.name), command.description, [], command, []);
    }
    cmd := AddOptions(cmd, Entries(command));
    cmd := BindCommands(cmd, command.subcommands);
  }

  /** `BindCommands(parent, commands)`: `commands?.ForEach` adding each
      bound subcommand to `parent`, in list order. */
  method BindCommands(parent: BoundCommand, commands: CommandList) returns (r: BoundCommand)
    ensures r == parent.(children := parent.children + BoundChildren(commands, |Items(commands)|))
    decreases commands, 0
  {
    r := parent;
    match commands {
      case NullList =>
      case List(cs) =>
        var i := 0;
        while i < |cs|
          invariant 0 <= i <= |cs|
          invariant r == parent.(children := parent.children + BoundChildren(commands, i))
        {
          var child := BindCommand(cs[i], false);
          assert BoundChildren(commands, i + 1) == BoundChildren(commands, i) + [child];
          r := r.(children := r.children + [child]);
          i := i + 1;
        }
    }
  }

  class Parser {
    /** `_root`: the bound root, null until `Bind`. */
    var boundRoot: Nullable<BoundCommand>
    /** The host actions run so far, in order. */
    var trace: seq<Event>

    constructor ()
      ensures boundRoot == Null && trace == []
    {
      boundRoot := Null;
      trace := [];
    }

    /** `Bind(root)`: `_root` becomes the freshly bound tree. There is no
        null check: a null root fails inside `BindCommand`, on
        `command.Description`, before `_root` is assigned. */
    method Bind(root: Nullable<Command>) returns (outcome: Outcome)
      modifies this`boundRoot
      ensures root.Null? ==> outcome == Fail(NullReference) && boundRoot == old(boundRoot)
      ensures root.NonNull? ==> outcome == Pass && boundRoot == NonNull(Bound(root.value, true))
    {
      if root.Null? {
        return Fail(NullReference);
      }
      var cmd := BindCommand(root.value, true);
      boundRoot := NonNull(cmd);
      return Pass;
    }

    /** The option objects `Invoke` may refresh: those of the node the
        library selects. */
    function Selected(parse: BoundCommand -> LibraryParse): set<Option>
      reads this
    {
      if boundRoot.Null? then {}
      else match parse(boundRoot.value)
        case Handled => {}
        case Matched(path, _) =>
          var node := NodeAt(boundRoot.value, path);
          if node.Null? then {} else Slots(Entries(node.value.command))
    }

    /** The handler `SetHandler` installs: refresh every own option, in
        order, then run `Action` unless it is null. */
    method RunHandler(c: Command, result: ParseResult)
      modifies Slots(Entries(c))`value, this`trace
      ensures forall o :: o in Slots(Entries(c)) ==> o.value == result.valueOf(o)
      ensures trace == old(trace) + Fired(c, result)
    {
      var entries := Entries(c);
      var i := 0;
      while i < |entries|
        invariant 0 <= i <= |entries|
        invariant forall j :: 0 <= j < i && entries[j].Own? ==>
          entries[j].slot.value == result.valueOf(entries[j].slot)
        invariant trace == old(trace)
      {
        if entries[i].Own? {
          var _ := entries[i].slot.UpdateValue(NonNull(result));
        }
        i := i + 1;
      }
      var seen := Values(entries);
      assert seen == RefreshedValues(entries, result) by {
        forall k | 0 <= k < |entries| && entries[k].Own?
          ensures seen[k] == result.valueOf(entries[k].slot)
        {
          assert entries[k] in entries;
        }
      }
      if c.action.NonNull? {
        trace := trace + [ActionCalled(c.action.value, c, seen)];
      }
    }

    /** `Invoke(args)`: nothing at all happens while no root is bound;
        otherwise the library runs the selected node's handler, and its exit
        code is discarded. */
    method Invoke(parse: BoundCommand -> LibraryParse)
      requires boundRoot.NonNull? && parse(boundRoot.value).Matched? ==>
        NodeAt(boundRoot.value, parse(boundRoot.value).path).NonNull?
      modifies Selected(parse)`value, this`trace
      ensures boundRoot == old(boundRoot)
      ensures old(boundRoot).Null? ==> trace == old(trace)
      ensures old(boundRoot).NonNull? && parse(old(boundRoot).value).Handled? ==> trace == old(trace)
      ensures old(boundRoot).NonNull? && parse(old(boundRoot).value).Matched? ==>
        var node := NodeAt(old(boundRoot).value, parse(old(boundRoot).value).path).value;
        var result := parse(old(boundRoot).value).result;
        (forall o :: o in Slots(Entries(node.command)) ==> o.value == result.valueOf(o)) &&
        trace == old(trace) + Fired(node.command, result)
    {
      if boundRoot.NonNull? {
        match parse(boundRoot.value) {
          case Handled =>
          case Matched(path, result) =>
            var node := NodeAt(boundRoot.value, path).value;
            RunHandler(node.command, result);
        }
      }
    }
  }

  /** Invoking the tree bound from `c` runs the `Action` of the declared
      command at the selected path, after refreshing its options. */
  lemma DispatchReachesDeclared(c: Command, path: seq<nat>, result: ParseResult)
    requires CommandAt(c, path).NonNull?
    ensures NodeAt(Bound(c, true), path).NonNull?
    ensures NodeAt(Bound(c, true), path).value.command == CommandAt(c, path).value
    ensures Fired(NodeAt(Bound(c, true), path).value.command, result) ==
      (if CommandAt(c, path).value.action.Null? then []
       else [ActionCalled(CommandAt(c, path).value.action.value, CommandAt(c, path).value,
                          RefreshedValues(Entries(CommandAt(c, path).value), result))])
  {
    PathsCorrespond(c, true, path);
  }
}
