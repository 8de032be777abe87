/** Values of the .NET runtime that every other module shares: nullable
    references, the exceptions the toolkit throws, and the type-erased values
    held by option slots. */
module Runtime {

  /** A reference that C# allows to be null. */
  datatype Nullable<+T> = Null | NonNull(value: T)

  /** The exceptions the modelled code throws, with the data the toolkit's
      callers and tests look at. `InvalidOperation("")` stands for an
      InvalidOperationException built with its default message. */
  datatype Exception =
    | ArgumentNull(paramName: string)
    | InvalidOperation(message: string)
    | NullReference
    | Format
    | Overflow
    | CustomDataParse(paramName: string)

  /** The value of a call that either returns or throws. */
  datatype Result<+T> = Ok(value: T) | Err(error: Exception)

  /** The completion of a call that returns nothing: it returns or throws. */
  datatype Outcome = Pass | Fail(error: Exception)

  /** The type argument `T` of an `IOption<T>`. Only two facts about a CLR
      type matter to the toolkit: its identity (for the `as IOption<T>`
      casts) and whether `default(T)` is `null`. */
  datatype TypeTag = TypeTag(name: string, isValueType: bool)

  /** A boxed option value as `IOption.Value` exposes it. Values converted
      by the argument library or by a user parser are opaque handles. */
  datatype Value =
    | NullValue
    | Zero(tag: TypeTag)
    | Boxed(tag: TypeTag, handle: nat)

  /** A host delegate (`Action<ICommand>` or `Func<IAsyncCommand, Task>`).
      What it does is outside the toolkit; the model records that it ran. */
  datatype ActionId = ActionId(id: nat)

  /** `default(T)`: the zero value of a value type, `null` otherwise. */
  function DefaultOf(t: TypeTag): (v: Value)
    ensures v == NullValue <==> !t.isValueType
    ensures v != NullValue ==> v == Zero(t)
  {
    if t.isValueType then Zero(t) else NullValue
  }

  /** `char.IsWhiteSpace`: the Unicode space separators, line and paragraph
      separators, U+0009 to U+000D, U+0085 and U+00A0. */
  predicate IsWhiteSpace(c: char) {
    c == ' ' || '\t' <= c <= '\r' || c == '\U{0085}' || c == '\U{00A0}' ||
    c == '\U{1680}' || '\U{2000}' <= c <= '\U{200A}' ||
    c == '\U{2028}' || c == '\U{2029}' || c == '\U{202F}' ||
    c == '\U{205F}' || c == '\U{3000}'
  }

}
