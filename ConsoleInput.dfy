/** The console helpers of `ConsoleExtension`: prompting for a value or a
    yes/no answer, reading a secret line key by key, and reading lines up to
    an end marker. The console is a `Terminal` object: the input lines still
    to be read, the key presses still to come, the text written so far, and
    the `TreatControlCAsInput` flag. Colours and cursor movement are not
    modelled. */
module ConsoleInput {
  import opened Runtime

  /** `ConsoleKey` values the secret-line loop tests. */
  const BackspaceKey := 8
  const EnterKey := 13
  const CKey := 67

  /** The `ReadMultiLine` default end marker and the `ReadBool` default
      prompt. */
  const DefaultEndMarker := "EOF"
  const DefaultBoolQuery := "(y/n): "

  /** The message of the InvalidOperationException `Console.ReadKey` throws
      when no key can be read (input redirected or exhausted). */
  const NoKeys := "Cannot read keys when either application does not have a console or when console input has been redirected."

  /** A `ConsoleKeyInfo`: the key and the character it produced. */
  datatype KeyInfo = KeyInfo(key: int, keyChar: char)

  /** A delegate argument: null, or the console's own `Write`/`ReadLine`. */
  datatype Callback = Missing | ConsoleBacked

  /** `char.IsControl`: U+0000 to U+001F and U+007F to U+009F. */
  predicate IsControl(c: char) {
    c <= '\U{001F}' || '\U{007F}' <= c <= '\U{009F}'
  }

  /** `string.IsNullOrWhiteSpace`. */
  predicate IsNullOrWhiteSpace(s: Nullable<string>) {
    s.Null? || forall i :: 0 <= i < |s.value| ==> IsWhiteSpace(s.value[i])
  }

  /** The answer `ReadBool` derives from a reply line, null standing for
      the end of input, which counts as "n". */
  function Answer(reply: Nullable<string>): bool {
    var res := if reply.Null? then "n" else reply.value;
    |res| > 0 && (res[0] == 'y' || res[0] == 'Y')
  }

  /** Yes exactly for a non-empty reply whose first character is `y` or
      `Y`; an empty reply and the end of input are no. */
  lemma AnswerMeansYes(reply: Nullable<string>)
    ensures Answer(reply) <==> reply.NonNull? && |reply.value| > 0 && (reply.value[0] == 'y' || reply.value[0] == 'Y')
    ensures !Answer(Null) && !Answer(NonNull(""))
  {
  }

  /** The total length of some texts. */
  function TotalLength(parts: seq<string>): nat {
    if |parts| == 0 then 0 else TotalLength(parts[..|parts| - 1]) + |parts[|parts| - 1]|
  }

  /** `string.Join(sep, parts)`: the parts in order, one separator between
      each two. */
  function Join(sep: string, parts: seq<string>): (s: string)
    ensures |parts| == 0 ==> s == ""
    ensures |parts| == 1 ==> s == parts[0]
    ensures |parts| > 0 ==> |s| == TotalLength(parts) + (|parts| - 1) * |sep|
    decreases |parts|
  {
    if |parts| == 0 then ""
    else if |parts| == 1 then parts[0]
    else Join(sep, parts[..|parts| - 1]) + sep + parts[|parts| - 1]
  }

  /** Joining two non-empty runs of parts is joining each and putting one
      separator between them. */
  lemma {:induction false} JoinConcat(sep: string, a: seq<string>, b: seq<string>)
    requires |a| > 0 && |b| > 0
    ensures Join(sep, a + b) == Join(sep, a) + sep + Join(sep, b)
    decreases |b|
  {
    var ab := a + b;
    assert ab[..|ab| - 1] == a + b[..|b| - 1];
    assert ab[|ab| - 1] == b[|b| - 1];
    if |b| > 1 {
      JoinConcat(sep, a, b[..|b| - 1]);
    } else {
      assert ab[..|ab| - 1] == a;
    }
  }

  /** Position of the first line equal to `marker`, or `|lines|`. */
  function MarkerIndex(lines: seq<string>, marker: string): (k: nat)
    ensures k <= |lines|
    ensures forall j :: 0 <= j < k ==> lines[j] != marker
    ensures k < |lines| ==> lines[k] == marker
  {
    if |lines| == 0 then 0
    else if lines[0] == marker then 0
    else 1 + MarkerIndex(lines[1..], marker)
  }

  /** What `ReadMultiLine` returns when `lines` is the rest of the input:
      null when the input ends before the marker, null when no line precedes
      it, and otherwise the lines before it joined with `newLine`. */
  function MultiLineText(lines: seq<string>, marker: string, newLine: string): Nullable<string> {
    var k := MarkerIndex(lines, marker);
    if k == |lines| || k == 0 then Null else NonNull(Join(newLine, lines[..k]))
  }

  /** The lines `ReadMultiLine` consumes: through the marker, or all. */
  function MultiLineConsumed(lines: seq<string>, marker: string): (n: nat)
    ensures n <= |lines|
  {
    var k := MarkerIndex(lines, marker);
    if k == |lines| then k else k + 1
  }

  /** The result is null exactly when the marker never comes or comes first;
      otherwise it is built from the lines before the first marker only, so
      whatever follows the marker is ignored. */
  lemma MultiLineTextCases(lines: seq<string>, marker: string, newLine: string, rest: seq<string>)
    ensures MultiLineText(lines, marker, newLine).Null? <==>
      (forall j :: 0 <= j < |lines| ==> lines[j] != marker) || (|lines| > 0 && lines[0] == marker)
    ensures (forall j :: 0 <= j < |lines| ==> lines[j] != marker) ==>
      MultiLineText(lines + [marker] + rest, marker, newLine) == (if |lines| == 0 then Null else NonNull(Join(newLine, lines)))
  {
    if forall j :: 0 <= j < |lines| ==> lines[j] != marker {
      var all := lines + [marker] + rest;
      MarkerAfter(lines, marker, rest);
      assert all[..|lines|] == lines;
    }
  }

  /** A marker preceded by marker-free lines is found right after them. */
  lemma {:induction false} MarkerAfter(lines: seq<string>, marker: string, rest: seq<string>)
    requires forall j :: 0 <= j < |lines| ==> lines[j] != marker
    ensures MarkerIndex(lines + [marker] + rest, marker) == |lines|
    decreases |lines|
  {
    if |lines| > 0 {
      assert (lines + [marker] + rest)[1..] == lines[1..] + [marker] + rest;
      MarkerAfter(lines[1..], marker, rest);
    }
  }

  /** The unit tests of `ReadMultiLine`, on the text they feed in. */
  lemma MultiLineExamples(nl: string)
    ensures MultiLineText(["EOF"], "EOF", nl) == Null
    ensures MultiLineText(["line1", "line2", "EOF"], "EOF", nl) == NonNull("line1" + nl + "line2")
    ensures MultiLineText(["foo", "bar", "END"], "END", nl) == NonNull("foo" + nl + "bar")
    ensures MultiLineText(["END"], "END", nl) == Null
    ensures MultiLineText([], "EOF", nl) == Null
    ensures MultiLineText(["", "EOF"], "EOF", nl) == NonNull("")
  {
    assert ["line1", "line2", "EOF"][..2] == ["line1", "line2"];
    assert ["foo", "bar", "END"][..2] == ["foo", "bar"];
    assert ["", "EOF"][..1] == [""];
  }

  /** The markers the tests reject (empty and all-blank) are refused, the
      default and the custom marker are accepted. */
  lemma BlankMarkersRejected()
    ensures IsNullOrWhiteSpace(Null)
    ensures IsNullOrWhiteSpace(NonNull("")) && IsNullOrWhiteSpace(NonNull("   "))
    ensures IsNullOrWhiteSpace(NonNull("          "))
    ensures !IsNullOrWhiteSpace(NonNull(DefaultEndMarker)) && !IsNullOrWhiteSpace(NonNull("END"))
  {
    assert !IsWhiteSpace(DefaultEndMarker[0]);
    assert !IsWhiteSpace("END"[0]);
  }

  /** The buffer edit of one key press: Backspace removes the last
      character of a non-empty buffer, a non-control character is
      appended, and any other key leaves the buffer alone. */
  function EditBuffer(psw: string, k: KeyInfo): (next: string)
    ensures k.key == BackspaceKey && |psw| > 0 ==> next == psw[..|psw| - 1]
    ensures !(k.key == BackspaceKey && |psw| > 0) && !IsControl(k.keyChar) ==> next == psw + [k.keyChar]
    ensures !(k.key == BackspaceKey && |psw| > 0) && IsControl(k.keyChar) ==> next == psw
  {
    if k.key == BackspaceKey && |psw| > 0 then psw[..|psw| - 1]
    else if !IsControl(k.keyChar) then psw + [k.keyChar]
    else psw
  }

  /** What the filler echoes for one appended character. */
  function FillerText(filler: Nullable<char>): string {
    if filler.Null? then "" else [filler.value]
  }

  /** How the secret-line loop ends. */
  datatype SecretOutcome = Entered(text: string) | Cancelled | KeysExhausted

  /** The loop's end, the number of keys it read, and the fillers it wrote. */
  datatype SecretRun = SecretRun(outcome: SecretOutcome, consumed: nat, echo: string)

  /** A run that follows `n` earlier key presses which wrote `echo`. */
  function After(n: nat, echo: string, run: SecretRun): SecretRun {
    SecretRun(run.outcome, n + run.consumed, echo + run.echo)
  }

  /** Whether a key press ends the loop with Ctrl+C: a control character on
      the C key, unless it is a Backspace that edits the buffer. */
  predicate IsCancel(psw: string, k: KeyInfo) {
    !(k.key == BackspaceKey && |psw| > 0) && IsControl(k.keyChar) && k.key == CKey
  }

  /** What one key press echoes: the filler, when a character is appended. */
  function Echo(psw: string, k: KeyInfo, filler: Nullable<char>): string {
    if !(k.key == BackspaceKey && |psw| > 0) && !IsControl(k.keyChar) then FillerText(filler) else ""
  }

  /** The secret-line loop over the key presses still to come, from buffer
      `psw`: every key edits the buffer (a non-control character also
      echoes the filler); Ctrl+C cancels; the loop stops after the Enter key
      is processed, or when the keys run out. */
  function SecretLoop(keys: seq<KeyInfo>, psw: string, filler: Nullable<char>): (run: SecretRun)
    ensures run.consumed <= |keys|
    ensures |keys| > 0 ==> run.consumed > 0
    decreases |keys|
  {
    if |keys| == 0 then SecretRun(KeysExhausted, 0, "")
    else if IsCancel(psw, keys[0]) then SecretRun(Cancelled, 1, "")
    else if keys[0].key == EnterKey then SecretRun(Entered(EditBuffer(psw, keys[0])), 1, Echo(psw, keys[0], filler))
    else After(1, Echo(psw, keys[0], filler), SecretLoop(keys[1..], EditBuffer(psw, keys[0]), filler))
  }

  /** One step of the loop, for a key that neither cancels nor ends it. */
  lemma SecretStep(keys: seq<KeyInfo>, psw: string, filler: Nullable<char>, i: nat, echo: string)
    requires |keys| > 0 && !IsCancel(psw, keys[0]) && keys[0].key != EnterKey
    ensures After(i, echo, SecretLoop(keys, psw, filler)) ==
      After(i + 1, echo + Echo(psw, keys[0], filler), SecretLoop(keys[1..], EditBuffer(psw, keys[0]), filler))
  {
    var e := Echo(psw, keys[0], filler);
    var run := SecretLoop(keys[1..], EditBuffer(psw, keys[0]), filler);
    assert SecretLoop(keys, psw, filler) == After(1, e, run);
    assert echo + (e + run.echo) == echo + e + run.echo;
  }

  /** The three ways the loop ends after `i` earlier keys that echoed
      `echo`: no key left, Ctrl+C, or an Enter that is processed first. */
  lemma SecretEnds(keys: seq<KeyInfo>, psw: string, filler: Nullable<char>, i: nat, echo: string)
    ensures |keys| == 0 ==> After(i, echo, SecretLoop(keys, psw, filler)) == SecretRun(KeysExhausted, i, echo)
    ensures |keys| > 0 && IsCancel(psw, keys[0]) ==>
      After(i, echo, SecretLoop(keys, psw, filler)) == SecretRun(Cancelled, i + 1, echo)
    ensures |keys| > 0 && !IsCancel(psw, keys[0]) && keys[0].key == EnterKey ==>
      After(i, echo, SecretLoop(keys, psw, filler)) ==
        SecretRun(Entered(EditBuffer(psw, keys[0])), i + 1, echo + Echo(psw, keys[0], filler))
  {
    assert echo + "" == echo;
  }

  /** What `ReadSecretLine` returns for each way the loop ends. */
  function SecretReply(o: SecretOutcome): Result<Nullable<string>> {
    match o
    case Entered(text) => Ok(NonNull(text))
    case Cancelled => Ok(Null)
    case KeysExhausted => Err(InvalidOperation(NoKeys))
  }

  predicate NoControl(s: string) {
    forall i :: 0 <= i < |s| ==> !IsControl(s[i])
  }

  /** The entered secret never holds a control character. */
  lemma {:induction false} SecretHasNoControl(keys: seq<KeyInfo>, psw: string, filler: Nullable<char>)
    requires NoControl(psw)
    ensures SecretLoop(keys, psw, filler).outcome.Entered? ==> NoControl(SecretLoop(keys, psw, filler).outcome.text)
    decreases |keys|
  {
    if |keys| > 0 && !IsCancel(psw, keys[0]) {
      var next := EditBuffer(psw, keys[0]);
      assert NoControl(next) by {
        if !(keys[0].key == BackspaceKey && |psw| > 0) && !IsControl(keys[0].keyChar) {
          assert forall i :: 0 <= i < |psw| ==> next[i] == psw[i];
        }
      }
      if keys[0].key != EnterKey {
        SecretHasNoControl(keys[1..], next, filler);
      }
    }
  }

  /** The key press that types `c`. */
  function Typed(c: char): KeyInfo {
    KeyInfo(if 'a' <= c <= 'z' then c as int - 32 else c as int, c)
  }

  predicate IsLetterOrDigit(c: char) {
    '0' <= c <= '9' || 'A' <= c <= 'Z' || 'a' <= c <= 'z'
  }

  /** Typing a text of letters and digits and pressing Enter (which produces
      a carriage return) enters exactly that text, after echoing one filler
      per character. */
  lemma {:induction false} TypedTextIsEntered(text: string, psw: string, filler: Nullable<char>)
    requires forall i :: 0 <= i < |text| ==> IsLetterOrDigit(text[i])
    ensures SecretLoop(seq(|text|, i requires 0 <= i < |text| => Typed(text[i])) + [KeyInfo(EnterKey, '\r')], psw, filler) ==
      SecretRun(Entered(psw + text), |text| + 1, Repeat(FillerText(filler), |text|))
    decreases |text|
  {
    var keys := seq(|text|, i requires 0 <= i < |text| => Typed(text[i])) + [KeyInfo(EnterKey, '\r')];
    if |text| == 0 {
      assert keys == [KeyInfo(EnterKey, '\r')];
      assert psw + text == psw;
    } else {
      var k := keys[0];
      assert k == Typed(text[0]) && IsLetterOrDigit(text[0]);
      assert !IsCancel(psw, k) && k.key != EnterKey;
      var tail := text[1..];
      assert keys[1..] == seq(|tail|, i requires 0 <= i < |tail| => Typed(tail[i])) + [KeyInfo(EnterKey, '\r')];
      TypedTextIsEntered(tail, psw + [text[0]], filler);
      assert psw + [text[0]] + tail == psw + text;
      assert SecretLoop(keys, psw, filler) == After(1, FillerText(filler), SecretLoop(keys[1..], psw + [text[0]], filler));
    }
  }

  /** `n` copies of `s`. */
  function Repeat(s: string, n: nat): string {
    if n == 0 then "" else s + Repeat(s, n - 1)
  }

  /** A Backspace right after a typed character takes it back. */
  lemma BackspaceUndoesTyping(psw: string, c: char, filler: Nullable<char>, keys: seq<KeyInfo>)
    requires !IsControl(c)
    ensures SecretLoop([Typed(c), KeyInfo(BackspaceKey, '\U{0008}')] + keys, psw, filler) ==
            After(2, FillerText(filler), SecretLoop(keys, psw, filler))
  {
    var typed, erase := Typed(c), KeyInfo(BackspaceKey, '\U{0008}');
    var all := [typed, erase] + keys;
    assert all[0] == typed && all[1..] == [erase] + keys && all[1..][0] == erase && all[1..][1..] == keys;
    SecretStep(all, psw, filler, 0, "");
    assert EditBuffer(psw, typed) == psw + [c];
    assert (psw + [c])[..|psw + [c]| - 1] == psw;
    SecretStep(all[1..], psw + [c], filler, 1, FillerText(filler));
    assert FillerText(filler) + "" == FillerText(filler);
  }

  class Terminal {
    /** Input lines still to be read; `ReadLine` yields null once they run out. */
    var lines: seq<string>
    /** Key presses still to come. */
    var keys: seq<KeyInfo>
    /** Everything written so far. */
    var output: string
    var treatControlCAsInput: bool
    /** `Environment.NewLine`. */
    const newLine: string

    constructor (lines: seq<string>, keys: seq<KeyInfo>, newLine: string, treatControlCAsInput: bool)
      ensures this.lines == lines && this.keys == keys && this.newLine == newLine
      ensures output == "" && this.treatControlCAsInput == treatControlCAsInput
    {
      this.lines := lines;
      this.keys := keys;
      this.newLine := newLine;
      this.output := "";
      this.treatControlCAsInput := treatControlCAsInput;
    }

    /** `Console.ReadLine`. */
    method ReadLine() returns (line: Nullable<string>)
      modifies this`lines
      ensures old(lines) == [] ==> line == Null && lines == []
      ensures old(lines) != [] ==> line == NonNull(old(lines)[0]) && lines == old(lines)[1..]
    {
      if lines == [] {
        return Null;
      }
      line := NonNull(lines[0]);
      lines := lines[1..];
    }

    /** `Console.ReadKey(intercept: true)`. */
    method ReadKey() returns (k: Result<KeyInfo>)
      modifies this`keys
      ensures old(keys) == [] ==> k == Err(InvalidOperation(NoKeys)) && keys == []
      ensures old(keys) != [] ==> k == Ok(old(keys)[0]) && keys == old(keys)[1..]
    {
      if keys == [] {
        return Err(InvalidOperation(NoKeys));
      }
      k := Ok(keys[0]);
      keys := keys[1..];
    }

    /** `ReadValue(query, writer, reader)`: both delegates are checked,
        writer first, before anything is written or read; then the query is
        written once and the line read is returned as it is. */
    method ReadValue(query: string, writer: Callback, reader: Callback) returns (r: Result<Nullable<string>>)
      modifies this`lines, this`output
      ensures writer.Missing? ==> r == Err(ArgumentNull("writer")) && unchanged(this)
      ensures writer.ConsoleBacked? && reader.Missing? ==> r == Err(ArgumentNull("reader")) && unchanged(this)
      ensures writer.ConsoleBacked? && reader.ConsoleBacked? ==>
        output == old(output) + query &&
        (old(lines) == [] ==> r == Ok(Null) && lines == []) &&
        (old(lines) != [] ==> r == Ok(NonNull(old(lines)[0])) && lines == old(lines)[1..])
    {
      if writer.Missing? {
        return Err(ArgumentNull("writer"));
      }
      if reader.Missing? {
        return Err(ArgumentNull("reader"));
      }
      output := output + query;
      var line := ReadLine();
      return Ok(line);
    }

    /** `ReadBool(query, writer)`: a null writer throws; otherwise the query
        is written and the answer is taken from the next line. */
    method ReadBool(query: string, writer: Callback) returns (r: Result<bool>)
      modifies this`lines, this`output
      ensures writer.Missing? ==> r == Err(ArgumentNull("writer")) && unchanged(this)
      ensures writer.ConsoleBacked? ==>
        output == old(output) + query &&
        r == Ok(Answer(if old(lines) == [] then Null else NonNull(old(lines)[0]))) &&
        lines == (if old(lines) == [] then [] else old(lines)[1..])
    {
      if writer.Missing? {
        return Err(ArgumentNull("writer"));
      }
      output := output + query;
      var line := ReadLine();
      var res := if line.Null? then "n" else line.value;
      return Ok(|res| > 0 && (res[0] == 'y' || res[0] == 'Y'));
    }

    /** `ReadSecretLine(filler)`: with Ctrl+C read as input, run the key loop;
        on Enter write a new line and return the buffer, on Ctrl+C return
        null, and when no key can be read fail as `ReadKey` does. Every exit
        restores `TreatControlCAsInput`. */
    method ReadSecretLine(filler: Nullable<char>) returns (r: Result<Nullable<string>>)
      modifies this`keys, this`output, this`treatControlCAsInput
      ensures treatControlCAsInput == old(treatControlCAsInput)
      ensures var run := SecretLoop(old(keys), "", filler);
        keys == old(keys)[run.consumed..] &&
        output == old(output) + run.echo + (if run.outcome.Entered? then newLine else "") &&
        r == SecretReply(run.outcome)
    {
      var ctrlC := treatControlCAsInput;
      var psw := "";
      treatControlCAsInput := true;
      ghost var run := SecretLoop(keys, "", filler);
      ghost var i := 0;
      ghost var echo := "";
      while true
        invariant 0 <= i <= |old(keys)| && keys == old(keys)[i..]
        invariant output == old(output) + echo
        invariant After(i, echo, SecretLoop(keys, psw, filler)) == run
        invariant treatControlCAsInput
        decreases |keys|
      {
        ghost var before := keys;
        ghost var prev := psw;
        ghost var written := output;
        SecretEnds(before, prev, filler, i, echo);
        var keyInfo := ReadKey();
        if keyInfo.Err? {
          treatControlCAsInput := ctrlC;
          return Err(keyInfo.error);
        }
        var k := keyInfo.value;
        assert before[0] == k && before[1..] == keys;
        if k.key == BackspaceKey && |psw| > 0 {
          psw := psw[..|psw| - 1];
        } else if !IsControl(k.keyChar) {
          psw := psw + [k.keyChar];
          output := output + FillerText(filler);
        } else if k.key == CKey {
          treatControlCAsInput := ctrlC;
          return Ok(Null);
        }
        assert psw == EditBuffer(prev, k) && output == written + Echo(prev, k, filler);
        assert output == old(output) + (echo + Echo(prev, k, filler));
        if k.key == EnterKey {
          echo := echo + Echo(prev, k, filler);
          i := i + 1;
          break;
        }
        SecretStep(before, prev, filler, i, echo);
        echo := echo + Echo(prev, k, filler);
        i := i + 1;
      }
      output := output + newLine;
      treatControlCAsInput := ctrlC;
      return Ok(NonNull(psw));
    }

    /** `ReadMultiLine(query, endMarker)`: a null, empty or white-space
        marker throws before any I/O; otherwise a non-empty query is written
        as a line, and lines are read until the marker or the end of input. */
    method ReadMultiLine(query: Nullable<string>, endMarker: Nullable<string>) returns (r: Result<Nullable<string>>)
      modifies this`lines, this`output
      ensures IsNullOrWhiteSpace(endMarker) ==> r == Err(ArgumentNull("endMarker")) && unchanged(this)
      ensures !IsNullOrWhiteSpace(endMarker) ==>
        output == old(output) + (if query.Null? || query.value == "" then "" else query.value + newLine) &&
        r == Ok(MultiLineText(old(lines), endMarker.value, newLine)) &&
        lines == old(lines)[MultiLineConsumed(old(lines), endMarker.value)..]
    {
      if IsNullOrWhiteSpace(endMarker) {
        return Err(ArgumentNull("endMarker"));
      }
      var marker := endMarker.value;
      if !(query.Null? || query.value == "") {
        output := output + query.value + newLine;
      }
      var collected: seq<string> := [];
      ghost var i := 0;
      ghost var prompted := output;
      while true
        invariant output == prompted
        invariant 0 <= i <= |old(lines)| && lines == old(lines)[i..]
        invariant collected == old(lines)[..i]
        invariant forall j :: 0 <= j < i ==> old(lines)[j] != marker
        decreases |lines|
      {
        var line := ReadLine();
        if line.Null? {
          return Ok(Null);
        }
        if line.value == marker {
          break;
        }
        collected := collected + [line.value];
        i := i + 1;
      }
      if |collected| > 0 {
        return Ok(NonNull(Join(newLine, collected)));
      }
      return Ok(Null);
    }
  }
}
