/** The `CustomData` record of the test project: a custom option value written
    as "<int> <bool>" and the parsers `Parse(string)`, `Parse(IEnumerable)` and
    `ParseList`. Every failure surfaces as a CustomDataParseException whose
    parameter name is "data". */
module CustomValues {
  import opened Runtime

  const MinInt32: int := -0x8000_0000
  const MaxInt32: int := 0x7FFF_FFFF

  /** A C# `int`. */
  type Int32 = x: int | MinInt32 <= x <= MaxInt32

  datatype CustomData = CustomData(intValue: Int32, boolValue: bool)

  // ---------------------------------------------------------------------------
  // String.Split() with no arguments
  // ---------------------------------------------------------------------------

  predicate NoWhiteSpace(s: string) {
    forall i :: 0 <= i < |s| ==> !IsWhiteSpace(s[i])
  }

  function WhiteSpaceCount(s: string): nat {
    if |s| == 0 then 0
    else (if IsWhiteSpace(s[0]) then 1 else 0) + WhiteSpaceCount(s[1..])
  }

  /** `s.Split()`: cut at every single white-space character, keeping the
      empty fields that adjacent, leading or trailing separators produce. */
  function Split(s: string): (parts: seq<string>)
    ensures |parts| == 1 + WhiteSpaceCount(s)
    ensures forall k :: 0 <= k < |parts| ==> NoWhiteSpace(parts[k])
    decreases |s|
  {
    if |s| == 0 then [""]
    else if IsWhiteSpace(s[0]) then [""] + Split(s[1..])
    else
      var rest := Split(s[1..]);
      [[s[0]] + rest[0]] + rest[1..]
  }

  /** A text without white space is one field. */
  lemma {:induction false} SplitWord(a: string)
    requires NoWhiteSpace(a)
    ensures Split(a) == [a]
    decreases |a|
  {
    if |a| > 0 {
      SplitWord(a[1..]);
      assert [a[0]] + a[1..] == a;
    }
  }

  /** A white-space-free prefix up to the first separator is the first field. */
  lemma {:induction false} SplitAt(a: string, c: char, b: string)
    requires NoWhiteSpace(a) && IsWhiteSpace(c)
    ensures Split(a + [c] + b) == [a] + Split(b)
    decreases |a|
  {
    if |a| == 0 {
      assert a + [c] + b == [c] + b;
      assert ([c] + b)[1..] == b;
    } else {
      var s := a + [c] + b;
      assert s[0] == a[0];
      assert s[1..] == a[1..] + [c] + b;
      SplitAt(a[1..], c, b);
      assert !IsWhiteSpace(s[0]);
      assert [a[0]] + a[1..] == a;
    }
  }

  // ---------------------------------------------------------------------------
  // int.Parse and bool.Parse
  // ---------------------------------------------------------------------------

  predicate IsDigit(c: char) { '0' <= c <= '9' }

  predicate AllDigits(s: string) {
    forall i :: 0 <= i < |s| ==> IsDigit(s[i])
  }

  function DigitValue(c: char): nat
    requires IsDigit(c)
  {
    (c as int - '0' as int) as nat
  }

  /** The number a run of decimal digits denotes, most significant first. */
  function DigitsValue(s: string): nat
    requires AllDigits(s)
  {
    if |s| == 0 then 0 else 10 * DigitsValue(s[..|s| - 1]) + DigitValue(s[|s| - 1])
  }

  /** Every character of `s` satisfies `drop`. */
  predicate All(s: string, drop: char -> bool) {
    forall i :: 0 <= i < |s| ==> drop(s[i])
  }

  /** `s` without the longest suffix of characters satisfying `drop`. */
  function TrimEnd(s: string, drop: char -> bool): (t: string)
    ensures |t| <= |s|
    decreases |s|
  {
    if |s| > 0 && drop(s[|s| - 1]) then TrimEnd(s[..|s| - 1], drop) else s
  }

  /** `s` without the longest prefix of characters satisfying `drop`. */
  function TrimStart(s: string, drop: char -> bool): (t: string)
    ensures |t| <= |s|
    decreases |s|
  {
    if |s| > 0 && drop(s[0]) then TrimStart(s[1..], drop) else s
  }

  /** Trimming a padding of droppable characters off the end leaves the text
      before it, when that text does not itself end in one. */
  lemma {:induction false} TrimEndPadding(a: string, z: string, drop: char -> bool)
    requires All(z, drop) && (|a| == 0 || !drop(a[|a| - 1]))
    ensures TrimEnd(a + z, drop) == a
    decreases |z|
  {
    if |z| == 0 {
      assert a + z == a;
    } else {
      var s := a + z;
      assert s[|s| - 1] == z[|z| - 1];
      assert s[..|s| - 1] == a + z[..|z| - 1];
      TrimEndPadding(a, z[..|z| - 1], drop);
    }
  }

  /** The mirror image of `TrimEndPadding` at the start. */
  lemma {:induction false} TrimStartPadding(z: string, a: string, drop: char -> bool)
    requires All(z, drop) && (|a| == 0 || !drop(a[0]))
    ensures TrimStart(z + a, drop) == a
    decreases |z|
  {
    if |z| == 0 {
      assert z + a == a;
    } else {
      var s := z + a;
      assert s[0] == z[0];
      assert s[1..] == z[1..] + a;
      TrimStartPadding(z[1..], a, drop);
    }
  }

  predicate IsNul(c: char) { c == '\0' }

  /** The white space of number parsing: U+0009 to U+000D and the space. */
  predicate IsNumberWhite(c: char) { c == ' ' || '\t' <= c <= '\r' }

  /** What `int.Parse` reads as sign and digits: the text without its trailing
      NUL characters, then without leading and trailing white space. */
  function NumberBody(s: string): string {
    TrimStart(TrimEnd(TrimEnd(s, IsNul), IsNumberWhite), IsNumberWhite)
  }

  /** `int.Parse(s)` with the integer number style: white space, an optional
      sign, one or more decimal digits, white space and then NUL characters;
      text of any other shape is a FormatException, a well-formed number
      outside the `int` range an OverflowException. */
  function ParseInt32(s: string): (r: Result<Int32>)
    ensures r.Err? ==> r.error == Format || r.error == Overflow
    ensures r.Err? && r.error == Overflow ==>
      AllDigits(Unsigned(NumberBody(s))) && |Unsigned(NumberBody(s))| > 0
  {
    var body := NumberBody(s);
    var digits := Unsigned(body);
    if |digits| == 0 || !AllDigits(digits) then Err(Format)
    else
      var magnitude := DigitsValue(digits);
      var v: int := if body[0] == '-' then -(magnitude as int) else magnitude;
      if MinInt32 <= v <= MaxInt32 then Ok(v) else Err(Overflow)
  }

  /** A number that neither starts with white space nor ends with white
      space or NUL is read as it stands. */
  lemma PlainNumberBody(number: string)
    requires |number| > 0 && !IsNumberWhite(number[0])
    requires !IsNumberWhite(number[|number| - 1]) && !IsNul(number[|number| - 1])
    ensures NumberBody(number) == number
  {
    TrimEndPadding(number, "", IsNul);
    assert number + "" == number;
    TrimEndPadding(number, "", IsNumberWhite);
    TrimStartPadding("", number, IsNumberWhite);
    assert "" + number == number;
  }

  /** White space around a number and NUL characters after it do not change
      what `int.Parse` reads. */
  lemma PaddedNumberParses(lead: string, number: string, trail: string, nuls: string)
    requires All(lead, IsNumberWhite) && All(trail, IsNumberWhite) && All(nuls, IsNul)
    requires |number| > 0 && !IsNumberWhite(number[0])
    requires !IsNumberWhite(number[|number| - 1]) && !IsNul(number[|number| - 1])
    ensures NumberBody(lead + number + trail + nuls) == number
    ensures ParseInt32(lead + number + trail + nuls) == ParseInt32(number)
  {
    var padded := lead + number + trail;
    assert padded[|padded| - 1] == if |trail| > 0 then trail[|trail| - 1] else number[|number| - 1];
    TrimEndPadding(padded, nuls, IsNul);
    TrimEndPadding(lead + number, trail, IsNumberWhite);
    TrimStartPadding(lead, number, IsNumberWhite);
    PlainNumberBody(number);
  }

  /** The text after an optional leading sign. */
  function Unsigned(s: string): (d: string)
    ensures |d| <= |s|
  {
    if |s| > 0 && (s[0] == '-' || s[0] == '+') then s[1..] else s
  }

  function ToUpperAscii(c: char): char {
    if 'a' <= c <= 'z' then (c as int - 32) as char else c
  }

  /** Equality under ordinal case-insensitive comparison of ASCII letters. */
  predicate EqualsIgnoreCase(a: string, b: string) {
    |a| == |b| && forall i :: 0 <= i < |a| ==> ToUpperAscii(a[i]) == ToUpperAscii(b[i])
  }

  const TrueString: string := "True"
  const FalseString: string := "False"

  /** What `bool.Parse` trims: white space and NUL characters. */
  predicate IsBoolPadding(c: char) { IsWhiteSpace(c) || IsNul(c) }

  /** The text without white space and NUL characters at either end. */
  function TrimWhiteSpaceAndNull(s: string): string {
    TrimEnd(TrimStart(s, IsBoolPadding), IsBoolPadding)
  }

  /** `bool.Parse(s)`: "True" or "False" in any ASCII letter case (the
      ordinal comparison of .NET Core 3.0 and later), compared first
      as given and then with white space and NUL characters trimmed from
      both ends; anything else is a FormatException. */
  function ParseBool(s: string): (r: Result<bool>)
    ensures r.Err? ==> r.error == Format
    ensures r == Ok(true) <==> EqualsIgnoreCase(TrimWhiteSpaceAndNull(s), TrueString)
    ensures r == Ok(false) <==> EqualsIgnoreCase(TrimWhiteSpaceAndNull(s), FalseString)
  {
    TrimmedWordIsItself(s);
    if EqualsIgnoreCase(s, TrueString) then Ok(true)
    else if EqualsIgnoreCase(s, FalseString) then Ok(false)
    else
      var trimmed := TrimWhiteSpaceAndNull(s);
      if EqualsIgnoreCase(trimmed, TrueString) then Ok(true)
      else if EqualsIgnoreCase(trimmed, FalseString) then Ok(false)
      else Err(Format)
  }

  /** "True" and "False" in any letter case begin and end with a letter, so
      trimming leaves them as they are. */
  lemma TrimmedWordIsItself(s: string)
    ensures EqualsIgnoreCase(s, TrueString) || EqualsIgnoreCase(s, FalseString) ==>
      TrimWhiteSpaceAndNull(s) == s
  {
    if EqualsIgnoreCase(s, TrueString) || EqualsIgnoreCase(s, FalseString) {
      assert ToUpperAscii(s[0]) == 'T' || ToUpperAscii(s[0]) == 'F';
      assert ToUpperAscii(s[|s| - 1]) == 'E';
      TrimStartPadding("", s, IsBoolPadding);
      assert "" + s == s;
      TrimEndPadding(s, "", IsBoolPadding);
      assert s + "" == s;
    }
  }

  /** White space and NUL characters around a word do not change what
      `bool.Parse` reads. */
  lemma PaddedBoolParses(lead: string, word: string, trail: string)
    requires All(lead, IsBoolPadding) && All(trail, IsBoolPadding)
    requires |word| > 0 && !IsBoolPadding(word[0]) && !IsBoolPadding(word[|word| - 1])
    ensures TrimWhiteSpaceAndNull(lead + word + trail) == word
    ensures ParseBool(lead + word + trail) == ParseBool(word)
  {
    assert lead + word + trail == lead + (word + trail);
    TrimStartPadding(lead, word + trail, IsBoolPadding);
    TrimEndPadding(word, trail, IsBoolPadding);
    TrimStartPadding("", word, IsBoolPadding);
    assert "" + word == word;
    TrimEndPadding(word, "", IsBoolPadding);
    assert word + "" == word;
  }

  // ---------------------------------------------------------------------------
  // CustomData.Parse
  // ---------------------------------------------------------------------------

  /** The one exception every parse failure becomes. */
  const ParseFailure: Exception := CustomDataParse("data")

  /** `CustomData.Parse(string)`. */
  function ParseText(data: string): (r: Result<CustomData>)
    ensures r.Err? ==> r.error == ParseFailure
    ensures r.Ok? <==>
      |Split(data)| == 2 && ParseInt32(Split(data)[0]).Ok? && ParseBool(Split(data)[1]).Ok?
    ensures r.Ok? ==>
      r.value.intValue == ParseInt32(Split(data)[0]).value &&
      r.value.boolValue == ParseBool(Split(data)[1]).value
  {
    var args := Split(data);
    if |args| == 2 then
      match ParseInt32(args[0])
      case Err(_) => Err(ParseFailure)
      case Ok(i) =>
        match ParseBool(args[1])
        case Err(_) => Err(ParseFailure)
        case Ok(b) => Ok(CustomData(i, b))
    else Err(ParseFailure)
  }

  /** `CustomData.Parse(IEnumerable<string>)`: only the first token counts; no
      token at all parses the empty string. */
  function ParseTokens(data: seq<string>): (r: Result<CustomData>)
    ensures |data| > 0 ==> r == ParseText(data[0])
    ensures |data| == 0 ==> r == Err(ParseFailure)
  {
    ParseText(if |data| > 0 then data[0] else "")
  }

  /** `CustomData.ParseList`: the lazy `Select(Parse)`; element k raises
      exactly when the k-th text does not parse. */
  function ParseList(data: seq<string>): (r: seq<Result<CustomData>>)
    ensures |r| == |data|
    ensures forall k :: 0 <= k < |data| ==> r[k] == ParseText(data[k])
  {
    seq(|data|, k requires 0 <= k < |data| => ParseText(data[k]))
  }

  // ---------------------------------------------------------------------------
  // Printing, and the round trip
  // ---------------------------------------------------------------------------

  function DigitChar(d: nat): char
    requires d < 10
  {
    ('0' as int + d) as char
  }

  /** Decimal digits of `n`, without leading zeros. */
  function NatToDigits(n: nat): (s: string)
    ensures |s| > 0 && AllDigits(s)
  {
    if n < 10 then [DigitChar(n)] else NatToDigits(n / 10) + [DigitChar(n % 10)]
  }

  /** `i.ToString()` with an ASCII minus sign. */
  function Int32ToString(i: Int32): string {
    if i < 0 then "-" + NatToDigits(-(i as int)) else NatToDigits(i as int)
  }

  /** `bool.ToString()`: `bool.TrueString` or `bool.FalseString`. */
  function BoolToString(b: bool): string {
    if b then TrueString else FalseString
  }

  lemma {:induction false} DigitsRoundTrip(n: nat)
    ensures DigitsValue(NatToDigits(n)) == n
  {
    if n >= 10 {
      DigitsRoundTrip(n / 10);
      var s := NatToDigits(n);
      assert s[..|s| - 1] == NatToDigits(n / 10);
    }
  }

  /** `int.Parse` reads back what `ToString` printed. */
  lemma Int32RoundTrip(i: Int32)
    ensures ParseInt32(Int32ToString(i)) == Ok(i)
  {
    var s := Int32ToString(i);
    var m: nat := if i < 0 then -(i as int) else i as int;
    var digits := NatToDigits(m);
    DigitsRoundTrip(m);
    assert IsDigit(digits[0]) && IsDigit(s[|s| - 1]);
    PlainNumberBody(s);
    if i < 0 {
      assert s == "-" + digits;
      assert Unsigned(s) == digits;
    } else {
      assert s == digits;
      assert Unsigned(s) == digits;
    }
  }

  lemma BoolRoundTrip(b: bool)
    ensures ParseBool(BoolToString(b)) == Ok(b)
  {
    if b {
      assert EqualsIgnoreCase(TrueString, TrueString);
    } else {
      assert !EqualsIgnoreCase(FalseString, TrueString) by {
        assert ToUpperAscii(FalseString[0]) != ToUpperAscii(TrueString[0]);
      }
      assert EqualsIgnoreCase(FalseString, FalseString);
    }
  }

  /** Two white-space-free fields around one space split into exactly those
      fields. */
  lemma SplitPair(a: string, b: string)
    requires NoWhiteSpace(a) && NoWhiteSpace(b)
    ensures Split(a + " " + b) == [a, b]
  {
    assert a + " " + b == a + [' '] + b;
    SplitAt(a, ' ', b);
    SplitWord(b);
  }

  /** Printed numbers carry no white space. */
  lemma PrintedIntHasNoWhiteSpace(i: Int32)
    ensures NoWhiteSpace(Int32ToString(i))
  {
    var m: nat := if i < 0 then -(i as int) else i as int;
    assert AllDigits(NatToDigits(m));
  }

  /** The text "<IntValue> <BoolValue>", the way the tests build it with an
      interpolated string, parses back to the same record. */
  lemma TextRoundTrip(d: CustomData)
    ensures ParseText(Int32ToString(d.intValue) + " " + BoolToString(d.boolValue)) == Ok(d)
  {
    var a, b := Int32ToString(d.intValue), BoolToString(d.boolValue);
    PrintedIntHasNoWhiteSpace(d.intValue);
    assert NoWhiteSpace(b);
    SplitPair(a, b);
    Int32RoundTrip(d.intValue);
    BoolRoundTrip(d.boolValue);
  }

  /** A NUL-free text followed by NUL characters has no white space. */
  lemma NulsAddNoWhiteSpace(a: string, nuls: string)
    requires NoWhiteSpace(a) && All(nuls, IsNul)
    ensures NoWhiteSpace(a + nuls)
  {
    forall i | 0 <= i < |a + nuls| ensures !IsWhiteSpace((a + nuls)[i]) {
      if i >= |a| { assert (a + nuls)[i] == nuls[i - |a|]; }
    }
  }

  /** `int.Parse` accepts NUL characters after a printed number. */
  lemma NulPaddedIntParses(i: Int32, nuls: string)
    requires All(nuls, IsNul)
    ensures ParseInt32(Int32ToString(i) + nuls) == Ok(i)
    ensures NoWhiteSpace(Int32ToString(i) + nuls)
  {
    var number := Int32ToString(i);
    var m: nat := if i < 0 then -(i as int) else i as int;
    assert AllDigits(NatToDigits(m));
    assert IsDigit(number[|number| - 1]);
    PaddedNumberParses("", number, "", nuls);
    assert "" + number + "" + nuls == number + nuls;
    Int32RoundTrip(i);
    PrintedIntHasNoWhiteSpace(i);
    NulsAddNoWhiteSpace(number, nuls);
  }

  /** `bool.Parse` trims NUL characters after a printed bool. */
  lemma NulPaddedBoolParses(b: bool, nuls: string)
    requires All(nuls, IsNul)
    ensures ParseBool(BoolToString(b) + nuls) == Ok(b)
    ensures NoWhiteSpace(BoolToString(b) + nuls)
  {
    var word := BoolToString(b);
    PaddedBoolParses("", word, nuls);
    assert "" + word + nuls == word + nuls;
    BoolRoundTrip(b);
    NulsAddNoWhiteSpace(word, nuls);
  }

  /** NUL characters after either field still parse: `bool.Parse` trims
      them and `int.Parse` accepts them after the digits. */
  lemma NulPaddedTextParses(d: CustomData, nuls1: string, nuls2: string)
    requires All(nuls1, IsNul) && All(nuls2, IsNul)
    ensures ParseText(Int32ToString(d.intValue) + nuls1 + " " + BoolToString(d.boolValue) + nuls2) == Ok(d)
  {
    var a := Int32ToString(d.intValue) + nuls1;
    var b := BoolToString(d.boolValue) + nuls2;
    NulPaddedIntParses(d.intValue, nuls1);
    NulPaddedBoolParses(d.boolValue, nuls2);
    assert Int32ToString(d.intValue) + nuls1 + " " + BoolToString(d.boolValue) + nuls2 == a + " " + b;
    SplitPair(a, b);
  }

  /** The text of `NulPaddedExample`, printed field by field. */
  lemma NulPaddedExampleText()
    ensures Int32ToString(1) + "\0" + " " + BoolToString(true) + "\0" == "1\0 True\0"
  {
    assert Int32ToString(1) == "1";
  }

  /** A record whose fields end in NUL: "1\0 True\0" is IntValue 1 and
      BoolValue true. */
  lemma NulPaddedExample()
    ensures ParseText("1\0 True\0") == Ok(CustomData(1, true))
  {
    NulPaddedExampleText();
    assert All("\0", IsNul);
    NulPaddedTextParses(CustomData(1, true), "\0", "\0");
  }

  /** One more digit on the right of a printed number. */
  lemma AppendDigit(n: nat, prefix: string, text: string)
    requires n >= 10 && NatToDigits(n / 10) == prefix
    requires text == prefix + [DigitChar(n % 10)]
    ensures NatToDigits(n) == text
  {
  }

  /** The first five digits of `int.MinValue`'s magnitude. */
  lemma LeadingDigitsPrinted()
    ensures NatToDigits(21474) == "21474"
  {
    assert NatToDigits(2) == "2";
    AppendDigit(21, "2", "21");
    AppendDigit(214, "21", "214");
    AppendDigit(2147, "214", "2147");
    AppendDigit(21474, "2147", "21474");
  }

  /** The magnitude of `int.MinValue`, 2147483648, in decimal. */
  lemma MinMagnitudePrinted()
    ensures NatToDigits(2147483648) == "2147483648"
  {
    LeadingDigitsPrinted();
    AppendDigit(214748, "21474", "214748");
    AppendDigit(2147483, "214748", "2147483");
    AppendDigit(21474836, "2147483", "21474836");
    AppendDigit(214748364, "21474836", "214748364");
    AppendDigit(2147483648, "214748364", "2147483648");
  }

  /** `int.MinValue.ToString()`. */
  lemma MinValuePrinted()
    ensures Int32ToString(MinInt32) == "-2147483648"
  {
    MinMagnitudePrinted();
  }

  /** The custom-option case of the option tests: one quoted token holding
      `int.MinValue` and `bool.TrueString`. */
  lemma MinValueTokenParses()
    ensures ParseTokens(["-2147483648 True"]) == Ok(CustomData(MinInt32, true))
  {
    MinValuePrinted();
    var printed := Int32ToString(MinInt32) + " " + BoolToString(true);
    assert printed == "-2147483648" + " " + "True";
    assert printed == "-2147483648 True";
    TextRoundTrip(CustomData(MinInt32, true));
  }

  /** Parsing needs exactly one separator. */
  lemma FieldCountMatters(data: string)
    requires WhiteSpaceCount(data) != 1
    ensures ParseText(data) == Err(ParseFailure)
  {
  }

  /** In particular no token at all, and the empty text, fail. */
  lemma EmptyFails()
    ensures ParseTokens([]) == Err(ParseFailure)
    ensures ParseText("") == Err(ParseFailure)
  {
  }
}
