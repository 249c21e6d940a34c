/** `PrinterUtils`: indentation of text and the rendering of a property's type. */
module PrinterUtils {
  import opened Common
  import opened Manifest

  /** Kotlin's `lineSequence` breaks lines at "\r\n", "\n" and "\r". */
  predicate IsBreak(c: char)
  {
    c == '\n' || c == '\r'
  }

  predicate NoBreak(s: string)
  {
    forall i :: 0 <= i < |s| ==> !IsBreak(s[i])
  }

  function FirstBreak(s: string): (i: nat)
    ensures i <= |s| && NoBreak(s[..i])
    ensures i < |s| ==> IsBreak(s[i])
  {
    if |s| == 0 || IsBreak(s[0]) then 0
    else
      var k := 1 + FirstBreak(s[1..]);
      assert s[..k] == [s[0]] + s[1..][..k - 1];
      k
  }

  /** `lineSequence()`: the text between line breaks; always at least one line. */
  function Lines(s: string): (r: seq<string>)
    ensures |r| >= 1
    ensures forall k :: 0 <= k < |r| ==> NoBreak(r[k])
    decreases |s|
  {
    var i := FirstBreak(s);
    if i == |s| then [s]
    else if s[i] == '\r' && i + 1 < |s| && s[i + 1] == '\n' then [s[..i]] + Lines(s[i + 2..])
    else [s[..i]] + Lines(s[i + 1..])
  }

  /** Each line prefixed by three spaces. */
  function Prefixed(ls: seq<string>): (r: seq<string>)
    ensures |r| == |ls|
    ensures forall k :: 0 <= k < |ls| ==> r[k] == "   " + ls[k]
  {
    seq(|ls|, k requires 0 <= k < |ls| => "   " + ls[k])
  }

  /** `indent`: `lineSequence().map { "   $it" }.joinToString("\n")`. */
  function Indent(text: string): string
  {
    Join(Prefixed(Lines(text)), "\n")
  }

  lemma {:induction false} FirstBreakOfJoin(ls: seq<string>)
    requires |ls| > 1 && NoBreak(ls[0])
    ensures FirstBreak(Join(ls, "\n")) == |ls[0]|
  {
    var s := Join(ls, "\n");
    assert s == ls[0] + "\n" + Join(ls[1..], "\n");
    FirstBreakAt(s, ls[0]);
  }

  lemma {:induction false} FirstBreakAt(s: string, prefix: string)
    requires NoBreak(prefix) && |prefix| < |s| && s[..|prefix|] == prefix && IsBreak(s[|prefix|])
    ensures FirstBreak(s) == |prefix|
    decreases |prefix|
  {
    if |prefix| > 0 {
      assert s[1..][..|prefix| - 1] == prefix[1..];
      FirstBreakAt(s[1..], prefix[1..]);
    }
  }

  lemma {:induction false} NoBreakFirstBreak(s: string)
    requires NoBreak(s)
    ensures FirstBreak(s) == |s|
  {
    if |s| > 0 {
      NoBreakFirstBreak(s[1..]);
    }
  }

  lemma {:induction false} FirstBreakBefore(s: string, j: nat)
    requires j < |s| && IsBreak(s[j])
    ensures FirstBreak(s) <= j
  {
    if j > 0 && !IsBreak(s[0]) {
      FirstBreakBefore(s[1..], j - 1);
    }
  }

  /** Splitting the "\n"-joined lines gives the lines back. */
  lemma {:induction false} LinesOfJoin(ls: seq<string>)
    requires |ls| >= 1
    requires forall k :: 0 <= k < |ls| ==> NoBreak(ls[k])
    ensures Lines(Join(ls, "\n")) == ls
  {
    var s := Join(ls, "\n");
    if |ls| == 1 {
      NoBreakFirstBreak(ls[0]);
    } else {
      FirstBreakOfJoin(ls);
      var i := |ls[0]|;
      assert s == ls[0] + "\n" + Join(ls[1..], "\n");
      assert s[..i] == ls[0];
      assert s[i + 1..] == Join(ls[1..], "\n");
      LinesOfJoin(ls[1..]);
      assert ls == [ls[0]] + ls[1..];
    }
  }

  /** Indenting keeps the number of lines, and line k of the result is three
      spaces followed by line k of the input. */
  lemma IndentLines(text: string)
    ensures Lines(Indent(text)) == Prefixed(Lines(text))
    ensures |Lines(Indent(text))| == |Lines(text)|
  {
    var ls := Prefixed(Lines(text));
    forall k | 0 <= k < |ls| ensures NoBreak(ls[k]) {
      assert ls[k] == "   " + Lines(text)[k];
    }
    LinesOfJoin(ls);
  }

  /** The empty text indents to a single line of three spaces. */
  lemma IndentEmpty()
    ensures Indent("") == "   "
  {
    assert Lines("") == [""];
  }

  /** A text without line breaks is one line, indented by three spaces. */
  lemma IndentSingleLine(text: string)
    requires NoBreak(text)
    ensures Indent(text) == "   " + text
  {
    NoBreakFirstBreak(text);
  }

  /** A trailing newline leaves a last line that is empty, so the indented text
      ends with a line of three spaces. */
  lemma {:induction false} TrailingNewlineGivesEmptyLine(s: string)
    requires |s| > 0 && s[|s| - 1] == '\n'
    ensures Lines(s)[|Lines(s)| - 1] == ""
    decreases |s|
  {
    var i := FirstBreak(s);
    FirstBreakBefore(s, |s| - 1);
    var rest := if s[i] == '\r' && i + 1 < |s| && s[i + 1] == '\n' then s[i + 2..] else s[i + 1..];
    assert Lines(s) == [s[..i]] + Lines(rest);
    if |rest| == 0 {
      assert Lines(rest) == [""];
    } else {
      assert rest[|rest| - 1] == s[|s| - 1];
      TrailingNewlineGivesEmptyLine(rest);
    }
  }

  lemma IndentTrailingNewline(text: string)
    ensures var ls := Lines(Indent(text + "\n")); ls[|ls| - 1] == "   "
  {
    var t := text + "\n";
    assert t[|t| - 1] == '\n';
    TrailingNewlineGivesEmptyLine(t);
    var ls := Lines(t);
    IndentLines(t);
    assert Prefixed(ls)[|ls| - 1] == "   " + "";
  }

  /** `printType`: a list type in brackets around its element, any other type by
      its class's simple name; "!" after every level that is not nullable. */
  function PrintType(t: KType): string
  {
    (match t.classifier
     case ListClass(e) => "[" + PrintType(e) + "]"
     case NamedClass(n) => n)
    + (if t.nullable then "" else "!")
  }

  /** A class name printable without ambiguity: non-empty and without the
      characters that `PrintType` adds. */
  predicate PlainName(n: string)
  {
    |n| > 0 && forall i :: 0 <= i < |n| ==> n[i] != '[' && n[i] != ']' && n[i] != '!'
  }

  predicate PlainNames(t: KType)
  {
    match t.classifier
    case ListClass(e) => PlainNames(e)
    case NamedClass(n) => PlainName(n)
  }

  /** Reads a printed type back: a trailing "!" is a non-nullable level,
      brackets a list level, anything else a class name. */
  function ParseType(s: string): KType
    decreases |s|
  {
    if |s| > 0 && s[|s| - 1] == '!' then
      var inner := ParseType(s[..|s| - 1]);
      KType(inner.classifier, false)
    else if |s| >= 2 && s[0] == '[' && s[|s| - 1] == ']' then
      KType(ListClass(ParseType(s[1..|s| - 1])), true)
    else
      KType(NamedClass(s), true)
  }

  lemma {:induction false} PrintTypeShape(t: KType)
    requires PlainNames(t)
    ensures |PrintType(t)| > 0
    ensures t.nullable ==> PrintType(t)[|PrintType(t)| - 1] != '!'
  {
    match t.classifier
    case ListClass(e) =>
    case NamedClass(n) =>
  }

  /** Printing a type and reading it back gives the same type: the "!" marks
      nullability at each level independently, and brackets exactly the list levels. */
  lemma {:induction false} ParsePrintType(t: KType)
    requires PlainNames(t)
    ensures ParseType(PrintType(t)) == t
  {
    var body := match t.classifier
      case ListClass(e) => "[" + PrintType(e) + "]"
      case NamedClass(n) => n;
    assert PrintType(t) == body + (if t.nullable then "" else "!");
    var nt := KType(t.classifier, true);
    assert PrintType(nt) == body;
    match t.classifier {
      case ListClass(e) =>
        ParsePrintType(e);
        assert body[1..|body| - 1] == PrintType(e);
        assert ParseType(body) == nt;
      case NamedClass(n) =>
        assert ParseType(body) == nt;
    }
    if !t.nullable {
      assert PrintType(t)[..|PrintType(t)| - 1] == body;
    }
  }
}
