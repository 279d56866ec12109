/** The dependency-free configuration format of src/claim_plane/project.py: an indented
    printer, and the line-by-line reader that rebuilds nested mappings with a stack. */
module ConfigText {
  import opened Json

  datatype Problem = OddIndentation | NotAnEntry | InvalidKey
  datatype Outcome<+T> = Ok(value: T) | Error(line: nat, problem: Problem)

  // ----- Python's notion of space and line -----

  /** `str.isspace` */
  predicate IsSpace(c: char) {
    var n := c as int;
    9 <= n <= 13 || 28 <= n <= 32 || n == 0x85 || n == 0xA0 || n == 0x1680 ||
    0x2000 <= n <= 0x200A || n == 0x2028 || n == 0x2029 || n == 0x202F || n == 0x205F || n == 0x3000
  }

  /** The line boundaries of `str.splitlines` that JSON printing leaves unescaped. */
  predicate IsUnicodeBreak(c: char) {
    c as int == 0x85 || c as int == 0x2028 || c as int == 0x2029
  }

  /** All line boundaries of `str.splitlines`. */
  predicate IsBreak(c: char) {
    10 <= c as int <= 13 || 28 <= c as int <= 30 || IsUnicodeBreak(c)
  }

  predicate NoBreaks(s: string) { forall i :: 0 <= i < |s| ==> !IsBreak(s[i]) }

  function LineLength(s: string): (k: nat)
    ensures k <= |s| && (forall i :: 0 <= i < k ==> !IsBreak(s[i])) && (k < |s| ==> IsBreak(s[k]))
  {
    if s == "" || IsBreak(s[0]) then 0 else 1 + LineLength(s[1..])
  }

  /** `str.splitlines`; a carriage return and line feed together end one line. */
  function SplitLines(s: string): (r: seq<string>)
    ensures forall i :: 0 <= i < |r| ==> NoBreaks(r[i])
  {
    var k := LineLength(s);
    if s == "" then []
    else if k == |s| then [s[..k]]
    else
      var next := if s[k] == '\r' && k + 1 < |s| && s[k + 1] == '\n' then k + 2 else k + 1;
      [s[..k]] + SplitLines(s[next..])
  }

  function LStrip(s: string): (r: string)
    ensures s == "" || !IsSpace(s[0]) ==> r == s
  {
    if s != "" && IsSpace(s[0]) then LStrip(s[1..]) else s
  }

  function RStrip(s: string): (r: string)
    ensures s == "" || !IsSpace(s[|s| - 1]) ==> r == s
  {
    if s != "" && IsSpace(s[|s| - 1]) then RStrip(s[..|s| - 1]) else s
  }

  function Strip(s: string): string { RStrip(LStrip(s)) }

  lemma {:induction false} LStripEnds(s: string)
    ensures LStrip(s) == "" || !IsSpace(LStrip(s)[0])
  {
    if s != "" && IsSpace(s[0]) { LStripEnds(s[1..]); }
  }

  lemma {:induction false} RStripEnds(s: string)
    ensures var r := RStrip(s); r <= s && (r == "" || !IsSpace(r[|r| - 1]))
  {
    if s != "" && IsSpace(s[|s| - 1]) { RStripEnds(s[..|s| - 1]); }
  }

  lemma StripTwice(s: string)
    ensures Strip(Strip(s)) == Strip(s)
  {
    LStripEnds(s);
    RStripEnds(LStrip(s));
  }

  /** `len(raw) - len(raw.lstrip(" "))` */
  function Indentation(s: string): nat {
    if s != "" && s[0] == ' ' then 1 + Indentation(s[1..]) else 0
  }

  function Spaces(n: nat): (r: string)
    ensures |r| == n && forall i :: 0 <= i < n ==> r[i] == ' '
  {
    if n == 0 then "" else " " + Spaces(n - 1)
  }

  // ----- printing -----

  /** The lines of one entry. A leaf is printed as JSON, which is what `_yaml_scalar`
      comes to for null, booleans, integers, strings and lists. */
  function FieldLines(f: Field<Value>, indent: nat): seq<string>
    decreases f, 1
  {
    if f.value.Obj?
    then [Spaces(indent) + f.key + ":"] + DumpMapping(f.value.fields, indent + 2)
    else [Spaces(indent) + f.key + ": " + Encode(f.value)]
  }

  function DumpMapping(fields: seq<Field<Value>>, indent: nat): seq<string>
    decreases fields, 0
  {
    if fields == [] then [] else FieldLines(fields[0], indent) + DumpMapping(fields[1..], indent)
  }

  /** `"\n".join(lines)` */
  function Join(lines: seq<string>): string {
    if lines == [] then ""
    else if |lines| == 1 then lines[0]
    else lines[0] + "\n" + Join(lines[1..])
  }

  function Dump(config: seq<Field<Value>>): string { Join(DumpMapping(config, 0)) + "\n" }

  // ----- reading one line -----

  predicate IsKeyStart(c: char) { 'a' <= c <= 'z' || 'A' <= c <= 'Z' }

  predicate IsKeyChar(c: char) { IsKeyStart(c) || IsDigit(c) || c == '_' || c == '-' }

  /** `[A-Za-z][A-Za-z0-9_-]*` */
  predicate IsKey(s: string) {
    s != "" && IsKeyStart(s[0]) && forall i :: 0 <= i < |s| ==> IsKeyChar(s[i])
  }

  /** The value text after its key, when it is not blank: the JSON reading if there is one,
      then an integer with leading zeros, and otherwise the text itself. */
  function ParseScalar(text: string): Value {
    var t := Strip(text);
    if t == "true" then Bool(true)
    else if t == "false" then Bool(false)
    else if t == "null" then Null
    else
      match Loads(t)
      case Done(v, _) => v
      case Fail =>
        if t != "" && DigitRun(t) == |t| then Int(ToNat(t))
        else if |t| > 1 && t[0] == '-' && DigitRun(t[1..]) == |t| - 1 then Int(0 - ToNat(t[1..]))
        else Str(t)
  }

  datatype Line =
    | Blank
    | Opens(indent: nat, key: string)
    | Sets(indent: nat, key: string, value: Value)
    | Bad(problem: Problem)

  function FirstColon(s: string): (k: nat)
    ensures k <= |s| && (k < |s| ==> s[k] == ':') && forall i :: 0 <= i < k ==> s[i] != ':'
  {
    if s == "" || s[0] == ':' then 0 else 1 + FirstColon(s[1..])
  }

  function ParseContent(indent: nat, content: string): Line {
    var colon := FirstColon(content);
    if colon == |content| then Bad(NotAnEntry)
    else
      var key, valueText := Strip(content[..colon]), content[colon + 1..];
      if !IsKey(key) then Bad(InvalidKey)
      else if Strip(valueText) == "" then Opens(indent, key)
      else Sets(indent, key, ParseScalar(valueText))
  }

  function ParseLine(raw: string): Line {
    if Strip(raw) == "" || LStrip(raw)[..1] == "#" then Blank
    else if Indentation(raw) % 2 != 0 then Bad(OddIndentation)
    else ParseContent(Indentation(raw), Strip(raw))
  }

  // ----- the stack -----

  /** A mapping still open, with the indentation of the line that opened it and the key it
      has in the mapping below it. */
  datatype Frame = Frame(indent: int, key: string, fields: seq<Field<Value>>)

  const ROOT := Frame(-1, "", [])

  function Top(stack: seq<Frame>): Frame
    requires stack != []
  {
    stack[|stack| - 1]
  }

  /** `parent[key] = value` in the mapping on top. */
  function SetTop(stack: seq<Frame>, key: string, value: Value): (r: seq<Frame>)
    requires stack != []
    ensures |r| == |stack|
  {
    stack[..|stack| - 1] + [Top(stack).(fields := Put(Top(stack).fields, key, value))]
  }

  /** The mapping on top is finished: the one below now shows its final contents. */
  function PopTop(stack: seq<Frame>): (r: seq<Frame>)
    requires |stack| > 1
    ensures |r| == |stack| - 1
  {
    SetTop(stack[..|stack| - 1], Top(stack).key, Obj(Top(stack).fields))
  }

  /** `while indentation <= stack[-1][0]: stack.pop()` */
  function CloseTo(stack: seq<Frame>, indent: int): (r: seq<Frame>)
    requires stack != []
    ensures 0 < |r| <= |stack|
    decreases |stack|
  {
    if |stack| > 1 && indent <= Top(stack).indent then CloseTo(PopTop(stack), indent) else stack
  }

  /** The root mapping once every open mapping is written back. */
  function Finish(stack: seq<Frame>): seq<Field<Value>>
    requires stack != []
    decreases |stack|
  {
    if |stack| == 1 then stack[0].fields else Finish(PopTop(stack))
  }

  function Apply(stack: seq<Frame>, line: Line): (r: seq<Frame>)
    requires stack != []
    ensures r != []
  {
    match line
    case Opens(indent, key) => SetTop(CloseTo(stack, indent), key, Obj([])) + [Frame(indent, key, [])]
    case Sets(indent, key, value) => SetTop(CloseTo(stack, indent), key, value)
    case _ => stack
  }

  function ReadLines(lines: seq<string>, number: nat, stack: seq<Frame>): (r: Outcome<seq<Frame>>)
    requires stack != []
    ensures r.Ok? ==> r.value != []
  {
    if lines == [] then Ok(stack)
    else
      var line := ParseLine(lines[0]);
      if line.Bad? then Error(number, line.problem)
      else ReadLines(lines[1..], number + 1, Apply(stack, line))
  }

  /** `_read_project_config_payload` on the text of the file. */
  function Read(text: string): Outcome<seq<Field<Value>>> {
    match ReadLines(SplitLines(text), 1, [ROOT])
    case Error(n, p) => Error(n, p)
    case Ok(stack) => Ok(Finish(stack))
  }
}
