/** Reading a printed configuration gives back the same tree, in the same key order. */
module ConfigRoundTrip {
  import opened Json
  import opened JsonRoundTrip
  import opened ConfigText

  // ----- what may be stored -----

  predicate CleanText(s: string) { forall i :: 0 <= i < |s| ==> !IsUnicodeBreak(s[i]) }

  /** No string inside the value, dict keys included, holds U+0085, U+2028 or U+2029. */
  predicate Clean(v: Value)
    decreases v
  {
    match v
    case Str(s) => CleanText(s)
    case Float(literal) => CleanText(literal)
    case List(items) => forall i :: 0 <= i < |items| ==> Clean(items[i])
    case Obj(fields) => CleanFields(fields)
    case _ => true
  }

  predicate CleanFields(fields: seq<Field<Value>>)
    decreases fields
  {
    forall i :: 0 <= i < |fields| ==> CleanText(fields[i].key) && Clean(fields[i].value)
  }

  /** A configuration: nested mappings with well-formed, distinct keys over printable leaves. */
  ghost predicate IsConfig(fields: seq<Field<Value>>)
    decreases fields
  {
    UniqueKeys(fields) &&
    forall i :: 0 <= i < |fields| ==>
      && IsKey(fields[i].key)
      && if fields[i].value.Obj? then IsConfig(fields[i].value.fields) else Printable(fields[i].value)
  }

  // ----- printed text holds no line boundary -----

  lemma {:induction false} CleanCharsHaveNoBreaks(s: string)
    requires CleanText(s)
    ensures NoBreaks(EncodeChars(s))
  {
    if s != "" {
      CleanCharsHaveNoBreaks(s[1..]);
      CleanCharHasNoBreak(s[0]);
    }
  }

  lemma CleanCharHasNoBreak(c: char)
    requires !IsUnicodeBreak(c)
    ensures NoBreaks(EncodeChar(c))
  {
    if c < ' ' { assert !IsBreak(HexDigit(c as int / 16)) && !IsBreak(HexDigit(c as int % 16)); }
  }

  lemma {:induction false} DigitsHaveNoBreaks(n: int)
    ensures NoBreaks(IntText(n))
  {
    assert forall c :: IsDigit(c) ==> !IsBreak(c);
  }

  lemma {:induction false} CleanValueHasNoBreaks(v: Value)
    requires Clean(v) && Printable(v)
    ensures NoBreaks(Encode(v))
    decreases v
  {
    match v
    case Int(n) => DigitsHaveNoBreaks(n);
    case Str(s) => CleanCharsHaveNoBreaks(s);
    case List(items) => if items != [] { CleanItemsHaveNoBreaks(items); }
    case Obj(fields) => if fields != [] { CleanFieldsHaveNoBreaks(fields); }
    case _ =>
  }

  lemma {:induction false} CleanItemsHaveNoBreaks(items: seq<Value>)
    requires items != [] && forall i :: 0 <= i < |items| ==> Clean(items[i]) && Printable(items[i])
    ensures NoBreaks(EncodeItems(items))
    decreases items
  {
    CleanValueHasNoBreaks(items[0]);
    if |items| > 1 { CleanItemsHaveNoBreaks(items[1..]); }
  }

  lemma BracketsAreNoBreaks()
    ensures NoBreaks("\"") && NoBreaks(": ") && NoBreaks(", ") && NoBreaks("}")
  {
  }

  lemma {:induction false} CleanFieldsHaveNoBreaks(fields: seq<Field<Value>>)
    requires fields != [] && CleanFields(fields)
    requires forall i :: 0 <= i < |fields| ==> Printable(fields[i].value)
    ensures NoBreaks(EncodeFields(fields))
    decreases fields
  {
    hide Encode, EncodeChars, IsBreak, IsUnicodeBreak;
    CleanCharsHaveNoBreaks(fields[0].key);
    assert NoBreaks("\"") && NoBreaks(": ") && NoBreaks(", ") && NoBreaks("}") by { BracketsAreNoBreaks(); }
    CleanValueHasNoBreaks(fields[0].value);
    if |fields| > 1 { CleanFieldsHaveNoBreaks(fields[1..]); }
  }

  // ----- one line -----

  lemma {:induction false} IndentationOf(n: nat, content: string)
    requires content != "" && !IsSpace(content[0])
    ensures Indentation(Spaces(n) + content) == n
    ensures LStrip(Spaces(n) + content) == content
  {
    if n == 0 {
      assert Spaces(0) + content == content;
    } else {
      IndentationOf(n - 1, content);
      assert (Spaces(n) + content)[1..] == Spaces(n - 1) + content;
    }
  }

  lemma EncodingEnds(v: Value)
    requires Printable(v)
    ensures Encode(v) != "" && !IsSpace(Encode(v)[0]) && !IsSpace(Encode(v)[|Encode(v)| - 1])
  {
    hide EncodeItems, EncodeFields, EncodeChars;
    if v.Int? {
      assert IsDigit(IntText(v.n)[|IntText(v.n)| - 1]);
      assert forall c :: IsDigit(c) ==> !IsSpace(c);
    }
  }

  lemma KeyHasNoSpace(key: string)
    requires IsKey(key)
    ensures forall i :: 0 <= i < |key| ==> !IsSpace(key[i]) && key[i] != ':' && key[i] != '#' && !IsBreak(key[i])
    ensures Strip(key) == key
  {
    assert forall c :: IsKeyChar(c) ==> !IsSpace(c) && c != ':' && c != '#';
    assert IsKeyChar(key[0]) && IsKeyChar(key[|key| - 1]);
  }

  lemma KeyStarts(key: string)
    requires IsKey(key)
    ensures key != ""
  {
  }

  lemma ColonAfterKey(key: string, tail: string)
    requires IsKey(key)
    ensures FirstColon(key + ":" + tail) == |key|
  {
    KeyHasNoSpace(key);
    var s := key + ":" + tail;
    assert s[|key|] == ':';
    assert forall i :: 0 <= i < |key| ==> s[i] == key[i];
  }

  /** Reading back a printed leaf. */
  lemma ParseOfEncode(v: Value)
    requires Printable(v) && !v.Obj?
    ensures Strip(" " + Encode(v)) == Encode(v)
    ensures ParseScalar(" " + Encode(v)) == v
  {
    hide Loads, Encode, Printable;
    EncodingEnds(v);
    assert (" " + Encode(v))[1..] == Encode(v);
    LoadsOfEncode(v);
    WordTexts(v);
  }

  lemma WordTexts(v: Value)
    requires Printable(v)
    ensures Encode(v) == "true" ==> v == Bool(true)
    ensures Encode(v) == "false" ==> v == Bool(false)
    ensures Encode(v) == "null" ==> v == Null
  {
    hide Loads;
    LoadsOfEncode(v);
    LoadsOfEncode(Bool(true));
    LoadsOfEncode(Bool(false));
    LoadsOfEncode(Null);
  }

  lemma LineOf(indent: nat, content: string)
    requires indent % 2 == 0
    requires content != "" && !IsSpace(content[0]) && !IsSpace(content[|content| - 1]) && content[0] != '#'
    ensures ParseLine(Spaces(indent) + content) == ParseContent(indent, content)
  {
    hide ParseContent;
    IndentationOf(indent, content);
    assert content[..1][0] == content[0];
  }

  lemma ContentOf(indent: nat, key: string, text: string)
    requires IsKey(key)
    ensures ParseContent(indent, key + ":" + text) == if Strip(text) == "" then Opens(indent, key)
        else Sets(indent, key, ParseScalar(text))
  {
    hide Strip, IsKey, ParseScalar, FirstColon;
    KeyHasNoSpace(key);
    ColonAfterKey(key, text);
    var content := key + ":" + text;
    assert content[..|key|] == key && content[|key| + 1..] == text;
  }

  lemma OpeningLine(indent: nat, key: string)
    requires indent % 2 == 0 && IsKey(key)
    ensures ParseLine(Spaces(indent) + key + ":") == Opens(indent, key)
  {
    hide ParseLine, ParseContent;
    var content := key + ":";
    KeyHasNoSpace(key);
    ContentOf(indent, key, "");
    assert content == key + ":" + "";
    LineOf(indent, content);
    assert Spaces(indent) + key + ":" == Spaces(indent) + content;
  }

  lemma SettingLine(indent: nat, key: string, v: Value)
    requires indent % 2 == 0 && IsKey(key) && Printable(v) && !v.Obj?
    ensures ParseLine(Spaces(indent) + key + ": " + Encode(v)) == Sets(indent, key, v)
  {
    hide ParseLine, ParseContent, ParseScalar, Encode, Printable, Strip, IsKey;
    var content := key + ":" + (" " + Encode(v));
    KeyStarts(key);
    KeyHasNoSpace(key);
    EncodingEnds(v);
    ParseOfEncode(v);
    ContentOf(indent, key, " " + Encode(v));
    assert content[0] == key[0] && content[|content| - 1] == Encode(v)[|Encode(v)| - 1];
    LineOf(indent, content);
    assert Spaces(indent) + key + ": " + Encode(v) == Spaces(indent) + content;
  }

  // ----- the stack over a whole mapping -----

  lemma {:induction false} CloseTwice(stack: seq<Frame>, inner: int, outer: int)
    requires stack != [] && outer <= inner
    ensures CloseTo(CloseTo(stack, inner), outer) == CloseTo(stack, outer)
    decreases |stack|
  {
    if |stack| > 1 && inner <= Top(stack).indent {
      CloseTwice(PopTop(stack), inner, outer);
    }
  }

  lemma {:induction false} FinishAfterClose(stack: seq<Frame>, indent: int)
    requires stack != []
    ensures Finish(CloseTo(stack, indent)) == Finish(stack)
    decreases |stack|
  {
    if |stack| > 1 && indent <= Top(stack).indent {
      FinishAfterClose(PopTop(stack), indent);
    }
  }

  /** The stack with more entries in the mapping on top. */
  function AddTop(stack: seq<Frame>, fields: seq<Field<Value>>): (r: seq<Frame>)
    requires stack != []
    ensures |r| == |stack|
  {
    stack[..|stack| - 1] + [Top(stack).(fields := Top(stack).fields + fields)]
  }

  lemma SetTopNew(stack: seq<Frame>, key: string, v: Value)
    requires stack != [] && !HasKey(Top(stack).fields, key)
    ensures SetTop(stack, key, v) == AddTop(stack, [Field(key, v)])
  {
    PutNewKey(Top(stack).fields, key, v);
  }

  /** Closing a child mapping whose key was new puts it at the end of its parent. */
  lemma CloseChild(base: seq<Frame>, key: string, indent: nat, sub: seq<Field<Value>>)
    requires base != [] && !HasKey(Top(base).fields, key) && Top(base).indent < indent
    ensures var child := SetTop(base, key, Obj([])) + [Frame(indent, key, sub)];
            CloseTo(child, indent) == AddTop(base, [Field(key, Obj(sub))])
  {
    var live := SetTop(base, key, Obj([]));
    var child := live + [Frame(indent, key, sub)];
    assert child[..|child| - 1] == live;
    PutTwice(Top(base).fields, key, Obj([]), Obj(sub));
    assert PopTop(child) == SetTop(base, key, Obj(sub));
    SetTopNew(base, key, Obj(sub));
  }

  lemma ReadOne(raw: string, more: seq<string>, number: nat, stack: seq<Frame>)
    requires stack != [] && !ParseLine(raw).Bad?
    ensures ReadLines([raw] + more, number, stack) == ReadLines(more, number + 1, Apply(stack, ParseLine(raw)))
  {
    hide ParseLine, Apply;
    assert ([raw] + more)[1..] == more;
  }

  lemma AddTopSum(stack: seq<Frame>, a: seq<Field<Value>>, b: seq<Field<Value>>)
    requires stack != []
    ensures AddTop(AddTop(stack, a), b) == AddTop(stack, a + b)
    ensures AddTop(stack, []) == stack
  {
    assert Top(stack).fields + a + b == Top(stack).fields + (a + b);
    assert Top(stack).fields + [] == Top(stack).fields;
  }

  lemma ReadLeaf(f: Field<Value>, indent: nat, stack: seq<Frame>, base: seq<Frame>, number: nat, more: seq<string>)
    requires IsKey(f.key) && indent % 2 == 0 && !f.value.Obj? && Printable(f.value)
    requires stack != [] && CloseTo(stack, indent) == base && Top(base).indent < indent
    requires !HasKey(Top(base).fields, f.key)
    ensures CloseTo(AddTop(base, [f]), indent) == AddTop(base, [f])
    ensures ReadLines(FieldLines(f, indent) + more, number, stack) == ReadLines(more, number + 1, AddTop(base, [f]))
  {
    hide ParseLine, Encode, Printable, ReadLines, Put, IsKey;
    SettingLine(indent, f.key, f.value);
    SetTopNew(base, f.key, f.value);
    ReadOne(Spaces(indent) + f.key + ": " + Encode(f.value), more, number, stack);
  }

  lemma OpenChild(f: Field<Value>, indent: nat, stack: seq<Frame>, base: seq<Frame>, number: nat, more: seq<string>)
    returns (live: seq<Frame>)
    requires IsKey(f.key) && indent % 2 == 0 && f.value.Obj?
    requires stack != [] && CloseTo(stack, indent) == base
    ensures live == SetTop(base, f.key, Obj([])) + [Frame(indent, f.key, [])]
    ensures ReadLines(FieldLines(f, indent) + more, number, stack)
         == ReadLines(DumpMapping(f.value.fields, indent + 2) + more, number + 1, live)
  {
    hide ParseLine, DumpMapping, ReadLines, Put, IsKey, CloseTo;
    var line, subLines := Spaces(indent) + f.key + ":", DumpMapping(f.value.fields, indent + 2);
    OpeningLine(indent, f.key);
    ReadOne(line, subLines + more, number, stack);
    assert FieldLines(f, indent) + more == [line] + (subLines + more);
    live := SetTop(base, f.key, Obj([])) + [Frame(indent, f.key, [])];
  }

  lemma OpenIsOnTop(base: seq<Frame>, key: string, indent: nat, sub: seq<Field<Value>>)
    requires base != []
    ensures var live := SetTop(base, key, Obj([])) + [Frame(indent, key, [])];
            && CloseTo(live, indent + 2) == live && Top(live) == Frame(indent, key, [])
            && (forall k :: !HasKey(Top(live).fields, k))
            && AddTop(live, sub) == SetTop(base, key, Obj([])) + [Frame(indent, key, sub)]
  {
    hide SetTop;
    assert [] + sub == sub;
  }

  /** One entry, its nested lines included, is read into the mapping on top of `base`. */
  lemma {:induction false} ReadField(f: Field<Value>, indent: nat, stack: seq<Frame>, base: seq<Frame>,
                                     number: nat, more: seq<string>)
    returns (after: seq<Frame>)
    requires IsKey(f.key) && indent % 2 == 0
    requires if f.value.Obj? then IsConfig(f.value.fields) else Printable(f.value)
    requires stack != [] && CloseTo(stack, indent) == base && Top(base).indent < indent
    requires !HasKey(Top(base).fields, f.key)
    ensures after != [] && CloseTo(after, indent) == AddTop(base, [f])
    ensures ReadLines(FieldLines(f, indent) + more, number, stack)
         == ReadLines(more, number + |FieldLines(f, indent)|, after)
    decreases f, 1
  {
    hide ParseLine, Encode, Printable, DumpMapping, ReadLines, Put, IsKey, IsConfig, HasKey, SetTop, AddTop, CloseTo,
        Top;
    if f.value.Obj? {
      var sub := f.value.fields;
      var live := OpenChild(f, indent, stack, base, number, more);
      OpenIsOnTop(base, f.key, indent, sub);
      after := ReadMapping(sub, indent + 2, live, live, number + 1, more);
      CloseTwice(after, indent + 2, indent);
      CloseChild(base, f.key, indent, sub);
      assert f == Field(f.key, Obj(sub));
    } else {
      ReadLeaf(f, indent, stack, base, number, more);
      after := AddTop(base, [f]);
    }
  }

  /** Every printed line of a mapping is read into the mapping on top of `base`, whatever
      deeper mappings are still open above it. */
  lemma {:induction false} ReadMapping(fields: seq<Field<Value>>, indent: nat, stack: seq<Frame>, base: seq<Frame>,
                                       number: nat, rest: seq<string>)
    returns (after: seq<Frame>)
    requires IsConfig(fields) && indent % 2 == 0
    requires stack != [] && CloseTo(stack, indent) == base && Top(base).indent < indent
    requires forall i :: 0 <= i < |fields| ==> !HasKey(Top(base).fields, fields[i].key)
    ensures after != [] && CloseTo(after, indent) == AddTop(base, fields)
    ensures ReadLines(DumpMapping(fields, indent) + rest, number, stack)
         == ReadLines(rest, number + |DumpMapping(fields, indent)|, after)
    decreases fields, 0
  {
    hide ParseLine, Encode, Printable, ReadLines, CloseTo, IsKey, FieldLines;
    if fields == [] {
      after := stack;
      assert DumpMapping(fields, indent) + rest == rest;
      AddTopSum(base, [], []);
      return;
    }
    var f, tailLines := fields[0], DumpMapping(fields[1..], indent) + rest;
    var mid := ReadField(f, indent, stack, base, number, tailLines);
    assert DumpMapping(fields, indent) + rest == FieldLines(f, indent) + tailLines;
    var base' := AddTop(base, [f]);
    assert Top(base').fields == Top(base).fields + [f];
    after := ReadMapping(fields[1..], indent, mid, base', number + |FieldLines(f, indent)|, rest);
    AddTopSum(base, [f], fields[1..]);
    assert [f] + fields[1..] == fields;
  }

  // ----- the whole text -----

  lemma BreaklessLine(s: string, rest: string)
    requires NoBreaks(s)
    ensures SplitLines(s + "\n" + rest) == [s] + SplitLines(rest)
  {
    var text := s + "\n" + rest;
    assert text[|s|] == '\n' && forall i :: 0 <= i < |s| ==> text[i] == s[i];
    assert LineLength(text) == |s|;
    assert text[..|s|] == s && text[|s| + 1..] == rest;
  }

  lemma {:induction false} SplitOfJoin(lines: seq<string>)
    requires lines != [] && forall i :: 0 <= i < |lines| ==> NoBreaks(lines[i])
    ensures SplitLines(Join(lines) + "\n") == lines
  {
    hide SplitLines, NoBreaks;
    if |lines| == 1 {
      BreaklessLine(lines[0], "");
      assert Join(lines) + "\n" == lines[0] + "\n" + "";
      assert SplitLines("") == [] by { EmptyText(); }
      assert lines == [lines[0]] + [];
    } else {
      var rest := Join(lines[1..]) + "\n";
      SplitOfJoin(lines[1..]);
      BreaklessLine(lines[0], rest);
      assert Join(lines) + "\n" == lines[0] + "\n" + rest;
      assert lines == [lines[0]] + lines[1..];
    }
  }

  lemma EmptyText()
    ensures SplitLines("") == []
    ensures SplitLines("\n") == [""]
  {
    assert "\n"[..0] == "" && "\n"[1..] == "";
  }

  lemma {:induction false} LinesHaveNoBreaks(fields: seq<Field<Value>>, indent: nat)
    requires IsConfig(fields) && CleanFields(fields)
    ensures forall i :: 0 <= i < |DumpMapping(fields, indent)| ==> NoBreaks(DumpMapping(fields, indent)[i])
    decreases fields, 0
  {
    hide Encode, Printable, FieldLines, IsKey, IsBreak;
    if fields != [] {
      FieldHasNoBreaks(fields[0], indent);
      LinesHaveNoBreaks(fields[1..], indent);
    }
  }

  lemma {:induction false} FieldHasNoBreaks(f: Field<Value>, indent: nat)
    requires IsKey(f.key) && Clean(f.value)
    requires if f.value.Obj? then IsConfig(f.value.fields) else Printable(f.value)
    ensures forall i :: 0 <= i < |FieldLines(f, indent)| ==> NoBreaks(FieldLines(f, indent)[i])
    decreases f, 1
  {
    hide Encode, Printable, DumpMapping, IsKey;
    KeyHasNoSpace(f.key);
    if f.value.Obj? {
      LinesHaveNoBreaks(f.value.fields, indent + 2);
    } else {
      CleanValueHasNoBreaks(f.value);
    }
  }

  /** Reading the printed text of a configuration without Unicode line boundaries gives the
      same tree, keys in the same order, at every depth. */
  lemma ReadOfDump(config: seq<Field<Value>>)
    requires IsConfig(config) && CleanFields(config)
    ensures Read(Dump(config)) == Ok(config)
  {
    hide ReadLines, DumpMapping, SplitLines, IsConfig, CleanFields;
    var lines := DumpMapping(config, 0);
    if lines == [] {
      ReadOfEmpty(config);
      assert Dump(config) == "\n";
    } else {
      LinesHaveNoBreaks(config, 0);
      SplitOfJoin(lines);
      var after := ReadMapping(config, 0, [ROOT], [ROOT], 1, []);
      assert lines + [] == lines;
      FinishAfterClose(after, 0);
      assert [] + config == config;
      ReadNothing(1 + |lines|, after);
    }
  }

  lemma ReadNothing(number: nat, stack: seq<Frame>)
    requires stack != []
    ensures ReadLines([], number, stack) == Ok(stack)
  {
  }

  lemma ReadOfEmpty(config: seq<Field<Value>>)
    requires DumpMapping(config, 0) == []
    ensures config == []
    ensures Read("\n") == Ok([])
  {
    hide Finish, CloseTo;
    EmptyText();
    assert ParseLine("") == Blank;
    ReadOne("", [], 1, [ROOT]);
    ReadNothing(2, [ROOT]);
    assert [""] + [] == [""];
    assert Finish([ROOT]) == [] by { RootFields(); }
  }

  lemma RootFields()
    ensures Finish([ROOT]) == []
  {
  }
}
