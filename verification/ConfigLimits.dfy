/** The round trip fails as soon as one string holds U+0085, U+2028 or U+2029: the printer
    leaves these as they are, the reader ends the line there, and no line of a printed
    configuration carries an escape that could bring them back. */
module ConfigLimits {
  import opened Json
  import opened JsonRoundTrip
  import opened ConfigText
  import opened ConfigRoundTrip

  // ----- text made of plain characters and whole escapes -----

  /** No character below a space is written with `\u`, and every backslash has its partner. */
  predicate Units(s: string) {
    if s == "" then true
    else if s[0] != '\\' then Units(s[1..])
    else
      && |s| > 1 && !IsBreak(s[1])
      && (s[1] == 'u' ==> 0 <= CodeUnit(s[2..]) < 32)
      && Units(s[2..])
  }

  /** What is left of that after cutting anywhere on the right. */
  predicate Safe(s: string) {
    if |s| < 2 then true
    else if s[0] != '\\' then Safe(s[1..])
    else (s[1] == 'u' ==> CodeUnit(s[2..]) < 32) && Safe(s[2..])
  }

  lemma {:induction false} UnitsConcat(a: string, b: string)
    requires Units(a) && Units(b)
    ensures Units(a + b)
  {
    hide CodeUnit;
    if a == "" {
      assert a + b == b;
    } else if a[0] != '\\' {
      UnitsConcat(a[1..], b);
      assert (a + b)[1..] == a[1..] + b;
    } else {
      UnitsConcat(a[2..], b);
      assert (a + b)[2..] == a[2..] + b;
      if a[1] == 'u' { CodeUnitPrefix(a[2..], b); }
    }
  }

  lemma CodeUnitPrefix(a: string, b: string)
    ensures CodeUnit(a) >= 0 ==> CodeUnit(a + b) == CodeUnit(a)
    ensures CodeUnit(a) == -1 || CodeUnit(a) == CodeUnit(a + b)
  {
  }

  lemma {:induction false} UnitsSplit(a: string, c: char, b: string)
    requires Units(a + [c] + b) && IsBreak(c)
    ensures Units(a) && Units(b)
    decreases |a|
  {
    hide CodeUnit;
    var s := a + [c] + b;
    if a == "" {
      assert s[1..] == b;
    } else if a[0] != '\\' {
      assert s[1..] == a[1..] + [c] + b;
      UnitsSplit(a[1..], c, b);
    } else {
      assert s[|a|] == c;
      assert |a| > 1;
      assert s[2..] == a[2..] + [c] + b;
      UnitsSplit(a[2..], c, b);
      if a[1] == 'u' { CodeUnitBeforeBreak(a[2..], c, b); }
    }
  }

  lemma CodeUnitBeforeBreak(a: string, c: char, b: string)
    requires IsBreak(c) && CodeUnit(a + [c] + b) >= 0
    ensures CodeUnit(a) == CodeUnit(a + [c] + b)
  {
    var s := a + [c] + b;
    assert HexValue(c) == -1;
    assert s[|a|] == c;
  }

  lemma {:induction false} UnitsAreSafe(s: string)
    requires Units(s)
    ensures Safe(s)
  {
    hide CodeUnit;
    if |s| >= 2 { UnitsAreSafe(if s[0] == '\\' then s[2..] else s[1..]); }
  }

  lemma {:induction false} SafePrefix(s: string, k: nat)
    requires Safe(s) && k <= |s|
    ensures Safe(s[..k])
  {
    hide CodeUnit;
    var p := s[..k];
    if |p| >= 2 {
      if p[0] != '\\' {
        assert p[1..] == s[1..][..k - 1];
        SafePrefix(s[1..], k - 1);
      } else {
        assert p[2..] == s[2..][..k - 2];
        SafePrefix(s[2..], k - 2);
        CodeUnitPrefix(p[2..], s[k..]);
        assert p[2..] + s[k..] == s[2..];
      }
    }
  }

  /** Dropping characters that are no backslashes. */
  lemma {:induction false} SafeDrop(s: string, k: nat)
    requires Safe(s) && k <= |s| && forall i :: 0 <= i < k ==> s[i] != '\\'
    ensures Safe(s[k..])
  {
    hide CodeUnit;
    if k > 0 {
      if |s| >= 2 { SafeDrop(s[1..], k - 1); }
      assert s[1..][k - 1..] == s[k..];
    } else {
      assert s[0..] == s;
    }
  }

  // ----- whatever is printed is made of units -----

  lemma PlainUnits(s: string)
    requires forall i :: 0 <= i < |s| ==> s[i] != '\\'
    ensures Units(s)
  {
  }

  lemma CharUnits(c: char)
    ensures Units(EncodeChar(c))
  {
    var e := EncodeChar(c);
    if |e| == 2 {
      assert e[2..] == "";
    } else if |e| > 2 {
      ControlEscape(c, "");
      assert e[2..] == ['0', '0', HexDigit(c as int / 16), HexDigit(c as int % 16)] + "";
      PlainUnits(e[2..]);
    }
  }

  lemma {:induction false} CharsUnits(s: string)
    ensures Units(EncodeChars(s))
  {
    hide Units, EncodeChar;
    if s == "" {
      PlainUnits("");
    } else {
      CharUnits(s[0]);
      CharsUnits(s[1..]);
      UnitsConcat(EncodeChar(s[0]), EncodeChars(s[1..]));
    }
  }

  lemma StringUnits(s: string)
    ensures Units(EncodeString(s))
  {
    hide Units, EncodeChars;
    CharsUnits(s);
    PlainUnits("\"");
    UnitsConcat("\"", EncodeChars(s));
    UnitsConcat("\"" + EncodeChars(s), "\"");
  }

  lemma {:induction false} ValueUnits(v: Value)
    requires Printable(v)
    ensures Units(Encode(v))
    decreases v
  {
    hide Units, EncodeItems, EncodeFields, EncodeString;
    match v
    case Str(s) => StringUnits(s);
    case List(items) =>
      if items == [] { PlainUnits("[]"); }
      else { ItemsUnits(items); PlainUnits("["); UnitsConcat("[", EncodeItems(items)); }
    case Obj(fields) =>
      if fields == [] { PlainUnits("{}"); }
      else { FieldsUnits(fields); PlainUnits("{"); UnitsConcat("{", EncodeFields(fields)); }
    case Int(n) =>
      assert forall c :: IsDigit(c) ==> c != '\\';
      PlainUnits(IntText(n));
    case Null => PlainUnits("null");
    case Bool(b) => PlainUnits(if b then "true" else "false");
    case Float(_) =>
  }

  lemma {:induction false} ItemsUnits(items: seq<Value>)
    requires items != [] && forall i :: 0 <= i < |items| ==> Printable(items[i])
    ensures Units(EncodeItems(items))
    decreases items
  {
    hide Units, Encode;
    ValueUnits(items[0]);
    var tail := if |items| == 1 then "]" else ", " + EncodeItems(items[1..]);
    if |items| == 1 {
      PlainUnits("]");
    } else {
      ItemsUnits(items[1..]);
      PlainUnits(", ");
      UnitsConcat(", ", EncodeItems(items[1..]));
    }
    UnitsConcat(Encode(items[0]), tail);
  }

  lemma {:induction false} FieldsUnits(fields: seq<Field<Value>>)
    requires fields != [] && forall i :: 0 <= i < |fields| ==> Printable(fields[i].value)
    ensures Units(EncodeFields(fields))
    decreases fields
  {
    hide Units, Encode, EncodeString;
    var key, value := EncodeString(fields[0].key), Encode(fields[0].value);
    StringUnits(fields[0].key);
    ValueUnits(fields[0].value);
    PlainUnits(": ");
    UnitsConcat(key, ": ");
    UnitsConcat(key + ": ", value);
    var tail := if |fields| == 1 then "}" else ", " + EncodeFields(fields[1..]);
    if |fields| == 1 {
      PlainUnits("}");
    } else {
      FieldsUnits(fields[1..]);
      PlainUnits(", ");
      UnitsConcat(", ", EncodeFields(fields[1..]));
    }
    UnitsConcat(key + ": " + value, tail);
  }

  lemma {:induction false} FieldLinesUnits(f: Field<Value>, indent: nat)
    requires IsKey(f.key) && if f.value.Obj? then IsConfig(f.value.fields) else Printable(f.value)
    ensures forall i :: 0 <= i < |FieldLines(f, indent)| ==> Units(FieldLines(f, indent)[i])
    decreases f, 1
  {
    hide Units, Encode, DumpMapping, Printable;
    assert forall c :: IsKeyChar(c) ==> c != '\\';
    if f.value.Obj? {
      PlainUnits(Spaces(indent) + f.key + ":");
      MappingUnits(f.value.fields, indent + 2);
    } else {
      PlainUnits(Spaces(indent) + f.key + ": ");
      ValueUnits(f.value);
      UnitsConcat(Spaces(indent) + f.key + ": ", Encode(f.value));
    }
  }

  lemma {:induction false} MappingUnits(fields: seq<Field<Value>>, indent: nat)
    requires IsConfig(fields)
    ensures forall i :: 0 <= i < |DumpMapping(fields, indent)| ==> Units(DumpMapping(fields, indent)[i])
    decreases fields, 0
  {
    hide Units, FieldLines, Printable, IsKey;
    if fields != [] {
      FieldLinesUnits(fields[0], indent);
      MappingUnits(fields[1..], indent);
    }
  }

  lemma {:induction false} JoinUnits(lines: seq<string>)
    requires forall i :: 0 <= i < |lines| ==> Units(lines[i])
    ensures Units(Join(lines))
  {
    hide Units;
    if lines == [] {
      PlainUnits("");
    } else if |lines| > 1 {
      PlainUnits("\n");
      JoinUnits(lines[1..]);
      UnitsConcat(lines[0], "\n");
      UnitsConcat(lines[0] + "\n", Join(lines[1..]));
    }
  }

  // ----- a line of such text is read into a clean value -----

  predicate Line'(s: string) { Safe(s) && NoBreaks(s) }

  lemma DropPlain(s: string, k: nat)
    requires Line'(s) && k <= |s| && forall i :: 0 <= i < k ==> s[i] != '\\'
    ensures Line'(s[k..])
  {
    SafeDrop(s, k);
  }

  lemma {:induction false} SkipWsStaysSafe(s: string)
    requires Line'(s)
    ensures Line'(SkipWs(s))
  {
    hide Line';
    if s != "" && IsJsonSpace(s[0]) {
      DropPlain(s, 1);
      SkipWsStaysSafe(s[1..]);
    }
  }

  lemma EscapeIsClean(s: string)
    requires |s| >= 2 && s[0] == '\\' && Line'(s) && DecodeEscape(s[1..]).Done?
    ensures var r := DecodeEscape(s[1..]); !IsUnicodeBreak(r.value) && Line'(r.rest)
  {
    hide CodeUnit;
    var t := s[1..];
    assert t[1..] == s[2..];
    if t[0] == 'u' {
      assert CodeUnit(t[1..]) >= 0;
      HexDigitsOf(s[2..]);
      assert t[5..] == s[2..][4..];
      DropPlain(s[2..], 4);
    }
  }

  lemma HexDigitsOf(s: string)
    requires CodeUnit(s) >= 0
    ensures |s| >= 4 && forall i :: 0 <= i < 4 ==> s[i] != '\\'
  {
    assert HexValue('\\') == -1;
    assert s[0] != '\\' && s[1] != '\\' && s[2] != '\\' && s[3] != '\\';
  }

  lemma {:induction false} StringIsClean(s: string)
    requires Line'(s) && DecodeString(s).Done?
    ensures CleanText(DecodeString(s).value) && Line'(DecodeString(s).rest)
    decreases |s|
  {
    hide DecodeEscape;
    if s[0] == '\"' {
      DropPlain(s, 1);
    } else if s[0] == '\\' {
      EscapeIsClean(s);
      StringIsClean(DecodeEscape(s[1..]).rest);
    } else {
      DropPlain(s, 1);
      StringIsClean(s[1..]);
    }
  }

  lemma NumberIsClean(s: string)
    requires Line'(s) && DecodeNumber(s).Done?
    ensures Clean(DecodeNumber(s).value) && Line'(DecodeNumber(s).rest)
  {
    hide Line', DecodeUnsigned;
    if s[0] == '-' {
      DropPlain(s, 1);
      UnsignedIsClean("-", s[1..]);
    } else {
      UnsignedIsClean("", s);
    }
  }

  lemma UnsignedIsClean(sign: string, s: string)
    requires Line'(s) && DecodeUnsigned(sign, s).Done? && CleanText(sign)
    ensures Clean(DecodeUnsigned(sign, s).value) && Line'(DecodeUnsigned(sign, s).rest)
  {
    hide Line', Clean, CleanText, ToNat, DigitRun, FractionLength, ExponentLength;
    LineIsCleanText(s);
    UnsignedValueIsClean(sign, s);
    var whole := if s[0] == '0' then 1 else DigitRun(s);
    DropPlain(s, whole);
    var t := s[whole..];
    FractionIsPlain(t);
    DropPlain(t, FractionLength(t));
    var u := t[FractionLength(t)..];
    assert u == s[whole + FractionLength(t)..];
    ExponentIsPlain(u);
    DropPlain(u, ExponentLength(u));
    assert u[ExponentLength(u)..] == s[whole + FractionLength(t) + ExponentLength(u)..];
  }

  lemma UnsignedValueIsClean(sign: string, s: string)
    requires CleanText(sign) && CleanText(s) && DecodeUnsigned(sign, s).Done?
    ensures Clean(DecodeUnsigned(sign, s).value)
  {
    hide ToNat, DigitRun, FractionLength, ExponentLength;
  }

  lemma LineIsCleanText(s: string)
    requires Line'(s)
    ensures CleanText(s)
  {
  }

  lemma FractionIsPlain(s: string)
    ensures forall i :: 0 <= i < FractionLength(s) ==> s[i] != '\\'
  {
    hide DigitRun;
    if s != "" {
      var t := s[1..];
      assert forall i :: 0 <= i < DigitRun(t) ==> IsDigit(t[i]);
    }
  }

  lemma ExponentIsPlain(s: string)
    ensures forall i :: 0 <= i < ExponentLength(s) ==> s[i] != '\\'
  {
    hide DigitRun;
    if s != "" {
      var sign := if |s| >= 2 && (s[1] == '+' || s[1] == '-') then 1 else 0;
      var t := s[1 + sign..];
      assert forall i :: 0 <= i < DigitRun(t) ==> IsDigit(t[i]);
      forall i | 0 <= i < ExponentLength(s) ensures s[i] != '\\' {
        if i > sign { assert s[i] == t[i - 1 - sign]; }
      }
    }
  }

  lemma WordIsClean(s: string)
    requires Line'(s) && DecodeWord(s).Done?
    ensures Clean(DecodeWord(s).value) && Line'(DecodeWord(s).rest)
  {
    hide Line', StartsWith, Clean;
    CleanWords();
    forall word | word in WORDS && StartsWith(s, word)
      ensures |word| <= |s| && Line'(s[|word|..])
    {
      AfterWord(s, word);
    }
  }

  lemma AfterWord(s: string, word: string)
    requires Line'(s) && word in WORDS && StartsWith(s, word)
    ensures |word| <= |s| && Line'(s[|word|..])
  {
    hide Line';
    PlainWords();
    PrefixIs(s, word);
    DropPlain(s, |word|);
  }

  lemma PrefixIs(s: string, prefix: string)
    requires StartsWith(s, prefix)
    ensures |s| >= |prefix| && forall i :: 0 <= i < |prefix| ==> s[i] == prefix[i]
  {
    assert forall i :: 0 <= i < |prefix| ==> s[..|prefix|][i] == s[i];
  }

  lemma CleanWords()
    ensures Clean(Null) && Clean(Bool(true)) && Clean(Bool(false))
    ensures Clean(Float("NaN")) && Clean(Float("Infinity")) && Clean(Float("-Infinity"))
  {
  }

  const WORDS := ["null", "true", "false", "NaN", "Infinity", "-Infinity"]

  lemma PlainWords()
    ensures forall word, i :: word in WORDS && 0 <= i < |word| ==> word[i] != '\\'
  {
  }

  lemma {:induction false} DecodeIsClean(s: string)
    requires Line'(s) && Decode(s).Done?
    ensures Clean(Decode(s).value) && Line'(Decode(s).rest)
    decreases |s|, 1
  {
    hide Line', DecodeWord, DecodeNumber, DecodeString, DecodeItems, DecodeFields;
    if s[0] == '\"' {
      DropPlain(s, 1);
      StringIsClean(s[1..]);
    } else if s[0] == '{' {
      DropPlain(s, 1);
      SkipWsStaysSafe(s[1..]);
      var t := SkipWs(s[1..]);
      if t != "" && t[0] == '}' { DropPlain(t, 1); } else { FieldsAreClean(t); CleanDict(DecodeFields(t).value); }
    } else if s[0] == '[' {
      DropPlain(s, 1);
      SkipWsStaysSafe(s[1..]);
      var t := SkipWs(s[1..]);
      if t != "" && t[0] == ']' { DropPlain(t, 1); } else { ItemsAreClean(t); }
    } else if IsDigit(s[0]) || (s[0] == '-' && (|s| == 1 || s[1] != 'I')) {
      NumberIsClean(s);
    } else {
      WordIsClean(s);
    }
  }

  lemma {:induction false} ItemsAreClean(s: string)
    requires Line'(s) && DecodeItems(s).Done?
    ensures Line'(DecodeItems(s).rest)
    ensures forall i :: 0 <= i < |DecodeItems(s).value| ==> Clean(DecodeItems(s).value[i])
    decreases |s|, 2
  {
    hide Line', Decode, SkipWs, Clean;
    DecodeIsClean(s);
    SkipWsStaysSafe(Decode(s).rest);
    var t := SkipWs(Decode(s).rest);
    DropPlain(t, 1);
    if t[0] == ',' {
      SkipWsStaysSafe(t[1..]);
      ItemsAreClean(SkipWs(t[1..]));
    }
  }

  lemma KeyIsClean(s: string)
    requires Line'(s) && DecodeKey(s).Done?
    ensures CleanText(DecodeKey(s).value) && Line'(DecodeKey(s).rest)
  {
    hide Line', DecodeString, SkipWs, CleanText;
    DropPlain(s, 1);
    StringIsClean(s[1..]);
    var rest := DecodeString(s[1..]).rest;
    SkipWsStaysSafe(rest);
    var t := SkipWs(rest);
    DropPlain(t, 1);
    SkipWsStaysSafe(t[1..]);
  }

  lemma {:induction false} FieldsAreClean(s: string)
    requires Line'(s) && DecodeFields(s).Done?
    ensures CleanFields(DecodeFields(s).value) && Line'(DecodeFields(s).rest)
    decreases |s|, 2
  {
    hide Line', Decode, DecodeKey, SkipWs, Clean, CleanText;
    KeyIsClean(s);
    var valueText := DecodeKey(s).rest;
    DecodeIsClean(valueText);
    SkipWsStaysSafe(Decode(valueText).rest);
    var t := SkipWs(Decode(valueText).rest);
    DropPlain(t, 1);
    if t[0] == ',' {
      SkipWsStaysSafe(t[1..]);
      FieldsAreClean(SkipWs(t[1..]));
    }
  }

  lemma {:induction false} CleanPut(fields: seq<Field<Value>>, key: string, value: Value)
    requires CleanFields(fields) && CleanText(key) && Clean(value)
    ensures CleanFields(Put(fields, key, value))
  {
    hide Clean, CleanText;
    if fields != [] && fields[0].key != key { CleanPut(fields[1..], key, value); }
  }

  lemma {:induction false} CleanDict(pairs: seq<Field<Value>>)
    requires CleanFields(pairs)
    ensures CleanFields(ToDict(pairs))
  {
    hide Clean, CleanText;
    if pairs != [] {
      var init, last := pairs[..|pairs| - 1], pairs[|pairs| - 1];
      CleanDict(init);
      CleanPut(ToDict(init), last.key, last.value);
    }
  }

  // ----- lines and the stack -----

  lemma {:induction false} LStripStaysSafe(s: string)
    requires Line'(s)
    ensures Line'(LStrip(s))
  {
    hide Line';
    if s != "" && IsSpace(s[0]) {
      DropPlain(s, 1);
      LStripStaysSafe(s[1..]);
    }
  }

  lemma {:induction false} RStripStaysSafe(s: string)
    requires Line'(s)
    ensures Line'(RStrip(s))
  {
    if s != "" && IsSpace(s[|s| - 1]) {
      SafePrefix(s, |s| - 1);
      RStripStaysSafe(s[..|s| - 1]);
    }
  }

  lemma StripStaysSafe(s: string)
    requires Line'(s)
    ensures Line'(Strip(s))
  {
    hide Line', LStrip, RStrip;
    LStripStaysSafe(s);
    RStripStaysSafe(LStrip(s));
  }

  lemma ScalarIsClean(text: string)
    requires Line'(text)
    ensures Clean(ParseScalar(text))
  {
    hide Decode, Strip, ToNat, DigitRun;
    StripStaysSafe(text);
    var t := Strip(text);
    SkipWsStaysSafe(t);
    if Decode(SkipWs(t)).Done? { DecodeIsClean(SkipWs(t)); }
    assert CleanText(t);
  }

  lemma KeyIsPlain(content: string, colon: nat)
    requires colon <= |content| && IsKey(Strip(content[..colon]))
    ensures forall i :: 0 <= i < colon ==> content[i] != '\\'
  {
    var raw := content[..colon];
    StripKeepsTheRest(raw);
    forall i | 0 <= i < colon ensures content[i] != '\\' {
      assert raw[i] == content[i];
      if raw[i] in Strip(raw) { assert IsKeyChar(raw[i]); }
    }
  }

  lemma StripKeepsTheRest(s: string)
    ensures forall i :: 0 <= i < |s| ==> IsSpace(s[i]) || s[i] in Strip(s)
  {
    LStripKeepsTheRest(s);
    RStripKeepsTheRest(LStrip(s));
  }

  lemma {:induction false} LStripKeepsTheRest(s: string)
    ensures forall i :: 0 <= i < |s| ==> IsSpace(s[i]) || s[i] in LStrip(s)
  {
    if s != "" && IsSpace(s[0]) {
      LStripKeepsTheRest(s[1..]);
      assert forall i :: 1 <= i < |s| ==> s[i] == s[1..][i - 1];
    }
  }

  lemma {:induction false} RStripKeepsTheRest(s: string)
    ensures forall i :: 0 <= i < |s| ==> IsSpace(s[i]) || s[i] in RStrip(s)
  {
    if s != "" && IsSpace(s[|s| - 1]) {
      RStripKeepsTheRest(s[..|s| - 1]);
      assert forall i :: 0 <= i < |s| - 1 ==> s[i] == s[..|s| - 1][i];
    }
  }

  lemma LineIsClean(raw: string)
    requires Line'(raw)
    ensures ParseLine(raw).Sets? ==> Clean(ParseLine(raw).value) && CleanText(ParseLine(raw).key)
    ensures ParseLine(raw).Opens? ==> CleanText(ParseLine(raw).key)
  {
    hide Strip, ParseScalar, Clean, Line', LStrip;
    StripStaysSafe(raw);
    var content := Strip(raw);
    var colon := FirstColon(content);
    if colon < |content| && IsKey(Strip(content[..colon])) {
      var key := Strip(content[..colon]);
      assert CleanText(key) by {
        assert forall c :: IsKeyChar(c) ==> !IsUnicodeBreak(c);
      }
      KeyIsPlain(content, colon);
      DropPlain(content, colon + 1);
      ScalarIsClean(content[colon + 1..]);
    }
  }

  predicate CleanStack(stack: seq<Frame>) {
    forall i :: 0 <= i < |stack| ==> CleanText(stack[i].key) && CleanFields(stack[i].fields)
  }

  lemma CleanSet(stack: seq<Frame>, key: string, value: Value)
    requires stack != [] && CleanStack(stack) && CleanText(key) && Clean(value)
    ensures CleanStack(SetTop(stack, key, value))
  {
    hide CleanText, Clean, Put, CleanFields;
    CleanPut(Top(stack).fields, key, value);
  }

  lemma CleanPop(stack: seq<Frame>)
    requires |stack| > 1 && CleanStack(stack)
    ensures CleanStack(PopTop(stack))
  {
    hide CleanText, CleanFields;
    CleanSet(stack[..|stack| - 1], Top(stack).key, Obj(Top(stack).fields));
  }

  lemma {:induction false} CleanClose(stack: seq<Frame>, indent: int)
    requires stack != [] && CleanStack(stack)
    ensures CleanStack(CloseTo(stack, indent))
    decreases |stack|
  {
    hide CleanStack;
    if |stack| > 1 && indent <= Top(stack).indent {
      CleanPop(stack);
      CleanClose(PopTop(stack), indent);
    }
  }

  lemma {:induction false} CleanFinish(stack: seq<Frame>)
    requires stack != [] && CleanStack(stack)
    ensures CleanFields(Finish(stack))
    decreases |stack|
  {
    if |stack| > 1 {
      CleanPop(stack);
      CleanFinish(PopTop(stack));
    }
  }

  lemma {:induction false} CleanLines(lines: seq<string>, number: nat, stack: seq<Frame>)
    requires stack != [] && CleanStack(stack)
    requires forall i :: 0 <= i < |lines| ==> Line'(lines[i])
    ensures var r := ReadLines(lines, number, stack); r.Ok? ==> CleanStack(r.value)
  {
    hide Line', CleanStack, ParseLine, SetTop;
    if lines != [] {
      var line := ParseLine(lines[0]);
      LineIsClean(lines[0]);
      if !line.Bad? {
        if !line.Blank? {
          CleanClose(stack, line.indent);
          CleanSet(CloseTo(stack, line.indent), line.key, if line.Sets? then line.value else Obj([]));
          if line.Opens? {
            CleanPush(SetTop(CloseTo(stack, line.indent), line.key, Obj([])), line.indent, line.key);
          }
        }
        CleanLines(lines[1..], number + 1, Apply(stack, line));
      }
    }
  }

  lemma CleanPush(stack: seq<Frame>, indent: int, key: string)
    requires CleanStack(stack) && CleanText(key)
    ensures CleanStack(stack + [Frame(indent, key, [])])
  {
  }

  lemma {:induction false} SplitUnits(s: string)
    requires Units(s)
    ensures forall i :: 0 <= i < |SplitLines(s)| ==> Line'(SplitLines(s)[i])
    decreases |s|
  {
    hide Units, Safe;
    var k := LineLength(s);
    if s != "" {
      if k == |s| {
        assert s[..k] == s;
        UnitsAreSafe(s);
      } else {
        UnitsAround(s, k);
        UnitsAreSafe(s[..k]);
        if s[k] == '\r' && k + 1 < |s| && s[k + 1] == '\n' {
          UnitsAround(s[k + 1..], 0);
          assert s[k + 2..] == s[k + 1..][1..];
          SplitUnits(s[k + 2..]);
        } else {
          SplitUnits(s[k + 1..]);
        }
      }
    }
  }

  lemma UnitsAround(s: string, k: nat)
    requires Units(s) && k < |s| && IsBreak(s[k])
    ensures Units(s[..k]) && Units(s[k + 1..])
  {
    hide Units;
    assert s == s[..k] + [s[k]] + s[k + 1..];
    UnitsSplit(s[..k], s[k], s[k + 1..]);
  }

  lemma RootIsClean()
    ensures CleanStack([ROOT])
  {
  }

  /** Exactly when the round trip holds. */
  lemma RoundTripIffClean(config: seq<Field<Value>>)
    requires IsConfig(config)
    ensures Read(Dump(config)) == Ok(config) <==> CleanFields(config)
  {
    hide IsConfig, CleanFields, ReadLines, SplitLines, DumpMapping, Join, Units, Line';
    if CleanFields(config) {
      ReadOfDump(config);
    } else {
      ReadIsClean(config);
    }
  }

  /** Whatever comes back from a printed configuration is clean. */
  lemma ReadIsClean(config: seq<Field<Value>>)
    requires IsConfig(config)
    ensures Read(Dump(config)).Ok? ==> CleanFields(Read(Dump(config)).value)
  {
    hide IsConfig, CleanFields, ReadLines, SplitLines, DumpMapping, Join, Units, Line';
    MappingUnits(config, 0);
    JoinUnits(DumpMapping(config, 0));
    PlainUnits("\n");
    UnitsConcat(Join(DumpMapping(config, 0)), "\n");
    SplitUnits(Dump(config));
    RootIsClean();
    CleanLines(SplitLines(Dump(config)), 1, [ROOT]);
    var r := ReadLines(SplitLines(Dump(config)), 1, [ROOT]);
    if r.Ok? { CleanFinish(r.value); }
  }

  /** The smallest failing configuration, a string of one such character: the line breaks
      inside the quotes, and the closing quote is no entry. */
  lemma NextLineBreaksTheRoundTrip()
    ensures var config := [Field("k", Str([0x85 as char]))];
            IsConfig(config) && Read(Dump(config)) != Ok(config)
  {
    var config := [Field("k", Str([0x85 as char]))];
    assert !CleanText([0x85 as char]) by { assert IsUnicodeBreak([0x85 as char][0]); }
    assert !Clean(config[0].value);
    RoundTripIffClean(config);
  }
}
