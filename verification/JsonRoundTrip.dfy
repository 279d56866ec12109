/** Decoding the printed text of any JSON value, whatever follows it, gives the value back. */
module JsonRoundTrip {
  import opened Json

  /** The values the printer is meant for: dict keys are unique, and no floats. */
  ghost predicate Printable(v: Value)
    decreases v
  {
    match v
    case Float(_) => false
    case List(items) => forall i :: 0 <= i < |items| ==> Printable(items[i])
    case Obj(fields) => UniqueKeys(fields) && forall i :: 0 <= i < |fields| ==> Printable(fields[i].value)
    case _ => true
  }

  /** Text that cannot be taken for the continuation of a number. */
  predicate EndsValue(rest: string) {
    rest == "" || !(IsDigit(rest[0]) || rest[0] == '.' || rest[0] == 'e' || rest[0] == 'E')
  }

  // ----- strings -----

  lemma ControlEscape(c: char, rest: string)
    requires c < ' '
    ensures CodeUnit(['0', '0', HexDigit(c as int / 16), HexDigit(c as int % 16)] + rest) == c as int
  {
    var n := c as int;
    assert HexValue(HexDigit(n / 16)) == n / 16 && HexValue(HexDigit(n % 16)) == n % 16;
    assert HexValue('0') == 0;
  }

  lemma EscapeRoundTrip(c: char, rest: string)
    requires |EncodeChar(c)| > 1
    ensures EncodeChar(c)[0] == '\\'
    ensures DecodeEscape(EncodeChar(c)[1..] + rest) == Done(c, rest)
  {
    var t := EncodeChar(c)[1..] + rest;
    if t[0] == 'u' {
      ControlEscape(c, rest);
      assert t[1..] == ['0', '0', HexDigit(c as int / 16), HexDigit(c as int % 16)] + rest;
      assert t[5..] == rest;
    } else {
      assert t[1..] == rest;
    }
  }

  lemma CharRoundTrip(c: char, tail: string)
    requires DecodeString(tail).Done?
    ensures DecodeString(EncodeChar(c) + tail)
         == Done([c] + DecodeString(tail).value, DecodeString(tail).rest)
  {
    hide DecodeEscape;
    var text := EncodeChar(c) + tail;
    if |EncodeChar(c)| == 1 {
      assert text[1..] == tail;
    } else {
      EscapeRoundTrip(c, tail);
      assert text[1..] == EncodeChar(c)[1..] + tail;
    }
  }

  lemma {:induction false} StringRoundTrip(s: string, rest: string)
    ensures DecodeString(EncodeChars(s) + "\"" + rest) == Done(s, rest)
  {
    if s == "" {
      assert (EncodeChars(s) + "\"" + rest)[1..] == rest;
    } else {
      var tail := EncodeChars(s[1..]) + "\"" + rest;
      StringRoundTrip(s[1..], rest);
      CharRoundTrip(s[0], tail);
      assert EncodeChars(s) + "\"" + rest == EncodeChar(s[0]) + tail;
      assert s == [s[0]] + s[1..];
    }
  }

  lemma QuotedRoundTrip(s: string, rest: string)
    ensures (EncodeString(s) + rest)[0] == '\"'
    ensures DecodeString((EncodeString(s) + rest)[1..]) == Done(s, rest)
  {
    StringRoundTrip(s, rest);
    assert (EncodeString(s) + rest)[1..] == EncodeChars(s) + "\"" + rest;
  }

  // ----- numbers -----

  lemma UnsignedRoundTrip(sign: string, d: string, rest: string)
    requires d != "" && forall i :: 0 <= i < |d| ==> IsDigit(d[i])
    requires d[0] == '0' ==> |d| == 1
    requires EndsValue(rest)
    ensures DecodeUnsigned(sign, d + rest)
         == Done(Int(if sign == "-" then 0 - ToNat(d) else ToNat(d)), rest)
  {
    hide ToNat;
    DigitRunIsThePrefix(d, rest);
    assert (d + rest)[..|d|] == d && (d + rest)[|d|..] == rest;
    assert FractionLength(rest) == 0 && ExponentLength(rest) == 0;
  }

  lemma NumberDispatch(s: string)
    requires s != "" && (IsDigit(s[0]) || (|s| > 1 && s[0] == '-' && IsDigit(s[1])))
    ensures Decode(s) == DecodeNumber(s)
  {
    hide DecodeNumber;
  }

  lemma NumberRoundTrip(n: int, rest: string)
    requires EndsValue(rest)
    ensures Decode(IntText(n) + rest) == Done(Int(n), rest)
  {
    hide Decode, DecodeUnsigned, ToNat, Digits;
    var d := Digits(if n < 0 then -n else n);
    var sign := if n < 0 then "-" else "";
    ToNatOfDigits(if n < 0 then -n else n);
    UnsignedRoundTrip(sign, d, rest);
    var s := IntText(n) + rest;
    assert s == sign + (d + rest) && s[|sign|..] == d + rest;
    assert IsDigit(d[0]) && s[|sign|] == d[0];
    NumberDispatch(s);
  }

  // ----- the recursion over values -----

  lemma EncodingStart(v: Value)
    requires Printable(v)
    ensures Encode(v) != ""
    ensures var c := Encode(v)[0]; !IsJsonSpace(c) && c != ']' && c != '}'
  {
  }

  lemma WordRoundTrip(v: Value, rest: string)
    requires v.Null? || v.Bool?
    ensures Decode(Encode(v) + rest) == Done(v, rest)
  {
    var s := Encode(v) + rest;
    assert s[..|Encode(v)|] == Encode(v) && s[|Encode(v)|..] == rest;
  }

  /** What `Decode` does with a bracket, given what it finds inside. */
  lemma ArrayStep(text: string, items: seq<Value>, rest: string)
    requires text != "" && !IsJsonSpace(text[0]) && text[0] != ']'
    requires DecodeItems(text) == Done(items, rest)
    ensures Decode("[" + text) == Done(List(items), rest)
  {
    assert ("[" + text)[1..] == text;
  }

  lemma ObjectStep(text: string, fields: seq<Field<Value>>, rest: string)
    requires text != "" && !IsJsonSpace(text[0]) && text[0] != '}'
    requires DecodeFields(text) == Done(fields, rest)
    ensures Decode("{" + text) == Done(Obj(ToDict(fields)), rest)
  {
    assert ("{" + text)[1..] == text;
  }

  lemma StringStep(t: string, rest: string)
    ensures Decode(EncodeString(t) + rest) == Done(Str(t), rest)
  {
    QuotedRoundTrip(t, rest);
  }

  lemma EmptyRoundTrip(rest: string)
    ensures Decode("[]" + rest) == Done(List([]), rest)
    ensures Decode("{}" + rest) == Done(Obj([]), rest)
  {
    assert ("[]" + rest)[1..] == "]" + rest && ("]" + rest)[1..] == rest;
    assert ("{}" + rest)[1..] == "}" + rest && ("}" + rest)[1..] == rest;
  }

  lemma {:induction false} RoundTrip(v: Value, rest: string)
    requires Printable(v) && EndsValue(rest)
    ensures Decode(Encode(v) + rest) == Done(v, rest)
    decreases v
  {
    hide Decode, DecodeItems, DecodeFields, EncodeItems, EncodeFields, ToDict;
    match v
    case Null => WordRoundTrip(v, rest);
    case Bool(_) => WordRoundTrip(v, rest);
    case Int(n) => NumberRoundTrip(n, rest);
    case Str(t) => StringStep(t, rest);
    case List(items) =>
      if items == [] {
        EmptyRoundTrip(rest);
      } else {
        ItemsRoundTrip(items, rest);
        ArrayStep(EncodeItems(items) + rest, items, rest);
        assert Encode(v) + rest == "[" + (EncodeItems(items) + rest);
      }
    case Obj(fields) =>
      if fields == [] {
        EmptyRoundTrip(rest);
      } else {
        FieldsRoundTrip(fields, rest);
        UniquePairsAreADict(fields);
        ObjectStep(EncodeFields(fields) + rest, fields, rest);
        assert Encode(v) + rest == "{" + (EncodeFields(fields) + rest);
      }
  }

  /** A separator followed by one space and a token. */
  lemma SpacedTail(sep: string, more: string)
    requires |sep| == 2 && !IsJsonSpace(sep[0]) && sep[1] == ' '
    requires more != "" && !IsJsonSpace(more[0])
    ensures SkipWs(sep + more) == sep + more
    ensures SkipWs((sep + more)[1..]) == more
  {
    assert (sep + more)[1..][1..] == more;
    assert SkipWs((sep + more)[1..]) == SkipWs(more);
  }

  lemma LastItem(text: string, v: Value, rest: string)
    requires Decode(text) == Done(v, "]" + rest)
    ensures DecodeItems(text) == Done([v], rest)
  {
    assert ("]" + rest)[1..] == rest;
  }

  lemma MoreItems(text: string, v: Value, more: string, vs: seq<Value>, rest: string)
    requires Decode(text) == Done(v, ", " + more)
    requires more != "" && !IsJsonSpace(more[0]) && DecodeItems(more) == Done(vs, rest)
    ensures DecodeItems(text) == Done([v] + vs, rest)
  {
    hide SkipWs;
    SpacedTail(", ", more);
  }

  lemma {:induction false} ItemsRoundTrip(items: seq<Value>, rest: string)
    requires items != [] && forall i :: 0 <= i < |items| ==> Printable(items[i])
    ensures DecodeItems(EncodeItems(items) + rest) == Done(items, rest)
    ensures var c := EncodeItems(items)[0]; !IsJsonSpace(c) && c != ']'
    decreases items
  {
    hide Decode, DecodeItems, Encode;
    var v, text := items[0], EncodeItems(items) + rest;
    EncodingStart(v);
    if |items| == 1 {
      RoundTrip(v, "]" + rest);
      assert text == Encode(v) + ("]" + rest);
      LastItem(text, v, rest);
      assert items == [v];
    } else {
      var more := EncodeItems(items[1..]) + rest;
      RoundTrip(v, ", " + more);
      ItemsRoundTrip(items[1..], rest);
      assert text == Encode(v) + (", " + more);
      MoreItems(text, v, more, items[1..], rest);
      assert items == [v] + items[1..];
    }
  }

  lemma QuotedStart(fields: seq<Field<Value>>)
    requires fields != []
    ensures EncodeFields(fields)[0] == '\"'
  {
  }

  lemma KeyRoundTrip(key: string, valueText: string)
    requires valueText != "" && !IsJsonSpace(valueText[0])
    ensures DecodeKey(EncodeString(key) + (": " + valueText)) == Done(key, valueText)
  {
    QuotedRoundTrip(key, ": " + valueText);
    SpacedTail(": ", valueText);
  }

  lemma LastField(text: string, f: Field<Value>, valueText: string, rest: string)
    requires DecodeKey(text) == Done(f.key, valueText) && Decode(valueText) == Done(f.value, "}" + rest)
    ensures DecodeFields(text) == Done([f], rest)
  {
    assert ("}" + rest)[1..] == rest;
  }

  lemma MoreFields(text: string, f: Field<Value>, valueText: string, more: string, fs: seq<Field<Value>>, rest: string)
    requires DecodeKey(text) == Done(f.key, valueText) && Decode(valueText) == Done(f.value, ", " + more)
    requires more != "" && !IsJsonSpace(more[0]) && DecodeFields(more) == Done(fs, rest)
    ensures DecodeFields(text) == Done([f] + fs, rest)
  {
    hide SkipWs;
    SpacedTail(", ", more);
  }

  lemma {:induction false} FieldsRoundTrip(fields: seq<Field<Value>>, rest: string)
    requires fields != [] && forall i :: 0 <= i < |fields| ==> Printable(fields[i].value)
    ensures DecodeFields(EncodeFields(fields) + rest) == Done(fields, rest)
    ensures EncodeFields(fields)[0] == '\"'
    decreases fields
  {
    hide Decode, DecodeFields, DecodeKey, Encode, EncodeString;
    var f, text := fields[0], EncodeFields(fields) + rest;
    EncodingStart(f.value);
    QuotedStart(fields);
    if |fields| == 1 {
      var valueText := Encode(f.value) + ("}" + rest);
      KeyRoundTrip(f.key, valueText);
      RoundTrip(f.value, "}" + rest);
      assert text == EncodeString(f.key) + (": " + valueText);
      LastField(text, f, valueText, rest);
      assert fields == [f];
    } else {
      var more := EncodeFields(fields[1..]) + rest;
      var valueText := Encode(f.value) + (", " + more);
      KeyRoundTrip(f.key, valueText);
      RoundTrip(f.value, ", " + more);
      FieldsRoundTrip(fields[1..], rest);
      assert more[0] == '\"';
      assert text == EncodeString(f.key) + (": " + valueText);
      MoreFields(text, f, valueText, more, fields[1..], rest);
      assert fields == [f] + fields[1..];
    }
  }

  /** `json.loads(json.dumps(v))` */
  lemma LoadsOfEncode(v: Value)
    requires Printable(v)
    ensures Loads(Encode(v)) == Done(v, "")
  {
    EncodingStart(v);
    RoundTrip(v, "");
    assert Encode(v) + "" == Encode(v);
  }
}
