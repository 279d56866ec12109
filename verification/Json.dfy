/** JSON values as Python holds them, and the two halves of the json module that the
    project configuration relies on: `json.dumps(..., ensure_ascii=False)` with the
    separators ", " and ": ", and `json.loads`. Strings follow section 7 of RFC 8259. */
module Json {

  /** One entry of a Python dict, which keeps the order in which keys were first set. */
  datatype Field<+V> = Field(key: string, value: V)

  /** A float is kept as its literal: rounding plays no part here. */
  datatype Value =
    | Null
    | Bool(b: bool)
    | Int(n: int)
    | Float(literal: string)
    | Str(s: string)
    | List(items: seq<Value>)
    | Obj(fields: seq<Field<Value>>)

  /** `Done` carries what was read and the text that is left. */
  datatype Parsed<+T> = Done(value: T, rest: string) | Fail

  // ----- dictionaries -----

  ghost predicate HasKey<V>(fields: seq<Field<V>>, key: string) {
    exists i :: 0 <= i < |fields| && fields[i].key == key
  }

  ghost predicate UniqueKeys<V>(fields: seq<Field<V>>) {
    forall i, j :: 0 <= i < j < |fields| ==> fields[i].key != fields[j].key
  }

  /** `d[key] = value`: an existing key keeps its position, a new one goes to the end. */
  function Put<V>(fields: seq<Field<V>>, key: string, value: V): (r: seq<Field<V>>) {
    if fields == [] then [Field(key, value)]
    else if fields[0].key == key then [Field(key, value)] + fields[1..]
    else [fields[0]] + Put(fields[1..], key, value)
  }

  /** `dict(pairs)`, the later of two equal keys winning. */
  function ToDict(pairs: seq<Field<Value>>): seq<Field<Value>> {
    if pairs == [] then []
    else
      var last := pairs[|pairs| - 1];
      Put(ToDict(pairs[..|pairs| - 1]), last.key, last.value)
  }

  lemma {:induction false} PutNewKey<V>(fields: seq<Field<V>>, key: string, value: V)
    requires !HasKey(fields, key)
    ensures Put(fields, key, value) == fields + [Field(key, value)]
  {
    if fields != [] {
      assert fields[0].key != key;
      assert forall i :: 0 <= i < |fields[1..]| ==> fields[1..][i] == fields[i + 1];
      PutNewKey(fields[1..], key, value);
    }
  }

  lemma {:induction false} PutTwice(fields: seq<Field<Value>>, key: string, a: Value, b: Value)
    ensures Put(Put(fields, key, a), key, b) == Put(fields, key, b)
  {
    if fields != [] && fields[0].key != key {
      PutTwice(fields[1..], key, a, b);
      assert Put(fields, key, a)[1..] == Put(fields[1..], key, a);
    }
  }

  lemma {:induction false} UniquePairsAreADict(pairs: seq<Field<Value>>)
    requires UniqueKeys(pairs)
    ensures ToDict(pairs) == pairs
  {
    if pairs != [] {
      var init, last := pairs[..|pairs| - 1], pairs[|pairs| - 1];
      UniquePairsAreADict(init);
      PutNewKey(init, last.key, last.value);
    }
  }

  // ----- digits -----

  predicate IsDigit(c: char) { '0' <= c <= '9' }

  function Digits(n: nat): (r: string)
    ensures r != "" && forall i :: 0 <= i < |r| ==> IsDigit(r[i])
    ensures r[0] == '0' ==> n == 0 && r == "0"
  {
    if n < 10 then [('0' as int + n) as char]
    else Digits(n / 10) + [('0' as int + n % 10) as char]
  }

  /** `str(n)` */
  function IntText(n: int): string {
    if n < 0 then "-" + Digits(-n) else Digits(n)
  }

  function DigitRun(s: string): (k: nat)
    ensures k <= |s| && forall i :: 0 <= i < k ==> IsDigit(s[i])
    ensures k < |s| ==> !IsDigit(s[k])
  {
    if s == "" || !IsDigit(s[0]) then 0 else 1 + DigitRun(s[1..])
  }

  /** `int(s)` for ASCII digits */
  function ToNat(s: string): nat
    requires forall i :: 0 <= i < |s| ==> IsDigit(s[i])
  {
    if s == "" then 0
    else
      assert IsDigit(s[|s| - 1]);
      10 * ToNat(s[..|s| - 1]) + (s[|s| - 1] as int - '0' as int)
  }

  lemma {:induction false} ToNatOfDigits(n: nat)
    ensures ToNat(Digits(n)) == n
  {
    if n >= 10 {
      ToNatOfDigits(n / 10);
      assert Digits(n)[..|Digits(n)| - 1] == Digits(n / 10);
    } else {
      assert Digits(n)[..0] == "";
    }
  }

  lemma DigitRunIsThePrefix(d: string, rest: string)
    requires forall i :: 0 <= i < |d| ==> IsDigit(d[i])
    requires rest == "" || !IsDigit(rest[0])
    ensures DigitRun(d + rest) == |d|
  {
    var s, k := d + rest, DigitRun(d + rest);
    assert k < |s| ==> !IsDigit(s[k]);
    assert rest != "" ==> s[|d|] == rest[0];
  }

  // ----- printing -----

  function HexDigit(n: nat): char
    requires n < 16
  {
    "0123456789abcdef"[n]
  }

  function EncodeChar(c: char): string {
    if c == '\"' then "\\\""
    else if c == '\\' then "\\\\"
    else if c == '\n' then "\\n"
    else if c == '\r' then "\\r"
    else if c == '\t' then "\\t"
    else if c as int == 12 then "\\f"
    else if c as int == 8 then "\\b"
    else if c < ' ' then "\\u00" + [HexDigit(c as int / 16), HexDigit(c as int % 16)]
    else [c]
  }

  function EncodeChars(s: string): string {
    if s == "" then "" else EncodeChar(s[0]) + EncodeChars(s[1..])
  }

  function EncodeString(s: string): string { "\"" + EncodeChars(s) + "\"" }

  /** `json.dumps(v, ensure_ascii=False, separators=(", ", ": "))` */
  function Encode(v: Value): string
    decreases v
  {
    match v
    case Null => "null"
    case Bool(b) => if b then "true" else "false"
    case Int(n) => IntText(n)
    case Float(literal) => literal
    case Str(s) => EncodeString(s)
    case List(items) => if items == [] then "[]" else "[" + EncodeItems(items)
    case Obj(fields) => if fields == [] then "{}" else "{" + EncodeFields(fields)
  }

  /** The items with the closing bracket. */
  function EncodeItems(items: seq<Value>): (r: string)
    requires items != []
    ensures r != "" && r[|r| - 1] == ']'
    decreases items
  {
    Encode(items[0]) + (if |items| == 1 then "]" else ", " + EncodeItems(items[1..]))
  }

  function EncodeFields(fields: seq<Field<Value>>): (r: string)
    requires fields != []
    ensures r != "" && r[|r| - 1] == '}'
    decreases fields
  {
    EncodeString(fields[0].key) + ": " + Encode(fields[0].value) +
    (if |fields| == 1 then "}" else ", " + EncodeFields(fields[1..]))
  }

  // ----- parsing -----

  predicate IsJsonSpace(c: char) { c == ' ' || c == '\t' || c == '\n' || c == '\r' }

  function SkipWs(s: string): (r: string)
    ensures |r| <= |s|
    ensures s == "" || !IsJsonSpace(s[0]) ==> r == s
  {
    if s != "" && IsJsonSpace(s[0]) then SkipWs(s[1..]) else s
  }

  function HexValue(c: char): (n: int)
    ensures -1 <= n < 16
  {
    if '0' <= c <= '9' then c as int - '0' as int
    else if 'a' <= c <= 'f' then c as int - 'a' as int + 10
    else if 'A' <= c <= 'F' then c as int - 'A' as int + 10
    else -1
  }

  /** The code unit of the four hexadecimal digits at the start of s, or -1. */
  function CodeUnit(s: string): (n: int)
    ensures -1 <= n < 0x10000
  {
    if |s| < 4 || HexValue(s[0]) < 0 || HexValue(s[1]) < 0 || HexValue(s[2]) < 0 || HexValue(s[3]) < 0
    then -1
    else ((HexValue(s[0]) * 16 + HexValue(s[1])) * 16 + HexValue(s[2])) * 16 + HexValue(s[3])
  }

  /** One escape, s starting after the backslash. A lone surrogate is no Dafny character
      and fails here. */
  function DecodeEscape(s: string): (r: Parsed<char>)
    ensures r.Done? ==> |r.rest| < |s|
  {
    if s == "" then Fail
    else if s[0] == '\"' || s[0] == '\\' || s[0] == '/' then Done(s[0], s[1..])
    else if s[0] == 'b' then Done(8 as char, s[1..])
    else if s[0] == 'f' then Done(12 as char, s[1..])
    else if s[0] == 'n' then Done('\n', s[1..])
    else if s[0] == 'r' then Done('\r', s[1..])
    else if s[0] == 't' then Done('\t', s[1..])
    else if s[0] == 'u' then
      var high := CodeUnit(s[1..]);
      if high < 0 then Fail
      else if high < 0xD800 || 0xE000 <= high then Done(high as char, s[5..])
      else if high < 0xDC00 && |s| >= 7 && s[5] == '\\' && s[6] == 'u' then
        var low := CodeUnit(s[7..]);
        if 0xDC00 <= low < 0xE000
        then Done((0x10000 + (high - 0xD800) * 0x400 + (low - 0xDC00)) as char, s[11..])
        else Fail
      else Fail
    else Fail
  }

  /** A string, s starting after the opening quote. Raw control characters are refused. */
  function DecodeString(s: string): (r: Parsed<string>)
    ensures r.Done? ==> |r.rest| < |s|
    decreases |s|
  {
    if s == "" then Fail
    else if s[0] == '\"' then Done("", s[1..])
    else if s[0] == '\\' then
      match DecodeEscape(s[1..])
      case Fail => Fail
      case Done(c, rest) =>
        (match DecodeString(rest)
         case Fail => Fail
         case Done(t, rest') => Done([c] + t, rest'))
    else if s[0] < ' ' then Fail
    else
      match DecodeString(s[1..])
      case Fail => Fail
      case Done(t, rest) => Done([s[0]] + t, rest)
  }

  function FractionLength(s: string): (k: nat)
    ensures k <= |s|
  {
    if |s| >= 2 && s[0] == '.' && IsDigit(s[1]) then 1 + DigitRun(s[1..]) else 0
  }

  function ExponentLength(s: string): (k: nat)
    ensures k <= |s|
  {
    if s == "" || (s[0] != 'e' && s[0] != 'E') then 0
    else
      var sign := if |s| >= 2 && (s[1] == '+' || s[1] == '-') then 1 else 0;
      var digits := DigitRun(s[1 + sign..]);
      if digits == 0 then 0 else 1 + sign + digits
  }

  /** The unsigned part of a number, `(0|[1-9][0-9]*)` with an optional fraction and
      exponent; only without these it is an integer. */
  function DecodeUnsigned(sign: string, s: string): (r: Parsed<Value>)
    ensures r.Done? ==> |r.rest| < |s|
  {
    var run := DigitRun(s);
    if run == 0 then Fail
    else
      var whole := if s[0] == '0' then 1 else run;
      var fraction := FractionLength(s[whole..]);
      var exponent := ExponentLength(s[whole + fraction..]);
      var end := whole + fraction + exponent;
      if fraction + exponent > 0 then Done(Float(sign + s[..end]), s[end..])
      else Done(Int(if sign == "-" then 0 - ToNat(s[..whole]) else ToNat(s[..whole])), s[whole..])
  }

  function DecodeNumber(s: string): (r: Parsed<Value>)
    ensures r.Done? ==> |r.rest| < |s|
  {
    if s != "" && s[0] == '-' then DecodeUnsigned("-", s[1..]) else DecodeUnsigned("", s)
  }

  predicate StartsWith(s: string, prefix: string) {
    |s| >= |prefix| && s[..|prefix|] == prefix
  }

  /** The constants. */
  function DecodeWord(s: string): (r: Parsed<Value>)
    ensures r.Done? ==> |r.rest| < |s|
  {
    if StartsWith(s, "null") then Done(Null, s[4..])
    else if StartsWith(s, "true") then Done(Bool(true), s[4..])
    else if StartsWith(s, "false") then Done(Bool(false), s[5..])
    else if StartsWith(s, "NaN") then Done(Float("NaN"), s[3..])
    else if StartsWith(s, "Infinity") then Done(Float("Infinity"), s[8..])
    else if StartsWith(s, "-Infinity") then Done(Float("-Infinity"), s[9..])
    else Fail
  }

  function Decode(s: string): (r: Parsed<Value>)
    ensures r.Done? ==> |r.rest| < |s|
    decreases |s|, 1
  {
    if s == "" then Fail
    else if s[0] == '\"' then
      match DecodeString(s[1..])
      case Fail => Fail
      case Done(t, rest) => Done(Str(t), rest)
    else if s[0] == '{' then DecodeObject(SkipWs(s[1..]))
    else if s[0] == '[' then DecodeArray(SkipWs(s[1..]))
    else if IsDigit(s[0]) || (s[0] == '-' && (|s| == 1 || s[1] != 'I')) then DecodeNumber(s)
    else DecodeWord(s)
  }

  function DecodeArray(s: string): (r: Parsed<Value>)
    ensures r.Done? ==> |r.rest| < |s|
    decreases |s|, 3
  {
    if s != "" && s[0] == ']' then Done(List([]), s[1..])
    else
      match DecodeItems(s)
      case Fail => Fail
      case Done(items, rest) => Done(List(items), rest)
  }

  function DecodeObject(s: string): (r: Parsed<Value>)
    ensures r.Done? ==> |r.rest| < |s|
    decreases |s|, 3
  {
    if s != "" && s[0] == '}' then Done(Obj([]), s[1..])
    else
      match DecodeFields(s)
      case Fail => Fail
      case Done(pairs, rest) => Done(Obj(ToDict(pairs)), rest)
  }

  /** The items of a non-empty array and its closing bracket. */
  function DecodeItems(s: string): (r: Parsed<seq<Value>>)
    ensures r.Done? ==> |r.rest| < |s|
    decreases |s|, 2
  {
    match Decode(s)
    case Fail => Fail
    case Done(v, rest) =>
      var t := SkipWs(rest);
      if t != "" && t[0] == ']' then Done([v], t[1..])
      else if t != "" && t[0] == ',' then
        match DecodeItems(SkipWs(t[1..]))
        case Fail => Fail
        case Done(vs, rest') => Done([v] + vs, rest')
      else Fail
  }

  /** The key of one member up to the value that follows the colon. */
  function DecodeKey(s: string): (r: Parsed<string>)
    ensures r.Done? ==> |r.rest| < |s|
  {
    if s == "" || s[0] != '\"' then Fail
    else
      match DecodeString(s[1..])
      case Fail => Fail
      case Done(key, rest) =>
        var t := SkipWs(rest);
        if t == "" || t[0] != ':' then Fail else Done(key, SkipWs(t[1..]))
  }

  function DecodeFields(s: string): (r: Parsed<seq<Field<Value>>>)
    ensures r.Done? ==> |r.rest| < |s|
    decreases |s|, 2
  {
    match DecodeKey(s)
    case Fail => Fail
    case Done(key, valueText) =>
      match Decode(valueText)
      case Fail => Fail
      case Done(v, rest) =>
        var t := SkipWs(rest);
        if t != "" && t[0] == '}' then Done([Field(key, v)], t[1..])
        else if t != "" && t[0] == ',' then
          match DecodeFields(SkipWs(t[1..]))
          case Fail => Fail
          case Done(more, rest') => Done([Field(key, v)] + more, rest')
        else Fail
  }

  /** `json.loads(text)`: nothing but white space may follow the value. */
  function Loads(text: string): (r: Parsed<Value>) {
    match Decode(SkipWs(text))
    case Fail => Fail
    case Done(v, rest) => if SkipWs(rest) == "" then Done(v, "") else Fail
  }
}
