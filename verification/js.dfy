/** JavaScript values as the ClickUp nodes handle them, and the language operations they
    apply to them: truthiness, `??`, optional property access, property assignment on a
    plain object, `String(v)` and `JSON.stringify(v)`. The built-ins the model does not
    define (`Number`, `Date.parse`, `JSON.parse`) are passed around as `Builtins`. */
module Js {
  import opened Wrappers
  import opened Text

  /** A JSON value. Numbers are finite integers; objects list their own properties in
      the order JavaScript enumerates them. */
  datatype Json =
    | Null
    | Bool(b: bool)
    | Num(n: int)
    | Str(s: string)
    | Arr(items: seq<Json>)
    | Obj(fields: seq<(string, Json)>)

  /** The own properties of a plain object, in insertion order. */
  type Fields = seq<(string, Json)>

  /** A value as an input channel or the HTTP transport hands it over: `None` is `undefined`. */
  type Value = Option<Json>

  /** JavaScript's `ToBoolean`: `undefined`, `null`, `false`, `0` and `""` are falsy, and
      every other value is truthy. */
  predicate Truthy(v: Value)
    ensures Truthy(v) <==> v !in {None, Some(Null), Some(Bool(false)), Some(Num(0)), Some(Str(""))}
  {
    match v
    case None => false
    case Some(j) =>
      match j
      case Null => false
      case Bool(b) => b
      case Num(n) => n != 0
      case Str(s) => s != ""
      case _ => true
  }

  /** `undefined` or `null`: what `??` and `?.` step over. */
  predicate Nullish(v: Value) {
    v.None? || v.value.Null?
  }

  /** `v ?? d`. */
  function Coalesce(v: Value, d: Json): Json {
    if Nullish(v) then d else v.value
  }

  /** `o[k]` on a plain object; `None` when it has no such property. */
  function Get(o: Fields, k: string): Option<Json> {
    if |o| == 0 then None else if o[0].0 == k then Some(o[0].1) else Get(o[1..], k)
  }

  /** A plain object a node builds to send: its properties by name. */
  type Object = map<string, Json>

  /** `o[k]` on an object a node builds; `undefined` when it has no such property. */
  function Field(o: Object, k: string): Value {
    if k in o then Some(o[k]) else None
  }

  /** `if (v !== undefined) o[k] = v`: the step by which every node adds an optional key. */
  function Include(o: Object, k: string, v: Value): (r: Object)
    ensures Field(r, k) == if v.Some? then v else Field(o, k)
    ensures forall k' | k' != k :: Field(r, k') == Field(o, k')
  {
    if v.Some? then o[k := v.value] else o
  }

  /** An object a node builds by setting its properties one after the other, each only
      when its value is defined: `Include` applied to the entries in order. */
  function Collect(entries: seq<(string, Value)>): Object
    decreases |entries|
  {
    if |entries| == 0 then map[]
    else
      var last := entries[|entries| - 1];
      Include(Collect(entries[..|entries| - 1]), last.0, last.1)
  }

  /** A key set by exactly one entry reads that entry's value: present when it is defined,
      absent when it is not. */
  lemma {:induction false} CollectField(entries: seq<(string, Value)>, i: nat)
    requires i < |entries|
    requires forall j | 0 <= j < |entries| && j != i :: entries[j].0 != entries[i].0
    ensures Field(Collect(entries), entries[i].0) == entries[i].1
    decreases |entries|
  {
    var prefix := entries[..|entries| - 1];
    if i < |entries| - 1 {
      assert forall j | 0 <= j < |prefix| && j != i :: prefix[j].0 != prefix[i].0 by {
        assert forall j | 0 <= j < |prefix| :: prefix[j] == entries[j];
      }
      CollectField(prefix, i);
      assert prefix[i] == entries[i];
    } else {
      assert forall j | 0 <= j < |prefix| :: prefix[j] == entries[j];
      CollectAbsent(prefix, entries[i].0);
    }
  }

  /** A key no entry names is not in the object. */
  lemma {:induction false} CollectAbsent(entries: seq<(string, Value)>, k: string)
    requires forall j | 0 <= j < |entries| :: entries[j].0 != k
    ensures Field(Collect(entries), k) == None
    decreases |entries|
  {
    if |entries| > 0 {
      var prefix := entries[..|entries| - 1];
      assert forall j | 0 <= j < |prefix| :: prefix[j] == entries[j];
      CollectAbsent(prefix, k);
    }
  }

  /** Objects that agree on every property are the same object. */
  lemma SameFields(a: Object, b: Object)
    requires forall k :: Field(a, k) == Field(b, k)
    ensures a == b
  {
    forall k ensures k in a <==> k in b {
      assert Field(a, k) == Field(b, k);
    }
    forall k | k in a ensures a[k] == b[k] {
      assert Field(a, k) == Field(b, k);
    }
  }

  /** `v?.k` for the property names the nodes probe: an own property of an object, and
      `undefined` on anything else. */
  function Member(v: Value, k: string): Value {
    if v.Some? && v.value.Obj? then Get(v.value.fields, k) else None
  }

  /** `v?.k1?.k2…`. */
  function Probe(v: Value, path: seq<string>): Value
    decreases |path|
  {
    if |path| == 0 then v else Probe(Member(v, path[0]), path[1..])
  }

  /** `v && typeof v === "object"`: an object or an array. */
  predicate IsObject(v: Value) {
    v.Some? && (v.value.Obj? || v.value.Arr?)
  }

  /** `String(v)`. An array joins its elements with commas, printing `null` as nothing. A
      string is kept as it is, and a number is printed in canonical decimal: a non-negative
      one is a digit run without a leading zero that reads back as that number, and a
      negative one is a minus sign before the canonical digits of its magnitude. */
  function ToStr(v: Json): (r: string)
    ensures v.Str? ==> r == v.s
    ensures v.Num? && v.n >= 0 ==> AllDigits(r) && DecimalValue(r) == v.n && (r[0] != '0' || r == "0")
    ensures v.Num? && v.n < 0 ==>
      |r| >= 2 && r[0] == '-' && AllDigits(r[1..]) && DecimalValue(r[1..]) == -v.n && r[1] != '0'
  {
    match v
    case Null => "null"
    case Bool(b) => if b then "true" else "false"
    case Num(n) =>
      assert n < 0 ==> IntToDecimal(n)[1..] == NatToDecimal(-n);
      IntToDecimal(n)
    case Str(s) => s
    case Arr(items) =>
      Join(seq(|items|, i requires 0 <= i < |items| => if items[i].Null? then "" else ToStr(items[i])), ',')
    case Obj(_) => "[object Object]"
  }

  /** A character of a JSON string literal (QuoteJSONString, section 25.5.2.3 of ECMA-262). */
  function EscapeChar(c: char): (r: string)
    ensures forall i | 0 <= i < |r| :: r[i] as int >= 0x20
  {
    if c == '"' then "\\\""
    else if c == '\\' then "\\\\"
    else if c as int == 0x08 then "\\b"
    else if c as int == 0x09 then "\\t"
    else if c as int == 0x0A then "\\n"
    else if c as int == 0x0C then "\\f"
    else if c as int == 0x0D then "\\r"
    else if c as int < 0x20 then "\\u00" + [LowerHex(c as int / 16), LowerHex(c as int % 16)]
    else [c]
  }

  function LowerHex(d: int): (c: char)
    requires 0 <= d < 16
    ensures c as int >= 0x20
  {
    if d < 10 then ('0' as int + d) as char else ('a' as int + d - 10) as char
  }

  /** The JSON string literal of `s`: quoted, with no raw control character inside. */
  function Quote(s: string): (r: string)
    ensures |r| >= 2 && r[0] == '"' && r[|r| - 1] == '"'
    ensures forall i | 0 <= i < |r| :: r[i] as int >= 0x20
  {
    "\"" + QuoteBody(s) + "\""
  }

  function QuoteBody(s: string): (r: string)
    ensures forall i | 0 <= i < |r| :: r[i] as int >= 0x20
  {
    if |s| == 0 then "" else EscapeChar(s[0]) + QuoteBody(s[1..])
  }

  /** No raw control character: a JSON text without indentation stays on one line. */
  predicate Printable(s: string) {
    forall i | 0 <= i < |s| :: s[i] as int >= 0x20
  }

  /** Joining printable pieces with a printable separator is printable. */
  lemma {:induction false} JoinPrintable(parts: seq<string>, sep: char)
    requires sep as int >= 0x20
    requires forall i | 0 <= i < |parts| :: Printable(parts[i])
    ensures Printable(Join(parts, sep))
  {
    if |parts| > 1 {
      assert forall i | 0 <= i < |parts| - 1 :: parts[1..][i] == parts[i + 1];
      JoinPrintable(parts[1..], sep);
      var a, b := parts[0] + [sep], Join(parts[1..], sep);
      assert forall i | 0 <= i < |a + b| :: (a + b)[i] == if i < |a| then a[i] else b[i - |a|];
    }
  }

  /** `JSON.stringify(v)`: printable text whose first character tells the kind of value,
      a string being its quoted literal and a number its decimal numeral. */
  function Stringify(v: Json): (r: string)
    ensures r != "" && Printable(r)
    ensures v.Str? <==> r[0] == '"'
    ensures v.Arr? <==> r[0] == '['
    ensures v.Obj? <==> r[0] == '{'
    ensures v.Str? ==> r == Quote(v.s)
    ensures v.Num? ==> r == IntToDecimal(v.n)
  {
    match v
    case Null => "null"
    case Bool(b) => if b then "true" else "false"
    case Num(n) =>
      DecimalPrintable(n);
      IntToDecimal(n)
    case Str(s) => Quote(s)
    case Arr(items) =>
      var parts := seq(|items|, i requires 0 <= i < |items| => Stringify(items[i]));
      JoinPrintable(parts, ',');
      Enclose('[', Join(parts, ','), ']')
    case Obj(fields) =>
      var parts := seq(|fields|, i requires 0 <= i < |fields| => Quote(fields[i].0) + ":" + Stringify(fields[i].1));
      assert forall i | 0 <= i < |parts| :: Printable(parts[i]) by {
        forall i | 0 <= i < |parts| ensures Printable(parts[i]) {
          PrintableConcat(Quote(fields[i].0), ":");
          PrintableConcat(Quote(fields[i].0) + ":", Stringify(fields[i].1));
        }
      }
      JoinPrintable(parts, ',');
      Enclose('{', Join(parts, ','), '}')
  }

  /** A concatenation of printable texts is printable. */
  lemma PrintableConcat(a: string, b: string)
    requires Printable(a) && Printable(b)
    ensures Printable(a + b)
  {
    assert forall i | 0 <= i < |a + b| :: (a + b)[i] == if i < |a| then a[i] else b[i - |a|];
  }

  /** `open + body + close`, printable when its parts are. */
  function Enclose(open: char, body: string, close: char): (r: string)
    requires open as int >= 0x20 && close as int >= 0x20 && Printable(body)
    ensures r != "" && r[0] == open && Printable(r)
  {
    PrintableConcat([open], body);
    PrintableConcat([open] + body, [close]);
    [open] + body + [close]
  }

  /** `String(n)` of an integer is printable, and starts with a digit or a minus sign. */
  lemma DecimalPrintable(n: int)
    ensures IntToDecimal(n) != "" && Printable(IntToDecimal(n))
    ensures IntToDecimal(n)[0] == '-' || IsDigit(IntToDecimal(n)[0])
  {
    var d := NatToDecimal(if n < 0 then -n else n);
    assert Printable(d);
    if n < 0 {
      PrintableConcat("-", d);
    }
  }

  /** The built-ins the model leaves abstract. `number(s)` is `Number(s)` and `dateParse(s)`
      is `Date.parse(s)`, each `None` when the result is not a finite number; `parseJson(s)`
      is `JSON.parse(s)`, `None` when it throws. */
  datatype Builtins = Builtins(
    number: string -> Option<int>,
    dateParse: string -> Option<int>,
    parseJson: string -> Option<Json>)

  /** `Number.MAX_SAFE_INTEGER`, 2^53 - 1: up to it every integer is a double exactly. */
  const MaxSafeInteger: int := 0x1F_FFFF_FFFF_FFFF

  /** What the model assumes of `Number(s)` where it needs to: a blank string is 0, and a
      run of decimal digits, white space around it allowed, is its decimal value when that
      value is a safe integer. Above it `Number` rounds to a double (or gives `Infinity`), and
      nothing is assumed. */
  ghost predicate Faithful(rt: Builtins) {
    && (forall s {:trigger NumberOf(rt, s)} :: Blank(s) ==> NumberOf(rt, s) == Some(0))
    && (forall s {:trigger NumberOf(rt, s)} ::
          AllDigits(Trim(s)) && DecimalValue(Trim(s)) <= MaxSafeInteger ==> NumberOf(rt, s) == Some(DecimalValue(Trim(s))))
  }

  /** `rt.number(s)`, named so that `Faithful` is used only where a proof asks for it. */
  ghost function NumberOf(rt: Builtins, s: string): Option<int> {
    rt.number(s)
  }

  /** `Number("")` and `Number("  ")` are 0. */
  lemma NumberOfBlank(rt: Builtins, s: string)
    requires Faithful(rt) && Blank(s)
    ensures rt.number(s) == Some(0)
  {
    assert NumberOf(rt, s) == Some(0);
  }

  /** `Number` reads a decimal digit run of a safe integer, white space around it allowed,
      as its value. */
  lemma NumberOfDigits(rt: Builtins, s: string)
    requires Faithful(rt) && AllDigits(Trim(s)) && DecimalValue(Trim(s)) <= MaxSafeInteger
    ensures rt.number(s) == Some(DecimalValue(Trim(s)))
  {
    assert NumberOf(rt, s) == Some(DecimalValue(Trim(s)));
  }

  /** Built-ins that know only blank strings and decimal digit runs. */
  function DecimalOnly(): Builtins {
    Builtins(
      s => if Blank(s) then Some(0) else if AllDigits(Trim(s)) then Some(DecimalValue(Trim(s))) else None,
      s => None,
      s => None)
  }

  /** `Faithful` can be met. */
  lemma DecimalOnlyIsFaithful()
    ensures Faithful(DecimalOnly())
  {
  }
}
