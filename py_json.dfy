/** Decoded JSON values as the Python code sees them after `json.loads`,
    together with the few pieces of Python semantics the dispatchers rely on:
    `dict.get`, the AttributeError raised when `.get` is called on a
    non-dict, truthiness (`x or {}`) and `str()` / `repr()` (used by the
    f-strings that build error messages). */
module PyJson {
  import opened Wrappers

  /** A JSON value. Objects keep their keys in insertion order, as Python
      dicts do; JSON numbers with a fraction or exponent are not modelled.
      An object `json.loads` produces never repeats a key (a repeated key
      keeps its last value), so `Lookup` taking the first entry under a key
      only differs from Python on objects no decoded dict can be. */
  datatype Json =
    | JNull
    | JBool(b: bool)
    | JInt(i: int)
    | JString(s: string)
    | JArray(items: seq<Json>)
    | JObject(fields: seq<(string, Json)>)

  /** The keys of a dict, in order. */
  function Keys(fields: seq<(string, Json)>): (ks: seq<string>)
    ensures |ks| == |fields|
    ensures forall i :: 0 <= i < |fields| ==> ks[i] == fields[i].0
  {
    seq(|fields|, i requires 0 <= i < |fields| => fields[i].0)
  }

  /** Dict lookup: the value stored under `key`, if any. */
  function Lookup(fields: seq<(string, Json)>, key: string): (r: Option<Json>)
    ensures r.None? <==> key !in Keys(fields)
    ensures r.Some? ==> (key, r.value) in fields
  {
    LookupFrom(fields, key, 0)
  }

  /** The first entry stored under `key` at or after position `start`. */
  function LookupFrom(fields: seq<(string, Json)>, key: string, start: nat): (r: Option<Json>)
    requires start <= |fields|
    ensures r.None? <==> forall i :: start <= i < |fields| ==> fields[i].0 != key
    ensures r.Some? ==> (key, r.value) in fields
    decreases |fields| - start
  {
    if start == |fields| then None
    else if fields[start].0 == key then Some(fields[start].1)
    else LookupFrom(fields, key, start + 1)
  }

  /** The entry at position `i` is the one a lookup of its key finds when no
      earlier entry has that key. */
  lemma LookupFound(fields: seq<(string, Json)>, i: nat)
    requires i < |fields|
    requires forall j :: 0 <= j < i ==> fields[j].0 != fields[i].0
    ensures Lookup(fields, fields[i].0) == Some(fields[i].1)
  {
    LookupFromFound(fields, 0, i);
  }

  lemma {:induction false} LookupFromFound(fields: seq<(string, Json)>, start: nat, i: nat)
    requires start <= i < |fields|
    requires forall j :: start <= j < i ==> fields[j].0 != fields[i].0
    ensures LookupFrom(fields, fields[i].0, start) == Some(fields[i].1)
    decreases i - start
  {
    if start < i {
      LookupFromFound(fields, start + 1, i);
    }
  }

  /** The dict literal `{k0: v0, k1: v1, k2: v2}` with three distinct keys. */
  function Dict3(k0: string, v0: Json, k1: string, v1: Json, k2: string, v2: Json): (d: Json)
    requires k0 != k1 && k0 != k2 && k1 != k2
    ensures d.JObject? && Keys(d.fields) == [k0, k1, k2]
    ensures Lookup(d.fields, k0) == Some(v0)
    ensures Lookup(d.fields, k1) == Some(v1)
    ensures Lookup(d.fields, k2) == Some(v2)
  {
    var fields := [(k0, v0), (k1, v1), (k2, v2)];
    assert Keys(fields) == [k0, k1, k2];
    LookupFound(fields, 1);
    LookupFound(fields, 2);
    JObject(fields)
  }

  /** Python `d.get(key, default)` on a dict `d`. */
  function DictGet(fields: seq<(string, Json)>, key: string, default: Json): (r: Json)
    ensures key !in Keys(fields) ==> r == default
    ensures key in Keys(fields) ==> (key, r) in fields
  {
    match Lookup(fields, key)
    case Some(v) => v
    case None => default
  }

  /** The name Python's `type(v).__name__` gives for the decoded value. */
  function TypeName(v: Json): (name: string)
    ensures name == "dict" <==> v.JObject?
    ensures name == "NoneType" <==> v.JNull?
  {
    match v
    case JNull => "NoneType"
    case JBool(_) => "bool"
    case JInt(_) => "int"
    case JString(_) => "str"
    case JArray(_) => "list"
    case JObject(_) => "dict"
  }

  /** The text of the AttributeError raised by `v.<attribute>` when `v` has no such attribute. */
  function NoAttribute(v: Json, attribute: string): (m: string)
    ensures |m| == |TypeName(v)| + |attribute| + 29
    ensures m[1..|TypeName(v)| + 1] == TypeName(v)
    ensures m[|m| - |attribute| - 1..|m| - 1] == attribute
  {
    var m := "'" + TypeName(v) + "' object has no attribute '" + attribute + "'";
    assert m[1..|TypeName(v)| + 1] == TypeName(v);
    assert m[|m| - |attribute| - 1..|m| - 1] == attribute;
    m
  }

  /** The AttributeError text tells apart exactly the values of different types. */
  lemma NoAttributeNamesType(v: Json, w: Json, attribute: string)
    ensures NoAttribute(v, attribute) == NoAttribute(w, attribute) <==> TypeName(v) == TypeName(w)
  {
    if NoAttribute(v, attribute) == NoAttribute(w, attribute) {
      assert |TypeName(v)| == |TypeName(w)|;
    }
  }

  /** Python `v.get(key, default)` on a value of unknown type: only a dict has
      `get`; on anything else the call raises AttributeError. */
  function Get(v: Json, key: string, default: Json): (r: Result<Json>)
    ensures r.Success? <==> v.JObject?
    ensures r.Success? && key !in Keys(v.fields) ==> r.value == default
    ensures r.Success? && key in Keys(v.fields) ==> (key, r.value) in v.fields
    ensures r.Failure? ==> r.message == NoAttribute(v, "get")
  {
    match v
    case JObject(fields) => Success(DictGet(fields, key, default))
    case _ => Failure(NoAttribute(v, "get"))
  }

  /** Python truthiness of a decoded value. */
  predicate Truthy(v: Json) {
    match v
    case JNull => false
    case JBool(b) => b
    case JInt(i) => i != 0
    case JString(s) => s != ""
    case JArray(items) => items != []
    case JObject(fields) => fields != []
  }

  /** Python `a or b`. */
  function Or(a: Json, b: Json): (r: Json)
    ensures Truthy(a) ==> r == a
    ensures !Truthy(a) ==> r == b
  {
    if Truthy(a) then a else b
  }

  // ---------------------------------------------------------------------
  // Decimal rendering of integers (Python `str(int)`)

  function DigitChar(d: nat): (c: char)
    requires d < 10
    ensures '0' <= c <= '9'
    ensures DigitValue(c) == d
  {
    (('0' as int) + d) as char
  }

  function DigitValue(c: char): (d: nat)
    requires '0' <= c <= '9'
    ensures d < 10
  {
    (c as int) - ('0' as int)
  }

  predicate AllDigits(s: string) {
    forall i :: 0 <= i < |s| ==> '0' <= s[i] <= '9'
  }

  /** The decimal digits of `n`, most significant first, without leading zeros. */
  function NatToString(n: nat): (s: string)
    ensures |s| >= 1 && AllDigits(s)
    ensures s[0] == '0' ==> n == 0 && |s| == 1
    decreases n
  {
    if n < 10 then [DigitChar(n)] else NatToString(n / 10) + [DigitChar(n % 10)]
  }

  /** The number a string of decimal digits denotes (the reading side of `int(s)`). */
  function DigitsValue(s: string): nat
    requires AllDigits(s)
  {
    if s == [] then 0 else DigitsValue(s[..|s| - 1]) * 10 + DigitValue(s[|s| - 1])
  }

  lemma {:induction false} NatToStringRoundTrip(n: nat)
    ensures DigitsValue(NatToString(n)) == n
    decreases n
  {
    if n >= 10 {
      var prefix := NatToString(n / 10);
      var s := prefix + [DigitChar(n % 10)];
      assert s[..|s| - 1] == prefix;
      NatToStringRoundTrip(n / 10);
    }
  }

  /** Python `str(i)` for an int: an optional minus sign, then the digits. */
  function IntToString(i: int): (s: string)
    ensures |s| >= 1
    ensures i >= 0 ==> AllDigits(s)
    ensures i < 0 ==> s[0] == '-' && AllDigits(s[1..])
    ensures IntText(s)
  {
    if i < 0 then "-" + NatToString(-i) else NatToString(i)
  }

  /** An optional minus sign followed by at least one decimal digit. */
  predicate IntText(s: string) {
    |s| >= 1 && if s[0] == '-' then AllDigits(s[1..]) else AllDigits(s)
  }

  /** Reading back a rendered int: the partner of `IntToString`. */
  function ParseInt(s: string): int
    requires IntText(s)
  {
    if s[0] == '-' then -(DigitsValue(s[1..]) as int) else DigitsValue(s)
  }

  lemma IntToStringRoundTrip(i: int)
    ensures ParseInt(IntToString(i)) == i
  {
    if i < 0 {
      NegativeRoundTrip(i);
    } else {
      NatToStringRoundTrip(i);
    }
  }

  lemma NegativeRoundTrip(i: int)
    requires i < 0
    ensures ParseInt(IntToString(i)) == i
  {
    assert IntToString(i) == "-" + NatToString(-i);
    NatToStringRoundTrip(-i);
    MinusDigits(-i, NatToString(-i));
  }

  lemma MinusDigits(n: nat, digits: string)
    requires |digits| >= 1 && AllDigits(digits) && DigitsValue(digits) == n
    ensures ParseInt("-" + digits) == -(n as int)
  {
    var s := "-" + digits;
    assert s[0] == '-' && s[1..] == digits;
  }

  // ---------------------------------------------------------------------
  // Python `repr(str)`: quoting and escaping

  function HexDigit(d: nat): char
    requires d < 16
  {
    "0123456789abcdef"[d]
  }

  /** A control character that `repr` writes as a `\xhh` escape: the C0
      controls other than tab, newline and carriage return, DEL, and the C1
      controls. */
  predicate IsHexEscaped(c: char) {
    (c < ' ' && c != '\t' && c != '\n' && c != '\r') || (0x7f <= c as int <= 0x9f)
  }

  /** How `repr` writes one character inside a string quoted with `quote`. */
  function EscapeChar(c: char, quote: char): (r: string)
    ensures |r| >= 1
  {
    if c == quote || c == '\\' then ['\\', c]
    else if c == '\t' then "\\t"
    else if c == '\n' then "\\n"
    else if c == '\r' then "\\r"
    else if IsHexEscaped(c) then
      "\\x" + [HexDigit((c as int) / 16), HexDigit((c as int) % 16)]
    else [c]
  }

  function Escape(s: string, quote: char): (r: string)
    ensures |r| >= |s|
  {
    if s == [] then [] else EscapeChar(s[0], quote) + Escape(s[1..], quote)
  }

  /** The quote `repr` chooses: single, unless the text holds a single quote and no double quote. */
  function QuoteFor(s: string): (q: char)
    ensures q == '\'' || q == '"'
  {
    if '\'' in s && '"' !in s then '"' else '\''
  }

  function StrRepr(s: string): (r: string)
    ensures |r| >= |s| + 2
    ensures r[0] == r[|r| - 1] == QuoteFor(s)
  {
    [QuoteFor(s)] + Escape(s, QuoteFor(s)) + [QuoteFor(s)]
  }

  /** Text that `repr` leaves unchanged between its quotes. */
  predicate PlainText(s: string) {
    forall i :: 0 <= i < |s| ==>
      && s[i] != '\'' && s[i] != '\\' && !IsHexEscaped(s[i])
      && s[i] != '\t' && s[i] != '\n' && s[i] != '\r'
  }

  lemma {:induction false} EscapePlainText(s: string, quote: char)
    requires PlainText(s)
    requires quote !in s
    ensures Escape(s, quote) == s
  {
    if s != [] {
      assert PlainText(s[1..]);
      EscapePlainText(s[1..], quote);
    }
  }

  lemma PlainTextRepr(s: string)
    requires PlainText(s)
    ensures StrRepr(s) == "'" + s + "'"
  {
    EscapePlainText(s, '\'');
  }

  function JoinWith(separator: string, parts: seq<string>): string {
    if parts == [] then ""
    else if |parts| == 1 then parts[0]
    else parts[0] + separator + JoinWith(separator, parts[1..])
  }

  /** Python `repr()` of a decoded value. */
  function Repr(v: Json): (r: string)
    ensures |r| >= 1
    ensures v.JInt? ==> IntText(r) && ParseInt(r) == v.i
    ensures v.JString? ==> |r| >= |v.s| + 2 && r[0] == r[|r| - 1] == QuoteFor(v.s)
    ensures v.JArray? ==> r[0] == '[' && r[|r| - 1] == ']'
    ensures v.JObject? ==> r[0] == '{' && r[|r| - 1] == '}'
    decreases v
  {
    match v
    case JNull => "None"
    case JBool(b) => if b then "True" else "False"
    case JInt(i) => IntToStringRoundTrip(i); IntToString(i)
    case JString(s) => StrRepr(s)
    case JArray(items) =>
      "[" + JoinWith(", ", seq(|items|, k requires 0 <= k < |items| => Repr(items[k]))) + "]"
    case JObject(fields) =>
      "{" + JoinWith(", ", seq(|fields|, k requires 0 <= k < |fields| =>
        assert fields[k] in fields;
        StrRepr(fields[k].0) + ": " + Repr(fields[k].1))) + "}"
  }

  /** Python `str()` of a decoded value, which is what an f-string inserts:
      a string stands for itself, anything else is written as by `repr`. */
  function Str(v: Json): (r: string)
    ensures v.JString? ==> r == v.s
    ensures v.JNull? ==> r == "None"
    ensures !v.JString? ==> |r| >= 1
    ensures v.JInt? ==> IntText(r) && ParseInt(r) == v.i
    ensures v.JArray? ==> r[0] == '[' && r[|r| - 1] == ']'
    ensures v.JObject? ==> r[0] == '{' && r[|r| - 1] == '}'
  {
    if v.JString? then v.s else Repr(v)
  }
}
