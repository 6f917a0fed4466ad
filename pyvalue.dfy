/** The Python values that flow through the workflow's dictionaries: the shapes
    `json.loads` produces (floats excepted), with Python's truthiness, `str()` and
    `repr()`, and dictionary lookup. `json.loads` itself is not modelled: it is an
    opaque partial function, a `Parser`, passed to whoever needs it. */
module PyValue {
  import opened Wrappers
  import Text

  datatype Value =
    | PNone
    | PBool(b: bool)
    | PInt(i: int)
    | PStr(s: string)
    | PList(items: seq<Value>)
    | PDict(entries: seq<Entry>)

  /** One key/value pair of a dict; JSON keys are strings. */
  datatype Entry = Entry(key: string, val: Value)

  /** `json.loads`: a value for the texts it accepts, None for those it rejects. */
  type Parser = string -> Option<Value>

  /** `bool(v)`. */
  predicate Truthy(v: Value) {
    match v
    case PNone => false
    case PBool(b) => b
    case PInt(i) => i != 0
    case PStr(s) => s != ""
    case PList(xs) => xs != []
    case PDict(es) => es != []
  }

  /** `key in d` for a dict `d`. */
  predicate HasKey(es: seq<Entry>, key: string) {
    exists k :: 0 <= k < |es| && es[k].key == key
  }

  /** `d.get(key)`: the value of the first entry with that key (a Python dict has one). */
  function Get(es: seq<Entry>, key: string): (r: Option<Value>)
    ensures r.Some? <==> HasKey(es, key)
    ensures r.Some? ==> exists k :: 0 <= k < |es| && es[k] == Entry(key, r.value)
  {
    if |es| == 0 then None
    else if es[0].key == key then Some(es[0].val)
    else
      var r := Get(es[1..], key);
      assert forall k :: 0 < k < |es| ==> es[k] == es[1..][k - 1];
      r
  }

  /** `d.get(key, default)`. */
  function GetOr(es: seq<Entry>, key: string, default: Value): Value {
    Get(es, key).GetOr(default)
  }

  /** The decimal digits of a natural number. */
  function NatToString(n: nat): (r: string)
    ensures |r| >= 1 && forall k :: 0 <= k < |r| ==> Text.IsDigit(r[k])
    decreases n
  {
    var d := ['0' + (n % 10) as char];
    if n < 10 then d else NatToString(n / 10) + d
  }

  /** `repr()` of a Python value. String quoting is simplified: a string is shown
      between single quotes without escaping. */
  function Repr(v: Value): string
    decreases v, 1
  {
    match v
    case PNone => "None"
    case PBool(b) => if b then "True" else "False"
    case PInt(i) => if i < 0 then "-" + NatToString(-i) else NatToString(i)
    case PStr(s) => Quote(s)
    case PList(xs) => "[" + ReprItems(v, 0) + "]"
    case PDict(es) => "{" + ReprEntries(v, 0) + "}"
  }

  /** The `repr()` of a string, simplified: no escaping, always single quotes. */
  function Quote(s: string): string {
    "'" + s + "'"
  }

  /** The comma-separated `repr()`s of the list items of `v` from index `i` on. */
  function ReprItems(v: Value, i: nat): string
    requires v.PList? && i <= |v.items|
    decreases v, 0, |v.items| - i
  {
    if i == |v.items| then ""
    else
      var head := Repr(v.items[i]);
      if i + 1 == |v.items| then head else head + ", " + ReprItems(v, i + 1)
  }

  /** The comma-separated `key: value` pairs of the dict `v` from index `i` on. */
  function ReprEntries(v: Value, i: nat): string
    requires v.PDict? && i <= |v.entries|
    decreases v, 0, |v.entries| - i
  {
    if i == |v.entries| then ""
    else
      var e := v.entries[i];
      assert e in v.entries && e.val < e;
      var head := Quote(e.key) + ": " + Repr(e.val);
      if i + 1 == |v.entries| then head else head + ", " + ReprEntries(v, i + 1)
  }

  /** `str()` of a Python value: a string is itself, anything else its `repr()`. */
  function Str(v: Value): (r: string)
    ensures v.PStr? ==> r == v.s
    ensures v == PNone ==> r == "None"
  {
    if v.PStr? then v.s else Repr(v)
  }

  /** An f-string placeholder `{x}` for an optional string field: None shows as "None". */
  function Show(x: Option<string>): (r: string)
    ensures x.Some? ==> r == x.value
    ensures x.None? ==> r == "None"
  {
    match x
    case Some(s) => s
    case None => "None"
  }

  /** `json.loads(text)` where `text` is a '['...']' span: a JSON text that starts with
      '[' can only decode to a list, so any other answer counts as a decode error. */
  function LoadsList(parse: Parser, text: string): (r: Option<seq<Value>>)
    ensures r.Some? <==> parse(text).Some? && parse(text).value.PList?
    ensures r.Some? ==> r.value == parse(text).value.items
  {
    match parse(text)
    case Some(PList(xs)) => Some(xs)
    case _ => None
  }

  /** `json.loads(text)` where `text` is a '{'...'}' span: only a dict is a decoding. */
  function LoadsDict(parse: Parser, text: string): (r: Option<Value>)
    ensures r.Some? <==> parse(text).Some? && parse(text).value.PDict?
    ensures r.Some? ==> r.value == parse(text).value
  {
    match parse(text)
    case Some(PDict(es)) => Some(PDict(es))
    case _ => None
  }
}
