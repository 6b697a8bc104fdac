/** Values that travel in a tool's result dictionary, and the uniform
    `{"success": ..., "error": ...}` result envelope every tool returns.
    Also the few pieces of Python text formatting the tools rely on
    (`str` of an int, `str` of a list of names, `", ".join`). */
module Envelopes {

  datatype Option<+T> = None | Some(value: T) {
    /** The value, or `default` when the argument was omitted. */
    function GetOr(default: T): T {
      if Some? then value else default
    }
  }

  /** A value as Python builds it in a result: None, bool, int, float (taken
      as an exact real), str, list and dict. */
  datatype Value =
    | Null
    | Bool(b: bool)
    | Int(i: int)
    | Float(x: real)
    | Str(s: string)
    | List(items: seq<Value>)
    | Dict(fields: map<string, Value>)

  /** A tool's result dictionary. */
  type Envelope = map<string, Value>

  /** The envelope reports success: its "success" entry is True. */
  predicate Succeeded(e: Envelope) {
    "success" in e && e["success"] == Bool(true)
  }

  /** The envelope maps `key` to `v`. */
  predicate Has(e: map<string, Value>, key: string, v: Value) {
    key in e && e[key] == v
  }

  /** What every tool returns when an exception with message `message`
      reaches its `except` clause. */
  function Failure(message: string): Envelope {
    map["success" := Bool(false), "error" := Str(message)]
  }

  /** Python's `d.get(key, default)`. */
  function Get(d: map<string, Value>, key: string, default: Value): Value {
    if key in d then d[key] else default
  }

  /** A list of strings as a list value. */
  function Strs(xs: seq<string>): (vs: seq<Value>)
    ensures |vs| == |xs|
    ensures forall i :: 0 <= i < |xs| ==> vs[i] == Str(xs[i])
  {
    if xs == [] then [] else [Str(xs[0])] + Strs(xs[1..])
  }

  /** `sep.join(xs)`. */
  function Join(sep: string, xs: seq<string>): string {
    if xs == [] then ""
    else if |xs| == 1 then xs[0]
    else xs[0] + sep + Join(sep, xs[1..])
  }

  /** `repr` of a string that holds no quote, backslash or unprintable
      character: the text between single quotes. */
  function ReprStr(s: string): string {
    "'" + s + "'"
  }

  function ReprStrs(xs: seq<string>): seq<string> {
    seq(|xs|, i requires 0 <= i < |xs| => ReprStr(xs[i]))
  }

  /** `str` of a list of such strings, e.g. `['a', 'b']`. */
  function ReprList(xs: seq<string>): string {
    "[" + Join(", ", ReprStrs(xs)) + "]"
  }

  predicate IsDigit(c: char) {
    '0' as int <= c as int <= '9' as int
  }

  function Digit(d: nat): (c: char)
    requires d < 10
    ensures IsDigit(c) && c as int - '0' as int == d
  {
    "0123456789"[d]
  }

  /** `str(n)` for a non-negative int: its decimal digits, most
      significant first, with no leading zero. */
  function NatToString(n: nat): (s: string)
    ensures |s| >= 1
    ensures forall i :: 0 <= i < |s| ==> IsDigit(s[i])
    ensures |s| > 1 ==> s[0] != '0'
    decreases n
  {
    if n < 10 then [Digit(n)] else NatToString(n / 10) + [Digit(n % 10)]
  }

  /** The number a string of decimal digits denotes. */
  function DecimalValue(s: string): nat
    requires forall i :: 0 <= i < |s| ==> IsDigit(s[i])
  {
    if s == [] then 0
    else
      assert IsDigit(s[|s| - 1]);
      DecimalValue(s[..|s| - 1]) * 10 + (s[|s| - 1] as int - '0' as int)
  }

  /** Reading back the decimal text of `n` gives `n`. */
  lemma {:induction false} NatToStringRoundTrip(n: nat)
    ensures DecimalValue(NatToString(n)) == n
    decreases n
  {
    var s := NatToString(n);
    if n >= 10 {
      NatToStringRoundTrip(n / 10);
      assert s[..|s| - 1] == NatToString(n / 10);
    }
  }
}
