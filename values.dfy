/** The Python values that flow through the agents: decoded JSON tool arguments,
    dictionary look-ups with defaults, truthiness, iteration and str()/repr(). */
module Values {
  import opened Text

  datatype Option<T> = None | Some(value: T)

  /** A Python value as json.loads produces it. A dict keeps its keys in
      insertion order, as Python's dict does. */
  datatype Value =
    | Null
    | Bool(b: bool)
    | Int(i: int)
    | Float(x: real)
    | Str(s: string)
    | List(items: seq<Value>)
    | Dict(entries: seq<(string, Value)>)

  /** The keyword arguments of one tool call: a decoded JSON object. */
  type Args = seq<(string, Value)>

  /** isinstance(v, (int, float)); bool is a subclass of int in Python. */
  predicate IsNumber(v: Value)
  {
    v.Bool? || v.Int? || v.Float?
  }

  function AsReal(v: Value): real
    requires IsNumber(v)
  {
    match v
    case Bool(b) => if b then 1.0 else 0.0
    case Int(i) => i as real
    case Float(x) => x
  }

  /** type(v).__name__ */
  function TypeName(v: Value): string
  {
    match v
    case Null => "NoneType"
    case Bool(_) => "bool"
    case Int(_) => "int"
    case Float(_) => "float"
    case Str(_) => "str"
    case List(_) => "list"
    case Dict(_) => "dict"
  }

  /** The value stored under key, if the key is present. */
  function Lookup(entries: seq<(string, Value)>, key: string): (r: Option<Value>)
    ensures r.Some? <==> exists i :: 0 <= i < |entries| && entries[i].0 == key
    ensures r.Some? ==> exists i :: 0 <= i < |entries| && entries[i] == (key, r.value)
  {
    if |entries| == 0 then None
    else if entries[0].0 == key then Some(entries[0].1)
    else
      var r := Lookup(entries[1..], key);
      assert forall i :: 1 <= i < |entries| ==> entries[i] == entries[1..][i - 1];
      r
  }

  /** dict.get(key, default) */
  function GetOr(entries: seq<(string, Value)>, key: string, default: Value): Value
  {
    match Lookup(entries, key)
    case Some(v) => v
    case None => default
  }

  /** `key in d and d[key] is not None` */
  predicate Usable(args: Args, key: string)
  {
    Lookup(args, key).Some? && !Lookup(args, key).value.Null?
  }

  /** bool(v) */
  predicate Truthy(v: Value)
  {
    match v
    case Null => false
    case Bool(b) => b
    case Int(i) => i != 0
    case Float(x) => x != 0.0
    case Str(s) => s != ""
    case List(items) => items != []
    case Dict(entries) => entries != []
  }

  /** What `for x in v` visits: list items, the one-character strings of a str,
      the keys of a dict; None when the value is not iterable. */
  function Iterate(v: Value): (r: Option<seq<Value>>)
    ensures r.Some? <==> v.List? || v.Str? || v.Dict?
    ensures v.List? ==> r == Some(v.items)
  {
    match v
    case List(items) => Some(items)
    case Str(s) => Some(seq(|s|, i requires 0 <= i < |s| => Str([s[i]])))
    case Dict(entries) => Some(seq(|entries|, i requires 0 <= i < |entries| => Str(entries[i].0)))
    case _ => None
  }

  /** A Python list of str. */
  function StrList(strs: seq<string>): (r: Value)
    ensures r.List? && |r.items| == |strs|
    ensures forall k :: 0 <= k < |strs| ==> r.items[k] == Str(strs[k])
  {
    List(seq(|strs|, k requires 0 <= k < |strs| => Str(strs[k])))
  }

  /** Digits after the decimal point of a fraction in [0, 1), at most n of them. */
  function FractionDigits(f: real, n: nat): string
    requires 0.0 <= f < 1.0
    decreases n
  {
    if f == 0.0 || n == 0 then ""
    else
      var d := (f * 10.0).Floor;
      [Digit(d)] + FractionDigits(f * 10.0 - d as real, n - 1)
  }

  /** repr() of a float: integral values keep a trailing ".0"; other values are
      written with at most 17 fractional digits. */
  function FloatText(x: real): string
  {
    if x < 0.0 then "-" + UnsignedFloatText(-x) else UnsignedFloatText(x)
  }

  function UnsignedFloatText(x: real): string
    requires x >= 0.0
  {
    var whole := x.Floor;
    if whole as real == x then IntText(whole) + ".0"
    else IntText(whole) + "." + FractionDigits(x - whole as real, 17)
  }

  /** str(v) */
  function Show(v: Value): string
    decreases v, 1
  {
    match v
    case Null => "None"
    case Bool(b) => if b then "True" else "False"
    case Int(i) => IntText(i)
    case Float(x) => FloatText(x)
    case Str(s) => s
    case List(items) =>
      "[" + Join(", ", seq(|items|, k requires 0 <= k < |items| => Repr(items[k]))) + "]"
    case Dict(entries) =>
      "{" + Join(", ", seq(|entries|, k requires 0 <= k < |entries| =>
                              "'" + entries[k].0 + "': " + Repr(entries[k].1))) + "}"
  }

  /** repr(v); strings are quoted with single quotes and not escaped. */
  function Repr(v: Value): string
    decreases v, 2
  {
    if v.Str? then "'" + v.s + "'" else Show(v)
  }
}
