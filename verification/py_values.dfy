/**
 * Python values as they travel through the core: the untyped plan the
 * planner returns, the calls inside it, what tools return and the error
 * values the executors build. A `Dict` lists its items in insertion order;
 * a dictionary Python can build has distinct keys, and lookup takes the
 * first item with the key.
 */
module PyValues {
  import opened Wrappers
  import opened PyStrings

  datatype Value =
    | Null
    | Bool(b: bool)
    | Int(i: int)
    | Str(s: string)
    | List(items: seq<Value>)
    | Dict(entries: seq<(Value, Value)>)

  /** `type(v).__name__` */
  function TypeName(v: Value): string {
    match v
    case Null => "NoneType"
    case Bool(_) => "bool"
    case Int(_) => "int"
    case Str(_) => "str"
    case List(_) => "list"
    case Dict(_) => "dict"
  }

  /** Lists and dicts cannot be dictionary keys or set members. */
  predicate Hashable(v: Value) {
    !v.List? && !v.Dict?
  }

  /** Python truthiness: `None`, `False`, `0` and empty containers are false. */
  predicate Truthy(v: Value) {
    match v
    case Null => false
    case Bool(b) => b
    case Int(i) => i != 0
    case Str(s) => s != ""
    case List(items) => items != []
    case Dict(entries) => entries != []
  }

  function Join(sep: string, parts: seq<string>): string {
    if |parts| == 0 then ""
    else if |parts| == 1 then parts[0]
    else parts[0] + sep + Join(sep, parts[1..])
  }

  /** `repr(v)`; strings are quoted with `'` and their escaping is not modelled. */
  function Repr(v: Value): string {
    match v
    case Null => "None"
    case Bool(b) => if b then "True" else "False"
    case Int(i) => IntToDecimal(i)
    case Str(s) => "'" + s + "'"
    case List(items) =>
      "[" + Join(", ", seq(|items|, k requires 0 <= k < |items| => Repr(items[k]))) + "]"
    case Dict(entries) =>
      "{" + Join(", ", seq(|entries|, k requires 0 <= k < |entries| =>
                          Repr(entries[k].0) + ": " + Repr(entries[k].1))) + "}"
  }

  /** `str(v)`: a string is itself, everything else its `repr`. */
  function ToStr(v: Value): string {
    if v.Str? then v.s else Repr(v)
  }

  /** `d.get(key)` on the items of a dictionary. */
  function Get(entries: seq<(Value, Value)>, key: Value): (r: Option<Value>)
  {
    if |entries| == 0 then None
    else if entries[0].0 == key then Some(entries[0].1)
    else Get(entries[1..], key)
  }

  /** `d.get(key, default)` */
  function GetOr(entries: seq<(Value, Value)>, key: string, default: Value): Value {
    match Get(entries, Str(key))
    case Some(v) => v
    case None => default
  }

  /** `key in container` for a string key: dictionaries test their keys,
      lists their elements, strings their substrings; anything else raises
      `TypeError`, written `None`. */
  function KeyIn(key: string, container: Value): Option<bool> {
    match container
    case Dict(entries) => Some(Get(entries, Str(key)).Some?)
    case List(items) => Some(Str(key) in items)
    case Str(s) => Some(Contains(s, key))
    case _ => None
  }
  /** The number a `bool` or `int` stands for: `True == 1` in Python. */
  function NumOf(v: Value): int
    requires v.Bool? || v.Int?
  {
    if v.Bool? then (if v.b then 1 else 0) else v.i
  }

  /** Python's `a == b`: booleans equal the integers 0 and 1, lists compare
      item by item, and dictionaries compare as mappings, whatever the
      order of their items. */
  predicate PyEq(a: Value, b: Value)
    decreases a
  {
    match a
    case Null => b.Null?
    case Bool(_) => (b.Bool? || b.Int?) && NumOf(a) == NumOf(b)
    case Int(_) => (b.Bool? || b.Int?) && NumOf(a) == NumOf(b)
    case Str(x) => b.Str? && b.s == x
    case List(xs) =>
      b.List? && |xs| == |b.items| &&
      forall k :: 0 <= k < |xs| ==> PyEq(xs[k], b.items[k])
    case Dict(xs) =>
      b.Dict? && |xs| == |b.entries| &&
      forall k :: 0 <= k < |xs| ==> HasEqualItem(xs[k], b.entries)
  }

  /** `ys` holds an item equal to `item`, key and value. */
  predicate HasEqualItem(item: (Value, Value), ys: seq<(Value, Value)>)
    decreases item
  {
    exists j :: 0 <= j < |ys| && PyEq(item.0, ys[j].0) && PyEq(item.1, ys[j].1)
  }

  /** Every value equals itself. */
  lemma {:induction false} PyEqRefl(a: Value)
    ensures PyEq(a, a)
    decreases a
  {
    match a
    case List(xs) =>
      forall k | 0 <= k < |xs| ensures PyEq(xs[k], xs[k]) {
        PyEqRefl(xs[k]);
      }
    case Dict(xs) =>
      forall k | 0 <= k < |xs| ensures HasEqualItem(xs[k], xs) {
        PyEqRefl(xs[k].0);
        PyEqRefl(xs[k].1);
        assert PyEq(xs[k].0, xs[k].0) && PyEq(xs[k].1, xs[k].1);
      }
    case _ =>
  }

  /** `1 == True`, and two dictionaries with the same items in another
      order are equal. */
  lemma PyEqExamples()
    ensures PyEq(Int(1), Bool(true))
    ensures PyEq(Dict([(Str("a"), Int(1)), (Str("b"), Int(2))]),
                 Dict([(Str("b"), Int(2)), (Str("a"), Int(1))]))
    ensures !PyEq(List([Int(1)]), List([Int(2)]))
  {
    var c := [(Str("a"), Int(1)), (Str("b"), Int(2))];
    var d := [(Str("b"), Int(2)), (Str("a"), Int(1))];
    forall k | 0 <= k < |c| ensures HasEqualItem(c[k], d) {
      if k == 0 {
        assert PyEq(c[0].0, d[1].0) && PyEq(c[0].1, d[1].1);
      } else {
        assert PyEq(c[1].0, d[0].0) && PyEq(c[1].1, d[0].1);
      }
    }
    assert List([Int(1)]).items[0] == Int(1) && !PyEq(Int(1), Int(2));
  }
}
