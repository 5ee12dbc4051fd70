/**
 * The dynamically typed data the adapter passes around (profile records, JSON
 * payloads, channel-account attributes): a JSON-like `Value`, and a `Mapping`
 * standing for a Python `dict` with its insertion order.
 */
module Values {
  import opened Wrappers
  import opened Strings

  datatype Value =
    | Null
    | Bool(b: bool)
    | Int(i: int)
    | Str(s: string)
    | List(items: seq<Value>)
    | Dict(entries: Mapping)

  /** A Python `dict`: entries in insertion order. Lookup takes the first entry with the key. */
  type Mapping = seq<(string, Value)>

  /** Python's `bool(v)`. */
  predicate Truthy(v: Value)
  {
    match v
    case Null => false
    case Bool(b) => b
    case Int(i) => i != 0
    case Str(s) => s != ""
    case List(items) => items != []
    case Dict(entries) => entries != []
  }

  /** `str(v)`; the only value that prints as the empty string is the empty string. */
  function ToStr(v: Value): (r: string)
    ensures r == "" <==> v == Str("")
    decreases v, 0
  {
    match v
    case Null => "None"
    case Bool(b) => if b then "True" else "False"
    case Int(i) => IntToString(i)
    case Str(s) => s
    case List(items) =>
      "[" + Join(", ", seq(|items|, k requires 0 <= k < |items| => Repr(items[k]))) + "]"
    case Dict(entries) =>
      "{" + Join(", ", seq(|entries|, k requires 0 <= k < |entries| =>
                             "'" + entries[k].0 + "': " + Repr(entries[k].1))) + "}"
  }

  /** `repr(v)`, as `str` prints the elements of a container. */
  function Repr(v: Value): string
    decreases v, 1
  {
    if v.Str? then "'" + v.s + "'" else ToStr(v)
  }

  predicate HasKey(m: Mapping, k: string)
  {
    exists i :: 0 <= i < |m| && m[i].0 == k
  }

  /** `m.get(k)` (as an option: `None` when the key is absent). */
  function Get(m: Mapping, k: string): (r: Option<Value>)
    ensures r.Some? <==> HasKey(m, k)
    ensures r.Some? ==> exists i :: 0 <= i < |m| && m[i] == (k, r.value)
  {
    if m == [] then None
    else if m[0].0 == k then Some(m[0].1)
    else
      var r := Get(m[1..], k);
      assert forall i :: 0 <= i < |m| - 1 ==> m[1..][i] == m[i + 1];
      r
  }

  /** Lookup in a mapping given as its first entry and the rest. */
  lemma GetCons(k: string, v: Value, rest: Mapping, key: string)
    ensures Get([(k, v)] + rest, key) == if k == key then Some(v) else Get(rest, key)
  {
    assert ([(k, v)] + rest)[1..] == rest;
  }

  /** `m.get(k)` with Python's default `None`. */
  function GetOrNull(m: Mapping, k: string): Value
  {
    match Get(m, k)
    case Some(v) => v
    case None => Null
  }

  /** `m[k] = v`: an existing key keeps its position and takes the new value; a new key is appended. */
  function SetKey(m: Mapping, k: string, v: Value): (r: Mapping)
    ensures Get(r, k) == Some(v)
    ensures forall k' :: k' != k ==> Get(r, k') == Get(m, k')
  {
    if m == [] then [(k, v)]
    else if m[0].0 == k then [(k, v)] + m[1..]
    else [m[0]] + SetKey(m[1..], k, v)
  }

  /** Keys of a real `dict` are distinct. */
  predicate DistinctKeys(m: Mapping)
  {
    forall i, j :: 0 <= i < j < |m| ==> m[i].0 != m[j].0
  }
}
