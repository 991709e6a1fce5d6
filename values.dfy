/** The dynamic Python values that reach the plug-in: the keyword value a `setup()` call passes,
    and the tables and values a parsed `pyproject.toml` holds. */
module Values {
  import opened Outcomes

  /** A Python value. Dictionaries keep their keys in insertion order; their keys are strings,
      and in Python no key occurs twice. `Other` is any object that is neither a container nor
      one of the scalars listed (a float, a date, a callable, ...). */
  datatype Value =
    | NoneValue
    | Bool(b: bool)
    | Int(i: int)
    | Str(s: string)
    | List(items: seq<Value>)
    | Tuple(items: seq<Value>)
    | Dict(entries: seq<(string, Value)>)
    | Other(kind: string)

  function Keys(entries: seq<(string, Value)>): seq<string>
  {
    seq(|entries|, i requires 0 <= i < |entries| => entries[i].0)
  }

  /** `d[key]` when `key in d`; the first entry with that key. */
  function Lookup(entries: seq<(string, Value)>, key: string): (r: Option<Value>)
    ensures r.None? <==> key !in Keys(entries)
    ensures r.Some? ==> (key, r.value) in entries
  {
    if |entries| == 0 then None
    else if entries[0].0 == key then
      assert Keys(entries)[0] == key;
      Some(entries[0].1)
    else
      assert Keys(entries) == [entries[0].0] + Keys(entries[1..]);
      Lookup(entries[1..], key)
  }

  /** `isinstance(v, collections.abc.Sequence)`: `str`, `list` and `tuple` are sequences,
      a `dict` is not. */
  predicate IsSequence(v: Value)
  {
    v.Str? || v.List? || v.Tuple?
  }

  /** What `for e in v` yields for a sequence: the items, or the one-character strings of a `str`. */
  function Elements(v: Value): (r: seq<Value>)
    requires IsSequence(v)
    ensures v.Str? ==> |r| == |v.s| && forall i :: 0 <= i < |r| ==> r[i] == Str([v.s[i]])
    ensures !v.Str? ==> r == v.items
  {
    if v.Str? then seq(|v.s|, i requires 0 <= i < |v.s| => Str([v.s[i]])) else v.items
  }

  /** `len(v)`; `None` where Python raises TypeError. A sequence's length is the number of
      elements iterating it yields; a dict's is its number of entries. */
  function Length(v: Value): (r: Option<nat>)
    ensures r.Some? <==> IsSequence(v) || v.Dict?
    ensures IsSequence(v) ==> r == Some(|Elements(v)|)
    ensures v.Dict? ==> r == Some(|Keys(v.entries)|)
  {
    match v
    case Str(s) => Some(|s|)
    case List(items) => Some(|items|)
    case Tuple(items) => Some(|items|)
    case Dict(entries) => Some(|entries|)
    case _ => None
  }

  /** `sub` occurs in `s` as a contiguous substring. */
  predicate IsInfix(sub: string, s: string)
    decreases |s|
  {
    sub <= s || (|s| > 0 && IsInfix(sub, s[1..]))
  }

  /** `key in container` for a string `key`: key membership for a dict, element equality for a
      list or tuple, substring search for a str, TypeError for anything else. */
  function Contains(container: Value, key: string): (r: Result<bool>)
    ensures r.Err? <==> !(IsSequence(container) || container.Dict?)
    ensures r.Err? ==> r.failure == Raised("TypeError")
    ensures container.Dict? ==> r == Ok(Lookup(container.entries, key).Some?)
    ensures container.List? || container.Tuple? ==> r == Ok(Str(key) in Elements(container))
  {
    match container
    case Dict(entries) => Ok(key in Keys(entries))
    case List(items) => Ok(Str(key) in items)
    case Tuple(items) => Ok(Str(key) in items)
    case Str(s) => Ok(IsInfix(key, s))
    case _ => Err(Raised("TypeError"))
  }

  /** `container[key]` for a string `key`: the dict's value, KeyError for a missing key,
      TypeError for anything that is not a dict. */
  function Subscript(container: Value, key: string): (r: Result<Value>)
    ensures r.Ok? <==> container.Dict? && Contains(container, key) == Ok(true)
    ensures r.Ok? ==> Lookup(container.entries, key) == Some(r.value)
    ensures r.Err? ==> r.failure == Raised(if container.Dict? then "KeyError" else "TypeError")
  {
    if !container.Dict? then Err(Raised("TypeError"))
    else match Lookup(container.entries, key)
      case Some(v) => Ok(v)
      case None => Err(Raised("KeyError"))
  }
}
