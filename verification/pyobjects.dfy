/**
 * Python values as the configuration logic of AlgorithmConfig inspects them, and the state of
 * an AlgorithmConfig object (its instance attributes).
 */
module PyObjects {
  import opened Wrappers
  import opened Strings
  import opened Attributes

  /**
   * A value an attribute or a keyword argument can hold. Classes, functions and gym spaces are
   * `ObjectV`s that are only inspected for being callable; a `PolicySpec` is `SpecV`; an
   * AlgorithmConfig object stored inside another one (an evaluation config) is `ConfigV`.
   * Dictionaries keep their insertion order and have distinct keys.
   */
  datatype Value =
    | NoneV
    | BoolV(b: bool)
    | IntV(i: int)
    | FloatV(f: real)
    | StrV(s: string)
    | ListV(items: seq<Value>)
    | TupleV(items: seq<Value>)
    | SetV(elems: set<Value>)
    | DictV(entries: seq<(Value, Value)>)
    | SpecV(policyClass: Value, observationSpace: Value, actionSpace: Value, config: Value)
    | ConfigV(cfg: Config)
    | ObjectV(name: string, isCallable: bool)

  /**
   * The instance attributes of an AlgorithmConfig object: the declared ones (set in `__init__`)
   * and any others a caller added through `setattr` (for example `worker_index`, or `beta` in a
   * BCConfig).
   */
  datatype Config = Config(attrs: map<Attr, Value>, dynamic: map<string, Value>)

  /**
   * An attribute name. Canonical form: a `Dynamic` name is never the Python name of a declared
   * attribute (the declared one is written `Declared`).
   */
  datatype Key = Declared(attr: Attr) | Dynamic(name: string)

  /** The value of an attribute, or None when `getattr` would raise AttributeError. */
  function Get(c: Config, k: Key): (r: Option<Value>)
    ensures r.Some? <==> (k.Declared? && k.attr in c.attrs) || (k.Dynamic? && k.name in c.dynamic)
  {
    match k
    case Declared(a) => if a in c.attrs then Some(c.attrs[a]) else None
    case Dynamic(n) => if n in c.dynamic then Some(c.dynamic[n]) else None
  }

  /** `object.__setattr__`: store the value, nothing else changes. */
  function Put(c: Config, k: Key, v: Value): (r: Config)
    ensures Get(r, k) == Some(v)
    ensures forall k' :: k' != k ==> Get(r, k') == Get(c, k')
  {
    match k
    case Declared(a) => c.(attrs := c.attrs[a := v])
    case Dynamic(n) => c.(dynamic := c.dynamic[n := v])
  }

  /** Every attribute `__init__` assigns is present. */
  predicate Complete(c: Config)
  {
    forall a: Attr :: a in c.attrs
  }

  /** Python truthiness (`bool(v)`). AlgorithmConfig defines neither `__bool__` nor `__len__`. */
  predicate Truthy(v: Value)
  {
    match v
    case NoneV => false
    case BoolV(b) => b
    case IntV(i) => i != 0
    case FloatV(f) => f != 0.0
    case StrV(s) => |s| > 0
    case ListV(items) => |items| > 0
    case TupleV(items) => |items| > 0
    case SetV(elems) => elems != {}
    case DictV(entries) => |entries| > 0
    case SpecV(_, _, _, _) => true
    case ConfigV(_) => true
    case ObjectV(_, _) => true
  }

  /** The numeric value of a bool, int or float; None for every other value. */
  function NumberOf(v: Value): (r: Option<real>)
    ensures r.Some? <==> v.BoolV? || v.IntV? || v.FloatV?
  {
    match v
    case BoolV(b) => Some(if b then 1.0 else 0.0)
    case IntV(i) => Some(i as real)
    case FloatV(f) => Some(f)
    case _ => None
  }

  /** `isinstance(v, int)`; `bool` is a subclass of `int`. */
  predicate IsInt(v: Value)
  {
    v.IntV? || v.BoolV?
  }

  /** `callable(v)`. */
  predicate IsCallable(v: Value)
  {
    v.ObjectV? && v.isCallable
  }

  /**
   * `a == b`: numbers compare by value across bool, int and float; all other values compare
   * structurally, and never equal a number.
   */
  predicate PyEq(a: Value, b: Value)
  {
    if NumberOf(a).Some? || NumberOf(b).Some? then NumberOf(a) == NumberOf(b) else a == b
  }

  /** `a < b` / `a > b` style comparison of numbers; None when Python raises TypeError. */
  function Compare(a: Value, b: Value): (r: Option<int>)
    ensures r.Some? <==> NumberOf(a).Some? && NumberOf(b).Some?
    ensures r == Some(0) ==> PyEq(a, b)
    ensures r.Some? && r.value < 0 ==> NumberOf(a).value < NumberOf(b).value
    ensures r.Some? && r.value > 0 ==> NumberOf(a).value > NumberOf(b).value
  {
    match (NumberOf(a), NumberOf(b))
    case (Some(x), Some(y)) => Some(if x < y then -1 else if x == y then 0 else 1)
    case _ => None
  }

  /** The keys of a dictionary, in insertion order. */
  function Keys(entries: seq<(Value, Value)>): (r: seq<Value>)
    ensures |r| == |entries|
    ensures forall i :: 0 <= i < |entries| ==> r[i] == entries[i].0
  {
    if entries == [] then [] else [entries[0].0] + Keys(entries[1..])
  }

  /** `d.get(k)`: the value stored under the first key equal to `k`. */
  function Lookup(entries: seq<(Value, Value)>, k: Value): (r: Option<Value>)
    ensures r.Some? <==> exists i :: 0 <= i < |entries| && PyEq(entries[i].0, k)
    ensures r.Some? ==> exists i :: 0 <= i < |entries| && PyEq(entries[i].0, k) && entries[i].1 == r.value
  {
    if entries == [] then None
    else if PyEq(entries[0].0, k) then Some(entries[0].1)
    else
      var r := Lookup(entries[1..], k);
      assert r.Some? ==> exists i :: 0 <= i < |entries| - 1 && PyEq(entries[1..][i].0, k) && entries[1..][i].1 == r.value;
      r
  }

  /** `d[k] = v`: overwrite the entry with an equal key in place, or append a new one. */
  function DictSet(entries: seq<(Value, Value)>, k: Value, v: Value): (r: seq<(Value, Value)>)
    ensures Lookup(r, k) == Some(v)
    ensures forall k' :: PyEq(k', k) ==> Lookup(r, k') == Some(v)
    ensures forall k' :: !PyEq(k', k) ==> Lookup(r, k') == Lookup(entries, k')
  {
    if entries == [] then [(k, v)]
    else if PyEq(entries[0].0, k) then [(entries[0].0, v)] + entries[1..]
    else
      var rest := DictSet(entries[1..], k, v);
      assert Lookup([entries[0]] + rest, k) == Lookup(rest, k);
      [entries[0]] + rest
  }

  /** The value stored under the last key of `entries` equal to `k`. */
  function LookupLast(entries: seq<(Value, Value)>, k: Value): Option<Value>
  {
    if entries == [] then None
    else if PyEq(entries[|entries| - 1].0, k) then Some(entries[|entries| - 1].1)
    else LookupLast(entries[..|entries| - 1], k)
  }

  /**
   * `d.update(other)`: every entry of `other` is written into `d`, in order, so a key of `other`
   * ends up with the value it has last there and every other key keeps its value.
   */
  function DictUpdate(entries: seq<(Value, Value)>, other: seq<(Value, Value)>): (r: seq<(Value, Value)>)
    ensures forall k :: Lookup(r, k) == if LookupLast(other, k).Some? then LookupLast(other, k) else Lookup(entries, k)
    decreases |other|
  {
    if other == [] then entries
    else DictSet(DictUpdate(entries, other[..|other| - 1]), other[|other| - 1].0, other[|other| - 1].1)
  }

  /** `len(v)`; None when Python raises TypeError. */
  function Len(v: Value): (r: Option<nat>)
    ensures r.Some? <==> v.StrV? || v.ListV? || v.TupleV? || v.SetV? || v.DictV?
  {
    match v
    case StrV(s) => Some(|s|)
    case ListV(items) => Some(|items|)
    case TupleV(items) => Some(|items|)
    case SetV(elems) => Some(|elems|)
    case DictV(entries) => Some(|entries|)
    case _ => None
  }

  /**
   * `x in v`: a key of a dict, an element of a list, tuple or set, a substring of a str.
   * None when Python raises TypeError.
   */
  function Contains(v: Value, x: Value): (r: Option<bool>)
  {
    match v
    case StrV(s) => if x.StrV? then Some(IsSubstring(x.s, s)) else None
    case ListV(items) => Some(exists i | 0 <= i < |items| :: PyEq(items[i], x))
    case TupleV(items) => Some(exists i | 0 <= i < |items| :: PyEq(items[i], x))
    case SetV(elems) => Some(exists e | e in elems :: PyEq(e, x))
    case DictV(entries) => Some(Lookup(entries, x).Some?)
    case _ => None
  }

  /** The values `for x in v` visits (dict keys for a dict); None when `v` is not iterable. */
  function Members(v: Value): (r: Option<set<Value>>)
  {
    match v
    case ListV(items) => Some(set i | 0 <= i < |items| :: items[i])
    case TupleV(items) => Some(set i | 0 <= i < |items| :: items[i])
    case SetV(elems) => Some(elems)
    case DictV(entries) => Some(set i | 0 <= i < |entries| :: entries[i].0)
    case StrV(s) => Some(set i | 0 <= i < |s| :: StrV([s[i]]))
    case _ => None
  }
}
