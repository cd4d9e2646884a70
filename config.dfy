/**
 * The configuration helpers of the blog (www/config.py): merging an
 * override tree into a default tree, converting a tree into attribute
 * dictionaries, and the attribute dictionary itself.
 *
 * A configuration is a tree whose inner nodes are dictionaries with
 * string keys; `attr` tells the attribute-access subclass `Dict` from a
 * plain `dict` (both pass `isinstance(v, dict)`). Other values are
 * leaves: scalars, and lists, tuples or sets, which `merge` and
 * `toDict` never descend into. A leaf's kind matters only to `k in o`:
 * a substring test on a string, a membership test on a list, tuple or
 * set, a TypeError on a number or other object.
 */
module Config {
  import opened Values
  import Strings

  datatype Conf =
    | Leaf(v: Value)                         // a scalar
    | Items(items: seq<Conf>)                // a list, tuple or set
    | Node(m: map<string, Conf>, attr: bool) // a dict, or an attribute dictionary when `attr`

  /** `k in o`: a key test on a dictionary, membership in a list, tuple or set, a substring test on a string, TypeError on anything else. */
  function HasKey(o: Conf, k: string): (r: Result<bool>)
    ensures o.Node? ==> r == Ok(k in o.m)
    ensures o.Items? ==> r == Ok(exists i :: 0 <= i < |o.items| && o.items[i] == Leaf(Str(k)))
    ensures o.Leaf? && o.v.Str? ==> r == Ok(Strings.Contains(o.v.s, k))
    ensures r.Err? <==> o.Leaf? && !o.v.Str?
  {
    match o
    case Node(m, _) => Ok(k in m)
    case Items(s) => Ok(Leaf(Str(k)) in s)
    case Leaf(v) =>
      if v.Str? then Ok(Strings.Contains(v.s, k))
      else Err(TypeError("argument is not iterable"))
  }

  /** `override[k]` once `k in override` held: the entry of a dictionary; a string, list or tuple cannot be indexed by a string. */
  function Item(o: Conf, k: string): (r: Result<Conf>)
    ensures o.Node? && k in o.m ==> r == Ok(o.m[k])
    ensures r.Err? <==> !(o.Node? && k in o.m)
    ensures r.Err? && o.Node? ==> r.error == KeyError(k)
    ensures r.Err? && !o.Node? ==> r.error.TypeError?
  {
    match o
    case Node(m, _) => if k in m then Ok(m[k]) else Err(KeyError(k))
    case Items(_) => Err(TypeError("indices must be integers or slices, not str"))
    case Leaf(_) => Err(TypeError("string indices must be integers"))
  }

  /** The value `merge` stores under key `k` of the default, whose value there is `v`. */
  function EntryResult(k: string, v: Conf, o: Conf): Result<Conf>
    decreases v, 1
  {
    match HasKey(o, k)
    case Err(e) => Err(e)
    case Ok(present) =>
      if !present then Ok(v)
      else match Item(o, k)
        case Err(e) => Err(e)
        case Ok(ov) => if v.Node? then Merge(v, ov) else Ok(ov)
  }

  /**
   * `merge(default, override)`: a fresh plain dictionary with exactly the
   * keys of `default`; the first entry that cannot be merged raises.
   */
  function Merge(d: Conf, o: Conf): (r: Result<Conf>)
    requires d.Node?
    decreases d, 0
    ensures r.Ok? ==> r.value.Node? && !r.value.attr && r.value.m.Keys == d.m.Keys
    ensures r.Ok? ==> forall k :: k in d.m ==> EntryResult(k, d.m[k], o) == Ok(r.value.m[k])
    ensures r.Err? ==> r.error.TypeError?
  {
    if forall k :: k in d.m ==> EntryResult(k, d.m[k], o).Ok? then
      Ok(Node(map k | k in d.m :: EntryResult(k, d.m[k], o).value, false))
    else
      Err(TypeError("cannot merge override"))
  }

  /** Every entry of a merge against a dictionary override, by case. */
  lemma MergeEntries(d: Conf, o: Conf)
    requires d.Node? && o.Node? && Merge(d, o).Ok?
    ensures forall k :: k in d.m && k !in o.m ==> Merge(d, o).value.m[k] == d.m[k]
    ensures forall k :: k in d.m && k in o.m && !d.m[k].Node? ==> Merge(d, o).value.m[k] == o.m[k]
    ensures forall k :: k in d.m && k in o.m && d.m[k].Node? ==> Merge(d.m[k], o.m[k]) == Ok(Merge(d, o).value.m[k])
  {
    forall k | k in d.m
      ensures EntryResult(k, d.m[k], o) == Ok(Merge(d, o).value.m[k])
    {
    }
  }

  /** Keys only in the override are dropped: the merge has no key the default lacks. */
  lemma MergeDropsExtraKeys(d: Conf, o: Conf, k: string)
    requires d.Node? && Merge(d, o).Ok?
    requires k !in d.m
    ensures k !in Merge(d, o).value.m
  {
  }

  /** Merging an empty override gives the default's entries back, in a plain dictionary. */
  lemma MergeEmpty(d: Conf, attr: bool)
    requires d.Node?
    ensures Merge(d, Node(map[], attr)) == Ok(Node(d.m, false))
  {
    var o := Node(map[], attr);
    assert forall k :: k in d.m ==> EntryResult(k, d.m[k], o) == Ok(d.m[k]);
    assert (map k | k in d.m :: EntryResult(k, d.m[k], o).value) == d.m;
  }

  /** An override that is neither a dictionary nor a string makes every non-empty merge raise. */
  lemma MergeScalarOverride(d: Conf, v: Value)
    requires d.Node? && d.m != map[] && !v.Str?
    ensures Merge(d, Leaf(v)).Err?
  {
    var k :| k in d.m;
    assert EntryResult(k, d.m[k], Leaf(v)).Err?;
  }

  /**
   * A list, tuple or set override naming none of the default's keys
   * leaves every entry of the default in place.
   */
  lemma MergeItemsOverride(d: Conf, items: seq<Conf>)
    requires d.Node?
    requires forall k :: k in d.m ==> Leaf(Str(k)) !in items
    ensures Merge(d, Items(items)) == Ok(Node(d.m, false))
  {
    var o := Items(items);
    assert forall k :: k in d.m ==> EntryResult(k, d.m[k], o) == Ok(d.m[k]);
    assert (map k | k in d.m :: EntryResult(k, d.m[k], o).value) == d.m;
  }

  /** A list, tuple or set override naming one of the default's keys is then indexed by it, which raises. */
  lemma MergeItemsIndexed(d: Conf, items: seq<Conf>, k: string)
    requires d.Node? && k in d.m
    requires Leaf(Str(k)) in items
    ensures Merge(d, Items(items)) == Err(TypeError("cannot merge override"))
  {
  }

  /** An override shaped like the default: a dictionary, and one again wherever the default nests one. */
  ghost predicate Conforms(d: Conf, o: Conf)
    decreases d
  {
    && o.Node?
    && (d.Node? ==> forall k :: k in d.m && k in o.m && d.m[k].Node? ==> Conforms(d.m[k], o.m[k]))
  }

  /** A conforming override always merges. */
  lemma {:induction false} MergeConforming(d: Conf, o: Conf)
    requires d.Node? && Conforms(d, o)
    ensures Merge(d, o).Ok?
    decreases d
  {
    forall k | k in d.m
      ensures EntryResult(k, d.m[k], o).Ok?
    {
      if k in o.m && d.m[k].Node? {
        MergeConforming(d.m[k], o.m[k]);
      }
    }
  }

  /** The tree with every dictionary made plain: what Python's `==` compares. */
  function Plain(c: Conf): (r: Conf)
    ensures !c.Node? ==> r == c
    ensures c.Node? ==> r.Node? && !r.attr && r.m.Keys == c.m.Keys
  {
    match c
    case Leaf(_) => c
    case Items(_) => c
    case Node(m, _) => Node(map k | k in m :: Plain(m[k]), false)
  }

  /** Merging a tree with itself gives the same tree, as plain dictionaries. */
  lemma {:induction false} MergeSelf(d: Conf)
    requires d.Node?
    ensures Merge(d, d) == Ok(Plain(d))
    decreases d
  {
    forall k | k in d.m
      ensures EntryResult(k, d.m[k], d) == Ok(Plain(d.m[k]))
    {
      if d.m[k].Node? {
        MergeSelf(d.m[k]);
      }
    }
    assert (map k | k in d.m :: EntryResult(k, d.m[k], d).value) == Plain(d).m;
  }

  // ---------------------------------------------------------------- toDict

  /** `toDict(d)`: the same tree with every dictionary turned into an attribute dictionary. */
  function ToDict(d: Conf): (r: Conf)
    requires d.Node?
    ensures r.Node? && r.attr && r.m.Keys == d.m.Keys
    ensures forall k :: k in d.m && !d.m[k].Node? ==> r.m[k] == d.m[k]
    ensures forall k :: k in d.m && d.m[k].Node? ==> r.m[k].Node? && r.m[k].attr && r.m[k].m.Keys == d.m[k].m.Keys
    decreases d
  {
    Node(map k | k in d.m :: if d.m[k].Node? then ToDict(d.m[k]) else d.m[k], true)
  }

  /** Every dictionary in the tree supports attribute access. */
  ghost predicate AllAttr(c: Conf)
    decreases c
  {
    c.Node? ==> c.attr && forall k :: k in c.m ==> AllAttr(c.m[k])
  }

  /** toDict keeps every key and every leaf, at every depth, and converts every dictionary. */
  lemma {:induction false} ToDictContent(d: Conf)
    requires d.Node?
    ensures Plain(ToDict(d)) == Plain(d)
    ensures AllAttr(ToDict(d))
    decreases d
  {
    forall k | k in d.m && d.m[k].Node?
      ensures Plain(ToDict(d.m[k])) == Plain(d.m[k]) && AllAttr(ToDict(d.m[k]))
    {
      ToDictContent(d.m[k]);
    }
    assert Plain(ToDict(d)).m == Plain(d).m;
  }

  /** Converting twice is converting once. */
  lemma {:induction false} ToDictIdempotent(d: Conf)
    requires d.Node?
    ensures ToDict(ToDict(d)) == ToDict(d)
    decreases d
  {
    forall k | k in d.m && d.m[k].Node?
      ensures ToDict(ToDict(d.m[k])) == ToDict(d.m[k])
    {
      ToDictIdempotent(d.m[k]);
    }
    assert ToDict(ToDict(d)).m == ToDict(d).m;
  }

  // ---------------------------------------------------------------- Dict

  /** `kw` with the first `n` pairs of `zip(keys, values)` stored over it, in order. */
  function ZipInto(kw: map<string, Conf>, keys: seq<string>, values: seq<Conf>, n: nat): (r: map<string, Conf>)
    requires n <= |keys| && n <= |values|
    ensures r.Keys == kw.Keys + (set i | 0 <= i < n :: keys[i])
  {
    if n == 0 then kw else ZipInto(kw, keys, values, n - 1)[keys[n - 1] := values[n - 1]]
  }

  /** Number of pairs `zip(keys, values)` yields: it stops at the shorter sequence. */
  function ZipLength(keys: seq<string>, values: seq<Conf>): (n: nat)
    ensures n <= |keys| && n <= |values| && (n == |keys| || n == |values|)
  {
    if |keys| < |values| then |keys| else |values|
  }

  /** A zipped key takes the value of its last pair among the first `n`. */
  lemma {:induction false} ZipIntoLast(kw: map<string, Conf>, keys: seq<string>, values: seq<Conf>, n: nat, i: nat)
    requires i < n <= |keys| && n <= |values|
    requires forall j :: i < j < n ==> keys[j] != keys[i]
    ensures ZipInto(kw, keys, values, n)[keys[i]] == values[i]
  {
    if i < n - 1 {
      ZipIntoLast(kw, keys, values, n - 1, i);
    }
  }

  /** A key that no pair names keeps its `kw` entry. */
  lemma {:induction false} ZipIntoKeeps(kw: map<string, Conf>, keys: seq<string>, values: seq<Conf>, n: nat, k: string)
    requires n <= |keys| && n <= |values|
    requires forall i :: 0 <= i < n ==> keys[i] != k
    requires k in kw
    ensures ZipInto(kw, keys, values, n)[k] == kw[k]
  {
    if n > 0 {
      ZipIntoKeeps(kw, keys, values, n - 1, k);
    }
  }

  /**
   * The attribute dictionary `Dict`, a dictionary updated in place: the
   * stateful counterpart of a `Node(entries, true)` tree.
   */
  class AttrDict {
    var entries: map<string, Conf>

    /** `Dict(key, value, **kw)` */
    constructor (keys: seq<string>, values: seq<Conf>, kw: map<string, Conf>)
      ensures entries == ZipInto(kw, keys, values, ZipLength(keys, values))
    {
      var e := kw;
      var n := ZipLength(keys, values);
      for i := 0 to n
        invariant e == ZipInto(kw, keys, values, i)
      {
        e := e[keys[i] := values[i]];
      }
      entries := e;
    }

    /** `d.key` (`__getattr__`): the entry, or AttributeError for a missing key. */
    function GetAttr(key: string): (r: Result<Conf>)
      reads this
      ensures r.Ok? <==> key in entries
      ensures r.Ok? ==> r.value == entries[key]
      ensures r.Err? ==> r.error == AttributeError(key)
    {
      if key in entries then Ok(entries[key]) else Err(AttributeError(key))
    }

    /** `d.key = value` (`__setattr__`): stores the entry, nothing else changes. */
    method SetAttr(key: string, value: Conf)
      modifies this
      ensures entries == old(entries)[key := value]
      ensures GetAttr(key) == Ok(value)
      ensures forall k :: k != key ==> GetAttr(k) == old(GetAttr(k))
    {
      entries := entries[key := value];
    }

  }
}
