/**
 * The `Model` base class of the ORM (www/orm.py, lines 141-232): a
 * record is a dictionary of column values with attribute-style access,
 * default resolution with write-back, the three class-level queries and
 * the three writes, each binding its arguments to a template that the
 * metaclass built (module Schema).
 *
 * Deviations from the text of www/orm.py, modelled as evidently intended:
 *  - line 159 tests `value is not None`; the model applies a default only
 *    when the value IS None (ResolveAsWritten keeps the text, see the
 *    lemmas after it);
 *  - line 193 builds `cls[**r]`, line 212 reads `rs[]`; the model builds
 *    one instance per row and takes the first row;
 *  - lines 202 and 209 call `select`, line 217 `execute`, line 216
 *    `getVauleOrDefault`, lines 222-229 `getVaule`, line 209
 *    `_primary_key__`: the model calls the functions and reads the
 *    attribute those names evidently mean;
 *  - lines 218, 225 and 231 apply `len` to the integer row count; the
 *    model compares the count itself with 1;
 *  - line 229 binds `getValue(self.__fields__)`; the model binds the
 *    value of the primary key, the one placeholder of DELETE.
 */
module Crud {
  import opened Values
  import opened Strings
  import opened Schema
  import opened Executor

  // ---------------------------------------------------------------- attribute access

  /** `getattr(self, key, None)`: the stored value, or None when the key was never set. */
  function ValueOf(values: map<string, Value>, key: string): Value
  {
    if key in values then values[key] else Null
  }

  /** Two records that agree on every key outside `keys`, presence and value alike. */
  ghost predicate AgreeExcept(a: map<string, Value>, b: map<string, Value>, keys: set<string>)
  {
    forall k :: k !in keys ==> (k in a <==> k in b) && (k in a ==> a[k] == b[k])
  }

  // ---------------------------------------------------------------- defaults

  /**
   * The value `field.default` supplies, when it is applied at all: only a
   * truthy default is; a callable is called, anything else is used as is.
   */
  function DefaultOf(d: Default, call: nat -> Value): (r: Option<Value>)
    ensures d.NoDefault? ==> r.None?
    ensures d.Generator? ==> r == Some(call(d.id))
    ensures d.Literal? ==> (r.Some? <==> Truthy(d.v))
    ensures r.Some? && d.Literal? ==> r.value == d.v
  {
    match d
    case NoDefault => None
    case Literal(v) => if Truthy(v) then Some(v) else None
    case Generator(id) => Some(call(id))
  }

  /** What `getValueOrDefault` returns and the record it leaves behind. */
  datatype Resolution = Resolution(value: Value, values: map<string, Value>)

  /**
   * `getValueOrDefault(key)`, as evidently intended: a value that is set
   * is returned untouched; otherwise the field's default, if it applies,
   * is returned and written back. A key that is neither set nor a
   * declared field raises KeyError (`self.__mappings__[key]`).
   */
  function Resolve(mappings: map<string, Field>, values: map<string, Value>, key: string, call: nat -> Value): (r: Result<Resolution>)
    ensures r.Err? <==> ValueOf(values, key) == Null && key !in mappings
    ensures r.Err? ==> r.error == KeyError(key)
    ensures ValueOf(values, key) != Null ==> r == Ok(Resolution(values[key], values))
    ensures r.Ok? ==> ValueOf(r.value.values, key) == r.value.value
    ensures r.Ok? ==> AgreeExcept(r.value.values, values, {key})
    ensures r.Ok? && ValueOf(values, key) == Null ==>
      (r.value.value != Null <==> DefaultOf(mappings[key].default, call).Some? && DefaultOf(mappings[key].default, call).value != Null)
    ensures r.Ok? && ValueOf(values, key) == Null && DefaultOf(mappings[key].default, call).None? ==> r.value.values == values
    ensures r.Ok? && ValueOf(values, key) == Null ==>
      r.value.value == (if DefaultOf(mappings[key].default, call).Some? then DefaultOf(mappings[key].default, call).value else Null)
  {
    var value := ValueOf(values, key);
    if value != Null then Ok(Resolution(value, values))
    else if key !in mappings then Err(KeyError(key))
    else match DefaultOf(mappings[key].default, call)
      case None => Ok(Resolution(Null, values))
      case Some(v) => Ok(Resolution(v, values[key := v]))
  }

  /** `getValueOrDefault(key)` as line 159 writes it: the default is consulted only when the value is NOT None. */
  function ResolveAsWritten(mappings: map<string, Field>, values: map<string, Value>, key: string, call: nat -> Value): (r: Result<Resolution>)
    ensures ValueOf(values, key) == Null ==> r == Ok(Resolution(Null, values))
  {
    var value := ValueOf(values, key);
    if value == Null then Ok(Resolution(value, values))
    else if key !in mappings then Err(KeyError(key))
    else match DefaultOf(mappings[key].default, call)
      case None => Ok(Resolution(value, values))
      case Some(v) => Ok(Resolution(v, values[key := v]))
  }

  /** As written, a value that is already set is replaced by the field's default (a fresh id for a saved user, say). */
  lemma AsWrittenOverwrites(mappings: map<string, Field>, values: map<string, Value>, key: string, call: nat -> Value)
    requires key in values && values[key] != Null && key in mappings
    requires DefaultOf(mappings[key].default, call).Some?
    requires DefaultOf(mappings[key].default, call).value != values[key]
    ensures ResolveAsWritten(mappings, values, key, call).Ok?
    ensures ResolveAsWritten(mappings, values, key, call).value.value != values[key]
    ensures Resolve(mappings, values, key, call) == Ok(Resolution(values[key], values))
  {
  }

  /** As written, a field that was never set gets no default: None is returned and stored nowhere. */
  lemma AsWrittenNeverDefaults(mappings: map<string, Field>, values: map<string, Value>, key: string, call: nat -> Value)
    requires key !in values && key in mappings
    requires DefaultOf(mappings[key].default, call).Some?
    requires DefaultOf(mappings[key].default, call).value != Null
    ensures ResolveAsWritten(mappings, values, key, call) == Ok(Resolution(Null, values))
    ensures Resolve(mappings, values, key, call).Ok?
    ensures Resolve(mappings, values, key, call).value.value == DefaultOf(mappings[key].default, call).value
    ensures key in Resolve(mappings, values, key, call).value.values
  {
  }

  /** The arguments resolved so far and the record after their write-backs. */
  datatype Bound = Bound(args: seq<Value>, values: map<string, Value>)

  /**
   * `list(map(self.getValueOrDefault, cols))`: each column resolved in
   * order, each on the record the previous ones left behind.
   */
  function ResolveAll(mappings: map<string, Field>, values: map<string, Value>, cols: seq<string>, call: nat -> Value): (r: Result<Bound>)
    ensures r.Ok? ==> |r.value.args| == |cols|
    ensures r.Ok? ==> AgreeExcept(r.value.values, values, set c | c in cols)
    ensures (forall i :: 0 <= i < |cols| ==> cols[i] in mappings) ==> r.Ok?
  {
    if cols == [] then Ok(Bound([], values))
    else
      match ResolveAll(mappings, values, cols[..|cols| - 1], call)
      case Err(e) => Err(e)
      case Ok(b) =>
        match Resolve(mappings, b.values, cols[|cols| - 1], call)
        case Err(e) => Err(e)
        case Ok(x) => Ok(Bound(b.args + [x.value], x.values))
  }

  /** Resolving a key depends on the record only through that key. */
  lemma ResolveLocal(mappings: map<string, Field>, a: map<string, Value>, b: map<string, Value>, key: string, call: nat -> Value)
    requires ValueOf(a, key) == ValueOf(b, key)
    ensures Resolve(mappings, a, key, call).Ok? <==> Resolve(mappings, b, key, call).Ok?
    ensures Resolve(mappings, a, key, call).Ok? ==>
      Resolve(mappings, a, key, call).value.value == Resolve(mappings, b, key, call).value.value
  {
  }

  /** One more column resolved on the record the earlier ones left behind. */
  lemma ResolveAllStep(mappings: map<string, Field>, values: map<string, Value>, cols: seq<string>, i: nat,
                       call: nat -> Value, b: Bound, x: Resolution)
    requires i < |cols|
    requires ResolveAll(mappings, values, cols[..i], call) == Ok(b)
    requires Resolve(mappings, b.values, cols[i], call) == Ok(x)
    ensures ResolveAll(mappings, values, cols[..i + 1], call) == Ok(Bound(b.args + [x.value], x.values))
  {
    assert cols[..i + 1][..i] == cols[..i];
  }

  /**
   * Over distinct columns, the i-th bound argument is exactly what
   * resolving the i-th column alone on the original record gives, and the
   * record ends up holding every bound argument under its column.
   */
  lemma {:induction false} ResolveAllInOrder(mappings: map<string, Field>, values: map<string, Value>, cols: seq<string>, call: nat -> Value)
    requires forall i :: 0 <= i < |cols| ==> cols[i] in mappings
    requires forall i, j :: 0 <= i < j < |cols| ==> cols[i] != cols[j]
    ensures ResolveAll(mappings, values, cols, call).Ok?
    ensures forall i :: 0 <= i < |cols| ==>
      ResolveAll(mappings, values, cols, call).value.args[i] == Resolve(mappings, values, cols[i], call).value.value
    ensures forall i :: 0 <= i < |cols| ==>
      ValueOf(ResolveAll(mappings, values, cols, call).value.values, cols[i]) == ResolveAll(mappings, values, cols, call).value.args[i]
  {
    if cols != [] {
      var init := cols[..|cols| - 1];
      var last := cols[|cols| - 1];
      ResolveAllInOrder(mappings, values, init, call);
      var b := ResolveAll(mappings, values, init, call).value;
      assert last !in init;
      assert ValueOf(b.values, last) == ValueOf(values, last);
      ResolveLocal(mappings, b.values, values, last, call);
      var x := Resolve(mappings, b.values, last, call).value;
      var r := ResolveAll(mappings, values, cols, call).value;
      assert r == Bound(b.args + [x.value], x.values);
      forall i | 0 <= i < |cols|
        ensures r.args[i] == Resolve(mappings, values, cols[i], call).value.value
        ensures ValueOf(r.values, cols[i]) == r.args[i]
      {
        if i < |init| {
          assert cols[i] == init[i] && cols[i] != last;
          assert r.args[i] == b.args[i];
          assert ValueOf(r.values, cols[i]) == ValueOf(b.values, cols[i]);
        } else {
          assert cols[i] == last && r.args[i] == x.value;
        }
      }
    }
  }

  /** When every column is already set, resolution returns the stored values and writes nothing. */
  lemma {:induction false} ResolveAllSet(mappings: map<string, Field>, values: map<string, Value>, cols: seq<string>, call: nat -> Value)
    requires forall i :: 0 <= i < |cols| ==> ValueOf(values, cols[i]) != Null
    ensures ResolveAll(mappings, values, cols, call) == Ok(Bound(Bind(values, cols), values))
  {
    if cols != [] {
      var init, last := cols[..|cols| - 1], cols[|cols| - 1];
      assert forall i :: 0 <= i < |init| ==> init[i] == cols[i];
      ResolveAllSet(mappings, values, init, call);
      assert Resolve(mappings, values, last, call) == Ok(Resolution(values[last], values));
      assert Bind(values, cols) == Bind(values, init) + [ValueOf(values, last)];
    }
  }

  /** `list(map(self.getValue, cols))` */
  function Bind(values: map<string, Value>, cols: seq<string>): seq<Value>
  {
    seq(|cols|, i requires 0 <= i < |cols| => ValueOf(values, cols[i]))
  }

  /** The bound columns of a well-formed table are distinct declared fields. */
  lemma BoundColumnsDeclared(meta: TableMeta)
    requires WellFormed(meta)
    ensures forall i :: 0 <= i < |BoundColumns(meta)| ==> BoundColumns(meta)[i] in meta.mappings
    ensures forall i, j :: 0 <= i < j < |BoundColumns(meta)| ==> BoundColumns(meta)[i] != BoundColumns(meta)[j]
  {
    var cols := BoundColumns(meta);
    forall i, j | 0 <= i < j < |cols|
      ensures cols[i] != cols[j]
    {
      if j == |cols| - 1 {
        assert cols[i] == meta.fields[i];
        assert !meta.mappings[cols[i]].primaryKey;
      }
    }
  }

  // ---------------------------------------------------------------- statements

  /** `'%s where `%s`=?' % (cls.__select__, cls.__primary_key__)`: the lookup `find` runs. */
  function FindSql(meta: TableMeta): string
  {
    meta.select + " where " + Quote(meta.primaryKey) + "=?"
  }

  /** The statement `findNumber` runs: an unquoted table name, and `where` only when it is truthy. */
  function NumberSql(table: string, selFields: string, where: string): string
  {
    Join(["select " + selFields + " _num_ from " + table] + (if where != "" then ["where", where] else []), " ")
  }

  /**
   * A `limit` keyword argument: None and other scalars, or a tuple.
   * `isinstance(limit, int)` holds for ints and for bools.
   */
  datatype Limit = Scalar(v: Value) | Tuple(items: seq<Value>)

  /** The words the limit adds to the statement and the arguments it appends, or ValueError. */
  function LimitPart(limit: Limit): (r: Result<(seq<string>, seq<Value>)>)
    ensures limit == Scalar(Null) ==> r == Ok(([], []))
    ensures r.Err? <==> limit != Scalar(Null) && !(limit.Scalar? && (limit.v.Int? || limit.v.Bool?)) && !(limit.Tuple? && |limit.items| == 2)
    ensures r.Ok? && limit.Scalar? && limit != Scalar(Null) ==> r.value == (["limit", "?"], [limit.v])
    ensures r.Ok? && limit.Tuple? ==> r.value == (["limit", "?, ?"], limit.items)
  {
    match limit
    case Scalar(v) =>
      if v == Null then Ok(([], []))
      else if v.Int? || v.Bool? then Ok((["limit", "?"], [v]))
      else Err(ValueError("Invalide limit value"))
    case Tuple(items) =>
      if |items| == 2 then Ok((["limit", "?, ?"], items))
      else Err(ValueError("Invalide limit value"))
  }

  /** The clauses `findAll` joins with spaces: the SELECT template, then where, order by and limit. */
  function FindAllClauses(select: string, where: Option<string>, orderBy: string, limit: Limit): (r: Result<seq<string>>)
    ensures r.Ok? <==> LimitPart(limit).Ok?
    ensures r.Ok? ==> |r.value| >= 1 && r.value[0] == select
    ensures r.Ok? ==> |r.value| == 1 + (if where.Some? then 2 else 0) + (if orderBy != "" then 2 else 0) + |LimitPart(limit).value.0|
    ensures r.Ok? && where.Some? ==> r.value[1..3] == ["where", where.value]
    ensures r.Ok? && limit != Scalar(Null) ==> r.value[|r.value| - 2] == "limit"
  {
    match LimitPart(limit)
    case Err(e) => Err(e)
    case Ok(l) =>
      Ok([select]
        + (if where.Some? then ["where", where.value] else [])
        + (if orderBy != "" then ["order by", orderBy] else [])
        + l.0)
  }

  /** The occurrences of `c` summed over the parts, one part after another. */
  function CountAll(c: char, parts: seq<string>): nat
  {
    if parts == [] then 0 else CountAll(c, parts[..|parts| - 1]) + Count(c, parts[|parts| - 1])
  }

  lemma {:induction false} CountJoin(c: char, parts: seq<string>, sep: string)
    requires Count(c, sep) == 0
    ensures Count(c, Join(parts, sep)) == CountAll(c, parts)
  {
    if |parts| > 1 {
      var init := parts[..|parts| - 1];
      var last := parts[|parts| - 1];
      CountJoin(c, init, sep);
      assert parts == init + [last];
      JoinSnoc(init, last, sep);
      Count3(c, Join(init, sep), sep, last);
    } else if |parts| == 1 {
      assert parts[..0] == [];
    }
  }

  lemma {:induction false} CountAllAppend(c: char, a: seq<string>, b: seq<string>)
    ensures CountAll(c, a + b) == CountAll(c, a) + CountAll(c, b)
  {
    if b != [] {
      CountAllAppend(c, a, b[..|b| - 1]);
      assert (a + b)[..|a + b| - 1] == a + b[..|b| - 1];
    } else {
      assert a + b == a;
    }
  }

  lemma CountAllPair(c: char, x: string, y: string)
    ensures CountAll(c, [x, y]) == Count(c, x) + Count(c, y)
  {
    assert [x, y][..1] == [x] && [x][..0] == [];
    assert CountAll(c, [x]) == Count(c, x);
  }

  /**
   * The statement `findAll` runs holds one placeholder per argument it
   * binds, provided the caller's `where` holds one per caller argument
   * and the names hold none.
   */
  lemma FindAllPlaceholders(meta: TableMeta, where: Option<string>, callerArgs: seq<Value>, orderBy: string, limit: Limit)
    requires WellFormed(meta) && PlainNames(meta)
    requires where.Some? ==> Count('?', where.value) == |callerArgs|
    requires where.None? ==> callerArgs == []
    requires Free('?', orderBy)
    requires LimitPart(limit).Ok?
    ensures Count('?', Join(FindAllClauses(meta.select, where, orderBy, limit).value, " ")) == |callerArgs + LimitPart(limit).value.1|
  {
    SelectPlaceholders(meta);
    ClausesPlaceholders(meta.select, where, callerArgs, orderBy, limit);
  }

  lemma ClausesPlaceholders(select: string, where: Option<string>, callerArgs: seq<Value>, orderBy: string, limit: Limit)
    requires Count('?', select) == 0
    requires where.Some? ==> Count('?', where.value) == |callerArgs|
    requires where.None? ==> callerArgs == []
    requires Free('?', orderBy)
    requires LimitPart(limit).Ok?
    ensures Count('?', Join(FindAllClauses(select, where, orderBy, limit).value, " ")) == |callerArgs + LimitPart(limit).value.1|
  {
    var l := LimitPart(limit).value;
    var s: seq<string> := [select];
    var w: seq<string> := if where.Some? then ["where", where.value] else [];
    var o: seq<string> := if orderBy != "" then ["order by", orderBy] else [];
    var parts := FindAllClauses(select, where, orderBy, limit).value;
    assert parts == s + w + o + l.0;
    assert Count('?', Join(parts, " ")) == CountAll('?', parts) by {
      FreeCount('?', " ");
      CountJoin('?', parts, " ");
    }
    assert CountAll('?', s) == 0 by {
      assert s[..0] == [];
    }
    WherePlaceholders(where, callerArgs);
    OrderByPlaceholders(orderBy);
    LimitPlaceholders(limit);
    CountAll4('?', s, w, o, l.0);
  }

  /** The where clause brings the caller's placeholders and no other. */
  lemma WherePlaceholders(where: Option<string>, callerArgs: seq<Value>)
    requires where.Some? ==> Count('?', where.value) == |callerArgs|
    requires where.None? ==> callerArgs == []
    ensures CountAll('?', if where.Some? then ["where", where.value] else []) == |callerArgs|
  {
    if where.Some? {
      FreeCount('?', "where");
      CountAllPair('?', "where", where.value);
    }
  }

  /** The order-by clause brings no placeholder. */
  lemma OrderByPlaceholders(orderBy: string)
    requires Free('?', orderBy)
    ensures CountAll('?', if orderBy != "" then ["order by", orderBy] else []) == 0
  {
    if orderBy != "" {
      FreeCount('?', orderBy);
      FreeCount('?', "order by");
      CountAllPair('?', "order by", orderBy);
    }
  }

  lemma CountAll4(c: char, a: seq<string>, b: seq<string>, d: seq<string>, e: seq<string>)
    ensures CountAll(c, a + b + d + e) == CountAll(c, a) + CountAll(c, b) + CountAll(c, d) + CountAll(c, e)
  {
    CountAllAppend(c, a + b + d, e);
    CountAllAppend(c, a + b, d);
    CountAllAppend(c, a, b);
  }

  /** The limit clause holds one placeholder per argument it appends. */
  lemma LimitPlaceholders(limit: Limit)
    requires LimitPart(limit).Ok?
    ensures CountAll('?', LimitPart(limit).value.0) == |LimitPart(limit).value.1|
  {
    if limit.Tuple? {
      assert Count('?', "limit") == 0;
      assert Count('?', "?, ?") == 2;
      CountAllPair('?', "limit", "?, ?");
    } else if limit != Scalar(Null) {
      assert Count('?', "limit") == 0;
      assert Count('?', "?") == 1;
      CountAllPair('?', "limit", "?");
    }
  }

  /** The lookup `find` runs binds exactly its one argument, the key. */
  lemma FindPlaceholder(meta: TableMeta)
    requires WellFormed(meta) && PlainNames(meta)
    ensures Count('?', FindSql(meta)) == 1
  {
    SelectPlaceholders(meta);
    QuoteCount(meta.primaryKey);
    var a := meta.select + " where " + Quote(meta.primaryKey);
    assert Count('?', a) == 0 by {
      FreeCount('?', " where ");
      Count3('?', meta.select, " where ", Quote(meta.primaryKey));
    }
    CountAppend('?', a, "=?");
  }

  /** `save` and `update` bind one argument per placeholder of their template, in the template's column order. */
  lemma WritesBindEveryPlaceholder(meta: TableMeta, values: map<string, Value>, call: nat -> Value)
    requires WellFormed(meta) && PlainNames(meta)
    ensures ResolveAll(meta.mappings, values, BoundColumns(meta), call).Ok?
    ensures |ResolveAll(meta.mappings, values, BoundColumns(meta), call).value.args| == Count('?', meta.insert)
    ensures |Bind(values, BoundColumns(meta))| == Count('?', meta.update)
    ensures |[ValueOf(values, meta.primaryKey)]| == Count('?', meta.delete)
  {
    BoundColumnsDeclared(meta);
    InsertPlaceholders(meta);
    UpdatePlaceholders(meta);
    DeletePlaceholders(meta);
  }

  // ---------------------------------------------------------------- records

  /** A `Model` instance: a dictionary of column values of one registered class. */
  class Instance {
    const meta: TableMeta               // the class-level attributes the metaclass set
    var values: map<string, Value>      // the dictionary itself

    /** `cls(**kw)` */
    constructor (meta: TableMeta, kw: map<string, Value>)
      ensures this.meta == meta && values == kw
    {
      this.meta := meta;
      values := kw;
    }

    /** `self.key` (`__getattr__`): the stored value, or AttributeError. */
    function GetAttr(key: string): (r: Result<Value>)
      reads this
      ensures r.Ok? <==> key in values
      ensures r.Ok? ==> r.value == values[key]
      ensures r.Err? ==> r.error == AttributeError(key)
    {
      if key in values then Ok(values[key]) else Err(AttributeError(key))
    }

    /** `getValue(key)` is `getattr(self, key, None)`: the attribute, or None where reading it would raise. */
    function GetValue(key: string): (r: Value)
      reads this
      ensures GetAttr(key).Ok? ==> r == GetAttr(key).value
      ensures GetAttr(key).Err? ==> r == Null
    {
      ValueOf(values, key)
    }

    /** `self.key = value` (`__setattr__`): stores the key and changes nothing else. */
    method SetAttr(key: string, value: Value)
      modifies this
      ensures GetAttr(key) == Ok(value)
      ensures forall k :: k != key ==> GetAttr(k) == old(GetAttr(k))
      ensures values == old(values)[key := value]
    {
      values := values[key := value];
    }

    /** `getValueOrDefault(key)`, as evidently intended. */
    method GetValueOrDefault(key: string, call: nat -> Value) returns (r: Result<Value>)
      modifies this
      ensures var res := Resolve(meta.mappings, old(values), key, call);
        && (res.Err? ==> r == Err(res.error) && values == old(values))
        && (res.Ok? ==> r == Ok(res.value.value) && values == res.value.values)
    {
      var value := GetValue(key);
      if value == Null {
        if key !in meta.mappings {
          return Err(KeyError(key));
        }
        var d := DefaultOf(meta.mappings[key].default, call);
        if d.Some? {
          value := d.value;
          SetAttr(key, value);
        }
      }
      return Ok(value);
    }

    /**
     * `save()`: resolves the non-key fields in order, then the key, and
     * runs the INSERT template in autocommit mode. A row count other than
     * 1 only logs a warning: the result is that flag, or the driver's error.
     */
    method Save(con: Connection, call: nat -> Value, effect: Effect) returns (r: Result<bool>)
      requires WellFormed(meta)
      modifies this, con
      ensures var b := ResolveAll(meta.mappings, old(values), BoundColumns(meta), call);
        && b.Ok?
        && values == b.value.values
        && con.log == old(con.log) + [Execute(ToDriver(meta.insert), b.value.args)]
      ensures con.store == effect.after && con.snapshot == old(con.snapshot)
      ensures r == if effect.Affected? then Ok(effect.rowcount != 1) else Err(effect.error)
    {
      var cols := BoundColumns(meta);
      BoundColumnsDeclared(meta);
      var args: seq<Value> := [];
      for i := 0 to |cols|
        invariant ResolveAll(meta.mappings, old(values), cols[..i], call) == Ok(Bound(args, values))
        invariant unchanged(con)
      {
        ghost var before := Bound(args, values);
        var v := GetValueOrDefault(cols[i], call);
        args := args + [v.value];
        ResolveAllStep(meta.mappings, old(values), cols, i, call, before, Resolution(v.value, values));
      }
      assert cols[..|cols|] == cols;
      var rows := ExecuteWrap(con, meta.insert, args, true, effect, Accepted);
      if rows.Err? {
        return Err(rows.error);
      }
      return Ok(rows.value != 1);
    }

    /** `update()`: binds the stored non-key fields, then the key, to the UPDATE template. Nothing is resolved or written back. */
    method Update(con: Connection, effect: Effect) returns (r: Result<bool>)
      modifies con
      ensures con.log == old(con.log) + [Execute(ToDriver(meta.update), Bind(values, BoundColumns(meta)))]
      ensures con.store == effect.after && con.snapshot == old(con.snapshot)
      ensures r == if effect.Affected? then Ok(effect.rowcount != 1) else Err(effect.error)
    {
      var args := Bind(values, BoundColumns(meta));
      var rows := ExecuteWrap(con, meta.update, args, true, effect, Accepted);
      if rows.Err? {
        return Err(rows.error);
      }
      return Ok(rows.value != 1);
    }

    /** `remove()`: binds the key's value to the DELETE template. */
    method Remove(con: Connection, effect: Effect) returns (r: Result<bool>)
      modifies con
      ensures con.log == old(con.log) + [Execute(ToDriver(meta.delete), [GetValue(meta.primaryKey)])]
      ensures con.store == effect.after && con.snapshot == old(con.snapshot)
      ensures r == if effect.Affected? then Ok(effect.rowcount != 1) else Err(effect.error)
    {
      var rows := ExecuteWrap(con, meta.delete, [GetValue(meta.primaryKey)], true, effect, Accepted);
      if rows.Err? {
        return Err(rows.error);
      }
      return Ok(rows.value != 1);
    }
  }

  /** A caller's argument list, which `findAll` extends in place. */
  class ArgList {
    var items: seq<Value>

    constructor (items: seq<Value>)
      ensures this.items == items
    {
      this.items := items;
    }
  }

  /**
   * Lines 169-190 of `findAll`, clause by clause: the words of the
   * statement and the arguments the limit appends, or ValueError.
   */
  method ComposeFindAll(select: string, where: Option<string>, orderBy: string, limit: Limit)
    returns (sql: Result<seq<string>>, extra: seq<Value>)
    ensures sql == FindAllClauses(select, where, orderBy, limit)
    ensures sql.Ok? ==> extra == LimitPart(limit).value.1
  {
    var words := [select];
    if where.Some? {
      words := words + ["where", where.value];
    }
    extra := [];
    if orderBy != "" {
      words := words + ["order by", orderBy];
    }
    ghost var head := words;
    assert head == [select] + (if where.Some? then ["where", where.value] else []) + (if orderBy != "" then ["order by", orderBy] else []);
    if limit != Scalar(Null) {
      words := words + ["limit"];
      if limit.Scalar? && (limit.v.Int? || limit.v.Bool?) {
        words := words + ["?"];
        extra := [limit.v];
      } else if limit.Tuple? && |limit.items| == 2 {
        words := words + ["?, ?"];
        extra := limit.items;
      } else {
        return Err(ValueError("Invalide limit value")), [];
      }
    }
    assert words == head + LimitPart(limit).value.0;
    return Ok(words), extra;
  }

  /**
   * `findAll(where, args, orderBy=..., limit=...)`: composes the
   * statement, appends the limit's arguments to the caller's list (or to
   * a fresh one when `args` is None), and returns one instance per row.
   * An unusable limit raises ValueError before anything is appended or
   * run; a driver error on the SELECT (`failure`) propagates after the
   * arguments were appended.
   */
  method FindAll(meta: TableMeta, where: Option<string>, args: ArgList?, orderBy: string, limit: Limit,
                 con: Connection, available: seq<Row>, failure: Option<Error>)
    returns (r: Result<seq<Instance>>)
    modifies con, args
    ensures var clauses := FindAllClauses(meta.select, where, orderBy, limit);
      && (clauses.Err? ==>
            r == Err(clauses.error) && con.log == old(con.log) && (args != null ==> args.items == old(args.items)))
      && (clauses.Ok? ==>
            var bound := (if args != null then old(args.items) else []) + LimitPart(limit).value.1;
            && (args != null ==> args.items == bound)
            && con.log == old(con.log) + [Execute(ToDriver(Join(clauses.value, " ")), bound)]
            && (failure.Some? ==> r == Err(failure.value))
            && (failure.None? ==>
                 && r.Ok? && |r.value| == |available|
                 && forall i :: 0 <= i < |available| ==>
                      fresh(r.value[i]) && r.value[i].meta == meta && r.value[i].values == available[i]))
    ensures con.store == old(con.store) && con.snapshot == old(con.snapshot)
  {
    var sql, extra := ComposeFindAll(meta.select, where, orderBy, limit);
    if sql.Err? {
      return Err(sql.error);
    }
    var bound := (if args != null then args.items else []) + extra;
    if args != null && limit != Scalar(Null) {
      args.items := bound;
    }
    var rs := SelectWrap(con, Join(sql.value, " "), bound, 0, available, failure);
    if rs.Err? {
      return Err(rs.error);
    }
    var found := Instances(meta, rs.value);
    return Ok(found);
  }

  /** `[cls(**r) for r in rs]`: one new instance per row, in row order. */
  method Instances(meta: TableMeta, rs: seq<Row>) returns (found: seq<Instance>)
    ensures |found| == |rs|
    ensures forall i :: 0 <= i < |rs| ==> fresh(found[i]) && found[i].meta == meta && found[i].values == rs[i]
  {
    found := [];
    for i := 0 to |rs|
      invariant |found| == i
      invariant forall j :: 0 <= j < i ==> fresh(found[j]) && found[j].meta == meta && found[j].values == rs[j]
    {
      var inst := new Instance(meta, rs[i]);
      found := found + [inst];
    }
  }

  /**
   * `findNumber(selFields, where, args)`: the `_num_` column of the first
   * row, None when there is no row, KeyError when the row lacks it; a
   * driver error on the SELECT (`failure`) propagates.
   */
  method FindNumber(meta: TableMeta, selFields: string, where: string, args: seq<Value>,
                    con: Connection, available: seq<Row>, failure: Option<Error>)
    returns (r: Result<Option<Value>>)
    modifies con
    ensures failure.Some? ==> r == Err(failure.value)
    ensures failure.None? ==> (r == Ok(None) <==> available == [])
    ensures failure.None? ==> (r.Err? <==> available != [] && "_num_" !in available[0])
    ensures failure.None? && r.Err? ==> r.error == KeyError("_num_")
    ensures r.Ok? && r.value.Some? ==> r.value.value == available[0]["_num_"]
    ensures con.log == old(con.log) + [Execute(ToDriver(NumberSql(meta.table, selFields, where)), args)]
    ensures con.store == old(con.store) && con.snapshot == old(con.snapshot)
  {
    var rs := SelectWrap(con, NumberSql(meta.table, selFields, where), args, 1, available, failure);
    if rs.Err? {
      return Err(rs.error);
    }
    if |rs.value| == 0 {
      return Ok(None);
    }
    if "_num_" !in rs.value[0] {
      return Err(KeyError("_num_"));
    }
    return Ok(Some(rs.value[0]["_num_"]));
  }

  /**
   * `find(pk)`: the instance built from the first row with that key, None
   * when there is none; a driver error on the SELECT (`failure`) propagates.
   */
  method Find(meta: TableMeta, pk: Value, con: Connection, available: seq<Row>, failure: Option<Error>)
    returns (r: Result<Option<Instance>>)
    modifies con
    ensures failure.Some? ==> r == Err(failure.value)
    ensures failure.None? ==> r.Ok? && (r.value.None? <==> available == [])
    ensures r.Ok? && r.value.Some? ==> fresh(r.value.value) && r.value.value.meta == meta && r.value.value.values == available[0]
    ensures con.log == old(con.log) + [Execute(ToDriver(FindSql(meta)), [pk])]
    ensures con.store == old(con.store) && con.snapshot == old(con.snapshot)
  {
    var rs := SelectWrap(con, FindSql(meta), [pk], 1, available, failure);
    if rs.Err? {
      return Err(rs.error);
    }
    if |rs.value| == 0 {
      return Ok(None);
    }
    var inst := new Instance(meta, rs.value[0]);
    return Ok(Some(inst));
  }
}
