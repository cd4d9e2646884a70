/**
 * Schema registration of the ORM (www/orm.py): column descriptors,
 * the metaclass that splits a model's declared fields into one primary
 * key and an ordered list of other columns, and the four SQL templates
 * it precomputes with `?` placeholders.
 *
 * Deviations from the text of www/orm.py, modelled as evidently intended:
 *  - line 114 tests `isinstance(k, Field)` on the attribute NAME; the
 *    model tests the attribute VALUE (as written no field would ever be
 *    found and every model would fail with "Primary key not found");
 *  - lines 119 and 124 raise `StandardError`, which Python 3 does not
 *    define; the model raises the error the message describes;
 *  - lines 130-133 (and 134-137) use bare names `__mappings__`,
 *    `__table__`, ... as dictionary keys; the model stores the values
 *    under those attribute names, as the fields of TableMeta;
 *  - line 136 reads `mapping` where `mappings` is meant;
 *  - lines 74, 79, 84, 89 and 94 call `super.__init__` on the unbound
 *    builtin `super`, which raises TypeError, so as written no field
 *    subclass can be built and no model class defined; the model builds
 *    the Field that `super().__init__` evidently means.
 */
module Schema {
  import opened Values
  import opened Strings

  /** A field's default: absent (None), a literal, or a zero-argument callable. */
  datatype Default = NoDefault | Literal(v: Value) | Generator(id: nat)

  /** `Field(name, column_type, primary_key, default)` */
  datatype Field = Field(name: Option<string>, columnType: string, primaryKey: bool, default: Default)

  // The Field subclasses fix the column type tag (StringField takes it as
  // `ddl`), and BooleanField and TextField are never a primary key.
  function StringField(name: Option<string>, primaryKey: bool, default: Default, ddl: string): Field
  {
    Field(name, ddl, primaryKey, default)
  }

  function BooleanField(name: Option<string>, default: Default): Field
  {
    Field(name, "boolean", false, default)
  }

  function IntegerField(name: Option<string>, primaryKey: bool, default: Default): Field
  {
    Field(name, "bigint", primaryKey, default)
  }

  function FloatField(name: Option<string>, primaryKey: bool, default: Default): Field
  {
    Field(name, "real", primaryKey, default)
  }

  function TextField(name: Option<string>, default: Default): Field
  {
    Field(name, "text", false, default)
  }

  /**
   * Every field subclass keeps the name and default it is given; only
   * StringField, IntegerField and FloatField can hold the primary key;
   * the fixed column types tell the four other subclasses apart.
   */
  lemma FieldSubclasses(name: Option<string>, primaryKey: bool, default: Default, ddl: string)
    ensures var fs := [StringField(name, primaryKey, default, ddl), BooleanField(name, default),
                       IntegerField(name, primaryKey, default), FloatField(name, primaryKey, default), TextField(name, default)];
      forall i :: 0 <= i < |fs| ==> fs[i].name == name && fs[i].default == default
    ensures StringField(name, primaryKey, default, ddl).primaryKey == primaryKey
    ensures IntegerField(name, primaryKey, default).primaryKey == primaryKey
    ensures FloatField(name, primaryKey, default).primaryKey == primaryKey
    ensures !BooleanField(name, default).primaryKey && !TextField(name, default).primaryKey
    ensures StringField(name, primaryKey, default, ddl).columnType == ddl
    ensures var tags := [BooleanField(name, default).columnType, IntegerField(name, primaryKey, default).columnType,
                         FloatField(name, primaryKey, default).columnType, TextField(name, default).columnType];
      forall i, j :: 0 <= i < j < |tags| ==> tags[i] != tags[j]
  {
  }

  /** A class attribute as the metaclass sees it. */
  datatype Attr = FieldAttr(field: Field) | StrAttr(s: string) | OtherAttr

  /** A class body: attribute names with their values, in declaration order. */
  type Attrs = seq<(string, Attr)>

  /** The attribute names of a class body are distinct: it is a dictionary. */
  predicate DistinctNames(attrs: Attrs)
  {
    forall i, j :: 0 <= i < j < |attrs| ==> attrs[i].0 != attrs[j].0
  }

  function Names(attrs: Attrs): (r: seq<string>)
    ensures |r| == |attrs| && forall i :: 0 <= i < |attrs| ==> r[i] == attrs[i].0
  {
    seq(|attrs|, i requires 0 <= i < |attrs| => attrs[i].0)
  }

  /** Names of the primary-key fields, in declaration order. */
  function KeyNames(attrs: Attrs): seq<string>
  {
    if attrs == [] then []
    else
      var last := attrs[|attrs| - 1];
      KeyNames(attrs[..|attrs| - 1]) +
        (if last.1.FieldAttr? && last.1.field.primaryKey then [last.0] else [])
  }

  /** Names of the other fields, in declaration order. */
  function NonKeyNames(attrs: Attrs): seq<string>
  {
    if attrs == [] then []
    else
      var last := attrs[|attrs| - 1];
      NonKeyNames(attrs[..|attrs| - 1]) +
        (if last.1.FieldAttr? && !last.1.field.primaryKey then [last.0] else [])
  }

  /** `mappings`: every field by attribute name. */
  function FieldMap(attrs: Attrs): map<string, Field>
  {
    if attrs == [] then map[]
    else
      var last := attrs[|attrs| - 1];
      var m := FieldMap(attrs[..|attrs| - 1]);
      if last.1.FieldAttr? then m[last.0 := last.1.field] else m
  }

  /** The attributes left on the class once the fields are popped. */
  function OtherAttrs(attrs: Attrs): Attrs
  {
    if attrs == [] then []
    else
      var last := attrs[|attrs| - 1];
      OtherAttrs(attrs[..|attrs| - 1]) + (if last.1.FieldAttr? then [] else [last])
  }

  /** `attrs.get(key, None)` */
  function Lookup(attrs: Attrs, key: string): Option<Attr>
  {
    if attrs == [] then None
    else if attrs[0].0 == key then Some(attrs[0].1)
    else Lookup(attrs[1..], key)
  }

  /** `attrs.get('__table__', None) or name`; a `__table__` that is not a string is not modelled. */
  function TableName(name: string, attrs: Attrs): string
  {
    match Lookup(attrs, "__table__")
    case Some(StrAttr(s)) => if s != "" then s else name
    case _ => name
  }

  // ---------------------------------------------------------------- templates

  function Quote(s: string): string
  {
    "`" + s + "`"
  }

  /** `list(map(lambda f: '`%s`' % f, fields))` */
  function Quoted(names: seq<string>): (r: seq<string>)
    ensures |r| == |names| && forall i :: 0 <= i < |names| ==> r[i] == Quote(names[i])
  {
    seq(|names|, i requires 0 <= i < |names| => Quote(names[i]))
  }

  /** The text `create_args_str(n)` returns: n `?` tokens joined by ", ". */
  function ArgsStr(n: nat): string
  {
    Join(Repeat("?", n), ", ")
  }

  /** The column an UPDATE assigns for field `f`: the field's own name, or else the attribute name. */
  function ColumnName(mappings: map<string, Field>, f: string): string
  {
    if f in mappings && mappings[f].name.Some? && mappings[f].name.value != "" then mappings[f].name.value else f
  }

  function Assignments(mappings: map<string, Field>, fields: seq<string>): (r: seq<string>)
    ensures |r| == |fields| && forall i :: 0 <= i < |fields| ==> r[i] == Quote(ColumnName(mappings, fields[i])) + "=?"
  {
    seq(|fields|, i requires 0 <= i < |fields| => Quote(ColumnName(mappings, fields[i])) + "=?")
  }

  function SelectSql(table: string, pk: string, fields: seq<string>): string
  {
    "select " + Quote(pk) + ", " + Join(Quoted(fields), ", ") + " from " + Quote(table)
  }

  function InsertSql(table: string, pk: string, fields: seq<string>): string
  {
    "insert into " + Quote(table) + " (" + Join(Quoted(fields), ", ") + ", " + Quote(pk) + ") values (" + ArgsStr(|fields| + 1) + ")"
  }

  function UpdateSql(table: string, pk: string, fields: seq<string>, mappings: map<string, Field>): string
  {
    "update " + Quote(table) + " set " + Join(Assignments(mappings, fields), ", ") + " where " + Quote(pk) + "=?"
  }

  function DeleteSql(table: string, pk: string): string
  {
    "delete from " + Quote(table) + " where " + Quote(pk) + "=?"
  }

  /** What the metaclass stores on a registered model class. */
  datatype TableMeta = TableMeta(
    mappings: map<string, Field>,
    table: string,
    primaryKey: string,
    fields: seq<string>,
    select: string,
    insert: string,
    update: string,
    delete: string)

  /** The columns that INSERT lists and that `save` and `update` bind, in order: the other fields, then the key. */
  function BoundColumns(meta: TableMeta): seq<string>
  {
    meta.fields + [meta.primaryKey]
  }

  /** The key is the one primary-key field, every other field is listed once, and the templates are built from them. */
  ghost predicate WellFormed(meta: TableMeta)
  {
    && meta.primaryKey in meta.mappings
    && meta.mappings[meta.primaryKey].primaryKey
    && (forall i :: 0 <= i < |meta.fields| ==>
          meta.fields[i] in meta.mappings && !meta.mappings[meta.fields[i]].primaryKey)
    && (forall i, j :: 0 <= i < j < |meta.fields| ==> meta.fields[i] != meta.fields[j])
    && (forall k :: k in meta.mappings ==> k == meta.primaryKey || k in meta.fields)
    && meta.select == SelectSql(meta.table, meta.primaryKey, meta.fields)
    && meta.insert == InsertSql(meta.table, meta.primaryKey, meta.fields)
    && meta.update == UpdateSql(meta.table, meta.primaryKey, meta.fields, meta.mappings)
    && meta.delete == DeleteSql(meta.table, meta.primaryKey)
  }

  /** The outcome of `ModelMetaclass.__new__`. */
  datatype Registration =
    | Base                                                // the class named Model itself
    | Registered(meta: TableMeta, classAttrs: Attrs)
    | Failed(error: Error)

  // ---------------------------------------------------------------- operations

  /** `create_args_str(num)` */
  method CreateArgsStr(num: nat) returns (s: string)
    ensures s == Join(Repeat("?", num), ", ")
  {
    var tl: seq<string> := [];
    for i := 0 to num
      invariant tl == Repeat("?", i)
    {
      tl := tl + ["?"];
    }
    s := Join(tl, ", ");
  }

  /** The metadata of a class with key `pk`, other fields `fields` and field map `mappings`. */
  function MetaOf(table: string, pk: string, fields: seq<string>, mappings: map<string, Field>): TableMeta
  {
    TableMeta(mappings, table, pk, fields,
      SelectSql(table, pk, fields), InsertSql(table, pk, fields),
      UpdateSql(table, pk, fields, mappings), DeleteSql(table, pk))
  }

  /** `ModelMetaclass.__new__(cls, name, base, attrs)` */
  method Register(name: string, attrs: Attrs) returns (r: Registration)
    requires DistinctNames(attrs)
    ensures name == "Model" ==> r == Base
    ensures name != "Model" && KeyNames(attrs) == [] ==> r == Failed(PrimaryKeyNotFound)
    ensures name != "Model" && |KeyNames(attrs)| >= 2 ==> r == Failed(DuplicatePrimaryKey(KeyNames(attrs)[1]))
    ensures r.Registered? <==> name != "Model" && |KeyNames(attrs)| == 1
    ensures r.Registered? ==>
      && WellFormed(r.meta)
      && r.meta == MetaOf(TableName(name, attrs), KeyNames(attrs)[0], NonKeyNames(attrs), FieldMap(attrs))
      && r.classAttrs == OtherAttrs(attrs)
  {
    if name == "Model" {
      return Base;
    }
    var tablename := TableName(name, attrs);
    var mappings: map<string, Field> := map[];
    var fields: seq<string> := [];
    var primaryKey: Option<string> := None;
    var i := 0;
    while i < |attrs|
      invariant 0 <= i <= |attrs|
      invariant mappings == FieldMap(attrs[..i])
      invariant fields == NonKeyNames(attrs[..i])
      invariant |KeyNames(attrs[..i])| <= 1
      invariant primaryKey == (if KeyNames(attrs[..i]) == [] then None else Some(KeyNames(attrs[..i])[0]))
    {
      var (k, v) := attrs[i];
      assert attrs[..i + 1][..i] == attrs[..i];
      if v.FieldAttr? {
        mappings := mappings[k := v.field];
        if v.field.primaryKey {
          if primaryKey.Some? {
            KeyNamesPrefix(attrs, i + 1);
            return Failed(DuplicatePrimaryKey(k));
          }
          primaryKey := Some(k);
        } else {
          fields := fields + [k];
        }
      }
      i := i + 1;
    }
    assert attrs[..|attrs|] == attrs;
    if primaryKey.None? {
      return Failed(PrimaryKeyNotFound);
    }
    var pk := primaryKey.value;

    var rest := RemoveFields(attrs);

    var escapedFields := Quoted(fields);
    var placeholders := CreateArgsStr(|escapedFields| + 1);
    var meta := TableMeta(
      mappings, tablename, pk, fields,
      "select " + Quote(pk) + ", " + Join(escapedFields, ", ") + " from " + Quote(tablename),
      "insert into " + Quote(tablename) + " (" + Join(escapedFields, ", ") + ", " + Quote(pk) + ") values (" + placeholders + ")",
      "update " + Quote(tablename) + " set " + Join(Assignments(mappings, fields), ", ") + " where " + Quote(pk) + "=?",
      "delete from " + Quote(tablename) + " where " + Quote(pk) + "=?");
    assert meta == MetaOf(tablename, pk, fields, mappings);
    RegisteredWellFormed(attrs);
    r := Registered(meta, rest);
  }

  /** `attrs.pop(k)` for every mapped field: the class keeps its other attributes, in order. */
  method RemoveFields(attrs: Attrs) returns (rest: Attrs)
    ensures rest == OtherAttrs(attrs)
  {
    rest := [];
    for j := 0 to |attrs|
      invariant rest == OtherAttrs(attrs[..j])
    {
      assert attrs[..j + 1][..j] == attrs[..j];
      if !attrs[j].1.FieldAttr? {
        rest := rest + [attrs[j]];
      }
    }
    assert attrs[..|attrs|] == attrs;
  }

  // ---------------------------------------------------------------- lemmas

  /** The keys found in a prefix of the class body are a prefix of all its keys. */
  lemma {:induction false} KeyNamesPrefix(attrs: Attrs, n: nat)
    requires n <= |attrs|
    ensures |KeyNames(attrs[..n])| <= |KeyNames(attrs)|
    ensures KeyNames(attrs)[..|KeyNames(attrs[..n])|] == KeyNames(attrs[..n])
  {
    if n < |attrs| {
      var init := attrs[..|attrs| - 1];
      assert init[..n] == attrs[..n];
      KeyNamesPrefix(init, n);
    } else {
      assert attrs[..n] == attrs;
    }
  }

  /** Registration partitions the fields: every mapped field is the key or a listed non-key field, and none is listed twice. */
  lemma {:induction false} PartitionFacts(attrs: Attrs)
    requires DistinctNames(attrs)
    ensures forall k :: k in FieldMap(attrs) <==> k in KeyNames(attrs) || k in NonKeyNames(attrs)
    ensures forall k :: k in KeyNames(attrs) ==> k in FieldMap(attrs) && FieldMap(attrs)[k].primaryKey
    ensures forall k :: k in NonKeyNames(attrs) ==> k in FieldMap(attrs) && !FieldMap(attrs)[k].primaryKey
    ensures forall k :: k in FieldMap(attrs) ==> k in Names(attrs)
    ensures forall i, j :: 0 <= i < j < |NonKeyNames(attrs)| ==> NonKeyNames(attrs)[i] != NonKeyNames(attrs)[j]
  {
    if attrs != [] {
      var init := attrs[..|attrs| - 1];
      assert DistinctNames(init);
      PartitionFacts(init);
      var last := attrs[|attrs| - 1];
      assert forall i :: 0 <= i < |init| ==> Names(init)[i] != last.0;
      assert last.0 !in Names(init);
      assert Names(attrs) == Names(init) + [last.0];
    }
  }

  /** With exactly one key, the metadata built from the class body is well formed. */
  lemma RegisteredWellFormed(attrs: Attrs)
    requires DistinctNames(attrs) && |KeyNames(attrs)| == 1
    ensures forall t :: WellFormed(MetaOf(t, KeyNames(attrs)[0], NonKeyNames(attrs), FieldMap(attrs)))
  {
    var pk, fs, m := KeyNames(attrs)[0], NonKeyNames(attrs), FieldMap(attrs);
    PartitionFacts(attrs);
    assert KeyNames(attrs) == [pk];
    assert pk in m && m[pk].primaryKey;
    assert forall i :: 0 <= i < |fs| ==> fs[i] in m && !m[fs[i]].primaryKey;
    assert forall k :: k in m ==> k == pk || k in fs;
  }

  /** No name that reaches the templates contains a `?`: Python identifiers cannot. */
  ghost predicate PlainNames(meta: TableMeta)
  {
    && Free('?', meta.table)
    && Free('?', meta.primaryKey)
    && forall i :: 0 <= i < |meta.fields| ==>
         Free('?', meta.fields[i]) && Free('?', ColumnName(meta.mappings, meta.fields[i]))
  }

  lemma {:induction false} ArgsStrCount(n: nat)
    ensures Count('?', ArgsStr(n)) == n
    ensures ArgsStr(n) == "" <==> n == 0
  {
    assert Count('?', ", ") == 0;
    assert forall i :: 0 <= i < n ==> Count('?', Repeat("?", n)[i]) == 1;
    CountJoinUniform('?', Repeat("?", n), ", ", 1);
  }

  lemma {:induction false} QuotedCount(names: seq<string>)
    requires forall i :: 0 <= i < |names| ==> Free('?', names[i])
    ensures Count('?', Join(Quoted(names), ", ")) == 0
  {
    forall i | 0 <= i < |names|
      ensures Count('?', Quoted(names)[i]) == 0
    {
      QuoteCount(names[i]);
    }
    assert Count('?', ", ") == 0;
    CountJoinUniform('?', Quoted(names), ", ", 0);
  }

  lemma QuoteCount(name: string)
    requires Free('?', name)
    ensures Count('?', Quote(name)) == 0
  {
    FreeCount('?', name);
    FreeCount('?', "`");
    Count3('?', "`", name, "`");
  }

  /** The INSERT template has one `?` per bound column. */
  lemma InsertPlaceholders(meta: TableMeta)
    requires WellFormed(meta) && PlainNames(meta)
    ensures Count('?', meta.insert) == |BoundColumns(meta)|
  {
    var fs := meta.fields;
    assert Count('?', Quote(meta.table)) == 0 by { QuoteCount(meta.table); }
    assert Count('?', Quote(meta.primaryKey)) == 0 by { QuoteCount(meta.primaryKey); }
    assert Count('?', Join(Quoted(fs), ", ")) == 0 by { QuotedCount(fs); }
    assert Count('?', ArgsStr(|fs| + 1)) == |fs| + 1 by { ArgsStrCount(|fs| + 1); }
    InsertShape(Quote(meta.table), Join(Quoted(fs), ", "), Quote(meta.primaryKey), ArgsStr(|fs| + 1));
  }

  lemma InsertShape(t: string, qf: string, pk: string, ph: string)
    requires Count('?', t) == 0 && Count('?', qf) == 0 && Count('?', pk) == 0
    ensures Count('?', "insert into " + t + " (" + qf + ", " + pk + ") values (" + ph + ")") == Count('?', ph)
  {
    var x1 := "insert into " + t;
    FreeHead('?', "insert into ", t);
    var x2 := x1 + " (" + qf;
    FreeGlue('?', x1, " (", qf);
    var x3 := x2 + ", " + pk;
    FreeGlue('?', x2, ", ", pk);
    var x4 := x3 + ") values (" + ph;
    FreeGlue('?', x3, ") values (", ph);
    FreeTail('?', x4, ")");
  }

  /** The UPDATE template has one `?` per assigned column and one for the key. */
  lemma UpdatePlaceholders(meta: TableMeta)
    requires WellFormed(meta) && PlainNames(meta)
    ensures Count('?', meta.update) == |BoundColumns(meta)|
  {
    var fs := meta.fields;
    var asg := Assignments(meta.mappings, fs);
    assert Count('?', Join(asg, ", ")) == |fs| by {
      forall i | 0 <= i < |fs|
        ensures Count('?', asg[i]) == 1
      {
        QuoteCount(ColumnName(meta.mappings, fs[i]));
        CountAppend('?', Quote(ColumnName(meta.mappings, fs[i])), "=?");
      }
      FreeCount('?', ", ");
      CountJoinUniform('?', asg, ", ", 1);
    }
    assert Count('?', Quote(meta.table)) == 0 by { QuoteCount(meta.table); }
    assert Count('?', Quote(meta.primaryKey)) == 0 by { QuoteCount(meta.primaryKey); }
    UpdateShape(Quote(meta.table), Join(asg, ", "), Quote(meta.primaryKey));
  }

  lemma UpdateShape(t: string, sets: string, pk: string)
    requires Count('?', t) == 0 && Count('?', pk) == 0
    ensures Count('?', "update " + t + " set " + sets + " where " + pk + "=?") == Count('?', sets) + 1
  {
    var x1 := "update " + t;
    FreeHead('?', "update ", t);
    var x2 := x1 + " set " + sets;
    FreeGlue('?', x1, " set ", sets);
    var x3 := x2 + " where " + pk;
    FreeGlue('?', x2, " where ", pk);
    CountAppend('?', x3, "=?");
    assert Count('?', "=?") == 1;
  }

  /** The DELETE template has the key's placeholder and no other. */
  lemma DeletePlaceholders(meta: TableMeta)
    requires WellFormed(meta) && PlainNames(meta)
    ensures Count('?', meta.delete) == 1
  {
    assert Count('?', Quote(meta.table)) == 0 by { QuoteCount(meta.table); }
    assert Count('?', Quote(meta.primaryKey)) == 0 by { QuoteCount(meta.primaryKey); }
    DeleteShape(Quote(meta.table), Quote(meta.primaryKey));
  }

  lemma DeleteShape(t: string, pk: string)
    requires Count('?', t) == 0 && Count('?', pk) == 0
    ensures Count('?', "delete from " + t + " where " + pk + "=?") == 1
  {
    var x1 := "delete from " + t;
    FreeHead('?', "delete from ", t);
    var x2 := x1 + " where " + pk;
    FreeGlue('?', x1, " where ", pk);
    CountAppend('?', x2, "=?");
    assert Count('?', "=?") == 1;
  }

  /** The SELECT template binds nothing. */
  lemma SelectPlaceholders(meta: TableMeta)
    requires WellFormed(meta) && PlainNames(meta)
    ensures Count('?', meta.select) == 0
  {
    assert Count('?', Quote(meta.table)) == 0 by { QuoteCount(meta.table); }
    assert Count('?', Quote(meta.primaryKey)) == 0 by { QuoteCount(meta.primaryKey); }
    assert Count('?', Join(Quoted(meta.fields), ", ")) == 0 by { QuotedCount(meta.fields); }
    SelectShape(Quote(meta.primaryKey), Join(Quoted(meta.fields), ", "), Quote(meta.table));
  }

  lemma SelectShape(pk: string, qf: string, t: string)
    requires Count('?', t) == 0 && Count('?', qf) == 0 && Count('?', pk) == 0
    ensures Count('?', "select " + pk + ", " + qf + " from " + t) == 0
  {
    var x1 := "select " + pk;
    FreeHead('?', "select ", pk);
    var x2 := x1 + ", " + qf;
    FreeGlue('?', x1, ", ", qf);
    FreeGlue('?', x2, " from ", t);
  }

  lemma {:induction false} JoinSnoc(parts: seq<string>, last: string, sep: string)
    requires parts != []
    ensures Join(parts + [last], sep) == Join(parts, sep) + sep + last
  {
    if |parts| > 1 {
      assert (parts + [last])[1..] == parts[1..] + [last];
      JoinSnoc(parts[1..], last, sep);
    }
  }

  /**
   * The INSERT template names the bound columns in binding order (the
   * non-key fields, then the key), one placeholder each. This needs at
   * least one non-key field: without one the text reads "(, `key`)".
   */
  lemma InsertListsBoundColumns(meta: TableMeta)
    requires WellFormed(meta) && meta.fields != []
    ensures meta.insert ==
      "insert into " + Quote(meta.table) + " (" + Join(Quoted(BoundColumns(meta)), ", ") + ") values (" + ArgsStr(|BoundColumns(meta)|) + ")"
  {
    assert Quoted(BoundColumns(meta)) == Quoted(meta.fields) + [Quote(meta.primaryKey)];
    JoinSnoc(Quoted(meta.fields), Quote(meta.primaryKey), ", ");
  }
}
