/**
 * The blog's three tables (www/models.py) as the registration of
 * www/orm.py sees them: a `__table__` name, then the primary key, then
 * the ordinary columns. Time and id generators are numbered defaults.
 */
module Models {
  import opened Values
  import opened Schema

  /** Key and non-key names of a concatenation are the concatenations of the parts. */
  lemma {:induction false} SplitAppend(a: Attrs, b: Attrs)
    ensures KeyNames(a + b) == KeyNames(a) + KeyNames(b)
    ensures NonKeyNames(a + b) == NonKeyNames(a) + NonKeyNames(b)
  {
    if b == [] {
      assert a + b == a;
    } else {
      var init := b[..|b| - 1];
      SplitAppend(a, init);
      assert (a + b)[..|a + b| - 1] == a + init;
    }
  }

  /** A list of ordinary columns has no key and lists every name as a non-key field. */
  lemma {:induction false} OnlyColumns(rest: Attrs)
    requires forall i :: 0 <= i < |rest| ==> rest[i].1.FieldAttr? && !rest[i].1.field.primaryKey
    ensures KeyNames(rest) == []
    ensures NonKeyNames(rest) == Names(rest)
  {
    if rest != [] {
      OnlyColumns(rest[..|rest| - 1]);
    }
  }

  /** Key and non-key names of a single entry. */
  lemma One(e: (string, Attr))
    ensures KeyNames([e]) == (if e.1.FieldAttr? && e.1.field.primaryKey then [e.0] else [])
    ensures NonKeyNames([e]) == (if e.1.FieldAttr? && !e.1.field.primaryKey then [e.0] else [])
  {
    assert [e][..0] == [];
  }

  /** A non-field entry, then the key, then ordinary columns: one key, the columns in order. */
  lemma KeyFirst(first: (string, Attr), key: string, kf: Field, rest: Attrs)
    requires !first.1.FieldAttr? && kf.primaryKey
    requires forall i :: 0 <= i < |rest| ==> rest[i].1.FieldAttr? && !rest[i].1.field.primaryKey
    ensures KeyNames([first, (key, FieldAttr(kf))] + rest) == [key]
    ensures NonKeyNames([first, (key, FieldAttr(kf))] + rest) == Names(rest)
  {
    var kv := (key, FieldAttr(kf));
    assert [first, kv] == [first] + [kv];
    SplitAppend([first], [kv]);
    SplitAppend([first, kv], rest);
    One(first);
    One(kv);
    OnlyColumns(rest);
  }

  /** The `__table__` entry and the `id` key column every model of the blog starts with. */
  function Head(table: string): Attrs
  {
    [("__table__", StrAttr(table)), ("id", FieldAttr(StringField(None, true, Generator(0), "varchar(50)")))]
  }

  /** A `StringField(ddl=...)` with no default. */
  function Column(ddl: string): Attr
  {
    FieldAttr(StringField(None, false, NoDefault, ddl))
  }

  /** The non-key columns of `User`, in declaration order. */
  function UserColumns(): Attrs
  {
    [("name", Column("varchar(50)")),
     ("password", Column("varchar(50)")),
     ("email", Column("varchar(50)")),
     ("admin", FieldAttr(BooleanField(None, NoDefault))),
     ("image", Column("varchar(500)")),
     ("create_at", FieldAttr(FloatField(None, false, Generator(1))))]
  }

  /** The non-key columns of `Blog`, in declaration order. */
  function BlogColumns(): Attrs
  {
    [("user_id", Column("varchar(50)")),
     ("user_name", Column("varchar(50)")),
     ("user_image", Column("varchar(500)")),
     ("name", Column("varchar(50)")),
     ("summary", Column("varchar(200)")),
     ("content", FieldAttr(TextField(None, NoDefault))),
     ("create_at", FieldAttr(FloatField(None, false, Generator(1))))]
  }

  /** The non-key columns of `Comment`, in declaration order. */
  function CommentColumns(): Attrs
  {
    [("user_id", Column("varchar(50)")),
     ("user_name", Column("varchar(50)")),
     ("user_image", Column("varchar(500)")),
     ("blog_id", Column("varchar(50)")),
     ("content", FieldAttr(TextField(None, NoDefault))),
     ("create_at", FieldAttr(FloatField(None, false, Generator(1))))]
  }

  /** `User` registers as table `users`, key `id`, its six columns in declaration order. */
  lemma UserRegistration()
    ensures DistinctNames(Head("users") + UserColumns())
    ensures KeyNames(Head("users") + UserColumns()) == ["id"]
    ensures NonKeyNames(Head("users") + UserColumns()) == ["name", "password", "email", "admin", "image", "create_at"]
    ensures TableName("User", Head("users") + UserColumns()) == "users"
  {
    KeyFirst(Head("users")[0], "id", StringField(None, true, Generator(0), "varchar(50)"), UserColumns());
    assert Names(UserColumns()) == ["name", "password", "email", "admin", "image", "create_at"];
  }

  /** `Blog` registers as table `blogs`, key `id`, its seven columns in declaration order. */
  lemma BlogRegistration()
    ensures DistinctNames(Head("blogs") + BlogColumns())
    ensures KeyNames(Head("blogs") + BlogColumns()) == ["id"]
    ensures NonKeyNames(Head("blogs") + BlogColumns()) == ["user_id", "user_name", "user_image", "name", "summary", "content", "create_at"]
    ensures TableName("Blog", Head("blogs") + BlogColumns()) == "blogs"
  {
    KeyFirst(Head("blogs")[0], "id", StringField(None, true, Generator(0), "varchar(50)"), BlogColumns());
    assert Names(BlogColumns()) == ["user_id", "user_name", "user_image", "name", "summary", "content", "create_at"];
  }

  /** `Comment` registers as table `comment`, key `id`, its six columns in declaration order. */
  lemma CommentRegistration()
    ensures DistinctNames(Head("comment") + CommentColumns())
    ensures KeyNames(Head("comment") + CommentColumns()) == ["id"]
    ensures NonKeyNames(Head("comment") + CommentColumns()) == ["user_id", "user_name", "user_image", "blog_id", "content", "create_at"]
    ensures TableName("Comment", Head("comment") + CommentColumns()) == "comment"
  {
    KeyFirst(Head("comment")[0], "id", StringField(None, true, Generator(0), "varchar(50)"), CommentColumns());
    assert Names(CommentColumns()) == ["user_id", "user_name", "user_image", "blog_id", "content", "create_at"];
  }
}
