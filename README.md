# A verified model of the blog's ORM, configuration and request binding

This project models the core of a small asynchronous Python blog. It has three parts.

- **The ORM** (`www/orm.py`):
  - the metaclass turns a model class's declared fields into one primary key, an ordered list of other columns, and four SQL templates with `?` placeholders;
  - the `Model` base class is a dictionary with attribute access and default resolution;
  - the class queries `findAll`, `findNumber` and `find`, and the writes `save`, `update` and `remove`;
  - the executor wrappers `select_wrap` and `execute_wrap` run one statement on a borrowed connection, translating placeholders into the driver's marker and handling begin, commit and rollback.
- **The configuration helpers** (`www/config.py`): `merge` of an override tree into a default tree, `toDict`, and the attribute dictionary `Dict`.
- **The request-binding layer** (`www/coroweb.py`):
  - the `@get` and `@post` route decorators;
  - the analysis of a handler's signature;
  - `RequestHandler.__call__`, which builds a call's keyword arguments from a parsed request;
  - `add_route`.

The three tables of `www/models.py` are worked examples of registration.

Modules:

| file | module | contents |
|---|---|---|
| `values.dfy` | Values | Python values, `Result`, the raised errors |
| `strings.dfy` | Strings | join, character counting, prefixes, lower-casing |
| `orm_schema.dfy` | Schema | fields, the metaclass (`Register`), the SQL templates and their placeholder counts |
| `orm_executor.dfy` | Executor | the `Connection` class, placeholder translation, `ExecuteWrap`, `SelectWrap` |
| `orm_model.dfy` | Crud | the `Instance` class (a model record), default resolution, queries and writes |
| `models.dfy` | Models | the `User`, `Blog` and `Comment` tables |
| `config.dfy` | Config | configuration trees, `Merge`, `ToDict`, the `AttrDict` class |
| `coroweb.dfy` | Coroweb | signatures, `Handler`, `Dispatch` and the imperative `Serve`, routes and the `App` class |

Several lines of the source contain typos that could not run as written, such as `startwith`, `getVaule` and `len(rows)` on an integer. The model follows what these lines evidently mean. The header comment of each module lists these lines one by one. Two defects are not typos: the program would run and behave wrongly. Both are under "## Findings", and the model uses the corrected behaviour elsewhere.

## Model

| member | source | states |
|---|---|---|
| Schema.FieldSubclasses | www/orm.py:71-94 | each field subclass keeps its name and default; StringField, IntegerField and FloatField take the primary-key flag while BooleanField and TextField are never the key; StringField's column type is its `ddl`, and the four fixed column types are distinct |
| Schema.CreateArgsStr | www/orm.py:96-100 | `num` question marks joined by ", " |
| Schema.ArgsStrCount | www/orm.py:96-100 | the argument list holds exactly `num` placeholders, and is empty only for `num` = 0 |
| Schema.Register | www/orm.py:104-139 | `Model` itself is left alone; no key field fails with PrimaryKeyNotFound; a second key field fails with DuplicatePrimaryKey naming it; otherwise the table name (`__table__` or the class name), key, ordered non-key fields, mappings and four templates, which are well formed, and the field attributes are removed from the class |
| Schema.RemoveFields | www/orm.py:125-126 | the class keeps exactly its non-field attributes, in order |
| Schema.PartitionFacts | www/orm.py:113-122 | every mapped field is the key or a non-key field, and never both; key fields are primary, listed fields are not, and no field is listed twice |
| Schema.KeyNamesPrefix | www/orm.py:113-122 | the keys seen after a prefix of the attributes are a prefix of all the keys, so the loop stops at the second key |
| Schema.RegisteredWellFormed | www/orm.py:123-137 | with exactly one key, the resulting table description is well formed |
| Schema.InsertPlaceholders | www/orm.py:135 | the INSERT template has one placeholder per bound column (non-key fields, then the key) |
| Schema.InsertListsBoundColumns | www/orm.py:135 | the INSERT template lists the quoted non-key fields, then the key, and as many placeholders as columns |
| Schema.UpdatePlaceholders | www/orm.py:136 | the UPDATE template has one placeholder per non-key field plus one for the key |
| Schema.DeletePlaceholders | www/orm.py:137 | the DELETE template has exactly one placeholder |
| Schema.SelectPlaceholders | www/orm.py:134 | the SELECT template has no placeholder |
| Executor.ToDriver | www/orm.py:30 | the translation lengthens the text by one character per `?` |
| Executor.ToDriverMarkers | www/orm.py:47 | without `%` in the statement, each `?` becomes exactly one driver marker and no `?` is left |
| Executor.FromDriverToDriver | www/orm.py:30 | translating back gives the statement again, so only the placeholders change |
| Executor.ToDriverAsWritten | www/orm.py:30 | the text as written keeps the length, replacing each `?` with a bare `%` |
| Executor.AsWrittenMarkers | www/orm.py:47 | as written, a statement without `%` in which no `?` is followed by `s` reaches the driver with no marker at all |
| Executor.TrailingPlaceholder | www/orm.py:47 | a statement whose one placeholder ends it gets one marker as intended and none as written |
| Executor.BareMarkerFinding | www/orm.py:47 | the users DELETE statement has one placeholder, no marker as written, and one as intended |
| Executor.Connection.Begin | www/orm.py:43 | a transaction starts from the current rows, or a refused begin raises its error and starts none; the call is logged |
| Executor.Connection.Commit | www/orm.py:51 | the rows stay; a successful commit closes the transaction and a refused one raises its error and leaves it open |
| Executor.Connection.Rollback | www/orm.py:55 | the rows return to where the transaction started and it closes, or a refused rollback raises and leaves rows and transaction as they were |
| Executor.Connection.Run | www/orm.py:46-48 | the statement is logged; the result is the row count or the driver's error |
| Executor.Failure | www/orm.py:45-53 | the error that reaches the `except`: the statement's, or else the commit's when not autocommitting; none exactly when the statement succeeded and no commit was refused |
| Executor.WriteProtocol | www/orm.py:42-56 | begin iff not autocommit, and it comes first; the translated statement iff autocommitting or the begin succeeded; commit iff in a begun transaction the statement ran; rollback iff in a begun transaction the statement or the commit failed, and then it is the last call |
| Executor.ExecuteWrap | www/orm.py:39-58 | logs exactly the protocol; a refused begin raises before anything runs and changes no rows; otherwise returns the row count, or re-raises unchanged the error of the statement or of the commit after a rollback that restores the rows, while a rollback that itself fails raises its own error and leaves the transaction open |
| Executor.Fetch | www/orm.py:31-34 | `fetchmany(size)` returns a prefix of at most `size` rows; no size returns every row |
| Executor.SelectWrap | www/orm.py:26-37 | one translated statement and nothing written; the fetched rows, or the driver's error propagated |
| Crud.DefaultOf | www/orm.py:161-162 | no default gives nothing; a callable is called; a literal applies only when truthy |
| Crud.Resolve | www/orm.py:157-165 | a set value is returned untouched; an unset undeclared key raises KeyError; otherwise the returned and written-back value is the field's applicable default; when no default applies the result is None and nothing is written; no other key changes |
| Crud.ResolveAsWritten | www/orm.py:157-165 | as written, an unset value stays None and nothing is written |
| Crud.AsWrittenOverwrites | www/orm.py:159 | as written, a value the caller set is replaced by the default; as intended it is kept |
| Crud.AsWrittenNeverDefaults | www/orm.py:159 | as written, an unset field with a default stays None; as intended the default is used and stored |
| Crud.ResolveAll | www/orm.py:215-216 | resolving the columns in order gives one argument per column and touches no other key; it succeeds when every column is declared |
| Crud.ResolveLocal | www/orm.py:157-165 | resolving a key depends only on that key's value |
| Crud.ResolveAllInOrder | www/orm.py:215-216 | for distinct declared columns, each argument is what resolving that column alone gives, and the record afterwards holds every argument |
| Crud.ResolveAllSet | www/orm.py:215-216 | when every column is set, the arguments are the stored values and the record is unchanged |
| Crud.BoundColumnsDeclared | www/orm.py:215-216 | the columns `save` binds are declared and distinct |
| Crud.LimitPart | www/orm.py:180-190 | no limit adds nothing; an int adds one placeholder and argument; a pair adds two; anything else raises ValueError |
| Crud.FindAllClauses | www/orm.py:169-190 | the statement starts with the SELECT template, then `where` and its clause when given, then `order by` when given, then the limit; it fails exactly when the limit is invalid |
| Crud.ComposeFindAll | www/orm.py:169-190 | the clause-by-clause composition gives `FindAllClauses`, and the limit's arguments |
| Crud.FindAllPlaceholders | www/orm.py:168-192 | with a valid limit, the statement has exactly as many placeholders as caller arguments plus limit arguments |
| Crud.WherePlaceholders | www/orm.py:171-173 | the where clause brings exactly the caller's placeholders |
| Crud.OrderByPlaceholders | www/orm.py:176-179 | the order-by clause brings no placeholder |
| Crud.FindPlaceholder | www/orm.py:209 | the lookup by primary key has exactly one placeholder |
| Crud.WritesBindEveryPlaceholder | www/orm.py:214-232 | save, update and remove each bind exactly as many arguments as their template has placeholders |
| Crud.Instance.constructor | www/orm.py:142-143 | the record holds the given keyword arguments |
| Crud.Instance.GetAttr | www/orm.py:145-149 | exactly the stored value of the key, or AttributeError when the key is missing |
| Crud.Instance.GetValue | www/orm.py:154-155 | the stored value, or None when the key is missing |
| Crud.Instance.SetAttr | www/orm.py:151-152 | stores the value; every other key keeps its value |
| Crud.Instance.GetValueOrDefault | www/orm.py:157-165 | returns and writes back what `Resolve` gives, or raises its KeyError with the record untouched |
| Crud.Instance.Save | www/orm.py:214-219 | binds the resolved non-key fields, then the key, into the INSERT statement; the record keeps the defaults it used; a row count other than 1 is flagged |
| Crud.Instance.Update | www/orm.py:221-226 | binds the stored non-key fields, then the key, into the UPDATE statement; a row count other than 1 is flagged |
| Crud.Instance.Remove | www/orm.py:228-232 | binds the key into the DELETE statement; a row count other than 1 is flagged |
| Crud.FindAll | www/orm.py:167-193 | an invalid limit raises before any query; otherwise one statement with the caller's arguments plus the limit's, which are appended to the caller's list, and one record per row, or the driver's error propagated |
| Crud.Instances | www/orm.py:193 | one fresh record per row, holding that row |
| Crud.FindNumber | www/orm.py:195-205 | the driver's error propagated; else None for no rows, otherwise the first row's `_num_`, or KeyError when that column is missing; one query and nothing written |
| Crud.Find | www/orm.py:207-212 | one query bound to the key; the driver's error propagated, else None for no rows, else a record of the first row |
| Models.KeyFirst | www/orm.py:113-122 | a non-field entry, then a key field, then ordinary columns register one key and those columns in order |
| Models.UserRegistration | www/models.py:7-16 | `User` registers as table `users` with key `id` and six columns in declaration order |
| Models.BlogRegistration | www/models.py:18-28 | `Blog` registers as table `blogs` with key `id` and seven columns in declaration order |
| Models.CommentRegistration | www/models.py:30-39 | `Comment` registers as table `comment` with key `id` and six columns in declaration order |
| Config.HasKey | www/config.py:28 | `k in o`: a key test on a dictionary, element membership on a list, tuple or set, a substring test on a string, TypeError on any other scalar |
| Config.Item | www/config.py:30-32 | the override's entry; KeyError for a key the dictionary lacks; TypeError when the override is not a dictionary |
| Config.Merge | www/config.py:25-35 | a plain dictionary with exactly the default's keys, each entry merged by case; TypeError when some entry cannot be merged |
| Config.MergeEntries | www/config.py:27-34 | a key missing from the override keeps the default; a scalar default takes the override; a nested dictionary is merged recursively |
| Config.MergeDropsExtraKeys | www/config.py:27 | keys only in the override are dropped |
| Config.MergeEmpty | www/config.py:25-35 | an empty override gives the default's entries back |
| Config.MergeScalarOverride | www/config.py:28 | a non-empty default merged with a non-string scalar override raises |
| Config.MergeItemsOverride | www/config.py:27-35 | a list, tuple or set override naming none of the default's keys keeps every default entry |
| Config.MergeItemsIndexed | www/config.py:28-32 | a list, tuple or set override naming a default key raises TypeError when indexed |
| Config.MergeConforming | www/config.py:25-35 | an override that is a dictionary wherever the default nests one always merges |
| Config.MergeSelf | www/config.py:25-35 | merging a tree with itself gives the same tree, as plain dictionaries |
| Config.ToDict | www/config.py:37-41 | an attribute dictionary with the same keys, the same leaves, and converted nested dictionaries |
| Config.ToDictContent | www/config.py:37-41 | at every depth the keys and leaves are kept and every dictionary supports attribute access |
| Config.ToDictIdempotent | www/config.py:37-41 | converting twice is the same as converting once |
| Config.ZipInto | www/config.py:12-14 | the keys are those of `kw` plus the zipped keys |
| Config.ZipLength | www/config.py:13 | `zip` stops at the shorter sequence |
| Config.ZipIntoLast | www/config.py:13-14 | a zipped key takes the value of its last pair |
| Config.ZipIntoKeeps | www/config.py:12-14 | a key no pair names keeps its keyword value |
| Config.AttrDict.constructor | www/config.py:11-14 | the keyword entries, overwritten in order by the zipped pairs |
| Config.AttrDict.GetAttr | www/config.py:16-20 | the entry, or AttributeError for a missing key |
| Config.AttrDict.SetAttr | www/config.py:22-23 | stores the entry; every other key keeps its entry |
| Coroweb.Decorate | www/coroweb.py:9-33 | `@get` and `@post` keep the function's parameters and tag it with their method (GET, POST) and the path, which `add_route` then reads back |
| Coroweb.NamedMembers | www/coroweb.py:43-49 | a name is listed iff some keyword-only parameter has it |
| Coroweb.RequiredWithinNamed | www/coroweb.py:35-41 | a name is required iff some keyword-only parameter without a default has it; every required name is named |
| Coroweb.GetRequiredKwArgs | www/coroweb.py:35-41 | the keyword-only parameters without a default, in signature order |
| Coroweb.GetNamedKwArgs | www/coroweb.py:43-49 | the keyword-only parameters, in signature order |
| Coroweb.HasNamedKwArg | www/coroweb.py:51-55 | true iff some parameter is keyword-only |
| Coroweb.HasVarKwArg | www/coroweb.py:57-61 | true iff some parameter is `**kw` |
| Coroweb.HasRequestArg | www/coroweb.py:63-72 | ValueError iff a parameter other than `*args`, `**kw` or keyword-only follows `request`; otherwise true iff there is a `request` parameter |
| Coroweb.HasNamedIffListed | www/coroweb.py:79-83 | the handler has named keyword arguments iff their list is non-empty |
| Coroweb.NewHandler | www/coroweb.py:76-83 | the handler's five facts about the signature, or the ValueError from the request check |
| Coroweb.Parse | www/coroweb.py:87-108 | without keyword parameters nothing is parsed; for POST, a missing content type, a non-object JSON body or an unsupported type is a bad request; a JSON object or a form gives its entries; for GET, a query string gives the first value of each key |
| Coroweb.QueryArgs | www/coroweb.py:106-108 | one argument per query key |
| Coroweb.Restrict | www/coroweb.py:112-117 | exactly the entries whose name is listed |
| Coroweb.Overlay | www/coroweb.py:119-122 | route values override and extend the arguments |
| Coroweb.FirstMissing | www/coroweb.py:126-129 | the first required name absent from the arguments, if any |
| Coroweb.Dispatch | www/coroweb.py:85-130 | a call has every required argument, has `request` iff the handler takes it, and has every route value; a rejected body gives its bad request |
| Coroweb.DispatchNothingParsed | www/coroweb.py:109-110 | with nothing parsed, the arguments are the route values (and the request) |
| Coroweb.DispatchRestricted | www/coroweb.py:112-122 | without `**kw`, only named arguments, route values and the request reach the call; duplicates are the named entries the route overrides |
| Coroweb.DispatchQueryFirstValue | www/coroweb.py:103-108 | a query key not overridden reaches a `**kw` handler as its first value |
| Coroweb.DispatchMissingRequired | www/coroweb.py:126-129 | a bad request iff a required argument is missing, naming the first one |
| Coroweb.CollectQuery | www/coroweb.py:106-108 | the loop builds `QueryArgs` |
| Coroweb.KeepNamed | www/coroweb.py:113-117 | the loop builds `Restrict` |
| Coroweb.ApplyMatchInfo | www/coroweb.py:119-122 | the loop builds `Overlay`; the duplicates warned about are the keys present on both sides |
| Coroweb.CheckRequired | www/coroweb.py:126-129 | the loop finds `FirstMissing` |
| Coroweb.ReadParams | www/coroweb.py:87-108 | the imperative body and query reading computes `Parse` |
| Coroweb.Complete | www/coroweb.py:123-129 | the request and required-argument steps compute `Finish` |
| Coroweb.Serve | www/coroweb.py:85-130 | the imperative handler computes `Dispatch` |
| Coroweb.RouteTarget | www/coroweb.py:144-147 | the verb and path, or ValueError when either is missing |
| Coroweb.App.constructor | www/coroweb.py:143-152 | a new application has no routes |
| Coroweb.App.AddRoute | www/coroweb.py:143-152 | registers (verb, path, handler of the signature) iff the function is tagged and its request parameter is in place; otherwise ValueError and no change |

## Left out

- `create_pool` (www/orm.py:7-21), the pool and cursors: a connection is modelled directly. The database's effect on the rows, and its answers to begin, commit, rollback and each SELECT (success or a driver error), are parameters.
- Asynchrony and concurrency: every coroutine is modelled as a sequential call.
- Logging (www/orm.py:23-24 and every `logging` call) is omitted. The model has no log output; `Save`, `Update` and `Remove` return the row-count flag that would trigger the warning.
- The text `str(limit)` inside the ValueError message of www/orm.py:190 is dropped; the message keeps its fixed part.
- Crud.Instance.GetAttr: reads the stored values only. In Python, attribute lookup on the `dict` subclass finds class attributes and `dict` methods before `__getattr__`, so `getattr(self, key, None)` (www/orm.py:154, 159) on a column named `update`, `save`, `keys` or `get` returns a bound method.
- Crud.Instance.GetValue: built on the same lookup, so it too reads only the stored values where Python's `getattr(self, key, None)` (www/orm.py:154) would return a `dict` method for such a column.
- Config.AttrDict.GetAttr: for the same reason, `d.items` or `d.get` on the configuration `Dict` (www/config.py:16-20) reads a `dict` method, not an entry; the model reads only the entries.
- A `__table__` class attribute that is not a string (www/orm.py:108) is not modelled: the table name is always a string.
- Coroweb.HasRequestArg: the ValueError text of www/coroweb.py:71 drops the function's name and signature; the message keeps its fixed part.
- Coroweb.RouteTarget: the ValueError text of www/coroweb.py:147 drops the function's `repr`; the message keeps its fixed part.
- Config.Merge: TypeError messages carry a fixed text rather than Python's wording, and the model does not fix which entry's error is raised first (dictionary order).
- Floating-point values (`time.time` defaults) and the id generator are opaque values, and callables are numbered, so a callable default is the parameter `call`.
- The handler call itself and the APIError handling (www/coroweb.py:132-136), `add_static`, `add_routes` and the `asyncio.coroutine` wrapping: they call code outside the model.
- `request.json()` and `request.post()` (I/O) are request fields parsed in advance; `parse_qs` is a parsed query map.
- Module-level configuration loading (www/config.py:43-51) imports files that are not part of this model.
- `Field.__str__` (www/orm.py:68-69) only formats a log message.
- www/handlers.py and the application start-up are not part of this model.
- Schema.InsertListsBoundColumns: stated only for tables with at least one non-key field; with none, the template as written reads "(, `key`)".

## Findings

| source | as written | input that shows it | evidently intended | confidence | as-written member | corrected member |
|---|---|---|---|---|---|---|
| www/orm.py:159 | `if value is not None:` consults the default only for a value that is set, replacing it, and never for a missing one | a record with `create_at` unset: `save` binds None; a record with `id` set: `save` replaces it with a new id | apply the default when the value IS None | not executed | Crud.ResolveAsWritten, Crud.AsWrittenOverwrites, Crud.AsWrittenNeverDefaults | Crud.Resolve, Crud.ResolveAllInOrder |
| www/orm.py:47 | `sql.replace('?', '%')` (here and on line 30) leaves a bare `%` where the driver expects `%s` | "delete from `users` where `id`=?" with one argument reaches the driver with no marker | `sql.replace('?', '%s')` | not executed | Executor.ToDriverAsWritten, Executor.BareMarkerFinding | Executor.ToDriver, Executor.ToDriverMarkers |
