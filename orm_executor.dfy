/**
 * The query executor of the ORM (www/orm.py, `select_wrap` and
 * `execute_wrap`) over one borrowed database connection.
 *
 * The connection is abstract: it holds the rows the database shows
 * through it, the snapshot a transaction started from, and the log of
 * calls made on it. What a statement does to the rows, or the error the
 * driver raises for it, is a parameter (an Effect): running SQL is
 * outside the model.
 *
 * Both entry points rewrite the portable `?` placeholder into the
 * driver's `%s` marker just before execution. Lines 30 and 47 of
 * www/orm.py write `replace('?', '%')`, which leaves a bare `%`;
 * ToDriverAsWritten models that text and BareMarkerFinding exhibits it.
 */
module Executor {
  import opened Values
  import opened Strings

  /** One row as the driver's DictCursor returns it. */
  type Row = map<string, Value>

  /** A call made on the connection. */
  datatype Call = Begin | Execute(sql: string, args: seq<Value>) | Commit | Rollback

  /** What the database does with one statement: the rows it affected, or the error it raised, and the rows afterwards. */
  datatype Effect =
    | Affected(rowcount: nat, after: seq<Row>)
    | Raised(error: Error, after: seq<Row>)

  // ---------------------------------------------------------------- placeholders

  /** `sql.replace('?', '%s')`: the evidently intended translation. */
  function ToDriver(sql: string): (r: string)
    ensures |r| == |sql| + Count('?', sql)
  {
    if sql == [] then []
    else (if sql[0] == '?' then "%s" else [sql[0]]) + ToDriver(sql[1..])
  }

  /** `sql.replace('?', '%')`: the text of lines 30 and 47. */
  function ToDriverAsWritten(sql: string): (r: string)
    ensures |r| == |sql|
  {
    if sql == [] then []
    else [if sql[0] == '?' then '%' else sql[0]] + ToDriverAsWritten(sql[1..])
  }

  /** Number of `%s` markers the driver will bind an argument to. */
  function Markers(s: string): nat
  {
    if |s| < 2 then 0
    else (if s[0] == '%' && s[1] == 's' then 1 else 0) + Markers(s[1..])
  }

  /** `s.replace('%s', '?')`: undoes ToDriver. */
  function FromDriver(s: string): string
  {
    if s == [] then []
    else if |s| >= 2 && s[0] == '%' && s[1] == 's' then "?" + FromDriver(s[2..])
    else [s[0]] + FromDriver(s[1..])
  }

  /** On SQL without `%`, every `?` becomes exactly one driver marker and no `?` is left. */
  lemma {:induction false} ToDriverMarkers(sql: string)
    requires Free('%', sql)
    ensures Markers(ToDriver(sql)) == Count('?', sql)
    ensures Count('?', ToDriver(sql)) == 0
  {
    if sql != [] {
      ToDriverMarkers(sql[1..]);
      var rest := ToDriver(sql[1..]);
      if sql[0] == '?' {
        assert ToDriver(sql) == "%s" + rest;
        assert ("%s" + rest)[1..] == "s" + rest;
        assert ("s" + rest)[1..] == rest;
        assert Markers("s" + rest) == Markers(rest);
        assert ("%s" + rest)[2..] == rest;
      } else {
        assert ToDriver(sql) == [sql[0]] + rest;
        assert ([sql[0]] + rest)[1..] == rest;
      }
    }
  }

  /** Translating and translating back gives the statement again: nothing but the placeholders changes. */
  lemma {:induction false} FromDriverToDriver(sql: string)
    requires Free('%', sql)
    ensures FromDriver(ToDriver(sql)) == sql
  {
    if sql != [] {
      FromDriverToDriver(sql[1..]);
      var rest := ToDriver(sql[1..]);
      if sql[0] == '?' {
        assert ToDriver(sql) == "%s" + rest;
        assert ("%s" + rest)[2..] == rest;
      } else {
        assert ToDriver(sql) == [sql[0]] + rest;
        assert ([sql[0]] + rest)[1..] == rest;
      }
    }
  }

  /**
   * As written, a `?` becomes a bare `%`: unless the next character is
   * an `s`, the driver finds no marker for the argument.
   */
  lemma {:induction false} AsWrittenMarkers(sql: string)
    requires Free('%', sql)
    requires forall i :: 0 <= i < |sql| - 1 && sql[i] == '?' ==> sql[i + 1] != 's'
    ensures Markers(ToDriverAsWritten(sql)) == 0
  {
    if |sql| >= 2 {
      AsWrittenMarkers(sql[1..]);
      assert ToDriverAsWritten(sql) == [if sql[0] == '?' then '%' else sql[0]] + ToDriverAsWritten(sql[1..]);
      assert ToDriverAsWritten(sql[1..])[0] == if sql[1] == '?' then '%' else sql[1];
    }
  }

  /**
   * A statement whose one placeholder is its last character (every
   * DELETE, and every lookup by primary key) reaches the driver with no
   * `%s` marker for its argument as written, and with one as intended.
   */
  lemma TrailingPlaceholder(p: string)
    requires Free('?', p) && Free('%', p)
    ensures Count('?', p + "?") == 1
    ensures Markers(ToDriverAsWritten(p + "?")) == 0
    ensures Markers(ToDriver(p + "?")) == 1
  {
    var sql := p + "?";
    FreeCount('?', p);
    CountAppend('?', p, "?");
    assert forall i :: 0 <= i < |sql| - 1 ==> sql[i] == p[i];
    ToDriverMarkers(sql);
    AsWrittenMarkers(sql);
  }

  /** The DELETE statement of the users table, one argument and no marker for it as written. */
  lemma BareMarkerFinding()
    ensures Count('?', "delete from `users` where `id`=?") == 1
    ensures Markers(ToDriverAsWritten("delete from `users` where `id`=?")) == 0
    ensures Markers(ToDriver("delete from `users` where `id`=?")) == 1
  {
    var p := "delete from `users` where `id`=";
    assert Free('?', p) && Free('%', p);
    TrailingPlaceholder(p);
    assert p + "?" == "delete from `users` where `id`=?";
  }

  // ---------------------------------------------------------------- the connection

  /** One connection borrowed from the pool. */
  class Connection {
    var store: seq<Row>             // the rows the database shows through this connection
    var snapshot: Option<seq<Row>>  // where an open transaction started
    var log: seq<Call>              // every call made on the connection

    constructor (store: seq<Row>)
      ensures this.store == store && snapshot == None && log == []
    {
      this.store := store;
      snapshot := None;
      log := [];
    }

    /**
     * `con.begin()`, with the database's answer given: a transaction
     * starts from the current rows, or the call raises and none starts.
     */
    method Begin(failure: Option<Error>) returns (r: Option<Error>)
      modifies this
      ensures r == failure && store == old(store)
      ensures snapshot == if failure.None? then Some(old(store)) else old(snapshot)
      ensures log == old(log) + [Call.Begin]
    {
      if failure.None? {
        snapshot := Some(store);
      }
      log := log + [Call.Begin];
      r := failure;
    }

    /**
     * `con.commit()`, with the database's answer given: on success the
     * changes since Begin stay and the transaction closes; a commit the
     * database refuses raises and leaves the transaction open.
     */
    method Commit(failure: Option<Error>) returns (r: Option<Error>)
      modifies this
      ensures r == failure && store == old(store)
      ensures snapshot == if failure.None? then None else old(snapshot)
      ensures log == old(log) + [Call.Commit]
    {
      if failure.None? {
        snapshot := None;
      }
      log := log + [Call.Commit];
      r := failure;
    }

    /**
     * `con.rollback()`, with the database's answer given: the rows go
     * back to where the transaction started and it closes, or the call
     * raises and the rows and the transaction stay as they were.
     */
    method Rollback(failure: Option<Error>) returns (r: Option<Error>)
      modifies this
      ensures r == failure
      ensures failure.None? ==> snapshot == None && store == (if old(snapshot).Some? then old(snapshot).value else old(store))
      ensures failure.Some? ==> snapshot == old(snapshot) && store == old(store)
      ensures log == old(log) + [Call.Rollback]
    {
      if failure.None? {
        if snapshot.Some? {
          store := snapshot.value;
        }
        snapshot := None;
      }
      log := log + [Call.Rollback];
      r := failure;
    }

    /** `cur.execute(sql, args)`, with the database's effect given. */
    method Run(sql: string, args: seq<Value>, effect: Effect) returns (r: Result<nat>)
      modifies this
      ensures store == effect.after && snapshot == old(snapshot)
      ensures log == old(log) + [Execute(sql, args)]
      ensures r == if effect.Affected? then Ok(effect.rowcount) else Err(effect.error)
    {
      store := effect.after;
      log := log + [Execute(sql, args)];
      r := if effect.Affected? then Ok(effect.rowcount) else Err(effect.error);
    }
  }

  /** The database's answers to the transaction calls of one write: an error, or None where the call succeeds. */
  datatype Replies = Replies(begin: Option<Error>, commit: Option<Error>, rollback: Option<Error>)

  /** Every transaction call succeeds. */
  const Accepted := Replies(None, None, None)

  /**
   * The error that sends an opened write to its rollback: the
   * statement's, or else the commit's when not autocommitting.
   */
  function Failure(autocommit: bool, effect: Effect, replies: Replies): (e: Option<Error>)
    ensures effect.Raised? ==> e == Some(effect.error)
    ensures e.None? <==> effect.Affected? && (autocommit || replies.commit.None?)
  {
    if effect.Raised? then Some(effect.error)
    else if autocommit then None
    else replies.commit
  }

  /**
   * The calls `execute_wrap` makes, in order. Without autocommit: begin
   * (and nothing more when it raises), execute, commit after a statement
   * that ran, and rollback after a statement or a commit that raised.
   */
  function WriteProtocol(sql: string, args: seq<Value>, autocommit: bool, replies: Replies, executed: bool): (calls: seq<Call>)
    ensures Execute(ToDriver(sql), args) in calls <==> autocommit || replies.begin.None?
    ensures Call.Begin in calls <==> !autocommit
    ensures Call.Commit in calls <==> !autocommit && replies.begin.None? && executed
    ensures Call.Rollback in calls <==> !autocommit && replies.begin.None? && !(executed && replies.commit.None?)
    ensures !autocommit ==> calls[0] == Call.Begin
    ensures Call.Rollback in calls ==> calls[|calls| - 1] == Call.Rollback
  {
    if autocommit then [Execute(ToDriver(sql), args)]
    else if replies.begin.Some? then [Call.Begin]
    else
      [Call.Begin, Execute(ToDriver(sql), args)]
      + (if !executed then [Call.Rollback]
         else if replies.commit.None? then [Call.Commit]
         else [Call.Commit, Call.Rollback])
  }

  /**
   * `execute_wrap(sql, args, autocommit)`: returns the affected-row
   * count. Without autocommit, a begin that raises (outside the `try`)
   * propagates before anything runs. A failure of the statement, or of
   * the commit that follows it, is raised again unchanged after a
   * rollback that restores the rows; a rollback that itself raises
   * replaces that error and leaves the statement's rows in an open
   * transaction. With autocommit there are no transaction calls and
   * `replies` plays no part.
   */
  method ExecuteWrap(con: Connection, sql: string, args: seq<Value>, autocommit: bool, effect: Effect, replies: Replies)
    returns (r: Result<nat>)
    modifies con
    ensures con.log == old(con.log) + WriteProtocol(sql, args, autocommit, replies, effect.Affected?)
    ensures !autocommit && replies.begin.Some? ==>
      r == Err(replies.begin.value) && con.store == old(con.store) && con.snapshot == old(con.snapshot)
    ensures autocommit || replies.begin.None? ==>
      r == match Failure(autocommit, effect, replies)
           case None => Ok(effect.rowcount)
           case Some(e) => Err(if !autocommit && replies.rollback.Some? then replies.rollback.value else e)
    ensures autocommit || replies.begin.None? ==>
      con.store == if !autocommit && Failure(autocommit, effect, replies).Some? && replies.rollback.None?
                   then old(con.store) else effect.after
    ensures autocommit || replies.begin.None? ==>
      con.snapshot == if autocommit then old(con.snapshot)
                      else if Failure(autocommit, effect, replies).Some? && replies.rollback.Some? then Some(old(con.store))
                      else None
  {
    if !autocommit {
      var began := con.Begin(replies.begin);
      if began.Some? {
        return Err(began.value);
      }
    }
    var rs := con.Run(ToDriver(sql), args, effect);
    var failure := if rs.Err? then Some(rs.error) else None;
    if failure.None? && !autocommit {
      failure := con.Commit(replies.commit);
    }
    if failure.Some? {
      if !autocommit {
        var undone := con.Rollback(replies.rollback);
        if undone.Some? {
          return Err(undone.value);
        }
      }
      return Err(failure.value);
    }
    return Ok(rs.value);
  }

  /** The rows `fetchmany(size)` (size > 0) or `fetchall()` (size 0, None) returns. */
  function Fetch(available: seq<Row>, size: nat): (rs: seq<Row>)
    ensures size == 0 ==> rs == available
    ensures size > 0 ==> |rs| == (if size < |available| then size else |available|)
    ensures rs <= available
  {
    if size > 0 && size < |available| then available[..size] else available
  }

  /**
   * `select_wrap(sql, args, size)`: one translated statement, the rows it
   * yields, nothing written. `failure` is the error the driver raises
   * from the execute or the fetch, which propagates (there is no `try`).
   */
  method SelectWrap(con: Connection, sql: string, args: seq<Value>, size: nat, available: seq<Row>, failure: Option<Error>)
    returns (rs: Result<seq<Row>>)
    modifies con
    ensures rs == if failure.Some? then Err(failure.value) else Ok(Fetch(available, size))
    ensures con.log == old(con.log) + [Execute(ToDriver(sql), args)]
    ensures con.store == old(con.store) && con.snapshot == old(con.snapshot)
  {
    con.log := con.log + [Execute(ToDriver(sql), args)];
    rs := if failure.Some? then Err(failure.value) else Ok(Fetch(available, size));
  }
}
