/** Restoring and clearing end to end: the tables that the transaction's work makes, the faults of the connection it
    runs on, and what the client is told. */
module RestoreOutcome {
  import O = Outcome
  import opened Lines
  import opened Dump
  import opened Targets
  import opened Restore

  /** The work's own failure is an error of the body; a body that works may still lose its connection. */
  function BodyFaults(f: O.Faults, worked: bool): O.Faults {
    if worked || !f.body.Done? then f else f.(body := O.Refused)
  }

  /** A service that meets the database at rest. */
  predicate AtRest(conn: O.Connection<Db>)
    reads conn
  {
    conn.Valid() && conn.alive && conn.tx.None? && !conn.unusable && conn.fate.Pooled? && !conn.deferred
  }

  /** A table's rows once the listed tables are empty. */
  function Remaining(db: Db, business: seq<string>, table: Name): seq<string> {
    if Cleared(table, business) then [] else Rows(db, table)
  }

  predicate ToldDone(err: O.Option<O.Error>) { err.None? || O.DestructiveState(err.value).Applied? }

  predicate ToldUndone(err: O.Option<O.Error>) { err.Some? && O.DestructiveState(err.value).RolledBack? }

  /** Importing a dump. Told done, the client finds the tables cleared and every wanted statement executed, none of
      them refused; told rolled back, it finds them as they were. */
  method RestoreDump(conn: O.Connection<Db>, w: O.Surroundings, f: O.Faults, content: string,
                     business: seq<string>, preserved: seq<string>, rejects: set<string>, locked: set<string>)
    returns (err: O.Option<O.Error>)
    requires AtRest(conn) && !w.isSnapshot
    modifies conn
    ensures ToldDone(err) ==>
      conn.data == InsertAll(Clear(old(conn.data), business), Replay(content, preserved, rejects).executed)
    ensures ToldDone(err) <==>
      && O.ReplaysDump(w) && O.MySQLCommits(f)
      && Replay(content, preserved, rejects).error.None? && forall t :: t in business ==> t !in locked
    ensures ToldUndone(err) ==> conn.data == old(conn.data)
  {
    hide Replay, InsertAll, Clear;
    var work := new Transaction(conn.data, rejects, locked);
    var worked := work.ClearAndReplay(content, business, preserved);
    err := O.RestoreDatabase(conn, w, BodyFaults(f, worked), work.tables);
  }

  /** Importing a printed dump, table by table: told done, the client finds what the restore leaves in each; told
      rolled back, it finds them as they were; and it is told done exactly when nothing was refused, on a database
      that takes dumps, and the commit went through. */
  method RestorePrinted(conn: O.Connection<Db>, w: O.Surroundings, f: O.Faults, items: seq<Item>,
                        business: seq<string>, preserved: seq<string>, rejects: set<string>, locked: set<string>)
    returns (err: O.Option<O.Error>)
    requires AtRest(conn) && !w.isSnapshot && Plain(items) && ItemsOk(items, preserved)
    modifies conn
    ensures ToldDone(err) <==>
      && O.ReplaysDump(w) && O.MySQLCommits(f)
      && NoneRejected(Wanted(items, preserved), rejects) && forall t :: t in business ==> t !in locked
    ensures ToldDone(err) ==>
      forall table :: Rows(conn.data, table) == Remaining(old(conn.data), business, table) + Of(Wanted(items, preserved), table)
    ensures ToldUndone(err) ==> conn.data == old(conn.data)
  {
    hide Replay, InsertAll, Clear, Plain, ItemsOk, NoneRejected, Wanted, Of, Print, Rows, Cleared;
    ReplaySucceedsIff(items, preserved, rejects);
    err := RestoreDump(conn, w, f, Print(items), business, preserved, rejects, locked);
    if ToldDone(err) {
      SuccessIsRestored(old(conn.data), items, business, preserved, rejects);
      forall table ensures Rows(conn.data, table) == Remaining(old(conn.data), business, table) + Of(Wanted(items, preserved), table) {
        RestoreLeaves(old(conn.data), items, business, preserved, table);
      }
    }
  }

  /** Clearing: told done, the client finds exactly the listed tables empty; told rolled back, nothing changed. */
  method ClearTables(conn: O.Connection<Db>, w: O.Surroundings, f: O.Faults, business: seq<string>, locked: set<string>)
    returns (err: O.Option<O.Error>)
    requires AtRest(conn)
    modifies conn
    ensures ToldDone(err) ==> forall t :: t in business ==> t !in locked
    ensures ToldDone(err) ==> forall table :: Rows(conn.data, table) == Remaining(old(conn.data), business, table)
    ensures ToldUndone(err) ==> conn.data == old(conn.data)
  {
    hide Clear, Rows, Cleared;
    var work := new Transaction(conn.data, {}, locked);
    var worked := work.DeleteBusinessTables(business);
    forall table ensures Rows(Clear(old(conn.data), business), table) == Remaining(old(conn.data), business, table) {
      ClearRows(old(conn.data), business, table);
    }
    err := O.ClearDatabase(conn, w, BodyFaults(f, worked), work.tables);
  }
}
