/** The outcome protocol of destructive operations: what an error says about the data, from the database adapters
    through the service up to the HTTP status, under every fault of every statement. */
module Outcome {

  datatype Option<+T> = None | Some(value: T)

  // ---- Errors and how they are read ----

  datatype BulkOutcome = BulkApplied | BulkUnknown

  datatype OpState = OpApplied | OpUnknown

  /** An error tree: a plain failure, two errors joined, or an error marked by the repository or the service. */
  datatype Error =
    | Failed
    | Joined(first: Error, second: Error)
    | BulkLoad(outcome: BulkOutcome, inner: Error)
    | Operation(state: OpState, inner: Error)

  /** errors.As for the repository's mark: the first in depth-first order. */
  function FindBulkLoad(e: Error): Option<BulkOutcome> {
    match e
    case Failed => None
    case Joined(a, b) => var x := FindBulkLoad(a); if x.Some? then x else FindBulkLoad(b)
    case BulkLoad(o, _) => Some(o)
    case Operation(_, inner) => FindBulkLoad(inner)
  }

  function FindOperation(e: Error): Option<OpState> {
    match e
    case Failed => None
    case Joined(a, b) => var x := FindOperation(a); if x.Some? then x else FindOperation(b)
    case BulkLoad(_, inner) => FindOperation(inner)
    case Operation(s, _) => Some(s)
  }

  /** All marks of an error chain, depth first. */
  function Marks(e: Error): (seq<BulkOutcome>, seq<OpState>) {
    match e
    case Failed => ([], [])
    case Joined(a, b) => (Marks(a).0 + Marks(b).0, Marks(a).1 + Marks(b).1)
    case BulkLoad(o, inner) => ([o] + Marks(inner).0, Marks(inner).1)
    case Operation(s, inner) => (Marks(inner).0, [s] + Marks(inner).1)
  }

  /** Each search finds the first mark of its kind there is anywhere in the chain. */
  lemma {:induction false} FirstMarkIsFound(e: Error)
    ensures FindBulkLoad(e) == if Marks(e).0 == [] then None else Some(Marks(e).0[0])
    ensures FindOperation(e) == if Marks(e).1 == [] then None else Some(Marks(e).1[0])
  {
    match e
    case Failed =>
    case Joined(a, b) => FirstMarkIsFound(a); FirstMarkIsFound(b);
    case BulkLoad(_, inner) => FirstMarkIsFound(inner);
    case Operation(_, inner) => FirstMarkIsFound(inner);
  }

  function Join(a: Option<Error>, b: Option<Error>): Option<Error> {
    if a.None? then b else if b.None? then a else Some(Joined(a.value, b.value))
  }

  function MarkOf(e: Option<Error>): Option<BulkOutcome> { if e.None? then None else FindBulkLoad(e.value) }

  predicate Unmarked(e: Option<Error>) { e.Some? ==> FindOperation(e.value).None? }

  /** Joining keeps the first mark there is. */
  lemma JoinKeepsMark(a: Option<Error>, b: Option<Error>)
    ensures MarkOf(Join(a, b)) == if MarkOf(a).Some? then MarkOf(a) else MarkOf(b)
    ensures Unmarked(a) && Unmarked(b) ==> Unmarked(Join(a, b))
  {
  }

  function BulkLoadOutcome(e: Error): Error {
    match FindBulkLoad(e)
    case None => e
    case Some(o) => Operation(if o.BulkApplied? then OpApplied else OpUnknown, e)
  }

  datatype State = RolledBack | Unknown | Applied

  function DestructiveState(e: Error): State {
    match FindOperation(e)
    case None => RolledBack
    case Some(s) => if s.OpApplied? then Applied else Unknown
  }

  function DestructiveStatus(s: State): int { if s.RolledBack? then 400 else 500 }

  /** What the client is told about an error of a bulk load. */
  function Told(e: Error): State { DestructiveState(BulkLoadOutcome(e)) }

  /** The client is told what the repository marked, however deep the mark sits and whatever is joined around it. */
  lemma ToldIsMarked(e: Error)
    requires FindOperation(e).None?
    ensures Told(e) == match FindBulkLoad(e)
      case None => RolledBack
      case Some(BulkApplied) => Applied
      case Some(BulkUnknown) => Unknown
    ensures DestructiveStatus(Told(e)) == 400 <==> FindBulkLoad(e).None?
  {
  }

  // ---- A connection whose every statement can fail ----

  /** Refused: an error without effect, the connection works on. Lost: the effect happened, the reply and the
      connection are gone. Broken: no effect and the connection is gone. Ended: a commit that fails and leaves no
      transaction behind, having applied it or not. */
  datatype Reply = Done | Refused | Lost | Broken | Ended(applied: bool)

  predicate Happens(r: Reply) { r.Done? || r.Lost? }

  predicate Breaks(r: Reply) { r.Lost? || r.Broken? }

  /** What each statement of one call replies, if it is reached. */
  datatype Faults = Faults(checkout: Reply, read: Reply, disableForeignKeys: Reply, disableUnique: Reply,
    begin: Reply, body: Reply, rollback: Reply, commit: Reply,
    restoreForeignKeys: Reply, restoreUnique: Reply, defer: Reply, undefer: Reply, close: Reply)

  /** Pooled connections are used again; discarded ones never are. */
  datatype Fate = CheckedOut | Pooled | Discarded

  /** A connection to a database that holds a D. */
  class Connection<D> {
    /** What the database durably holds, and what the open transaction would make it hold. */
    var data: D
    var tx: Option<D>
    /** Session settings that survive a return to the pool. */
    var foreignKeys: int
    var unique: int
    var deferred: bool
    var alive: bool
    var unusable: bool
    var fate: Fate

    /** A dead connection holds no transaction. */
    predicate Valid()
      reads this
    {
      !alive ==> tx.None?
    }

    predicate Settings(fk: int, uq: int, d: bool)
      reads this
    {
      foreignKeys == fk && unique == uq && deferred == d
    }

    /** Safe to hand to the next caller: a dead connection is thrown away by the pool, a live one must have these
        settings and no open transaction. */
    predicate Clean(fk: int, uq: int, d: bool)
      reads this
    {
      fate == Pooled && alive ==> tx.None? && Settings(fk, uq, d)
    }

    constructor (held: D, fk: int, uq: int)
      ensures data == held && tx.None? && alive && !unusable && fate == Pooled && Settings(fk, uq, false)
    {
      data, tx, foreignKeys, unique, deferred := held, None, fk, uq, false;
      alive, unusable, fate := true, false, Pooled;
    }

    /** Take the connection out of the pool. */
    method Checkout(r: Reply) returns (ok: bool)
      modifies this`fate
      ensures ok <==> r.Done?
      ensures fate == if ok then CheckedOut else old(fate)
    {
      ok := r.Done?;
      if ok {
        fate := CheckedOut;
      }
    }

    /** Any statement: a broken connection fails everything after, and the server rolls its transaction back. */
    method Query(r: Reply) returns (ok: bool)
      requires Valid()
      modifies this`alive, this`tx
      ensures Valid()
      ensures ok <==> old(alive) && r.Done?
      ensures alive <==> old(alive) && !Breaks(r)
      ensures tx == if alive then old(tx) else None
    {
      ok := alive && r.Done?;
      if Breaks(r) {
        alive, tx := false, None;
      }
    }

    method SetForeignKeys(value: int, r: Reply) returns (ok: bool)
      requires Valid()
      modifies this`alive, this`tx, this`foreignKeys
      ensures Valid()
      ensures ok <==> old(alive) && r.Done?
      ensures alive <==> old(alive) && !Breaks(r)
      ensures tx == if alive then old(tx) else None
      ensures foreignKeys == if old(alive) && Happens(r) then value else old(foreignKeys)
    {
      if alive && Happens(r) {
        foreignKeys := value;
      }
      ok := Query(r);
    }

    method SetUnique(value: int, r: Reply) returns (ok: bool)
      requires Valid()
      modifies this`alive, this`tx, this`unique
      ensures Valid()
      ensures ok <==> old(alive) && r.Done?
      ensures alive <==> old(alive) && !Breaks(r)
      ensures tx == if alive then old(tx) else None
      ensures unique == if old(alive) && Happens(r) then value else old(unique)
    {
      if alive && Happens(r) {
        unique := value;
      }
      ok := Query(r);
    }

    method SetDeferred(value: bool, r: Reply) returns (ok: bool)
      requires Valid()
      modifies this`alive, this`tx, this`deferred
      ensures Valid()
      ensures ok <==> old(alive) && r.Done?
      ensures alive <==> old(alive) && !Breaks(r)
      ensures tx == if alive then old(tx) else None
      ensures deferred == if old(alive) && Happens(r) then value else old(deferred)
    {
      if alive && Happens(r) {
        deferred := value;
      }
      ok := Query(r);
    }

    method Begin(r: Reply) returns (ok: bool)
      requires Valid() && tx.None?
      modifies this`alive, this`tx
      ensures Valid()
      ensures ok <==> old(alive) && r.Done?
      ensures alive <==> old(alive) && !Breaks(r)
      ensures tx == if ok then Some(data) else None
    {
      if alive && Happens(r) {
        tx := Some(data);
      }
      ok := Query(r);
    }

    /** The caller's own statements; on an error they may have written anything into the transaction. */
    method Body(wrote: D, r: Reply) returns (ok: bool)
      requires Valid() && tx.Some?
      modifies this`alive, this`tx
      ensures Valid()
      ensures ok <==> r.Done?
      ensures alive <==> !Breaks(r)
      ensures tx == if alive then Some(wrote) else None
    {
      tx := Some(wrote);
      ok := Query(r);
    }

    /** A rollback without an open transaction is an error. */
    method Rollback(r: Reply) returns (ok: bool)
      requires Valid()
      modifies this`alive, this`tx
      ensures Valid()
      ensures ok <==> old(tx).Some? && r.Done?
      ensures alive <==> old(alive) && !Breaks(r)
      ensures tx == if ok || !alive then None else old(tx)
    {
      var open := tx.Some?;
      if Happens(r) {
        tx := None;
      }
      ok := Query(r);
      ok := ok && open;
    }

    method Commit(r: Reply) returns (ok: bool)
      requires Valid() && tx.Some?
      modifies this`alive, this`tx, this`data
      ensures Valid()
      ensures ok <==> r.Done?
      ensures alive <==> !Breaks(r)
      ensures data == if Happens(r) || (r.Ended? && r.applied) then old(tx).value else old(data)
      ensures tx == if r.Refused? then old(tx) else None
    {
      if Happens(r) || (r.Ended? && r.applied) {
        data := tx.value;
      }
      if Happens(r) || r.Ended? {
        tx := None;
      }
      ok := Query(r);
    }

    method MarkUnusable()
      modifies this`unusable
      ensures unusable
    {
      unusable := true;
    }

    /** Throw the connection away; the server rolls back what was open. */
    method Discard()
      modifies this`fate, this`tx
      ensures fate == Discarded && tx.None?
    {
      fate, tx := Discarded, None;
    }

    /** Hand the connection back: a marked or discarded one is not pooled, a failed return closes it. */
    method Close(r: Reply) returns (ok: bool)
      requires fate == Discarded ==> tx.None?
      modifies this`fate, this`tx
      ensures fate == if unusable || old(fate) == Discarded || !r.Done? then Discarded else Pooled
      ensures ok <==> unusable || r.Done?
      ensures tx == if fate == Discarded then None else old(tx)
    {
      ok := unusable || r.Done?;
      if unusable || fate == Discarded || !r.Done? {
        Discard();
      } else {
        fate := Pooled;
      }
    }
  }

  // ---- The MySQL adapter ----

  predicate MySQLReachesBody(f: Faults) {
    f.checkout.Done? && f.read.Done? && f.disableForeignKeys.Done? && f.disableUnique.Done? && f.begin.Done?
  }

  /** In doubt: a rollback was needed and failed, or the commit did not answer. */
  predicate MySQLInDoubt(f: Faults) {
    MySQLReachesBody(f) && if f.body.Done? then !f.commit.Done? else Breaks(f.body) || !f.rollback.Done?
  }

  predicate MySQLCommits(f: Faults) { MySQLReachesBody(f) && f.body.Done? && f.commit.Done? }

  /** The part under the deferred restore: returns its error and the two flags. */
  method MySQLOperation<D>(conn: Connection<D>, f: Faults, wrote: D) returns (err: Option<Error>, committed: bool, uncertain: bool)
    requires conn.Valid() && conn.alive && conn.tx.None? && !conn.unusable
    requires f.checkout.Done? && f.read.Done?
    modifies conn
    ensures conn.Valid() && conn.fate == old(conn.fate) && conn.deferred == old(conn.deferred)
    ensures uncertain == MySQLInDoubt(f) && committed == MySQLCommits(f) && (err.None? <==> committed)
    ensures conn.unusable == uncertain && (!uncertain ==> conn.tx.None?)
    ensures committed ==> conn.data == wrote
    ensures !committed && !uncertain ==> conn.data == old(conn.data)
    ensures conn.data == old(conn.data) || conn.data == wrote
    ensures MarkOf(err).None? && Unmarked(err)
  {
    committed, uncertain := false, false;
    var ok := conn.SetForeignKeys(0, f.disableForeignKeys);
    if !ok {
      return Some(Failed), false, false;
    }
    ok := conn.SetUnique(0, f.disableUnique);
    if !ok {
      return Some(Failed), false, false;
    }
    ok := conn.Begin(f.begin);
    if !ok {
      return Some(Failed), false, false;
    }
    ok := conn.Body(wrote, f.body);
    if !ok {
      var rolledBack := conn.Rollback(f.rollback);
      if !rolledBack {
        conn.MarkUnusable();
        return Some(Joined(Failed, Failed)), false, true;
      }
      return Some(Failed), false, false;
    }
    ok := conn.Commit(f.commit);
    if !ok {
      conn.MarkUnusable();
      return Some(Failed), false, true;
    }
    return None, true, false;
  }

  method WithMySQLChecksDisabled<D>(conn: Connection<D>, f: Faults, wrote: D) returns (err: Option<Error>)
    requires conn.Valid() && conn.alive && conn.tx.None? && !conn.unusable && conn.fate == CheckedOut && f.checkout.Done?
    modifies conn
    ensures conn.Valid() && conn.fate == CheckedOut && (!conn.unusable ==> conn.tx.None?)
    ensures !conn.unusable && conn.alive ==> conn.Settings(old(conn.foreignKeys), old(conn.unique), old(conn.deferred))
    ensures err.None? ==> MySQLCommits(f) && !conn.unusable
    ensures err.Some? ==> MarkOf(err) == if MySQLInDoubt(f) then Some(BulkUnknown) else if MySQLCommits(f) then Some(BulkApplied) else None
    ensures Unmarked(err)
    ensures MySQLCommits(f) ==> conn.data == wrote
    ensures !MySQLCommits(f) && !MySQLInDoubt(f) ==> conn.data == old(conn.data)
    ensures conn.data == old(conn.data) || conn.data == wrote
  {
    var ok := conn.Query(f.read);
    if !ok {
      return Some(Failed);
    }
    var previousForeignKeys, previousUnique := conn.foreignKeys, conn.unique;
    var committed, uncertain;
    err, committed, uncertain := MySQLOperation(conn, f, wrote);
    var keys := conn.SetForeignKeys(previousForeignKeys, f.restoreForeignKeys);
    var uniques := conn.SetUnique(previousUnique, f.restoreUnique);
    var keysErr, uniquesErr := if keys then None else Some(Failed), if uniques then None else Some(Failed);
    JoinKeepsMark(keysErr, uniquesErr);
    var restoreErr := Join(keysErr, uniquesErr);
    if restoreErr.Some? {
      conn.MarkUnusable();
      JoinKeepsMark(err, restoreErr);
      err := Join(err, restoreErr);
    }
    if uncertain {
      err := Some(BulkLoad(BulkUnknown, err.value));
    } else if committed && err.Some? {
      err := Some(BulkLoad(BulkApplied, err.value));
    }
  }

  /** What a client is told is true under every fault: no error or applied means committed, rolled back means the
      data is as before, unknown exactly when the outcome is in doubt; and a connection that goes back to the pool
      alive has its old settings and no open transaction. */
  method MySQLWithBulkLoad<D>(conn: Connection<D>, f: Faults, wrote: D) returns (err: Option<Error>)
    requires conn.Valid() && conn.alive && conn.tx.None? && !conn.unusable && conn.fate == Pooled
    modifies conn
    ensures Unmarked(err)
    ensures err.None? || Told(err.value) == Applied <==> MySQLCommits(f)
    ensures err.Some? && Told(err.value) == Unknown <==> MySQLInDoubt(f)
    ensures MySQLCommits(f) ==> conn.data == wrote
    ensures err.Some? && Told(err.value) == RolledBack ==> conn.data == old(conn.data)
    ensures conn.data == old(conn.data) || conn.data == wrote
    ensures conn.Clean(old(conn.foreignKeys), old(conn.unique), old(conn.deferred)) && conn.fate != CheckedOut
  {
    var ok := conn.Checkout(f.checkout);
    if !ok {
      return Some(Failed);
    }
    var operationErr := WithMySQLChecksDisabled(conn, f, wrote);
    var closed := conn.Close(f.close);
    err := operationErr;
    if err.None? && !closed {
      err := Some(Failed);
    }
    if err.Some? && operationErr.None? {
      err := Some(BulkLoad(BulkApplied, err.value));
    }
  }

  // ---- The SQLite adapter ----

  predicate SQLiteReachesBody(f: Faults) { f.checkout.Done? && f.defer.Done? && f.begin.Done? }

  /** A commit that leaves its transaction open can still be rolled back; any other failed one is in doubt. */
  predicate SQLiteInDoubt(f: Faults) {
    SQLiteReachesBody(f) && if f.body.Done? then !f.commit.Done? && !(f.commit.Refused? && f.rollback.Done?)
                            else Breaks(f.body) || !f.rollback.Done?
  }

  predicate SQLiteCommits(f: Faults) { SQLiteReachesBody(f) && f.body.Done? && f.commit.Done? }

  method WithImmediateConn<D>(conn: Connection<D>, f: Faults, wrote: D) returns (err: Option<Error>)
    requires conn.Valid() && conn.alive && conn.tx.None? && f.checkout.Done? && f.defer.Done?
    modifies conn`alive, conn`tx, conn`data
    ensures conn.Valid()
    ensures err.None? <==> SQLiteCommits(f)
    ensures MarkOf(err) == (if SQLiteInDoubt(f) then Some(BulkUnknown) else None) && Unmarked(err)
    ensures !SQLiteInDoubt(f) ==> conn.tx.None? && conn.data == if SQLiteCommits(f) then wrote else old(conn.data)
    ensures conn.data == old(conn.data) || conn.data == wrote
  {
    var ok := conn.Begin(f.begin);
    if !ok {
      return Some(Failed);
    }
    ok := conn.Body(wrote, f.body);
    if !ok {
      var rolledBack := conn.Rollback(f.rollback);
      return Some(if rolledBack then Failed else BulkLoad(BulkUnknown, Joined(Failed, Failed)));
    }
    ok := conn.Commit(f.commit);
    if !ok {
      var rolledBack := conn.Rollback(f.rollback);
      return Some(if rolledBack then Failed else BulkLoad(BulkUnknown, Joined(Failed, Failed)));
    }
    return None;
  }

  /** The same truth for SQLite; its setting is switched off on the way out, so a clean connection comes back clean. */
  method SQLiteWithBulkLoad<D>(conn: Connection<D>, f: Faults, wrote: D) returns (err: Option<Error>)
    requires conn.Valid() && conn.alive && conn.tx.None? && !conn.unusable && conn.fate == Pooled && !conn.deferred
    modifies conn
    ensures Unmarked(err)
    ensures err.None? || Told(err.value) == Applied <==> SQLiteCommits(f)
    ensures err.Some? && Told(err.value) == Unknown <==> SQLiteInDoubt(f)
    ensures SQLiteCommits(f) ==> conn.data == wrote
    ensures err.Some? && Told(err.value) == RolledBack ==> conn.data == old(conn.data)
    ensures conn.data == old(conn.data) || conn.data == wrote
    ensures conn.Clean(old(conn.foreignKeys), old(conn.unique), false) && conn.fate != CheckedOut
  {
    var ok := conn.Checkout(f.checkout);
    if !ok {
      return Some(Failed);
    }
    ok := conn.SetDeferred(true, f.defer);
    if !ok {
      var _ := conn.Close(f.close);
      return Some(Failed);
    }
    err := WithImmediateConn(conn, f, wrote);
    var undeferred := conn.SetDeferred(false, f.undefer);
    var cleanupErr := if undeferred then None else Some(Failed);
    if cleanupErr.Some? || (err.Some? && FindBulkLoad(err.value) == Some(BulkUnknown)) {
      conn.Discard();
    }
    var closed := conn.Close(f.close);
    var closeErr := if closed then None else Some(Failed);
    if err.None? && (cleanupErr.Some? || closeErr.Some?) {
      return Some(BulkLoad(BulkApplied, Join(cleanupErr, closeErr).value));
    }
    JoinKeepsMark(err, cleanupErr);
    JoinKeepsMark(Join(err, cleanupErr), closeErr);
    err := Join(Join(err, cleanupErr), closeErr);
  }

  // ---- Restore and clear ----

  /** What the service meets on the way: the verdicts and copies before the bulk load, the counts and the audit
      after it. `snapshotRestored` is the reply of the whole-file replacement. */
  datatype Surroundings = Surroundings(sqlite: bool, isSnapshot: bool, verified: bool, readable: bool, copied: bool,
    snapshotRestored: Reply, counted: bool, audited: bool)

  /** A dump is replayed only on MySQL, after it was verified, read and a copy was taken. */
  predicate ReplaysDump(w: Surroundings) { !w.isSnapshot && !w.sqlite && w.verified && w.readable && w.copied }

  method RestoreDatabase<D>(conn: Connection<D>, w: Surroundings, f: Faults, wrote: D) returns (err: Option<Error>)
    requires conn.Valid() && conn.alive && conn.tx.None? && !conn.unusable && conn.fate == Pooled
    modifies conn
    ensures err.None? ==> conn.data == wrote
    ensures err.Some? && DestructiveState(err.value) == Applied ==> conn.data == wrote
    ensures !w.isSnapshot ==> (err.None? || DestructiveState(err.value) == Applied <==> ReplaysDump(w) && MySQLCommits(f))
    ensures err.Some? && DestructiveState(err.value) == RolledBack ==> conn.data == old(conn.data)
    ensures err.Some? && DestructiveState(err.value) == Unknown ==>
      if w.isSnapshot then !w.snapshotRestored.Done? else MySQLInDoubt(f)
    ensures conn.data == old(conn.data) || conn.data == wrote
  {
    if w.isSnapshot {
      if !w.sqlite || !w.verified || !w.copied {
        return Some(Failed);
      }
      if Happens(w.snapshotRestored) {
        conn.data := wrote;
      }
      return if w.snapshotRestored.Done? then None else Some(Operation(OpUnknown, Failed));
    }
    if w.sqlite || !w.verified || !w.readable || !w.copied {
      return Some(Failed);
    }
    err := MySQLWithBulkLoad(conn, f, wrote);
    if err.Some? {
      return Some(BulkLoadOutcome(err.value));
    }
    if !w.counted || !w.audited {
      return Some(Operation(OpApplied, Failed));
    }
  }

  method ClearDatabase<D>(conn: Connection<D>, w: Surroundings, f: Faults, cleared: D) returns (err: Option<Error>)
    requires conn.Valid() && conn.alive && conn.tx.None? && !conn.unusable && conn.fate == Pooled && !conn.deferred
    modifies conn
    ensures err.None? || DestructiveState(err.value) == Applied ==> conn.data == cleared
    ensures err.None? || DestructiveState(err.value) == Applied <==>
      w.copied && if w.sqlite then SQLiteCommits(f) else MySQLCommits(f)
    ensures err.Some? && DestructiveState(err.value) == RolledBack ==> conn.data == old(conn.data)
    ensures err.Some? && DestructiveState(err.value) == Unknown ==> if w.sqlite then SQLiteInDoubt(f) else MySQLInDoubt(f)
    ensures conn.data == old(conn.data) || conn.data == cleared
  {
    if !w.copied {
      return Some(Failed);
    }
    if w.sqlite {
      err := SQLiteWithBulkLoad(conn, f, cleared);
    } else {
      err := MySQLWithBulkLoad(conn, f, cleared);
    }
    if err.Some? {
      return Some(BulkLoadOutcome(err.value));
    }
    if !w.audited {
      return Some(Operation(OpApplied, Failed));
    }
  }
}
