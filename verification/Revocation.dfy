/** Revoking a batch: what comes back to stock and to the lots, row by row. */
module Revocation {
  import opened Sums
  import opened Tables
  import opened Draw
  import opened Transactions
  import opened Effects
  import opened Invariant

  function RowOf(part: int): Consumption -> int { (c: Consumption) => if c.part == part then c.qty else 0 }

  function RowsSum(rows: seq<Consumption>): int -> int { (p: int) => Sum(rows, RowOf(p)) }

  function DrawsSum(db: Db, batch: int): int -> int { (p: int) => DrawnOfPart(db.lots, db.draws, batch, p) }

  /** The frozen rows are positive and name known parts. */
  ghost predicate RowsOk(db: Db, rows: seq<Consumption>) {
    forall r :: r in rows ==> 0 < r.qty && r.part in db.parts
  }

  /** Stock and lots after giving back: the stock of p rises by `stockUp(p)`, its lots by `lotsUp(p)`. */
  ghost predicate Returned(db: Db, db1: Db, stockUp: int -> int, lotsUp: int -> int) {
    && db1 == db.(parts := db1.parts, lots := db1.lots, nextLot := db1.nextLot, draws := db1.draws)
    && db1.parts.Keys == db.parts.Keys && KeepsIds(db.lots, db1.lots) && db.nextLot <= db1.nextLot
    && (forall p :: p in db.parts ==> db1.parts[p].stock == db.parts[p].stock + stockUp(p))
    && (forall p :: LotTotal(db1.lots, p) == LotTotal(db.lots, p) + lotsUp(p))
  }

  /** The draws of every batch other than `batch` are as before, and `batch` has none. */
  ghost predicate Released(db: Db, db1: Db, batch: int) {
    && (forall d :: d in db1.draws <==> d in db.draws && d.batch != batch)
    && (forall b, p :: b != batch ==>
          DrawnOfPart(db1.lots, db1.draws, b, p) == DrawnOfPart(db.lots, db.draws, b, p))
  }

  /** Once the draws are gone a row comes back as a new lot of its part. */
  lemma RowWithoutDraws(db: Db, batch: int, row: Consumption, now: int)
    requires 0 < row.qty && row.part in db.parts
    requires forall d :: d in db.draws ==> d.batch != batch
    ensures RestoreRow(db, batch, row, now)
         == AddLot(SetStock(db, row.part, db.parts[row.part].stock + row.qty), row.part, row.qty, now)
  {
    var db0 := SetStock(db, row.part, db.parts[row.part].stock + row.qty);
    forall i | 0 <= i < |db.draws| ensures db.draws[i].batch != batch { assert db.draws[i] in db.draws; }
    SumZero(db.draws, DrawnBy(batch));
    KeepAll(db.draws, (d: DrawRow) => d.batch != batch);
    forall i | 0 <= i < |db.lots| ensures RestoredLots(db.lots, db.draws, batch)[i] == db.lots[i] {
      SumZero(db.draws, DrawnAt(batch, db.lots[i].id));
    }
    assert RestoreDraws(db0, batch) == db0;
  }

  lemma ReturnedTransitive(db: Db, db1: Db, db2: Db, f: int -> int, f': int -> int, g: int -> int, g': int -> int,
                           h: int -> int, h': int -> int)
    requires Returned(db, db1, f, f') && Returned(db1, db2, g, g')
    requires forall p :: h(p) == f(p) + g(p)
    requires forall p :: h'(p) == f'(p) + g'(p)
    ensures Returned(db, db2, h, h')
  {
  }

  lemma ReleasedTransitive(db: Db, db1: Db, db2: Db, batch: int)
    requires Released(db, db1, batch) && Released(db1, db2, batch)
    ensures Released(db, db2, batch)
  {
  }

  lemma LaterRowReturned(db: Db, batch: int, r: Consumption, now: int)
    requires LotsOk(db) && DrawsInRange(db) && 0 < r.qty && r.part in db.parts
    requires forall d :: d in db.draws ==> d.batch != batch
    ensures var db1 := RestoreRow(db, batch, r, now);
      Returned(db, db1, RowsSum([r]), RowsSum([r])) && Released(db, db1, batch) && LotsOk(db1) && db1.draws == db.draws
  {
    var db0 := SetStock(db, r.part, db.parts[r.part].stock + r.qty);
    var db1 := AddLot(db0, r.part, r.qty, now);
    RowWithoutDraws(db, batch, r, now);
    forall p ensures RowsSum([r])(p) == if p == r.part then r.qty else 0 {
      SumOnly([r], 0, RowOf(p));
    }
    forall p ensures LotTotal(db1.lots, p) == LotTotal(db.lots, p) + RowsSum([r])(p) {
      AddLotTotal(db0, r.part, r.qty, now, p);
    }
    forall b, p ensures DrawnOfPart(db1.lots, db1.draws, b, p) == DrawnOfPart(db.lots, db.draws, b, p) {
      AddLotDrawn(db0, r.part, r.qty, now, b, p);
    }
  }

  lemma {:induction false} LaterRowsReturned(db: Db, batch: int, rows: seq<Consumption>, now: int)
    requires LotsOk(db) && DrawsInRange(db) && RowsOk(db, rows)
    requires forall d :: d in db.draws ==> d.batch != batch
    ensures var db1 := RestoreRows(db, batch, rows, now);
      Returned(db, db1, RowsSum(rows), RowsSum(rows)) && Released(db, db1, batch) && LotsOk(db1)
    decreases |rows|
  {
    if rows != [] {
      hide Returned, Released;
      var r, rest := rows[0], rows[1..];
      assert r in rows;
      var db1 := RestoreRow(db, batch, r, now);
      LaterRowReturned(db, batch, r, now);
      ReturnedParts(db, db1, RowsSum([r]), RowsSum([r]));
      LaterRowsReturned(db1, batch, rest, now);
      assert rows == [r] + rest;
      forall p ensures RowsSum(rows)(p) == RowsSum([r])(p) + RowsSum(rest)(p) { SumConcat([r], rest, RowOf(p)); }
      var db2 := RestoreRows(db1, batch, rest, now);
      ReturnedTransitive(db, db1, db2, RowsSum([r]), RowsSum([r]), RowsSum(rest), RowsSum(rest), RowsSum(rows), RowsSum(rows));
      ReleasedTransitive(db, db1, db2, batch);
    }
  }

  lemma ReturnedParts(db: Db, db1: Db, f: int -> int, g: int -> int)
    requires Returned(db, db1, f, g)
    ensures db1.parts.Keys == db.parts.Keys && db.nextLot <= db1.nextLot
  {
  }

  /** The first row brings all the batch's draws back to their lots, so nothing is left to make up. */
  lemma FirstRowReturned(db: Db, batch: int, row: Consumption, now: int)
    requires LotsOk(db) && DrawsInRange(db)
    requires 0 < row.qty && row.part in db.parts && row.qty <= Sum(db.draws, DrawnBy(batch))
    ensures var db1 := RestoreRow(db, batch, row, now);
      && Returned(db, db1, RowsSum([row]), DrawsSum(db, batch))
      && Released(db, db1, batch) && LotsOk(db1) && DrawsInRange(db1)
      && db1.lots == RestoredLots(db.lots, db.draws, batch)
  {
    var db1 := RestoreRow(db, batch, row, now);
    forall p ensures RowsSum([row])(p) == if p == row.part then row.qty else 0 {
      SumOnly([row], 0, RowOf(p));
    }
    forall p ensures LotTotal(db1.lots, p) == LotTotal(db.lots, p) + DrawsSum(db, batch)(p) {
      RestoreTotals(db.lots, db.draws, batch, p);
    }
    forall b, p | b != batch
      ensures DrawnOfPart(db1.lots, db1.draws, b, p) == DrawnOfPart(db.lots, db.draws, b, p)
    {
      DeletedDrawsOfPart(db.lots, db1.lots, db.draws, batch, b, p);
    }
    RestoredLotsOk(db, batch);
  }

  lemma RestoredLotsOk(db: Db, batch: int)
    requires LotsOk(db) && DrawsInRange(db)
    ensures LotsOk(RestoreDraws(db, batch))
  {
    var lots := RestoredLots(db.lots, db.draws, batch);
    forall l | l in lots ensures 0 < l.id < db.nextLot && l.part in db.parts && 0 <= l.remaining {
      var i :| 0 <= i < |lots| && lots[i] == l;
      assert db.lots[i] in db.lots;
      var f := DrawnAt(batch, l.id);
      forall k | 0 <= k < |db.draws| ensures 0 <= f(db.draws[k]) { assert db.draws[k] in db.draws; }
      SumNonNegative(db.draws, f);
    }
  }

  /** What the lots get back: the draws, and every row but the first a second time. */
  function LotsUp(db: Db, batch: int, rows: seq<Consumption>): int -> int
    requires rows != []
  {
    (p: int) => DrawnOfPart(db.lots, db.draws, batch, p) + Sum(rows[1..], RowOf(p))
  }

  /** All the rows of a batch: the stock gets each row back once; the lots get the draws back, and every row
      but the first a second time as a new lot. */
  lemma RowsReturned(db: Db, batch: int, rows: seq<Consumption>, now: int)
    requires LotsOk(db) && DrawsInRange(db) && RowsOk(db, rows) && rows != []
    requires rows[0].qty <= Sum(db.draws, DrawnBy(batch))
    ensures var db1 := RestoreRows(db, batch, rows, now);
      Returned(db, db1, RowsSum(rows), LotsUp(db, batch, rows)) && Released(db, db1, batch) && LotsOk(db1)
  {
    hide Returned;
    var r, rest := rows[0], rows[1..];
    assert r in rows && rows == [r] + rest;
    var db1 := RestoreRow(db, batch, r, now);
    var db2 := RestoreRows(db1, batch, rest, now);
    FirstRowReturned(db, batch, r, now);
    ReturnedParts(db, db1, RowsSum([r]), DrawsSum(db, batch));
    LaterRowsReturned(db1, batch, rest, now);
    forall p ensures RowsSum(rows)(p) == RowsSum([r])(p) + RowsSum(rest)(p) { SumConcat([r], rest, RowOf(p)); }
    ReturnedTransitive(db, db1, db2, RowsSum([r]), DrawsSum(db, batch), RowsSum(rest), RowsSum(rest),
      RowsSum(rows), LotsUp(db, batch, rows));
    ReleasedTransitive(db, db1, db2, batch);
  }

  // ---- The rows of a batch under the invariant ----

  lemma RowsFacts(db: Db, batch: int)
    requires ConsumptionsOk(db)
    ensures var rows := ConsumptionRows(db.consumptions, batch);
      && RowsOk(db, rows)
      && (forall r :: r in rows <==> r in db.consumptions && r.batch == batch)
      && (forall p :: Sum(rows, RowOf(p)) == Consumed(db.consumptions, batch, p))
  {
    var w := (c: Consumption) => c.batch == batch;
    var key := (c: Consumption) => c.part;
    InOrderBy(Keep(db.consumptions, w), key);
    forall p ensures Sum(ConsumptionRows(db.consumptions, batch), RowOf(p)) == Consumed(db.consumptions, batch, p) {
      SumOrderBy(Keep(db.consumptions, w), key, RowOf(p));
      SumKeep(db.consumptions, w, RowOf(p), ConsumedBy(batch, p));
    }
  }

  ghost predicate SortedByPart(rows: seq<Consumption>) {
    forall i, j :: 0 <= i < j < |rows| ==> rows[i].part <= rows[j].part
  }

  lemma {:induction false} InsertSorted(x: Consumption, s: seq<Consumption>, key: Consumption -> int)
    requires SortedByPart(s) && forall c :: key(c) == c.part
    ensures SortedByPart(InsertBy(x, s, key))
  {
    if s != [] && key(x) > key(s[0]) {
      InsertSorted(x, s[1..], key);
      var r := InsertBy(x, s[1..], key);
      forall y | y in r ensures s[0].part <= y.part {
        assert y in multiset(r);
        if y != x {
          assert y in s[1..];
        }
      }
    }
  }

  lemma {:induction false} OrderSorted(s: seq<Consumption>, key: Consumption -> int)
    requires forall c :: key(c) == c.part
    ensures SortedByPart(OrderBy(s, key))
  {
    if s != [] {
      OrderSorted(s[1..], key);
      InsertSorted(s[0], OrderBy(s[1..], key), key);
    }
  }

  lemma RowsSorted(consumptions: seq<Consumption>, batch: int)
    ensures SortedByPart(ConsumptionRows(consumptions, batch))
  {
    hide SortedByPart;
    OrderSorted(Keep(consumptions, (c: Consumption) => c.batch == batch), (c: Consumption) => c.part);
  }

  /** The first row has the lowest part of the batch. */
  lemma FirstIsLowest(rows: seq<Consumption>, consumptions: seq<Consumption>, batch: int, p: int)
    requires rows != [] && SortedByPart(rows)
    requires forall r :: r in rows <==> r in consumptions && r.batch == batch
    ensures AfterFirst(consumptions, batch, p) <==> rows[0].part < p
  {
    assert rows[0] in rows;
    if AfterFirst(consumptions, batch, p) {
      var c :| c in consumptions && c.batch == batch && c.part < p;
      assert c in rows;
      var k :| 0 <= k < |rows| && rows[k] == c;
    }
  }

  lemma NothingBeforeFirst(rows: seq<Consumption>, p: int)
    requires rows != [] && SortedByPart(rows) && p < rows[0].part
    ensures Sum(rows, RowOf(p)) == 0
  {
    SumZero(rows, RowOf(p));
  }

  lemma SumHead(rows: seq<Consumption>, p: int)
    requires rows != []
    ensures Sum(rows, RowOf(p)) == (if rows[0].part == p then rows[0].qty else 0) + Sum(rows[1..], RowOf(p))
  {
  }

  /** Every row but the first is of a part after the first: together they are the excess the revocation adds. */
  lemma LaterRowsAreExcess(db: Db, batch: int, p: int)
    requires ConsumptionsOk(db) && ConsumptionRows(db.consumptions, batch) != []
    ensures Sum(ConsumptionRows(db.consumptions, batch)[1..], RowOf(p))
         == if AfterFirst(db.consumptions, batch, p) then Consumed(db.consumptions, batch, p) else 0
  {
    var rows := ConsumptionRows(db.consumptions, batch);
    RowsFacts(db, batch);
    assert rows[0] in rows;
    assert rows[0].qty == Consumed(db.consumptions, batch, rows[0].part);
    hide ConsumptionRows, AfterFirst, ConsumptionsOk, Consumed, SortedByPart, RowsOk, Sum, RowOf;
    RowsSorted(db.consumptions, batch);
    FirstIsLowest(rows, db.consumptions, batch, p);
    SumHead(rows, p);
    SumHead(rows, rows[0].part);
    if p < rows[0].part {
      NothingBeforeFirst(rows, p);
    }
  }

  /** Without frozen rows a completed batch drew nothing. */
  lemma NoRowsNoDraws(db: Db, batch: Batch, p: int)
    requires Inv(db) && batch in db.batches && batch.status == COMPLETED
    requires ConsumptionRows(db.consumptions, batch.id) == []
    ensures DrawnOfPart(db.lots, db.draws, batch.id, p) == 0 && Consumed(db.consumptions, batch.id, p) == 0
  {
    RowsFacts(db, batch.id);
    assert DrawsAreFrozen(db, batch.id);
    SumZero(ConsumptionRows(db.consumptions, batch.id), RowOf(p));
  }
}
