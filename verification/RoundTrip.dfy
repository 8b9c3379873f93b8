/** Completing a batch and revoking it again, and when the stock matches the lots. */
module RoundTrip {
  import opened Sums
  import opened Bom
  import opened Tables
  import opened Draw
  import opened Transactions
  import opened Effects
  import opened Invariant
  import opened Revocation
  import opened Runs

  // ---- When stock_qty equals the lots ----

  /** No revoked batch consumed more than one part. */
  ghost predicate OnlySinglePartRevocations(db: Db) {
    forall b, c, d
      | b in db.batches && b.status == REVOKED && c in db.consumptions && d in db.consumptions && c.batch == d.batch == b.id
      :: c.part == d.part
  }

  lemma NoExcess(db: Db, p: int)
    requires Inv(db) && OnlySinglePartRevocations(db)
    ensures Excess(db, p) == 0
  {
    forall i | 0 <= i < |db.batches| ensures ExcessOf(db.consumptions, p)(db.batches[i]) == 0 {
      var b := db.batches[i];
      assert b in db.batches;
      if b.status == REVOKED && AfterFirst(db.consumptions, b.id, p) {
        var c :| c in db.consumptions && c.batch == b.id && c.part < p;
        forall k | 0 <= k < |db.consumptions| ensures ConsumedBy(b.id, p)(db.consumptions[k]) == 0 {
          assert db.consumptions[k] in db.consumptions;
        }
        SumZero(db.consumptions, ConsumedBy(b.id, p));
      }
    }
    SumZero(db.batches, ExcessOf(db.consumptions, p));
  }

  lemma SomeExcess(db: Db, b: Batch, c: Consumption, d: Consumption)
    requires Inv(db) && b in db.batches && b.status == REVOKED
    requires c in db.consumptions && d in db.consumptions && c.batch == b.id == d.batch && c.part < d.part
    ensures d.part in db.parts && 0 < Excess(db, d.part)
  {
    var f := ExcessOf(db.consumptions, d.part);
    forall i | 0 <= i < |db.batches| ensures 0 <= f(db.batches[i]) {
      ConsumedNonNegative(db, db.batches[i].id, d.part);
    }
    SumNonNegative(db.batches, f);
    var i :| 0 <= i < |db.batches| && db.batches[i] == b;
    assert f(b) == d.qty;
  }

  /** In a state satisfying the invariant, every part's stock equals the sum of its lots' remainders if and
      only if no revoked batch had consumed more than one part. */
  lemma StockMatchesLotsIff(db: Db)
    requires Inv(db)
    ensures (forall p :: p in db.parts ==> LotTotal(db.lots, p) == db.parts[p].stock) <==> OnlySinglePartRevocations(db)
  {
    if OnlySinglePartRevocations(db) {
      forall p | p in db.parts ensures LotTotal(db.lots, p) == db.parts[p].stock { NoExcess(db, p); }
    } else {
      var b, c, d :| b in db.batches && b.status == REVOKED && c in db.consumptions && d in db.consumptions
        && c.batch == b.id && d.batch == b.id && c.part != d.part;
      if c.part < d.part { SomeExcess(db, b, c, d); } else { SomeExcess(db, b, d, c); }
    }
  }

  /** The same for every state that any run from an empty ledger reaches. */
  lemma ReachableStockMatchesLotsIff(ops: seq<Op>)
    ensures var db := Run(EMPTY_DB, ops);
      (forall p :: p in db.parts ==> LotTotal(db.lots, p) == db.parts[p].stock) <==> OnlySinglePartRevocations(db)
  {
    EmptyInv();
    RunKeepsInv(EMPTY_DB, ops);
    StockMatchesLotsIff(Run(EMPTY_DB, ops));
  }

  // ---- A completion, row by row ----

  /** The lots a batch drew from are down by exactly its new draw rows, which follow the old ones. */
  ghost predicate TookRows(db: Db, db1: Db, batch: int) {
    && |db1.lots| == |db.lots|
    && (forall i :: 0 <= i < |db.lots| ==> db1.lots[i] == db.lots[i].(remaining :=
          db.lots[i].remaining + Drawn(db.draws, batch, db.lots[i].id) - Drawn(db1.draws, batch, db.lots[i].id)))
    && db.draws <= db1.draws
    && (forall i :: |db.draws| <= i < |db1.draws| ==> db1.draws[i].batch == batch)
  }

  lemma TakePartRows(db: Db, batch: Batch, part: int)
    requires TakePart(db, batch, part).Ok?
    ensures TookRows(db, TakePart(db, batch, part).value, batch.id)
  {
    hide Demand, Greedy, Offers, FifoList, PlanFor, Sum;
    var need := Demand(db, batch, part);
    var takes := Greedy(Offers(FifoList(db.lots, part), PlanFor(db.allocs, batch.id, part)), need);
    var db1 := TakePart(db, batch, part).value;
    hide Drawn;
    forall i | 0 <= i < |db.lots| && 0 < need
      ensures Drawn(db1.draws, batch.id, db.lots[i].id)
           == Drawn(db.draws, batch.id, db.lots[i].id) + Sum(takes, TakenAt(db.lots[i].id))
    {
      DrawnAfter(db.draws, takes, batch.id, batch.id, db.lots[i].id);
    }
  }

  lemma TookRowsTransitive(db: Db, db1: Db, db2: Db, batch: int)
    requires TookRows(db, db1, batch) && TookRows(db1, db2, batch)
    ensures TookRows(db, db2, batch)
  {
    forall i | |db.draws| <= i < |db2.draws| ensures db2.draws[i].batch == batch {
      assert i < |db1.draws| ==> db1.draws[i] == db2.draws[i];
    }
  }

  lemma {:induction false} TakePartsRows(db: Db, batch: Batch, order: seq<int>)
    requires TakeParts(db, batch, order).Ok?
    ensures TookRows(db, TakeParts(db, batch, order).value, batch.id)
    decreases |order|
  {
    hide Demand;
    if order != [] {
      if Demand(db, batch, order[0]) <= 0 {
        TakePartsRows(db, batch, order[1..]);
      } else {
        hide TookRows;
        var db1 := TakePart(db, batch, order[0]).value;
        TakePartRows(db, batch, order[0]);
        TakePartsRows(db1, batch, order[1..]);
        TookRowsTransitive(db, db1, TakeParts(db1, batch, order[1..]).value, batch.id);
      }
    }
  }

  // ---- Round trip ----

  /** The new lots a revocation adds: one for every consumed part after the first. */
  function RestoredAsNew(rows: seq<Consumption>, nextLot: int, now: int): seq<Lot> {
    if rows == [] then []
    else [Lot(nextLot, rows[0].part, rows[0].qty, rows[0].qty, now)] + RestoredAsNew(rows[1..], nextLot + 1, now)
  }

  lemma {:induction false} LaterRowsLots(db: Db, batch: int, rows: seq<Consumption>, now: int)
    requires RowsOk(db, rows) && forall d :: d in db.draws ==> d.batch != batch
    ensures var db1 := RestoreRows(db, batch, rows, now);
      db1.lots == db.lots + RestoredAsNew(rows, db.nextLot, now) && db1.draws == db.draws
    decreases |rows|
  {
    if rows == [] {
      assert db.lots + [] == db.lots;
    } else {
      assert rows[0] in rows;
      RowWithoutDraws(db, batch, rows[0], now);
      var db1 := RestoreRow(db, batch, rows[0], now);
      LaterRowsLots(db1, batch, rows[1..], now);
      var new1 := Lot(db.nextLot, rows[0].part, rows[0].qty, rows[0].qty, now);
      var rest := RestoredAsNew(rows[1..], db.nextLot + 1, now);
      assert db1.lots == db.lots + [new1];
      assert (db.lots + [new1]) + rest == db.lots + ([new1] + rest);
    }
  }

  /** Giving the draws back right after taking them restores every lot row and every draw row. */
  lemma RestoreUndoesRows(db: Db, db1: Db, batch: int)
    requires TookRows(db, db1, batch)
    requires forall d :: d in db.draws ==> d.batch != batch
    ensures RestoredLots(db1.lots, db1.draws, batch) == db.lots
    ensures Keep(db1.draws, (d: DrawRow) => d.batch != batch) == db.draws
  {
    forall i | 0 <= i < |db.lots| ensures RestoredLots(db1.lots, db1.draws, batch)[i] == db.lots[i] {
      forall k | 0 <= k < |db.draws| ensures DrawnAt(batch, db.lots[i].id)(db.draws[k]) == 0 {
        assert db.draws[k] in db.draws;
      }
      SumZero(db.draws, DrawnAt(batch, db.lots[i].id));
    }
    var p := (d: DrawRow) => d.batch != batch;
    var added := db1.draws[|db.draws|..];
    assert db1.draws == db.draws + added;
    KeepConcat(db.draws, added, p);
    KeepAll(db.draws, p);
    KeepNone(added, p);
  }

  /** Complete an open batch and revoke it with nothing between: every stock is what it was, the draw rows
      are what they were, every lot is what it was, and after them stands one new lot for each consumed part
      but the first. */
  lemma CompleteThenRevoke(db: Db, batch: Batch, now: int)
    requires Inv(db) && TempsOk(db)
    requires FindBatch(db.batches, batch.id) == Some(batch) && IsOpen(batch.status) && Complete(db, batch).Ok?
    ensures var db1 := Complete(db, batch).value; var rows := ConsumptionRows(db1.consumptions, batch.id);
      && Revoke(db1, batch.id, now).Ok?
      && var db2 := Revoke(db1, batch.id, now).value;
      && (forall p :: p in db.parts ==> p in db2.parts && db2.parts[p].stock == db.parts[p].stock)
      && db2.draws == db.draws
      && db2.lots == db.lots + RestoredAsNew(if rows == [] then [] else rows[1..], db.nextLot, now)
  {
    hide TakeParts, RestoreRows, Complete, Inv;
    var db1 := Complete(db, batch).value;
    var row := batch.(produced := batch.plan, recorded := true, status := COMPLETED);
    assert BatchesOk(db) by { InvBatches(db); }
    CompletedRow(db, batch, row);
    RoundTripStock(db, batch, now);
    RoundTripRows(db, batch, now);
  }

  lemma InvBatches(db: Db)
    requires Inv(db)
    ensures BatchesOk(db)
  {
  }

  lemma RoundTripStock(db: Db, batch: Batch, now: int)
    requires Inv(db) && TempsOk(db)
    requires FindBatch(db.batches, batch.id) == Some(batch) && IsOpen(batch.status) && Complete(db, batch).Ok?
    ensures var db1 := Complete(db, batch).value;
      var db2 := RestoreRows(db1, batch.id, ConsumptionRows(db1.consumptions, batch.id), now);
      forall p :: p in db.parts ==> p in db2.parts && db2.parts[p].stock == db.parts[p].stock
  {
    hide TakeParts, RestoreRows, Demand, Complete, CompletionOrder;
    var db1 := Complete(db, batch).value;
    var row := batch.(produced := batch.plan, recorded := true, status := COMPLETED);
    CompletedRow(db, batch, row);
    var db0 := CompleteTook(db, batch);
    var need := NeedIn(db, batch, CompletionOrder(db, batch));
    CompleteKeepsInv(db, batch);
    var db2 := RevokeReturned(db1, row, now);
    forall p ensures Consumed(db1.consumptions, batch.id, p) == need(p) {
      NoRowsNothing(db, batch.id, p);
    }
    TookGivesStock(db, db0, batch.id, need);
  }

  lemma CompletedRow(db: Db, batch: Batch, row: Batch)
    requires BatchesOk(db) && FindBatch(db.batches, batch.id) == Some(batch) && Complete(db, batch).Ok?
    requires row == batch.(produced := batch.plan, recorded := true, status := COMPLETED)
    ensures FindBatch(Complete(db, batch).value.batches, batch.id) == Some(row)
  {
    TakePartsTemps(db, batch, CompletionOrder(db, batch));
    SetBatchRows(db.batches, row, batch);
    var k: nat :| k < |db.batches| && db.batches[k] == batch && SetBatch(db.batches, row.id, row) == db.batches[k := row];
    assert SetBatch(db.batches, row.id, row)[k] == row;
    FindOnly(SetBatch(db.batches, row.id, row), row);
  }

  /** The tables after completing, as the undoing needs them. */
  lemma CompletedTables(db: Db, batch: Batch)
    requires BatchesOk(db) && LotsOk(db) && FindBatch(db.batches, batch.id) == Some(batch) && Complete(db, batch).Ok?
    ensures var db1 := Complete(db, batch).value;
      && TookRows(db, db1, batch.id) && db1.nextLot == db.nextLot
      && FindBatch(db1.batches, batch.id) == Some(batch.(produced := batch.plan, recorded := true, status := COMPLETED))
  {
    hide TakeParts, CompletionOrder, CompletionError;
    var row := batch.(produced := batch.plan, recorded := true, status := COMPLETED);
    TakePartsTemps(db, batch, CompletionOrder(db, batch));
    TakePartsRows(db, batch, CompletionOrder(db, batch));
    CompletedRow(db, batch, row);
  }

  lemma OpenDrewNothing(db: Db, batch: Batch)
    requires Inv(db) && FindBatch(db.batches, batch.id) == Some(batch) && IsOpen(batch.status)
    ensures forall d :: d in db.draws ==> d.batch != batch.id
  {
    hide Sum, FindBatch, LotsOk, FrozenOk, ConsumptionsOk, Balanced;
    FoundStatus(db.batches, batch);
  }

  lemma RoundTripRows(db: Db, batch: Batch, now: int)
    requires Inv(db) && TempsOk(db)
    requires FindBatch(db.batches, batch.id) == Some(batch) && IsOpen(batch.status) && Complete(db, batch).Ok?
    ensures var db1 := Complete(db, batch).value; var rows := ConsumptionRows(db1.consumptions, batch.id);
      var db2 := RestoreRows(db1, batch.id, rows, now);
      && db2.draws == db.draws
      && db2.lots == db.lots + RestoredAsNew(if rows == [] then [] else rows[1..], db.nextLot, now)
  {
    hide Complete, RestoreRows, ConsumptionRows, LotsOk, DrawsOk, FrozenOk, ConsumptionsOk, Balanced, BatchesOk,
      TookRows, RestoredAsNew, FindBatch;
    CompletedTables(db, batch);
    CompleteKeepsInv(db, batch);
    OpenDrewNothing(db, batch);
    hide Inv;
    var row := batch.(produced := batch.plan, recorded := true, status := COMPLETED);
    FoundIn(Complete(db, batch).value.batches, row);
    UndoRows(db, Complete(db, batch).value, row, now);
  }

  lemma UndoRows(db: Db, db1: Db, row: Batch, now: int)
    requires Inv(db1) && TookRows(db, db1, row.id) && db1.nextLot == db.nextLot
    requires row in db1.batches && row.status == COMPLETED
    requires forall d :: d in db.draws ==> d.batch != row.id
    ensures var rows := ConsumptionRows(db1.consumptions, row.id); var db2 := RestoreRows(db1, row.id, rows, now);
      && db2.draws == db.draws
      && db2.lots == db.lots + RestoredAsNew(if rows == [] then [] else rows[1..], db.nextLot, now)
  {
    var rows := ConsumptionRows(db1.consumptions, row.id);
    RowsFacts(db1, row.id);
    RestoreUndoesRows(db, db1, row.id);
    if rows == [] {
      NoRowsReleased(db1, row);
      UndoNothing(db, db1, row.id);
    } else {
      hide Inv, RestoreRows;
      assert rows[0].qty <= Sum(db1.draws, DrawnBy(row.id)) by { FirstRowCovered(db1, row); }
      assert rows[0] in rows;
      var db2 := RestoreRow(db1, row.id, rows[0], now);
      LaterRowsLots(db2, row.id, rows[1..], now);
      RestoreRowsStep(db1, row.id, rows, now);
    }
  }

  lemma RestoreRowsStep(db: Db, batch: int, rows: seq<Consumption>, now: int)
    requires rows != []
    ensures RestoreRows(db, batch, rows, now) == RestoreRows(RestoreRow(db, batch, rows[0], now), batch, rows[1..], now)
  {
  }

  lemma UndoNothing(db: Db, db1: Db, batch: int)
    requires TookRows(db, db1, batch)
    requires forall d :: d in db.draws ==> d.batch != batch
    requires forall d :: d in db1.draws ==> d.batch != batch
    ensures db1.lots == db.lots && db1.draws == db.draws && db.lots + [] == db.lots
  {
    KeepAll(db1.draws, (d: DrawRow) => d.batch != batch);
    RestoreUndoesRows(db, db1, batch);
    forall i | 0 <= i < |db.lots| ensures db1.lots[i] == db.lots[i] {
      NoDrawsOn(db1, batch, db.lots[i].id);
      NoDrawsOn(db, batch, db.lots[i].id);
    }
  }

  lemma NoDrawsOn(db: Db, batch: int, lot: int)
    requires forall d :: d in db.draws ==> d.batch != batch
    ensures Drawn(db.draws, batch, lot) == 0
  {
    forall k | 0 <= k < |db.draws| ensures DrawnAt(batch, lot)(db.draws[k]) == 0 { assert db.draws[k] in db.draws; }
    SumZero(db.draws, DrawnAt(batch, lot));
  }

  /** So the lots come back as they were if and only if the batch consumed at most one part. */
  lemma RoundTripExactIff(db: Db, batch: Batch, now: int)
    requires Inv(db) && TempsOk(db)
    requires FindBatch(db.batches, batch.id) == Some(batch) && IsOpen(batch.status) && Complete(db, batch).Ok?
    ensures var db1 := Complete(db, batch).value;
      Revoke(db1, batch.id, now).Ok?
      && (Revoke(db1, batch.id, now).value.lots == db.lots <==> |ConsumptionRows(db1.consumptions, batch.id)| <= 1)
  {
    CompleteThenRevoke(db, batch, now);
    var rows := ConsumptionRows(Complete(db, batch).value.consumptions, batch.id);
    if |rows| <= 1 {
      assert db.lots + [] == db.lots;
    }
  }
}
