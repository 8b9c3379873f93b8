/** Every transaction keeps the invariant, so it holds in every state any run reaches. */
module Runs {
  import opened Sums
  import opened Bom
  import opened Tables
  import opened Draw
  import opened Transactions
  import opened Effects
  import opened Invariant
  import opened Revocation

  // ---- Revocation ----

  /** What revoking a batch gives back to a part's lots a second time. */
  function Extra(db: Db, batch: int, part: int): int {
    if AfterFirst(db.consumptions, batch, part) then Consumed(db.consumptions, batch, part) else 0
  }

  lemma RevokedExcess(db: Db, batch: Batch, row: Batch, p: int)
    requires BatchesOk(db) && FindBatch(db.batches, batch.id) == Some(batch) && batch.status != REVOKED
    requires row.id == batch.id && row.status == REVOKED
    ensures Excess(db.(batches := SetBatch(db.batches, batch.id, row)), p) == Excess(db, p) + Extra(db, batch.id, p)
  {
    SumSetBatch(db.batches, row, batch, ExcessOf(db.consumptions, p));
  }

  /** The frozen row of the first part never asks for more than the batch drew. */
  lemma FirstRowCovered(db: Db, batch: Batch)
    requires Inv(db) && batch in db.batches && batch.status == COMPLETED
    requires ConsumptionRows(db.consumptions, batch.id) != []
    ensures ConsumptionRows(db.consumptions, batch.id)[0].qty <= Sum(db.draws, DrawnBy(batch.id))
  {
    var r := ConsumptionRows(db.consumptions, batch.id)[0];
    RowsFacts(db, batch.id);
    assert r in ConsumptionRows(db.consumptions, batch.id);
    assert DrawsAreFrozen(db, batch.id);
    DrawnOfPartAtMost(db.lots, db.draws, batch.id, r.part);
  }

  /** What revoking a completed batch returns: the stock exactly what was consumed of each part; the lots
      that much too, plus once more whatever was consumed beyond the batch's first part. */
  lemma RevokeReturned(db: Db, batch: Batch, now: int) returns (db0: Db)
    requires Inv(db) && batch in db.batches && batch.status == COMPLETED
    ensures db0 == RestoreRows(db, batch.id, ConsumptionRows(db.consumptions, batch.id), now)
    ensures LotsOk(db0) && Released(db, db0, batch.id)
    ensures db0 == db.(parts := db0.parts, lots := db0.lots, nextLot := db0.nextLot, draws := db0.draws)
    ensures db0.parts.Keys == db.parts.Keys && KeepsIds(db.lots, db0.lots)
    ensures forall p :: p in db.parts ==>
      db0.parts[p].stock == db.parts[p].stock + Consumed(db.consumptions, batch.id, p)
    ensures forall p :: LotTotal(db0.lots, p) == LotTotal(db.lots, p) + Consumed(db.consumptions, batch.id, p) + Extra(db, batch.id, p)
  {
    var rows := ConsumptionRows(db.consumptions, batch.id);
    db0 := RestoreRows(db, batch.id, rows, now);
    RowsFacts(db, batch.id);
    DrawsAreInRange(db);
    if rows == [] {
      forall p ensures Consumed(db.consumptions, batch.id, p) == 0 { NoRowsNoDraws(db, batch, p); }
      NoRowsReleased(db, batch);
    } else {
      FirstRowCovered(db, batch);
      RowsReturned(db, batch.id, rows, now);
      assert DrawsAreFrozen(db, batch.id);
      forall p ensures LotsUp(db, batch.id, rows)(p) == Consumed(db.consumptions, batch.id, p) + Extra(db, batch.id, p) {
        LaterRowsAreExcess(db, batch.id, p);
      }
    }
  }

  /** Under the invariant a completed batch without frozen rows has no draws either. */
  lemma NoRowsReleased(db: Db, batch: Batch)
    requires Inv(db) && batch in db.batches && batch.status == COMPLETED
    requires ConsumptionRows(db.consumptions, batch.id) == []
    ensures Released(db, db, batch.id)
  {
    forall d | d in db.draws ensures d.batch != batch.id {
      var l :| l in db.lots && l.id == d.lot;
      NoRowsNoDraws(db, batch, l.part);
      DrawnAtLeast(db, d, l);
    }
  }

  /** A part's draws are at least any one draw row on one of its lots. */
  lemma DrawnAtLeast(db: Db, d: DrawRow, l: Lot)
    requires DrawsOk(db) && d in db.draws && l in db.lots && l.id == d.lot
    ensures d.qty <= DrawnOfPart(db.lots, db.draws, d.batch, l.part)
  {
    forall m: Lot ensures 0 <= Drawn(db.draws, d.batch, m.id) && (m.id == d.lot ==> d.qty <= Drawn(db.draws, d.batch, m.id)) {
      var f := DrawnAt(d.batch, m.id);
      forall k | 0 <= k < |db.draws| ensures 0 <= f(db.draws[k]) { assert db.draws[k] in db.draws; }
      SumNonNegative(db.draws, f);
      var k :| 0 <= k < |db.draws| && db.draws[k] == d;
    }
    SumNonNegative(db.lots, PartDraw(db.draws, d.batch, l.part));
    var i :| 0 <= i < |db.lots| && db.lots[i] == l;
  }

  predicate IsFinished(status: int) { status == COMPLETED || status == REVOKED }

  /** Only batch rows change: finished ones stay finished and none finishes. */
  lemma BatchesMoved(db: Db, db1: Db)
    requires Inv(db) && BatchesOk(db1) && db1 == db.(batches := db1.batches)
    requires forall id :: IsFinished(StatusOf(db.batches, id)) ==> StatusOf(db1.batches, id) == StatusOf(db.batches, id)
    requires forall b :: b in db1.batches && b.status == COMPLETED ==> b in db.batches
    requires forall p :: Excess(db1, p) == Excess(db, p)
    ensures Inv(db1)
  {
    hide Excess, LotTotal, Consumed, DrawnOfPart, StatusOf, DistinctBatches, DistinctLots;
    forall b | b in db1.batches && b.status == COMPLETED ensures DrawsAreFrozen(db1, b.id) {
      assert DrawsAreFrozen(db, b.id);
    }
    assert DrawsOk(db1) by {
      forall d | d in db.draws ensures StatusOf(db1.batches, d.batch) == COMPLETED { assert IsFinished(StatusOf(db.batches, d.batch)); }
    }
    assert ConsumptionsOk(db1) by {
      forall c | c in db.consumptions ensures IsFinished(StatusOf(db1.batches, c.batch)) { assert IsFinished(StatusOf(db.batches, c.batch)); }
    }
  }

  lemma RevokedStatus(db: Db, db1: Db, batch: Batch)
    requires BatchesOk(db) && FindBatch(db.batches, batch.id) == Some(batch)
    requires db1.batches == SetBatch(db.batches, batch.id, batch.(status := REVOKED))
    ensures BatchesOk(db1)
    ensures forall id :: StatusOf(db1.batches, id) == if id == batch.id then REVOKED else StatusOf(db.batches, id)
    ensures forall b :: b in db1.batches && b.status == COMPLETED ==> b in db.batches && b.id != batch.id
  {
    var row := batch.(status := REVOKED);
    SetBatchOk(db, row, batch);
    forall id ensures StatusOf(db1.batches, id) == if id == batch.id then REVOKED else StatusOf(db.batches, id) {
      StatusAfterSet(db.batches, row, id);
    }
    forall b | b in db1.batches && b.status == COMPLETED ensures b in db.batches && b.id != batch.id {
      var i :| 0 <= i < |db1.batches| && db1.batches[i] == b;
      assert db.batches[i] in db.batches;
    }
  }

  /** Stock, lots and draws give back what a revoked batch took. */
  lemma RevokedMoved(db: Db, db1: Db, batch: int)
    requires Inv(db) && LotsOk(db1) && BatchesOk(db1) && Released(db, db1, batch) && KeepsIds(db.lots, db1.lots)
    requires db1.consumptions == db.consumptions && db1.parts.Keys == db.parts.Keys
    requires forall id :: StatusOf(db1.batches, id) == if id == batch then REVOKED else StatusOf(db.batches, id)
    requires forall b :: b in db1.batches && b.status == COMPLETED ==> b in db.batches && b.id != batch
    requires forall p :: 0 <= Consumed(db.consumptions, batch, p) && Excess(db1, p) == Excess(db, p) + Extra(db, batch, p)
    requires forall p :: p in db.parts ==> db1.parts[p].stock == db.parts[p].stock + Consumed(db.consumptions, batch, p)
    requires forall p :: LotTotal(db1.lots, p) == LotTotal(db.lots, p) + Consumed(db.consumptions, batch, p) + Extra(db, batch, p)
    ensures Inv(db1)
  {
    hide Excess, Extra, LotTotal, Consumed, DrawnOfPart, StatusOf, DistinctBatches, DistinctLots, KeepsIds, InList;
    forall d | d in db1.draws ensures InList(db1.lots, d.lot) { KeepsIdsInList(db.lots, db1.lots, d.lot); }
    forall b | b in db1.batches && b.status == COMPLETED ensures b.recorded && DrawsAreFrozen(db1, b.id) {
      assert DrawsAreFrozen(db, b.id);
    }
  }

  lemma RevokeCompletedKeepsInv(db: Db, batch: Batch, now: int)
    requires Inv(db) && FindBatch(db.batches, batch.id) == Some(batch) && batch.status == COMPLETED
    requires Revoke(db, batch.id, now).Ok?
    ensures Inv(Revoke(db, batch.id, now).value)
  {
    hide RestoreRows, Excess, Extra, LotTotal, Consumed, DrawnOfPart, StatusOf, DistinctBatches, DistinctLots,
      KeepsIds, Released, SetBatch, ConsumptionRows, FindBatch, LotsOk, DrawsOk, FrozenOk, Balanced;
    var db0 := RevokeReturned(db, batch, now);
    var row := batch.(status := REVOKED);
    var db1 := db0.(batches := SetBatch(db.batches, batch.id, row));
    RevokedStatus(db, db1, batch);
    forall p ensures Excess(db1, p) == Excess(db, p) + Extra(db, batch.id, p) {
      RevokedExcess(db, batch, row, p);
      SameExcess(db1, db.(batches := db1.batches), p);
    }
    forall p ensures 0 <= Consumed(db.consumptions, batch.id, p) { ConsumedNonNegative(db, batch.id, p); }
    LotsOkAlone(db0, db1);
    ReleasedAlone(db, db0, db1, batch.id);
    hide Inv, BatchesOk, ConsumptionsOk;
    RevokedMoved(db, db1, batch.id);
  }

  lemma SameExcess(a: Db, b: Db, p: int)
    requires a.batches == b.batches && a.consumptions == b.consumptions
    ensures Excess(a, p) == Excess(b, p)
  {
  }

  lemma LotsOkAlone(db: Db, db1: Db)
    requires LotsOk(db) && db1 == db.(batches := db1.batches)
    ensures LotsOk(db1)
  {
  }

  lemma ReleasedAlone(db: Db, db0: Db, db1: Db, batch: int)
    requires Released(db, db0, batch) && db1 == db0.(batches := db1.batches)
    ensures Released(db, db1, batch)
  {
  }

  lemma RevokeOpenKeepsInv(db: Db, batch: Batch, now: int)
    requires Inv(db) && FindBatch(db.batches, batch.id) == Some(batch) && IsOpen(batch.status)
    requires Revoke(db, batch.id, now).Ok?
    ensures Inv(Revoke(db, batch.id, now).value)
  {
    var row := batch.(status := REVOKED);
    var db1 := db.(batches := SetBatch(db.batches, batch.id, row));
    RevokedStatus(db, db1, batch);
    FoundStatus(db.batches, batch);
    hide Excess, Consumed, StatusOf, SetBatch, DrawsOk, FrozenOk, LotsOk, Balanced;
    forall p ensures Excess(db1, p) == Excess(db, p) {
      RevokedExcess(db, batch, row, p);
      NoRowsNothing(db, batch.id, p);
    }
    hide Inv;
    BatchesMoved(db, db1);
  }

  // ---- Transactions that leave the core tables alone ----

  /** Nothing the invariant reads has changed. */
  lemma SameCoreKeepsInv(db: Db, db1: Db)
    requires Inv(db)
    requires db1 == db.(bom := db1.bom, skips := db1.skips, temps := db1.temps, traces := db1.traces, allocs := db1.allocs)
    ensures Inv(db1)
  {
    assert forall p :: Excess(db1, p) == Excess(db, p);
    forall b | b in db1.batches && b.status == COMPLETED ensures DrawsAreFrozen(db1, b.id) {
      assert DrawsAreFrozen(db, b.id);
    }
  }

  lemma NewPartKeepsInv(db: Db, id: int, row: Part)
    requires Inv(db) && id !in db.parts && row.stock == 0
    ensures Inv(db.(parts := db.parts[id := row]))
  {
    var db1 := db.(parts := db.parts[id := row]);
    forall p ensures Excess(db1, p) == Excess(db, p) {}
    forall i | 0 <= i < |db.lots| ensures LotOf(id)(db.lots[i]) == 0 { assert db.lots[i] in db.lots; }
    SumZero(db.lots, LotOf(id));
    forall i | 0 <= i < |db.batches| ensures ExcessOf(db.consumptions, id)(db.batches[i]) == 0 {
      forall k | 0 <= k < |db.consumptions| ensures ConsumedBy(db.batches[i].id, id)(db.consumptions[k]) == 0 {
        assert db.consumptions[k] in db.consumptions;
      }
      SumZero(db.consumptions, ConsumedBy(db.batches[i].id, id));
    }
    SumZero(db.batches, ExcessOf(db.consumptions, id));
    forall b | b in db1.batches && b.status == COMPLETED ensures DrawsAreFrozen(db1, b.id) {
      assert DrawsAreFrozen(db, b.id);
    }
  }

  lemma EditPartKeepsInv(db: Db, id: int, row: Part)
    requires Inv(db) && id in db.parts && row.stock == db.parts[id].stock
    ensures Inv(db.(parts := db.parts[id := row]))
  {
    MovedTogether(db, db.(parts := db.parts[id := row]));
  }

  lemma NewBatchKeepsInv(db: Db, row: Batch)
    requires Inv(db) && FindBatch(db.batches, row.id).None? && 0 < row.id && 0 < row.plan && row.status == PENDING
    ensures Inv(db.(batches := db.batches + [row]))
  {
    var db1 := db.(batches := db.batches + [row]);
    assert !IsFinished(StatusOf(db.batches, row.id));
    forall id ensures StatusOf(db1.batches, id) == if id == row.id then PENDING else StatusOf(db.batches, id) {
      StatusAfterAppend(db.batches, row, id);
    }
    hide StatusOf;
    forall p ensures Excess(db1, p) == Excess(db, p) { SumAppend(db.batches, row, ExcessOf(db.consumptions, p)); }
    BatchesMoved(db, db1);
  }

  lemma MoveStatusKeepsInv(db: Db, batch: Batch, status: int)
    requires Inv(db) && FindBatch(db.batches, batch.id) == Some(batch) && IsOpen(batch.status) && IsOpen(status)
    ensures Inv(db.(batches := SetBatch(db.batches, batch.id, batch.(status := status))))
  {
    var row := batch.(status := status);
    var db1 := db.(batches := SetBatch(db.batches, batch.id, row));
    hide LotsOk, DrawsOk, FrozenOk, ConsumptionsOk, Balanced, Sum, SetBatch, FindBatch, StatusOf;
    assert 0 < batch.plan by { FoundIn(db.batches, batch); }
    SetBatchOk(db, row, batch);
    FoundStatus(db.batches, batch);
    forall id ensures StatusOf(db1.batches, id) == if id == batch.id then status else StatusOf(db.batches, id) {
      StatusAfterSet(db.batches, row, id);
    }
    forall p ensures Excess(db1, p) == Excess(db, p) {
      SumSetBatch(db.batches, row, batch, ExcessOf(db.consumptions, p));
    }
    OtherRowsStay(db.batches, row, batch);
    hide Excess;
    BatchesMoved(db, db1);
  }

  lemma FoundIn(batches: seq<Batch>, batch: Batch)
    requires FindBatch(batches, batch.id) == Some(batch)
    ensures batch in batches
  {
  }

  /** Rewriting one row leaves every other row in the table. */
  lemma OtherRowsStay(batches: seq<Batch>, row: Batch, was: Batch)
    requires DistinctBatches(batches) && FindBatch(batches, row.id) == Some(was)
    ensures forall b :: b in SetBatch(batches, row.id, row) ==> b == row || b in batches
  {
    hide SetBatch, FindBatch;
    SetBatchRows(batches, row, was);
  }

  lemma FoundStatus(batches: seq<Batch>, batch: Batch)
    requires FindBatch(batches, batch.id) == Some(batch)
    ensures StatusOf(batches, batch.id) == batch.status
  {
  }

  // ---- Runs ----

  datatype Op =
    | OpCreatePart(id: int, stock: int, warn: int)
    | OpUpdatePart(id: int, stock: int, warn: int, version: int)
    | OpStockIn(part: int, qty: int, now: int)
    | OpAdjustStock(part: int, qty: int, now: int)
    | OpAdjustInbounds(part: int, counts: seq<Count>)
    | OpAddBomItem(item: BomItem)
    | OpUpdateBomItem(id: int, quantity: int, lossRate: int, useMode: int)
    | OpRemoveBomItem(id: int)
    | OpCreateBatch(id: int, product: int, plan: int)
    | OpAddSkipPart(batch: int, part: int)
    | OpRemoveSkipPart(batch: int, part: int)
    | OpAddTempPart(batch: int, part: int, qty: int)
    | OpRemoveTempPart(batch: int, part: int)
    | OpRecordTraces(inputs: seq<TraceInput>)
    | OpChangeStatus(id: int, status: int)
    | OpRevoke(id: int, now: int)

  function Attempt(db: Db, op: Op): Result<Db> {
    match op
    case OpCreatePart(id, stock, warn) => CreatePart(db, id, stock, warn)
    case OpUpdatePart(id, stock, warn, version) => UpdatePart(db, id, stock, warn, version)
    case OpStockIn(part, qty, now) => StockIn(db, part, qty, now)
    case OpAdjustStock(part, qty, now) => AdjustStock(db, part, qty, now)
    case OpAdjustInbounds(part, counts) => AdjustInbounds(db, part, counts)
    case OpAddBomItem(item) => AddBomItem(db, item)
    case OpUpdateBomItem(id, quantity, lossRate, useMode) => UpdateBomItem(db, id, quantity, lossRate, useMode)
    case OpRemoveBomItem(id) => RemoveBomItem(db, id)
    case OpCreateBatch(id, product, plan) => CreateBatch(db, id, product, plan)
    case OpAddSkipPart(batch, part) => AddSkipPart(db, batch, part)
    case OpRemoveSkipPart(batch, part) => RemoveSkipPart(db, batch, part)
    case OpAddTempPart(batch, part, qty) => AddTempPart(db, batch, part, qty)
    case OpRemoveTempPart(batch, part) => RemoveTempPart(db, batch, part)
    case OpRecordTraces(inputs) => RecordTraces(db, inputs)
    case OpChangeStatus(id, status) => ChangeStatus(db, id, status)
    case OpRevoke(id, now) => Revoke(db, id, now)
  }

  /** A failed transaction rolls back. */
  function Step(db: Db, op: Op): Db {
    match Attempt(db, op)
    case Ok(db1) => db1
    case Err(_) => db
  }

  function Run(db: Db, ops: seq<Op>): Db
    decreases |ops|
  {
    if ops == [] then db else Run(Step(db, ops[0]), ops[1..])
  }

  ghost predicate UniqueTemps(temps: seq<TempPart>) {
    forall i, j :: 0 <= i < j < |temps| ==> temps[i].batch != temps[j].batch || temps[i].part != temps[j].part
  }

  /** Temporary parts are positive, one row per (batch, part). */
  ghost predicate TempsOk(db: Db) {
    (forall t :: t in db.temps ==> 0 < t.qty) && UniqueTemps(db.temps)
  }

  lemma UniqueCons(x: TempPart, s: seq<TempPart>)
    requires UniqueTemps(s) && forall t :: t in s ==> t.batch != x.batch || t.part != x.part
    ensures UniqueTemps([x] + s)
  {
    assert forall j :: 0 < j < |[x] + s| ==> ([x] + s)[j] == s[j - 1] && s[j - 1] in s;
  }

  lemma UniqueTail(s: seq<TempPart>)
    requires UniqueTemps(s) && s != []
    ensures UniqueTemps(s[1..]) && forall t :: t in s[1..] ==> t.batch != s[0].batch || t.part != s[0].part
  {
    assert forall j :: 0 <= j < |s[1..]| ==> s[1..][j] == s[j + 1];
  }

  lemma {:induction false} KeepTempsOk(temps: seq<TempPart>, p: TempPart -> bool)
    requires UniqueTemps(temps)
    ensures UniqueTemps(Keep(temps, p))
  {
    if temps != [] {
      UniqueTail(temps);
      KeepTempsOk(temps[1..], p);
      var rest := Keep(temps[1..], p);
      assert [] + rest == rest;
      UniqueCons(temps[0], rest);
    }
  }

  lemma UpsertTempOk(temps: seq<TempPart>, batch: int, part: int, qty: int)
    requires 0 < qty && UniqueTemps(temps) && forall t :: t in temps ==> 0 < t.qty
    ensures UniqueTemps(UpsertTemp(temps, batch, part, qty))
    ensures forall t :: t in UpsertTemp(temps, batch, part, qty) ==> 0 < t.qty
  {
    var r := UpsertTemp(temps, batch, part, qty);
    forall t | t in r ensures 0 < t.qty {
      var k :| 0 <= k < |r| && r[k] == t;
      assert k < |temps| ==> temps[k] in temps;
    }
  }

  lemma TakePartFrame(db: Db, batch: Batch, part: int)
    requires TakePart(db, batch, part).Ok?
    ensures var db1 := TakePart(db, batch, part).value;
      && db1 == db.(parts := db1.parts, lots := db1.lots, draws := db1.draws, consumptions := db1.consumptions)
      && KeepsIds(db.lots, db1.lots)
  {
    hide Demand, Greedy, Offers, FifoList, Sum, PlanFor, DrawRows;
  }

  lemma KeepsIdsTransitive(a: seq<Lot>, b: seq<Lot>, c: seq<Lot>)
    requires KeepsIds(a, b) && KeepsIds(b, c)
    ensures KeepsIds(a, c)
  {
  }

  lemma {:induction false} TakePartsTemps(db: Db, batch: Batch, order: seq<int>)
    ensures TakeParts(db, batch, order).Ok? ==>
      var db1 := TakeParts(db, batch, order).value;
      db1 == db.(parts := db1.parts, lots := db1.lots, draws := db1.draws, consumptions := db1.consumptions)
        && KeepsIds(db.lots, db1.lots)
    decreases |order|
  {
    if order != [] && TakeParts(db, batch, order).Ok? {
      hide Demand, TakePart, KeepsIds;
      if Demand(db, batch, order[0]) <= 0 {
        TakePartsTemps(db, batch, order[1..]);
      } else {
        var db1 := TakePart(db, batch, order[0]).value;
        TakePartFrame(db, batch, order[0]);
        TakePartsTemps(db1, batch, order[1..]);
        KeepsIdsTransitive(db.lots, db1.lots, TakeParts(db, batch, order).value.lots);
      }
    }
  }

  lemma {:induction false} RestoreRowsTemps(db: Db, batch: int, rows: seq<Consumption>, now: int)
    ensures var db1 := RestoreRows(db, batch, rows, now);
      db1 == db.(parts := db1.parts, lots := db1.lots, nextLot := db1.nextLot, draws := db1.draws)
        && KeepsIds(db.lots, db1.lots)
    decreases |rows|
  {
    if rows != [] {
      RestoreRowsTemps(RestoreRow(db, batch, rows[0], now), batch, rows[1..], now);
    }
  }

  lemma {:induction false} RecountKeepsIds(lots: seq<Lot>, part: int, counts: seq<Count>, delta: int)
    ensures Recount(lots, part, counts, delta).Ok? ==> KeepsIds(lots, Recount(lots, part, counts, delta).value.0)
    decreases |counts|
  {
    if counts != [] && Recount(lots, part, counts, delta).Ok? {
      var c := counts[0];
      RecountKeepsIds(SetRemaining(lots, c.lot, c.remaining), part, counts[1..],
        delta + c.remaining - FindLot(lots, c.lot).value.remaining);
    }
  }

  // ---- What the long transactions leave alone ----

  lemma StatusFrame(db: Db, id: int, status: int)
    requires ChangeStatus(db, id, status).Ok?
    ensures var db1 := ChangeStatus(db, id, status).value;
      && db1 == db.(parts := db1.parts, lots := db1.lots, draws := db1.draws, consumptions := db1.consumptions, batches := db1.batches)
      && KeepsIds(db.lots, db1.lots)
  {
    hide TakeParts, CompletionError, CompletionOrder, SetBatch;
    var batch := FindBatch(db.batches, id).value;
    TakePartsTemps(db, batch, CompletionOrder(db, batch));
  }

  lemma RevokeFrame(db: Db, id: int, now: int)
    requires Revoke(db, id, now).Ok?
    ensures var db1 := Revoke(db, id, now).value;
      && db1 == db.(parts := db1.parts, lots := db1.lots, nextLot := db1.nextLot, draws := db1.draws, batches := db1.batches)
      && KeepsIds(db.lots, db1.lots)
  {
    hide RestoreRows, ConsumptionRows, SetBatch;
    RestoreRowsTemps(db, id, ConsumptionRows(db.consumptions, id), now);
  }

  lemma AdjustFrame(db: Db, part: int, qty: int, now: int)
    requires AdjustStock(db, part, qty, now).Ok?
    ensures var db1 := AdjustStock(db, part, qty, now).value;
      && db1 == db.(parts := db1.parts, lots := db1.lots, nextLot := db1.nextLot) && KeepsIds(db.lots, db1.lots)
  {
    hide Greedy, Offers, FifoList, Sum;
  }

  lemma CountFrame(db: Db, part: int, counts: seq<Count>)
    requires AdjustInbounds(db, part, counts).Ok?
    ensures var db1 := AdjustInbounds(db, part, counts).value;
      && db1 == db.(parts := db1.parts, lots := db1.lots) && KeepsIds(db.lots, db1.lots)
  {
    hide Recount, CountError;
    RecountKeepsIds(db.lots, part, counts, 0);
  }

  lemma StatusKeepsInv(db: Db, id: int, status: int)
    requires Inv(db) && TempsOk(db) && ChangeStatus(db, id, status).Ok?
    ensures Inv(ChangeStatus(db, id, status).value)
  {
    var batch := FindBatch(db.batches, id).value;
    if status == COMPLETED {
      CompleteKeepsInv(db, batch);
    } else {
      MoveStatusKeepsInv(db, batch, status);
    }
  }

  lemma RevokeKeepsInv(db: Db, id: int, now: int)
    requires Inv(db) && Revoke(db, id, now).Ok?
    ensures Inv(Revoke(db, id, now).value)
  {
    var batch := FindBatch(db.batches, id).value;
    if batch.status == COMPLETED {
      RevokeCompletedKeepsInv(db, batch, now);
    } else {
      RevokeOpenKeepsInv(db, batch, now);
    }
  }

  lemma {:induction false} RecordAllCore(db: Db, inputs: seq<TraceInput>)
    ensures RecordAll(db, inputs).Ok? ==>
      var db1 := RecordAll(db, inputs).value; db1 == db.(traces := db1.traces, allocs := db1.allocs)
    decreases |inputs|
  {
    if inputs != [] {
      RecordAllCore(ReplaceTrace(db, inputs[0]), inputs[1..]);
    }
  }

  /** Every transaction, successful or not, keeps the ledger invariant. */
  lemma StepKeepsInv(db: Db, op: Op)
    requires Inv(db) && TempsOk(db)
    ensures Inv(Step(db, op)) && TempsOk(Step(db, op))
  {
    hide Inv, TempsOk, ChangeStatus, Revoke, AdjustStock, AdjustInbounds, RecordAll;
    if Attempt(db, op).Ok? {
      var db1 := Attempt(db, op).value;
      match op
      case OpCreatePart(id, stock, warn) => NewPartKeepsInv(db, id, Part(0, warn, 1)); SameTempsOk(db, db1);
      case OpUpdatePart(id, stock, warn, version) => EditPartKeepsInv(db, id, Part(db.parts[id].stock, warn, version + 1)); SameTempsOk(db, db1);
      case OpStockIn(part, qty, now) => StockInKeepsInv(db, part, qty, now); SameTempsOk(db, db1);
      case OpAdjustStock(part, qty, now) => AdjustStockKeepsInv(db, part, qty, now); AdjustFrame(db, part, qty, now); SameTempsOk(db, db1);
      case OpAdjustInbounds(part, counts) => AdjustInboundsKeepsInv(db, part, counts); CountFrame(db, part, counts); SameTempsOk(db, db1);
      case OpAddBomItem(item) => SameCoreKeepsInv(db, db1); SameTempsOk(db, db1);
      case OpUpdateBomItem(_, _, _, _) => SameCoreKeepsInv(db, db1); SameTempsOk(db, db1);
      case OpRemoveBomItem(_) => SameCoreKeepsInv(db, db1); SameTempsOk(db, db1);
      case OpCreateBatch(id, product, plan) => NewBatchKeepsInv(db, Batch(id, product, plan, 0, PENDING, false)); SameTempsOk(db, db1);
      case OpAddSkipPart(_, _) => SameCoreKeepsInv(db, db1); SameTempsOk(db, db1);
      case OpRemoveSkipPart(_, _) => SameCoreKeepsInv(db, db1); SameTempsOk(db, db1);
      case OpAddTempPart(batch, part, qty) => SameCoreKeepsInv(db, db1); TempStepOk(db, op);
      case OpRemoveTempPart(batch, part) => SameCoreKeepsInv(db, db1); TempStepOk(db, op);
      case OpRecordTraces(inputs) => RecordAllCore(db, inputs); SameCoreKeepsInv(db, db1); SameTempsOk(db, db1);
      case OpChangeStatus(id, status) => StatusKeepsInv(db, id, status); StatusFrame(db, id, status); SameTempsOk(db, db1);
      case OpRevoke(id, now) => RevokeKeepsInv(db, id, now); RevokeFrame(db, id, now); SameTempsOk(db, db1);
    }
  }

  lemma SameTempsOk(db: Db, db1: Db)
    requires TempsOk(db) && db1.temps == db.temps
    ensures TempsOk(db1)
  {
  }

  lemma TempStepOk(db: Db, op: Op)
    requires TempsOk(db) && (op.OpAddTempPart? || op.OpRemoveTempPart?) && Attempt(db, op).Ok?
    ensures TempsOk(Attempt(db, op).value)
  {
    if op.OpAddTempPart? {
      UpsertTempOk(db.temps, op.batch, op.part, op.qty);
    } else {
      KeepTempsOk(db.temps, (t: TempPart) => !(t.batch == op.batch && t.part == op.part));
    }
  }

  /** In every state any run reaches, each part's stock is its lots' remainder less the excess that revocations
      of batches with several consumed parts left behind; no remainder and no stock is negative, and each
      completed batch's draws of each part sum to its frozen consumption. */
  lemma {:induction false} RunKeepsInv(db: Db, ops: seq<Op>)
    requires Inv(db) && TempsOk(db)
    ensures Inv(Run(db, ops)) && TempsOk(Run(db, ops))
    decreases |ops|
  {
    hide Inv, TempsOk, Step;
    if ops != [] {
      StepKeepsInv(db, ops[0]);
      RunKeepsInv(Step(db, ops[0]), ops[1..]);
    }
  }

  lemma EmptyInv()
    ensures Inv(EMPTY_DB) && TempsOk(EMPTY_DB)
  {
  }
}
