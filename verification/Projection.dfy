/** The stock projection agrees with what completions really take. */
module Projection {
  import opened Sums
  import opened Bom
  import opened Tables
  import opened Draw
  import opened Transactions
  import opened Effects
  import opened Invariant
  import opened Runs

  ghost predicate BomOk(db: Db) {
    forall item :: item in db.bom ==> ValidBomItem(item)
  }

  /** Transactions other than the BOM edits leave the BOM alone. */
  lemma StepLeavesBom(db: Db, op: Op)
    requires !op.OpAddBomItem? && !op.OpUpdateBomItem? && !op.OpRemoveBomItem?
    ensures Step(db, op).bom == db.bom
  {
    hide ChangeStatus, Revoke, AdjustStock, AdjustInbounds, RecordAll, Committed, OldTemp, UpsertTemp;
    if Attempt(db, op).Ok? {
      match op
      case OpChangeStatus(id, status) => StatusFrame(db, id, status);
      case OpRevoke(id, now) => RevokeFrame(db, id, now);
      case OpRecordTraces(inputs) => RecordAllCore(db, inputs);
      case OpAdjustStock(part, qty, now) => AdjustFrame(db, part, qty, now);
      case OpAdjustInbounds(part, counts) => CountFrame(db, part, counts);
      case _ =>
    }
  }

  /** Every BOM row is valid in every state a run reaches. */
  lemma StepKeepsBomOk(db: Db, op: Op)
    requires BomOk(db)
    ensures BomOk(Step(db, op))
  {
    if !op.OpAddBomItem? && !op.OpUpdateBomItem? && !op.OpRemoveBomItem? {
      StepLeavesBom(db, op);
    } else if op.OpUpdateBomItem? && Attempt(db, op).Ok? {
      UpdatedBomOk(db, op.id, op.quantity, op.lossRate, op.useMode);
    }
  }

  lemma UpdatedBomOk(db: Db, id: int, quantity: int, lossRate: int, useMode: int)
    requires BomOk(db) && UpdateBomItem(db, id, quantity, lossRate, useMode).Ok?
    ensures BomOk(UpdateBomItem(db, id, quantity, lossRate, useMode).value)
  {
    var db1 := UpdateBomItem(db, id, quantity, lossRate, useMode).value;
    forall item | item in db1.bom ensures ValidBomItem(item) {
      var i :| 0 <= i < |db1.bom| && db1.bom[i] == item;
      assert db.bom[i] in db.bom;
    }
  }

  // ---- Demands ----

  lemma DemandNonNegative(db: Db, batch: Batch, part: int)
    requires TempsOk(db) && 0 <= batch.plan
    requires forall item :: item in db.bom && item.product == batch.product ==> ValidBomItem(item)
    ensures 0 <= Demand(db, batch, part)
  {
    var f, g := NeedOf(db.skips, batch, part), TempOf(batch.id, part);
    forall i | 0 <= i < |db.bom| ensures 0 <= f(db.bom[i]) {
      assert db.bom[i] in db.bom;
      if db.bom[i].product == batch.product {
        ConsumeNonNegative(batch.plan, db.bom[i]);
      }
    }
    SumNonNegative(db.bom, f);
    forall i | 0 <= i < |db.temps| ensures 0 <= g(db.temps[i]) { assert db.temps[i] in db.temps; }
    SumNonNegative(db.temps, g);
  }

  /** An open batch's own demand is part of what is committed. */
  lemma DemandCommitted(db: Db, batch: Batch, part: int)
    requires TempsOk(db) && BomOk(db) && BatchesOk(db) && batch in db.batches && IsOpen(batch.status)
    ensures 0 <= Demand(db, batch, part) <= Committed(db, 0, part)
  {
    var f := OpenDemand(db, 0, part);
    forall i | 0 <= i < |db.batches| ensures 0 <= f(db.batches[i]) {
      assert db.batches[i] in db.batches;
      DemandNonNegative(db, db.batches[i], part);
    }
    SumNonNegative(db.batches, f);
    var i :| 0 <= i < |db.batches| && db.batches[i] == batch;
    assert f(db.batches[i]) == Demand(db, batch, part);
  }

  // ---- Completing never moves the projection ----

  /** Completing a batch takes its demand off the stock and off the commitments alike. */
  lemma CompleteMoves(db: Db, batch: Batch, p: int)
    requires Inv(db) && TempsOk(db) && p in db.parts
    requires FindBatch(db.batches, batch.id) == Some(batch) && IsOpen(batch.status) && Complete(db, batch).Ok?
    ensures var db1 := Complete(db, batch).value;
      && db1.parts.Keys == db.parts.Keys
      && 0 <= Demand(db, batch, p) <= db.parts[p].stock
      && db1.parts[p].stock == db.parts[p].stock - Demand(db, batch, p)
      && LotTotal(db1.lots, p) == LotTotal(db.lots, p) - Demand(db, batch, p)
      && Committed(db1, 0, p) == Committed(db, 0, p) - Demand(db, batch, p)
  {
    var db1 := Complete(db, batch).value;
    DemandNonNegative(db, batch, p);
    CompletionOrderFacts(db, batch);
    CompleteStock(db, batch, p);
    CompleteCommitted(db, batch, p);
  }

  lemma CompleteStock(db: Db, batch: Batch, p: int)
    requires Inv(db) && TempsOk(db) && p in db.parts && Complete(db, batch).Ok? && 0 <= Demand(db, batch, p)
    ensures var db1 := Complete(db, batch).value;
      && db1.parts.Keys == db.parts.Keys
      && Demand(db, batch, p) <= db.parts[p].stock
      && db1.parts[p].stock == db.parts[p].stock - Demand(db, batch, p)
      && LotTotal(db1.lots, p) == LotTotal(db.lots, p) - Demand(db, batch, p)
  {
    hide Demand, Complete;
    var need := NeedIn(db, batch, CompletionOrder(db, batch));
    var db0 := CompleteTook(db, batch);
    CompletionOrderFacts(db, batch);
    assert need(p) == Demand(db, batch, p);
    assert Took(db, db0, batch.id, need);
  }

  lemma CompleteCommitted(db: Db, batch: Batch, p: int)
    requires Inv(db) && Complete(db, batch).Ok?
    requires FindBatch(db.batches, batch.id) == Some(batch) && IsOpen(batch.status)
    ensures Committed(Complete(db, batch).value, 0, p) == Committed(db, 0, p) - Demand(db, batch, p)
  {
    hide Demand, TakeParts;
    var db1 := Complete(db, batch).value;
    var row := batch.(produced := batch.plan, recorded := true, status := COMPLETED);
    TakePartsTemps(db, batch, CompletionOrder(db, batch));
    forall i | 0 <= i < |db1.batches| ensures OpenDemand(db, 0, p)(db1.batches[i]) == OpenDemand(db1, 0, p)(db1.batches[i]) {
      SameDemand(db, db1, db1.batches[i], p);
    }
    SumSame(db1.batches, db1.batches, OpenDemand(db, 0, p), OpenDemand(db1, 0, p));
    SumSetBatch(db.batches, row, batch, OpenDemand(db, 0, p));
  }

  /** With every projection non-negative, completing an open batch is never refused for a shortage. */
  lemma NoShortage(db: Db, batch: Batch)
    requires Inv(db) && TempsOk(db) && BomOk(db)
    requires batch in db.batches && IsOpen(batch.status)
    requires forall p :: p in db.parts ==> 0 <= After(db, p)
    ensures Complete(db, batch).Err? ==> !Complete(db, batch).error.Shortage?
  {
    hide Demand, TakeParts, Committed;
    var order := CompletionOrder(db, batch);
    forall p | p in db.parts ensures !IsShort(db, batch, p) {
      DemandCommitted(db, batch, p);
      assert 0 <= After(db, p);
    }
    KeepNone(order, ShortOf(db, batch));
    TakePartsNoShortage(db, batch, order);
  }

  lemma {:induction false} TakePartsNoShortage(db: Db, batch: Batch, order: seq<int>)
    ensures TakeParts(db, batch, order).Err? ==> !TakeParts(db, batch, order).error.Shortage?
    decreases |order|
  {
    hide Demand;
    if order != [] {
      if Demand(db, batch, order[0]) <= 0 {
        TakePartsNoShortage(db, batch, order[1..]);
      } else if TakePart(db, batch, order[0]).Ok? {
        TakePartsNoShortage(TakePart(db, batch, order[0]).value, batch, order[1..]);
      }
    }
  }

  // ---- Completing the open batches in any order ----

  /** Try to complete the listed batches one after the other; a refused attempt changes nothing. */
  function CompleteAll(db: Db, ids: seq<int>): Db
    decreases |ids|
  {
    if ids == [] then db else CompleteAll(Step(db, OpChangeStatus(ids[0], COMPLETED)), ids[1..])
  }

  ghost predicate NeverShort(db: Db, ids: seq<int>)
    decreases |ids|
  {
    ids != [] ==>
      && (ChangeStatus(db, ids[0], COMPLETED).Err? ==> !ChangeStatus(db, ids[0], COMPLETED).error.Shortage?)
      && NeverShort(Step(db, OpChangeStatus(ids[0], COMPLETED)), ids[1..])
  }

  /** One attempt leaves every projection as it was. */
  lemma AttemptKeepsAfter(db: Db, id: int)
    requires Inv(db) && TempsOk(db)
    ensures var db1 := Step(db, OpChangeStatus(id, COMPLETED));
      db1.parts.Keys == db.parts.Keys && forall p :: p in db.parts ==> After(db1, p) == After(db, p)
  {
    var db1 := Step(db, OpChangeStatus(id, COMPLETED));
    if ChangeStatus(db, id, COMPLETED).Ok? {
      var batch := FindBatch(db.batches, id).value;
      AttemptKeys(db, batch);
      forall p | p in db.parts ensures After(db1, p) == After(db, p) {
        CompleteMoves(db, batch, p);
      }
    }
  }

  lemma AttemptKeys(db: Db, batch: Batch)
    requires Inv(db) && TempsOk(db) && Complete(db, batch).Ok?
    ensures Complete(db, batch).value.parts.Keys == db.parts.Keys
  {
    var db0 := CompleteTook(db, batch);
    TookGivesStock(db, db0, batch.id, NeedIn(db, batch, CompletionOrder(db, batch)));
  }

  /** Whatever batches are tried, in whatever order, the projections stay what they were. */
  lemma {:induction false} CompleteAllKeepsAfter(db: Db, ids: seq<int>)
    requires Inv(db) && TempsOk(db)
    ensures Inv(CompleteAll(db, ids)) && TempsOk(CompleteAll(db, ids))
    ensures CompleteAll(db, ids).parts.Keys == db.parts.Keys
    ensures forall p :: p in db.parts ==> After(CompleteAll(db, ids), p) == After(db, p)
    decreases |ids|
  {
    if ids != [] {
      hide Inv, TempsOk, After, Step;
      AttemptKeepsAfter(db, ids[0]);
      StepKeepsInv(db, OpChangeStatus(ids[0], COMPLETED));
      CompleteAllKeepsAfter(Step(db, OpChangeStatus(ids[0], COMPLETED)), ids[1..]);
    }
  }

  /** If every projection is non-negative, no order of completions ever meets the shortage refusal. */
  lemma {:induction false} AnyOrderNeverShort(db: Db, ids: seq<int>)
    requires Inv(db) && TempsOk(db) && BomOk(db)
    requires forall p :: p in db.parts ==> 0 <= After(db, p)
    ensures NeverShort(db, ids)
    decreases |ids|
  {
    if ids != [] {
      hide Inv, TempsOk, BomOk, After, Step;
      var op := OpChangeStatus(ids[0], COMPLETED);
      AttemptNeverShort(db, ids[0]);
      AttemptKeepsAfter(db, ids[0]);
      StepKeepsInv(db, op);
      StepKeepsBomOk(db, op);
      AnyOrderNeverShort(Step(db, op), ids[1..]);
    }
  }

  lemma AttemptNeverShort(db: Db, id: int)
    requires Inv(db) && TempsOk(db) && BomOk(db)
    requires forall p :: p in db.parts ==> 0 <= After(db, p)
    ensures ChangeStatus(db, id, COMPLETED).Err? ==> !ChangeStatus(db, id, COMPLETED).error.Shortage?
  {
    hide Complete, After;
    if batch: Batch :| FindBatch(db.batches, id) == Some(batch) && IsOpen(batch.status) {
      NoShortage(db, batch);
    }
  }

  /** Once no batch is open any more, every stock is the projection made at the start, and so that
      projection was not negative. */
  lemma AllCompletedIsProjected(db: Db, ids: seq<int>, p: int)
    requires Inv(db) && TempsOk(db) && p in db.parts
    requires forall b :: b in CompleteAll(db, ids).batches ==> !IsOpen(b.status)
    ensures p in CompleteAll(db, ids).parts && CompleteAll(db, ids).parts[p].stock == After(db, p)
    ensures 0 <= After(db, p)
  {
    var end := CompleteAll(db, ids);
    CompleteAllKeepsAfter(db, ids);
    forall i | 0 <= i < |end.batches| ensures OpenDemand(end, 0, p)(end.batches[i]) == 0 {
      assert end.batches[i] in end.batches;
    }
    SumZero(end.batches, OpenDemand(end, 0, p));
  }

  // ---- Temporary parts ----

  lemma {:induction false} OldTempIsSum(temps: seq<TempPart>, batch: int, part: int)
    requires UniqueTemps(temps)
    ensures OldTemp(temps, batch, part) == Sum(temps, TempOf(batch, part))
  {
    if temps != [] {
      var init, t := temps[..|temps| - 1], temps[|temps| - 1];
      assert temps == init + [t];
      SumAppend(init, t, TempOf(batch, part));
      if t.batch == batch && t.part == part {
        SumZero(init, TempOf(batch, part));
      } else {
        OldTempIsSum(init, batch, part);
      }
    }
  }

  /** Writing a temporary part replaces the batch's old quantity of it and touches no other. */
  lemma UpsertTempSum(temps: seq<TempPart>, batch: int, part: int, qty: int, b: int, p: int)
    requires UniqueTemps(temps)
    ensures Sum(UpsertTemp(temps, batch, part, qty), TempOf(b, p))
         == if b == batch && p == part then qty else Sum(temps, TempOf(b, p))
  {
    var f := TempOf(b, p);
    var r := UpsertTemp(temps, batch, part, qty);
    if HasTemp(temps, batch, part) {
      var k :| 0 <= k < |temps| && temps[k].batch == batch && temps[k].part == part;
      if b == batch && p == part {
        SumOnly(r, k, f);
      } else {
        SumSame(temps, r, f, f);
      }
    } else {
      SumAppend(temps, TempPart(batch, part, qty), f);
      if b == batch && p == part {
        SumZero(temps, f);
      }
    }
  }

  /** AddTempPart's guard is exactly the projection of the part in the state the call would create, and the
      other parts' projections do not move. */
  lemma AddTempGuardIsAfter(db: Db, batch: int, part: int, qty: int, p: int)
    requires Inv(db) && TempsOk(db) && 0 < qty && EditError(db, batch, part).None? && p in db.parts
    ensures var db1 := db.(temps := UpsertTemp(db.temps, batch, part, qty));
      After(db1, p) == if p == part
        then db.parts[part].stock - Committed(db, 0, part) + OldTemp(db.temps, batch, part) - qty
        else After(db, p)
  {
    var db1 := db.(temps := UpsertTemp(db.temps, batch, part, qty));
    var b := FindBatch(db.batches, batch).value;
    OldTempIsSum(db.temps, batch, part);
    forall c, q ensures Sum(db1.temps, TempOf(c, q))
      == if c == batch && q == part then qty else Sum(db.temps, TempOf(c, q)) {
      UpsertTempSum(db.temps, batch, part, qty, c, q);
    }
    var k :| 0 <= k < |db.batches| && db.batches[k] == b;
    if p == part {
      SumChange(db.batches, db.batches, k, OpenDemand(db, 0, p), OpenDemand(db1, 0, p));
    } else {
      SumSame(db.batches, db.batches, OpenDemand(db, 0, p), OpenDemand(db1, 0, p));
    }
  }

  /** So a temporary part is refused for lack of stock exactly when it would make the projection negative. */
  lemma AddTempRefusedIff(db: Db, batch: int, part: int, qty: int)
    requires Inv(db) && TempsOk(db) && 0 < qty && EditError(db, batch, part).None?
    ensures var db1 := db.(temps := UpsertTemp(db.temps, batch, part, qty));
      && (After(db1, part) < 0 <==> AddTempPart(db, batch, part, qty) == Err(WouldRunShort(After(db1, part))))
      && (AddTempPart(db, batch, part, qty).Ok? ==> AddTempPart(db, batch, part, qty).value == db1 && 0 <= After(db1, part))
  {
    AddTempGuardIsAfter(db, batch, part, qty, part);
  }

  // ---- The preview of a batch not created yet ----

  /** What the projection form shows for a batch the user is about to create. */
  function PreviewNeed(db: Db, product: int, plan: int, part: int): int {
    Sum(db.bom, NeedOf({}, Batch(0, product, plan, 0, PENDING, false), part))
  }

  /** The preview is the projection after creating that batch. */
  lemma PreviewIsAfterCreation(db: Db, id: int, product: int, plan: int, p: int)
    requires p in db.parts && CreateBatch(db, id, product, plan).Ok?
    requires forall q :: (id, q) !in db.skips
    requires forall t :: t in db.temps ==> t.batch != id
    ensures After(CreateBatch(db, id, product, plan).value, p) == After(db, p) - PreviewNeed(db, product, plan, p)
  {
    var db1 := CreateBatch(db, id, product, plan).value;
    var row := Batch(id, product, plan, 0, PENDING, false);
    SumSame(db.batches, db.batches, OpenDemand(db, 0, p), OpenDemand(db1, 0, p));
    SumAppend(db.batches, row, OpenDemand(db1, 0, p));
    SumSame(db.bom, db.bom, NeedOf(db.skips, row, p), NeedOf({}, Batch(0, product, plan, 0, PENDING, false), p));
    forall i | 0 <= i < |db.temps| ensures TempOf(id, p)(db.temps[i]) == 0 { assert db.temps[i] in db.temps; }
    SumZero(db.temps, TempOf(id, p));
  }
}
