/** What the edits of the ledger accept, and what no edit can touch any more. */
module Edits {
  import opened Sums
  import opened Bom
  import opened Tables
  import opened Draw
  import opened Transactions
  import opened Effects
  import opened Invariant
  import opened Runs
  import opened TraceRecords
  import opened Plans
  import opened Projection

  // ---- A part's version tells whether its row has changed ----

  ghost predicate Versioned(db: Db, db1: Db) {
    forall id :: id in db.parts ==>
      id in db1.parts && (db1.parts[id] == db.parts[id] || db.parts[id].version < db1.parts[id].version)
  }

  lemma VersionedTransitive(a: Db, b: Db, c: Db)
    requires Versioned(a, b) && Versioned(b, c)
    ensures Versioned(a, c)
  {
  }

  lemma TakePartVersioned(db: Db, batch: Batch, part: int)
    requires TakePart(db, batch, part).Ok?
    ensures Versioned(db, TakePart(db, batch, part).value)
  {
    hide Demand, Greedy, Offers, FifoList, Sum, PlanFor, ApplyTakes, DrawRows;
  }

  lemma {:induction false} TakePartsVersioned(db: Db, batch: Batch, order: seq<int>)
    requires TakeParts(db, batch, order).Ok?
    ensures Versioned(db, TakeParts(db, batch, order).value)
    decreases |order|
  {
    if order != [] {
      hide Demand, TakePart, Versioned;
      if Demand(db, batch, order[0]) <= 0 {
        TakePartsVersioned(db, batch, order[1..]);
      } else {
        var db1 := TakePart(db, batch, order[0]).value;
        TakePartVersioned(db, batch, order[0]);
        TakePartsVersioned(db1, batch, order[1..]);
        VersionedTransitive(db, db1, TakeParts(db, batch, order).value);
      }
    } else {
      SameVersioned(db, db);
    }
  }

  lemma SameVersioned(db: Db, db1: Db)
    requires db1.parts == db.parts
    ensures Versioned(db, db1)
  {
  }

  lemma RestoreRowVersioned(db: Db, batch: int, row: Consumption, now: int)
    ensures Versioned(db, RestoreRow(db, batch, row, now))
  {
    hide RestoredLots, Sum;
  }

  lemma {:induction false} RestoreRowsVersioned(db: Db, batch: int, rows: seq<Consumption>, now: int)
    ensures Versioned(db, RestoreRows(db, batch, rows, now))
    decreases |rows|
  {
    hide RestoreRow, Versioned;
    if rows != [] {
      var db1 := RestoreRow(db, batch, rows[0], now);
      RestoreRowVersioned(db, batch, rows[0], now);
      RestoreRowsVersioned(db1, batch, rows[1..], now);
      VersionedTransitive(db, db1, RestoreRows(db, batch, rows, now));
    } else {
      SameVersioned(db, db);
    }
  }

  lemma StatusVersioned(db: Db, id: int, status: int)
    requires ChangeStatus(db, id, status).Ok?
    ensures Versioned(db, ChangeStatus(db, id, status).value)
  {
    hide TakeParts, CompletionError, CompletionOrder, Versioned;
    var batch, db1 := FindBatch(db.batches, id).value, ChangeStatus(db, id, status).value;
    if status == COMPLETED {
      var db0 := TakeParts(db, batch, CompletionOrder(db, batch)).value;
      TakePartsVersioned(db, batch, CompletionOrder(db, batch));
      SameVersioned(db0, db1);
      VersionedTransitive(db, db0, db1);
    } else {
      SameVersioned(db, db1);
    }
  }

  lemma RevokeVersioned(db: Db, id: int, now: int)
    requires Revoke(db, id, now).Ok?
    ensures Versioned(db, Revoke(db, id, now).value)
  {
    hide RestoreRows, ConsumptionRows, Versioned;
    var batch, db1 := FindBatch(db.batches, id).value, Revoke(db, id, now).value;
    if batch.status == COMPLETED {
      var db0 := RestoreRows(db, id, ConsumptionRows(db.consumptions, id), now);
      RestoreRowsVersioned(db, id, ConsumptionRows(db.consumptions, id), now);
      SameVersioned(db0, db1);
      VersionedTransitive(db, db0, db1);
    } else {
      SameVersioned(db, db1);
    }
  }

  lemma StockVersioned(db: Db, op: Op)
    requires (op.OpStockIn? || op.OpAdjustStock? || op.OpAdjustInbounds?) && Attempt(db, op).Ok?
    ensures Versioned(db, Attempt(db, op).value)
  {
    hide Greedy, Offers, FifoList, Sum, ApplyTakes, Recount, CountError;
  }

  lemma RowVersioned(db: Db, op: Op)
    requires (op.OpCreatePart? || op.OpUpdatePart?) && Attempt(db, op).Ok?
    ensures Versioned(db, Attempt(db, op).value)
  {
  }

  lemma StepVersioned(db: Db, op: Op)
    ensures Versioned(db, Step(db, op))
  {
    hide ChangeStatus, Revoke, AdjustStock, AdjustInbounds, StockIn, RecordAll, Committed, OldTemp, UpsertTemp, Versioned;
    if Attempt(db, op).Ok? {
      match op
      case OpChangeStatus(id, status) => StatusVersioned(db, id, status);
      case OpRevoke(id, now) => RevokeVersioned(db, id, now);
      case OpStockIn(_, _, _) => StockVersioned(db, op);
      case OpAdjustStock(_, _, _) => StockVersioned(db, op);
      case OpAdjustInbounds(_, _) => StockVersioned(db, op);
      case OpCreatePart(_, _, _) => RowVersioned(db, op);
      case OpUpdatePart(_, _, _, _) => RowVersioned(db, op);
      case OpRecordTraces(inputs) => RecordAllCore(db, inputs); SameVersioned(db, Step(db, op));
      case _ => SameVersioned(db, Step(db, op));
    } else {
      SameVersioned(db, db);
    }
  }

  lemma {:induction false} RunVersioned(db: Db, ops: seq<Op>)
    ensures Versioned(db, Run(db, ops))
    decreases |ops|
  {
    hide Step, Versioned;
    if ops == [] {
      SameVersioned(db, db);
    } else {
      StepVersioned(db, ops[0]);
      RunVersioned(Step(db, ops[0]), ops[1..]);
      VersionedTransitive(db, Step(db, ops[0]), Run(db, ops));
    }
  }

  /** An edit that carries the version read before a run is accepted only if nothing in the run changed the row; it
      leaves the stock alone, and makes every other edit that read the same row stale. */
  lemma EditSeesEveryChange(db: Db, ops: seq<Op>, id: int, stock: int, warn: int)
    requires id in db.parts && UpdatePart(Run(db, ops), id, stock, warn, db.parts[id].version).Ok?
    ensures var db1 := UpdatePart(Run(db, ops), id, stock, warn, db.parts[id].version).value;
      && Run(db, ops).parts[id] == db.parts[id]
      && db1.parts[id].stock == db.parts[id].stock && db1.parts[id].warn == warn
      && (forall s, w :: 0 <= s && 0 <= w ==> UpdatePart(db1, id, s, w, db.parts[id].version) == Err(StaleVersion))
  {
    hide Run;
    RunVersioned(db, ops);
  }

  // ---- The BOM ----

  /** One row for each part of a product. */
  ghost predicate OneRowEach(bom: seq<BomItem>) {
    forall i, j :: 0 <= i < j < |bom| ==> bom[i].product != bom[j].product || bom[i].part != bom[j].part
  }

  lemma {:induction false} KeepOneRowEach(bom: seq<BomItem>, w: BomItem -> bool)
    requires OneRowEach(bom)
    ensures OneRowEach(Keep(bom, w))
  {
    if bom != [] {
      var rest := Keep(bom[1..], w);
      assert OneRowEach(bom[1..]);
      KeepOneRowEach(bom[1..], w);
      assert [] + rest == rest;
      forall j | 0 <= j < |rest| ensures rest[j].product != bom[0].product || rest[j].part != bom[0].part {
        assert rest[j] in rest;
        var k :| 0 <= k < |bom[1..]| && bom[1..][k] == rest[j];
        assert bom[k + 1] == rest[j];
      }
    }
  }

  /** A BOM edit never gives a product two rows for one part, and changes no more than it says: adding adds the row,
      updating changes the quantity, loss and mode of the rows with its id, removing takes those rows away. */
  lemma BomEdits(db: Db, op: Op)
    requires OneRowEach(db.bom) && (op.OpAddBomItem? || op.OpUpdateBomItem? || op.OpRemoveBomItem?) && Attempt(db, op).Ok?
    ensures var bom := Attempt(db, op).value.bom;
      && OneRowEach(bom)
      && (op.OpAddBomItem? ==> ValidBomItem(op.item) && bom == db.bom + [op.item])
      && (op.OpUpdateBomItem? ==> |bom| == |db.bom| && forall i :: 0 <= i < |bom| ==>
            && bom[i].product == db.bom[i].product && bom[i].part == db.bom[i].part && bom[i].id == db.bom[i].id
            && (bom[i].id != op.id ==> bom[i] == db.bom[i])
            && (bom[i].id == op.id ==> (bom[i].quantity, bom[i].lossRate, bom[i].useMode) == (op.quantity, op.lossRate, op.useMode)))
      && (op.OpRemoveBomItem? ==> forall item :: item in bom <==> item in db.bom && item.id != op.id)
  {
    match op
    case OpAddBomItem(item) =>
    case OpUpdateBomItem(id, quantity, lossRate, useMode) =>
    case OpRemoveBomItem(id) => KeepOneRowEach(db.bom, (b: BomItem) => b.id != id);
  }

  lemma {:induction false} RunKeepsOneRowEach(db: Db, ops: seq<Op>)
    requires OneRowEach(db.bom)
    ensures OneRowEach(Run(db, ops).bom)
    decreases |ops|
  {
    if ops != [] {
      var op := ops[0];
      if (op.OpAddBomItem? || op.OpUpdateBomItem? || op.OpRemoveBomItem?) && Attempt(db, op).Ok? {
        BomEdits(db, op);
      } else if !op.OpAddBomItem? && !op.OpUpdateBomItem? && !op.OpRemoveBomItem? {
        StepLeavesBom(db, op);
      }
      hide Attempt, OneRowEach;
      RunKeepsOneRowEach(Step(db, op), ops[1..]);
    }
  }

  /** A new row is refused exactly when a value is out of its range, what it refers to is missing, or the row is there
      already. */
  lemma NewRowsAcceptedIff(db: Db, op: Op)
    ensures op.OpCreatePart? ==> (Attempt(db, op).Ok? <==> op.stock == 0 && 0 <= op.warn && op.id !in db.parts)
    ensures op.OpCreateBatch? ==> (Attempt(db, op).Ok? <==> 0 < op.plan && 0 < op.id && forall b :: b in db.batches ==> b.id != op.id)
    ensures op.OpAddBomItem? ==> (Attempt(db, op).Ok? <==>
      && 0 < op.item.quantity && 0 <= op.item.lossRate <= 100_00 && (op.item.useMode == 0 || op.item.useMode == 1)
      && op.item.part in db.parts && !InBomOf(db.bom, op.item.product, op.item.part))
    ensures op.OpUpdateBomItem? ==> (Attempt(db, op).Ok? <==>
      && 0 < op.quantity && 0 <= op.lossRate <= 100_00 && (op.useMode == 0 || op.useMode == 1)
      && exists b :: b in db.bom && b.id == op.id)
  {
  }

  // ---- Skipped and temporary parts ----

  /** The skip mark takes the BOM's demand of that part away from that batch; temporary parts stay; nothing else
      moves. Taking the mark back restores it. */
  lemma SkipDemand(db: Db, batch: int, part: int, b: Batch, p: int)
    requires AddSkipPart(db, batch, part).Ok?
    ensures var db1 := AddSkipPart(db, batch, part).value;
      && Demand(db1, b, p) == (if b.id == batch && p == part then Sum(db.temps, TempOf(batch, part)) else Demand(db, b, p))
      && RemoveSkipPart(db1, batch, part).Ok?
      && ((batch, part) !in db.skips ==> Demand(RemoveSkipPart(db1, batch, part).value, b, p) == Demand(db, b, p))
  {
    var db1 := AddSkipPart(db, batch, part).value;
    var f, g := NeedOf(db.skips, b, p), NeedOf(db1.skips, b, p);
    if b.id == batch && p == part {
      SumZero(db.bom, g);
    } else {
      SumSame(db.bom, db.bom, f, g);
    }
    if (batch, part) !in db.skips {
      SumSame(db.bom, db.bom, f, NeedOf(RemoveSkipPart(db1, batch, part).value.skips, b, p));
    }
  }

  lemma {:induction false} SumOthers(temps: seq<TempPart>, batch: int, part: int, b: int, p: int)
    ensures Sum(Keep(temps, (t: TempPart) => !(t.batch == batch && t.part == part)), TempOf(b, p))
         == if b == batch && p == part then 0 else Sum(temps, TempOf(b, p))
  {
    var w := (t: TempPart) => !(t.batch == batch && t.part == part);
    if b == batch && p == part {
      var kept := Keep(temps, w);
      forall i | 0 <= i < |kept| ensures TempOf(b, p)(kept[i]) == 0 { assert kept[i] in kept; }
      SumZero(kept, TempOf(b, p));
    } else {
      SumKeep(temps, w, TempOf(b, p), TempOf(b, p));
    }
  }

  /** Removing a temporary part leaves the BOM's demand of it and moves no other. */
  lemma RemovedTempDemand(db: Db, batch: int, part: int, b: Batch, p: int)
    requires RemoveTempPart(db, batch, part).Ok?
    ensures Demand(RemoveTempPart(db, batch, part).value, b, p) ==
      if b.id == batch && p == part then Sum(db.bom, NeedOf(db.skips, b, p)) else Demand(db, b, p)
  {
    SumOthers(db.temps, batch, part, b.id, p);
  }

  predicate InBomOf(bom: seq<BomItem>, product: int, part: int) {
    exists item :: item in bom && item.product == product && item.part == part
  }

  /** A temporary part is accepted exactly when its quantity is positive, the batch is open, the part is known and not
      in the product's BOM, and the projection with it stays non-negative. */
  lemma TempAcceptedIff(db: Db, batch: int, part: int, qty: int)
    ensures AddTempPart(db, batch, part, qty).Ok? <==>
      && 0 < qty && part in db.parts
      && var found := FindBatch(db.batches, batch);
      && found.Some? && found.value.status != COMPLETED && found.value.status != REVOKED
      && !InBomOf(db.bom, found.value.product, part)
      && 0 <= After(db, part) + OldTemp(db.temps, batch, part) - qty
  {
    hide Committed;
  }

  // ---- Recording ----

  /** The request: positive identifiers and quantities, each record and each lot of a record once, the plan within the
      use. */
  lemma {:induction false} AllocsAcceptedIff(allocs: seq<PlanStep>, seen: set<int>)
    ensures AllocError(allocs, seen).None? <==>
      && (forall i :: 0 <= i < |allocs| ==> 0 < allocs[i].lot && 0 < allocs[i].qty && allocs[i].lot !in seen)
      && (forall i, j :: 0 <= i < j < |allocs| ==> allocs[i].lot != allocs[j].lot)
  {
    if allocs != [] {
      AllocsAcceptedIff(allocs[1..], seen + {allocs[0].lot});
      assert forall i :: 0 < i < |allocs| ==> allocs[i] == allocs[1..][i - 1];
      assert forall i :: 0 <= i < |allocs| - 1 ==> allocs[1..][i] == allocs[i + 1];
    }
  }

  ghost predicate RequestOk(t: TraceInput) {
    && 0 < t.batch && 0 < t.part && 0 < t.used && Sum(t.allocs, Planned()) <= t.used
    && (forall i :: 0 <= i < |t.allocs| ==> 0 < t.allocs[i].lot && 0 < t.allocs[i].qty)
    && (forall i, j :: 0 <= i < j < |t.allocs| ==> t.allocs[i].lot != t.allocs[j].lot)
  }

  lemma FirstAccepted(inputs: seq<TraceInput>, seen: set<(int, int)>)
    requires inputs != []
    ensures var t := inputs[0]; TraceError(inputs, seen).None? <==>
      RequestOk(t) && (t.batch, t.part) !in seen && TraceError(inputs[1..], seen + {(t.batch, t.part)}).None?
  {
    AllocsAcceptedIff(inputs[0].allocs, {});
    hide AllocError, Sum;
  }

  lemma {:induction false} RequestAcceptedIff(inputs: seq<TraceInput>, seen: set<(int, int)>)
    ensures TraceError(inputs, seen).None? <==>
      && (forall i :: 0 <= i < |inputs| ==> RequestOk(inputs[i]) && (inputs[i].batch, inputs[i].part) !in seen)
      && OneEach(inputs)
  {
    if inputs != [] {
      FirstAccepted(inputs, seen);
      hide TraceError, RequestOk;
      RequestAcceptedIff(inputs[1..], seen + {(inputs[0].batch, inputs[0].part)});
      assert forall i :: 0 < i < |inputs| ==> inputs[i] == inputs[1..][i - 1];
      assert forall i :: 0 <= i < |inputs| - 1 ==> inputs[1..][i] == inputs[i + 1];
    }
  }

  lemma {:induction false} LotsAcceptedIff(db: Db, batch: int, part: int, allocs: seq<PlanStep>)
    ensures LotError(db, batch, part, allocs).None? <==> forall i :: 0 <= i < |allocs| ==>
      var found := FindLot(db.lots, allocs[i].lot);
      found.Some? && found.value.part == part && allocs[i].qty <= Available(db, batch, found.value)
  {
    if allocs != [] {
      hide Available;
      LotsAcceptedIff(db, batch, part, allocs[1..]);
      assert forall i :: 0 < i < |allocs| ==> allocs[i] == allocs[1..][i - 1];
      assert forall i :: 0 <= i < |allocs| - 1 ==> allocs[1..][i] == allocs[i + 1];
    }
  }

  /** One record is accepted exactly when its batch is open, its part is known and either not skipped or a temporary
      part of the batch, and each planned lot is a lot of the part with enough available. */
  lemma RecordAcceptedIff(db: Db, t: TraceInput)
    ensures RecordError(db, t).None? <==>
      && t.part in db.parts
      && var found := FindBatch(db.batches, t.batch);
      && found.Some? && found.value.status != COMPLETED && found.value.status != REVOKED
      && ((t.batch, t.part) in db.skips ==> exists p :: p in db.temps && p.batch == t.batch && p.part == t.part)
      && (forall i :: 0 <= i < |t.allocs| ==>
            var lot := FindLot(db.lots, t.allocs[i].lot);
            lot.Some? && lot.value.part == t.part && t.allocs[i].qty <= Available(db, t.batch, lot.value))
  {
    LotsAcceptedIff(db, t.batch, t.part, t.allocs);
    hide LotError, Available;
    if HasTemp(db.temps, t.batch, t.part) {
      var i :| 0 <= i < |db.temps| && db.temps[i].batch == t.batch && db.temps[i].part == t.part;
      assert db.temps[i] in db.temps;
    }
  }

  function TraceOf(batch: int, part: int): Trace -> bool { (t: Trace) => t.batch == batch && t.part == part }

  lemma DroppedUse(traces: seq<Trace>, batch: int, part: int, b: int, p: int)
    ensures Keep(Keep(traces, (t: Trace) => !(t.batch == batch && t.part == part)), TraceOf(b, p))
         == if b == batch && p == part then [] else Keep(traces, TraceOf(b, p))
  {
    var w := (t: Trace) => !(t.batch == batch && t.part == part);
    if b == batch && p == part {
      var kept := Keep(traces, w);
      forall i | 0 <= i < |kept| ensures !TraceOf(b, p)(kept[i]) { assert kept[i] in kept; }
      KeepNone(kept, TraceOf(b, p));
    } else {
      KeepKept(traces, w, TraceOf(b, p));
    }
  }

  /** Recording leaves exactly one record of its batch and part, with the quantity given, and the others as they were. */
  lemma RecordedUse(db: Db, t: TraceInput, b: int, p: int)
    ensures Keep(ReplaceTrace(db, t).traces, TraceOf(b, p)) ==
      if b == t.batch && p == t.part then [Trace(b, p, t.used)] else Keep(db.traces, TraceOf(b, p))
  {
    var kept, row := DropTrace(db, t.batch, t.part).traces, Trace(t.batch, t.part, t.used);
    DroppedUse(db.traces, t.batch, t.part, b, p);
    KeepConcat(kept, [row], TraceOf(b, p));
    assert Keep([row], TraceOf(b, p)) == if b == t.batch && p == t.part then [row] else [];
    assert Keep(kept, TraceOf(b, p)) + [] == Keep(kept, TraceOf(b, p));
  }

  /** Skipping a part, or removing a temporary one, forgets its record and no other. */
  lemma ForgottenUse(db: Db, op: Op, b: int, p: int)
    requires (op.OpAddSkipPart? || op.OpRemoveTempPart?) && Attempt(db, op).Ok?
    ensures Keep(Attempt(db, op).value.traces, TraceOf(b, p)) ==
      if b == op.batch && p == op.part then [] else Keep(db.traces, TraceOf(b, p))
    ensures PlanFor(Attempt(db, op).value.allocs, b, p) ==
      if b == op.batch && p == op.part then [] else PlanFor(db.allocs, b, p)
  {
    DroppedUse(db.traces, op.batch, op.part, b, p);
    DroppedPlan(db, op.batch, op.part, b, p);
    hide PlanFor;
  }

  // ---- Status ----

  /** A status change is accepted exactly when the batch is open and the status is one of the four; for completion,
      when the completion goes through. */
  lemma StatusAcceptedIff(db: Db, id: int, status: int)
    ensures ChangeStatus(db, id, status).Ok? <==>
      && var found := FindBatch(db.batches, id);
      && found.Some? && found.value.status != COMPLETED && found.value.status != REVOKED && 0 <= status <= 3
      && (status == COMPLETED ==> Complete(db, found.value).Ok?)
  {
    hide Complete;
  }

  /** A batch can be revoked once, open or completed, unless it was completed without its consumption being recorded. */
  lemma RevokeAcceptedIff(db: Db, id: int, now: int)
    ensures Revoke(db, id, now).Ok? <==>
      && var found := FindBatch(db.batches, id);
      && found.Some? && found.value.status != REVOKED && (found.value.status == COMPLETED ==> found.value.recorded)
  {
    hide RestoreRows;
  }

  /** Which check a refused completion failed: the first of plan, BOM, stock and records; and the parts it lists. */
  lemma CompletionRefusals(db: Db, batch: Batch)
    requires Inv(db) && TempsOk(db)
    ensures match CompletionError(db, batch)
      case None => true
      case Some(BadPlan) => batch.plan <= 0
      case Some(BadBom) => 0 < batch.plan && exists item :: item in db.bom && item.product == batch.product && !ValidBomItem(item)
      case Some(Shortage(short)) => short != [] && forall p :: p in short <==> p in db.parts && IsShort(db, batch, p)
      case Some(TraceMissing(missing)) =>
        && missing != [] && (forall p :: p in missing <==> p in db.parts && IsUnrecorded(db, batch, p))
        && (forall p :: p in db.parts ==> !IsShort(db, batch, p))
      case Some(_) => false
  {
    var order := CompletionOrder(db, batch);
    CompletionOrderFacts(db, batch);
    EmptyIff(order, ShortOf(db, batch));
    hide Demand, CompletionOrder, HasTrace, Inv;
  }

  /** The parts a completion takes for the BOM come in ascending order, and so do those a refusal lists. */
  ghost predicate Ascending(order: seq<int>) { forall i, j :: 0 <= i < j < |order| ==> order[i] < order[j] }

  lemma AscendMore(order: seq<int>, p: int)
    requires Ascending(order) && forall x :: x in order ==> x <= p
    ensures Ascending(AddDistinct(order, p))
  {
    if p !in order {
      forall i | 0 <= i < |order| ensures order[i] < p {
        assert order[i] in order;
      }
    }
  }

  lemma {:induction false} BomPartsAscend(db: Db, batch: Batch, n: nat)
    requires n <= |BomRows(db.bom, batch.product)|
    ensures Ascending(BomOrder(db, batch, n))
    ensures forall p :: p in BomOrder(db, batch, n) ==> exists k :: 0 <= k < n && BomRows(db.bom, batch.product)[k].part == p
  {
    if n > 0 {
      BomPartsAscend(db, batch, n - 1);
      BomRowsAscend(db.bom, batch.product);
      hide BomRows, Ascending, BomApplies;
      AscendMore(BomOrder(db, batch, n - 1), BomRows(db.bom, batch.product)[n - 1].part);
    }
  }

  lemma BomRowsAscend(bom: seq<BomItem>, product: int)
    ensures SortedBy(BomRows(bom, product), (b: BomItem) => b.part)
  {
    OrderBySorted(Keep(bom, (b: BomItem) => b.product == product), (b: BomItem) => b.part);
  }

  // ---- Stocktakes ----

  /** Counting is refused unless every lot is named once, by a positive id, with a count that is not negative. */
  lemma {:induction false} CountsAcceptedIff(counts: seq<Count>, seen: set<int>)
    ensures CountError(counts, seen).None? <==>
      && (forall i :: 0 <= i < |counts| ==> 0 < counts[i].lot && 0 <= counts[i].remaining && counts[i].lot !in seen)
      && (forall i, j :: 0 <= i < j < |counts| ==> counts[i].lot != counts[j].lot)
  {
    if counts != [] {
      CountsAcceptedIff(counts[1..], seen + {counts[0].lot});
      assert forall i :: 0 < i < |counts| ==> counts[i] == counts[1..][i - 1];
      assert forall i :: 0 <= i < |counts| - 1 ==> counts[1..][i] == counts[i + 1];
    }
  }

  ghost predicate Counted(counts: seq<Count>, lot: int) { exists i :: 0 <= i < |counts| && counts[i].lot == lot }

  ghost predicate EachOnce(counts: seq<Count>) { forall i, j :: 0 <= i < j < |counts| ==> counts[i].lot != counts[j].lot }

  /** Each counted lot ends with its count, every other lot keeps what it had. */
  lemma {:induction false} RecountWrites(lots: seq<Lot>, part: int, counts: seq<Count>, delta: int, i: nat)
    requires EachOnce(counts) && Recount(lots, part, counts, delta).Ok? && i < |lots|
    ensures var after := Recount(lots, part, counts, delta).value.0;
      && |after| == |lots|
      && (!Counted(counts, lots[i].id) ==> after[i] == lots[i])
      && (forall k :: 0 <= k < |counts| && counts[k].lot == lots[i].id ==> after[i] == lots[i].(remaining := counts[k].remaining))
    decreases |counts|
  {
    if counts != [] {
      var c, rest := counts[0], counts[1..];
      var lots1 := SetRemaining(lots, c.lot, c.remaining);
      assert forall k :: 0 <= k < |rest| ==> rest[k] == counts[k + 1];
      hide FindLot;
      RecountWrites(lots1, part, rest, delta + c.remaining - FindLot(lots, c.lot).value.remaining, i);
      if Counted(rest, lots[i].id) {
        var k :| 0 <= k < |rest| && rest[k].lot == lots[i].id;
        assert counts[k + 1].lot == lots[i].id;
      }
      forall k | 0 <= k < |counts| && counts[k].lot == lots[i].id
        ensures Recount(lots, part, counts, delta).value.0[i] == lots[i].(remaining := counts[k].remaining)
      {
        if k > 0 {
          assert rest[k - 1] == counts[k];
        } else {
          assert !Counted(rest, lots[i].id);
        }
      }
    }
  }

  /** A stocktake that raises the total books the difference as one new lot at the time of the count. */
  lemma RaisedStock(db: Db, part: int, newQty: int, now: int)
    requires part in db.parts && db.parts[part].stock < newQty && 0 <= newQty
    ensures AdjustStock(db, part, newQty, now).Ok?
    ensures var db1, diff := AdjustStock(db, part, newQty, now).value, newQty - db.parts[part].stock;
      db1.lots == db.lots + [Lot(db.nextLot, part, diff, diff, now)] && db1.parts[part].stock == newQty
  {
  }

  /** Without a plan a lot loses something only when every older one is empty. */
  lemma UnplannedOldestFirst(list: seq<Lot>, qty: int, i: nat, j: nat)
    requires DistinctIds(list) && i < j < |list| && 0 <= list[i].remaining && 0 <= list[j].remaining
    ensures 0 <= Loss(list, [], qty, list[j].id) <= list[j].remaining
    ensures 0 < Loss(list, [], qty, list[j].id) ==> Loss(list, [], qty, list[i].id) == list[i].remaining
  {
    hide Loss;
    UnplannedCap(list[i]);
    UnplannedCap(list[j]);
    LossBounded(list, [], qty, list[j]);
    DrawOrder(list, [], qty);
    assert !Named([], list[i].id) && !Named([], list[j].id);
  }

  /** `after` is `lots` with what an unplanned draw of `qty` on `list` takes. */
  ghost predicate LostFrom(lots: seq<Lot>, after: seq<Lot>, list: seq<Lot>, qty: int) {
    |after| == |lots| && forall k :: 0 <= k < |after| ==>
      after[k] == lots[k].(remaining := lots[k].remaining - Loss(list, [], qty, lots[k].id))
  }

  lemma LoweredLots(db: Db, part: int, newQty: int, now: int)
    requires part in db.parts && 0 <= newQty < db.parts[part].stock && AdjustStock(db, part, newQty, now).Ok?
    ensures LostFrom(db.lots, AdjustStock(db, part, newQty, now).value.lots, FifoList(db.lots, part), db.parts[part].stock - newQty)
  {
    hide FifoList, Offers, Greedy, Sum;
  }

  lemma ListedLot(db: Db, part: int, i: nat)
    requires LotsOk(db) && i < |FifoList(db.lots, part)|
    ensures DistinctLots(db.lots) && DistinctIds(FifoList(db.lots, part))
    ensures FifoList(db.lots, part)[i] in db.lots && 0 <= FifoList(db.lots, part)[i].remaining
  {
    FifoFacts(db.lots, part);
    hide FifoList, Ordered, DistinctLots, DistinctIds;
    assert FifoList(db.lots, part)[i] in FifoList(db.lots, part);
  }

  lemma LostOldestFirst(lots: seq<Lot>, after: seq<Lot>, list: seq<Lot>, qty: int, i: nat, j: nat)
    requires DistinctLots(lots) && DistinctIds(list) && i < j < |list| && list[i] in lots && list[j] in lots
    requires 0 <= list[i].remaining && 0 <= list[j].remaining && LostFrom(lots, after, list, qty)
    ensures var x, y := FindLot(after, list[i].id), FindLot(after, list[j].id);
      && x.Some? && y.Some? && 0 <= y.value.remaining <= list[j].remaining
      && (y.value.remaining < list[j].remaining ==> x.value.remaining == 0)
  {
    UnplannedOldestFirst(list, qty, i, j);
    hide Loss, FindLot, DistinctLots, DistinctIds;
    LotAfter(lots, after, list[i], Loss(list, [], qty, list[i].id));
    LotAfter(lots, after, list[j], Loss(list, [], qty, list[j].id));
  }

  /** One that lowers it takes the difference from the oldest lots: a lot loses something only when every older one of
      the part is empty. */
  lemma LoweredOldestFirst(db: Db, part: int, newQty: int, now: int, i: nat, j: nat)
    requires LotsOk(db) && part in db.parts && 0 <= newQty < db.parts[part].stock && AdjustStock(db, part, newQty, now).Ok?
    requires i < j < |FifoList(db.lots, part)|
    ensures var list, db1 := FifoList(db.lots, part), AdjustStock(db, part, newQty, now).value;
      var x, y := FindLot(db1.lots, list[i].id), FindLot(db1.lots, list[j].id);
      && x.Some? && y.Some? && 0 <= y.value.remaining <= list[j].remaining
      && (y.value.remaining < list[j].remaining ==> x.value.remaining == 0)
  {
    hide *;
    ListedLot(db, part, i);
    ListedLot(db, part, j);
    LoweredLots(db, part, newQty, now);
    LostOldestFirst(db.lots, AdjustStock(db, part, newQty, now).value.lots, FifoList(db.lots, part),
      db.parts[part].stock - newQty, i, j);
  }

  lemma UnplannedCap(l: Lot)
    requires 0 <= l.remaining
    ensures CapOf([])(l) == l.remaining
  {
    assert !Named([], l.id);
  }

  lemma LotAfter(lots: seq<Lot>, after: seq<Lot>, l: Lot, loss: int)
    requires DistinctLots(lots) && l in lots && |after| == |lots|
    requires forall k :: 0 <= k < |lots| ==> after[k].id == lots[k].id && (lots[k] == l ==> after[k].remaining == l.remaining - loss)
    ensures FindLot(after, l.id).Some? && FindLot(after, l.id).value.remaining == l.remaining - loss
  {
    var k :| 0 <= k < |lots| && lots[k] == l;
    assert after[k] in after;
    var m := FindLot(after, l.id).value;
    var n :| 0 <= n < |after| && after[n] == m;
  }

  // ---- Giving one row back ----

  /** In general, also for a batch whose draws cover only part of the row: the lots get all the batch's draws back, and
      what the row has beyond them as a new lot. A row of nothing, or of a part that is gone, gives nothing back. */
  lemma RowGivenBack(db: Db, batch: int, row: Consumption, now: int, p: int)
    ensures var db1, drawn := RestoreRow(db, batch, row, now), Sum(db.draws, DrawnBy(batch));
      if 0 < row.qty && row.part in db.parts then
        LotTotal(db1.lots, p) == LotTotal(db.lots, p) + DrawnOfPart(db.lots, db.draws, batch, p)
          + if p == row.part && drawn < row.qty then row.qty - drawn else 0
      else db1 == db
  {
    if 0 < row.qty && row.part in db.parts {
      var db0 := RestoreDraws(SetStock(db, row.part, db.parts[row.part].stock + row.qty), batch);
      var drawn := Sum(db.draws, DrawnBy(batch));
      RestoreTotals(db.lots, db.draws, batch, p);
      if drawn < row.qty {
        AddLotTotal(db0, row.part, row.qty - drawn, now, p);
      }
    }
  }
}
