/** The exceptions happen: runs from an empty ledger that reach them. */
module Occurrences {
  import opened Sums
  import opened Bom
  import opened Tables
  import opened Draw
  import opened Transactions
  import opened Effects
  import opened Invariant
  import opened Revocation
  import opened Runs
  import opened RoundTrip
  import opened Projection
  import opened TraceRecords
  import opened Refusals

  lemma RunSplit(db: Db, op: Op, rest: seq<Op>)
    ensures Run(db, [op] + rest) == Run(Step(db, op), rest)
  {
    assert ([op] + rest)[1..] == rest;
  }

  lemma RunTwo(db: Db, op0: Op, op1: Op)
    ensures Run(db, [op0, op1]) == Step(Step(db, op0), op1)
  {
    hide Step;
    assert [op0, op1] == [op0] + [op1] && [op1][1..] == [];
    RunSplit(db, op0, [op1]);
  }

  lemma {:induction false} RunParts(db: Db, a: seq<Op>, b: seq<Op>)
    ensures Run(db, a + b) == Run(Run(db, a), b)
    decreases |a|
  {
    hide Step;
    if a == [] {
      assert a + b == b;
    } else {
      assert (a + b)[1..] == a[1..] + b;
      RunParts(Step(db, a[0]), a[1..], b);
    }
  }

  // ---- Two parts in stock, one batch that needs both ----

  const CREATED := EMPTY_DB.(parts := map[1 := Part(0, 0, 1), 2 := Part(0, 0, 1)])

  const STOCKED := CREATED.(parts := CREATED.parts[1 := Part(10_00, 0, 2)][2 := Part(10_00, 0, 2)],
                            lots := [Lot(1, 1, 10_00, 10_00, 0), Lot(2, 2, 10_00, 10_00, 0)], nextLot := 3)

  const BATCH := Batch(1, 1, 1, 0, PENDING, false)

  const NEEDING := STOCKED.(batches := [BATCH], temps := [TempPart(1, 1, 4_00), TempPart(1, 2, 6_00)])

  const RECORDED := NEEDING.(traces := [Trace(1, 1, 4_00), Trace(1, 2, 6_00)])

  const RECORDS := [TraceInput(1, 1, 4_00, []), TraceInput(1, 2, 6_00, [])]

  const TO_STOCKED: seq<Op> := [OpCreatePart(1, 0, 0), OpCreatePart(2, 0, 0)] + [OpStockIn(1, 10_00, 0), OpStockIn(2, 10_00, 0)]

  const TO_RECORDED: seq<Op> := [OpCreateBatch(1, 1, 1), OpAddTempPart(1, 1, 4_00)] + [OpAddTempPart(1, 2, 6_00), OpRecordTraces(RECORDS)]

  lemma Stocked()
    ensures Run(EMPTY_DB, TO_STOCKED) == STOCKED
  {
    RunParts(EMPTY_DB, [OpCreatePart(1, 0, 0), OpCreatePart(2, 0, 0)], [OpStockIn(1, 10_00, 0), OpStockIn(2, 10_00, 0)]);
    RunTwo(EMPTY_DB, OpCreatePart(1, 0, 0), OpCreatePart(2, 0, 0));
    RunTwo(CREATED, OpStockIn(1, 10_00, 0), OpStockIn(2, 10_00, 0));
    var db1 := StockIn(CREATED, 1, 10_00, 0).value;
    assert db1.lots == [Lot(1, 1, 10_00, 10_00, 0)];
    assert StockIn(db1, 2, 10_00, 0).value.lots == db1.lots + [Lot(2, 2, 10_00, 10_00, 0)] == STOCKED.lots;
    assert db1.parts[2] == Part(0, 0, 1);
  }

  lemma OneBatchCommitted(db: Db, part: int)
    requires db.batches == [BATCH] && db.bom == []
    ensures Committed(db, 0, part) == Sum(db.temps, TempOf(1, part))
  {
    SumOnly(db.batches, 0, OpenDemand(db, 0, part));
    assert db.batches[0] == BATCH;
  }

  lemma TempAdded(db: Db, part: int, qty: int)
    requires db.batches == [BATCH] && db.bom == [] && part in db.parts
    requires 0 < qty <= db.parts[part].stock && forall t :: t in db.temps ==> t.batch == 1 && t.part != part
    ensures Step(db, OpAddTempPart(1, part, qty)) == db.(temps := db.temps + [TempPart(1, part, qty)])
  {
    OneBatchCommitted(db, part);
    forall i | 0 <= i < |db.temps| ensures TempOf(1, part)(db.temps[i]) == 0 { assert db.temps[i] in db.temps; }
    SumZero(db.temps, TempOf(1, part));
    NoOldTemp(db.temps, part);
    assert FindBatch(db.batches, 1) == Some(BATCH);
  }

  lemma {:induction false} NoOldTemp(temps: seq<TempPart>, part: int)
    requires forall t :: t in temps ==> t.part != part
    ensures OldTemp(temps, 1, part) == 0 && !HasTemp(temps, 1, part)
  {
    forall i | 0 <= i < |temps| ensures temps[i].part != part { assert temps[i] in temps; }
    if temps != [] {
      NoOldTemp(temps[..|temps| - 1], part);
    }
  }

  lemma RecordedOne(db: Db, part: int, used: int)
    requires db.batches == [BATCH] && db.skips == {} && db.allocs == [] && part in db.parts
    requires forall t :: t in db.traces ==> t.part != part
    ensures var t := TraceInput(1, part, used, []);
      RecordError(db, t).None? && ReplaceTrace(db, t) == db.(traces := db.traces + [Trace(1, part, used)])
  {
    KeepAll(db.traces, (t: Trace) => !(t.batch == 1 && t.part == part));
    assert FindBatch(db.batches, 1) == Some(BATCH);
    assert AllocRows(1, part, []) == [];
  }

  const ONE_NEEDED := STOCKED.(batches := [BATCH], temps := [TempPart(1, 1, 4_00)])

  lemma OneNeeded()
    ensures Run(STOCKED, [OpCreateBatch(1, 1, 1), OpAddTempPart(1, 1, 4_00)]) == ONE_NEEDED
  {
    var db1 := STOCKED.(batches := [BATCH]);
    BatchCreated();
    TempAdded(db1, 1, 4_00);
    assert db1.temps + [TempPart(1, 1, 4_00)] == ONE_NEEDED.temps;
    hide *;
    RunTwo(STOCKED, OpCreateBatch(1, 1, 1), OpAddTempPart(1, 1, 4_00));
  }

  lemma BothRecorded()
    ensures Run(ONE_NEEDED, [OpAddTempPart(1, 2, 6_00), OpRecordTraces(RECORDS)]) == RECORDED
  {
    TempAdded(ONE_NEEDED, 2, 6_00);
    assert ONE_NEEDED.temps + [TempPart(1, 2, 6_00)] == NEEDING.temps;
    RecordsAccepted();
    hide *;
    RunTwo(ONE_NEEDED, OpAddTempPart(1, 2, 6_00), OpRecordTraces(RECORDS));
    StepIsRecording(NEEDING, RECORDS);
  }

  lemma Recorded()
    ensures Run(STOCKED, TO_RECORDED) == RECORDED
  {
    hide Step, Run;
    OneNeeded();
    BothRecorded();
    RunParts(STOCKED, [OpCreateBatch(1, 1, 1), OpAddTempPart(1, 1, 4_00)], [OpAddTempPart(1, 2, 6_00), OpRecordTraces(RECORDS)]);
  }

  lemma BatchCreated()
    ensures Step(STOCKED, OpCreateBatch(1, 1, 1)) == STOCKED.(batches := [BATCH])
  {
    assert STOCKED.batches + [BATCH] == [BATCH];
  }

  lemma StepIsRecording(db: Db, inputs: seq<TraceInput>)
    requires RecordTraces(db, inputs).Ok?
    ensures Step(db, OpRecordTraces(inputs)) == RecordTraces(db, inputs).value
  {
  }

  lemma RecordsAccepted()
    ensures RecordTraces(NEEDING, RECORDS) == Ok(RECORDED)
  {
    RecordedOne(NEEDING, 1, 4_00);
    var db1 := NEEDING.(traces := [Trace(1, 1, 4_00)]);
    assert NEEDING.traces + [Trace(1, 1, 4_00)] == db1.traces;
    RecordedOne(db1, 2, 6_00);
    assert db1.traces + [Trace(1, 2, 6_00)] == RECORDED.traces;
    assert RECORDS[1..] == [RECORDS[1]] && RECORDS[1..][1..] == [];
    assert TraceError(RECORDS[1..], {} + {(1, 1)}).None?;
    assert TraceError(RECORDS, {}) == TraceError(RECORDS[1..], {} + {(1, 1)});
    hide RecordError, ReplaceTrace;
    assert RecordAll(RECORDED, []) == Ok(RECORDED);
    assert RecordAll(db1, RECORDS[1..]) == RecordAll(RECORDED, RECORDS[1..][1..]);
    assert RecordAll(NEEDING, RECORDS) == RecordAll(db1, RECORDS[1..]);
  }

  // ---- Completing the batch ----

  lemma RecordedIsReached()
    ensures Run(EMPTY_DB, TO_STOCKED + TO_RECORDED) == RECORDED
    ensures Inv(RECORDED) && TempsOk(RECORDED)
  {
    Stocked();
    Recorded();
    EmptyInv();
    RunKeepsInv(EMPTY_DB, TO_STOCKED + TO_RECORDED);
    hide Step, Run, Inv, TempsOk;
    RunParts(EMPTY_DB, TO_STOCKED, TO_RECORDED);
  }

  lemma RecordedDemand(p: int)
    ensures Demand(RECORDED, BATCH, p) == if p == 1 then 4_00 else if p == 2 then 6_00 else 0
  {
    var temps := RECORDED.temps;
    assert temps == [TempPart(1, 1, 4_00)] + [TempPart(1, 2, 6_00)];
    SumConcat([TempPart(1, 1, 4_00)], [TempPart(1, 2, 6_00)], TempOf(1, p));
    SumOnly([TempPart(1, 1, 4_00)], 0, TempOf(1, p));
    SumOnly([TempPart(1, 2, 6_00)], 0, TempOf(1, p));
  }

  lemma RecordedOrder()
    ensures CompletionOrder(RECORDED, BATCH) == [1, 2]
  {
    assert Keep(RECORDED.bom, (b: BomItem) => b.product == 1) == [];
    assert BomRows(RECORDED.bom, 1) == [];
    assert TempOrder(RECORDED, BATCH, 0) == [];
    assert TempOrder(RECORDED, BATCH, 1) == [1];
    assert TempOrder(RECORDED, BATCH, 2) == [1, 2];
  }

  lemma NothingMissing()
    ensures CompletionError(RECORDED, BATCH).None?
  {
    RecordedOrder();
    forall p ensures !IsShort(RECORDED, BATCH, p) && !IsUnrecorded(RECORDED, BATCH, p) {
      RecordedDemand(p);
      assert RECORDED.traces[0].part == 1 && RECORDED.traces[1].part == 2;
    }
    hide Demand, IsShort, IsUnrecorded, CompletionOrder;
    KeepNone([1, 2], ShortOf(RECORDED, BATCH));
    KeepNone([1, 2], UnrecordedOf(RECORDED, BATCH));
  }

  /** Every check passes and nothing is planned, so the completion goes through. */
  lemma RecordedCompletes()
    ensures CompletionError(RECORDED, BATCH).None? && Complete(RECORDED, BATCH).Ok?
  {
    hide *;
    RecordedIsReached();
    NothingMissing();
    CompletionRefusedIff(RECORDED, BATCH);
    forall p | p in RECORDED.parts ensures !HoldsTooMuch(RECORDED, BATCH, p) { NothingHeld(p); }
  }

  lemma NothingHeld(p: int)
    requires p in RECORDED.parts
    ensures !HoldsTooMuch(RECORDED, BATCH, p)
  {
    RecordedIsReached();
    RecordedDemand(p);
    assert PlanRows(RECORDED.allocs, 1, p) == [];
    NoPlanHoldsNothing(RECORDED, BATCH, p);
    LotsStocked(p);
  }

  lemma LotsStocked(p: int)
    ensures LotTotal(RECORDED.lots, p) == if p == 1 || p == 2 then 10_00 else 0
  {
    var lots := RECORDED.lots;
    assert lots == [lots[0]] + [lots[1]];
    SumConcat([lots[0]], [lots[1]], LotOf(p));
    SumOnly([lots[0]], 0, LotOf(p));
    SumOnly([lots[1]], 0, LotOf(p));
  }

  // ---- Revoking it: more in the lots than in stock ----

  const COMPLETED_OPS: seq<Op> := [OpChangeStatus(1, COMPLETED), OpRevoke(1, 0)]

  lemma TakePartFreezes(db: Db, batch: Batch, part: int)
    requires TakePart(db, batch, part).Ok?
    ensures var db1 := TakePart(db, batch, part).value;
      && db1.consumptions == db.consumptions + [Consumption(batch.id, part, Demand(db, batch, part))]
      && (forall p :: Demand(db1, batch, p) == Demand(db, batch, p))
  {
    hide Greedy, Offers, FifoList, ApplyTakes, DrawRows, Sum, Demand;
    forall p ensures Demand(TakePart(db, batch, part).value, batch, p) == Demand(db, batch, p) {
      SameDemand(db, TakePart(db, batch, part).value, batch, p);
    }
  }

  lemma TwoTaken(db: Db, batch: Batch, p: int, q: int)
    requires TakeParts(db, batch, [p, q]).Ok? && 0 < Demand(db, batch, p) && 0 < Demand(db, batch, q)
    ensures TakeParts(db, batch, [p, q]).value.consumptions ==
      db.consumptions + [Consumption(batch.id, p, Demand(db, batch, p))] + [Consumption(batch.id, q, Demand(db, batch, q))]
  {
    hide TakePart, Demand;
    assert [p, q][1..] == [q] && [q][1..] == [];
    var db1 := TakePart(db, batch, p).value;
    TakePartFreezes(db, batch, p);
    assert TakeParts(db, batch, [p, q]) == TakeParts(db1, batch, [q]);
    TakePartFreezes(db1, batch, q);
    assert TakeParts(db1, batch, [q]) == TakeParts(TakePart(db1, batch, q).value, batch, []);
  }

  /** The batch's consumption rows, part 1 before part 2. */
  lemma FrozenRows()
    requires Complete(RECORDED, BATCH).Ok?
    ensures ConsumptionRows(Complete(RECORDED, BATCH).value.consumptions, 1) == [Consumption(1, 1, 4_00), Consumption(1, 2, 6_00)]
  {
    RecordedOrder();
    RecordedDemand(1);
    RecordedDemand(2);
    var rows := [Consumption(1, 1, 4_00), Consumption(1, 2, 6_00)];
    hide Demand, TakeParts, CompletionOrder, CompletionError;
    TwoTaken(RECORDED, BATCH, 1, 2);
    assert RECORDED.consumptions + [Consumption(1, 1, 4_00)] + [Consumption(1, 2, 6_00)] == rows;
    KeepAll(rows, (c: Consumption) => c.batch == 1);
    RowsInOrder(rows);
  }

  lemma RowsInOrder(rows: seq<Consumption>)
    requires |rows| == 2 && rows[0].part < rows[1].part
    ensures OrderBy(rows, (c: Consumption) => c.part) == rows
  {
    var key := (c: Consumption) => c.part;
    assert rows == [rows[0]] + [rows[1]] && rows[1..] == [rows[1]];
    assert OrderBy(rows[1..], key) == [rows[1]];
  }

  /** After completing and revoking, the lots of part 2 hold 16.00 while its stock is 10.00: the 6.00 the batch
      consumed of it came back twice. */
  lemma RevocationLeavesExcess()
    ensures var db := Run(EMPTY_DB, (TO_STOCKED + TO_RECORDED) + COMPLETED_OPS);
      && 2 in db.parts && db.parts[2].stock == 10_00 && LotTotal(db.lots, 2) == 16_00 && Inv(db)
      && db.lots == RECORDED.lots + [Lot(3, 2, 6_00, 6_00, 0)] && !OnlySinglePartRevocations(db)
  {
    var db := Run(EMPTY_DB, (TO_STOCKED + TO_RECORDED) + COMPLETED_OPS);
    RecordedIsReached();
    RecordedCompletes();
    FrozenRows();
    CompletedAndRevoked();
    LotsStocked(2);
    SumAppend(RECORDED.lots, Lot(3, 2, 6_00, 6_00, 0), LotOf(2));
    EmptyInv();
    RunKeepsInv(EMPTY_DB, (TO_STOCKED + TO_RECORDED) + COMPLETED_OPS);
    hide Step, Run, Inv, TempsOk;
    RunParts(EMPTY_DB, TO_STOCKED + TO_RECORDED, COMPLETED_OPS);
    StockMatchesLotsIff(db);
  }

  lemma StepCompletes(db: Db, batch: Batch)
    requires FindBatch(db.batches, batch.id) == Some(batch) && IsOpen(batch.status) && Complete(db, batch).Ok?
    ensures Step(db, OpChangeStatus(batch.id, COMPLETED)) == Complete(db, batch).value
  {
    hide Complete;
  }

  lemma StepRevokes(db: Db, id: int, now: int)
    requires Revoke(db, id, now).Ok?
    ensures Step(db, OpRevoke(id, now)) == Revoke(db, id, now).value
  {
    hide Revoke;
  }

  /** Completing and revoking as two steps of a run. */
  lemma CompleteThenRevokeRun(db: Db, batch: Batch)
    requires FindBatch(db.batches, batch.id) == Some(batch) && IsOpen(batch.status) && Complete(db, batch).Ok?
    requires Revoke(Complete(db, batch).value, batch.id, 0).Ok?
    ensures Run(db, [OpChangeStatus(batch.id, COMPLETED), OpRevoke(batch.id, 0)])
         == Revoke(Complete(db, batch).value, batch.id, 0).value
  {
    hide *;
    RunTwo(db, OpChangeStatus(batch.id, COMPLETED), OpRevoke(batch.id, 0));
    StepCompletes(db, batch);
    StepRevokes(Complete(db, batch).value, batch.id, 0);
  }

  lemma SecondRowAsNew()
    ensures RestoredAsNew([Consumption(1, 1, 4_00), Consumption(1, 2, 6_00)][1..], 3, 0) == [Lot(3, 2, 6_00, 6_00, 0)]
  {
    var rows := [Consumption(1, 1, 4_00), Consumption(1, 2, 6_00)];
    assert rows[1..] == [rows[1]] && rows[1..][1..] == [];
  }

  lemma BatchFound()
    ensures FindBatch(RECORDED.batches, 1) == Some(BATCH) && IsOpen(BATCH.status)
  {
  }

  lemma CompletedAndRevoked()
    requires Inv(RECORDED) && TempsOk(RECORDED) && Complete(RECORDED, BATCH).Ok?
    requires ConsumptionRows(Complete(RECORDED, BATCH).value.consumptions, 1) == [Consumption(1, 1, 4_00), Consumption(1, 2, 6_00)]
    ensures var db := Run(RECORDED, COMPLETED_OPS);
      && 2 in db.parts && db.parts[2].stock == 10_00 && db.lots == RECORDED.lots + [Lot(3, 2, 6_00, 6_00, 0)]
  {
    assert 2 in RECORDED.parts && RECORDED.parts[2].stock == 10_00 && RECORDED.nextLot == 3;
    hide *;
    BatchFound();
    SecondRowAsNew();
    CompleteThenRevoke(RECORDED, BATCH, 0);
    CompleteThenRevokeRun(RECORDED, BATCH);
  }

  /** Counting both lots of part 2 as empty is then refused as a negative stock. */
  lemma CountingRefused()
    ensures var db := Run(EMPTY_DB, (TO_STOCKED + TO_RECORDED) + COMPLETED_OPS);
      AdjustInbounds(db, 2, [Count(2, 0), Count(3, 0)]) == Err(NegativeStock)
  {
    var db := Run(EMPTY_DB, (TO_STOCKED + TO_RECORDED) + COMPLETED_OPS);
    RevocationLeavesExcess();
    hide Run, Inv, LotTotal, OnlySinglePartRevocations;
    var counts := [Count(2, 0), Count(3, 0)];
    assert counts[1..] == [Count(3, 0)] && counts[1..][1..] == [];
    assert CountError(counts[1..], {} + {2}).None?;
    var lots := db.lots;
    assert lots == [Lot(1, 1, 10_00, 10_00, 0), Lot(2, 2, 10_00, 10_00, 0), Lot(3, 2, 6_00, 6_00, 0)];
    assert FindLot(lots, 2) == Some(lots[1]);
    var lots1 := SetRemaining(lots, 2, 0);
    assert FindLot(lots1, 3) == Some(lots[2]);
    assert Recount(lots1, 2, counts[1..], -10_00) == Recount(SetRemaining(lots1, 3, 0), 2, [], -16_00);
    assert Recount(lots, 2, counts, 0) == Recount(lots1, 2, counts[1..], -10_00);
  }

  // ---- One part, one lot, one batch ----

  const ONE_LOT := EMPTY_DB.(parts := ONE_PART[1 := Part(10_00, 0, 2)], lots := [FULL_LOT], nextLot := 2, batches := [BATCH])

  const TO_ONE_LOT: seq<Op> := [OpCreatePart(1, 0, 0), OpStockIn(1, 10_00, 0)] + [OpCreateBatch(1, 1, 1)]

  lemma OneLot()
    ensures Run(EMPTY_DB, TO_ONE_LOT) == ONE_LOT
  {
    RunParts(EMPTY_DB, [OpCreatePart(1, 0, 0), OpStockIn(1, 10_00, 0)], [OpCreateBatch(1, 1, 1)]);
    RunTwo(EMPTY_DB, OpCreatePart(1, 0, 0), OpStockIn(1, 10_00, 0));
    var db1 := EMPTY_DB.(parts := ONE_PART);
    assert Step(EMPTY_DB, OpCreatePart(1, 0, 0)) == db1;
    assert StockIn(db1, 1, 10_00, 0).value.lots == [FULL_LOT];
    var db2 := ONE_LOT.(batches := []);
    assert Step(db1, OpStockIn(1, 10_00, 0)) == db2;
    assert db2.batches + [BATCH] == [BATCH];
    RunOne(db2, OpCreateBatch(1, 1, 1));
  }

  lemma RunOne(db: Db, op: Op)
    ensures Run(db, [op]) == Step(db, op)
  {
    hide Step;
    assert [op][1..] == [];
  }

  /** Recording the part with a plan of its one lot. */
  lemma PlanRecorded(db: Db, used: int, planned: int)
    requires db == ONE_LOT.(temps := db.temps) && 0 < planned <= 10_00 && planned <= used
    ensures RecordTraces(db, [TraceInput(1, 1, used, [PlanStep(1, planned)])]) ==
      Ok(db.(traces := [Trace(1, 1, used)], allocs := [Alloc(1, 1, 1, planned, 0)]))
  {
    var t := TraceInput(1, 1, used, [PlanStep(1, planned)]);
    assert t.allocs[1..] == [] && [t][1..] == [];
    assert AllocError(t.allocs, {}).None? && Sum(t.allocs, Planned()) == planned;
    assert TraceError([t], {}).None?;
    assert FindBatch(db.batches, 1) == Some(BATCH) && EditError(db, 1, 1).None?;
    assert Available(db, 1, FULL_LOT) == 10_00;
    assert FindLot(db.lots, 1) == Some(FULL_LOT);
    assert LotError(db, 1, 1, t.allocs[1..]).None?;
    assert LotError(db, 1, 1, t.allocs).None?;
    var db1 := ReplaceTrace(db, t);
    assert db1.traces == [Trace(1, 1, used)] && db1.allocs == [Alloc(1, 1, 1, planned, 0)];
    assert RecordAll(db, [t]) == RecordAll(db1, []);
  }

  const TO_PLANNED_ONCE: seq<Op> := TO_ONE_LOT + [OpRecordTraces([TraceInput(1, 1, 20_00, [PlanStep(1, 10_00)])])]

  /** The state in which recording again plans 20.00 of the 10.00 a lot holds is reached. */
  lemma OverplanningHappens()
    ensures Run(EMPTY_DB, TO_PLANNED_ONCE) == PLANNED_ONCE
    ensures var again := [OpRecordTraces([TraceInput(1, 1, 20_00, [PlanStep(1, 20_00)])])];
      OpenAllocs(Run(EMPTY_DB, TO_PLANNED_ONCE + again), 1) == 2 * FULL_LOT.remaining
  {
    var again := OpRecordTraces([TraceInput(1, 1, 20_00, [PlanStep(1, 20_00)])]);
    OneLot();
    PlanRecorded(ONE_LOT, 20_00, 10_00);
    RecordingAgainOverplans();
    StepIsRecording(ONE_LOT, [TraceInput(1, 1, 20_00, [PlanStep(1, 10_00)])]);
    StepIsRecording(PLANNED_ONCE, [TraceInput(1, 1, 20_00, [PlanStep(1, 20_00)])]);
    hide Step, Run, RecordTraces, OpenAllocs;
    RunParts(EMPTY_DB, TO_ONE_LOT, [OpRecordTraces([TraceInput(1, 1, 20_00, [PlanStep(1, 10_00)])])]);
    RunOne(ONE_LOT, OpRecordTraces([TraceInput(1, 1, 20_00, [PlanStep(1, 10_00)])]));
    RunParts(EMPTY_DB, TO_PLANNED_ONCE, [again]);
    RunOne(PLANNED_ONCE, again);
  }

  // ---- A completion refused although the lot suffices ----

  const HALF_PLANNED := ONE_LOT.(temps := [TempPart(1, 1, 10_00)], traces := [Trace(1, 1, 10_00)], allocs := [Alloc(1, 1, 1, 5_00, 0)])

  const TO_HALF_PLANNED: seq<Op> :=
    TO_ONE_LOT + [OpAddTempPart(1, 1, 10_00), OpRecordTraces([TraceInput(1, 1, 10_00, [PlanStep(1, 5_00)])])]

  lemma HalfPlanned()
    ensures Run(EMPTY_DB, TO_HALF_PLANNED) == HALF_PLANNED
    ensures Inv(HALF_PLANNED) && TempsOk(HALF_PLANNED)
  {
    EmptyInv();
    RunKeepsInv(EMPTY_DB, TO_HALF_PLANNED);
    OneLot();
    TempAdded(ONE_LOT, 1, 10_00);
    var db1 := ONE_LOT.(temps := [TempPart(1, 1, 10_00)]);
    assert ONE_LOT.temps + [TempPart(1, 1, 10_00)] == db1.temps;
    PlanRecorded(db1, 10_00, 5_00);
    StepIsRecording(db1, [TraceInput(1, 1, 10_00, [PlanStep(1, 5_00)])]);
    hide Step, Run, RecordTraces, Inv, TempsOk;
    RunParts(EMPTY_DB, TO_ONE_LOT, [OpAddTempPart(1, 1, 10_00), OpRecordTraces([TraceInput(1, 1, 10_00, [PlanStep(1, 5_00)])])]);
    RunTwo(ONE_LOT, OpAddTempPart(1, 1, 10_00), OpRecordTraces([TraceInput(1, 1, 10_00, [PlanStep(1, 5_00)])]));
  }

  lemma HalfPlannedNeeds(p: int)
    ensures Demand(HALF_PLANNED, BATCH, p) == if p == 1 then 10_00 else 0
    ensures LotTotal(HALF_PLANNED.lots, 1) == 10_00
    ensures HeldBackFrom(HALF_PLANNED, BATCH, 1) == 5_00
  {
    SumOnly(HALF_PLANNED.temps, 0, TempOf(1, p));
    SumOnly(HALF_PLANNED.lots, 0, LotOf(1));
    assert Keep(HALF_PLANNED.allocs, (a: Alloc) => a.batch == 1 && a.part == 1) == HALF_PLANNED.allocs;
    assert PlanRows(HALF_PLANNED.allocs, 1, 1) == [Alloc(1, 1, 1, 5_00, 0)];
    var plan := PlanFor(HALF_PLANNED.allocs, 1, 1);
    assert plan == [PlanStep(1, 5_00)] && plan[0].lot == 1;
    assert CapOf(plan)(FULL_LOT) == 5_00 && HeldBack(plan)(FULL_LOT) == 5_00;
    SumOnly(HALF_PLANNED.lots, 0, HeldOf(1, plan));
  }

  lemma HalfPlannedChecks()
    ensures CompletionError(HALF_PLANNED, BATCH).None?
  {
    forall p ensures !IsShort(HALF_PLANNED, BATCH, p) && !IsUnrecorded(HALF_PLANNED, BATCH, p) {
      HalfPlannedNeeds(p);
      assert HALF_PLANNED.traces[0].part == 1;
    }
    hide Demand, IsShort, IsUnrecorded, CompletionOrder;
    var order := CompletionOrder(HALF_PLANNED, BATCH);
    KeepNone(order, ShortOf(HALF_PLANNED, BATCH));
    KeepNone(order, UnrecordedOf(HALF_PLANNED, BATCH));
  }

  lemma HalfPlannedHolds()
    ensures 1 in HALF_PLANNED.parts && HoldsTooMuch(HALF_PLANNED, BATCH, 1)
  {
    HalfPlannedNeeds(1);
    hide Demand, LotTotal, HeldBackFrom;
  }

  /** A batch needs 10.00, its one lot holds 10.00, and 5.00 of it are planned: the completion passes every check
      and is refused. */
  lemma SufficientLotRefused()
    ensures Run(EMPTY_DB, TO_HALF_PLANNED) == HALF_PLANNED
    ensures CompletionError(HALF_PLANNED, BATCH).None? && Complete(HALF_PLANNED, BATCH) == Err(LotsShort)
  {
    hide *;
    HalfPlanned();
    HalfPlannedChecks();
    HalfPlannedHolds();
    CompletionRefusedIff(HALF_PLANNED, BATCH);
  }
}
