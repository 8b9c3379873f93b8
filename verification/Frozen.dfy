/** A batch that is completed or revoked is closed: whatever runs later, its rows stay, and the only way on is from
    completed to revoked. */
module Frozen {
  import opened Sums
  import opened Bom
  import opened Tables
  import opened Draw
  import opened Transactions
  import opened Effects
  import opened Invariant
  import opened Runs

  // ---- The rows of one batch ----

  function TracesOf(id: int): Trace -> bool { (t: Trace) => t.batch == id }

  function AllocsOf(id: int): Alloc -> bool { (a: Alloc) => a.batch == id }

  function TempsOf(id: int): TempPart -> bool { (t: TempPart) => t.batch == id }

  function ConsumedOf(id: int): Consumption -> bool { (c: Consumption) => c.batch == id }

  function DrawsOf(id: int): DrawRow -> bool { (d: DrawRow) => d.batch == id }

  /** The records, plans, temporary and skipped parts and the frozen consumption of a batch are the same. */
  ghost predicate SameRows(db: Db, db1: Db, id: int) {
    && Keep(db1.traces, TracesOf(id)) == Keep(db.traces, TracesOf(id))
    && Keep(db1.allocs, AllocsOf(id)) == Keep(db.allocs, AllocsOf(id))
    && Keep(db1.temps, TempsOf(id)) == Keep(db.temps, TempsOf(id))
    && Keep(db1.consumptions, ConsumedOf(id)) == Keep(db.consumptions, ConsumedOf(id))
    && (forall p :: (id, p) in db1.skips <==> (id, p) in db.skips)
  }

  ghost predicate SameDraws(db: Db, db1: Db, id: int) {
    Keep(db1.draws, DrawsOf(id)) == Keep(db.draws, DrawsOf(id))
  }

  ghost predicate SameBatch(db: Db, db1: Db, id: int) { FindBatch(db1.batches, id) == FindBatch(db.batches, id) }

  ghost predicate IsClosed(db: Db, id: int) {
    var b := FindBatch(db.batches, id);
    b.Some? && (b.value.status == COMPLETED || b.value.status == REVOKED)
  }

  /** The row of a completed batch, as it is or revoked. */
  ghost predicate OnlyRevoked(db: Db, db1: Db, id: int)
    requires IsClosed(db, id)
  {
    && FindBatch(db.batches, id).value.status == COMPLETED
    && FindBatch(db1.batches, id) == Some(FindBatch(db.batches, id).value.(status := REVOKED))
  }

  /** A closed batch later: its rows as they were, its draws too, unless it has been revoked in between. */
  ghost predicate Kept(db: Db, db1: Db, id: int)
    requires IsClosed(db, id)
  {
    && SameRows(db, db1, id)
    && ((SameBatch(db, db1, id) && SameDraws(db, db1, id)) || OnlyRevoked(db, db1, id))
  }

  lemma KeptClosed(db: Db, db1: Db, id: int)
    requires IsClosed(db, id) && Kept(db, db1, id)
    ensures IsClosed(db1, id)
  {
  }

  lemma SameRowsTransitive(a: Db, b: Db, c: Db, id: int)
    requires SameRows(a, b, id) && SameRows(b, c, id)
    ensures SameRows(a, c, id)
  {
  }

  lemma KeptTransitive(a: Db, b: Db, c: Db, id: int)
    requires IsClosed(a, id) && Kept(a, b, id) && IsClosed(b, id) && Kept(b, c, id)
    ensures Kept(a, c, id)
  {
    SameRowsTransitive(a, b, c, id);
    hide SameRows;
  }

  lemma Untouched(db: Db, db1: Db, id: int)
    requires db1.traces == db.traces && db1.allocs == db.allocs && db1.temps == db.temps
    requires db1.skips == db.skips && db1.consumptions == db.consumptions
    ensures SameRows(db, db1, id)
  {
  }

  // ---- Each edit is of another batch ----

  lemma {:induction false} KeepElsewhere<T(!new)>(a: seq<T>, b: seq<T>, w: T -> bool)
    requires |a| == |b| && forall i :: 0 <= i < |a| ==> a[i] == b[i] || (!w(a[i]) && !w(b[i]))
    ensures Keep(a, w) == Keep(b, w)
  {
    if a != [] {
      KeepElsewhere(a[1..], b[1..], w);
    }
  }

  lemma AddedElsewhere<T(!new)>(a: seq<T>, more: seq<T>, w: T -> bool)
    requires forall i :: 0 <= i < |more| ==> !w(more[i])
    ensures Keep(a + more, w) == Keep(a, w)
  {
    KeepConcat(a, more, w);
    KeepNone(more, w);
  }

  lemma OpenIsOther(db: Db, id: int, batch: int, part: int)
    requires IsClosed(db, id) && EditError(db, batch, part).None?
    ensures batch != id
  {
  }

  lemma DropElsewhere(db: Db, batch: int, part: int, id: int)
    requires batch != id
    ensures SameRows(db, DropTrace(db, batch, part), id)
  {
    KeepKept(db.traces, (t: Trace) => !(t.batch == batch && t.part == part), TracesOf(id));
    KeepKept(db.allocs, (a: Alloc) => !(a.batch == batch && a.part == part), AllocsOf(id));
  }

  lemma SkipElsewhere(db: Db, skips: set<(int, int)>, id: int)
    requires forall p :: (id, p) in skips <==> (id, p) in db.skips
    ensures SameRows(db, db.(skips := skips), id)
  {
  }

  lemma UpsertElsewhere(db: Db, batch: int, part: int, qty: int, id: int)
    requires batch != id
    ensures SameRows(db, db.(temps := UpsertTemp(db.temps, batch, part, qty)), id)
  {
    var w, temps := TempsOf(id), UpsertTemp(db.temps, batch, part, qty);
    if HasTemp(db.temps, batch, part) {
      KeepElsewhere(db.temps, temps, w);
    } else {
      AddedElsewhere(db.temps, [TempPart(batch, part, qty)], w);
    }
  }

  lemma RemoveElsewhere(db: Db, batch: int, part: int, id: int)
    requires batch != id
    ensures SameRows(db, db.(temps := Keep(db.temps, (t: TempPart) => !(t.batch == batch && t.part == part))), id)
  {
    KeepKept(db.temps, (t: TempPart) => !(t.batch == batch && t.part == part), TempsOf(id));
  }

  lemma EditElsewhere(db: Db, op: Op, id: int)
    requires op.OpAddSkipPart? || op.OpRemoveSkipPart? || op.OpAddTempPart? || op.OpRemoveTempPart?
    requires IsClosed(db, id) && Attempt(db, op).Ok?
    ensures SameRows(db, Attempt(db, op).value, id)
  {
    hide SameRows, DropTrace, UpsertTemp, Keep, Committed, OldTemp, IsClosed;
    OpenIsOther(db, id, op.batch, op.part);
    match op
    case OpAddSkipPart(batch, part) =>
      var db0 := db.(skips := db.skips + {(batch, part)});
      SkipElsewhere(db, db0.skips, id);
      DropElsewhere(db0, batch, part, id);
      SameRowsTransitive(db, db0, DropTrace(db0, batch, part), id);
    case OpRemoveSkipPart(batch, part) => SkipElsewhere(db, db.skips - {(batch, part)}, id);
    case OpAddTempPart(batch, part, qty) => UpsertElsewhere(db, batch, part, qty, id);
    case OpRemoveTempPart(batch, part) =>
      var db0 := db.(temps := Keep(db.temps, (t: TempPart) => !(t.batch == batch && t.part == part)));
      RemoveElsewhere(db, batch, part, id);
      DropElsewhere(db0, batch, part, id);
      SameRowsTransitive(db, db0, DropTrace(db0, batch, part), id);
  }

  lemma ReplaceElsewhere(db: Db, t: TraceInput, id: int)
    requires t.batch != id
    ensures SameRows(db, ReplaceTrace(db, t), id)
  {
    var d := DropTrace(db, t.batch, t.part);
    DropElsewhere(db, t.batch, t.part, id);
    hide DropTrace;
    AddedElsewhere(d.traces, [Trace(t.batch, t.part, t.used)], TracesOf(id));
    AddedElsewhere(d.allocs, AllocRows(t.batch, t.part, t.allocs), AllocsOf(id));
  }

  lemma {:induction false} RecordElsewhere(db: Db, inputs: seq<TraceInput>, id: int)
    requires IsClosed(db, id) && RecordAll(db, inputs).Ok?
    ensures SameRows(db, RecordAll(db, inputs).value, id)
    decreases |inputs|
  {
    if inputs == [] {
      Untouched(db, db, id);
    } else {
      var t := inputs[0];
      OpenIsOther(db, id, t.batch, t.part);
      ReplaceElsewhere(db, t, id);
      var db1 := ReplaceTrace(db, t);
      assert IsClosed(db1, id);
      hide SameRows, ReplaceTrace, LotError;
      RecordElsewhere(db1, inputs[1..], id);
      SameRowsTransitive(db, db1, RecordAll(db, inputs).value, id);
    }
  }

  // ---- Completing or revoking another batch ----

  /** What one part's turn writes to the draw rows and the consumptions. */
  lemma TakePartWrites(db: Db, batch: Batch, part: int)
    requires TakePart(db, batch, part).Ok?
    ensures var db1, need := TakePart(db, batch, part).value, Demand(db, batch, part);
      && db1.consumptions == db.consumptions + [Consumption(batch.id, part, need)]
      && db1.draws == db.draws + if need <= 0 then [] else
           DrawRows(batch.id, Greedy(Offers(FifoList(db.lots, part), PlanFor(db.allocs, batch.id, part)), need))
  {
    hide Demand, Greedy, Offers, FifoList, Sum, PlanFor, ApplyTakes, DrawRows;
  }

  lemma TakePartElsewhere(db: Db, batch: Batch, part: int, id: int)
    requires batch.id != id && TakePart(db, batch, part).Ok?
    ensures SameRows(db, TakePart(db, batch, part).value, id) && SameDraws(db, TakePart(db, batch, part).value, id)
  {
    TakePartWrites(db, batch, part);
    TakePartFrame(db, batch, part);
    hide Demand, Greedy, Offers, FifoList, PlanFor, TakePart, DrawRows, Keep;
    var db1, need := TakePart(db, batch, part).value, Demand(db, batch, part);
    var rows := if need <= 0 then [] else
      DrawRows(batch.id, Greedy(Offers(FifoList(db.lots, part), PlanFor(db.allocs, batch.id, part)), need));
    AddedElsewhere(db.draws, rows, DrawsOf(id));
    AddedElsewhere(db.consumptions, [Consumption(batch.id, part, need)], ConsumedOf(id));
  }

  lemma {:induction false} TakePartsElsewhere(db: Db, batch: Batch, order: seq<int>, id: int)
    requires batch.id != id && TakeParts(db, batch, order).Ok?
    ensures SameRows(db, TakeParts(db, batch, order).value, id) && SameDraws(db, TakeParts(db, batch, order).value, id)
    decreases |order|
  {
    if order == [] {
      Untouched(db, db, id);
    } else {
      hide Demand, TakePart, SameRows;
      if Demand(db, batch, order[0]) <= 0 {
        TakePartsElsewhere(db, batch, order[1..], id);
      } else {
        var db1 := TakePart(db, batch, order[0]).value;
        TakePartElsewhere(db, batch, order[0], id);
        TakePartsElsewhere(db1, batch, order[1..], id);
        SameRowsTransitive(db, db1, TakeParts(db, batch, order).value, id);
      }
    }
  }

  lemma {:induction false} RestoreElsewhere(db: Db, batch: int, rows: seq<Consumption>, now: int, id: int)
    requires batch != id
    ensures SameDraws(db, RestoreRows(db, batch, rows, now), id)
    decreases |rows|
  {
    if rows != [] {
      hide Sum, RestoredLots;
      KeepKept(db.draws, (d: DrawRow) => d.batch != batch, DrawsOf(id));
      RestoreElsewhere(RestoreRow(db, batch, rows[0], now), batch, rows[1..], now, id);
    }
  }

  lemma {:induction false} FoundAfterSet(batches: seq<Batch>, x: int, row: Batch, id: int)
    requires row.id == x
    ensures FindBatch(SetBatch(batches, x, row), id) ==
      if x == id && FindBatch(batches, id).Some? then Some(row) else FindBatch(batches, id)
  {
    if batches != [] {
      FoundAfterSet(batches[1..], x, row, id);
      assert SetBatch(batches, x, row)[1..] == SetBatch(batches[1..], x, row);
    }
  }

  lemma {:induction false} FoundAfterAdd(batches: seq<Batch>, row: Batch, id: int)
    requires FindBatch(batches, id).Some?
    ensures FindBatch(batches + [row], id) == FindBatch(batches, id)
  {
    assert (batches + [row])[1..] == batches[1..] + [row];
    if batches[0].id != id {
      FoundAfterAdd(batches[1..], row, id);
    }
  }

  lemma StatusElsewhere(db: Db, x: int, status: int, id: int)
    requires IsClosed(db, id) && ChangeStatus(db, x, status).Ok?
    ensures SameRows(db, ChangeStatus(db, x, status).value, id) && SameDraws(db, ChangeStatus(db, x, status).value, id)
    ensures SameBatch(db, ChangeStatus(db, x, status).value, id)
  {
    hide TakeParts, CompletionError, CompletionOrder, SetBatch, SameRows, SameDraws;
    var batch, db1 := FindBatch(db.batches, x).value, ChangeStatus(db, x, status).value;
    assert batch.id == x != id;
    if status == COMPLETED {
      var db0 := TakeParts(db, batch, CompletionOrder(db, batch)).value;
      TakePartsTemps(db, batch, CompletionOrder(db, batch));
      TakePartsElsewhere(db, batch, CompletionOrder(db, batch), id);
      FoundAfterSet(db0.batches, batch.id, batch.(produced := batch.plan, recorded := true, status := COMPLETED), id);
      BatchWrite(db, db0, db1, id);
    } else {
      FoundAfterSet(db.batches, x, batch.(status := status), id);
      Untouched(db, db, id);
      BatchWrite(db, db, db1, id);
    }
  }

  lemma BatchWrite(db: Db, db0: Db, db1: Db, id: int)
    requires db1 == db0.(batches := db1.batches) && SameRows(db, db0, id) && (db0 == db || SameDraws(db, db0, id))
    ensures SameRows(db, db1, id) && SameDraws(db, db1, id)
  {
  }

  lemma RevokeOther(db: Db, x: int, now: int, id: int)
    requires IsClosed(db, id) && Revoke(db, x, now).Ok?
    ensures Kept(db, Revoke(db, x, now).value, id)
  {
    var batch, db1 := FindBatch(db.batches, x).value, Revoke(db, x, now).value;
    RevokeFrame(db, x, now);
    Untouched(db, db1, id);
    hide SameRows, RestoreRows, SetBatch;
    var rows := ConsumptionRows(db.consumptions, x);
    RestoreRowsTemps(db, x, rows, now);
    FoundAfterSet(db.batches, x, batch.(status := REVOKED), id);
    if x != id {
      RestoreElsewhere(db, x, rows, now, id);
    }
  }

  // ---- Every transaction, every run ----

  lemma StepKeepsClosed(db: Db, op: Op, id: int)
    requires IsClosed(db, id)
    ensures Kept(db, Step(db, op), id)
  {
    hide SameRows, ChangeStatus, Revoke, AdjustStock, AdjustInbounds, RecordAll, Committed, OldTemp, UpsertTemp, DropTrace, Keep;
    var db1 := Step(db, op);
    if Attempt(db, op).Ok? {
      match op
      case OpRevoke(x, now) => RevokeOther(db, x, now, id);
      case OpChangeStatus(x, status) => StatusElsewhere(db, x, status, id);
      case OpRecordTraces(inputs) => RecordElsewhere(db, inputs, id); RecordAllCore(db, inputs);
      case OpAddSkipPart(_, _) => EditElsewhere(db, op, id); EditLeaves(db, op);
      case OpRemoveSkipPart(_, _) => EditElsewhere(db, op, id); EditLeaves(db, op);
      case OpAddTempPart(_, _, _) => EditElsewhere(db, op, id); EditLeaves(db, op);
      case OpRemoveTempPart(_, _) => EditElsewhere(db, op, id); EditLeaves(db, op);
      case OpCreateBatch(x, product, plan) => FoundAfterAdd(db.batches, Batch(x, product, plan, 0, PENDING, false), id); Untouched(db, db1, id);
      case OpAdjustStock(part, qty, now) => AdjustFrame(db, part, qty, now); Untouched(db, db1, id);
      case OpAdjustInbounds(part, counts) => CountFrame(db, part, counts); Untouched(db, db1, id);
      case _ => Untouched(db, db1, id);
    } else {
      Untouched(db, db, id);
    }
  }

  lemma EditLeaves(db: Db, op: Op)
    requires op.OpAddSkipPart? || op.OpRemoveSkipPart? || op.OpAddTempPart? || op.OpRemoveTempPart?
    requires Attempt(db, op).Ok?
    ensures Attempt(db, op).value.batches == db.batches && Attempt(db, op).value.draws == db.draws
  {
    hide Committed, OldTemp, UpsertTemp, Keep;
  }

  /** In every run a completed batch keeps its records, its plan, its skipped and temporary parts and its frozen
      consumption, and its draws until it is revoked; nothing opens it again, and a revoked batch stays as it is. */
  lemma {:induction false} RunKeepsClosed(db: Db, ops: seq<Op>, id: int)
    requires IsClosed(db, id)
    ensures Kept(db, Run(db, ops), id)
    decreases |ops|
  {
    if ops == [] {
      Untouched(db, db, id);
    } else {
      hide Step, SameRows, IsClosed;
      var db1 := Step(db, ops[0]);
      StepKeepsClosed(db, ops[0], id);
      KeptClosed(db, db1, id);
      RunKeepsClosed(db1, ops[1..], id);
      KeptTransitive(db, db1, Run(db, ops), id);
    }
  }
}
