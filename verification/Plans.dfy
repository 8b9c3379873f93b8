/** From recording to completion: the lots a completion draws are drawn along the plan that was recorded, and a new
    lot takes its place at the end of the queue. */
module Plans {
  import opened Sums
  import opened Bom
  import opened Tables
  import opened Draw
  import opened Transactions
  import opened Effects
  import opened Invariant
  import opened Runs
  import opened TraceRecords
  import opened Refusals

  // ---- What was recorded is what is planned ----

  function IsOf(batch: int, part: int): Alloc -> bool { (a: Alloc) => a.batch == batch && a.part == part }

  lemma {:induction false} KeepAlike<T(!new)>(s: seq<T>, p: T -> bool, q: T -> bool)
    requires forall x :: p(x) == q(x)
    ensures Keep(s, p) == Keep(s, q)
  {
    if s != [] {
      KeepAlike(s[1..], p, q);
    }
  }

  /** The plan depends on the rows of its own record only. */
  lemma SameRowsSamePlan(a: seq<Alloc>, b: seq<Alloc>, batch: int, part: int)
    requires Keep(a, IsOf(batch, part)) == Keep(b, IsOf(batch, part))
    ensures PlanFor(a, batch, part) == PlanFor(b, batch, part)
  {
    var w := (x: Alloc) => x.batch == batch && x.part == part;
    KeepAlike(a, IsOf(batch, part), w);
    KeepAlike(b, IsOf(batch, part), w);
  }

  /** The rows written for a record read back as its steps, in the order they were given. */
  lemma RowsReadBack(batch: int, part: int, steps: seq<PlanStep>)
    ensures PlanFor(AllocRows(batch, part, steps), batch, part) == steps
  {
    var rows := AllocRows(batch, part, steps);
    var w := (x: Alloc) => x.batch == batch && x.part == part;
    assert Keep(rows, w) == rows by { KeepAll(rows, w); }
    OrderByInOrder(rows, (a: Alloc) => a.position);
  }

  lemma DroppedRows(allocs: seq<Alloc>, batch: int, part: int, b: int, p: int)
    ensures var w := (a: Alloc) => !(a.batch == batch && a.part == part);
      Keep(Keep(allocs, w), IsOf(b, p)) == if b == batch && p == part then [] else Keep(allocs, IsOf(b, p))
  {
    var w := (a: Alloc) => !(a.batch == batch && a.part == part);
    if b == batch && p == part {
      var kept := Keep(allocs, w);
      forall i | 0 <= i < |kept| ensures !IsOf(b, p)(kept[i]) { assert kept[i] in kept; }
      KeepNone(kept, IsOf(b, p));
    } else {
      KeepKept(allocs, w, IsOf(b, p));
    }
  }

  /** Recording a use makes its steps the plan, in their order, and leaves every other plan alone. */
  lemma RecordedPlan(db: Db, t: TraceInput, b: int, p: int)
    ensures PlanFor(ReplaceTrace(db, t).allocs, b, p)
         == if b == t.batch && p == t.part then t.allocs else PlanFor(db.allocs, b, p)
  {
    var rows := AllocRows(t.batch, t.part, t.allocs);
    var kept := DropTrace(db, t.batch, t.part).allocs;
    DroppedRows(db.allocs, t.batch, t.part, b, p);
    KeepConcat(kept, rows, IsOf(b, p));
    if b == t.batch && p == t.part {
      assert [] + Keep(rows, IsOf(b, p)) == Keep(rows, IsOf(b, p));
      SameRowsSamePlan(kept + rows, rows, b, p);
      RowsReadBack(t.batch, t.part, t.allocs);
    } else {
      KeepNone(rows, IsOf(b, p));
      assert Keep(kept, IsOf(b, p)) + [] == Keep(kept, IsOf(b, p));
      SameRowsSamePlan(kept + rows, db.allocs, b, p);
    }
  }

  /** Dropping a record empties its plan and no other. */
  lemma DroppedPlan(db: Db, batch: int, part: int, b: int, p: int)
    ensures PlanFor(DropTrace(db, batch, part).allocs, b, p)
         == if b == batch && p == part then [] else PlanFor(db.allocs, b, p)
  {
    DroppedRows(db.allocs, batch, part, b, p);
    if b == batch && p == part {
      assert Keep(DropTrace(db, batch, part).allocs, (x: Alloc) => x.batch == b && x.part == p) == [] by {
        KeepAlike(DropTrace(db, batch, part).allocs, IsOf(b, p), (x: Alloc) => x.batch == b && x.part == p);
      }
    } else {
      SameRowsSamePlan(DropTrace(db, batch, part).allocs, db.allocs, b, p);
    }
  }

  // ---- A whole recording, and whole runs ----

  predicate Records(inputs: seq<TraceInput>, batch: int, part: int) {
    exists i :: 0 <= i < |inputs| && inputs[i].batch == batch && inputs[i].part == part
  }

  ghost predicate OneEach(inputs: seq<TraceInput>) {
    forall i, j :: 0 <= i < j < |inputs| ==> inputs[i].batch != inputs[j].batch || inputs[i].part != inputs[j].part
  }

  lemma RecordsTail(inputs: seq<TraceInput>, batch: int, part: int)
    requires inputs != []
    ensures Records(inputs, batch, part) <==> (inputs[0].batch == batch && inputs[0].part == part) || Records(inputs[1..], batch, part)
  {
    if Records(inputs[1..], batch, part) {
      var i :| 0 <= i < |inputs[1..]| && inputs[1..][i].batch == batch && inputs[1..][i].part == part;
      assert inputs[i + 1] == inputs[1..][i];
    }
    if Records(inputs, batch, part) {
      var i :| 0 <= i < |inputs| && inputs[i].batch == batch && inputs[i].part == part;
      assert i > 0 ==> inputs[1..][i - 1] == inputs[i];
    }
  }

  lemma {:induction false} RecordAllPlans(db: Db, inputs: seq<TraceInput>, b: int, p: int)
    requires OneEach(inputs) && RecordAll(db, inputs).Ok?
    ensures !Records(inputs, b, p) ==> PlanFor(RecordAll(db, inputs).value.allocs, b, p) == PlanFor(db.allocs, b, p)
    ensures forall i :: 0 <= i < |inputs| && inputs[i].batch == b && inputs[i].part == p ==>
      PlanFor(RecordAll(db, inputs).value.allocs, b, p) == inputs[i].allocs
    decreases |inputs|
  {
    if inputs != [] {
      hide PlanFor, ReplaceTrace, RecordError, Records;
      var t, rest := inputs[0], inputs[1..];
      assert forall i :: 0 <= i < |rest| ==> rest[i] == inputs[i + 1];
      RecordedPlan(db, t, b, p);
      RecordsTail(inputs, b, p);
      RecordAllPlans(ReplaceTrace(db, t), rest, b, p);
      if t.batch == b && t.part == p {
        assert !Records(rest, b, p) by { OnlyFirst(inputs); }
      }
      forall i | 0 <= i < |inputs| && inputs[i].batch == b && inputs[i].part == p
        ensures PlanFor(RecordAll(db, inputs).value.allocs, b, p) == inputs[i].allocs
      {
        if i > 0 {
          assert rest[i - 1] == inputs[i];
        }
      }
    }
  }

  lemma OnlyFirst(inputs: seq<TraceInput>)
    requires OneEach(inputs) && inputs != []
    ensures !Records(inputs[1..], inputs[0].batch, inputs[0].part)
  {
  }

  /** An accepted recording: each record's plan is what was given for it, and no other plan moves. */
  lemma RecordTracesPlans(db: Db, inputs: seq<TraceInput>, b: int, p: int)
    requires RecordTraces(db, inputs).Ok?
    ensures var db1 := RecordTraces(db, inputs).value;
      && (forall i :: 0 <= i < |inputs| && inputs[i].batch == b && inputs[i].part == p ==> PlanFor(db1.allocs, b, p) == inputs[i].allocs)
      && (!Records(inputs, b, p) ==> PlanFor(db1.allocs, b, p) == PlanFor(db.allocs, b, p))
  {
    TraceErrorNone(inputs, {});
    hide PlanFor, RecordAll, TraceError, InputOk;
    RecordAllPlans(db, inputs, b, p);
  }

  /** The transactions that write or forget the record of (batch, part). */
  predicate Replans(op: Op, batch: int, part: int) {
    match op
    case OpRecordTraces(inputs) => Records(inputs, batch, part)
    case OpAddSkipPart(b, p) => b == batch && p == part
    case OpRemoveTempPart(b, p) => b == batch && p == part
    case _ => false
  }

  lemma StepKeepsPlan(db: Db, op: Op, batch: int, part: int)
    requires !Replans(op, batch, part)
    ensures PlanFor(Step(db, op).allocs, batch, part) == PlanFor(db.allocs, batch, part)
  {
    if !op.OpRecordTraces? && !op.OpAddSkipPart? && !op.OpRemoveTempPart? {
      StepLeavesTraces(db, op);
    } else if Attempt(db, op).Ok? {
      hide PlanFor, Records, RecordTraces, EditError, DropTrace;
      match op
      case OpRecordTraces(inputs) => RecordTracesPlans(db, inputs, batch, part);
      case OpAddSkipPart(b, p) => DroppedPlan(db.(skips := db.skips + {(b, p)}), b, p, batch, part);
      case OpRemoveTempPart(b, p) =>
        DroppedPlan(db.(temps := Keep(db.temps, (t: TempPart) => !(t.batch == b && t.part == p))), b, p, batch, part);
    }
  }

  lemma {:induction false} RunKeepsPlan(db: Db, ops: seq<Op>, batch: int, part: int)
    requires forall i :: 0 <= i < |ops| ==> !Replans(ops[i], batch, part)
    ensures PlanFor(Run(db, ops).allocs, batch, part) == PlanFor(db.allocs, batch, part)
    decreases |ops|
  {
    if ops != [] {
      hide PlanFor, Step, Replans;
      StepKeepsPlan(db, ops[0], batch, part);
      RunKeepsPlan(Step(db, ops[0]), ops[1..], batch, part);
    }
  }

  // ---- A completion draws along its plan ----

  predicate OfPart(lots: seq<Lot>, lot: int, part: int) { exists i :: 0 <= i < |lots| && lots[i].id == lot && lots[i].part == part }

  function IsDraw(lots: seq<Lot>, batch: int, part: int): DrawRow -> bool {
    (d: DrawRow) => d.batch == batch && OfPart(lots, d.lot, part)
  }

  /** What a batch drew from a part's lots, in the order it drew. */
  function PartDraws(db: Db, batch: int, part: int): seq<DrawRow> { Keep(db.draws, IsDraw(db.lots, batch, part)) }

  /** The draw along a plan: the plan's lots in its order, each at most its planned quantity, then the rest oldest
      first (module Draw). */
  function PlannedDraw(db: Db, batch: Batch, part: int, plan: seq<PlanStep>): seq<DrawRow> {
    DrawRows(batch.id, Greedy(Offers(FifoList(db.lots, part), plan), Demand(db, batch, part)))
  }

  lemma SameOfPart(a: seq<Lot>, b: seq<Lot>, lot: int, part: int)
    requires SameLots(a, b)
    ensures OfPart(a, lot, part) == OfPart(b, lot, part)
  {
  }

  lemma DrawnOfPartOnly(db: Db, batch: Batch, part: int, plan: seq<PlanStep>, p: int)
    requires LotsOk(db)
    ensures Keep(PlannedDraw(db, batch, part, plan), IsDraw(db.lots, batch.id, p))
         == if p == part then PlannedDraw(db, batch, part, plan) else []
  {
    var qty, f := Demand(db, batch, part), IsDraw(db.lots, batch.id, p);
    hide Demand;
    var rows := PlannedDraw(db, batch, part, plan);
    forall i | 0 <= i < |rows| ensures OfPart(db.lots, rows[i].lot, part) && (p != part ==> !OfPart(db.lots, rows[i].lot, p)) {
      TakenFromPart(db, part, plan, qty, i);
    }
    hide PlannedDraw, OfPart;
    if p == part {
      forall x | x in rows ensures f(x) {
        var i :| 0 <= i < |rows| && rows[i] == x;
        assert rows[i].batch == batch.id by { RowsOfBatch(db, batch, part, plan, i); }
      }
      KeepAll(rows, f);
    } else {
      KeepNone(rows, f);
    }
  }

  lemma RowsOfBatch(db: Db, batch: Batch, part: int, plan: seq<PlanStep>, i: nat)
    requires i < |PlannedDraw(db, batch, part, plan)|
    ensures PlannedDraw(db, batch, part, plan)[i].batch == batch.id
  {
  }

  lemma TakenFromPart(db: Db, part: int, plan: seq<PlanStep>, qty: int, i: nat)
    requires LotsOk(db) && i < |Greedy(Offers(FifoList(db.lots, part), plan), qty)|
    ensures var lot := Greedy(Offers(FifoList(db.lots, part), plan), qty)[i].lot;
      OfPart(db.lots, lot, part) && forall q :: q != part ==> !OfPart(db.lots, lot, q)
  {
    var takes := Greedy(Offers(FifoList(db.lots, part), plan), qty);
    TakesInPart(db.lots, part, plan, qty, takes[i]);
    var l :| l in db.lots && l.id == takes[i].lot && l.part == part;
    var k :| 0 <= k < |db.lots| && db.lots[k] == l;
  }

  lemma TakesInPart(lots: seq<Lot>, part: int, plan: seq<PlanStep>, qty: int, t: Take)
    requires DistinctLots(lots) && t in Greedy(Offers(FifoList(lots, part), plan), qty)
    ensures exists l :: l in lots && l.id == t.lot && l.part == part
  {
    var list := FifoList(lots, part);
    var os := Offers(list, plan);
    FifoFacts(lots, part);
    OffersFacts(list, plan);
    GreedyFrom(os, qty);
    var i :| 0 <= i < |os| && os[i].lot == t.lot && t.qty <= os[i].amount;
    assert InList(list, os[i].lot);
    var l :| l in list && l.id == os[i].lot;
    assert l in lots && l.part == part;
  }

  /** One part's turn adds its planned draw to that part's draws and nothing to another's. */
  lemma TakePartDraws(db: Db, batch: Batch, part: int, p: int)
    requires LotsOk(db) && part in db.parts && 0 < Demand(db, batch, part) <= db.parts[part].stock
    requires TakePart(db, batch, part).Ok?
    ensures PartDraws(TakePart(db, batch, part).value, batch.id, p)
         == PartDraws(db, batch.id, p) + if p == part then PlannedDraw(db, batch, part, PlanFor(db.allocs, batch.id, part)) else []
  {
    var db1, plan := TakePart(db, batch, part).value, PlanFor(db.allocs, batch.id, part);
    TakePartShape(db, batch, part);
    TakePartFrame(db, batch, part);
    var rows := PlannedDraw(db, batch, part, plan);
    assert db1.draws == db.draws + rows && |db1.lots| == |db.lots|;
    DrawnOfPartOnly(db, batch, part, plan, p);
    hide TakePart, PlannedDraw, Demand, PlanFor, LotsOk, OfPart;
    forall d ensures IsDraw(db1.lots, batch.id, p)(d) == IsDraw(db.lots, batch.id, p)(d) {
      SameOfPart(db.lots, db1.lots, d.lot, p);
    }
    KeepAlike(db1.draws, IsDraw(db1.lots, batch.id, p), IsDraw(db.lots, batch.id, p));
    KeepConcat(db.draws, rows, IsDraw(db.lots, batch.id, p));
  }

  /** What one part's turn leaves for another's: its lots, its plan and its need. */
  lemma OtherTurn(db: Db, batch: Batch, part: int, p: int)
    requires LotsOk(db) && part in db.parts && 0 < Demand(db, batch, part) <= db.parts[part].stock
    requires TakePart(db, batch, part).Ok? && p != part
    ensures var db1 := TakePart(db, batch, part).value;
      && FifoList(db1.lots, p) == FifoList(db.lots, p)
      && PlanFor(db1.allocs, batch.id, p) == PlanFor(db.allocs, batch.id, p)
      && Demand(db1, batch, p) == Demand(db, batch, p)
  {
    var db1 := TakePart(db, batch, part).value;
    OtherLotsStay(db, batch, part);
    TakePartFrame(db, batch, part);
    SameDemand(db, db1, batch, p);
    hide TakePart, Demand, LotsOk;
    KeepPointwise(db.lots, db1.lots, (l: Lot) => l.part == p);
  }

  lemma {:induction false} KeepPointwise(a: seq<Lot>, b: seq<Lot>, w: Lot -> bool)
    requires |a| == |b| && forall i :: 0 <= i < |a| ==> w(a[i]) == w(b[i]) && (w(a[i]) ==> a[i] == b[i])
    ensures Keep(a, w) == Keep(b, w)
  {
    if a != [] {
      KeepPointwise(a[1..], b[1..], w);
    }
  }

  lemma {:induction false} TakePartsDraws(db: Db, batch: Batch, order: seq<int>, p: int)
    requires LotsOk(db) && Distinct(order) && NeedsFit(db, batch, order) && TakeParts(db, batch, order).Ok?
    ensures PartDraws(TakeParts(db, batch, order).value, batch.id, p) == PartDraws(db, batch.id, p)
      + if p in order && 0 < Demand(db, batch, p) then PlannedDraw(db, batch, p, PlanFor(db.allocs, batch.id, p)) else []
    decreases |order|
  {
    if order == [] {
      assert PartDraws(db, batch.id, p) + [] == PartDraws(db, batch.id, p);
    } else {
      var q, rest := order[0], order[1..];
      NeedsStillFit(db, batch, order);
      assert order == [q] + rest && (q in rest ==> false) by { FirstOnce(order); }
      TakePartsFirst(db, batch, order);
      hide Demand, TakePart, TakeParts, LotsOk, NeedsFit, Distinct, PartDraws, PlanFor, Gives, Falters;
      if Demand(db, batch, q) <= 0 {
        TakePartsDraws(db, batch, rest, p);
      } else {
        var db1 := TakePart(db, batch, q).value;
        TakePartDraws(db, batch, q, p);
        TakePartsDraws(db1, batch, rest, p);
        if p != q {
          OtherTurn(db, batch, q, p);
          assert PlannedDraw(db1, batch, p, PlanFor(db1.allocs, batch.id, p)) == PlannedDraw(db, batch, p, PlanFor(db.allocs, batch.id, p));
        }
        hide PlannedDraw;
        assert PartDraws(db, batch.id, p) + [] == PartDraws(db, batch.id, p);
      }
    }
  }

  lemma FirstOnce(order: seq<int>)
    requires Distinct(order) && order != []
    ensures order == [order[0]] + order[1..] && order[0] !in order[1..]
  {
  }

  lemma NothingDrawnYet(db: Db, batch: Batch, part: int)
    requires Inv(db) && FindBatch(db.batches, batch.id) == Some(batch) && IsOpen(batch.status)
    ensures PartDraws(db, batch.id, part) == []
  {
    hide Sum, FindBatch, LotsOk, FrozenOk, ConsumptionsOk, Balanced, OfPart;
    FoundStatus(db.batches, batch);
    forall i | 0 <= i < |db.draws| ensures !IsDraw(db.lots, batch.id, part)(db.draws[i]) { assert db.draws[i] in db.draws; }
    KeepNone(db.draws, IsDraw(db.lots, batch.id, part));
  }

  lemma OrderFits(db: Db, batch: Batch)
    requires Inv(db) && TempsOk(db) && CompletionError(db, batch).None?
    ensures NeedsFit(db, batch, CompletionOrder(db, batch))
  {
    var order := CompletionOrder(db, batch);
    CompletionOrderFacts(db, batch);
    hide Demand, Inv, CompletionOrder;
    assert Keep(order, ShortOf(db, batch)) == [];
    forall p | p in order ensures p in db.parts && Demand(db, batch, p) <= db.parts[p].stock {
      assert p !in Keep(order, ShortOf(db, batch));
    }
  }

  /** A completion's draws of each part are the draw along the plan recorded for it. */
  lemma CompletionFollowsPlan(db: Db, batch: Batch, part: int)
    requires Inv(db) && TempsOk(db) && FindBatch(db.batches, batch.id) == Some(batch) && IsOpen(batch.status)
    requires Complete(db, batch).Ok? && part in db.parts
    ensures PartDraws(Complete(db, batch).value, batch.id, part) ==
      if 0 < Demand(db, batch, part) then PlannedDraw(db, batch, part, PlanFor(db.allocs, batch.id, part)) else []
  {
    var order := CompletionOrder(db, batch);
    OrderFits(db, batch);
    NothingDrawnYet(db, batch, part);
    CompletionOrderFacts(db, batch);
    hide Demand, TakeParts, PlanFor, CompletionError, CompletionOrder, NeedsFit, PlannedDraw, OfPart;
    TakePartsDraws(db, batch, order, part);
    var rows := if 0 < Demand(db, batch, part) then PlannedDraw(db, batch, part, PlanFor(db.allocs, batch.id, part)) else [];
    assert [] + rows == rows;
  }

  /** From the recording to the completion: whatever happens in between, as long as the record itself is left alone,
      the part is drawn along the steps that were recorded, in their order. */
  lemma RecordedIsDrawn(db0: Db, inputs: seq<TraceInput>, i: nat, ops: seq<Op>, batch: Batch)
    requires RecordTraces(db0, inputs).Ok? && i < |inputs| && batch.id == inputs[i].batch
    requires forall k :: 0 <= k < |ops| ==> !Replans(ops[k], inputs[i].batch, inputs[i].part)
    requires var db := Run(RecordTraces(db0, inputs).value, ops);
      && Inv(db) && TempsOk(db) && FindBatch(db.batches, batch.id) == Some(batch) && IsOpen(batch.status)
      && Complete(db, batch).Ok? && inputs[i].part in db.parts && 0 < Demand(db, batch, inputs[i].part)
    ensures var db := Run(RecordTraces(db0, inputs).value, ops);
      PartDraws(Complete(db, batch).value, batch.id, inputs[i].part) == PlannedDraw(db, batch, inputs[i].part, inputs[i].allocs)
  {
    hide *;
    RecordTracesPlans(db0, inputs, inputs[i].batch, inputs[i].part);
    RunKeepsPlan(RecordTraces(db0, inputs).value, ops, inputs[i].batch, inputs[i].part);
    CompletionFollowsPlan(Run(RecordTraces(db0, inputs).value, ops), batch, inputs[i].part);
  }

  /** Two lots of 10.00; 3.00 of the second and then 5.00 of the first are recorded: 6.00 are drawn in that order. */
  lemma DrawnInRecordedOrder()
    ensures Greedy(Offers([Lot(1, 1, 10_00, 10_00, 0), Lot(2, 1, 10_00, 10_00, 0)], [PlanStep(2, 3_00), PlanStep(1, 5_00)]), 6_00)
         == [Take(2, 3_00), Take(1, 3_00)]
  {
    var list := [Lot(1, 1, 10_00, 10_00, 0), Lot(2, 1, 10_00, 10_00, 0)];
    var plan := [PlanStep(2, 3_00), PlanStep(1, 5_00)];
    assert plan[1..] == [PlanStep(1, 5_00)] && plan[1..][1..] == [];
    assert plan[0].lot == 2 && plan[1].lot == 1 && list[1..] == [list[1]] && list[1..][1..] == [];
    assert FindLot(list, 2) == Some(list[1]) && FindLot(list, 1) == Some(list[0]);
    assert PlannedOffers(list, plan[1..], {2}) == [Offer(1, 5_00)] + PlannedOffers(list, [], {2} + {1});
    assert PlannedOffers(list, plan, {}) == [Offer(2, 3_00)] + PlannedOffers(list, plan[1..], {} + {2});
    assert UnplannedOffers(list, plan) == [];
    var os := [Offer(2, 3_00), Offer(1, 5_00)];
    assert Offers(list, plan) == os && os[1..] == [Offer(1, 5_00)] && os[1..][1..] == [];
    assert Greedy(os[1..], 3_00) == [Take(1, 3_00)];
  }

  // ---- When a completion passes its checks ----

  /** Every check, in the terms of the request: a positive plan, a valid BOM, and of each needed part enough stock and
      a recorded use. */
  lemma CompletionChecksIff(db: Db, batch: Batch)
    requires Inv(db) && TempsOk(db)
    ensures CompletionError(db, batch).None? <==>
      && 0 < batch.plan && (forall item :: item in db.bom && item.product == batch.product ==> ValidBomItem(item))
      && (forall p :: p in db.parts && 0 < Demand(db, batch, p) ==>
            Demand(db, batch, p) <= db.parts[p].stock && HasTrace(db.traces, batch.id, p))
  {
    hide Demand, Inv, HasTrace;
    var order := CompletionOrder(db, batch);
    CompletionOrderFacts(db, batch);
    var short, missing := Keep(order, ShortOf(db, batch)), Keep(order, UnrecordedOf(db, batch));
    assert short == [] <==> forall p :: p in order ==> !IsShort(db, batch, p) by { EmptyIff(order, ShortOf(db, batch)); }
    assert missing == [] <==> forall p :: p in order ==> !IsUnrecorded(db, batch, p) by { EmptyIff(order, UnrecordedOf(db, batch)); }
  }

  lemma EmptyIff(order: seq<int>, w: int -> bool)
    ensures Keep(order, w) == [] <==> forall p :: p in order ==> !w(p)
  {
    if Keep(order, w) != [] {
      assert Keep(order, w)[0] in Keep(order, w);
    } else {
      forall p | p in order ensures !w(p) { assert p !in Keep(order, w); }
    }
    if forall p :: p in order ==> !w(p) {
      KeepNone(order, w);
    }
  }

  // ---- Lots stand in the order of their arrival ----

  /** The lots of one part that a list of receipts adds. */
  function Arrivals(ops: seq<Op>, next: int, part: int): seq<Lot> {
    if ops == [] then [] else Arrival(ops[0], next, part) + Arrivals(ops[1..], next + 1, part)
  }

  function Arrival(op: Op, next: int, part: int): seq<Lot> {
    if op.OpStockIn? && op.part == part then [Lot(next, part, op.qty, op.qty, op.now)] else []
  }

  /** Receipts of known parts, at times that do not go back and not before any lot there is. */
  ghost predicate Receipts(db: Db, ops: seq<Op>) {
    && (forall i :: 0 <= i < |ops| ==> ops[i].OpStockIn? && 0 < ops[i].qty && ops[i].part in db.parts)
    && (forall i, j :: 0 <= i < j < |ops| ==> ops[i].now <= ops[j].now)
    && (forall l :: l in db.lots ==> ops == [] || l.createdAt <= ops[0].now)
  }

  lemma Received(db: Db, op: Op)
    requires op.OpStockIn? && 0 < op.qty && op.part in db.parts
    ensures var db1 := Step(db, op);
      && db1.nextLot == db.nextLot + 1 && db1.parts.Keys == db.parts.Keys
      && db1.lots == db.lots + [Lot(db.nextLot, op.part, op.qty, op.qty, op.now)]
  {
  }

  /** A lot no older than the others goes to the end of its part's queue. */
  lemma LastInQueue(lots: seq<Lot>, l: Lot, p: int)
    requires forall m :: m in lots ==> m.createdAt <= l.createdAt
    ensures FifoList(lots + [l], p) == FifoList(lots, p) + if l.part == p then [l] else []
  {
    var w, kept := (m: Lot) => m.part == p, Keep(lots, (m: Lot) => m.part == p);
    KeepConcat(lots, [l], w);
    hide OrderBy;
    assert Keep([l], w) == if l.part == p then [l] else [];
    if l.part == p {
      forall i | 0 <= i < |kept| ensures kept[i].createdAt <= l.createdAt { assert kept[i] in kept; }
      OrderBySnoc(kept, l, (m: Lot) => m.createdAt);
    } else {
      assert kept + [] == kept && FifoList(lots, p) + [] == FifoList(lots, p);
    }
  }

  lemma ReceiptsRest(db: Db, db1: Db, ops: seq<Op>, l: Lot)
    requires Receipts(db, ops) && ops != [] && db1.parts.Keys == db.parts.Keys
    requires db1.lots == db.lots + [l] && l.createdAt == ops[0].now
    ensures Receipts(db1, ops[1..])
  {
    var rest := ops[1..];
    assert forall i :: 0 <= i < |rest| ==> rest[i] == ops[i + 1];
  }

  lemma ReceiptsFirst(db: Db, ops: seq<Op>)
    requires Receipts(db, ops) && ops != []
    ensures ops[0].OpStockIn? && 0 < ops[0].qty && ops[0].part in db.parts && forall l :: l in db.lots ==> l.createdAt <= ops[0].now
  {
  }

  /** So lots received one after the other are drawn one after the other. */
  lemma {:induction false} ArrivalOrder(db: Db, ops: seq<Op>, p: int)
    requires Receipts(db, ops)
    ensures FifoList(Run(db, ops).lots, p) == FifoList(db.lots, p) + Arrivals(ops, db.nextLot, p)
    decreases |ops|
  {
    hide Step, FifoList, Receipts;
    if ops == [] {
      assert FifoList(db.lots, p) + [] == FifoList(db.lots, p);
    } else {
      var op, rest, db1 := ops[0], ops[1..], Step(db, ops[0]);
      ReceiptsFirst(db, ops);
      var l := Lot(db.nextLot, op.part, op.qty, op.qty, op.now);
      Received(db, op);
      LastInQueue(db.lots, l, p);
      ReceiptsRest(db, db1, ops, l);
      ArrivalOrder(db1, rest, p);
      assert (FifoList(db.lots, p) + Arrival(op, db.nextLot, p)) + Arrivals(rest, db1.nextLot, p)
          == FifoList(db.lots, p) + (Arrival(op, db.nextLot, p) + Arrivals(rest, db1.nextLot, p));
    }
  }
}
