/** The ledger's invariant and its preservation by every transaction, hence by every run. */
module Invariant {
  import opened Sums
  import opened Bom
  import opened Tables
  import opened Draw
  import opened Transactions
  import opened Effects

  // ---- What a revocation leaves behind ----

  /** The batch consumed some part that comes before `part`. */
  predicate AfterFirst(consumptions: seq<Consumption>, batch: int, part: int) {
    exists c :: c in consumptions && c.batch == batch && c.part < part
  }

  /** Revoking restores all the draws of a batch with its first part, so each later part is given back twice:
      once as draws, once as a new lot. */
  function ExcessOf(consumptions: seq<Consumption>, part: int): Batch -> int {
    (b: Batch) =>
      if b.status == REVOKED && AfterFirst(consumptions, b.id, part) then Consumed(consumptions, b.id, part) else 0
  }

  /** By how much a part's lots exceed its stock: what every revoked batch consumed of it beyond its first part. */
  function Excess(db: Db, part: int): int { Sum(db.batches, ExcessOf(db.consumptions, part)) }

  // ---- The invariant ----

  function StatusOf(batches: seq<Batch>, id: int): int {
    match FindBatch(batches, id)
    case None => -1
    case Some(b) => b.status
  }

  ghost predicate BatchesOk(db: Db) {
    && DistinctBatches(db.batches)
    && forall b :: b in db.batches ==> 0 < b.id && 0 < b.plan && 0 <= b.status <= 4
  }

  ghost predicate DrawsOk(db: Db) {
    forall d :: d in db.draws ==> 0 < d.qty && InList(db.lots, d.lot) && StatusOf(db.batches, d.batch) == COMPLETED
  }

  /** A completed batch's draws of each part sum to what was frozen when it completed. */
  ghost predicate FrozenOk(db: Db) {
    forall b :: b in db.batches && b.status == COMPLETED ==> b.recorded && DrawsAreFrozen(db, b.id)
  }

  ghost predicate DrawsAreFrozen(db: Db, batch: int) {
    forall p :: DrawnOfPart(db.lots, db.draws, batch, p) == Consumed(db.consumptions, batch, p)
  }

  /** Each frozen row is positive, of a finished batch, and all that the batch consumed of its part. */
  ghost predicate ConsumptionsOk(db: Db) {
    forall c :: c in db.consumptions ==>
      && 0 < c.qty == Consumed(db.consumptions, c.batch, c.part) && c.part in db.parts
      && (StatusOf(db.batches, c.batch) == COMPLETED || StatusOf(db.batches, c.batch) == REVOKED)
  }

  ghost predicate Balanced(db: Db) {
    forall p :: p in db.parts ==>
      0 <= db.parts[p].stock && LotTotal(db.lots, p) == db.parts[p].stock + Excess(db, p)
  }

  ghost predicate Inv(db: Db) {
    LotsOk(db) && BatchesOk(db) && DrawsOk(db) && FrozenOk(db) && ConsumptionsOk(db) && Balanced(db)
  }

  // ---- Batch rows ----

  lemma {:induction false} StatusAfterSet(batches: seq<Batch>, row: Batch, id: int)
    ensures StatusOf(SetBatch(batches, row.id, row), id)
         == if id == row.id && FindBatch(batches, id).Some? then row.status else StatusOf(batches, id)
  {
    if batches != [] {
      StatusAfterSet(batches[1..], row, id);
      assert SetBatch(batches, row.id, row)[1..] == SetBatch(batches[1..], row.id, row);
    }
  }

  lemma {:induction false} FindOnly(batches: seq<Batch>, b: Batch)
    requires DistinctBatches(batches) && b in batches
    ensures FindBatch(batches, b.id) == Some(b)
  {
    if batches[0] != b {
      assert batches[0].id != b.id by {
        var k :| 0 <= k < |batches| && batches[k] == b;
        assert batches[0].id != batches[k].id;
      }
      FindOnly(batches[1..], b);
    }
  }

  lemma {:induction false} StatusAfterAppend(batches: seq<Batch>, row: Batch, id: int)
    requires FindBatch(batches, row.id).None?
    ensures StatusOf(batches + [row], id) == if id == row.id then row.status else StatusOf(batches, id)
  {
    if batches != [] {
      assert (batches + [row])[1..] == batches[1..] + [row];
      StatusAfterAppend(batches[1..], row, id);
    }
  }

  /** Only the row found by its id changes. */
  lemma SetBatchRows(batches: seq<Batch>, row: Batch, was: Batch)
    requires DistinctBatches(batches) && FindBatch(batches, row.id) == Some(was)
    ensures exists k: nat :: k < |batches| && batches[k] == was && SetBatch(batches, row.id, row) == batches[k := row]
    ensures DistinctBatches(SetBatch(batches, row.id, row))
  {
    var k: nat :| k < |batches| && batches[k] == was;
    assert SetBatch(batches, row.id, row) == batches[k := row];
  }

  /** Changing one batch row moves a sum over the batches by that row's change. */
  lemma SumSetBatch(batches: seq<Batch>, row: Batch, was: Batch, f: Batch -> int)
    requires DistinctBatches(batches) && FindBatch(batches, row.id) == Some(was)
    ensures Sum(SetBatch(batches, row.id, row), f) == Sum(batches, f) - f(was) + f(row)
  {
    SetBatchRows(batches, row, was);
    var k: nat :| k < |batches| && batches[k] == was && SetBatch(batches, row.id, row) == batches[k := row];
    SumChange(batches, batches[k := row], k, f, f);
  }

  lemma SetBatchOk(db: Db, row: Batch, was: Batch)
    requires BatchesOk(db) && FindBatch(db.batches, row.id) == Some(was)
    requires 0 < row.plan && 0 <= row.status <= 4
    ensures BatchesOk(db.(batches := SetBatch(db.batches, row.id, row)))
  {
    SetBatchRows(db.batches, row, was);
  }

  // ---- Frozen consumptions ----

  /** A batch with no consumption rows consumed nothing. */
  lemma NoRowsNothing(db: Db, batch: int, part: int)
    requires ConsumptionsOk(db)
    requires StatusOf(db.batches, batch) != COMPLETED && StatusOf(db.batches, batch) != REVOKED
    ensures Consumed(db.consumptions, batch, part) == 0
  {
    forall i | 0 <= i < |db.consumptions| ensures ConsumedBy(batch, part)(db.consumptions[i]) == 0 {
      assert db.consumptions[i] in db.consumptions;
    }
    SumZero(db.consumptions, ConsumedBy(batch, part));
  }

  lemma NoDrawsNothing(db: Db, batch: int, part: int)
    requires DrawsOk(db) && StatusOf(db.batches, batch) != COMPLETED
    ensures DrawnOfPart(db.lots, db.draws, batch, part) == 0
  {
    forall i | 0 <= i < |db.lots| ensures PartDraw(db.draws, batch, part)(db.lots[i]) == 0 {
      forall k | 0 <= k < |db.draws| ensures DrawnAt(batch, db.lots[i].id)(db.draws[k]) == 0 {
        assert db.draws[k] in db.draws;
      }
      SumZero(db.draws, DrawnAt(batch, db.lots[i].id));
    }
    SumZero(db.lots, PartDraw(db.draws, batch, part));
  }

  lemma ConsumedNonNegative(db: Db, batch: int, part: int)
    requires ConsumptionsOk(db)
    ensures 0 <= Consumed(db.consumptions, batch, part)
  {
    forall i | 0 <= i < |db.consumptions| ensures 0 <= ConsumedBy(batch, part)(db.consumptions[i]) {
      assert db.consumptions[i] in db.consumptions;
    }
    SumNonNegative(db.consumptions, ConsumedBy(batch, part));
  }

  lemma ExcessNonNegative(db: Db, part: int)
    requires ConsumptionsOk(db)
    ensures 0 <= Excess(db, part)
  {
    forall i | 0 <= i < |db.batches| ensures 0 <= ExcessOf(db.consumptions, part)(db.batches[i]) {
      ConsumedNonNegative(db, db.batches[i].id, part);
    }
    SumNonNegative(db.batches, ExcessOf(db.consumptions, part));
  }

  lemma DrawsAreInRange(db: Db)
    requires LotsOk(db) && DrawsOk(db)
    ensures DrawsInRange(db)
  {
    forall d | d in db.draws ensures d.lot < db.nextLot {
      var l :| l in db.lots && l.id == d.lot;
    }
  }

  // ---- Transactions that move stock and lots together ----

  /** Only parts and lots change, and every total moves with its stock. */
  lemma MovedTogether(db: Db, db1: Db)
    requires Inv(db) && LotsOk(db1)
    requires db1 == db.(parts := db1.parts, lots := db1.lots, nextLot := db1.nextLot)
    requires KeepsIds(db.lots, db1.lots) && db1.parts.Keys == db.parts.Keys
    requires forall b, p :: DrawnOfPart(db1.lots, db.draws, b, p) == DrawnOfPart(db.lots, db.draws, b, p)
    requires forall p :: p in db.parts ==> 0 <= db1.parts[p].stock
    requires forall p :: p in db.parts ==>
      LotTotal(db1.lots, p) - LotTotal(db.lots, p) == db1.parts[p].stock - db.parts[p].stock
    ensures Inv(db1)
  {
    assert forall p :: Excess(db1, p) == Excess(db, p);
    forall d | d in db1.draws ensures InList(db1.lots, d.lot) { KeepsIdsInList(db.lots, db1.lots, d.lot); }
    forall b | b in db1.batches && b.status == COMPLETED ensures DrawsAreFrozen(db1, b.id) {
      assert DrawsAreFrozen(db, b.id);
    }
  }

  /** Lowering a part's lots succeeds as long as they hold enough. */
  lemma LotsSuffice(db: Db, part: int, qty: int)
    requires LotsOk(db) && qty <= LotTotal(db.lots, part)
    ensures Deduct(db, part, qty, None, []).Ok?
    ensures Deduct(db, part, qty, None, []).value.parts == db.parts
  {
    FifoFacts(db.lots, part);
    FifoCapacity(db.lots, part);
    if 0 < qty {
      DrawExact(FifoList(db.lots, part), [], qty);
    }
  }

  /** The lots always cover the stock, so a stocktake that lowers the total never lacks lots. */
  lemma StocktakeNeverLacksLots(db: Db, part: int, newQty: int, now: int)
    requires Inv(db)
    ensures AdjustStock(db, part, newQty, now) != Err(LotsShort)
    ensures 0 <= newQty && part in db.parts ==> AdjustStock(db, part, newQty, now).Ok?
  {
    hide Deduct;
    if 0 <= newQty && part in db.parts && newQty < db.parts[part].stock {
      ExcessNonNegative(db, part);
      LotsSuffice(db, part, db.parts[part].stock - newQty);
    }
  }

  /** Draws are counted by lot and part, whatever the lots still hold. */
  lemma DrawnBySameLots(a: seq<Lot>, b: seq<Lot>, draws: seq<DrawRow>)
    requires SameLots(a, b)
    ensures forall batch, p :: DrawnOfPart(b, draws, batch, p) == DrawnOfPart(a, draws, batch, p)
  {
    forall batch, p ensures DrawnOfPart(b, draws, batch, p) == DrawnOfPart(a, draws, batch, p) {
      SumSame(a, b, PartDraw(draws, batch, p), PartDraw(draws, batch, p));
    }
  }

  lemma ReduceTotals(db: Db, part: int, qty: int)
    requires LotsOk(db) && 0 < qty && Deduct(db, part, qty, None, []).Ok?
    ensures var db1 := Deduct(db, part, qty, None, []).value;
      && db1 == db.(lots := db1.lots) && LotsOk(db1) && SameLots(db.lots, db1.lots)
      && (forall p :: LotTotal(db1.lots, p) == LotTotal(db.lots, p) - if p == part then qty else 0)
      && (forall b, p :: DrawnOfPart(db1.lots, db.draws, b, p) == DrawnOfPart(db.lots, db.draws, b, p))
  {
    hide Greedy, Offers, FifoList, Sum, DistinctLots, ApplyTakes, TookLots, SameLots, LotTotal, DrawnOfPart;
    var db1 := Deduct(db, part, qty, None, []).value;
    var need := (p: int) => if p == part then qty else 0;
    DrawnInFull(db.lots, part, [], qty);
    TookOneLots(db, db1, part, [], qty, need);
    LotsTaken(db, db1, need);
    DrawnBySameLots(db.lots, db1.lots, db.draws);
  }

  lemma RaiseKeepsInv(db: Db, db1: Db, part: int, qty: int, now: int)
    requires Inv(db) && part in db.parts && 0 < qty
    requires db1 == SetStock(AddLot(db, part, qty, now), part, db.parts[part].stock + qty)
    ensures Inv(db1)
  {
    forall p ensures LotTotal(db1.lots, p) == LotTotal(db.lots, p) + if p == part then qty else 0 {
      AddLotTotal(db, part, qty, now, p);
    }
    DrawsAreInRange(db);
    forall b, p ensures DrawnOfPart(db1.lots, db.draws, b, p) == DrawnOfPart(db.lots, db.draws, b, p) {
      AddLotDrawn(db, part, qty, now, b, p);
    }
    MovedTogether(db, db1);
  }

  lemma StockInKeepsInv(db: Db, part: int, qty: int, now: int)
    requires Inv(db) && StockIn(db, part, qty, now).Ok?
    ensures Inv(StockIn(db, part, qty, now).value)
  {
    RaiseKeepsInv(db, StockIn(db, part, qty, now).value, part, qty, now);
  }

  lemma OnlyStockSet(db: Db, part: int, stock: int)
    requires LotsOk(db) && part in db.parts
    ensures LotsOk(SetStock(db, part, stock))
  {
  }

  lemma LowerKeepsInv(db: Db, part: int, qty: int)
    requires Inv(db) && part in db.parts && 0 < qty <= db.parts[part].stock && Deduct(db, part, qty, None, []).Ok?
    ensures Inv(SetStock(Deduct(db, part, qty, None, []).value, part, db.parts[part].stock - qty))
  {
    hide Deduct, LotTotal, DrawnOfPart, Excess, LotsOk, BatchesOk, DrawsOk, FrozenOk, ConsumptionsOk;
    ReduceTotals(db, part, qty);
    var db1 := Deduct(db, part, qty, None, []).value;
    OnlyStockSet(db1, part, db.parts[part].stock - qty);
    hide Inv, Balanced;
    MovedTogether(db, SetStock(Deduct(db, part, qty, None, []).value, part, db.parts[part].stock - qty));
  }

  lemma AdjustStockKeepsInv(db: Db, part: int, newQty: int, now: int)
    requires Inv(db) && AdjustStock(db, part, newQty, now).Ok?
    ensures Inv(AdjustStock(db, part, newQty, now).value)
  {
    hide Inv, Deduct, AddLot;
    var diff := newQty - db.parts[part].stock;
    if diff < 0 {
      LowerKeepsInv(db, part, -diff);
    } else if diff > 0 {
      RaiseKeepsInv(db, AdjustStock(db, part, newQty, now).value, part, diff, now);
    } else {
      SameStockKeepsInv(db, part);
    }
  }

  lemma SameStockKeepsInv(db: Db, part: int)
    requires Inv(db) && part in db.parts
    ensures Inv(SetStock(db, part, db.parts[part].stock))
  {
    MovedTogether(db, SetStock(db, part, db.parts[part].stock));
  }

  // ---- Counting lots ----

  lemma CountsValid(counts: seq<Count>, seen: set<int>)
    requires CountError(counts, seen).None?
    ensures forall c :: c in counts ==> 0 <= c.remaining
  {
  }

  lemma SetRemainingTotal(lots: seq<Lot>, l: Lot, remaining: int, p: int)
    requires DistinctLots(lots) && l in lots
    ensures LotTotal(SetRemaining(lots, l.id, remaining), p)
         == LotTotal(lots, p) + if p == l.part then remaining - l.remaining else 0
  {
    var k :| 0 <= k < |lots| && lots[k] == l;
    SumChange(lots, SetRemaining(lots, l.id, remaining), k, LotOf(p), LotOf(p));
  }

  /** What one count leaves of the lots' facts. */
  lemma RecountOne(lots: seq<Lot>, l: Lot, remaining: int)
    requires DistinctLots(lots) && (forall m :: m in lots ==> 0 <= m.remaining) && l in lots && 0 <= remaining
    ensures var after := SetRemaining(lots, l.id, remaining);
      && SameLots(lots, after) && DistinctLots(after) && (forall m :: m in after ==> 0 <= m.remaining)
      && (forall p :: LotTotal(after, p) == LotTotal(lots, p) + if p == l.part then remaining - l.remaining else 0)
  {
    var after := SetRemaining(lots, l.id, remaining);
    forall m | m in after ensures 0 <= m.remaining {
      var i :| 0 <= i < |after| && after[i] == m;
      assert lots[i] in lots;
    }
    forall p ensures LotTotal(after, p) == LotTotal(lots, p) + if p == l.part then remaining - l.remaining else 0 {
      hide LotTotal;
      SetRemainingTotal(lots, l, remaining, p);
    }
  }

  lemma SameLotsTransitive(a: seq<Lot>, b: seq<Lot>, c: seq<Lot>)
    requires SameLots(a, b) && SameLots(b, c)
    ensures SameLots(a, c)
  {
  }

  /** Writing the counts keeps the lots well-formed and moves the part's total by the reported difference. */
  lemma {:induction false} RecountTotals(lots: seq<Lot>, part: int, counts: seq<Count>, delta: int)
    requires DistinctLots(lots) && forall l :: l in lots ==> 0 <= l.remaining
    requires forall c :: c in counts ==> 0 <= c.remaining
    requires Recount(lots, part, counts, delta).Ok?
    ensures var (after, d) := Recount(lots, part, counts, delta).value;
      && SameLots(lots, after) && DistinctLots(after) && (forall l :: l in after ==> 0 <= l.remaining)
      && (forall p :: LotTotal(after, p) == LotTotal(lots, p) + if p == part then d - delta else 0)
    decreases |counts|
  {
    hide LotTotal, DistinctLots;
    if counts != [] {
      hide SameLots;
      var c := counts[0];
      var l := FindLot(lots, c.lot).value;
      var lots1 := SetRemaining(lots, c.lot, c.remaining);
      assert c in counts;
      RecountOne(lots, l, c.remaining);
      RecountTotals(lots1, part, counts[1..], delta + c.remaining - l.remaining);
      SameLotsTransitive(lots, lots1, Recount(lots, part, counts, delta).value.0);
    }
  }

  lemma RecountedOk(db: Db, after: seq<Lot>)
    requires LotsOk(db) && SameLots(db.lots, after) && DistinctLots(after) && forall l :: l in after ==> 0 <= l.remaining
    ensures LotsOk(db.(lots := after))
  {
    forall l | l in after ensures 0 < l.id < db.nextLot && l.part in db.parts {
      var i :| 0 <= i < |after| && after[i] == l;
      assert db.lots[i] in db.lots;
    }
  }

  lemma AdjustInboundsKeepsInv(db: Db, part: int, counts: seq<Count>)
    requires Inv(db) && AdjustInbounds(db, part, counts).Ok?
    ensures Inv(AdjustInbounds(db, part, counts).value)
  {
    var db1 := AdjustInbounds(db, part, counts).value;
    CountsValid(counts, {});
    hide LotTotal, DrawnOfPart, Excess, BatchesOk, DrawsOk, FrozenOk, ConsumptionsOk, Recount, DistinctLots;
    RecountTotals(db.lots, part, counts, 0);
    hide Balanced;
    RecountedOk(db, db1.lots);
    OnlyStockSet(db.(lots := db1.lots), part, db1.parts[part].stock);
    DrawnBySameLots(db.lots, db1.lots, db.draws);
    hide Inv, LotsOk;
    MovedTogether(db, db1);
  }

  lemma LotTotalNonNegative(lots: seq<Lot>, part: int)
    requires forall l :: l in lots ==> 0 <= l.remaining
    ensures 0 <= LotTotal(lots, part)
  {
    forall i | 0 <= i < |lots| ensures 0 <= LotOf(part)(lots[i]) { assert lots[i] in lots; }
    SumNonNegative(lots, LotOf(part));
  }

  /** Counting lots is refused as negative exactly when the counted lots hold less than the excess that
      earlier revocations left; with no excess the refusal cannot happen. */
  lemma CountingRefusedIffBelowExcess(db: Db, part: int, counts: seq<Count>)
    requires Inv(db) && counts != [] && CountError(counts, {}).None? && part in db.parts
    requires Recount(db.lots, part, counts, 0).Ok?
    ensures AdjustInbounds(db, part, counts) == Err(NegativeStock)
       <==> LotTotal(Recount(db.lots, part, counts, 0).value.0, part) < Excess(db, part)
    ensures Excess(db, part) == 0 ==> AdjustInbounds(db, part, counts).Ok?
  {
    CountsValid(counts, {});
    RecountTotals(db.lots, part, counts, 0);
    LotTotalNonNegative(Recount(db.lots, part, counts, 0).value.0, part);
  }

  // ---- Completion ----

  lemma {:induction false} AddDistinctKeeps(order: seq<int>, part: int)
    requires Distinct(order)
    ensures Distinct(AddDistinct(order, part)) && forall q :: q in AddDistinct(order, part) <==> q in order || q == part
  {
  }

  lemma {:induction false} BomOrderFacts(db: Db, batch: Batch, n: nat)
    requires n <= |BomRows(db.bom, batch.product)|
    ensures var r := BomOrder(db, batch, n);
      && Distinct(r)
      && (forall q :: q in r ==> q in db.parts)
      && (forall k :: 0 <= k < n && BomApplies(db, batch, BomRows(db.bom, batch.product)[k])
            ==> BomRows(db.bom, batch.product)[k].part in r)
  {
    if n > 0 {
      BomOrderFacts(db, batch, n - 1);
      AddDistinctKeeps(BomOrder(db, batch, n - 1), BomRows(db.bom, batch.product)[n - 1].part);
    }
  }

  lemma {:induction false} TempOrderFacts(db: Db, batch: Batch, n: nat)
    requires n <= |db.temps|
    ensures var r := TempOrder(db, batch, n);
      && Distinct(r)
      && (forall q :: q in r ==> q in db.parts)
      && (forall k :: 0 <= k < |BomRows(db.bom, batch.product)| && BomApplies(db, batch, BomRows(db.bom, batch.product)[k])
            ==> BomRows(db.bom, batch.product)[k].part in r)
      && (forall k :: 0 <= k < n && TempApplies(db, batch, db.temps[k]) ==> db.temps[k].part in r)
  {
    if n == 0 {
      BomOrderFacts(db, batch, |BomRows(db.bom, batch.product)|);
    } else {
      TempOrderFacts(db, batch, n - 1);
      AddDistinctKeeps(TempOrder(db, batch, n - 1), db.temps[n - 1].part);
    }
  }

  /** Every part the batch demands is in the completion order, each once. */
  lemma CompletionOrderFacts(db: Db, batch: Batch)
    requires forall t :: t in db.temps ==> 0 < t.qty
    ensures var r := CompletionOrder(db, batch);
      && Distinct(r)
      && (forall q :: q in r ==> q in db.parts)
      && (forall p :: p in db.parts && p !in r ==> Demand(db, batch, p) == 0)
  {
    TempOrderFacts(db, batch, |db.temps|);
    var r := CompletionOrder(db, batch);
    var rows := BomRows(db.bom, batch.product);
    InOrderBy(Keep(db.bom, (b: BomItem) => b.product == batch.product), (b: BomItem) => b.part);
    forall p | p in db.parts && p !in r ensures Demand(db, batch, p) == 0 {
      forall i | 0 <= i < |db.bom| ensures NeedOf(db.skips, batch, p)(db.bom[i]) == 0 {
        assert db.bom[i] in db.bom;
        assert db.bom[i] in rows <==> db.bom[i].product == batch.product;
        assert forall k :: 0 <= k < |rows| && rows[k] == db.bom[i] ==> !BomApplies(db, batch, rows[k]) || rows[k].part in r;
      }
      SumZero(db.bom, NeedOf(db.skips, batch, p));
      forall i | 0 <= i < |db.temps| ensures TempOf(batch.id, p)(db.temps[i]) == 0 {
        assert db.temps[i] in db.temps;
      }
      SumZero(db.temps, TempOf(batch.id, p));
    }
  }

  /** What a successful completion has taken, part by part. */
  lemma CompleteTook(db: Db, batch: Batch) returns (db0: Db)
    requires LotsOk(db) && Complete(db, batch).Ok?
    requires forall t :: t in db.temps ==> 0 < t.qty
    requires forall p :: p in db.parts ==> 0 <= db.parts[p].stock
    ensures Took(db, db0, batch.id, NeedIn(db, batch, CompletionOrder(db, batch))) && LotsOk(db0)
    ensures Complete(db, batch).value == db0.(batches :=
      SetBatch(db.batches, batch.id, batch.(produced := batch.plan, recorded := true, status := COMPLETED)))
    ensures forall p :: p in db.parts ==> 0 <= NeedIn(db, batch, CompletionOrder(db, batch))(p) <= db.parts[p].stock
  {
    hide Demand, Took;
    var order := CompletionOrder(db, batch);
    CompletionOrderFacts(db, batch);
    forall p | p in order ensures Demand(db, batch, p) <= db.parts[p].stock {
      assert p !in Keep(order, ShortOf(db, batch));
    }
    db0 := TakeParts(db, batch, order).value;
    TakePartsTook(db, batch, order);
    TookGivesStock(db, db0, batch.id, NeedIn(db, batch, order));
  }

  lemma CompletedExcess(db: Db, db0: Db, batch: Batch, need: int -> int, row: Batch, p: int)
    requires BatchesOk(db) && FindBatch(db.batches, batch.id) == Some(batch) && IsOpen(batch.status)
    requires row.id == batch.id && row.status == COMPLETED
    requires TookConsumptions(db, db0, batch.id, need)
    ensures Excess(db0.(batches := SetBatch(db.batches, batch.id, row)), p) == Excess(db, p)
  {
    var batches := SetBatch(db.batches, batch.id, row);
    SetBatchRows(db.batches, row, batch);
    forall i | 0 <= i < |batches|
      ensures ExcessOf(db.consumptions, p)(db.batches[i]) == ExcessOf(db0.consumptions, p)(batches[i])
    {
      var b := db.batches[i];
      assert b in db.batches;
      if b.id == batch.id {
        FindOnly(db.batches, b);
      } else {
        assert Consumed(db0.consumptions, b.id, p) == Consumed(db.consumptions, b.id, p);
        assert AfterFirst(db0.consumptions, b.id, p) == AfterFirst(db.consumptions, b.id, p);
      }
    }
    SumSame(db.batches, batches, ExcessOf(db.consumptions, p), ExcessOf(db0.consumptions, p));
  }

  lemma CompletedFrozen(db: Db, db0: Db, batch: Batch, need: int -> int, row: Batch)
    requires Inv(db) && FindBatch(db.batches, batch.id) == Some(batch) && IsOpen(batch.status)
    requires row.id == batch.id && row.status == COMPLETED && row.recorded
    requires TookConsumptions(db, db0, batch.id, need) && TookDraws(db, db0, batch.id, need)
    ensures FrozenOk(db0.(batches := SetBatch(db.batches, batch.id, row)))
  {
    var batches := SetBatch(db.batches, batch.id, row);
    var db1 := db0.(batches := batches);
    forall b | b in batches && b.status == COMPLETED ensures b.recorded && DrawsAreFrozen(db1, b.id) {
      var i :| 0 <= i < |batches| && batches[i] == b;
      assert db.batches[i] in db.batches;
      if b.id == batch.id {
        forall p ensures DrawnOfPart(db.lots, db.draws, b.id, p) == Consumed(db.consumptions, b.id, p) == 0 {
          NoDrawsNothing(db, b.id, p);
          NoRowsNothing(db, b.id, p);
        }
      } else {
        assert DrawsAreFrozen(db, b.id);
      }
    }
  }

  lemma CompletedRows(db: Db, db0: Db, batch: Batch, need: int -> int, row: Batch)
    requires Inv(db) && FindBatch(db.batches, batch.id) == Some(batch) && IsOpen(batch.status)
    requires row.id == batch.id && row.status == COMPLETED
    requires SameLots(db.lots, db0.lots) && db0.parts.Keys == db.parts.Keys
    requires TookConsumptions(db, db0, batch.id, need) && TookDraws(db, db0, batch.id, need)
    ensures ConsumptionsOk(db0.(batches := SetBatch(db.batches, batch.id, row)))
    ensures DrawsOk(db0.(batches := SetBatch(db.batches, batch.id, row)))
  {
    var batches := SetBatch(db.batches, batch.id, row);
    forall id ensures StatusOf(batches, id) == if id == batch.id then COMPLETED else StatusOf(db.batches, id) {
      StatusAfterSet(db.batches, row, id);
    }
    forall p ensures Consumed(db.consumptions, batch.id, p) == 0 { NoRowsNothing(db, batch.id, p); }
    forall d | d in db0.draws ensures InList(db0.lots, d.lot) { KeepsIdsInList(db.lots, db0.lots, d.lot); }
  }

  /** Completing a batch keeps the invariant. */
  lemma CompleteKeepsInv(db: Db, batch: Batch)
    requires Inv(db) && FindBatch(db.batches, batch.id) == Some(batch) && IsOpen(batch.status)
    requires forall t :: t in db.temps ==> 0 < t.qty
    requires Complete(db, batch).Ok?
    ensures Inv(Complete(db, batch).value)
  {
    hide Complete, Demand, TakeParts;
    var db1 := Complete(db, batch).value;
    var row := batch.(produced := batch.plan, recorded := true, status := COMPLETED);
    var db0 := CompleteTook(db, batch);
    var need := NeedIn(db, batch, CompletionOrder(db, batch));
    assert Took(db, db0, batch.id, need);
    SetBatchOk(db, row, batch);
    CompletedRows(db, db0, batch, need, row);
    CompletedFrozen(db, db0, batch, need, row);
    CompletedBalanced(db, db0, batch, need, row);
  }

  lemma CompletedBalanced(db: Db, db0: Db, batch: Batch, need: int -> int, row: Batch)
    requires Inv(db) && FindBatch(db.batches, batch.id) == Some(batch) && IsOpen(batch.status)
    requires row.id == batch.id && row.status == COMPLETED
    requires TookStock(db, db0, need) && TookLots(db, db0, need) && TookConsumptions(db, db0, batch.id, need)
    requires forall p :: p in db.parts ==> 0 <= need(p) <= db.parts[p].stock
    ensures Balanced(db0.(batches := SetBatch(db.batches, batch.id, row)))
  {
    forall p ensures Excess(db0.(batches := SetBatch(db.batches, batch.id, row)), p) == Excess(db, p) {
      CompletedExcess(db, db0, batch, need, row, p);
    }
  }
}
