/** What each ledger transaction does to the tables. A transaction either fails, and the tables stay as they
    were, or yields the new tables. The classes in LedgerStore are proved against these functions. */
module Transactions {
  import opened Sums
  import opened Bom
  import opened Tables
  import opened Draw

  datatype Error =
    | BadQuantity | BadItem | NotFound | Duplicate | StaleVersion
    | WrongLot | NegativeStock | LotsShort
    | AlreadyRevoked | BadStatus | Closed | BadPlan | BadBom
    | Shortage(parts: seq<int>) | TraceMissing(parts: seq<int>)
    | NotRecorded | WouldRunShort(after: int) | InBom | Skipped | OverAllocated

  datatype Result<+T> = Ok(value: T) | Err(error: Error)

  // ---- Parts ----

  /** CreatePart: a new part always starts at zero stock. */
  function CreatePart(db: Db, id: int, stock: int, warn: int): Result<Db> {
    if stock != 0 then Err(BadQuantity)
    else if warn < 0 then Err(BadQuantity)
    else if id in db.parts then Err(Duplicate)
    else Ok(db.(parts := db.parts[id := Part(0, warn, 1)]))
  }

  /** UpdatePart: editing a part never moves its stock, whatever stock the request carries. */
  function UpdatePart(db: Db, id: int, stock: int, warn: int, version: int): Result<Db> {
    if stock < 0 || warn < 0 then Err(BadQuantity)
    else if id !in db.parts then Err(NotFound)
    else if version != db.parts[id].version then Err(StaleVersion)
    else Ok(db.(parts := db.parts[id := Part(db.parts[id].stock, warn, version + 1)]))
  }

  function StockIn(db: Db, part: int, qty: int, now: int): Result<Db> {
    if qty <= 0 then Err(BadQuantity)
    else if part !in db.parts then Err(NotFound)
    else Ok(AddLot(SetStock(db, part, db.parts[part].stock + qty), part, qty, now))
  }

  // ---- Draws ----

  /** deductPartInbound: plan first, then oldest first; refused when the lots cannot contribute `qty`. */
  function Deduct(db: Db, part: int, qty: int, batch: Option<int>, plan: seq<PlanStep>): Result<Db> {
    if qty <= 0 then Ok(db)
    else
      var takes := Greedy(Offers(FifoList(db.lots, part), plan), qty);
      if Sum(takes, Taken()) < qty then Err(LotsShort)
      else Ok(db.(lots := ApplyTakes(db.lots, takes),
                  draws := if batch.Some? then db.draws + DrawRows(batch.value, takes) else db.draws))
  }

  /** traceAllocPlan: the batch's recorded allocations of a part, by position. */
  function PlanRows(allocs: seq<Alloc>, batch: int, part: int): seq<Alloc> {
    OrderBy(Keep(allocs, (a: Alloc) => a.batch == batch && a.part == part), (a: Alloc) => a.position)
  }

  function PlanFor(allocs: seq<Alloc>, batch: int, part: int): (r: seq<PlanStep>)
    ensures |r| == |PlanRows(allocs, batch, part)|
  {
    var rows := PlanRows(allocs, batch, part);
    seq(|rows|, i requires 0 <= i < |rows| => PlanStep(rows[i].lot, rows[i].qty))
  }

  // ---- Stocktakes ----

  /** AdjustStock: the counted total replaces the stock, and the lots follow by the same difference. */
  function AdjustStock(db: Db, part: int, newQty: int, now: int): Result<Db> {
    if newQty < 0 then Err(BadQuantity)
    else if part !in db.parts then Err(NotFound)
    else
      var diff := newQty - db.parts[part].stock;
      if diff < 0 then
        match Deduct(db, part, -diff, None, [])
        case Err(e) => Err(e)
        case Ok(db1) => if part in db1.parts then Ok(SetStock(db1, part, newQty)) else Err(NotFound)
      else if diff > 0 then
        var db1 := AddLot(db, part, diff, now);
        Ok(SetStock(db1, part, newQty))
      else Ok(SetStock(db, part, newQty))
  }

  /** One counted lot. */
  datatype Count = Count(lot: int, remaining: int)

  /** The request check: items present, valid, each lot once. */
  function CountError(counts: seq<Count>, seen: set<int>): Option<Error> {
    if counts == [] then None
    else if counts[0].lot <= 0 then Some(BadItem)
    else if counts[0].lot in seen then Some(Duplicate)
    else if counts[0].remaining < 0 then Some(BadQuantity)
    else CountError(counts[1..], seen + {counts[0].lot})
  }

  /** Write the counts lot by lot, collecting the difference. */
  function Recount(lots: seq<Lot>, part: int, counts: seq<Count>, delta: int): Result<(seq<Lot>, int)>
    decreases |counts|
  {
    if counts == [] then Ok((lots, delta))
    else
      var c := counts[0];
      var found := FindLot(lots, c.lot);
      if found.None? || found.value.part != part then Err(WrongLot)
      else Recount(SetRemaining(lots, c.lot, c.remaining), part, counts[1..],
                   delta + c.remaining - found.value.remaining)
  }

  /** AdjustInbounds: the counted lots take their counts and the stock moves by the total difference. */
  function AdjustInbounds(db: Db, part: int, counts: seq<Count>): Result<Db> {
    if counts == [] then Err(BadItem)
    else if CountError(counts, {}).Some? then Err(CountError(counts, {}).value)
    else if part !in db.parts then Err(NotFound)
    else
      match Recount(db.lots, part, counts, 0)
      case Err(e) => Err(e)
      case Ok((lots, delta)) =>
        var newStock := db.parts[part].stock + delta;
        if newStock < 0 then Err(NegativeStock) else Ok(SetStock(db.(lots := lots), part, newStock))
  }

  // ---- BOM, batches, skipped and temporary parts ----

  function AddBomItem(db: Db, item: BomItem): Result<Db> {
    if !ValidBomItem(item) then Err(BadBom)
    else if item.part !in db.parts then Err(NotFound)
    else if exists b :: b in db.bom && b.product == item.product && b.part == item.part then Err(Duplicate)
    else Ok(db.(bom := db.bom + [item]))
  }

  function UpdateBomItem(db: Db, id: int, quantity: int, lossRate: int, useMode: int): Result<Db> {
    if !ValidBomItem(BomItem(id, 0, 0, quantity, lossRate, useMode)) then Err(BadBom)
    else if forall b :: b in db.bom ==> b.id != id then Err(NotFound)
    else Ok(db.(bom := seq(|db.bom|, i requires 0 <= i < |db.bom| =>
           if db.bom[i].id == id then db.bom[i].(quantity := quantity, lossRate := lossRate, useMode := useMode)
           else db.bom[i])))
  }

  function RemoveBomItem(db: Db, id: int): Result<Db> {
    Ok(db.(bom := Keep(db.bom, (b: BomItem) => b.id != id)))
  }

  /** CreateBatch: a batch always starts pending, whatever status the request carries. */
  function CreateBatch(db: Db, id: int, product: int, plan: int): Result<Db> {
    if plan <= 0 then Err(BadPlan)
    else if FindBatch(db.batches, id).Some? || id <= 0 then Err(Duplicate)
    else Ok(db.(batches := db.batches + [Batch(id, product, plan, 0, PENDING, false)]))
  }

  /** The check shared by every edit of a batch's parts. */
  function EditError(db: Db, batch: int, part: int): Option<Error> {
    match FindBatch(db.batches, batch)
    case None => Some(NotFound)
    case Some(b) =>
      if b.status == COMPLETED || b.status == REVOKED then Some(Closed)
      else if part !in db.parts then Some(NotFound)
      else None
  }

  /** deletePartTraces: forget what was recorded for (batch, part). */
  function DropTrace(db: Db, batch: int, part: int): Db {
    db.(allocs := Keep(db.allocs, (a: Alloc) => !(a.batch == batch && a.part == part)),
        traces := Keep(db.traces, (t: Trace) => !(t.batch == batch && t.part == part)))
  }

  function AddSkipPart(db: Db, batch: int, part: int): Result<Db> {
    if EditError(db, batch, part).Some? then Err(EditError(db, batch, part).value)
    else Ok(DropTrace(db.(skips := db.skips + {(batch, part)}), batch, part))
  }

  function RemoveSkipPart(db: Db, batch: int, part: int): Result<Db> {
    if EditError(db, batch, part).Some? then Err(EditError(db, batch, part).value)
    else Ok(db.(skips := db.skips - {(batch, part)}))
  }

  predicate HasTemp(temps: seq<TempPart>, batch: int, part: int) {
    exists i :: 0 <= i < |temps| && temps[i].batch == batch && temps[i].part == part
  }

  /** The quantity this batch already has of the part as a temporary part: the last such row. */
  function OldTemp(temps: seq<TempPart>, batch: int, part: int): int {
    if temps == [] then 0
    else
      var t := temps[|temps| - 1];
      if t.batch == batch && t.part == part then t.qty else OldTemp(temps[..|temps| - 1], batch, part)
  }

  /** INSERT ... ON DUPLICATE KEY UPDATE on (batch, part). */
  function UpsertTemp(temps: seq<TempPart>, batch: int, part: int, qty: int): seq<TempPart> {
    if HasTemp(temps, batch, part) then
      seq(|temps|, i requires 0 <= i < |temps| =>
        if temps[i].batch == batch && temps[i].part == part then TempPart(batch, part, qty) else temps[i])
    else temps + [TempPart(batch, part, qty)]
  }

  function AddTempPart(db: Db, batch: int, part: int, qty: int): Result<Db> {
    if qty <= 0 then Err(BadQuantity)
    else if EditError(db, batch, part).Some? then Err(EditError(db, batch, part).value)
    else
      var after := db.parts[part].stock - Committed(db, 0, part) + OldTemp(db.temps, batch, part) - qty;
      var b := FindBatch(db.batches, batch).value;
      if after < 0 then Err(WouldRunShort(after))
      else if exists item :: item in db.bom && item.product == b.product && item.part == part then Err(InBom)
      else Ok(db.(temps := UpsertTemp(db.temps, batch, part, qty)))
  }

  function RemoveTempPart(db: Db, batch: int, part: int): Result<Db> {
    if EditError(db, batch, part).Some? then Err(EditError(db, batch, part).value)
    else Ok(DropTrace(db.(temps := Keep(db.temps, (t: TempPart) => !(t.batch == batch && t.part == part))), batch, part))
  }

  // ---- Completion ----

  function AddDistinct(order: seq<int>, part: int): seq<int> {
    if part in order then order else order + [part]
  }

  predicate BomApplies(db: Db, batch: Batch, item: BomItem) {
    (batch.id, item.part) !in db.skips && item.part in db.parts
  }

  predicate TempApplies(db: Db, batch: Batch, t: TempPart) {
    t.batch == batch.id && t.qty > 0 && t.part in db.parts
  }

  /** GetBOMByProduct: a product's BOM rows, by part. */
  function BomRows(bom: seq<BomItem>, product: int): seq<BomItem> {
    OrderBy(Keep(bom, (b: BomItem) => b.product == product), (b: BomItem) => b.part)
  }

  /** The parts a completion takes, in the order the first n of its BOM rows name them. */
  function BomOrder(db: Db, batch: Batch, n: nat): seq<int>
    requires n <= |BomRows(db.bom, batch.product)|
  {
    if n == 0 then []
    else
      var item := BomRows(db.bom, batch.product)[n - 1];
      if BomApplies(db, batch, item) then AddDistinct(BomOrder(db, batch, n - 1), item.part)
      else BomOrder(db, batch, n - 1)
  }

  /** ... and then the first n temporary-part rows. */
  function TempOrder(db: Db, batch: Batch, n: nat): seq<int>
    requires n <= |db.temps|
  {
    if n == 0 then BomOrder(db, batch, |BomRows(db.bom, batch.product)|)
    else if TempApplies(db, batch, db.temps[n - 1]) then AddDistinct(TempOrder(db, batch, n - 1), db.temps[n - 1].part)
    else TempOrder(db, batch, n - 1)
  }

  function CompletionOrder(db: Db, batch: Batch): seq<int> { TempOrder(db, batch, |db.temps|) }

  predicate IsShort(db: Db, batch: Batch, part: int) {
    part in db.parts && 0 < Demand(db, batch, part) && db.parts[part].stock < Demand(db, batch, part)
  }

  predicate IsUnrecorded(db: Db, batch: Batch, part: int) {
    0 < Demand(db, batch, part) && !HasTrace(db.traces, batch.id, part)
  }

  function ShortOf(db: Db, batch: Batch): int -> bool { (p: int) => IsShort(db, batch, p) }

  function UnrecordedOf(db: Db, batch: Batch): int -> bool { (p: int) => IsUnrecorded(db, batch, p) }

  /** Take one part: lower its stock, draw its lots along the batch's plan, freeze the consumption. */
  function TakePart(db: Db, batch: Batch, part: int): Result<Db> {
    var need := Demand(db, batch, part);
    if part !in db.parts then Err(NotFound)
    else
      var left := db.parts[part].stock - need;
      match Deduct(SetStock(db, part, if left < 0 then 0 else left), part, need, Some(batch.id), PlanFor(db.allocs, batch.id, part))
      case Err(e) => Err(e)
      case Ok(db1) => Ok(db1.(consumptions := db1.consumptions + [Consumption(batch.id, part, need)]))
  }

  function TakeParts(db: Db, batch: Batch, order: seq<int>): Result<Db>
    decreases |order|
  {
    if order == [] then Ok(db)
    else if Demand(db, batch, order[0]) <= 0 then TakeParts(db, batch, order[1..])
    else
      match TakePart(db, batch, order[0])
      case Err(e) => Err(e)
      case Ok(db1) => TakeParts(db1, batch, order[1..])
  }

  /** The completion refusals, in the order they are checked. */
  function CompletionError(db: Db, batch: Batch): Option<Error> {
    var order := CompletionOrder(db, batch);
    var short := Keep(order, ShortOf(db, batch));
    var missing := Keep(order, UnrecordedOf(db, batch));
    if batch.plan <= 0 then Some(BadPlan)
    else if exists item :: item in db.bom && item.product == batch.product && !ValidBomItem(item) then Some(BadBom)
    else if short != [] then Some(Shortage(short))
    else if missing != [] then Some(TraceMissing(missing))
    else None
  }

  function Complete(db: Db, batch: Batch): Result<Db> {
    if CompletionError(db, batch).Some? then Err(CompletionError(db, batch).value)
    else
      match TakeParts(db, batch, CompletionOrder(db, batch))
      case Err(e) => Err(e)
      case Ok(db1) => Ok(db1.(batches := SetBatch(db1.batches, batch.id, batch.(produced := batch.plan, recorded := true, status := COMPLETED))))
  }

  /** UpdateBatchStatus. */
  function ChangeStatus(db: Db, id: int, status: int): Result<Db> {
    match FindBatch(db.batches, id)
    case None => Err(NotFound)
    case Some(batch) =>
      if batch.status == REVOKED then Err(AlreadyRevoked)
      else if status < 0 || status > 3 then Err(BadStatus)
      else if batch.status == COMPLETED then Err(Closed)
      else if status == COMPLETED then Complete(db, batch)
      else Ok(db.(batches := SetBatch(db.batches, id, batch.(status := status))))
  }

  // ---- Revocation ----

  /** restorePartInboundDraws: every draw of the batch goes back to its lot, and the rows are deleted. */
  function RestoredLots(lots: seq<Lot>, draws: seq<DrawRow>, batch: int): (r: seq<Lot>)
    ensures |r| == |lots|
    ensures forall i :: 0 <= i < |r| ==>
      r[i] == lots[i].(remaining := lots[i].remaining + Drawn(draws, batch, lots[i].id))
  {
    seq(|lots|, i requires 0 <= i < |lots| =>
      lots[i].(remaining := lots[i].remaining + Drawn(draws, batch, lots[i].id)))
  }

  function RestoreDraws(db: Db, batch: int): Db {
    db.(lots := RestoredLots(db.lots, db.draws, batch), draws := Keep(db.draws, (d: DrawRow) => d.batch != batch))
  }

  /** ListBatchConsumptions: the frozen rows of a batch, by part. */
  function ConsumptionRows(consumptions: seq<Consumption>, batch: int): seq<Consumption> {
    OrderBy(Keep(consumptions, (c: Consumption) => c.batch == batch), (c: Consumption) => c.part)
  }

  /** Give back one frozen row. The restore is of the whole batch, not of the row's part. */
  function RestoreRow(db: Db, batch: int, row: Consumption, now: int): Db {
    if row.qty <= 0 || row.part !in db.parts then db
    else
      var db1 := RestoreDraws(SetStock(db, row.part, db.parts[row.part].stock + row.qty), batch);
      var gap := row.qty - Sum(db.draws, DrawnBy(batch));
      if gap > 0 then AddLot(db1, row.part, gap, now) else db1
  }

  function RestoreRows(db: Db, batch: int, rows: seq<Consumption>, now: int): Db
    decreases |rows|
  {
    if rows == [] then db else RestoreRows(RestoreRow(db, batch, rows[0], now), batch, rows[1..], now)
  }

  function Revoke(db: Db, id: int, now: int): Result<Db> {
    match FindBatch(db.batches, id)
    case None => Err(NotFound)
    case Some(batch) =>
      if batch.status == REVOKED then Err(AlreadyRevoked)
      else if batch.status == COMPLETED && !batch.recorded then Err(NotRecorded)
      else
        var db1 := if batch.status == COMPLETED then RestoreRows(db, id, ConsumptionRows(db.consumptions, id), now) else db;
        Ok(db1.(batches := SetBatch(db1.batches, id, batch.(status := REVOKED))))
  }

  // ---- Traces ----

  /** A recorded use of one part by one batch, with its planned lots in order. */
  datatype TraceInput = TraceInput(batch: int, part: int, used: int, allocs: seq<PlanStep>)

  function Planned(): PlanStep -> int { (s: PlanStep) => s.qty }

  function AllocError(allocs: seq<PlanStep>, seen: set<int>): Option<Error> {
    if allocs == [] then None
    else if allocs[0].lot <= 0 then Some(BadItem)
    else if allocs[0].qty <= 0 then Some(BadQuantity)
    else if allocs[0].lot in seen then Some(Duplicate)
    else AllocError(allocs[1..], seen + {allocs[0].lot})
  }

  function TraceError(inputs: seq<TraceInput>, seen: set<(int, int)>): Option<Error> {
    if inputs == [] then None
    else
      var t := inputs[0];
      if t.batch <= 0 || t.part <= 0 then Some(BadItem)
      else if t.used <= 0 then Some(BadQuantity)
      else if (t.batch, t.part) in seen then Some(Duplicate)
      else if AllocError(t.allocs, {}).Some? then AllocError(t.allocs, {})
      else if Sum(t.allocs, Planned()) > t.used then Some(OverAllocated)
      else TraceError(inputs[1..], seen + {(t.batch, t.part)})
  }

  predicate BatchIsOpen(batches: seq<Batch>, id: int) {
    exists i :: 0 <= i < |batches| && batches[i].id == id && IsOpen(batches[i].status)
  }

  /** Allocations of a lot by the open batches other than `except`. */
  function OthersOn(batches: seq<Batch>, except: int, lot: int): Alloc -> int {
    (a: Alloc) => if a.lot == lot && a.batch != except && BatchIsOpen(batches, a.batch) then a.qty else 0
  }

  /** What a batch may allocate of a lot: the remainder, plus its own earlier share, less the others' shares. */
  function Available(db: Db, batch: int, lot: Lot): int {
    lot.remaining + Sum(db.allocs, AllocOn(batch, lot.id)) - Sum(db.allocs, OthersOn(db.batches, batch, lot.id))
  }

  function LotError(db: Db, batch: int, part: int, allocs: seq<PlanStep>): Option<Error> {
    if allocs == [] then None
    else
      var found := FindLot(db.lots, allocs[0].lot);
      if found.None? then Some(NotFound)
      else if found.value.part != part then Some(WrongLot)
      else if allocs[0].qty > Available(db, batch, found.value) then Some(OverAllocated)
      else LotError(db, batch, part, allocs[1..])
  }

  function AllocRows(batch: int, part: int, steps: seq<PlanStep>): (r: seq<Alloc>)
    ensures |r| == |steps|
    ensures forall i :: 0 <= i < |r| ==> r[i] == Alloc(batch, part, steps[i].lot, steps[i].qty, i)
  {
    seq(|steps|, i requires 0 <= i < |steps| => Alloc(batch, part, steps[i].lot, steps[i].qty, i))
  }

  /** replacePartTrace: the record of (batch, part) and its allocations are replaced as a whole. */
  function ReplaceTrace(db: Db, t: TraceInput): Db {
    var d := DropTrace(db, t.batch, t.part);
    d.(traces := d.traces + [Trace(t.batch, t.part, t.used)], allocs := d.allocs + AllocRows(t.batch, t.part, t.allocs))
  }

  function RecordError(db: Db, t: TraceInput): Option<Error> {
    if EditError(db, t.batch, t.part).Some? then EditError(db, t.batch, t.part)
    else if (t.batch, t.part) in db.skips && !HasTemp(db.temps, t.batch, t.part) then Some(Skipped)
    else LotError(db, t.batch, t.part, t.allocs)
  }

  function RecordAll(db: Db, inputs: seq<TraceInput>): Result<Db>
    decreases |inputs|
  {
    if inputs == [] then Ok(db)
    else if RecordError(db, inputs[0]).Some? then Err(RecordError(db, inputs[0]).value)
    else RecordAll(ReplaceTrace(db, inputs[0]), inputs[1..])
  }

  function RecordTraces(db: Db, inputs: seq<TraceInput>): Result<Db> {
    if TraceError(inputs, {}).Some? then Err(TraceError(inputs, {}).value) else RecordAll(db, inputs)
  }
}
