/** The ledger's tables and the sums the system reads from them. All quantities are integer hundredths. */
module Tables {
  import opened Sums
  import opened Bom

  datatype Option<+T> = None | Some(value: T)

  datatype Part = Part(stock: int, warn: int, version: int)

  /** One stock-in lot (a part_inbounds row); `remaining` is what is still left of `qty`. */
  datatype Lot = Lot(id: int, part: int, qty: int, remaining: int, createdAt: int)

  /** What one production batch drew from one lot (a part_inbound_draws row). */
  datatype DrawRow = DrawRow(batch: int, lot: int, qty: int)

  datatype Batch = Batch(id: int, product: int, plan: int, produced: int, status: int, recorded: bool)

  /** The frozen consumption of one part by one completed batch. */
  datatype Consumption = Consumption(batch: int, part: int, qty: int)

  datatype TempPart = TempPart(batch: int, part: int, qty: int)

  datatype Trace = Trace(batch: int, part: int, used: int)

  /** A planned use of a lot: a row of batch_trace_allocs. */
  datatype Alloc = Alloc(batch: int, part: int, lot: int, qty: int, position: int)

  datatype Db = Db(
    parts: map<int, Part>,
    lots: seq<Lot>,
    nextLot: int,
    draws: seq<DrawRow>,
    batches: seq<Batch>,
    consumptions: seq<Consumption>,
    bom: seq<BomItem>,
    skips: set<(int, int)>,
    temps: seq<TempPart>,
    traces: seq<Trace>,
    allocs: seq<Alloc>)

  const EMPTY_DB := Db(map[], [], 1, [], [], [], [], {}, [], [], [])

  // ---- Batch status ----

  const PENDING := 0
  const COMPLETED := 2
  const REVOKED := 4

  predicate IsOpen(status: int) { status == 0 || status == 1 || status == 3 }

  // ---- Row weights ----

  function LotOf(part: int): Lot -> int { (l: Lot) => if l.part == part then l.remaining else 0 }

  function DrawnAt(batch: int, lot: int): DrawRow -> int {
    (d: DrawRow) => if d.batch == batch && d.lot == lot then d.qty else 0
  }

  function DrawnBy(batch: int): DrawRow -> int { (d: DrawRow) => if d.batch == batch then d.qty else 0 }

  function ConsumedBy(batch: int, part: int): Consumption -> int {
    (c: Consumption) => if c.batch == batch && c.part == part then c.qty else 0
  }

  function NeedOf(skips: set<(int, int)>, batch: Batch, part: int): BomItem -> int {
    (item: BomItem) =>
      if item.product == batch.product && item.part == part && (batch.id, part) !in skips
      then Consume(batch.plan, item) else 0
  }

  function TempOf(batch: int, part: int): TempPart -> int {
    (t: TempPart) => if t.batch == batch && t.part == part then t.qty else 0
  }

  function AllocOn(batch: int, lot: int): Alloc -> int {
    (a: Alloc) => if a.batch == batch && a.lot == lot then a.qty else 0
  }

  function AllocFor(batch: int, part: int): Alloc -> int {
    (a: Alloc) => if a.batch == batch && a.part == part then a.qty else 0
  }

  // ---- Lookups ----

  /** SELECT ... WHERE id = ?: the batch with this id. */
  function FindBatch(batches: seq<Batch>, id: int): (r: Option<Batch>)
    ensures r.Some? ==> r.value in batches && r.value.id == id
    ensures r.None? ==> forall b :: b in batches ==> b.id != id
  {
    if batches == [] then None
    else if batches[0].id == id then Some(batches[0])
    else FindBatch(batches[1..], id)
  }

  function FindLot(lots: seq<Lot>, id: int): (r: Option<Lot>)
    ensures r.Some? ==> r.value in lots && r.value.id == id
    ensures r.None? ==> forall l :: l in lots ==> l.id != id
  {
    if lots == [] then None
    else if lots[0].id == id then Some(lots[0])
    else FindLot(lots[1..], id)
  }

  predicate HasTrace(traces: seq<Trace>, batch: int, part: int) {
    exists i :: 0 <= i < |traces| && traces[i].batch == batch && traces[i].part == part
  }

  // ---- The sums the system promises about ----

  /** Everything left in a part's lots. */
  function LotTotal(lots: seq<Lot>, part: int): int { Sum(lots, LotOf(part)) }

  function Drawn(draws: seq<DrawRow>, batch: int, lot: int): int { Sum(draws, DrawnAt(batch, lot)) }

  function PartDraw(draws: seq<DrawRow>, batch: int, part: int): Lot -> int {
    (l: Lot) => if l.part == part then Drawn(draws, batch, l.id) else 0
  }

  /** What a batch drew from a part's lots: the draws joined with the lots of that part. */
  function DrawnOfPart(lots: seq<Lot>, draws: seq<DrawRow>, batch: int, part: int): int {
    Sum(lots, PartDraw(draws, batch, part))
  }

  function Consumed(consumptions: seq<Consumption>, batch: int, part: int): int {
    Sum(consumptions, ConsumedBy(batch, part))
  }

  /** What completing `batch` takes of `part`: its BOM unless skipped, plus its temporary parts. */
  function Demand(db: Db, batch: Batch, part: int): int {
    Sum(db.bom, NeedOf(db.skips, batch, part)) + Sum(db.temps, TempOf(batch.id, part))
  }

  function OpenDemand(db: Db, except: int, part: int): Batch -> int {
    (b: Batch) => if IsOpen(b.status) && b.id != except then Demand(db, b, part) else 0
  }

  /** What the open batches other than `except` still claim of a part. */
  function Committed(db: Db, except: int, part: int): int { Sum(db.batches, OpenDemand(db, except, part)) }

  /** The projection: the stock left once every open batch has been completed. */
  function After(db: Db, part: int): int
    requires part in db.parts
  {
    db.parts[part].stock - Committed(db, 0, part)
  }

  // ---- Row updates ----

  function SetStock(db: Db, part: int, stock: int): Db
    requires part in db.parts
  {
    db.(parts := db.parts[part := db.parts[part].(stock := stock, version := db.parts[part].version + 1)])
  }

  function SetBatch(batches: seq<Batch>, id: int, row: Batch): (r: seq<Batch>)
    ensures |r| == |batches|
    ensures forall i :: 0 <= i < |r| ==> r[i] == if batches[i].id == id then row else batches[i]
  {
    seq(|batches|, i requires 0 <= i < |batches| => if batches[i].id == id then row else batches[i])
  }

  /** UPDATE part_inbounds SET remaining = ? WHERE id = ? */
  function SetRemaining(lots: seq<Lot>, id: int, remaining: int): (r: seq<Lot>)
    ensures |r| == |lots|
    ensures forall i :: 0 <= i < |r| ==>
      r[i] == if lots[i].id == id then lots[i].(remaining := remaining) else lots[i]
  {
    seq(|lots|, i requires 0 <= i < |lots| =>
      if lots[i].id == id then lots[i].(remaining := remaining) else lots[i])
  }

  /** addPartInbound: a new lot, full, under the next row id. */
  function AddLot(db: Db, part: int, qty: int, now: int): Db {
    db.(lots := db.lots + [Lot(db.nextLot, part, qty, qty, now)], nextLot := db.nextLot + 1)
  }

  ghost predicate DistinctLots(lots: seq<Lot>) {
    forall i, j :: 0 <= i < j < |lots| ==> lots[i].id < lots[j].id
  }

  ghost predicate DistinctBatches(batches: seq<Batch>) {
    forall i, j :: 0 <= i < j < |batches| ==> batches[i].id != batches[j].id
  }
}
