/** What the building blocks of the transactions do to the ledger's sums. */
module Effects {
  import opened Sums
  import opened Bom
  import opened Tables
  import opened Draw
  import opened Transactions

  // ---- Well-formed lots ----

  ghost predicate LotsOk(db: Db) {
    && DistinctLots(db.lots) && 0 < db.nextLot
    && (forall l :: l in db.lots ==> 0 < l.id < db.nextLot && l.part in db.parts && 0 <= l.remaining)
  }

  /** Two lot tables with the same rows up to `remaining`. */
  ghost predicate SameLots(a: seq<Lot>, b: seq<Lot>) {
    |a| == |b| && forall i :: 0 <= i < |a| ==> a[i].id == b[i].id && a[i].part == b[i].part
  }

  /** No lot is ever deleted: the rows of `a` are still there, under their ids, in `b`. */
  ghost predicate KeepsIds(a: seq<Lot>, b: seq<Lot>) {
    |a| <= |b| && forall i :: 0 <= i < |a| ==> a[i].id == b[i].id && a[i].part == b[i].part
  }

  lemma KeepsIdsInList(a: seq<Lot>, b: seq<Lot>, lot: int)
    requires KeepsIds(a, b) && InList(a, lot)
    ensures InList(b, lot)
  {
    var l :| l in a && l.id == lot;
    var i :| 0 <= i < |a| && a[i] == l;
    assert b[i] in b;
  }

  function LotId(): Lot -> int { (l: Lot) => l.id }

  lemma FifoFacts(lots: seq<Lot>, part: int)
    requires DistinctLots(lots)
    ensures forall l :: l in FifoList(lots, part) <==> l in lots && l.part == part
    ensures DistinctIds(FifoList(lots, part))
    ensures Ordered(FifoList(lots, part), (l: Lot) => l.createdAt, LotId())
  {
    var p, key := (l: Lot) => l.part == part, (l: Lot) => l.createdAt;
    var list := FifoList(lots, part);
    InOrderBy(Keep(lots, p), key);
    assert Ordered(lots, LotId(), LotId()) by {
      assert forall i, j :: 0 <= i < j < |lots| ==> Before(lots[i], lots[j], LotId(), LotId());
    }
    KeepOrdered(lots, p, LotId(), LotId());
    OrderByOrdered(Keep(lots, p), key, LotId());
    forall i, j | 0 <= i < j < |list| ensures list[i].id != list[j].id {
      assert Before(list[i], list[j], key, LotId());
      assert list[i] in lots && list[j] in lots;
    }
  }

  lemma FifoSum(lots: seq<Lot>, part: int, f: Lot -> int, g: Lot -> int)
    requires forall l: Lot :: g(l) == if l.part == part then f(l) else 0
    ensures Sum(FifoList(lots, part), f) == Sum(lots, g)
  {
    var p := (l: Lot) => l.part == part;
    SumOrderBy(Keep(lots, p), (l: Lot) => l.createdAt, f);
    SumKeep(lots, p, f, g);
  }

  /** With no plan, a part's lots can contribute everything they hold. */
  lemma FifoCapacity(lots: seq<Lot>, part: int)
    requires forall l :: l in lots ==> 0 <= l.remaining
    ensures Sum(FifoList(lots, part), CapOf([])) == LotTotal(lots, part)
  {
    var p := (l: Lot) => l.part == part;
    var g := (l: Lot) => if l.part == part then CapOf([])(l) else 0;
    FifoSum(lots, part, CapOf([]), g);
    forall i | 0 <= i < |lots| ensures g(lots[i]) == LotOf(part)(lots[i]) {
      assert lots[i] in lots;
    }
    SumSame(lots, lots, g, LotOf(part));
  }

  // ---- Takes and draw rows ----

  function LossOf(takes: seq<Take>): Lot -> int { (l: Lot) => Sum(takes, TakenAt(l.id)) }

  function OneTake(t: Take): Lot -> int { (l: Lot) => if t.lot == l.id then t.qty else 0 }

  /** What the lots lose is what was taken. */
  lemma {:induction false} TakesByLot(list: seq<Lot>, takes: seq<Take>)
    requires DistinctIds(list)
    requires forall t :: t in takes ==> InList(list, t.lot)
    ensures Sum(list, LossOf(takes)) == Sum(takes, Taken())
  {
    if takes == [] {
      SumZero(list, LossOf(takes));
    } else {
      var t, rest := takes[0], takes[1..];
      TakesByLot(list, rest);
      assert InList(list, t.lot);
      var k :| 0 <= k < |list| && list[k].id == t.lot;
      SumOnly(list, k, OneTake(t));
      SumAdd(list, list, OneTake(t), LossOf(rest), LossOf(takes));
    }
  }

  /** A lot of another part is not among the offers, so it loses nothing. */
  lemma ForeignLot(lots: seq<Lot>, part: int, plan: seq<PlanStep>, qty: int, l: Lot)
    requires DistinctLots(lots) && l in lots && l.part != part
    ensures Loss(FifoList(lots, part), plan, qty, l.id) == 0
  {
    var list := FifoList(lots, part);
    var os := Offers(list, plan);
    FifoFacts(lots, part);
    OffersFacts(list, plan);
    forall i | 0 <= i < |os| ensures os[i].lot != l.id {
      assert InList(list, os[i].lot);
      var m :| m in list && m.id == os[i].lot;
      assert m in lots;
    }
    GreedyAbsent(os, qty, l.id);
  }

  /** The loss of every lot under a draw: bounded by its remainder, nothing outside the part. */
  lemma DrawLosses(lots: seq<Lot>, part: int, plan: seq<PlanStep>, qty: int, l: Lot)
    requires DistinctLots(lots) && l in lots && 0 <= l.remaining
    ensures 0 <= Loss(FifoList(lots, part), plan, qty, l.id) <= l.remaining
    ensures l.part != part ==> Loss(FifoList(lots, part), plan, qty, l.id) == 0
  {
    if l.part == part {
      FifoFacts(lots, part);
      LossBounded(FifoList(lots, part), plan, qty, l);
    } else {
      ForeignLot(lots, part, plan, qty, l);
    }
  }

  lemma TakesInList(lots: seq<Lot>, part: int, plan: seq<PlanStep>, qty: int)
    requires DistinctLots(lots)
    ensures var list := FifoList(lots, part); var takes := Greedy(Offers(list, plan), qty);
      forall t :: t in takes ==> 0 < t.qty && InList(list, t.lot) && InList(lots, t.lot)
  {
    hide Greedy, Offers, FifoList, Ordered;
    var list := FifoList(lots, part);
    var os := Offers(list, plan);
    FifoFacts(lots, part);
    OffersFacts(list, plan);
    GreedyFrom(os, qty);
    forall t | t in Greedy(os, qty) ensures 0 < t.qty && InList(list, t.lot) && InList(lots, t.lot) {
      var i :| 0 <= i < |os| && os[i].lot == t.lot && t.qty <= os[i].amount;
      assert InList(list, os[i].lot);
      var l :| l in list && l.id == os[i].lot;
      assert l in lots;
    }
  }

  /** A draw lowers its own part's total by what it took and touches no other part. */
  lemma DrawTotals(lots: seq<Lot>, part: int, plan: seq<PlanStep>, qty: int, p: int)
    requires DistinctLots(lots) && forall l :: l in lots ==> 0 <= l.remaining
    ensures var takes := Greedy(Offers(FifoList(lots, part), plan), qty);
      LotTotal(ApplyTakes(lots, takes), p) == LotTotal(lots, p) - if p == part then Sum(takes, Taken()) else 0
  {
    var list := FifoList(lots, part);
    var takes := Greedy(Offers(list, plan), qty);
    var after := ApplyTakes(lots, takes);
    var minus := (l: Lot) => if l.part == p then -Sum(takes, TakenAt(l.id)) else 0;
    SumAdd(lots, after, LotOf(p), minus, LotOf(p));
    if p == part {
      FifoFacts(lots, part);
      TakesInList(lots, part, plan, qty);
      TakesByLot(list, takes);
      var plus := (l: Lot) => if l.part == p then LossOf(takes)(l) else 0;
      FifoSum(lots, part, LossOf(takes), plus);
      SumAdd(lots, lots, minus, plus, (l: Lot) => 0);
      SumZero(lots, (l: Lot) => 0);
    } else {
      forall i | 0 <= i < |lots| ensures minus(lots[i]) == 0 {
        DrawLosses(lots, part, plan, qty, lots[i]);
      }
      SumZero(lots, minus);
    }
  }

  /** New draw rows add, to their batch only, exactly what was taken from each lot. */
  lemma DrawnAfter(draws: seq<DrawRow>, takes: seq<Take>, batch: int, b: int, lot: int)
    ensures Drawn(draws + DrawRows(batch, takes), b, lot)
         == Drawn(draws, b, lot) + if b == batch then Sum(takes, TakenAt(lot)) else 0
  {
    SumConcat(draws, DrawRows(batch, takes), DrawnAt(b, lot));
    if b == batch {
      SumSame(takes, DrawRows(batch, takes), TakenAt(lot), DrawnAt(b, lot));
    } else {
      SumZero(DrawRows(batch, takes), DrawnAt(b, lot));
    }
  }

  lemma DrawnOfPartAfter(lots: seq<Lot>, after: seq<Lot>, part: int, plan: seq<PlanStep>, qty: int,
                         draws: seq<DrawRow>, batch: int, b: int, p: int)
    requires DistinctLots(lots) && (forall l :: l in lots ==> 0 <= l.remaining) && SameLots(lots, after)
    ensures var takes := Greedy(Offers(FifoList(lots, part), plan), qty);
      DrawnOfPart(after, draws + DrawRows(batch, takes), b, p)
      == DrawnOfPart(lots, draws, b, p) + if b == batch && p == part then Sum(takes, Taken()) else 0
  {
    var list := FifoList(lots, part);
    var takes := Greedy(Offers(list, plan), qty);
    var draws' := draws + DrawRows(batch, takes);
    var extra := (l: Lot) => if l.part == p && b == batch then Sum(takes, TakenAt(l.id)) else 0;
    forall i | 0 <= i < |lots|
      ensures PartDraw(draws', b, p)(after[i]) == PartDraw(draws, b, p)(lots[i]) + extra(lots[i])
    {
      DrawnAfter(draws, takes, batch, b, lots[i].id);
    }
    SumAdd(lots, after, PartDraw(draws, b, p), extra, PartDraw(draws', b, p));
    if b == batch && p == part {
      FifoFacts(lots, part);
      TakesInList(lots, part, plan, qty);
      TakesByLot(list, takes);
      FifoSum(lots, part, LossOf(takes), extra);
    } else {
      forall i | 0 <= i < |lots| ensures extra(lots[i]) == 0 {
        DrawLosses(lots, part, plan, qty, lots[i]);
      }
      SumZero(lots, extra);
    }
  }

  // ---- New lots ----

  lemma AddLotTotal(db: Db, part: int, qty: int, now: int, p: int)
    ensures LotTotal(AddLot(db, part, qty, now).lots, p) == LotTotal(db.lots, p) + if p == part then qty else 0
  {
    SumAppend(db.lots, Lot(db.nextLot, part, qty, qty, now), LotOf(p));
  }

  /** No draw refers to a lot that does not exist yet. */
  ghost predicate DrawsInRange(db: Db) {
    forall d :: d in db.draws ==> 0 < d.qty && d.lot < db.nextLot
  }

  lemma AddLotDrawn(db: Db, part: int, qty: int, now: int, b: int, p: int)
    requires DrawsInRange(db)
    ensures DrawnOfPart(AddLot(db, part, qty, now).lots, db.draws, b, p) == DrawnOfPart(db.lots, db.draws, b, p)
  {
    SumAppend(db.lots, Lot(db.nextLot, part, qty, qty, now), PartDraw(db.draws, b, p));
    SumZero(db.draws, DrawnAt(b, db.nextLot));
  }

  // ---- Restoring ----

  lemma RestoreTotals(lots: seq<Lot>, draws: seq<DrawRow>, batch: int, p: int)
    ensures LotTotal(RestoredLots(lots, draws, batch), p) == LotTotal(lots, p) + DrawnOfPart(lots, draws, batch, p)
  {
    SumAdd(lots, RestoredLots(lots, draws, batch), LotOf(p), PartDraw(draws, batch, p), LotOf(p));
  }

  /** Deleting a batch's draw rows leaves the other batches' draws alone. */
  lemma DeletedDraws(draws: seq<DrawRow>, batch: int, b: int, lot: int)
    ensures Drawn(Keep(draws, (d: DrawRow) => d.batch != batch), b, lot) == if b == batch then 0 else Drawn(draws, b, lot)
  {
    var p := (d: DrawRow) => d.batch != batch;
    if b == batch {
      forall i | 0 <= i < |Keep(draws, p)| ensures DrawnAt(b, lot)(Keep(draws, p)[i]) == 0 {
        assert Keep(draws, p)[i] in Keep(draws, p);
      }
      SumZero(Keep(draws, p), DrawnAt(b, lot));
    } else {
      SumKeep(draws, p, DrawnAt(b, lot), DrawnAt(b, lot));
    }
  }

  lemma DeletedDrawsOfPart(lots: seq<Lot>, after: seq<Lot>, draws: seq<DrawRow>, batch: int, b: int, p: int)
    requires SameLots(lots, after)
    ensures DrawnOfPart(after, Keep(draws, (d: DrawRow) => d.batch != batch), b, p)
         == if b == batch then 0 else DrawnOfPart(lots, draws, b, p)
  {
    var kept := Keep(draws, (d: DrawRow) => d.batch != batch);
    forall i | 0 <= i < |lots|
      ensures PartDraw(kept, b, p)(after[i]) == if b == batch then 0 else PartDraw(draws, b, p)(lots[i])
    {
      DeletedDraws(draws, batch, b, lots[i].id);
    }
    if b == batch {
      SumZero(after, PartDraw(kept, b, p));
    } else {
      SumSame(lots, after, PartDraw(draws, b, p), PartDraw(kept, b, p));
    }
  }

  function OneDraw(d: DrawRow, batch: int, p: int): Lot -> int {
    (l: Lot) => if l.part == p then DrawnAt(batch, l.id)(d) else 0
  }

  /** A batch's draws from one part are part of all it drew. */
  lemma {:induction false} DrawnOfPartAtMost(lots: seq<Lot>, draws: seq<DrawRow>, batch: int, p: int)
    requires DistinctLots(lots) && forall d :: d in draws ==> 0 < d.qty
    ensures 0 <= DrawnOfPart(lots, draws, batch, p) <= Sum(draws, DrawnBy(batch))
  {
    if draws == [] {
      SumZero(lots, PartDraw(draws, batch, p));
    } else {
      var d, rest := draws[0], draws[1..];
      DrawnOfPartAtMost(lots, rest, batch, p);
      SumAdd(lots, lots, OneDraw(d, batch, p), PartDraw(rest, batch, p), PartDraw(draws, batch, p));
      if k :| 0 <= k < |lots| && lots[k].id == d.lot {
        SumOnly(lots, k, OneDraw(d, batch, p));
      } else {
        SumZero(lots, OneDraw(d, batch, p));
      }
    }
  }

  // ---- Completing: the fold over the parts a batch takes ----

  ghost predicate TookLots(db: Db, db1: Db, need: int -> int) {
    SameLots(db.lots, db1.lots) && forall p :: LotTotal(db1.lots, p) == LotTotal(db.lots, p) - need(p)
  }

  ghost predicate TookDraws(db: Db, db1: Db, batch: int, need: int -> int) {
    && (forall b, p :: DrawnOfPart(db1.lots, db1.draws, b, p)
                    == DrawnOfPart(db.lots, db.draws, b, p) + if b == batch then need(p) else 0)
    && (forall d :: d in db1.draws ==> d in db.draws || (d.batch == batch && 0 < d.qty && InList(db.lots, d.lot)))
  }

  ghost predicate TookConsumptions(db: Db, db1: Db, batch: int, need: int -> int) {
    && (forall b, p :: Consumed(db1.consumptions, b, p)
                    == Consumed(db.consumptions, b, p) + if b == batch then need(p) else 0)
    && (forall c :: c in db1.consumptions ==>
          c in db.consumptions || (c.batch == batch && c.part in db.parts && 0 < c.qty == need(c.part)))
    && (forall c :: c in db.consumptions ==> c in db1.consumptions)
  }

  ghost predicate TookStock(db: Db, db1: Db, need: int -> int) {
    && db1 == db.(parts := db1.parts, lots := db1.lots, draws := db1.draws, consumptions := db1.consumptions)
    && db1.parts.Keys == db.parts.Keys
    && forall p :: p in db.parts ==> db1.parts[p].stock == db.parts[p].stock - need(p)
  }

  /** The difference between two states when batch `batch` has taken `need(p)` of each part p. */
  ghost predicate Took(db: Db, db1: Db, batch: int, need: int -> int) {
    TookStock(db, db1, need) && TookLots(db, db1, need) && TookDraws(db, db1, batch, need)
    && TookConsumptions(db, db1, batch, need)
  }

  ghost predicate Distinct(order: seq<int>) {
    forall i, j :: 0 <= i < j < |order| ==> order[i] != order[j]
  }

  function NeedIn(db: Db, batch: Batch, order: seq<int>): int -> int {
    (p: int) => if p in order && 0 < Demand(db, batch, p) then Demand(db, batch, p) else 0
  }

  lemma TookOneLots(db: Db, db1: Db, part: int, plan: seq<PlanStep>, qty: int, need: int -> int)
    requires LotsOk(db) && 0 < qty
    requires var takes := Greedy(Offers(FifoList(db.lots, part), plan), qty);
      Sum(takes, Taken()) == qty && db1.lots == ApplyTakes(db.lots, takes)
    requires forall p :: need(p) == if p == part then qty else 0
    ensures TookLots(db, db1, need)
    ensures DistinctLots(db1.lots) && forall l :: l in db1.lots ==> 0 < l.id < db.nextLot && l.part in db.parts && 0 <= l.remaining
  {
    forall p ensures LotTotal(db1.lots, p) == LotTotal(db.lots, p) - need(p) {
      DrawTotals(db.lots, part, plan, qty, p);
    }
    forall l | l in db1.lots ensures 0 < l.id < db.nextLot && l.part in db.parts && 0 <= l.remaining {
      var i :| 0 <= i < |db1.lots| && db1.lots[i] == l;
      assert db.lots[i] in db.lots;
      DrawLosses(db.lots, part, plan, qty, db.lots[i]);
    }
  }

  lemma TookOneDraws(db: Db, db1: Db, part: int, plan: seq<PlanStep>, qty: int, batch: int, need: int -> int)
    requires LotsOk(db) && SameLots(db.lots, db1.lots)
    requires var takes := Greedy(Offers(FifoList(db.lots, part), plan), qty);
      Sum(takes, Taken()) == qty && db1.draws == db.draws + DrawRows(batch, takes)
    requires forall p :: need(p) == if p == part then qty else 0
    ensures TookDraws(db, db1, batch, need)
  {
    var takes := Greedy(Offers(FifoList(db.lots, part), plan), qty);
    forall b, p ensures DrawnOfPart(db1.lots, db1.draws, b, p)
                     == DrawnOfPart(db.lots, db.draws, b, p) + if b == batch then need(p) else 0 {
      DrawnOfPartAfter(db.lots, db1.lots, part, plan, qty, db.draws, batch, b, p);
    }
    TakesInList(db.lots, part, plan, qty);
    forall d | d in db1.draws ensures d in db.draws || (d.batch == batch && 0 < d.qty && InList(db.lots, d.lot)) {
      if d !in db.draws {
        var k :| 0 <= k < |takes| && DrawRows(batch, takes)[k] == d;
        assert takes[k] in takes && InList(db.lots, takes[k].lot);
      }
    }
  }

  lemma TookOneConsumption(db: Db, db1: Db, part: int, qty: int, batch: int, need: int -> int)
    requires part in db.parts && 0 < qty
    requires db1.consumptions == db.consumptions + [Consumption(batch, part, qty)]
    requires forall p :: need(p) == if p == part then qty else 0
    ensures TookConsumptions(db, db1, batch, need)
  {
    forall b, p ensures Consumed(db1.consumptions, b, p)
                     == Consumed(db.consumptions, b, p) + if b == batch then need(p) else 0 {
      SumAppend(db.consumptions, Consumption(batch, part, qty), ConsumedBy(b, p));
    }
  }

  /** A draw that is not refused takes the whole quantity. */
  lemma DrawnInFull(lots: seq<Lot>, part: int, plan: seq<PlanStep>, qty: int)
    requires DistinctLots(lots) && 0 < qty
    requires qty <= Sum(Greedy(Offers(FifoList(lots, part), plan), qty), Taken())
    ensures Sum(Greedy(Offers(FifoList(lots, part), plan), qty), Taken()) == qty
  {
    hide Greedy, Offers, FifoList, Sum, DistinctLots;
    FifoFacts(lots, part);
    DrawExact(FifoList(lots, part), plan, qty);
  }

  /** Taking one part, table by table. */
  lemma TakePartShape(db: Db, batch: Batch, part: int)
    requires DistinctLots(db.lots) && part in db.parts
    requires 0 < Demand(db, batch, part) <= db.parts[part].stock && TakePart(db, batch, part).Ok?
    ensures var need := Demand(db, batch, part);
      var takes := Greedy(Offers(FifoList(db.lots, part), PlanFor(db.allocs, batch.id, part)), need);
      var db1 := TakePart(db, batch, part).value;
      && Sum(takes, Taken()) == need && db1.lots == ApplyTakes(db.lots, takes)
      && db1.draws == db.draws + DrawRows(batch.id, takes)
      && db1.consumptions == db.consumptions + [Consumption(batch.id, part, need)]
      && TookStock(db, db1, NeedIn(db, batch, [part]))
  {
    hide Greedy, Offers, FifoList, Sum, DistinctLots, ApplyTakes, DrawRows, PlanFor, Demand;
    DrawnInFull(db.lots, part, PlanFor(db.allocs, batch.id, part), Demand(db, batch, part));
  }

  lemma TakePartTook(db: Db, batch: Batch, part: int)
    requires LotsOk(db) && part in db.parts
    requires 0 < Demand(db, batch, part) <= db.parts[part].stock
    requires TakePart(db, batch, part).Ok?
    ensures Took(db, TakePart(db, batch, part).value, batch.id, NeedIn(db, batch, [part]))
    ensures LotsOk(TakePart(db, batch, part).value)
  {
    hide Greedy, Offers, FifoList, Sum, DistinctLots, ApplyTakes, DrawRows, PlanFor, Demand, TakePart,
      TookLots, TookDraws, TookConsumptions, Deduct;
    var need := Demand(db, batch, part);
    var plan := PlanFor(db.allocs, batch.id, part);
    var db1 := TakePart(db, batch, part).value;
    TakePartShape(db, batch, part);
    var needIn := NeedIn(db, batch, [part]);
    TookOneLots(db, db1, part, plan, need, needIn);
    assert SameLots(db.lots, db1.lots) by { LotsTaken(db, db1, needIn); }
    TookOneDraws(db, db1, part, plan, need, batch.id, needIn);
    TookOneConsumption(db, db1, part, need, batch.id, needIn);
  }

  lemma LotsTaken(db: Db, db1: Db, need: int -> int)
    requires TookLots(db, db1, need)
    ensures SameLots(db.lots, db1.lots) && forall p :: LotTotal(db1.lots, p) == LotTotal(db.lots, p) - need(p)
  {
  }

  lemma TookTransitive(db: Db, db1: Db, db2: Db, batch: int, f: int -> int, g: int -> int, h: int -> int)
    requires Took(db, db1, batch, f) && Took(db1, db2, batch, g)
    requires forall p :: h(p) == f(p) + g(p)
    requires forall p :: f(p) == 0 || g(p) == 0
    ensures Took(db, db2, batch, h)
  {
  }

  lemma SameNeed(db: Db, db1: Db, batch: int, f: int -> int, g: int -> int)
    requires Took(db, db1, batch, f) && forall p :: f(p) == g(p)
    ensures Took(db, db1, batch, g)
  {
  }

  /** A completion leaves the BOM, the skips and the temporary parts alone, hence every demand. */
  lemma SameDemand(db: Db, db1: Db, batch: Batch, p: int)
    requires db1.bom == db.bom && db1.skips == db.skips && db1.temps == db.temps
    ensures Demand(db1, batch, p) == Demand(db, batch, p)
  {
  }

  lemma TookKeepsDemand(db: Db, db1: Db, batch: Batch, p: int)
    requires TookStock(db, db1, NeedIn(db, batch, [p]))
    ensures forall q :: Demand(db1, batch, q) == Demand(db, batch, q)
    ensures forall q :: q in db.parts && q != p ==> db1.parts[q].stock == db.parts[q].stock
  {
    hide Demand;
    forall q ensures Demand(db1, batch, q) == Demand(db, batch, q) { SameDemand(db, db1, batch, q); }
  }

  lemma TookGivesStock(db: Db, db1: Db, batch: int, need: int -> int)
    requires Took(db, db1, batch, need)
    ensures TookStock(db, db1, need)
  {
  }

  lemma NeedSplit(db: Db, db1: Db, batch: Batch, p: int, rest: seq<int>)
    requires p !in rest && forall q :: Demand(db1, batch, q) == Demand(db, batch, q)
    ensures forall q :: NeedIn(db, batch, [p] + rest)(q) == NeedIn(db, batch, [p])(q) + NeedIn(db1, batch, rest)(q)
    ensures forall q :: NeedIn(db, batch, [p])(q) == 0 || NeedIn(db1, batch, rest)(q) == 0
  {
    hide Demand;
  }

  /** The whole fold takes exactly the demand of each listed part. */
  lemma NeedWithout(db: Db, batch: Batch, p: int, rest: seq<int>)
    requires Demand(db, batch, p) <= 0
    ensures forall q :: NeedIn(db, batch, rest)(q) == NeedIn(db, batch, [p] + rest)(q)
  {
    hide Demand;
  }

  lemma {:induction false} TakePartsTook(db: Db, batch: Batch, order: seq<int>)
    requires LotsOk(db)
    requires Distinct(order)
    requires forall p :: p in order ==> p in db.parts && Demand(db, batch, p) <= db.parts[p].stock
    requires TakeParts(db, batch, order).Ok?
    ensures Took(db, TakeParts(db, batch, order).value, batch.id, NeedIn(db, batch, order))
    ensures LotsOk(TakeParts(db, batch, order).value)
    decreases |order|
  {
    hide Took, TookStock, Demand, LotsOk, TakePart, NeedIn;
    if order == [] {
      TookNothing(db, batch);
    } else {
      var p, rest := order[0], order[1..];
      assert order == [p] + rest && p !in rest;
      if Demand(db, batch, p) <= 0 {
        TakePartsTook(db, batch, rest);
        NeedWithout(db, batch, p, rest);
        SameNeed(db, TakeParts(db, batch, rest).value, batch.id, NeedIn(db, batch, rest), NeedIn(db, batch, order));
      } else {
        TakePartTook(db, batch, p);
        var db1 := TakePart(db, batch, p).value;
        TookGivesStock(db, db1, batch.id, NeedIn(db, batch, [p]));
        TookKeepsDemand(db, db1, batch, p);
        NeedSplit(db, db1, batch, p, rest);
        TakePartsTook(db1, batch, rest);
        TookTransitive(db, db1, TakeParts(db1, batch, rest).value, batch.id,
          NeedIn(db, batch, [p]), NeedIn(db1, batch, rest), NeedIn(db, batch, order));
      }
    }
  }

  lemma TookNothing(db: Db, batch: Batch)
    ensures Took(db, db, batch.id, NeedIn(db, batch, []))
  {
  }
}
