/** The ledger as the program runs it: tables changed row by row inside transactions that roll back on error.
    Every method is proved to do exactly what Transactions says. */
module LedgerStore {
  import opened Sums
  import opened Bom
  import opened Tables
  import opened Draw
  import opened Transactions
  import opened Effects
  import opened Invariant
  import opened Revocation
  import opened Projection

  // ---- Steps of the loops ----

  /** Writing a snapshot's remainder less n is one more take, if the lot has not been taken from yet. */
  lemma OneMoreTake(lots: seq<Lot>, takes: seq<Take>, l: Lot, n: int)
    requires DistinctLots(lots) && l in lots && Sum(takes, TakenAt(l.id)) == 0
    ensures SetRemaining(ApplyTakes(lots, takes), l.id, l.remaining - n) == ApplyTakes(lots, takes + [Take(l.id, n)])
  {
    var a, b := SetRemaining(ApplyTakes(lots, takes), l.id, l.remaining - n), ApplyTakes(lots, takes + [Take(l.id, n)]);
    forall i | 0 <= i < |lots| ensures a[i] == b[i] {
      SumAppend(takes, Take(l.id, n), TakenAt(lots[i].id));
    }
  }

  lemma NotTaken(takes: seq<Take>, lot: int)
    requires forall t :: t in takes ==> t.lot != lot
    ensures Sum(takes, TakenAt(lot)) == 0
  {
    forall i | 0 <= i < |takes| ensures TakenAt(lot)(takes[i]) == 0 { assert takes[i] in takes; }
    SumZero(takes, TakenAt(lot));
  }

  function TakeOf(lot: int, n: int): seq<Take> { if n == 0 then [] else [Take(lot, n)] }

  /** One turn of the greedy fill. */
  lemma GreedyTurn(taken: seq<Take>, o: Offer, rest: seq<Offer>, left: int)
    requires 0 < left && 0 <= o.amount
    ensures var n := Min(o.amount, left);
      taken + Greedy([o] + rest, left) == (taken + TakeOf(o.lot, n)) + Greedy(rest, left - n)
  {
    assert ([o] + rest)[1..] == rest;
    var n := Min(o.amount, left);
    assert taken + (TakeOf(o.lot, n) + Greedy(rest, left - n)) == (taken + TakeOf(o.lot, n)) + Greedy(rest, left - n);
  }

  /** What the plan's turn does to the rest of the draw: a lot is used at its first mention only. */
  lemma PlanTurn(list: seq<Lot>, plan: seq<PlanStep>, i: nat, used: set<int>, taken: seq<Take>, left: int, rest: seq<Offer>)
    requires i < |plan| && 0 < left
    ensures var step := plan[i]; var found := FindLot(list, step.lot);
      var was := taken + Greedy(PlannedOffers(list, plan[i..], used) + rest, left);
      if found.Some? && step.lot !in used then
        var n := Min(OfferOf(found.value.remaining, step.qty), left);
        was == (taken + TakeOf(step.lot, n)) + Greedy(PlannedOffers(list, plan[i + 1..], used + {step.lot}) + rest, left - n)
      else was == taken + Greedy(PlannedOffers(list, plan[i + 1..], used) + rest, left)
  {
    var step := plan[i];
    var found := FindLot(list, step.lot);
    assert plan[i..][1..] == plan[i + 1..] && plan[i..][0] == step;
    if found.Some? && step.lot !in used {
      var o := Offer(step.lot, OfferOf(found.value.remaining, step.qty));
      var tail := PlannedOffers(list, plan[i + 1..], used + {step.lot});
      assert PlannedOffers(list, plan[i..], used) + rest == [o] + (tail + rest);
      GreedyTurn(taken, o, tail + rest, left);
    }
  }

  lemma FifoTurn(list: seq<Lot>, plan: seq<PlanStep>, k: nat, taken: seq<Take>, left: int)
    requires k < |list| && 0 < left
    ensures var l := list[k];
      var was := taken + Greedy(UnplannedOffers(list[k..], plan), left);
      if Named(plan, l.id) then was == taken + Greedy(UnplannedOffers(list[k + 1..], plan), left)
      else
        var n := Min(OfferOf(l.remaining, l.remaining), left);
        was == (taken + TakeOf(l.id, n)) + Greedy(UnplannedOffers(list[k + 1..], plan), left - n)
  {
    var l := list[k];
    var rest := UnplannedOffers(list[k + 1..], plan);
    assert list[k..][0] == l && list[k..][1..] == list[k + 1..];
    if Named(plan, l.id) {
      assert [] + rest == rest;
    } else {
      GreedyTurn(taken, Offer(l.id, OfferOf(l.remaining, l.remaining)), rest, left);
    }
  }

  /** The tables in the middle of a draw: `taken` is gone from the lots, recorded for the batch, `left` remains. */
  ghost predicate Drawing(lots0: seq<Lot>, draws0: seq<DrawRow>, lots: seq<Lot>, draws: seq<DrawRow>,
                          batch: Option<int>, qty: int, taken: seq<Take>, left: int) {
    && lots == ApplyTakes(lots0, taken)
    && draws == (if batch.Some? then draws0 + DrawRows(batch.value, taken) else draws0)
    && left == qty - Sum(taken, Taken()) && 0 <= left
  }

  lemma DrawingStarts(lots: seq<Lot>, draws: seq<DrawRow>, batch: Option<int>, qty: int)
    requires 0 <= qty
    ensures Drawing(lots, draws, lots, draws, batch, qty, [], qty)
  {
    assert forall j :: 0 <= j < |lots| ==> ApplyTakes(lots, [])[j] == lots[j];
    assert DrawRows(0, []) == [] && draws + [] == draws;
  }

  lemma FoundIs(list: seq<Lot>, l: Lot)
    requires DistinctIds(list) && l in list
    ensures FindLot(list, l.id) == Some(l)
  {
  }

  /** The lots used after the first `i` steps: those of the list that the steps name. */
  ghost predicate UsedSoFar(list: seq<Lot>, plan: seq<PlanStep>, i: nat, used: set<int>)
    requires i <= |plan|
  {
    && (forall id :: id in used ==> Named(plan, id))
    && (forall j :: 0 <= j < i && InList(list, plan[j].lot) ==> plan[j].lot in used)
  }

  lemma NoneUsed(list: seq<Lot>, plan: seq<PlanStep>)
    ensures UsedSoFar(list, plan, 0, {})
  {
  }

  lemma UsedNext(list: seq<Lot>, plan: seq<PlanStep>, i: nat, used: set<int>, used1: set<int>)
    requires i < |plan| && UsedSoFar(list, plan, i, used)
    requires used1 == used || used1 == used + {plan[i].lot}
    requires InList(list, plan[i].lot) ==> plan[i].lot in used1
    ensures UsedSoFar(list, plan, i + 1, used1)
  {
  }

  lemma AllUsed(list: seq<Lot>, plan: seq<PlanStep>, used: set<int>)
    requires UsedSoFar(list, plan, |plan|, used)
    ensures forall l :: l in list ==> (l.id in used <==> Named(plan, l.id))
  {
    forall l | l in list && Named(plan, l.id) ensures l.id in used {
      var j :| 0 <= j < |plan| && plan[j].lot == l.id;
      assert InList(list, plan[j].lot);
    }
  }

  // ---- Grouping a batch's draws by lot ----

  function DrawnOn(draws: seq<DrawRow>, batch: int): int -> int { (lot: int) => Drawn(draws, batch, lot) }

  /** SELECT inbound_id ... WHERE batch_id = ? GROUP BY inbound_id: each lot the batch drew from, once. */
  function DrawnLots(draws: seq<DrawRow>, batch: int): seq<int> {
    if draws == [] then []
    else
      var d := draws[|draws| - 1];
      var rest := DrawnLots(draws[..|draws| - 1], batch);
      if d.batch == batch then AddDistinct(rest, d.lot) else rest
  }

  lemma {:induction false} DrawnLotsFacts(draws: seq<DrawRow>, batch: int)
    ensures Distinct(DrawnLots(draws, batch))
    ensures forall lot :: lot !in DrawnLots(draws, batch) ==> Drawn(draws, batch, lot) == 0
    ensures Sum(DrawnLots(draws, batch), DrawnOn(draws, batch)) == Sum(draws, DrawnBy(batch))
  {
    if draws != [] {
      var init, d := draws[..|draws| - 1], draws[|draws| - 1];
      assert draws == init + [d];
      DrawnLotsFacts(init, batch);
      var was := DrawnLots(init, batch);
      forall lot ensures Drawn(draws, batch, lot) == Drawn(init, batch, lot) + DrawnAt(batch, lot)(d) {
        SumAppend(init, d, DrawnAt(batch, lot));
      }
      SumAppend(init, d, DrawnBy(batch));
      if d.batch != batch {
        SumSame(was, was, DrawnOn(init, batch), DrawnOn(draws, batch));
      } else if d.lot in was {
        var k :| 0 <= k < |was| && was[k] == d.lot;
        SumChange(was, was, k, DrawnOn(init, batch), DrawnOn(draws, batch));
      } else {
        SumAppend(was, d.lot, DrawnOn(draws, batch));
        SumSame(was, was, DrawnOn(init, batch), DrawnOn(draws, batch));
      }
    }
  }

  /** The sum over the first i + 1 rows. */
  lemma SumNext<T(!new)>(s: seq<T>, i: nat, f: T -> int)
    requires i < |s|
    ensures Sum(s[..i + 1], f) == Sum(s[..i], f) + f(s[i])
  {
    assert s[..i + 1] == s[..i] + [s[i]];
    SumAppend(s[..i], s[i], f);
  }

  lemma KeepNext<T(!new)>(s: seq<T>, i: nat, p: T -> bool)
    requires i < |s|
    ensures Keep(s[..i + 1], p) == Keep(s[..i], p) + if p(s[i]) then [s[i]] else []
  {
    assert s[..i + 1] == s[..i] + [s[i]];
    KeepConcat(s[..i], [s[i]], p);
  }

  function AddRemaining(lots: seq<Lot>, id: int, qty: int): (r: seq<Lot>)
    ensures |r| == |lots|
    ensures forall i :: 0 <= i < |r| ==>
      r[i] == if lots[i].id == id then lots[i].(remaining := lots[i].remaining + qty) else lots[i]
  {
    seq(|lots|, i requires 0 <= i < |lots| =>
      if lots[i].id == id then lots[i].(remaining := lots[i].remaining + qty) else lots[i])
  }

  /** A transaction's outcome: committed with the specified tables, or failed with the tables as before. */
  ghost predicate Outcome(spec: Result<Db>, before: Db, after: Db, r: Option<Error>) {
    match spec
    case Ok(db) => r == None && after == db
    case Err(e) => r == Some(e) && after == before
  }

  lemma DeductError(db: Db, part: int, qty: int, batch: Option<int>, plan: seq<PlanStep>)
    ensures Deduct(db, part, qty, batch, plan).Err? ==> Deduct(db, part, qty, batch, plan) == Err(LotsShort)
    ensures Deduct(db, part, qty, batch, plan).Ok? ==>
      var db1 := Deduct(db, part, qty, batch, plan).value; db1 == db.(lots := db1.lots, draws := db1.draws)
  {
  }

  lemma BomRowsOf(bom: seq<BomItem>, product: int)
    ensures forall item :: item in BomRows(bom, product) <==> item in bom && item.product == product
  {
    InOrderBy(Keep(bom, (b: BomItem) => b.product == product), (b: BomItem) => b.part);
  }

  lemma BomRowsSum(bom: seq<BomItem>, skips: set<(int, int)>, batch: Batch, p: int)
    ensures Sum(BomRows(bom, batch.product), NeedOf(skips, batch, p)) == Sum(bom, NeedOf(skips, batch, p))
  {
    var w := (b: BomItem) => b.product == batch.product;
    SumOrderBy(Keep(bom, w), (b: BomItem) => b.part, NeedOf(skips, batch, p));
    SumKeep(bom, w, NeedOf(skips, batch, p), NeedOf(skips, batch, p));
  }

  lemma CountTurn(counts: seq<Count>, i: nat, seen: set<int>)
    requires i < |counts|
    ensures var c := counts[i];
      CountError(counts[i..], seen) == (
        if c.lot <= 0 then Some(BadItem) else if c.lot in seen then Some(Duplicate)
        else if c.remaining < 0 then Some(BadQuantity) else CountError(counts[i + 1..], seen + {c.lot}))
  {
    assert counts[i..][0] == counts[i] && counts[i..][1..] == counts[i + 1..];
  }

  lemma RecountTurn(lots: seq<Lot>, part: int, counts: seq<Count>, i: nat, delta: int)
    requires i < |counts|
    ensures var c := counts[i]; var found := FindLot(lots, c.lot);
      Recount(lots, part, counts[i..], delta) == (
        if found.None? || found.value.part != part then Err(WrongLot)
        else Recount(SetRemaining(lots, c.lot, c.remaining), part, counts[i + 1..], delta + c.remaining - found.value.remaining))
  {
    assert counts[i..][0] == counts[i] && counts[i..][1..] == counts[i + 1..];
  }

  lemma NoneCounted(lots: seq<Lot>, part: int, counts: seq<Count>, seen: set<int>, delta: int)
    ensures CountError(counts[|counts|..], seen).None? && Recount(lots, part, counts[|counts|..], delta) == Ok((lots, delta))
    ensures counts[0..] == counts
  {
  }

  /** A quantity held in a map, zero when absent. */
  function Get(m: map<int, int>, p: int): int { if p in m then m[p] else 0 }

  class Ledger {
    var parts: map<int, Part>
    var lots: seq<Lot>
    var nextLot: int
    var draws: seq<DrawRow>
    var batches: seq<Batch>
    var consumptions: seq<Consumption>
    var bom: seq<BomItem>
    var skips: set<(int, int)>
    var temps: seq<TempPart>
    var traces: seq<Trace>
    var allocs: seq<Alloc>

    /** The tables as one value. */
    function View(): Db
      reads this
    {
      Db(parts, lots, nextLot, draws, batches, consumptions, bom, skips, temps, traces, allocs)
    }

    /** What the schema enforces: lot ids are the primary key, temporary quantities are positive. */
    ghost predicate Schema()
      reads this
    {
      DistinctLots(lots) && forall t :: t in temps ==> 0 < t.qty
    }

    constructor ()
      ensures View() == EMPTY_DB && Schema()
    {
      parts, lots, nextLot, draws, batches, consumptions := map[], [], 1, [], [], [];
      bom, skips, temps, traces, allocs := [], {}, [], [], [];
    }

    method Rollback(saved: Db)
      modifies this
      ensures View() == saved
    {
      parts, lots, nextLot, draws, batches := saved.parts, saved.lots, saved.nextLot, saved.draws, saved.batches;
      consumptions, bom, skips, temps := saved.consumptions, saved.bom, saved.skips, saved.temps;
      traces, allocs := saved.traces, saved.allocs;
    }

    method UpdatePartStock(part: int, stock: int)
      requires part in parts
      modifies this`parts
      ensures View() == SetStock(old(View()), part, stock)
    {
      parts := parts[part := parts[part].(stock := stock, version := parts[part].version + 1)];
    }

    method AddPartInbound(part: int, qty: int, now: int)
      modifies this`lots, this`nextLot
      ensures View() == AddLot(old(View()), part, qty, now)
    {
      lots := lots + [Lot(nextLot, part, qty, qty, now)];
      nextLot := nextLot + 1;
    }

    /** Take at most `cap` and at most `left` from one lot, writing its remainder from the snapshot `l`. */
    method TakeFrom(l: Lot, cap: int, left: int, batch: Option<int>,
                    ghost lots0: seq<Lot>, ghost draws0: seq<DrawRow>, ghost qty: int, ghost taken: seq<Take>)
      returns (rest: int)
      requires 0 < left && DistinctLots(lots0) && l in lots0
      requires Drawing(lots0, draws0, lots, draws, batch, qty, taken, left)
      requires forall t :: t in taken ==> t.lot != l.id
      modifies this`lots, this`draws
      ensures var n := Min(OfferOf(l.remaining, cap), left);
        rest == left - n && Drawing(lots0, draws0, lots, draws, batch, qty, taken + TakeOf(l.id, n), rest)
    {
      assert taken + [] == taken;
      if l.remaining <= 0 || cap <= 0 {
        return left;
      }
      var n := l.remaining;
      if n > left {
        n := left;
      }
      if n > cap {
        n := cap;
      }
      NotTaken(taken, l.id);
      OneMoreTake(lots0, taken, l, n);
      SumAppend(taken, Take(l.id, n), Taken());
      if batch.Some? {
        assert DrawRows(batch.value, taken + [Take(l.id, n)])
            == DrawRows(batch.value, taken) + [DrawRow(batch.value, l.id, n)];
      }
      lots := SetRemaining(lots, l.id, l.remaining - n);
      if batch.Some? {
        draws := draws + [DrawRow(batch.value, l.id, n)];
      }
      rest := left - n;
    }

    /** First pass: the plan's steps in order, each planned lot once and at most its planned quantity. */
    method DrawPlanned(list: seq<Lot>, plan: seq<PlanStep>, qty: int, batch: Option<int>)
      returns (left: int, used: set<int>, ghost taken: seq<Take>)
      requires DistinctLots(lots) && DistinctIds(list) && 0 < qty && forall l :: l in list ==> l in lots
      modifies this`lots, this`draws
      ensures Drawing(old(lots), old(draws), lots, draws, batch, qty, taken, left)
      ensures taken + Greedy(UnplannedOffers(list, plan), left) == Greedy(Offers(list, plan), qty)
      ensures left > 0 ==> forall l :: l in list ==> (l.id in used <==> Named(plan, l.id))
      ensures forall t :: t in taken ==> t.lot in used
    {
      hide ApplyTakes, PlannedOffers, UnplannedOffers, Greedy, Sum, Drawing, OfferOf, DistinctLots, DistinctIds, UsedSoFar, Named;
      var byId := IndexById(list);
      left, used, taken := qty, {}, [];
      ghost var others := UnplannedOffers(list, plan);
      DrawingStarts(lots, draws, batch, qty);
      NoneUsed(list, plan);
      assert plan[0..] == plan && [] + Greedy(Offers(list, plan), qty) == Greedy(Offers(list, plan), qty);
      var i := 0;
      while i < |plan| && left > 0
        invariant 0 <= i <= |plan|
        invariant Drawing(old(lots), old(draws), lots, draws, batch, qty, taken, left)
        invariant taken + Greedy(PlannedOffers(list, plan[i..], used) + others, left) == Greedy(Offers(list, plan), qty)
        invariant UsedSoFar(list, plan, i, used)
        invariant forall t :: t in taken ==> t.lot in used
      {
        var step := plan[i];
        ghost var usedBefore := used;
        PlanTurn(list, plan, i, used, taken, left, others);
        if step.lot in byId && step.lot !in used {
          var l := byId[step.lot];
          FoundIs(list, l);
          used := used + {step.lot};
          var before := left;
          left := TakeFrom(l, step.qty, left, batch, old(lots), old(draws), qty, taken);
          taken := taken + TakeOf(l.id, before - left);
        }
        UsedNext(list, plan, i, usedBefore, used);
        i := i + 1;
      }
      if left > 0 {
        AllUsed(list, plan, used);
      }
      EndOfPlan(list, plan, i, used, taken, left, Greedy(Offers(list, plan), qty));
    }

    /** Second pass: the lots the plan did not use, oldest first. */
    method DrawUnplanned(list: seq<Lot>, used: set<int>, start: int, batch: Option<int>, ghost plan: seq<PlanStep>,
                         ghost lots0: seq<Lot>, ghost draws0: seq<DrawRow>, ghost qty: int, ghost taken0: seq<Take>)
      returns (left: int)
      requires DistinctLots(lots0) && DistinctIds(list) && forall l :: l in list ==> l in lots0
      requires Drawing(lots0, draws0, lots, draws, batch, qty, taken0, start)
      requires start > 0 ==> forall l :: l in list ==> (l.id in used <==> Named(plan, l.id))
      requires forall t :: t in taken0 ==> t.lot in used
      modifies this`lots, this`draws
      ensures Drawing(lots0, draws0, lots, draws, batch, qty, taken0 + Greedy(UnplannedOffers(list, plan), start), left)
    {
      hide ApplyTakes, UnplannedOffers, Greedy, Sum, Drawing, OfferOf;
      left := start;
      ghost var taken := taken0;
      ghost var target := taken0 + Greedy(UnplannedOffers(list, plan), start);
      var k := 0;
      assert list[0..] == list;
      while k < |list| && left > 0
        invariant 0 <= k <= |list|
        invariant left > 0 ==> forall l :: l in list ==> (l.id in used <==> Named(plan, l.id))
        invariant Drawing(lots0, draws0, lots, draws, batch, qty, taken, left)
        invariant taken + Greedy(UnplannedOffers(list[k..], plan), left) == target
        invariant forall t :: t in taken ==> t.lot in used || exists j :: 0 <= j < k && list[j].id == t.lot
      {
        var l := list[k];
        FifoTurn(list, plan, k, taken, left);
        if l.id !in used {
          var before := left;
          left := TakeFrom(l, l.remaining, left, batch, lots0, draws0, qty, taken);
          taken := taken + TakeOf(l.id, before - left);
        }
        k := k + 1;
      }
      EndOfDraw(list, plan, k, taken, left, target);
    }

    /** deductPartInbound: along the plan first, then oldest first over the lots the plan did not use. */
    method DeductPartInbound(part: int, qty: int, batch: Option<int>, plan: seq<PlanStep>) returns (ok: bool)
      requires DistinctLots(lots)
      modifies this`lots, this`draws
      ensures ok <==> Deduct(old(View()), part, qty, batch, plan).Ok?
      ensures ok ==> View() == Deduct(old(View()), part, qty, batch, plan).value
    {
      hide Greedy, Drawing, ApplyTakes, Sum, FifoList, Ordered, PlannedOffers, UnplannedOffers, Offers, Deduct, DistinctIds;
      if qty <= 0 {
        NoDraw(View(), part, qty, batch, plan);
        return true;
      }
      ghost var db := View();
      var list := FifoList(lots, part);
      FifoFacts(lots, part);
      var left, used;
      ghost var lots0, draws0, taken := lots, draws, [];
      left, used, taken := DrawPlanned(list, plan, qty, batch);
      left := DrawUnplanned(list, used, left, batch, plan, lots0, draws0, qty, taken);
      DrawDone(db, View(), part, qty, batch, plan, left);
      ok := left <= 0;
    }

    /** The map from id to lot. */
    method IndexById(list: seq<Lot>) returns (byId: map<int, Lot>)
      ensures forall id :: id in byId ==> byId[id] in list && byId[id].id == id
      ensures forall l :: l in list ==> l.id in byId
    {
      byId := map[];
      for k := 0 to |list|
        invariant forall id :: id in byId ==> byId[id] in list && byId[id].id == id
        invariant forall j :: 0 <= j < k ==> list[j].id in byId
      {
        byId := byId[list[k].id := list[k]];
      }
    }

    /** restorePartInboundDraws: each lot the batch drew from gets its grouped sum back; returns the total. */
    method RestorePartInboundDraws(batch: int) returns (total: int)
      modifies this`lots, this`draws
      ensures View() == RestoreDraws(old(View()), batch)
      ensures total == Sum(old(draws), DrawnBy(batch))
    {
      var ids := DrawnLots(draws, batch);
      DrawnLotsFacts(draws, batch);
      total := 0;
      for k := 0 to |ids|
        invariant |lots| == |old(lots)| && draws == old(draws)
        invariant forall i :: 0 <= i < |lots| ==> lots[i] == old(lots)[i].(remaining :=
          old(lots)[i].remaining + if old(lots)[i].id in ids[..k] then Drawn(draws, batch, old(lots)[i].id) else 0)
        invariant total == Sum(ids[..k], DrawnOn(draws, batch))
      {
        var qty := Drawn(draws, batch, ids[k]);
        assert ids[..k + 1] == ids[..k] + [ids[k]];
        SumNext(ids, k, DrawnOn(draws, batch));
        lots := AddRemaining(lots, ids[k], qty);
        total := total + qty;
      }
      assert ids[..|ids|] == ids;
      assert lots == RestoredLots(old(lots), old(draws), batch);
      draws := Keep(draws, (d: DrawRow) => d.batch != batch);
    }

    // ---- Stock in and stocktakes ----

    method StockInPart(part: int, qty: int, now: int) returns (r: Option<Error>)
      modifies this
      ensures Outcome(StockIn(old(View()), part, qty, now), old(View()), View(), r)
    {
      if qty <= 0 {
        return Some(BadQuantity);
      }
      if part !in parts {
        return Some(NotFound);
      }
      UpdatePartStock(part, parts[part].stock + qty);
      AddPartInbound(part, qty, now);
      return None;
    }

    method AdjustStockTotal(part: int, newQty: int, now: int) returns (r: Option<Error>)
      requires DistinctLots(lots)
      modifies this
      ensures Outcome(AdjustStock(old(View()), part, newQty, now), old(View()), View(), r)
    {
      hide Deduct;
      if newQty < 0 {
        return Some(BadQuantity);
      }
      var saved := View();
      if part !in parts {
        return Some(NotFound);
      }
      var diff := newQty - parts[part].stock;
      DeductError(saved, part, -diff, None, []);
      if diff < 0 {
        var ok := DeductPartInbound(part, -diff, None, []);
        if !ok {
          Rollback(saved);
          return Some(LotsShort);
        }
      } else if diff > 0 {
        AddPartInbound(part, diff, now);
      }
      UpdatePartStock(part, newQty);
      return None;
    }

    method AdjustLots(part: int, counts: seq<Count>) returns (r: Option<Error>)
      modifies this
      ensures Outcome(AdjustInbounds(old(View()), part, counts), old(View()), View(), r)
    {
      hide CountError, Recount, FindLot;
      if |counts| == 0 {
        return Some(BadItem);
      }
      var seen: set<int> := {};
      NoneCounted(lots, part, counts, seen, 0);
      for i := 0 to |counts|
        invariant View() == old(View()) && CountError(counts[i..], seen) == CountError(counts, {})
      {
        var c := counts[i];
        CountTurn(counts, i, seen);
        if c.lot <= 0 {
          return Some(BadItem);
        }
        if c.lot in seen {
          return Some(Duplicate);
        }
        seen := seen + {c.lot};
        if c.remaining < 0 {
          return Some(BadQuantity);
        }
      }
      NoneCounted(lots, part, counts, seen, 0);
      var saved := View();
      if part !in parts {
        return Some(NotFound);
      }
      var delta := 0;
      for i := 0 to |counts|
        invariant View() == saved.(lots := lots)
        invariant Recount(lots, part, counts[i..], delta) == Recount(saved.lots, part, counts, 0)
      {
        var c := counts[i];
        RecountTurn(lots, part, counts, i, delta);
        var lot := FindLot(lots, c.lot);
        if lot.None? || lot.value.part != part {
          Rollback(saved);
          return Some(WrongLot);
        }
        delta := delta + c.remaining - lot.value.remaining;
        lots := SetRemaining(lots, c.lot, c.remaining);
      }
      NoneCounted(lots, part, counts, {}, delta);
      var newStock := parts[part].stock + delta;
      if newStock < 0 {
        Rollback(saved);
        return Some(NegativeStock);
      }
      UpdatePartStock(part, newStock);
      return None;
    }

    // ---- Completion ----

    /** What the product's BOM asks for, part by part, before anything is deducted. */
    method BomNeeds(batch: Batch) returns (order: seq<int>, needs: map<int, int>)
      ensures order == BomOrder(View(), batch, |BomRows(bom, batch.product)|)
      ensures forall p :: p in needs <==> p in order
      ensures forall p :: p in parts ==> Get(needs, p) == Sum(bom, NeedOf(skips, batch, p))
    {
      hide Sum, Consume, BomRows;
      var rows := BomRows(bom, batch.product);
      order, needs := [], map[];
      BomRowsOf(bom, batch.product);
      forall p ensures Sum(rows[..0], NeedOf(skips, batch, p)) == 0 { SumZero(rows[..0], NeedOf(skips, batch, p)); }
      for i := 0 to |rows|
        invariant order == BomOrder(View(), batch, i)
        invariant forall p :: p in needs <==> p in order
        invariant forall p :: p in parts ==> Get(needs, p) == Sum(rows[..i], NeedOf(skips, batch, p))
      {
        var item := rows[i];
        assert item in rows;
        forall p ensures Sum(rows[..i + 1], NeedOf(skips, batch, p))
          == Sum(rows[..i], NeedOf(skips, batch, p)) + NeedOf(skips, batch, p)(item) {
          SumNext(rows, i, NeedOf(skips, batch, p));
        }
        if (batch.id, item.part) !in skips && item.part in parts {
          order := AddDistinct(order, item.part);
          needs := needs[item.part := Get(needs, item.part) + Consume(batch.plan, item)];
        }
      }
      assert rows[..|rows|] == rows;
      forall p | p in parts ensures Get(needs, p) == Sum(bom, NeedOf(skips, batch, p)) { BomRowsSum(bom, skips, batch, p); }
    }

    /** ... plus the batch's temporary parts: each part's whole demand. */
    method CollectNeeds(batch: Batch) returns (order: seq<int>, needs: map<int, int>)
      requires Schema()
      ensures order == CompletionOrder(View(), batch)
      ensures forall p :: p in order ==> p in needs && needs[p] == Demand(View(), batch, p)
    {
      hide Sum, NeedOf, BomRows;
      order, needs := BomNeeds(batch);
      forall p ensures Sum(temps[..0], TempOf(batch.id, p)) == 0 { SumZero(temps[..0], TempOf(batch.id, p)); }
      for i := 0 to |temps|
        invariant order == TempOrder(View(), batch, i)
        invariant forall p :: p in needs <==> p in order
        invariant forall p :: p in parts ==>
          Get(needs, p) == Sum(bom, NeedOf(skips, batch, p)) + Sum(temps[..i], TempOf(batch.id, p))
      {
        var t := temps[i];
        assert t in temps;
        forall p ensures Sum(temps[..i + 1], TempOf(batch.id, p)) == Sum(temps[..i], TempOf(batch.id, p)) + TempOf(batch.id, p)(t) {
          SumNext(temps, i, TempOf(batch.id, p));
        }
        if t.batch == batch.id && t.qty > 0 && t.part in parts {
          order := AddDistinct(order, t.part);
          needs := needs[t.part := Get(needs, t.part) + t.qty];
        }
      }
      assert temps[..|temps|] == temps;
      CompletionOrderFacts(View(), batch);
    }

    /** The parts whose stock does not cover the need, all of them, in order. */
    method Shortages(batch: Batch, order: seq<int>, needs: map<int, int>) returns (short: seq<int>)
      requires forall p :: p in order ==> p in parts && p in needs && needs[p] == Demand(View(), batch, p)
      ensures short == Keep(order, ShortOf(View(), batch))
    {
      hide Demand;
      short := [];
      for i := 0 to |order|
        invariant short == Keep(order[..i], ShortOf(View(), batch))
      {
        var p := order[i];
        KeepNext(order, i, ShortOf(View(), batch));
        if !(needs[p] <= 0 || needs[p] <= parts[p].stock) {
          short := short + [p];
        } else {
          assert short + [] == short;
        }
      }
      assert order[..|order|] == order;
    }

    /** The needed parts without a recorded use. */
    method MissingTraces(batch: Batch, order: seq<int>, needs: map<int, int>) returns (missing: seq<int>)
      requires forall p :: p in order ==> p in needs && needs[p] == Demand(View(), batch, p)
      ensures missing == Keep(order, UnrecordedOf(View(), batch))
    {
      hide Demand;
      missing := [];
      for i := 0 to |order|
        invariant missing == Keep(order[..i], UnrecordedOf(View(), batch))
      {
        var p := order[i];
        KeepNext(order, i, UnrecordedOf(View(), batch));
        if !(needs[p] <= 0 || HasTrace(traces, batch.id, p)) {
          missing := missing + [p];
        } else {
          assert missing + [] == missing;
        }
      }
      assert order[..|order|] == order;
    }

    /** Take one part's need, from the stock read before the loop. */
    method TakeOne(batch: Batch, part: int, need: int, stock: int) returns (ok: bool)
      requires DistinctLots(lots) && part in parts && stock == parts[part].stock
      requires need == Demand(View(), batch, part)
      modifies this`parts, this`lots, this`draws, this`consumptions
      ensures ok <==> TakePart(old(View()), batch, part).Ok?
      ensures !ok ==> TakePart(old(View()), batch, part) == Err(LotsShort)
      ensures ok ==> View() == TakePart(old(View()), batch, part).value
    {
      hide Demand, Deduct;
      ghost var db := SetStock(View(), part, if stock - need < 0 then 0 else stock - need);
      DeductError(db, part, need, Some(batch.id), PlanFor(allocs, batch.id, part));
      var newStock := stock - need;
      if newStock < 0 {
        newStock := 0;
      }
      UpdatePartStock(part, newStock);
      ok := DeductPartInbound(part, need, Some(batch.id), PlanFor(allocs, batch.id, part));
      if ok {
        consumptions := consumptions + [Consumption(batch.id, part, need)];
      }
    }

    /** Deduct every needed part; refused as soon as a part's lots cannot give enough. */
    method TakeAll(batch: Batch, order: seq<int>, needs: map<int, int>) returns (ok: bool)
      requires DistinctLots(lots) && Distinct(order)
      requires forall p :: p in order ==> p in parts && p in needs && needs[p] == Demand(View(), batch, p)
      modifies this`parts, this`lots, this`draws, this`consumptions
      ensures ok <==> TakeParts(old(View()), batch, order).Ok?
      ensures !ok ==> TakeParts(old(View()), batch, order) == Err(LotsShort)
      ensures ok ==> View() == TakeParts(old(View()), batch, order).value
    {
      hide Demand, TakePart;
      var stocks := map p | p in order :: parts[p].stock;
      ghost var before := View();
      assert order[0..] == order;
      for k := 0 to |order|
        invariant DistinctLots(lots) && View().parts.Keys == before.parts.Keys
        invariant View() == before.(parts := parts, lots := lots, draws := draws, consumptions := consumptions)
        invariant forall j :: k <= j < |order| ==> order[j] in parts && parts[order[j]].stock == stocks[order[j]]
        invariant TakeParts(View(), batch, order[k..]) == TakeParts(before, batch, order)
      {
        var p := order[k];
        assert p in order && order[k..][0] == p && order[k..][1..] == order[k + 1..];
        SameDemand(before, View(), batch, p);
        if needs[p] > 0 {
          ghost var db := View();
          if TakePart(db, batch, p).Ok? {
            TakenOne(db, batch, p);
          }
          ok := TakeOne(batch, p, needs[p], stocks[p]);
          if !ok {
            return;
          }
        }
      }
      ok := true;
    }

    method CheckBom(batch: Batch) returns (valid: bool)
      ensures valid <==> forall item :: item in bom && item.product == batch.product ==> ValidBomItem(item)
    {
      var rows := BomRows(bom, batch.product);
      BomRowsOf(bom, batch.product);
      for i := 0 to |rows|
        invariant forall j :: 0 <= j < i ==> ValidBomItem(rows[j])
      {
        if !ValidBomItem(rows[i]) {
          assert rows[i] in rows;
          return false;
        }
      }
      valid := true;
    }

    /** UpdateBatchStatus for completion: every check first, then the deductions, then the batch row. */
    method CompleteBatch(batch: Batch) returns (r: Option<Error>)
      requires Schema()
      modifies this
      ensures match TakeChecked(old(View()), batch)
        case Ok(db) => r == None && View() == db.(batches := SetBatch(db.batches, batch.id, batch.(produced := batch.plan, recorded := true)))
        case Err(e) => r == Some(e) && View() == old(View())
    {
      hide Demand, TakeParts, ValidBomItem, CompletionOrder, ShortOf, UnrecordedOf;
      if batch.plan <= 0 {
        return Some(BadPlan);
      }
      var valid := CheckBom(batch);
      if !valid {
        return Some(BadBom);
      }
      var order, needs := CollectNeeds(batch);
      CompletionOrderFacts(View(), batch);
      var short := Shortages(batch, order, needs);
      if |short| > 0 {
        return Some(Shortage(short));
      }
      var missing := MissingTraces(batch, order, needs);
      if |missing| > 0 {
        return Some(TraceMissing(missing));
      }
      var saved := View();
      var ok := TakeAll(batch, order, needs);
      if !ok {
        Rollback(saved);
        return Some(LotsShort);
      }
      batches := SetBatch(batches, batch.id, batch.(produced := batch.plan));
      batches := SetBatch(batches, batch.id, batch.(produced := batch.plan, recorded := true));
      r := None;
    }

    method UpdateBatchStatus(id: int, status: int) returns (r: Option<Error>)
      requires Schema()
      modifies this
      ensures Outcome(ChangeStatus(old(View()), id, status), old(View()), View(), r)
    {
      hide CompletionError, TakeParts;
      var found := FindBatch(batches, id);
      if found.None? {
        return Some(NotFound);
      }
      var batch := found.value;
      if batch.status == REVOKED {
        return Some(AlreadyRevoked);
      }
      if status < 0 || status > 3 {
        return Some(BadStatus);
      }
      if batch.status == COMPLETED {
        return Some(Closed);
      }
      var row := batch.(status := status);
      if status == COMPLETED {
        r := CompleteBatch(batch);
        if r.Some? {
          return;
        }
        row := batch.(produced := batch.plan, recorded := true, status := status);
      }
      batches := SetBatch(batches, id, row);
      r := None;
    }

    // ---- Revocation ----

    /** Give back one frozen row: the stock, then all the batch's draws, then any gap as a new lot. */
    method GiveBack(batch: int, row: Consumption, now: int)
      modifies this
      ensures View() == RestoreRow(old(View()), batch, row, now)
    {
      if row.qty <= 0 || row.part !in parts {
        return;
      }
      UpdatePartStock(row.part, parts[row.part].stock + row.qty);
      var restored := RestorePartInboundDraws(batch);
      var gap := row.qty - restored;
      if gap > 0 {
        AddPartInbound(row.part, gap, now);
      }
    }

    method RevokeBatch(id: int, now: int) returns (r: Option<Error>)
      modifies this
      ensures Outcome(Revoke(old(View()), id, now), old(View()), View(), r)
    {
      var found := FindBatch(batches, id);
      if found.None? {
        return Some(NotFound);
      }
      var batch := found.value;
      if batch.status == REVOKED {
        return Some(AlreadyRevoked);
      }
      if batch.status == COMPLETED {
        if !batch.recorded {
          return Some(NotRecorded);
        }
        var rows := ConsumptionRows(consumptions, id);
        ghost var before := View();
        assert rows[0..] == rows;
        for k := 0 to |rows|
          invariant RestoreRows(View(), id, rows[k..], now) == RestoreRows(before, id, rows, now)
        {
          assert rows[k..][0] == rows[k] && rows[k..][1..] == rows[k + 1..];
          GiveBack(id, rows[k], now);
        }
      }
      batches := SetBatch(batches, id, batch.(status := REVOKED));
      r := None;
    }

    // ---- Skipped and temporary parts ----

    method DeletePartTrace(batch: int, part: int)
      modifies this`allocs, this`traces
      ensures View() == DropTrace(old(View()), batch, part)
    {
      allocs := Keep(allocs, (a: Alloc) => !(a.batch == batch && a.part == part));
      traces := Keep(traces, (t: Trace) => !(t.batch == batch && t.part == part));
    }

    method SkipPart(batch: int, part: int) returns (r: Option<Error>)
      modifies this
      ensures Outcome(AddSkipPart(old(View()), batch, part), old(View()), View(), r)
    {
      r := EditError(View(), batch, part);
      if r.Some? {
        return;
      }
      skips := skips + {(batch, part)};
      DeletePartTrace(batch, part);
    }

    method DropTempPart(batch: int, part: int) returns (r: Option<Error>)
      modifies this
      ensures Outcome(RemoveTempPart(old(View()), batch, part), old(View()), View(), r)
    {
      r := EditError(View(), batch, part);
      if r.Some? {
        return;
      }
      temps := Keep(temps, (t: TempPart) => !(t.batch == batch && t.part == part));
      DeletePartTrace(batch, part);
    }

    // ---- The projection ----

    /** batchConsumption: one product's BOM for a plan, less the skipped parts. */
    method BatchConsumption(batch: Batch, skipped: set<(int, int)>) returns (out: map<int, int>)
      ensures forall p :: Get(out, p) == Sum(bom, NeedOf(skipped, batch, p))
    {
      hide Sum, Consume, BomRows;
      var rows := BomRows(bom, batch.product);
      out := map[];
      BomRowsOf(bom, batch.product);
      forall p ensures Sum(rows[..0], NeedOf(skipped, batch, p)) == 0 { SumZero(rows[..0], NeedOf(skipped, batch, p)); }
      for i := 0 to |rows|
        invariant forall p :: Get(out, p) == Sum(rows[..i], NeedOf(skipped, batch, p))
      {
        var item := rows[i];
        assert item in rows;
        forall p ensures Sum(rows[..i + 1], NeedOf(skipped, batch, p))
          == Sum(rows[..i], NeedOf(skipped, batch, p)) + NeedOf(skipped, batch, p)(item) {
          SumNext(rows, i, NeedOf(skipped, batch, p));
        }
        if (batch.id, item.part) !in skipped {
          var q := Consume(batch.plan, item);
          if q != 0 {
            out := out[item.part := Get(out, item.part) + q];
          }
        }
      }
      assert rows[..|rows|] == rows;
      forall p ensures Get(out, p) == Sum(bom, NeedOf(skipped, batch, p)) { BomRowsSum(bom, skipped, batch, p); }
    }

    /** A batch's whole demand: its BOM, then its temporary parts on top. */
    method BatchDemand(batch: Batch) returns (out: map<int, int>)
      ensures forall p :: Get(out, p) == Demand(View(), batch, p)
    {
      hide Sum, NeedOf;
      out := BatchConsumption(batch, skips);
      forall p ensures Sum(temps[..0], TempOf(batch.id, p)) == 0 { SumZero(temps[..0], TempOf(batch.id, p)); }
      for i := 0 to |temps|
        invariant forall p :: Get(out, p) == Sum(bom, NeedOf(skips, batch, p)) + Sum(temps[..i], TempOf(batch.id, p))
      {
        var t := temps[i];
        forall p ensures Sum(temps[..i + 1], TempOf(batch.id, p)) == Sum(temps[..i], TempOf(batch.id, p)) + TempOf(batch.id, p)(t) {
          SumNext(temps, i, TempOf(batch.id, p));
        }
        if t.batch == batch.id {
          out := out[t.part := Get(out, t.part) + t.qty];
        }
      }
      assert temps[..|temps|] == temps;
    }

    /** Add one batch's demands to the running totals, part by part in any order. */
    method AddDemands(total: map<int, int>, demand: map<int, int>) returns (out: map<int, int>)
      ensures forall p :: Get(out, p) == Get(total, p) + Get(demand, p)
    {
      out := total;
      var todo := demand.Keys;
      while todo != {}
        invariant todo <= demand.Keys
        invariant forall p :: Get(out, p) == Get(total, p) + if p in todo then 0 else Get(demand, p)
        decreases |todo|
      {
        assert exists p :: p in todo by {
          if forall p :: p !in todo {
            assert false;
          }
        }
        var p :| p in todo;
        out := out[p := Get(out, p) + demand[p]];
        todo := todo - {p};
      }
    }

    /** commitmentsAndPlans: what the open batches other than `except` claim of every part. */
    method Commitments(except: int) returns (committed: map<int, int>)
      ensures forall p :: Get(committed, p) == Committed(View(), except, p)
    {
      hide Sum, Demand;
      committed := map[];
      forall p ensures Sum(batches[..0], OpenDemand(View(), except, p)) == 0 { SumZero(batches[..0], OpenDemand(View(), except, p)); }
      for i := 0 to |batches|
        invariant forall p :: Get(committed, p) == Sum(batches[..i], OpenDemand(View(), except, p))
      {
        var b := batches[i];
        forall p ensures Sum(batches[..i + 1], OpenDemand(View(), except, p))
          == Sum(batches[..i], OpenDemand(View(), except, p)) + OpenDemand(View(), except, p)(b) {
          SumNext(batches, i, OpenDemand(View(), except, p));
        }
        if b.id != except && IsOpen(b.status) {
          var demand := BatchDemand(b);
          committed := AddDemands(committed, demand);
        }
      }
      assert batches[..|batches|] == batches;
    }

    /** StockProjection: the stock of every claimed part after all open batches, and after the batch being
        planned when the form gives one. */
    method StockProjection(product: int, plan: int) returns (after: map<int, int>)
      ensures forall p :: p in after ==> p in parts
      ensures forall p :: p in after ==>
        after[p] == After(View(), p) - if product > 0 && plan > 0 then PreviewNeed(View(), product, plan, p) else 0
      ensures forall p :: p in parts && p !in after ==>
        Committed(View(), 0, p) + (if product > 0 && plan > 0 then PreviewNeed(View(), product, plan, p) else 0) == 0
    {
      hide Sum, Demand, NeedOf, Committed;
      var committed := Commitments(0);
      if product > 0 && plan > 0 {
        var preview := BatchConsumption(Batch(0, product, plan, 0, PENDING, false), {});
        committed := AddDemands(committed, preview);
      }
      after := map[];
      var todo := parts.Keys;
      while todo != {}
        invariant todo <= parts.Keys
        invariant forall p :: p in after <==> p in parts && p !in todo && p in committed
        invariant forall p :: p in after ==> after[p] == parts[p].stock - committed[p]
        decreases |todo|
      {
        assert exists p :: p in todo by {
          if forall p :: p !in todo {
            assert false;
          }
        }
        var p :| p in todo;
        if p in committed {
          after := after[p := parts[p].stock - committed[p]];
        }
        todo := todo - {p};
      }
    }

    method PutTempPart(batch: int, part: int, qty: int) returns (r: Option<Error>)
      modifies this
      ensures Outcome(AddTempPart(old(View()), batch, part, qty), old(View()), View(), r)
    {
      hide Committed;
      if qty <= 0 {
        return Some(BadQuantity);
      }
      var committed := Commitments(0);
      r := EditError(View(), batch, part);
      if r.Some? {
        return;
      }
      var oldQty := 0;
      for i := 0 to |temps|
        invariant oldQty == OldTemp(temps[..i], batch, part)
      {
        assert temps[..i + 1][..i] == temps[..i];
        if temps[i].batch == batch && temps[i].part == part {
          oldQty := temps[i].qty;
        }
      }
      assert temps[..|temps|] == temps;
      var after := parts[part].stock - Get(committed, part) + oldQty - qty;
      if after < 0 {
        return Some(WouldRunShort(after));
      }
      var product := FindBatch(batches, batch).value.product;
      for i := 0 to |bom|
        invariant forall j :: 0 <= j < i ==> !(bom[j].product == product && bom[j].part == part)
      {
        if bom[i].product == product && bom[i].part == part {
          assert bom[i] in bom;
          return Some(InBom);
        }
      }
      temps := UpsertTemp(temps, batch, part, qty);
      r := None;
    }

    // ---- Recording traces ----

    /** replacePartTrace: delete the old record and its plan, insert the new record, then its steps in order. */
    method ReplacePartTrace(t: TraceInput)
      modifies this`traces, this`allocs
      ensures View() == ReplaceTrace(old(View()), t)
    {
      DeletePartTrace(t.batch, t.part);
      traces := traces + [Trace(t.batch, t.part, t.used)];
      ghost var kept := allocs;
      ghost var before := View();
      ghost var rows := AllocRows(t.batch, t.part, t.allocs);
      assert kept + rows[..0] == kept;
      for i := 0 to |t.allocs|
        invariant View() == before.(allocs := kept + rows[..i])
      {
        assert kept + rows[..i + 1] == kept + rows[..i] + [rows[i]];
        allocs := allocs + [Alloc(t.batch, t.part, t.allocs[i].lot, t.allocs[i].qty, i)];
      }
      assert rows[..|rows|] == rows;
    }

    /** The request check, record by record and step by step. */
    method CheckInputs(inputs: seq<TraceInput>) returns (r: Option<Error>)
      ensures r == TraceError(inputs, {})
    {
      var seen: set<(int, int)> := {};
      for i := 0 to |inputs|
        invariant TraceError(inputs[i..], seen) == TraceError(inputs, {})
      {
        var t := inputs[i];
        assert inputs[i..][0] == t && inputs[i..][1..] == inputs[i + 1..];
        if t.batch <= 0 || t.part <= 0 {
          return Some(BadItem);
        }
        if t.used <= 0 {
          return Some(BadQuantity);
        }
        if (t.batch, t.part) in seen {
          return Some(Duplicate);
        }
        var total;
        r, total := CheckSteps(t.allocs);
        if r.Some? {
          return;
        }
        if total > t.used {
          return Some(OverAllocated);
        }
        seen := seen + {(t.batch, t.part)};
      }
      r := None;
    }

    method CheckSteps(steps: seq<PlanStep>) returns (r: Option<Error>, total: int)
      ensures r == AllocError(steps, {})
      ensures r == None ==> total == Sum(steps, Planned())
    {
      total := 0;
      var seen: set<int> := {};
      for j := 0 to |steps|
        invariant AllocError(steps[j..], seen) == AllocError(steps, {})
        invariant total == Sum(steps[..j], Planned())
      {
        var a := steps[j];
        assert steps[j..][0] == a && steps[j..][1..] == steps[j + 1..];
        SumNext(steps, j, Planned());
        if a.lot <= 0 {
          return Some(BadItem), total;
        }
        if a.qty <= 0 {
          return Some(BadQuantity), total;
        }
        if a.lot in seen {
          return Some(Duplicate), total;
        }
        seen := seen + {a.lot};
        total := total + a.qty;
      }
      assert steps[..|steps|] == steps;
      r := None;
    }

    /** Every planned lot exists, is of the part, and has enough available. */
    method CheckLots(batch: int, part: int, steps: seq<PlanStep>) returns (r: Option<Error>)
      ensures r == LotError(View(), batch, part, steps)
    {
      for j := 0 to |steps|
        invariant LotError(View(), batch, part, steps[j..]) == LotError(View(), batch, part, steps)
      {
        var a := steps[j];
        assert steps[j..][0] == a && steps[j..][1..] == steps[j + 1..];
        var found := FindLot(lots, a.lot);
        if found.None? {
          return Some(NotFound);
        }
        if found.value.part != part {
          return Some(WrongLot);
        }
        var own := Sum(allocs, AllocOn(batch, a.lot));
        var others := Sum(allocs, OthersOn(batches, batch, a.lot));
        if a.qty > found.value.remaining + own - others {
          return Some(OverAllocated);
        }
      }
      r := None;
    }

    method RecordTraceInputs(inputs: seq<TraceInput>) returns (r: Option<Error>)
      modifies this
      ensures Outcome(RecordTraces(old(View()), inputs), old(View()), View(), r)
    {
      hide LotError, ReplaceTrace, TraceError;
      r := CheckInputs(inputs);
      if r.Some? {
        return;
      }
      var saved := View();
      assert inputs[0..] == inputs;
      for i := 0 to |inputs|
        invariant RecordAll(View(), inputs[i..]) == RecordAll(saved, inputs)
      {
        var t := inputs[i];
        assert inputs[i..][0] == t && inputs[i..][1..] == inputs[i + 1..];
        r := EditError(View(), t.batch, t.part);
        if r.Some? {
          Rollback(saved);
          return;
        }
        if (t.batch, t.part) in skips && !HasTemp(temps, t.batch, t.part) {
          Rollback(saved);
          return Some(Skipped);
        }
        r := CheckLots(t.batch, t.part, t.allocs);
        if r.Some? {
          Rollback(saved);
          return;
        }
        ReplacePartTrace(t);
      }
      r := None;
    }
  }

  /** A completion's checks and deductions, before the batch row is written. */
  function TakeChecked(db: Db, batch: Batch): Result<Db> {
    if CompletionError(db, batch).Some? then Err(CompletionError(db, batch).value)
    else TakeParts(db, batch, CompletionOrder(db, batch))
  }

  /** Taking one part leaves the other parts' rows and every lot id alone. */
  lemma TakenOne(db: Db, batch: Batch, p: int)
    requires DistinctLots(db.lots) && p in db.parts && TakePart(db, batch, p).Ok?
    ensures var db1 := TakePart(db, batch, p).value;
      && DistinctLots(db1.lots) && db1.parts.Keys == db.parts.Keys
      && db1 == db.(parts := db1.parts, lots := db1.lots, draws := db1.draws, consumptions := db1.consumptions)
      && forall q :: q in db.parts && q != p ==> db1.parts[q] == db.parts[q]
  {
    hide Demand;
  }

  /** The plan is used up, or nothing is left to draw: what remains of the draw is the unplanned part. */
  lemma EndOfPlan(list: seq<Lot>, plan: seq<PlanStep>, i: nat, used: set<int>, taken: seq<Take>, left: int, target: seq<Take>)
    requires i <= |plan| && (i == |plan| || left <= 0)
    requires taken + Greedy(PlannedOffers(list, plan[i..], used) + UnplannedOffers(list, plan), left) == target
    ensures taken + Greedy(UnplannedOffers(list, plan), left) == target
  {
    if left > 0 {
      assert plan[i..] == [] && [] + UnplannedOffers(list, plan) == UnplannedOffers(list, plan);
    }
  }

  lemma EndOfDraw(list: seq<Lot>, plan: seq<PlanStep>, k: nat, taken: seq<Take>, left: int, target: seq<Take>)
    requires k <= |list| && (k == |list| || left <= 0)
    requires taken + Greedy(UnplannedOffers(list[k..], plan), left) == target
    ensures taken == target
  {
    assert taken + [] == taken;
    if left > 0 {
      assert list[k..] == [];
    }
  }

  /** The two passes together are the specified draw. */
  lemma DrawDone(db: Db, db1: Db, part: int, qty: int, batch: Option<int>, plan: seq<PlanStep>, left: int)
    requires 0 < qty && db1 == db.(lots := db1.lots, draws := db1.draws)
    requires Drawing(db.lots, db.draws, db1.lots, db1.draws, batch, qty, Greedy(Offers(FifoList(db.lots, part), plan), qty), left)
    ensures left <= 0 <==> Deduct(db, part, qty, batch, plan).Ok?
    ensures left <= 0 ==> db1 == Deduct(db, part, qty, batch, plan).value
  {
    hide Greedy, Offers, FifoList, Sum, ApplyTakes, DrawRows;
  }

  lemma NoDraw(db: Db, part: int, qty: int, batch: Option<int>, plan: seq<PlanStep>)
    requires qty <= 0
    ensures Deduct(db, part, qty, batch, plan) == Ok(db)
  {
  }
}
