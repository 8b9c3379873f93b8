/** When a completion whose checks all pass is still refused: a part's planned lots hold back too much. */
module Refusals {
  import opened Sums
  import opened Bom
  import opened Tables
  import opened Draw
  import opened Transactions
  import opened Effects
  import opened Invariant
  import opened Runs

  // ---- What a part's lots give a batch ----

  function GiveOf(part: int, plan: seq<PlanStep>): Lot -> int { (l: Lot) => if l.part == part then CapOf(plan)(l) else 0 }

  function HeldOf(part: int, plan: seq<PlanStep>): Lot -> int { (l: Lot) => if l.part == part then HeldBack(plan)(l) else 0 }

  /** The most a completion of `batch` can draw of a part, along the plan recorded for it. */
  function Gives(db: Db, batch: Batch, part: int): int { Sum(db.lots, GiveOf(part, PlanFor(db.allocs, batch.id, part))) }

  /** What the planned lots of a part hold beyond their plan, and so keep. */
  function HeldBackFrom(db: Db, batch: Batch, part: int): int {
    Sum(db.lots, HeldOf(part, PlanFor(db.allocs, batch.id, part)))
  }

  lemma GivesTheRest(db: Db, batch: Batch, part: int)
    ensures Gives(db, batch, part) == LotTotal(db.lots, part) - HeldBackFrom(db, batch, part)
  {
    var plan := PlanFor(db.allocs, batch.id, part);
    forall i | 0 <= i < |db.lots|
      ensures LotOf(part)(db.lots[i]) == GiveOf(part, plan)(db.lots[i]) + HeldOf(part, plan)(db.lots[i])
    {
      assert HeldBack(plan)(db.lots[i]) == db.lots[i].remaining - CapOf(plan)(db.lots[i]);
    }
    SumAdd(db.lots, db.lots, GiveOf(part, plan), HeldOf(part, plan), LotOf(part));
  }

  /** Without a plan nothing is held back. */
  lemma NoPlanHoldsNothing(db: Db, batch: Batch, part: int)
    requires LotsOk(db) && PlanFor(db.allocs, batch.id, part) == []
    ensures HeldBackFrom(db, batch, part) == 0
  {
    forall i | 0 <= i < |db.lots| ensures HeldOf(part, [])(db.lots[i]) == 0 {
      var l := db.lots[i];
      assert l in db.lots && !Named([], l.id);
      assert CapOf([])(l) == OfferOf(l.remaining, l.remaining) == l.remaining;
      assert HeldBack([])(l) == 0;
    }
    SumZero(db.lots, HeldOf(part, []));
  }

  /** A draw succeeds exactly when the lots give enough. */
  lemma DeductOkIff(db: Db, part: int, qty: int, batch: Option<int>, plan: seq<PlanStep>)
    requires LotsOk(db) && 0 < qty
    ensures Deduct(db, part, qty, batch, plan).Ok? <==> qty <= Sum(db.lots, GiveOf(part, plan))
    ensures Deduct(db, part, qty, batch, plan).Err? ==> Deduct(db, part, qty, batch, plan) == Err(LotsShort)
  {
    FifoFacts(db.lots, part);
    DrawExact(FifoList(db.lots, part), plan, qty);
    FifoSum(db.lots, part, CapOf(plan), GiveOf(part, plan));
  }

  lemma TakePartOkIff(db: Db, batch: Batch, part: int)
    requires LotsOk(db) && part in db.parts && 0 < Demand(db, batch, part)
    ensures TakePart(db, batch, part).Ok? <==> Demand(db, batch, part) <= Gives(db, batch, part)
    ensures TakePart(db, batch, part).Err? ==> TakePart(db, batch, part) == Err(LotsShort)
  {
    hide Deduct;
    var need := Demand(db, batch, part);
    var left := db.parts[part].stock - need;
    var db0 := SetStock(db, part, if left < 0 then 0 else left);
    DeductOkIff(db0, part, need, Some(batch.id), PlanFor(db.allocs, batch.id, part));
  }

  /** Taking one part does not touch the lots of another. */
  lemma OtherLotsStay(db: Db, batch: Batch, part: int)
    requires LotsOk(db) && TakePart(db, batch, part).Ok?
    ensures var db1 := TakePart(db, batch, part).value;
      && db1.allocs == db.allocs && |db1.lots| == |db.lots|
      && (forall i :: 0 <= i < |db.lots| ==> db1.lots[i].part == db.lots[i].part)
      && (forall i :: 0 <= i < |db.lots| && db.lots[i].part != part ==> db1.lots[i] == db.lots[i])
  {
    hide Offers, Greedy, Demand, FifoList, Sum;
    var plan := PlanFor(db.allocs, batch.id, part);
    forall i | 0 <= i < |db.lots| && db.lots[i].part != part
      ensures Loss(FifoList(db.lots, part), plan, Demand(db, batch, part), db.lots[i].id) == 0
    {
      assert db.lots[i] in db.lots;
      DrawLosses(db.lots, part, plan, Demand(db, batch, part), db.lots[i]);
    }
  }

  /** Taking one part leaves what the others can give. */
  lemma OthersStillGive(db: Db, batch: Batch, part: int, p: int)
    requires LotsOk(db) && TakePart(db, batch, part).Ok? && p != part
    ensures Gives(TakePart(db, batch, part).value, batch, p) == Gives(db, batch, p)
  {
    var db1 := TakePart(db, batch, part).value;
    OtherLotsStay(db, batch, part);
    hide TakePart, CapOf, LotsOk, PlanFor, Sum;
    var plan := PlanFor(db.allocs, batch.id, p);
    forall i | 0 <= i < |db.lots| ensures GiveOf(p, plan)(db.lots[i]) == GiveOf(p, plan)(db1.lots[i]) {
      GivesAlike(db.lots[i], db1.lots[i], p, plan, part);
    }
    SumSame(db.lots, db1.lots, GiveOf(p, plan), GiveOf(p, plan));
  }

  lemma GivesAlike(l: Lot, l1: Lot, p: int, plan: seq<PlanStep>, part: int)
    requires l1.part == l.part && (l.part != part ==> l1 == l) && p != part
    ensures GiveOf(p, plan)(l) == GiveOf(p, plan)(l1)
  {
  }

  /** Some part of the list is demanded beyond what its lots give. */
  ghost predicate Falters(db: Db, batch: Batch, order: seq<int>) {
    exists p :: p in order && 0 < Demand(db, batch, p) && Gives(db, batch, p) < Demand(db, batch, p)
  }

  lemma FaltersStep(db: Db, batch: Batch, order: seq<int>)
    requires order != [] && LotsOk(db) && Distinct(order) && order[0] in db.parts
    requires Demand(db, batch, order[0]) <= db.parts[order[0]].stock
    ensures Demand(db, batch, order[0]) <= 0 ==> (Falters(db, batch, order) <==> Falters(db, batch, order[1..]))
    ensures 0 < Demand(db, batch, order[0]) && TakePart(db, batch, order[0]).Ok? ==>
      (Falters(db, batch, order) <==> Falters(TakePart(db, batch, order[0]).value, batch, order[1..]))
  {
    hide Demand, Gives, TakePart, Took, TookStock;
    var p, rest := order[0], order[1..];
    assert order == [p] + rest && p !in rest;
    if 0 < Demand(db, batch, p) && TakePart(db, batch, p).Ok? {
      var db1 := TakePart(db, batch, p).value;
      TakePartOkIff(db, batch, p);
      TakePartTook(db, batch, p);
      TookGivesStock(db, db1, batch.id, NeedIn(db, batch, [p]));
      TookKeepsDemand(db, db1, batch, p);
      forall q | q in rest ensures Gives(db1, batch, q) == Gives(db, batch, q) { OthersStillGive(db, batch, p, q); }
    }
  }

  /** The first part's turn: taken and the rest goes on, passed over, or refused. */
  lemma TakePartsFirst(db: Db, batch: Batch, order: seq<int>)
    requires order != [] && LotsOk(db) && order[0] in db.parts
    ensures Demand(db, batch, order[0]) <= 0 ==> TakeParts(db, batch, order) == TakeParts(db, batch, order[1..])
    ensures 0 < Demand(db, batch, order[0]) && TakePart(db, batch, order[0]).Ok? ==>
      TakeParts(db, batch, order) == TakeParts(TakePart(db, batch, order[0]).value, batch, order[1..])
    ensures 0 < Demand(db, batch, order[0]) && TakePart(db, batch, order[0]).Err? ==>
      TakeParts(db, batch, order) == Err(LotsShort) && Falters(db, batch, order)
  {
    hide Demand, TakePart, Gives;
    if 0 < Demand(db, batch, order[0]) {
      TakePartOkIff(db, batch, order[0]);
    }
  }

  ghost predicate NeedsFit(db: Db, batch: Batch, order: seq<int>) {
    forall p :: p in order ==> p in db.parts && Demand(db, batch, p) <= db.parts[p].stock
  }

  lemma NeedsStillFit(db: Db, batch: Batch, order: seq<int>)
    requires order != [] && LotsOk(db) && Distinct(order) && NeedsFit(db, batch, order)
    ensures Distinct(order[1..]) && NeedsFit(db, batch, order[1..])
    ensures order[0] in db.parts && Demand(db, batch, order[0]) <= db.parts[order[0]].stock
    ensures 0 < Demand(db, batch, order[0]) && TakePart(db, batch, order[0]).Ok? ==>
      LotsOk(TakePart(db, batch, order[0]).value) && NeedsFit(TakePart(db, batch, order[0]).value, batch, order[1..])
  {
    hide Demand, TakePart, Took, TookStock, LotsOk;
    var p, rest := order[0], order[1..];
    assert order == [p] + rest && p !in rest && p in order;
    if 0 < Demand(db, batch, p) && TakePart(db, batch, p).Ok? {
      var db1 := TakePart(db, batch, p).value;
      TakePartTook(db, batch, p);
      TookGivesStock(db, db1, batch.id, NeedIn(db, batch, [p]));
      TookKeepsDemand(db, db1, batch, p);
      SameParts(db, db1, NeedIn(db, batch, [p]));
    }
  }

  lemma SameParts(db: Db, db1: Db, need: int -> int)
    requires TookStock(db, db1, need)
    ensures db1.parts.Keys == db.parts.Keys
  {
  }

  lemma {:induction false} TakePartsRefusedIff(db: Db, batch: Batch, order: seq<int>)
    requires LotsOk(db) && Distinct(order) && NeedsFit(db, batch, order)
    ensures TakeParts(db, batch, order).Err? <==> Falters(db, batch, order)
    ensures TakeParts(db, batch, order).Err? ==> TakeParts(db, batch, order) == Err(LotsShort)
    decreases |order|
  {
    if order != [] {
      hide Demand, Falters, Gives, TakePart, TakeParts, LotsOk, NeedsFit, Distinct;
      var p, rest := order[0], order[1..];
      NeedsStillFit(db, batch, order);
      FaltersStep(db, batch, order);
      TakePartsFirst(db, batch, order);
      if Demand(db, batch, p) <= 0 {
        TakePartsRefusedIff(db, batch, rest);
      } else if TakePart(db, batch, p).Ok? {
        TakePartsRefusedIff(TakePart(db, batch, p).value, batch, rest);
      }
    }
  }

  /** The batch needs the part, and the planned lots keep more than the need would leave in the lots. */
  predicate HoldsTooMuch(db: Db, batch: Batch, part: int) {
    0 < Demand(db, batch, part) && LotTotal(db.lots, part) - Demand(db, batch, part) < HeldBackFrom(db, batch, part)
  }

  /** A completion that passes every check is refused exactly when some part's planned lots hold back more than
      its need would leave in the lots; otherwise it goes through. */
  lemma CompletionRefusedIff(db: Db, batch: Batch)
    requires Inv(db) && TempsOk(db) && CompletionError(db, batch).None?
    ensures Complete(db, batch).Ok? || Complete(db, batch) == Err(LotsShort)
    ensures Complete(db, batch) == Err(LotsShort) <==> exists p :: p in db.parts && HoldsTooMuch(db, batch, p)
  {
    hide Demand, TakeParts, Gives, HeldBackFrom;
    var order := CompletionOrder(db, batch);
    CompletionOrderFacts(db, batch);
    forall p | p in order ensures Demand(db, batch, p) <= db.parts[p].stock {
      assert p !in Keep(order, ShortOf(db, batch));
    }
    TakePartsRefusedIff(db, batch, order);
    forall p ensures Gives(db, batch, p) == LotTotal(db.lots, p) - HeldBackFrom(db, batch, p) { GivesTheRest(db, batch, p); }
  }
}
