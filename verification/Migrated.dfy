/** From the migration to the ledger: exactly when the migrated tables meet the ledger's invariant. */
module Migrated {
  import opened Sums
  import opened Tables
  import opened Effects
  import opened Invariant
  import opened Backfill

  // ---- The migrated lot table ----

  /** Ids in order and below the next one; every lot of a known part, no remainder negative. */
  ghost predicate TableOk(lots: seq<OldLot>, next: int, parts: set<int>) {
    && SchemaOf(lots, next)
    && (forall i :: 0 <= i < |lots| ==> lots[i].part in parts)
    && (forall i :: 0 <= i < |lots| && lots[i].remaining.Some? ==> 0 <= lots[i].remaining.value)
  }

  lemma FillKeepsTable(lots: seq<OldLot>, part: PartRow, next: int, parts: set<int>)
    requires TableOk(lots, next, parts)
    ensures TableOk(FillSome(lots, part.id, Drain(lots, part), |Unfilled(lots, part.id)|), next, parts)
  {
    hide FillSome, Unfilled, Drain;
    var k, drain := |Unfilled(lots, part.id)|, Drain(lots, part);
    assert 0 <= drain by { DrainNonNegative(lots, part); }
    FillKeepsSchema(lots, part.id, drain, k);
    forall i | 0 <= i < |lots|
      ensures var r := FillSome(lots, part.id, drain, k)[i]; r.remaining.Some? ==> 0 <= r.remaining.value
    {
      FillBounds(lots, part.id, drain, k, i);
    }
  }

  lemma DrainNonNegative(lots: seq<OldLot>, part: PartRow)
    ensures 0 <= Drain(lots, part)
  {
  }

  lemma BackfillKeepsTable(lots: seq<OldLot>, part: PartRow, next: int, parts: set<int>)
    requires TableOk(lots, next, parts) && part.id in parts
    ensures var r := BackfillPart(lots, part, next); |lots| <= |r| && TableOk(r, next + |r| - |lots|, parts)
  {
    FillKeepsTable(lots, part, next, parts);
    hide FillSome, Unfilled, Drain, Surplus;
  }

  lemma {:induction false} MigrationKeepsTable(lots: seq<OldLot>, rows: seq<PartRow>, next: int, parts: set<int>)
    requires TableOk(lots, next, parts) && forall i :: 0 <= i < |rows| ==> rows[i].id in parts
    ensures var r := BackfillAll(lots, rows, next); |lots| <= |r| && TableOk(r, next + |r| - |lots|, parts)
    decreases |rows|
  {
    hide BackfillPart, TableOk;
    if rows != [] {
      var r := BackfillPart(lots, rows[0], next);
      BackfillKeepsTable(lots, rows[0], next, parts);
      MigrationKeepsTable(r, rows[1..], next + |r| - |lots|, parts);
    }
  }

  // ---- As the ledger's tables ----

  /** A row as the ledger reads it; the migration leaves no row without a remainder. */
  function LotRow(l: OldLot, at: int -> int): Lot {
    Lot(l.id, l.part, l.qty, if l.remaining.Some? then l.remaining.value else 0, at(l.id))
  }

  /** `at` gives each lot its time of entry. */
  function LotRows(lots: seq<OldLot>, at: int -> int): (r: seq<Lot>)
    ensures |r| == |lots| && forall i :: 0 <= i < |r| ==> r[i] == LotRow(lots[i], at)
  {
    seq(|lots|, i requires 0 <= i < |lots| => LotRow(lots[i], at))
  }

  function MigratedDb(db: Db, lots: seq<OldLot>, rows: seq<PartRow>, next: int, at: int -> int): Db {
    var end := BackfillAll(lots, rows, next);
    db.(lots := LotRows(end, at), nextLot := next + |end| - |lots|)
  }

  /** The rows the migration goes through are the parts table. */
  ghost predicate Lists(rows: seq<PartRow>, parts: map<int, Part>) {
    && DistinctParts(rows)
    && (forall k :: 0 <= k < |rows| ==> rows[k].id in parts && parts[rows[k].id].stock == rows[k].stock)
    && (forall p :: p in parts ==> exists k :: 0 <= k < |rows| && rows[k].id == p)
  }

  /** What a part's lots hold after the migration. */
  function Migrated(lots: seq<OldLot>, row: PartRow): int {
    if Unfilled(lots, row.id) == [] then Filled(lots, row.id) else Max(row.stock, Filled(lots, row.id))
  }

  lemma MigratedTotal(db: Db, lots: seq<OldLot>, rows: seq<PartRow>, next: int, at: int -> int, k: nat)
    requires QtysOk(lots) && DistinctParts(rows) && k < |rows|
    ensures LotTotal(MigratedDb(db, lots, rows, next, at).lots, rows[k].id) == Migrated(lots, rows[k])
  {
    hide QtysOk, DistinctParts, BackfillAll;
    MigrationBalances(lots, rows, next, k);
    var end, p := BackfillAll(lots, rows, next), rows[k].id;
    FillNone(end, p);
    forall i | 0 <= i < |end| ensures LotOf(p)(LotRows(end, at)[i]) == FilledOf(p)(end[i]) {
      assert !IsUnfilled(end[i], p);
    }
    SumSame(LotRows(end, at), end, LotOf(p), FilledOf(p));
  }

  lemma MigratedLotsOk(db: Db, lots: seq<OldLot>, rows: seq<PartRow>, next: int, at: int -> int)
    requires TableOk(lots, next, db.parts.Keys) && Lists(rows, db.parts)
    ensures LotsOk(MigratedDb(db, lots, rows, next, at))
  {
    hide BackfillAll;
    MigrationKeepsTable(lots, rows, next, db.parts.Keys);
    var db1 := MigratedDb(db, lots, rows, next, at);
    forall l | l in db1.lots ensures 0 < l.id < db1.nextLot && l.part in db1.parts && 0 <= l.remaining {
      var i :| 0 <= i < |db1.lots| && db1.lots[i] == l;
    }
  }

  lemma NothingDrawn(lots: seq<Lot>, batch: int, part: int)
    ensures DrawnOfPart(lots, [], batch, part) == 0
  {
    SumZero(lots, PartDraw([], batch, part));
  }

  /** No draw rows exist yet, so a completed batch is in order exactly when nothing was frozen for it. */
  lemma FrozenIff(db: Db)
    requires db.draws == []
    ensures FrozenOk(db) <==> forall b :: b in db.batches && b.status == COMPLETED ==>
      b.recorded && forall p :: Consumed(db.consumptions, b.id, p) == 0
  {
    hide DrawnOfPart, Consumed;
    forall b, p ensures DrawnOfPart(db.lots, db.draws, b, p) == 0 { NothingDrawn(db.lots, b, p); }
  }

  lemma SameExcess(a: Db, b: Db, p: int)
    requires a.batches == b.batches && a.consumptions == b.consumptions
    ensures Excess(a, p) == Excess(b, p)
  {
  }

  lemma BalancedIff(db: Db, lots: seq<OldLot>, rows: seq<PartRow>, next: int, at: int -> int)
    requires QtysOk(lots) && Lists(rows, db.parts)
    ensures Balanced(MigratedDb(db, lots, rows, next, at)) <==> forall k :: 0 <= k < |rows| ==>
      0 <= rows[k].stock && Migrated(lots, rows[k]) == rows[k].stock + Excess(db, rows[k].id)
  {
    var db1 := MigratedDb(db, lots, rows, next, at);
    hide Migrated, Excess, LotTotal, QtysOk, DistinctParts, MigratedDb;
    assert db1.parts == db.parts && db1.batches == db.batches && db1.consumptions == db.consumptions by { OnlyLotsMigrate(db, lots, rows, next, at); }
    forall k | 0 <= k < |rows| ensures LotTotal(db1.lots, rows[k].id) == Migrated(lots, rows[k]) {
      MigratedTotal(db, lots, rows, next, at, k);
    }
    forall p ensures Excess(db1, p) == Excess(db, p) { SameExcess(db1, db, p); }
    if Balanced(db1) {
      forall k | 0 <= k < |rows|
        ensures 0 <= rows[k].stock && Migrated(lots, rows[k]) == rows[k].stock + Excess(db, rows[k].id)
      {
        assert rows[k].id in db1.parts;
      }
    }
  }

  lemma OnlyLotsMigrate(db: Db, lots: seq<OldLot>, rows: seq<PartRow>, next: int, at: int -> int)
    ensures var db1 := MigratedDb(db, lots, rows, next, at); db1 == db.(lots := db1.lots, nextLot := db1.nextLot)
  {
  }

  /** The migrated tables meet the ledger's invariant if and only if no completed batch has frozen consumption (its
      draws were never recorded) and each part's stock, which is not negative, is what its lots end with less the
      excess. */
  lemma MigratedInvIff(db: Db, lots: seq<OldLot>, rows: seq<PartRow>, next: int, at: int -> int)
    requires TableOk(lots, next, db.parts.Keys) && Lists(rows, db.parts)
    requires db.draws == [] && BatchesOk(db) && ConsumptionsOk(db)
    ensures Inv(MigratedDb(db, lots, rows, next, at)) <==>
      && (forall b :: b in db.batches && b.status == COMPLETED ==>
            b.recorded && forall p :: Consumed(db.consumptions, b.id, p) == 0)
      && (forall k :: 0 <= k < |rows| ==>
            0 <= rows[k].stock && Migrated(lots, rows[k]) == rows[k].stock + Excess(db, rows[k].id))
  {
    var db1 := MigratedDb(db, lots, rows, next, at);
    OnlyLotsMigrate(db, lots, rows, next, at);
    MigratedLotsOk(db, lots, rows, next, at);
    assert QtysOk(lots);
    hide MigratedDb, Migrated, Excess, LotsOk, Balanced, FrozenOk, Consumed, TableOk, Lists, QtysOk;
    FrozenIff(db1);
    BalancedIff(db, lots, rows, next, at);
  }

  lemma NothingFrozen(db: Db)
    requires db.consumptions == []
    ensures forall b, p :: Consumed(db.consumptions, b, p) == 0
    ensures forall p :: Excess(db, p) == 0
  {
    forall p ensures Excess(db, p) == 0 { SumZero(db.batches, ExcessOf(db.consumptions, p)); }
  }

  lemma NoExcessIff(lots: seq<OldLot>, row: PartRow)
    ensures Migrated(lots, row) == row.stock <==>
      if Unfilled(lots, row.id) == [] then Filled(lots, row.id) == row.stock else Filled(lots, row.id) <= row.stock
  {
    hide Filled, Unfilled;
  }

  /** Where nothing was ever consumed, that is: no negative stock, a part with a lot still to fill had at most its
      stock in the filled ones, and a part without one had exactly its stock. */
  lemma FreshInvIff(db: Db, lots: seq<OldLot>, rows: seq<PartRow>, next: int, at: int -> int)
    requires TableOk(lots, next, db.parts.Keys) && Lists(rows, db.parts)
    requires db.draws == [] && BatchesOk(db) && db.consumptions == []
    ensures Inv(MigratedDb(db, lots, rows, next, at)) <==>
      && (forall b :: b in db.batches && b.status == COMPLETED ==> b.recorded)
      && (forall k :: 0 <= k < |rows| ==>
            && 0 <= rows[k].stock
            && if Unfilled(lots, rows[k].id) == [] then Filled(lots, rows[k].id) == rows[k].stock
               else Filled(lots, rows[k].id) <= rows[k].stock)
  {
    NothingFrozen(db);
    assert ConsumptionsOk(db);
    forall k | 0 <= k < |rows| ensures Migrated(lots, rows[k]) == rows[k].stock <==>
      if Unfilled(lots, rows[k].id) == [] then Filled(lots, rows[k].id) == rows[k].stock else Filled(lots, rows[k].id) <= rows[k].stock
    {
      NoExcessIff(lots, rows[k]);
    }
    hide MigratedDb, Migrated, Excess, Consumed, TableOk, Lists, Inv, BatchesOk, ConsumptionsOk, Filled, Unfilled;
    MigratedInvIff(db, lots, rows, next, at);
  }
}
