/** Recording which lots a batch will use: one record per batch and part, plans within their lots. */
module TraceRecords {
  import opened Sums
  import opened Bom
  import opened Tables
  import opened Draw
  import opened Transactions
  import opened Effects
  import opened Invariant
  import opened Runs

  ghost predicate UniqueTraces(traces: seq<Trace>) {
    forall i, j :: 0 <= i < j < |traces| ==> traces[i].batch != traces[j].batch || traces[i].part != traces[j].part
  }

  /** The lot of an allocation exists and belongs to the allocation's part. */
  ghost predicate OnOwnLot(lots: seq<Lot>, a: Alloc) {
    exists i :: 0 <= i < |lots| && lots[i].id == a.lot && lots[i].part == a.part
  }

  ghost predicate AllocsOk(db: Db) {
    forall a :: a in db.allocs ==> 0 < a.qty && OnOwnLot(db.lots, a)
  }

  ghost predicate WithinUsed(db: Db) {
    forall t :: t in db.traces ==> 0 < t.used && Sum(db.allocs, AllocFor(t.batch, t.part)) <= t.used
  }

  /** One record per (batch, part); every planned lot is a lot of that part; the plan is within what was used. */
  ghost predicate TracesOk(db: Db) {
    UniqueTraces(db.traces) && AllocsOk(db) && WithinUsed(db)
  }

  // ---- Filters and appends over the trace tables ----

  lemma UniqueTraceCons(x: Trace, s: seq<Trace>)
    requires UniqueTraces(s) && forall t :: t in s ==> t.batch != x.batch || t.part != x.part
    ensures UniqueTraces([x] + s)
  {
    assert forall j :: 0 < j < |[x] + s| ==> ([x] + s)[j] == s[j - 1] && s[j - 1] in s;
  }

  lemma {:induction false} KeepUniqueTraces(s: seq<Trace>, p: Trace -> bool)
    requires UniqueTraces(s)
    ensures UniqueTraces(Keep(s, p))
  {
    if s != [] {
      var rest := Keep(s[1..], p);
      assert UniqueTraces(s[1..]) && forall t :: t in s[1..] ==> t.batch != s[0].batch || t.part != s[0].part by {
        assert forall j :: 0 <= j < |s[1..]| ==> s[1..][j] == s[j + 1];
      }
      KeepUniqueTraces(s[1..], p);
      assert [] + rest == rest;
      UniqueTraceCons(s[0], rest);
    }
  }

  lemma AppendUniqueTrace(s: seq<Trace>, x: Trace)
    requires UniqueTraces(s) && forall t :: t in s ==> t.batch != x.batch || t.part != x.part
    ensures UniqueTraces(s + [x])
  {
    assert forall i :: 0 <= i < |s| ==> (s + [x])[i] == s[i] && s[i] in s;
  }

  function Others(batch: int, part: int): Alloc -> bool { (a: Alloc) => !(a.batch == batch && a.part == part) }

  /** Deleting the plan of one (batch, part) leaves the other plans as they are. */
  lemma DroppedPlans(allocs: seq<Alloc>, batch: int, part: int, b: int, p: int)
    ensures Sum(Keep(allocs, Others(batch, part)), AllocFor(b, p))
         == if b == batch && p == part then 0 else Sum(allocs, AllocFor(b, p))
  {
    var kept := Keep(allocs, Others(batch, part));
    if b == batch && p == part {
      forall i | 0 <= i < |kept| ensures AllocFor(b, p)(kept[i]) == 0 { assert kept[i] in kept; }
      SumZero(kept, AllocFor(b, p));
    } else {
      SumKeep(allocs, Others(batch, part), AllocFor(b, p), AllocFor(b, p));
    }
  }

  lemma NewPlanTotal(t: TraceInput, b: int, p: int)
    ensures Sum(AllocRows(t.batch, t.part, t.allocs), AllocFor(b, p))
         == if b == t.batch && p == t.part then Sum(t.allocs, Planned()) else 0
  {
    var rows := AllocRows(t.batch, t.part, t.allocs);
    if b == t.batch && p == t.part {
      SumSame(rows, t.allocs, AllocFor(b, p), Planned());
    } else {
      SumZero(rows, AllocFor(b, p));
    }
  }

  // ---- Dropping and replacing a record ----

  lemma DropKeepsTracesOk(db: Db, batch: int, part: int)
    requires TracesOk(db)
    ensures TracesOk(DropTrace(db, batch, part))
    ensures forall t :: t in DropTrace(db, batch, part).traces ==> t.batch != batch || t.part != part
  {
    var db1 := DropTrace(db, batch, part);
    var q := Others(batch, part);
    assert db1.allocs == Keep(db.allocs, q) by { KeepSame(db.allocs, (a: Alloc) => !(a.batch == batch && a.part == part), q); }
    KeepUniqueTraces(db.traces, (t: Trace) => !(t.batch == batch && t.part == part));
    forall t | t in db1.traces ensures 0 < t.used && Sum(db1.allocs, AllocFor(t.batch, t.part)) <= t.used {
      DroppedPlans(db.allocs, batch, part, t.batch, t.part);
    }
  }

  lemma {:induction false} KeepSame<T(!new)>(s: seq<T>, p: T -> bool, q: T -> bool)
    requires forall x :: p(x) == q(x)
    ensures Keep(s, p) == Keep(s, q)
  {
    if s != [] {
      KeepSame(s[1..], p, q);
    }
  }

  /** The record check of one input, spelled out. */
  ghost predicate InputOk(t: TraceInput) {
    && 0 < t.used && Sum(t.allocs, Planned()) <= t.used
    && (forall i :: 0 <= i < |t.allocs| ==> 0 < t.allocs[i].qty)
    && (forall i, j :: 0 <= i < j < |t.allocs| ==> t.allocs[i].lot != t.allocs[j].lot)
  }

  ghost predicate InputsOk(inputs: seq<TraceInput>) {
    && (forall i :: 0 <= i < |inputs| ==> InputOk(inputs[i]))
    && (forall i, j :: 0 <= i < j < |inputs| ==> inputs[i].batch != inputs[j].batch || inputs[i].part != inputs[j].part)
  }

  lemma {:induction false} AllocErrorNone(allocs: seq<PlanStep>, seen: set<int>)
    requires AllocError(allocs, seen).None?
    ensures forall i :: 0 <= i < |allocs| ==> 0 < allocs[i].qty && allocs[i].lot !in seen
    ensures forall i, j :: 0 <= i < j < |allocs| ==> allocs[i].lot != allocs[j].lot
  {
    if allocs != [] {
      AllocErrorNone(allocs[1..], seen + {allocs[0].lot});
      assert forall i :: 0 < i < |allocs| ==> allocs[i] == allocs[1..][i - 1];
    }
  }

  lemma {:induction false} TraceErrorNone(inputs: seq<TraceInput>, seen: set<(int, int)>)
    requires TraceError(inputs, seen).None?
    ensures InputsOk(inputs) && forall i :: 0 <= i < |inputs| ==> (inputs[i].batch, inputs[i].part) !in seen
  {
    if inputs != [] {
      var t := inputs[0];
      AllocErrorNone(t.allocs, {});
      TraceErrorNone(inputs[1..], seen + {(t.batch, t.part)});
      assert forall i :: 0 < i < |inputs| ==> inputs[i] == inputs[1..][i - 1];
    }
  }

  /** The lot check, spelled out: every planned lot exists, is of the part, and has enough available. */
  lemma {:induction false} LotErrorNone(db: Db, batch: int, part: int, allocs: seq<PlanStep>)
    requires LotError(db, batch, part, allocs).None?
    ensures forall i :: 0 <= i < |allocs| ==>
      var found := FindLot(db.lots, allocs[i].lot);
      found.Some? && found.value.part == part && allocs[i].qty <= Available(db, batch, found.value)
  {
    if allocs != [] {
      LotErrorNone(db, batch, part, allocs[1..]);
      assert forall i :: 0 < i < |allocs| ==> allocs[i] == allocs[1..][i - 1];
    }
  }

  lemma ReplaceKeepsTracesOk(db: Db, t: TraceInput)
    requires TracesOk(db) && InputOk(t) && LotError(db, t.batch, t.part, t.allocs).None?
    ensures TracesOk(ReplaceTrace(db, t))
  {
    var d := DropTrace(db, t.batch, t.part);
    var db1 := ReplaceTrace(db, t);
    var rows := AllocRows(t.batch, t.part, t.allocs);
    DropKeepsTracesOk(db, t.batch, t.part);
    AppendUniqueTrace(d.traces, Trace(t.batch, t.part, t.used));
    LotErrorNone(db, t.batch, t.part, t.allocs);
    forall a | a in db1.allocs ensures 0 < a.qty && OnOwnLot(db1.lots, a) {
      if a !in d.allocs {
        var i :| 0 <= i < |rows| && rows[i] == a;
        var l := FindLot(db.lots, t.allocs[i].lot).value;
        var k :| 0 <= k < |db.lots| && db.lots[k] == l;
      }
    }
    KeepSame(db.allocs, (a: Alloc) => !(a.batch == t.batch && a.part == t.part), Others(t.batch, t.part));
    forall r | r in db1.traces ensures 0 < r.used && Sum(db1.allocs, AllocFor(r.batch, r.part)) <= r.used {
      SumConcat(d.allocs, rows, AllocFor(r.batch, r.part));
      NewPlanTotal(t, r.batch, r.part);
      DroppedPlans(db.allocs, t.batch, t.part, r.batch, r.part);
    }
  }

  lemma {:induction false} RecordAllKeepsTracesOk(db: Db, inputs: seq<TraceInput>)
    requires TracesOk(db) && (forall i :: 0 <= i < |inputs| ==> InputOk(inputs[i])) && RecordAll(db, inputs).Ok?
    ensures TracesOk(RecordAll(db, inputs).value)
    decreases |inputs|
  {
    if inputs != [] {
      hide TracesOk, InputOk, LotError;
      ReplaceKeepsTracesOk(db, inputs[0]);
      RecordAllKeepsTracesOk(ReplaceTrace(db, inputs[0]), inputs[1..]);
    }
  }

  // ---- Every run keeps the records in order ----

  lemma MovedLotsKeepTracesOk(db: Db, db1: Db)
    requires TracesOk(db) && db1.traces == db.traces && db1.allocs == db.allocs && KeepsIds(db.lots, db1.lots)
    ensures TracesOk(db1)
  {
    forall a | a in db1.allocs ensures OnOwnLot(db1.lots, a) {
      var i :| 0 <= i < |db.lots| && db.lots[i].id == a.lot && db.lots[i].part == a.part;
      assert db1.lots[i].id == a.lot && db1.lots[i].part == a.part;
    }
  }

  /** Transactions other than recording, skipping and removing a temporary part leave the records alone. */
  lemma StepLeavesTraces(db: Db, op: Op)
    requires !op.OpRecordTraces? && !op.OpAddSkipPart? && !op.OpRemoveTempPart?
    ensures Step(db, op).traces == db.traces && Step(db, op).allocs == db.allocs && KeepsIds(db.lots, Step(db, op).lots)
  {
    hide ChangeStatus, Revoke, AdjustStock, AdjustInbounds, Committed, OldTemp, UpsertTemp;
    if Attempt(db, op).Ok? {
      match op
      case OpChangeStatus(id, status) => StatusFrame(db, id, status);
      case OpRevoke(id, now) => RevokeFrame(db, id, now);
      case OpAdjustStock(part, qty, now) => AdjustFrame(db, part, qty, now);
      case OpAdjustInbounds(part, counts) => CountFrame(db, part, counts);
      case _ =>
    }
  }

  lemma StepKeepsTracesOk(db: Db, op: Op)
    requires TracesOk(db)
    ensures TracesOk(Step(db, op))
  {
    hide TracesOk, TraceError, RecordAll, ChangeStatus, Revoke, AdjustStock, AdjustInbounds;
    if !op.OpRecordTraces? && !op.OpAddSkipPart? && !op.OpRemoveTempPart? {
      StepLeavesTraces(db, op);
      MovedLotsKeepTracesOk(db, Step(db, op));
    } else if Attempt(db, op).Ok? {
      match op
      case OpRecordTraces(inputs) => TraceErrorNone(inputs, {}); RecordAllKeepsTracesOk(db, inputs);
      case OpAddSkipPart(batch, part) =>
        DropKeepsTracesOk(db, batch, part);
        MovedLotsKeepTracesOk(DropTrace(db, batch, part), Step(db, op));
      case OpRemoveTempPart(batch, part) =>
        DropKeepsTracesOk(db, batch, part);
        MovedLotsKeepTracesOk(DropTrace(db, batch, part), Step(db, op));
    }
  }

  lemma {:induction false} RunKeepsTracesOk(db: Db, ops: seq<Op>)
    requires TracesOk(db)
    ensures TracesOk(Run(db, ops))
    decreases |ops|
  {
    hide TracesOk, Step;
    if ops != [] {
      StepKeepsTracesOk(db, ops[0]);
      RunKeepsTracesOk(Step(db, ops[0]), ops[1..]);
    }
  }

  // ---- Plans of open batches against what a lot still holds ----

  function OpenOn(batches: seq<Batch>, lot: int): Alloc -> int {
    (a: Alloc) => if a.lot == lot && BatchIsOpen(batches, a.batch) then a.qty else 0
  }

  /** What the open batches together plan to take from a lot. */
  function OpenAllocs(db: Db, lot: int): int { Sum(db.allocs, OpenOn(db.batches, lot)) }

  /** An open batch's own plan and the others' plans make up all the open plans on a lot. */
  lemma OpenSplit(db: Db, batch: int, lot: int)
    requires BatchIsOpen(db.batches, batch)
    ensures OpenAllocs(db, lot) == Sum(db.allocs, AllocOn(batch, lot)) + Sum(db.allocs, OthersOn(db.batches, batch, lot))
  {
    SumAdd(db.allocs, db.allocs, AllocOn(batch, lot), OthersOn(db.batches, batch, lot), OpenOn(db.batches, lot));
  }

  ghost predicate Names(t: TraceInput, lot: int) {
    exists i :: 0 <= i < |t.allocs| && t.allocs[i].lot == lot
  }

  lemma OneLotOnePart(lots: seq<Lot>, a: Alloc, l: Lot)
    requires DistinctLots(lots) && OnOwnLot(lots, a) && l in lots && l.id == a.lot
    ensures a.part == l.part
  {
  }

  /** A batch's plan on a lot, after its record is replaced, is the quantity the new record names. */
  lemma OwnAfter(db: Db, t: TraceInput, l: Lot, i: nat)
    requires LotsOk(db) && TracesOk(db) && InputOk(t) && l in db.lots && l.part == t.part
    requires i < |t.allocs| && t.allocs[i].lot == l.id
    ensures Sum(ReplaceTrace(db, t).allocs, AllocOn(t.batch, l.id)) == t.allocs[i].qty
  {
    var d := DropTrace(db, t.batch, t.part);
    var rows := AllocRows(t.batch, t.part, t.allocs);
    var f := AllocOn(t.batch, l.id);
    SumConcat(d.allocs, rows, f);
    SumOnly(rows, i, f);
    forall k | 0 <= k < |d.allocs| ensures f(d.allocs[k]) == 0 {
      var a := d.allocs[k];
      assert a in d.allocs && a in db.allocs;
      if a.lot == l.id {
        OneLotOnePart(db.lots, a, l);
      }
    }
    SumZero(d.allocs, f);
  }

  /** The other batches' open plans on the lot do not move. */
  lemma OthersAfter(db: Db, t: TraceInput, lot: int)
    ensures Sum(ReplaceTrace(db, t).allocs, OthersOn(db.batches, t.batch, lot))
         == Sum(db.allocs, OthersOn(db.batches, t.batch, lot))
  {
    var d := DropTrace(db, t.batch, t.part);
    var rows := AllocRows(t.batch, t.part, t.allocs);
    var f := OthersOn(db.batches, t.batch, lot);
    SumConcat(d.allocs, rows, f);
    SumZero(rows, f);
    SumKeep(db.allocs, (a: Alloc) => !(a.batch == t.batch && a.part == t.part), f, f);
  }

  /** A lot the record names: the open plans on it then fit in what it holds plus what the recording batch
      had planned on it before. */
  lemma NamedLotBound(db: Db, t: TraceInput, l: Lot)
    requires LotsOk(db) && BatchesOk(db) && TracesOk(db) && InputOk(t) && RecordError(db, t).None?
    requires l in db.lots && Names(t, l.id)
    ensures l.part == t.part
    ensures OpenAllocs(ReplaceTrace(db, t), l.id) <= l.remaining + Sum(db.allocs, AllocOn(t.batch, l.id))
  {
    var i: nat :| i < |t.allocs| && t.allocs[i].lot == l.id;
    LotErrorNone(db, t.batch, t.part, t.allocs);
    var found := FindLot(db.lots, l.id).value;
    assert found == l;
    OwnAfter(db, t, l, i);
    OthersAfter(db, t, l.id);
    var b := FindBatch(db.batches, t.batch).value;
    var k :| 0 <= k < |db.batches| && db.batches[k] == b;
    assert BatchIsOpen(db.batches, t.batch);
    OpenSplit(ReplaceTrace(db, t), t.batch, l.id);
  }

  /** A lot the record does not name: the open plans on it can only shrink. */
  lemma UnnamedLotBound(db: Db, t: TraceInput, lot: int)
    requires AllocsOk(db) && !Names(t, lot)
    ensures OpenAllocs(ReplaceTrace(db, t), lot) <= OpenAllocs(db, lot)
  {
    var d := DropTrace(db, t.batch, t.part);
    var rows := AllocRows(t.batch, t.part, t.allocs);
    var f := OpenOn(db.batches, lot);
    var p := (a: Alloc) => !(a.batch == t.batch && a.part == t.part);
    var g := (a: Alloc) => if p(a) then f(a) else 0;
    SumConcat(d.allocs, rows, f);
    SumZero(rows, f);
    SumKeep(db.allocs, p, f, g);
    forall k | 0 <= k < |db.allocs| ensures g(db.allocs[k]) <= f(db.allocs[k]) { assert db.allocs[k] in db.allocs; }
    SumAtMost(db.allocs, g, f);
  }

  lemma NewRowsElsewhere(db: Db, t: TraceInput, batch: int, l: Lot)
    requires LotsOk(db) && LotError(db, t.batch, t.part, t.allocs).None?
    requires l in db.lots && (batch != t.batch || l.part != t.part)
    ensures Sum(AllocRows(t.batch, t.part, t.allocs), AllocOn(batch, l.id)) == 0
  {
    var rows := AllocRows(t.batch, t.part, t.allocs);
    LotErrorNone(db, t.batch, t.part, t.allocs);
    hide LotError, LotsOk;
    forall i | 0 <= i < |rows| ensures AllocOn(batch, l.id)(rows[i]) == 0 {
      if t.allocs[i].lot == l.id {
        assert FindLot(db.lots, l.id).value == l;
      }
    }
    SumZero(rows, AllocOn(batch, l.id));
  }

  lemma OldRowsElsewhere(db: Db, t: TraceInput, batch: int, l: Lot)
    requires LotsOk(db) && AllocsOk(db) && l in db.lots && (batch != t.batch || l.part != t.part)
    ensures Sum(DropTrace(db, t.batch, t.part).allocs, AllocOn(batch, l.id)) == Sum(db.allocs, AllocOn(batch, l.id))
  {
    var f := AllocOn(batch, l.id);
    var p := (a: Alloc) => !(a.batch == t.batch && a.part == t.part);
    forall k | 0 <= k < |db.allocs| ensures f(db.allocs[k]) == if p(db.allocs[k]) then f(db.allocs[k]) else 0 {
      var a := db.allocs[k];
      assert a in db.allocs;
      if a.lot == l.id {
        OneLotOnePart(db.lots, a, l);
      }
    }
    hide LotsOk, AllocsOk, Sum;
    SumKeep(db.allocs, p, f, f);
  }

  /** Replacing another record leaves a batch's plan on a lot alone. */
  lemma OwnUntouched(db: Db, t: TraceInput, batch: int, l: Lot)
    requires LotsOk(db) && AllocsOk(db) && LotError(db, t.batch, t.part, t.allocs).None?
    requires l in db.lots && (batch != t.batch || l.part != t.part)
    ensures Sum(ReplaceTrace(db, t).allocs, AllocOn(batch, l.id)) == Sum(db.allocs, AllocOn(batch, l.id))
  {
    hide LotsOk, AllocsOk, LotError, AllocOn, AllocRows, DropTrace, Sum;
    NewRowsElsewhere(db, t, batch, l);
    OldRowsElsewhere(db, t, batch, l);
    SumConcat(DropTrace(db, t.batch, t.part).allocs, AllocRows(t.batch, t.part, t.allocs), AllocOn(batch, l.id));
  }

  lemma {:induction false} UnnamedAll(db: Db, inputs: seq<TraceInput>, lot: int)
    requires TracesOk(db) && (forall i :: 0 <= i < |inputs| ==> InputOk(inputs[i])) && RecordAll(db, inputs).Ok?
    requires forall i :: 0 <= i < |inputs| ==> !Names(inputs[i], lot)
    ensures OpenAllocs(RecordAll(db, inputs).value, lot) <= OpenAllocs(db, lot)
    decreases |inputs|
  {
    if inputs != [] {
      hide InputOk, OpenAllocs, LotError;
      assert InputOk(inputs[0]) && !Names(inputs[0], lot);
      UnnamedLotBound(db, inputs[0], lot);
      ReplaceKeepsTracesOk(db, inputs[0]);
      UnnamedAll(ReplaceTrace(db, inputs[0]), inputs[1..], lot);
    }
  }

  lemma {:induction false} RecordAllBound(db: Db, inputs: seq<TraceInput>, l: Lot)
    requires LotsOk(db) && BatchesOk(db) && TracesOk(db) && InputsOk(inputs) && RecordAll(db, inputs).Ok?
    requires l in db.lots && exists k :: 0 <= k < |inputs| && Names(inputs[k], l.id)
    ensures exists k
      :: 0 <= k < |inputs| && Names(inputs[k], l.id) && inputs[k].part == l.part
         && OpenAllocs(RecordAll(db, inputs).value, l.id) <= l.remaining + Sum(db.allocs, AllocOn(inputs[k].batch, l.id))
    decreases |inputs|
  {
    hide InputOk, OpenAllocs, LotError, Names, AllocsOk, WithinUsed, UniqueTraces;
    var t, rest := inputs[0], inputs[1..];
    var db1 := ReplaceTrace(db, t);
    assert forall i :: 0 <= i < |rest| ==> rest[i] == inputs[i + 1];
    assert InputOk(t) && InputsOk(rest);
    ReplaceKeepsTracesOk(db, t);
    if exists k :: 0 <= k < |rest| && Names(rest[k], l.id) {
      RecordAllBound(db1, rest, l);
      var k :| 0 <= k < |rest| && Names(rest[k], l.id) && rest[k].part == l.part
        && OpenAllocs(RecordAll(db1, rest).value, l.id) <= l.remaining + Sum(db1.allocs, AllocOn(rest[k].batch, l.id));
      OwnUntouched(db, t, rest[k].batch, l);
      assert inputs[k + 1] == rest[k];
    } else {
      forall k | 0 < k < |inputs| ensures !Names(inputs[k], l.id) { assert inputs[k] == rest[k - 1]; }
      NamedLotBound(db, t, l);
      UnnamedAll(db1, rest, l.id);
    }
  }

  /** After a recording, the open plans on every lot it names total at most what the lot holds plus what one
      recording batch had planned there before the call; with no such earlier plan, at most what it holds. */
  lemma RecordedWithinLots(db: Db, inputs: seq<TraceInput>, l: Lot)
    requires LotsOk(db) && BatchesOk(db) && TracesOk(db) && RecordTraces(db, inputs).Ok?
    requires l in db.lots && exists k :: 0 <= k < |inputs| && Names(inputs[k], l.id)
    ensures exists k
      :: 0 <= k < |inputs| && Names(inputs[k], l.id)
         && OpenAllocs(RecordTraces(db, inputs).value, l.id) <= l.remaining + Sum(db.allocs, AllocOn(inputs[k].batch, l.id))
    ensures (forall k :: 0 <= k < |inputs| && Names(inputs[k], l.id) ==> Sum(db.allocs, AllocOn(inputs[k].batch, l.id)) == 0)
      ==> OpenAllocs(RecordTraces(db, inputs).value, l.id) <= l.remaining
  {
    TraceErrorNone(inputs, {});
    RecordAllBound(db, inputs, l);
  }

  /** The quantities the availability check accepts for one lot. */
  predicate Accepted(db: Db, batch: int, l: Lot, qty: int) { 0 < qty <= Available(db, batch, l) }

  /** The check keeps the open plans within what the lot holds, for every quantity it accepts, if and only if the
      recording batch had nothing planned there before, or nothing can be accepted at all. */
  lemma CheckIsTightIff(db: Db, batch: int, l: Lot)
    requires TracesOk(db)
    ensures (forall qty :: Accepted(db, batch, l, qty) ==> qty + Sum(db.allocs, OthersOn(db.batches, batch, l.id)) <= l.remaining)
       <==> Sum(db.allocs, AllocOn(batch, l.id)) == 0 || Available(db, batch, l) <= 0
  {
    var f := AllocOn(batch, l.id);
    forall i | 0 <= i < |db.allocs| ensures 0 <= f(db.allocs[i]) { assert db.allocs[i] in db.allocs; }
    SumNonNegative(db.allocs, f);
    if Sum(db.allocs, f) != 0 && 0 < Available(db, batch, l) {
      assert Accepted(db, batch, l, Available(db, batch, l));
    }
  }

  const FULL_LOT := Lot(1, 1, 10_00, 10_00, 0)

  const ONE_PART: map<int, Part> := map[1 := Part(0, 0, 1)]

  /** One open batch that has recorded 10.00 of a lot holding 10.00. */
  const PLANNED_ONCE := EMPTY_DB.(parts := ONE_PART[1 := Part(10_00, 0, 2)], lots := [FULL_LOT], nextLot := 2,
                                  batches := [Batch(1, 1, 1, 0, PENDING, false)],
                                  traces := [Trace(1, 1, 20_00)], allocs := [Alloc(1, 1, 1, 10_00, 0)])

  /** That batch may record again and then plans 20.00 of the 10.00 the lot holds. */
  lemma RecordingAgainOverplans()
    ensures OpenAllocs(PLANNED_ONCE, 1) == FULL_LOT.remaining
    ensures var again := RecordTraces(PLANNED_ONCE, [TraceInput(1, 1, 20_00, [PlanStep(1, 20_00)])]);
      again.Ok? && OpenAllocs(again.value, 1) == 2 * FULL_LOT.remaining
  {
    var db := PLANNED_ONCE;
    var t := TraceInput(1, 1, 20_00, [PlanStep(1, 20_00)]);
    assert db.batches[0].id == 1 && BatchIsOpen(db.batches, 1);
    assert OpenAllocs(db, 1) == 10_00;
    assert AllocError(t.allocs, {}).None? && Sum(t.allocs, Planned()) == 20_00;
    assert TraceError([t], {}).None?;
    assert Available(db, 1, FULL_LOT) == 20_00;
    assert EditError(db, 1, 1).None?;
    assert FindLot(db.lots, 1) == Some(FULL_LOT) && t.allocs[1..] == [];
    assert LotError(db, 1, 1, t.allocs[1..]).None?;
    assert LotError(db, 1, 1, t.allocs).None?;
    var db1 := ReplaceTrace(db, t);
    assert db1.allocs == [Alloc(1, 1, 1, 20_00, 0)];
    SumOnly(db1.allocs, 0, OpenOn(db1.batches, 1));
    assert RecordAll(db, [t]) == RecordAll(db1, []);
  }
}
