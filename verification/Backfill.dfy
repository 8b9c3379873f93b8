/** The migration that gives every old lot a remainder, so that lots and stock agree from then on. */
module Backfill {
  import opened Sums
  import opened Tables

  /** A lot row during the migration: `remaining` is NULL until the row has been filled. */
  datatype OldLot = OldLot(id: int, part: int, qty: int, remaining: Option<int>)

  datatype PartRow = PartRow(id: int, stock: int)

  // ---- Weights ----

  predicate IsUnfilled(l: OldLot, part: int) { l.part == part && l.remaining.None? }

  function QtyOf(): OldLot -> int { (l: OldLot) => l.qty }

  function UnfilledQty(part: int): OldLot -> int { (l: OldLot) => if IsUnfilled(l, part) then l.qty else 0 }

  function FilledOf(part: int): OldLot -> int {
    (l: OldLot) => if l.part == part && l.remaining.Some? then l.remaining.value else 0
  }

  /** COALESCE(SUM(remaining), 0) over the filled rows of a part. */
  function Filled(lots: seq<OldLot>, part: int): int { Sum(lots, FilledOf(part)) }

  /** The unfilled rows of a part in id order. */
  function Unfilled(lots: seq<OldLot>, part: int): seq<OldLot> { Keep(lots, (l: OldLot) => IsUnfilled(l, part)) }

  // ---- Specification ----

  function Max(a: int, b: int): int { if a < b then b else a }

  /** The stock left for the rows still to fill. */
  function Budget(lots: seq<OldLot>, part: PartRow): int { Max(0, part.stock - Filled(lots, part.id)) }

  function Total(lots: seq<OldLot>, part: PartRow): int { Sum(lots, UnfilledQty(part.id)) }

  /** What history has already used up of the unfilled rows. */
  function Drain(lots: seq<OldLot>, part: PartRow): int { Max(0, Total(lots, part) - Budget(lots, part)) }

  function Surplus(lots: seq<OldLot>, part: PartRow): int { Max(0, Budget(lots, part) - Total(lots, part)) }

  /** Fill the first `k` unfilled rows, the oldest drained first. */
  function FillSome(lots: seq<OldLot>, part: int, drain: int, k: nat): (r: seq<OldLot>)
    ensures |r| == |lots|
    decreases |lots|
  {
    if lots == [] || k == 0 then lots
    else if IsUnfilled(lots[0], part) then
      var take := Min(drain, lots[0].qty);
      [lots[0].(remaining := Some(lots[0].qty - take))] + FillSome(lots[1..], part, drain - take, k - 1)
    else [lots[0]] + FillSome(lots[1..], part, drain, k)
  }

  /** One part's migration: fill all its unfilled rows, and book any surplus as a new lot. */
  function BackfillPart(lots: seq<OldLot>, part: PartRow, next: int): seq<OldLot> {
    var n := |Unfilled(lots, part.id)|;
    if n == 0 then lots
    else
      var filled := FillSome(lots, part.id, Drain(lots, part), n);
      var s := Surplus(lots, part);
      if 0 < s then filled + [OldLot(next, part.id, s, Some(s))] else filled
  }

  // ---- Filling ----

  ghost predicate QtysOk(lots: seq<OldLot>) {
    forall i :: 0 <= i < |lots| ==> 0 <= lots[i].qty
  }

  /** What the first `k` unfilled rows hold in all. */
  function FirstQty(lots: seq<OldLot>, part: int, k: nat): int {
    if lots == [] || k == 0 then 0
    else if IsUnfilled(lots[0], part) then lots[0].qty + FirstQty(lots[1..], part, k - 1)
    else FirstQty(lots[1..], part, k)
  }

  lemma {:induction false} FirstQtyBounds(lots: seq<OldLot>, part: int, k: nat)
    requires QtysOk(lots)
    ensures 0 <= FirstQty(lots, part, k) <= Sum(lots, UnfilledQty(part))
    ensures |Unfilled(lots, part)| <= k ==> FirstQty(lots, part, k) == Sum(lots, UnfilledQty(part))
  {
    if lots != [] {
      if k == 0 {
        SumNonNegative(lots, UnfilledQty(part));
        if |Unfilled(lots, part)| == 0 {
          forall i | 0 <= i < |lots| ensures UnfilledQty(part)(lots[i]) == 0 {
            assert lots[i] in lots;
            assert lots[i] in Unfilled(lots, part) || !IsUnfilled(lots[i], part);
          }
          SumZero(lots, UnfilledQty(part));
        }
      } else {
        FirstQtyBounds(lots[1..], part, if IsUnfilled(lots[0], part) then k - 1 else k);
      }
    }
  }

  /** Filling k rows moves their quantity, less what was drained, from unfilled to filled. */
  lemma {:induction false} FillSomeSums(lots: seq<OldLot>, part: int, drain: int, k: nat, p: int)
    requires QtysOk(lots) && 0 <= drain
    ensures var r := FillSome(lots, part, drain, k); var q := FirstQty(lots, part, k);
      && Filled(r, p) == Filled(lots, p) + (if p == part then q - Min(drain, q) else 0)
      && Sum(r, UnfilledQty(p)) == Sum(lots, UnfilledQty(p)) - (if p == part then q else 0)
      && QtysOk(r)
    decreases |lots|
  {
    if lots != [] && k != 0 {
      FirstQtyBounds(lots[1..], part, if IsUnfilled(lots[0], part) then k - 1 else k);
      if IsUnfilled(lots[0], part) {
        var take := Min(drain, lots[0].qty);
        FillSomeSums(lots[1..], part, drain - take, k - 1, p);
        assert FillSome(lots, part, drain, k)[1..] == FillSome(lots[1..], part, drain - take, k - 1);
      } else {
        FillSomeSums(lots[1..], part, drain, k, p);
        assert FillSome(lots, part, drain, k)[1..] == FillSome(lots[1..], part, drain, k);
      }
    }
  }

  lemma {:induction false} FillAllUnfilled(lots: seq<OldLot>, part: int, drain: int, k: nat)
    ensures |Unfilled(FillSome(lots, part, drain, k), part)| == Max(0, |Unfilled(lots, part)| - k)
    decreases |lots|
  {
    if lots != [] && k != 0 {
      if IsUnfilled(lots[0], part) {
        var take := Min(drain, lots[0].qty);
        FillAllUnfilled(lots[1..], part, drain - take, k - 1);
        assert FillSome(lots, part, drain, k)[1..] == FillSome(lots[1..], part, drain - take, k - 1);
      } else {
        FillAllUnfilled(lots[1..], part, drain, k);
        assert FillSome(lots, part, drain, k)[1..] == FillSome(lots[1..], part, drain, k);
      }
    }
  }

  /** After the migration of a part that had unfilled rows, its lots sum to its stock exactly when the rows
      filled before did not already exceed it. */
  lemma BackfillBalances(lots: seq<OldLot>, part: PartRow, next: int)
    requires QtysOk(lots) && Unfilled(lots, part.id) != []
    ensures Unfilled(BackfillPart(lots, part, next), part.id) == []
    ensures Filled(BackfillPart(lots, part, next), part.id) == Max(part.stock, Filled(lots, part.id))
    ensures Filled(BackfillPart(lots, part, next), part.id) == part.stock <==> Filled(lots, part.id) <= part.stock
  {
    var n := |Unfilled(lots, part.id)|;
    var r := FillSome(lots, part.id, Drain(lots, part), n);
    FirstQtyBounds(lots, part.id, n);
    FillSomeSums(lots, part.id, Drain(lots, part), n, part.id);
    FillAllUnfilled(lots, part.id, Drain(lots, part), n);
    var s := Surplus(lots, part);
    if 0 < s {
      var row := OldLot(next, part.id, s, Some(s));
      SumAppend(r, row, FilledOf(part.id));
      KeepConcat(r, [row], (l: OldLot) => IsUnfilled(l, part.id));
    }
  }

  lemma UnfilledTail(lots: seq<OldLot>, part: int)
    requires lots != []
    ensures |Unfilled(lots, part)| == |Unfilled(lots[1..], part)| + if IsUnfilled(lots[0], part) then 1 else 0
  {
  }

  /** Filling, seen past the first row: an unfilled one takes its share, any other is passed over. */
  lemma FillUnfold(lots: seq<OldLot>, part: int, drain: int, k: nat)
    requires lots != [] && 0 < k
    ensures IsUnfilled(lots[0], part) ==>
      var take := Min(drain, lots[0].qty);
      FillSome(lots, part, drain, k)
        == [lots[0].(remaining := Some(lots[0].qty - take))] + FillSome(lots[1..], part, drain - take, k - 1)
    ensures IsUnfilled(lots[0], part) ==> FirstQty(lots, part, k) == lots[0].qty + FirstQty(lots[1..], part, k - 1)
    ensures !IsUnfilled(lots[0], part) ==>
      FillSome(lots, part, drain, k) == [lots[0]] + FillSome(lots[1..], part, drain, k)
      && FirstQty(lots, part, k) == FirstQty(lots[1..], part, k)
  {
  }

  /** Draining a and then b is draining their sum. */
  lemma DrainTwice(drain: int, a: int, b: int)
    requires 0 <= drain && 0 <= a && 0 <= b
    ensures drain - Min(drain, a) - Min(drain - Min(drain, a), b) == drain - Min(drain, a + b)
  {
  }

  lemma SumBefore(lots: seq<OldLot>, part: int, i: nat)
    requires QtysOk(lots) && 0 < i < |lots|
    ensures Sum(lots[..i], UnfilledQty(part)) == UnfilledQty(part)(lots[0]) + Sum(lots[1..][..i - 1], UnfilledQty(part))
    ensures 0 <= Sum(lots[1..][..i - 1], UnfilledQty(part))
  {
    assert lots[..i][1..] == lots[1..][..i - 1];
    SumNonNegative(lots[1..][..i - 1], UnfilledQty(part));
  }

  /** What a row loses: what is left to drain when its turn comes, up to all it has. */
  lemma {:induction false} FillValue(lots: seq<OldLot>, part: int, drain: int, k: nat, i: nat)
    requires QtysOk(lots) && 0 <= drain && |Unfilled(lots, part)| <= k && i < |lots|
    ensures var left := drain - Min(drain, Sum(lots[..i], UnfilledQty(part)));
      FillSome(lots, part, drain, k)[i]
        == if IsUnfilled(lots[i], part) then lots[i].(remaining := Some(lots[i].qty - Min(left, lots[i].qty))) else lots[i]
    decreases |lots|
  {
    var rest := lots[1..];
    if k == 0 {
      FillNone(lots, part);
    } else {
      FillUnfold(lots, part, drain, k);
      UnfilledTail(lots, part);
      hide FillSome, Unfilled, Sum, Min, FirstQty, UnfilledQty;
      if i > 0 {
        SumBefore(lots, part, i);
        if IsUnfilled(lots[0], part) {
          DrainTwice(drain, lots[0].qty, Sum(rest[..i - 1], UnfilledQty(part)));
          MinBounds(drain, lots[0].qty);
          FillValue(rest, part, drain - Min(drain, lots[0].qty), k - 1, i - 1);
        } else {
          FillValue(rest, part, drain, k, i - 1);
        }
      } else {
        assert Sum(lots[..0], UnfilledQty(part)) == 0 by { SumZero(lots[..0], UnfilledQty(part)); }
        DrainTwice(drain, 0, 0);
      }
    }
  }

  lemma MinBounds(a: int, b: int)
    ensures Min(a, b) <= a && Min(a, b) <= b && (Min(a, b) == a || Min(a, b) == b)
  {
  }

  lemma UnfilledBefore(lots: seq<OldLot>, part: int, i: nat, j: nat)
    requires QtysOk(lots) && i < j < |lots| && IsUnfilled(lots[i], part)
    ensures 0 <= Sum(lots[..i], UnfilledQty(part)) <= Sum(lots[..j], UnfilledQty(part)) - lots[i].qty
  {
    var f := UnfilledQty(part);
    assert lots[..j] == lots[..i] + ([lots[i]] + lots[i + 1..j]);
    SumConcat(lots[..i], [lots[i]] + lots[i + 1..j], f);
    SumNonNegative([lots[i]] + lots[i + 1..j], f);
    assert ([lots[i]] + lots[i + 1..j])[0] == lots[i];
    SumNonNegative(lots[..i], f);
  }

  /** Every filled row ends between zero and its quantity; rows of other parts and rows filled before are not
      touched. */
  lemma FillBounds(lots: seq<OldLot>, part: int, drain: int, k: nat, i: nat)
    requires QtysOk(lots) && 0 <= drain && |Unfilled(lots, part)| <= k && i < |lots|
    ensures var r := FillSome(lots, part, drain, k)[i];
      if IsUnfilled(lots[i], part) then r == lots[i].(remaining := r.remaining) && r.remaining.Some? && 0 <= r.remaining.value <= lots[i].qty
      else r == lots[i]
  {
    FillValue(lots, part, drain, k, i);
    SumNonNegative(lots[..i], UnfilledQty(part));
  }

  /** Oldest first: a row keeps something only if every later row of the part keeps everything. */
  lemma OldestDrainedFirst(lots: seq<OldLot>, part: int, drain: int, k: nat, i: nat, j: nat)
    requires QtysOk(lots) && 0 <= drain && |Unfilled(lots, part)| <= k && i < j < |lots|
    requires IsUnfilled(lots[i], part) && IsUnfilled(lots[j], part)
    requires FillSome(lots, part, drain, k)[i].remaining != Some(0)
    ensures FillSome(lots, part, drain, k)[j].remaining == Some(lots[j].qty)
  {
    FillValue(lots, part, drain, k, i);
    FillValue(lots, part, drain, k, j);
    UnfilledBefore(lots, part, i, j);
  }

  lemma FillNone(lots: seq<OldLot>, part: int)
    requires Unfilled(lots, part) == []
    ensures forall i :: 0 <= i < |lots| ==> !IsUnfilled(lots[i], part)
  {
    forall i | 0 <= i < |lots| ensures !IsUnfilled(lots[i], part) {
      assert lots[i] in lots;
      assert lots[i] !in Unfilled(lots, part);
    }
  }

  // ---- Stopping and running again ----

  /** Filling k rows and then m more, with what is left to drain, is filling k + m. */
  lemma {:induction false} FillResumes(lots: seq<OldLot>, part: int, drain: int, k: nat, m: nat)
    requires QtysOk(lots) && 0 <= drain
    ensures FillSome(FillSome(lots, part, drain, k), part, drain - Min(drain, FirstQty(lots, part, k)), m)
         == FillSome(lots, part, drain, k + m)
    decreases |lots|
  {
    if lots != [] && k != 0 {
      var first := FillSome(lots, part, drain, k);
      if IsUnfilled(lots[0], part) {
        var take := Min(drain, lots[0].qty);
        FillResumes(lots[1..], part, drain - take, k - 1, m);
        FirstQtyBounds(lots[1..], part, k - 1);
        assert first[1..] == FillSome(lots[1..], part, drain - take, k - 1);
      } else {
        FillResumes(lots[1..], part, drain, k, m);
        assert first[1..] == FillSome(lots[1..], part, drain, k);
      }
    }
  }

  /** The migration stopped after `k` of its row updates and run again ends as if it had not stopped, except
      when the stop falls after the last update and a surplus was still to be booked. */
  lemma StoppedRunResumes(lots: seq<OldLot>, part: PartRow, next: int, k: nat)
    requires QtysOk(lots) && k <= |Unfilled(lots, part.id)| && 0 < |Unfilled(lots, part.id)|
    ensures var stopped := FillSome(lots, part.id, Drain(lots, part), k);
      (BackfillPart(stopped, part, next) == BackfillPart(lots, part, next))
        <==> (k < |Unfilled(lots, part.id)| || Surplus(lots, part) == 0)
  {
    var n := |Unfilled(lots, part.id)|;
    var d := Drain(lots, part);
    var q := FirstQty(lots, part.id, k);
    var stopped := FillSome(lots, part.id, d, k);
    FirstQtyBounds(lots, part.id, k);
    FillSomeSums(lots, part.id, d, k, part.id);
    FillAllUnfilled(lots, part.id, d, k);
    FillResumes(lots, part.id, d, k, n - k);
    if k < n {
      assert Drain(stopped, part) == d - Min(d, q);
      assert Surplus(stopped, part) == Surplus(lots, part);
    }
  }

  // ---- The migration as it runs ----

  /** UPDATE part_inbounds SET remaining = ? WHERE id = ? */
  function SetFilled(lots: seq<OldLot>, id: int, value: int): (r: seq<OldLot>)
    ensures |r| == |lots|
    ensures forall i :: 0 <= i < |r| ==> r[i] == if lots[i].id == id then lots[i].(remaining := Some(value)) else lots[i]
  {
    seq(|lots|, i requires 0 <= i < |lots| => if lots[i].id == id then lots[i].(remaining := Some(value)) else lots[i])
  }

  /** A table in id order. */
  ghost predicate InIdOrder(lots: seq<OldLot>) {
    forall i, j :: 0 <= i < j < |lots| ==> lots[i].id < lots[j].id
  }

  /** The (k + 1)st update writes `row`, with the drain the rows before it have left. */
  ghost predicate NextUpdate(lots: seq<OldLot>, part: int, drain: int, k: nat, row: OldLot) {
    var left := drain - Min(drain, FirstQty(lots, part, k));
    && FillSome(lots, part, drain, k + 1) == SetFilled(FillSome(lots, part, drain, k), row.id, row.qty - Min(left, row.qty))
    && FirstQty(lots, part, k + 1) == FirstQty(lots, part, k) + row.qty
  }

  lemma NextUpdateFirst(lots: seq<OldLot>, part: int, drain: int)
    requires InIdOrder(lots) && lots != [] && IsUnfilled(lots[0], part) && 0 <= drain
    ensures NextUpdate(lots, part, drain, 0, lots[0])
  {
    OtherIds(lots[1..], lots[0].id, lots);
    FillUnfold(lots, part, drain, 1);
    FillNothing(lots, part, drain);
    FillNothing(lots[1..], part, drain - Min(drain, lots[0].qty));
    hide FillSome, FirstQty;
    var v := lots[0].qty - Min(drain, lots[0].qty);
    assert SetFilled(lots, lots[0].id, v) == [lots[0].(remaining := Some(v))] + SetFilled(lots, lots[0].id, v)[1..];
  }

  lemma PrependUpdate(h: OldLot, before: seq<OldLot>, after: seq<OldLot>, id: int, v: int)
    requires after == SetFilled(before, id, v) && h.id != id
    ensures [h] + after == SetFilled([h] + before, id, v)
  {
  }

  /** The update of a later row, seen past an unfilled first row. */
  lemma NextUpdatePast(lots: seq<OldLot>, part: int, drain: int, k: nat, row: OldLot)
    requires QtysOk(lots) && lots != [] && IsUnfilled(lots[0], part) && 0 <= drain && row.id != lots[0].id
    requires NextUpdate(lots[1..], part, drain - Min(drain, lots[0].qty), k, row)
    ensures NextUpdate(lots, part, drain, k + 1, row)
  {
    var rest, take := lots[1..], Min(drain, lots[0].qty);
    var h := lots[0].(remaining := Some(lots[0].qty - take));
    assert 0 <= FirstQty(rest, part, k) && 0 <= lots[0].qty by { FirstQtyBounds(rest, part, k); }
    hide FillSome, FirstQty, Sum, Unfilled, Min, SetFilled, QtysOk;
    FillUnfold(lots, part, drain, k + 1);
    FillUnfold(lots, part, drain, k + 2);
    DrainTwice(drain, lots[0].qty, FirstQty(rest, part, k));
    var left := drain - take - Min(drain - take, FirstQty(rest, part, k));
    assert drain - Min(drain, FirstQty(lots, part, k + 1)) == left;
    assert FirstQty(lots, part, k + 2) == FirstQty(lots, part, k + 1) + row.qty;
    PrependUpdate(h, FillSome(rest, part, drain - take, k), FillSome(rest, part, drain - take, k + 1), row.id, row.qty - Min(left, row.qty));
  }

  /** ... and past a first row that is not to be filled. */
  lemma NextUpdateOver(lots: seq<OldLot>, part: int, drain: int, k: nat, row: OldLot)
    requires lots != [] && !IsUnfilled(lots[0], part) && 0 <= drain && row.id != lots[0].id
    requires NextUpdate(lots[1..], part, drain, k, row)
    ensures NextUpdate(lots, part, drain, k, row)
  {
    var rest := lots[1..];
    FillNothing(rest, part, drain);
    FillNothing(lots, part, drain);
    assert lots == [lots[0]] + rest;
    hide FillSome, FirstQty, Min;
    FillUnfold(lots, part, drain, k + 1);
    if k > 0 {
      FillUnfold(lots, part, drain, k);
    }
    var left := drain - Min(drain, FirstQty(rest, part, k));
    PrependUpdate(lots[0], FillSome(rest, part, drain, k), FillSome(rest, part, drain, k + 1), row.id, row.qty - Min(left, row.qty));
  }

  /** A later unfilled row is not the first row. */
  lemma OtherRow(lots: seq<OldLot>, part: int, k: nat)
    requires InIdOrder(lots) && lots != [] && k < |Unfilled(lots[1..], part)|
    ensures Unfilled(lots[1..], part)[k].id != lots[0].id
  {
    RowInTable(lots[1..], part, k);
    var i :| 0 <= i < |lots[1..]| && lots[1..][i] == Unfilled(lots[1..], part)[k];
    assert lots[i + 1].id != lots[0].id;
  }

  lemma {:induction false} FillNext(lots: seq<OldLot>, part: int, drain: int, k: nat)
    requires InIdOrder(lots) && QtysOk(lots) && 0 <= drain && k < |Unfilled(lots, part)|
    ensures NextUpdate(lots, part, drain, k, Unfilled(lots, part)[k])
    decreases |lots|
  {
    hide NextUpdate;
    var rest := lots[1..];
    assert InIdOrder(rest) && QtysOk(rest) by {
      assert forall i :: 0 <= i < |rest| ==> rest[i] == lots[i + 1];
    }
    if !IsUnfilled(lots[0], part) {
      assert Unfilled(lots, part) == [] + Unfilled(rest, part) == Unfilled(rest, part);
      FillNext(rest, part, drain, k);
      OtherRow(lots, part, k);
      NextUpdateOver(lots, part, drain, k, Unfilled(rest, part)[k]);
    } else if k == 0 {
      NextUpdateFirst(lots, part, drain);
    } else {
      assert Unfilled(lots, part) == [lots[0]] + Unfilled(rest, part);
      FillNext(rest, part, drain - Min(drain, lots[0].qty), k - 1);
      OtherRow(lots, part, k - 1);
      NextUpdatePast(lots, part, drain, k - 1, Unfilled(rest, part)[k - 1]);
    }
  }

  lemma RowInTable(lots: seq<OldLot>, part: int, k: nat)
    requires k < |Unfilled(lots, part)|
    ensures exists i :: 0 <= i < |lots| && lots[i] == Unfilled(lots, part)[k]
  {
    assert Unfilled(lots, part)[k] in Unfilled(lots, part);
  }

  lemma OtherIds(rest: seq<OldLot>, id: int, lots: seq<OldLot>)
    requires InIdOrder(lots) && lots != [] && rest == lots[1..] && id == lots[0].id
    ensures SetFilled(lots, id, 0)[1..] == rest
    ensures forall v :: SetFilled(lots, id, v)[1..] == rest
  {
    forall v ensures SetFilled(lots, id, v)[1..] == rest {
      forall i | 0 <= i < |rest| ensures SetFilled(lots, id, v)[1..][i] == rest[i] {
        assert lots[i + 1].id != lots[0].id;
      }
    }
  }

  ghost predicate SchemaOf(lots: seq<OldLot>, next: int) {
    0 < next && InIdOrder(lots) && QtysOk(lots) && forall i :: 0 <= i < |lots| ==> 0 < lots[i].id < next
  }

  lemma BackfillKeepsSchema(lots: seq<OldLot>, part: PartRow, next: int)
    requires SchemaOf(lots, next)
    ensures var r := BackfillPart(lots, part, next); |lots| <= |r| && SchemaOf(r, next + |r| - |lots|)
  {
    FillKeepsSchema(lots, part.id, Drain(lots, part), |Unfilled(lots, part.id)|);
  }

  function BackfillAll(lots: seq<OldLot>, parts: seq<PartRow>, next: int): seq<OldLot>
    decreases |parts|
  {
    if parts == [] then lots
    else
      var r := BackfillPart(lots, parts[0], next);
      BackfillAll(r, parts[1..], next + |r| - |lots|)
  }

  // ---- The whole migration ----

  /** Filling one part's rows leaves the rows of the others alone. */
  lemma {:induction false} FillLeavesOthers(lots: seq<OldLot>, part: int, drain: int, k: nat, q: int)
    requires q != part
    ensures Unfilled(FillSome(lots, part, drain, k), q) == Unfilled(lots, q)
    decreases |lots|
  {
    if lots != [] && k != 0 {
      var r := FillSome(lots, part, drain, k);
      if IsUnfilled(lots[0], part) {
        var take := Min(drain, lots[0].qty);
        FillLeavesOthers(lots[1..], part, drain - take, k - 1, q);
        assert r[1..] == FillSome(lots[1..], part, drain - take, k - 1);
      } else {
        FillLeavesOthers(lots[1..], part, drain, k, q);
        assert r[1..] == FillSome(lots[1..], part, drain, k);
      }
    }
  }

  lemma BackfillLeavesOthers(lots: seq<OldLot>, part: PartRow, next: int, q: int)
    requires QtysOk(lots) && q != part.id
    ensures var r := BackfillPart(lots, part, next); Unfilled(r, q) == Unfilled(lots, q) && Filled(r, q) == Filled(lots, q)
  {
    var n := |Unfilled(lots, part.id)|;
    var filled := FillSome(lots, part.id, Drain(lots, part), n);
    FillLeavesOthers(lots, part.id, Drain(lots, part), n, q);
    FillSomeSums(lots, part.id, Drain(lots, part), n, q);
    var s := Surplus(lots, part);
    if 0 < s {
      var row := OldLot(next, part.id, s, Some(s));
      SumAppend(filled, row, FilledOf(q));
      KeepConcat(filled, [row], (l: OldLot) => IsUnfilled(l, q));
      assert Unfilled(filled, q) + [] == Unfilled(filled, q);
    }
  }

  lemma BackfillKeepsQtys(lots: seq<OldLot>, part: PartRow, next: int)
    requires QtysOk(lots)
    ensures QtysOk(BackfillPart(lots, part, next))
  {
    FillSomeSums(lots, part.id, Drain(lots, part), |Unfilled(lots, part.id)|, part.id);
  }

  ghost predicate DistinctParts(parts: seq<PartRow>) { forall i, j :: 0 <= i < j < |parts| ==> parts[i].id != parts[j].id }

  lemma {:induction false} RestLeaves(lots: seq<OldLot>, parts: seq<PartRow>, next: int, q: int)
    requires QtysOk(lots) && forall i :: 0 <= i < |parts| ==> parts[i].id != q
    ensures var end := BackfillAll(lots, parts, next); Unfilled(end, q) == Unfilled(lots, q) && Filled(end, q) == Filled(lots, q)
    decreases |parts|
  {
    hide BackfillPart, Unfilled, Filled, QtysOk;
    if parts != [] {
      var first, rest := parts[0], parts[1..];
      var r := BackfillPart(lots, first, next);
      BackfillLeavesOthers(lots, first, next, q);
      BackfillKeepsQtys(lots, first, next);
      RestLeaves(r, rest, next + |r| - |lots|, q);
    }
  }

  /** After the whole migration no listed part has an unfilled row left; a part that had one ends balanced exactly
      when its rows filled before did not already exceed its stock, and any other part keeps its sum. */
  lemma {:induction false} MigrationBalances(lots: seq<OldLot>, parts: seq<PartRow>, next: int, k: nat)
    requires QtysOk(lots) && DistinctParts(parts) && k < |parts|
    ensures var end, part := BackfillAll(lots, parts, next), parts[k];
      && Unfilled(end, part.id) == []
      && (Unfilled(lots, part.id) != [] ==> Filled(end, part.id) == Max(part.stock, Filled(lots, part.id)))
      && (Unfilled(lots, part.id) != [] ==> (Filled(end, part.id) == part.stock <==> Filled(lots, part.id) <= part.stock))
      && (Unfilled(lots, part.id) == [] ==> Filled(end, part.id) == Filled(lots, part.id))
    decreases |parts|
  {
    hide Unfilled, Filled, QtysOk;
    var first, rest := parts[0], parts[1..];
    var r := BackfillPart(lots, first, next);
    var next1 := next + |r| - |lots|;
    BackfillKeepsQtys(lots, first, next);
    if k == 0 {
      RestLeaves(r, rest, next1, first.id);
      FirstBalances(lots, first, next);
    } else {
      assert rest[k - 1] == parts[k];
      BackfillLeavesOthers(lots, first, next, parts[k].id);
      hide BackfillPart;
      MigrationBalances(r, rest, next1, k - 1);
    }
  }

  lemma FirstBalances(lots: seq<OldLot>, part: PartRow, next: int)
    requires QtysOk(lots)
    ensures var r := BackfillPart(lots, part, next);
      && Unfilled(r, part.id) == []
      && (Unfilled(lots, part.id) != [] ==> Filled(r, part.id) == Max(part.stock, Filled(lots, part.id)))
      && (Unfilled(lots, part.id) != [] ==> (Filled(r, part.id) == part.stock <==> Filled(lots, part.id) <= part.stock))
      && (Unfilled(lots, part.id) == [] ==> r == lots)
  {
    if Unfilled(lots, part.id) != [] {
      BackfillBalances(lots, part, next);
    }
  }

  lemma {:induction false} NothingToFill(lots: seq<OldLot>, parts: seq<PartRow>, next: int)
    requires forall i :: 0 <= i < |parts| ==> Unfilled(lots, parts[i].id) == []
    ensures BackfillAll(lots, parts, next) == lots
    decreases |parts|
  {
    if parts != [] {
      hide Unfilled;
      assert BackfillPart(lots, parts[0], next) == lots;
      NothingToFill(lots, parts[1..], next);
    }
  }

  /** Running the whole migration a second time, even with other stocks, changes nothing. */
  lemma SecondRunChangesNothing(lots: seq<OldLot>, parts: seq<PartRow>, next: int, again: seq<PartRow>, later: int)
    requires QtysOk(lots) && DistinctParts(parts) && |again| == |parts|
    requires forall i :: 0 <= i < |parts| ==> again[i].id == parts[i].id
    ensures var end := BackfillAll(lots, parts, next); BackfillAll(end, again, later) == end
  {
    hide Unfilled, Filled, QtysOk;
    var end := BackfillAll(lots, parts, next);
    forall i | 0 <= i < |again| ensures Unfilled(end, again[i].id) == [] { MigrationBalances(lots, parts, next, i); }
    NothingToFill(end, again, later);
  }

  // ---- The stop that does not resume ----

  /** One lot of 5.00 of a part with 8.00 in stock: stopped between filling the lot and booking the surplus, the
      migration never books it, and the part keeps 5.00 in its lots. */
  lemma StopLosesSurplus()
    ensures var lots, part := [OldLot(1, 1, 5_00, None)], PartRow(1, 8_00);
      var stopped := FillSome(lots, 1, Drain(lots, part), 1);
      && stopped == [OldLot(1, 1, 5_00, Some(5_00))]
      && BackfillPart(stopped, part, 2) == stopped && Filled(stopped, 1) == 5_00
      && Filled(BackfillPart(lots, part, 2), 1) == 8_00
  {
    var lots, part := [OldLot(1, 1, 5_00, None)], PartRow(1, 8_00);
    assert Total(lots, part) == 5_00 && Filled(lots, 1) == 0;
    assert Unfilled(lots, 1) == lots;
    var stopped := FillSome(lots, 1, 0, 1);
    assert stopped == [OldLot(1, 1, 5_00, Some(5_00))];
    assert Filled(stopped, 1) == 5_00 && Unfilled(stopped, 1) == [];
    BackfillBalances(lots, part, 2);
  }

  /** The migrated table: rows change one UPDATE at a time. */
  class Migration {
    var lots: seq<OldLot>
    var next: int

    /** The schema: ids grow and stay below the next one, no quantity is negative. */
    ghost predicate Schema()
      reads this
    {
      SchemaOf(lots, next)
    }

    constructor (rows: seq<OldLot>, nextId: int)
      ensures lots == rows && next == nextId
    {
      lots, next := rows, nextId;
    }

    method TotalQty(rows: seq<OldLot>) returns (total: int)
      ensures total == Sum(rows, QtyOf())
    {
      total := 0;
      for i := 0 to |rows|
        invariant total == Sum(rows[..i], QtyOf())
      {
        SumNextRow(rows, i);
        total := total + rows[i].qty;
      }
      assert rows[..|rows|] == rows;
    }

    /** One UPDATE per row, oldest first, draining as it goes. */
    method FillRows(part: int, rows: seq<OldLot>, first: int)
      requires Schema() && rows == Unfilled(lots, part) && 0 <= first
      modifies this`lots
      ensures lots == FillSome(old(lots), part, first, |rows|)
    {
      hide FillSome, Keep, Sum;
      var drain := first;
      FillNothing(lots, part, first);
      for i := 0 to |rows|
        invariant lots == FillSome(old(lots), part, first, i)
        invariant drain == first - Min(first, FirstQty(old(lots), part, i))
      {
        FillNext(old(lots), part, first, i);
        FirstQtyBounds(old(lots), part, i);
        RowInTable(old(lots), part, i);
        var left := rows[i].qty;
        if drain > 0 {
          var take := drain;
          if take > left {
            take := left;
          }
          left := left - take;
          drain := drain - take;
        }
        lots := SetFilled(lots, rows[i].id, left);
      }
    }

    method FillPart(part: PartRow)
      requires Schema()
      modifies this
      ensures Schema()
      ensures lots == BackfillPart(old(lots), part, old(next))
      ensures next == old(next) + |lots| - |old(lots)|
    {
      var rows := Unfilled(lots, part.id);
      if |rows| == 0 {
        return;
      }
      hide FillSome, Unfilled, Sum, Filled, IsUnfilled, SchemaOf;
      BackfillKeepsSchema(lots, part, next);
      var total := TotalQty(rows);
      TotalOfRows(lots, part, rows);
      var done := Filled(lots, part.id);
      var stock := part.stock - done;
      if stock < 0 {
        stock := 0;
      }
      var drain := if stock >= total then 0 else total - stock;
      FillRows(part.id, rows, drain);
      if stock > total {
        lots := lots + [OldLot(next, part.id, stock - total, Some(stock - total))];
        next := next + 1;
      }
    }

    method Run(parts: seq<PartRow>)
      requires Schema()
      modifies this
      ensures lots == BackfillAll(old(lots), parts, old(next))
    {
      hide BackfillPart, SchemaOf;
      assert parts[0..] == parts;
      for i := 0 to |parts|
        invariant Schema()
        invariant BackfillAll(lots, parts[i..], next) == BackfillAll(old(lots), parts, old(next))
      {
        assert parts[i..][0] == parts[i] && parts[i..][1..] == parts[i + 1..];
        FillPart(parts[i]);
      }
    }
  }

  lemma SumNextRow(rows: seq<OldLot>, i: nat)
    requires i < |rows|
    ensures Sum(rows[..i + 1], QtyOf()) == Sum(rows[..i], QtyOf()) + rows[i].qty
    ensures Sum(rows[..0], QtyOf()) == 0
  {
    assert rows[..i + 1] == rows[..i] + [rows[i]];
    SumAppend(rows[..i], rows[i], QtyOf());
  }

  lemma TotalOfRows(lots: seq<OldLot>, part: PartRow, rows: seq<OldLot>)
    requires rows == Unfilled(lots, part.id)
    ensures Sum(rows, QtyOf()) == Total(lots, part)
  {
    SumKeep(lots, (l: OldLot) => IsUnfilled(l, part.id), QtyOf(), UnfilledQty(part.id));
  }

  lemma FillNothing(lots: seq<OldLot>, part: int, drain: int)
    ensures FillSome(lots, part, drain, 0) == lots && FirstQty(lots, part, 0) == 0
  {
  }

  lemma {:induction false} FillKeepsSchema(lots: seq<OldLot>, part: int, drain: int, k: nat)
    ensures var r := FillSome(lots, part, drain, k);
      forall i :: 0 <= i < |lots| ==> r[i].id == lots[i].id && r[i].qty == lots[i].qty && r[i].part == lots[i].part
    decreases |lots|
  {
    if lots != [] && k != 0 {
      if IsUnfilled(lots[0], part) {
        FillKeepsSchema(lots[1..], part, drain - Min(drain, lots[0].qty), k - 1);
      } else {
        FillKeepsSchema(lots[1..], part, drain, k);
      }
    }
  }
}
