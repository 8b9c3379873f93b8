/** Drawing a quantity from a part's lots: first along a plan of (lot, quantity) steps, then first-in
    first-out over the lots the plan does not name. The specification is a greedy fill of one list of
    offers; the theorems say exactly when a draw succeeds and which lots it touches. */
module Draw {
  import opened Sums
  import opened Tables

  /** One step of a batch's recorded plan: take at most `qty` from `lot`. */
  datatype PlanStep = PlanStep(lot: int, qty: int)

  /** The most a lot can give at its turn. */
  datatype Offer = Offer(lot: int, amount: int)

  datatype Take = Take(lot: int, qty: int)

  // ---- Weights ----

  function Amount(): Offer -> int { (o: Offer) => o.amount }

  function Taken(): Take -> int { (t: Take) => t.qty }

  function TakenAt(lot: int): Take -> int { (t: Take) => if t.lot == lot then t.qty else 0 }

  // ---- Specification ----

  /** The part's lots, oldest first: ORDER BY created_at, id. */
  function FifoList(lots: seq<Lot>, part: int): seq<Lot> {
    OrderBy(Keep(lots, (l: Lot) => l.part == part), (l: Lot) => l.createdAt)
  }

  predicate Named(plan: seq<PlanStep>, lot: int) {
    exists i :: 0 <= i < |plan| && plan[i].lot == lot
  }

  /** What a lot holding `remaining` gives under a cap: nothing unless both are positive. */
  function OfferOf(remaining: int, cap: int): (n: int)
    ensures 0 <= n
    ensures 0 < n ==> n <= remaining && n <= cap
  {
    if remaining <= 0 || cap <= 0 then 0 else Min(remaining, cap)
  }

  /** Phase one: the plan's lots in plan order, a lot at its first mention only. */
  function PlannedOffers(list: seq<Lot>, plan: seq<PlanStep>, used: set<int>): seq<Offer> {
    if plan == [] then []
    else
      var step := plan[0];
      var found := FindLot(list, step.lot);
      if found.None? || step.lot in used then PlannedOffers(list, plan[1..], used)
      else [Offer(step.lot, OfferOf(found.value.remaining, step.qty))]
           + PlannedOffers(list, plan[1..], used + {step.lot})
  }

  /** Phase two: the lots the plan does not name, oldest first, each with all it has. */
  function UnplannedOffers(list: seq<Lot>, plan: seq<PlanStep>): seq<Offer> {
    if list == [] then []
    else
      (if Named(plan, list[0].id) then [] else [Offer(list[0].id, OfferOf(list[0].remaining, list[0].remaining))])
      + UnplannedOffers(list[1..], plan)
  }

  function Offers(list: seq<Lot>, plan: seq<PlanStep>): seq<Offer> {
    PlannedOffers(list, plan, {}) + UnplannedOffers(list, plan)
  }

  /** Take from each offer in turn until `left` is covered. */
  function Greedy(offers: seq<Offer>, left: int): seq<Take> {
    if offers == [] || left <= 0 then []
    else
      var n := Min(offers[0].amount, left);
      (if n <= 0 then [] else [Take(offers[0].lot, n)]) + Greedy(offers[1..], left - if n <= 0 then 0 else n)
  }

  /** The rows after the takes: each lot loses what was taken from it. */
  function ApplyTakes(lots: seq<Lot>, takes: seq<Take>): (r: seq<Lot>)
    ensures |r| == |lots|
    ensures forall i :: 0 <= i < |r| ==>
      r[i] == lots[i].(remaining := lots[i].remaining - Sum(takes, TakenAt(lots[i].id)))
  {
    seq(|lots|, i requires 0 <= i < |lots| =>
      lots[i].(remaining := lots[i].remaining - Sum(takes, TakenAt(lots[i].id))))
  }

  function DrawRows(batch: int, takes: seq<Take>): (r: seq<DrawRow>)
    ensures |r| == |takes|
    ensures forall i :: 0 <= i < |r| ==> r[i] == DrawRow(batch, takes[i].lot, takes[i].qty)
  {
    seq(|takes|, i requires 0 <= i < |takes| => DrawRow(batch, takes[i].lot, takes[i].qty))
  }

  // ---- Offers describe the part's lots ----

  ghost predicate OffersNonNegative(offers: seq<Offer>) {
    forall i :: 0 <= i < |offers| ==> 0 <= offers[i].amount
  }

  ghost predicate DistinctOffers(offers: seq<Offer>) {
    forall i, j :: 0 <= i < j < |offers| ==> offers[i].lot != offers[j].lot
  }

  /** Every planned offer is a plan step's share of its lot: never above the lot, never above the plan. */
  ghost predicate FromPlan(o: Offer, list: seq<Lot>, plan: seq<PlanStep>) {
    exists i, l :: 0 <= i < |plan| && l in list && plan[i].lot == l.id == o.lot
      && o.amount == OfferOf(l.remaining, plan[i].qty)
  }

  ghost predicate FromUnplanned(o: Offer, list: seq<Lot>, plan: seq<PlanStep>) {
    !Named(plan, o.lot) && exists l :: l in list && l.id == o.lot && o.amount == OfferOf(l.remaining, l.remaining)
  }

  lemma {:induction false} PlannedOffersFacts(list: seq<Lot>, plan: seq<PlanStep>, used: set<int>)
    ensures var os := PlannedOffers(list, plan, used);
      && (forall i :: 0 <= i < |os| ==> FromPlan(os[i], list, plan) && os[i].lot !in used)
      && DistinctOffers(os) && OffersNonNegative(os)
  {
    if plan != [] {
      var step := plan[0];
      var found := FindLot(list, step.lot);
      var isNew := found.Some? && step.lot !in used;
      var rest := PlannedOffers(list, plan[1..], if isNew then used + {step.lot} else used);
      PlannedOffersFacts(list, plan[1..], if isNew then used + {step.lot} else used);
      forall o | FromPlan(o, list, plan[1..]) ensures FromPlan(o, list, plan) {
        var i, l :| 0 <= i < |plan[1..]| && l in list && plan[1..][i].lot == l.id == o.lot
          && o.amount == OfferOf(l.remaining, plan[1..][i].qty);
        assert plan[i + 1] == plan[1..][i];
      }
      if isNew {
        var o := Offer(step.lot, OfferOf(found.value.remaining, step.qty));
        assert FromPlan(o, list, plan) by { assert plan[0].lot == found.value.id == o.lot; }
        assert PlannedOffers(list, plan, used) == [o] + rest;
      }
    }
  }

  lemma {:induction false} UnplannedOffersFacts(list: seq<Lot>, plan: seq<PlanStep>)
    requires forall i, j :: 0 <= i < j < |list| ==> list[i].id != list[j].id
    ensures var os := UnplannedOffers(list, plan);
      && (forall i :: 0 <= i < |os| ==> FromUnplanned(os[i], list, plan))
      && DistinctOffers(os) && OffersNonNegative(os)
  {
    if list != [] {
      var rest := UnplannedOffers(list[1..], plan);
      UnplannedOffersFacts(list[1..], plan);
      forall o | FromUnplanned(o, list[1..], plan) ensures FromUnplanned(o, list, plan) && o.lot != list[0].id {
        var l :| l in list[1..] && l.id == o.lot && o.amount == OfferOf(l.remaining, l.remaining);
        var k :| 0 <= k < |list[1..]| && list[1..][k] == l;
        assert list[k + 1] == l && l in list;
      }
      if !Named(plan, list[0].id) {
        var o := Offer(list[0].id, OfferOf(list[0].remaining, list[0].remaining));
        assert FromUnplanned(o, list, plan);
        assert UnplannedOffers(list, plan) == [o] + rest;
      } else {
        assert UnplannedOffers(list, plan) == rest;
      }
    }
  }

  lemma OffersFacts(list: seq<Lot>, plan: seq<PlanStep>)
    requires forall i, j :: 0 <= i < j < |list| ==> list[i].id != list[j].id
    ensures DistinctOffers(Offers(list, plan)) && OffersNonNegative(Offers(list, plan))
    ensures forall i :: 0 <= i < |Offers(list, plan)| ==> InList(list, Offers(list, plan)[i].lot)
  {
    var a, b := PlannedOffers(list, plan, {}), UnplannedOffers(list, plan);
    PlannedOffersFacts(list, plan, {});
    UnplannedOffersFacts(list, plan);
    var os := Offers(list, plan);
    forall i | 0 <= i < |os| ensures InList(list, os[i].lot) {
      if i < |a| { assert FromPlan(a[i], list, plan); } else { assert FromUnplanned(b[i - |a|], list, plan); }
    }
    forall i, j | 0 <= i < j < |os| ensures os[i].lot != os[j].lot {
      if i < |a| <= j {
        assert FromPlan(a[i], list, plan) && FromUnplanned(b[j - |a|], list, plan);
      } else if |a| <= i {
        assert os[i] == b[i - |a|] && os[j] == b[j - |a|];
      }
    }
    forall i | 0 <= i < |os| ensures 0 <= os[i].amount {
      if |a| <= i { assert os[i] == b[i - |a|]; }
    }
  }

  // ---- The greedy fill ----

  /** The fill takes all it can and no more: the least of what is wanted and what is offered. */
  lemma {:induction false} GreedyTotal(offers: seq<Offer>, left: int)
    requires OffersNonNegative(offers) && 0 <= left
    ensures Sum(Greedy(offers, left), Taken()) == Min(Sum(offers, Amount()), left)
  {
    if offers == [] {
    } else if left == 0 {
      SumNonNegative(offers, Amount());
    } else {
      var n := Min(offers[0].amount, left);
      GreedyTotal(offers[1..], left - n);
      SumConcat(if n <= 0 then [] else [Take(offers[0].lot, n)], Greedy(offers[1..], left - n), Taken());
      SumNonNegative(offers[1..], Amount());
    }
  }

  /** What one offer gives: its amount, or what is still wanted when its turn comes, or nothing. */
  function Share(offers: seq<Offer>, left: int, k: nat): int
    requires k < |offers|
  {
    var before := Sum(offers[..k], Amount());
    if left <= before then 0 else Min(offers[k].amount, left - before)
  }

  lemma {:induction false} GreedyAbsent(offers: seq<Offer>, left: int, lot: int)
    requires forall i :: 0 <= i < |offers| ==> offers[i].lot != lot
    ensures Sum(Greedy(offers, left), TakenAt(lot)) == 0
  {
    if offers != [] && left > 0 {
      var n := Min(offers[0].amount, left);
      var m := if n <= 0 then 0 else n;
      GreedyAbsent(offers[1..], left - m, lot);
      SumConcat(if n <= 0 then [] else [Take(offers[0].lot, n)], Greedy(offers[1..], left - m), TakenAt(lot));
    }
  }

  /** Once an offer has had its turn, the later shares are those of the rest of the list. */
  lemma ShareStep(offers: seq<Offer>, left: int, k: nat)
    requires OffersNonNegative(offers) && 0 < k < |offers| && 0 < left
    ensures Share(offers, left, k) == Share(offers[1..], left - Min(offers[0].amount, left), k - 1)
  {
    var rest := offers[1..];
    assert offers[..k][1..] == rest[..k - 1];
    assert Sum(offers[..k], Amount()) == offers[0].amount + Sum(rest[..k - 1], Amount());
    SumNonNegative(rest[..k - 1], Amount());
  }

  /** Exactly how much each lot loses. */
  lemma {:induction false} GreedyShare(offers: seq<Offer>, left: int, k: nat)
    requires OffersNonNegative(offers) && DistinctOffers(offers) && k < |offers|
    ensures Sum(Greedy(offers, left), TakenAt(offers[k].lot)) == Share(offers, left, k)
  {
    if left <= 0 {
      SumNonNegative(offers[..k], Amount());
    } else {
      var n := Min(offers[0].amount, left);
      var head: seq<Take> := if n <= 0 then [] else [Take(offers[0].lot, n)];
      var tail := Greedy(offers[1..], left - n);
      assert Greedy(offers, left) == head + tail;
      SumConcat(head, tail, TakenAt(offers[k].lot));
      if k == 0 {
        GreedyAbsent(offers[1..], left - n, offers[0].lot);
      } else {
        GreedyShare(offers[1..], left - n, k - 1);
        ShareStep(offers, left, k);
      }
    }
  }

  /** Every take is a positive part of one of the offers. */
  lemma {:induction false} GreedyFrom(offers: seq<Offer>, left: int)
    ensures forall t :: t in Greedy(offers, left) ==>
      0 < t.qty && exists i :: 0 <= i < |offers| && offers[i].lot == t.lot && t.qty <= offers[i].amount
  {
    if offers != [] && left > 0 {
      var n := Min(offers[0].amount, left);
      var m := if n <= 0 then 0 else n;
      var rest := Greedy(offers[1..], left - m);
      GreedyFrom(offers[1..], left - m);
      forall t | t in Greedy(offers, left)
        ensures 0 < t.qty && exists i :: 0 <= i < |offers| && offers[i].lot == t.lot && t.qty <= offers[i].amount
      {
        if t in rest {
          var i :| 0 <= i < |offers[1..]| && offers[1..][i].lot == t.lot && t.qty <= offers[1..][i].amount;
          assert offers[i + 1] == offers[1..][i];
        } else {
          assert t == Take(offers[0].lot, n);
          assert offers[0].lot == t.lot;
        }
      }
    }
  }

  // ---- When a draw succeeds ----

  /** The planned quantity of a lot: that of its first step. */
  function PlannedQty(plan: seq<PlanStep>, lot: int): int {
    if plan == [] then 0 else if plan[0].lot == lot then plan[0].qty else PlannedQty(plan[1..], lot)
  }

  /** What a lot can contribute: a planned lot at most its plan (even if it holds more), any other lot all it has. */
  function CapOf(plan: seq<PlanStep>): Lot -> int {
    (l: Lot) => OfferOf(l.remaining, if Named(plan, l.id) then PlannedQty(plan, l.id) else l.remaining)
  }

  function PlannedCapOf(plan: seq<PlanStep>, used: set<int>): Lot -> int {
    (l: Lot) => if Named(plan, l.id) && l.id !in used then OfferOf(l.remaining, PlannedQty(plan, l.id)) else 0
  }

  function UnplannedCapOf(plan: seq<PlanStep>): Lot -> int {
    (l: Lot) => if Named(plan, l.id) then 0 else OfferOf(l.remaining, l.remaining)
  }

  ghost predicate DistinctIds(list: seq<Lot>) {
    forall i, j :: 0 <= i < j < |list| ==> list[i].id != list[j].id
  }

  lemma NamedTail(plan: seq<PlanStep>, lot: int)
    requires plan != []
    ensures Named(plan, lot) <==> plan[0].lot == lot || Named(plan[1..], lot)
  {
    if Named(plan[1..], lot) {
      var i :| 0 <= i < |plan[1..]| && plan[1..][i].lot == lot;
      assert plan[i + 1].lot == lot;
    }
    if Named(plan, lot) {
      var i :| 0 <= i < |plan| && plan[i].lot == lot;
      assert i == 0 || plan[1..][i - 1].lot == lot;
    }
  }

  lemma {:induction false} PlannedTotal(list: seq<Lot>, plan: seq<PlanStep>, used: set<int>)
    requires DistinctIds(list)
    ensures Sum(PlannedOffers(list, plan, used), Amount()) == Sum(list, PlannedCapOf(plan, used))
  {
    if plan == [] {
      SumZero(list, PlannedCapOf(plan, used));
    } else {
      var step := plan[0];
      var found := FindLot(list, step.lot);
      forall lot ensures Named(plan, lot) <==> step.lot == lot || Named(plan[1..], lot) { NamedTail(plan, lot); }
      if found.None? || step.lot in used {
        PlannedTotal(list, plan[1..], used);
        forall i | 0 <= i < |list| ensures PlannedCapOf(plan, used)(list[i]) == PlannedCapOf(plan[1..], used)(list[i]) {
          assert list[i] in list;
        }
        SumSame(list, list, PlannedCapOf(plan, used), PlannedCapOf(plan[1..], used));
      } else {
        var used' := used + {step.lot};
        PlannedTotal(list, plan[1..], used');
        var k :| 0 <= k < |list| && list[k] == found.value;
        SumChange(list, list, k, PlannedCapOf(plan[1..], used'), PlannedCapOf(plan, used));
      }
    }
  }

  lemma {:induction false} UnplannedTotal(list: seq<Lot>, plan: seq<PlanStep>)
    ensures Sum(UnplannedOffers(list, plan), Amount()) == Sum(list, UnplannedCapOf(plan))
  {
    if list != [] {
      var rest := UnplannedOffers(list[1..], plan);
      UnplannedTotal(list[1..], plan);
      SumConcat(if Named(plan, list[0].id) then [] else [Offer(list[0].id, OfferOf(list[0].remaining, list[0].remaining))],
        rest, Amount());
    }
  }

  /** All the offers together are what the part's lots can contribute, whatever the order. */
  lemma OffersTotal(list: seq<Lot>, plan: seq<PlanStep>)
    requires DistinctIds(list)
    ensures Sum(Offers(list, plan), Amount()) == Sum(list, CapOf(plan))
  {
    SumConcat(PlannedOffers(list, plan, {}), UnplannedOffers(list, plan), Amount());
    PlannedTotal(list, plan, {});
    UnplannedTotal(list, plan);
    SumAdd(list, list, PlannedCapOf(plan, {}), UnplannedCapOf(plan), CapOf(plan));
  }

  // ---- Which lots a draw touches ----

  ghost predicate Precedes(offers: seq<Offer>, x: int, y: int) {
    exists a, b :: 0 <= a < b < |offers| && offers[a].lot == x && offers[b].lot == y
  }

  ghost predicate Offered(offers: seq<Offer>, lot: int) {
    exists a :: 0 <= a < |offers| && offers[a].lot == lot
  }

  ghost predicate InList(list: seq<Lot>, lot: int) {
    exists l :: l in list && l.id == lot
  }

  lemma PrecedesCons(o: Offer, rest: seq<Offer>, x: int, y: int)
    ensures Precedes(rest, x, y) ==> Precedes([o] + rest, x, y)
    ensures o.lot == x && Offered(rest, y) ==> Precedes([o] + rest, x, y)
    ensures Offered(rest, y) ==> Offered([o] + rest, y)
    ensures Offered([o] + rest, o.lot)
  {
    // every row of `rest` moves one place along
    var w := [o] + rest;
    assert w[0] == o;
    assert forall a :: 0 <= a < |rest| ==> rest[a] == w[a + 1];
  }

  lemma {:induction false} PlannedOffered(list: seq<Lot>, plan: seq<PlanStep>, used: set<int>, lot: int)
    requires Named(plan, lot) && InList(list, lot) && lot !in used
    ensures Offered(PlannedOffers(list, plan, used), lot)
  {
    var step := plan[0];
    var found := FindLot(list, step.lot);
    NamedTail(plan, lot);
    if found.None? || step.lot in used {
      PlannedOffered(list, plan[1..], used, lot);
    } else {
      var o := Offer(step.lot, OfferOf(found.value.remaining, step.qty));
      if step.lot != lot {
        PlannedOffered(list, plan[1..], used + {step.lot}, lot);
      }
      PrecedesCons(o, PlannedOffers(list, plan[1..], used + {step.lot}), lot, lot);
    }
  }

  ghost predicate FirstMention(plan: seq<PlanStep>, i: nat)
    requires i < |plan|
  {
    forall k :: 0 <= k < i ==> plan[k].lot != plan[i].lot
  }

  lemma {:induction false} PlannedPrecedes(list: seq<Lot>, plan: seq<PlanStep>, used: set<int>, i: nat, j: nat)
    requires i < j < |plan| && FirstMention(plan, i) && FirstMention(plan, j)
    requires InList(list, plan[i].lot) && InList(list, plan[j].lot)
    requires plan[i].lot !in used && plan[j].lot !in used
    ensures Precedes(PlannedOffers(list, plan, used), plan[i].lot, plan[j].lot)
  {
    var step := plan[0];
    var found := FindLot(list, step.lot);
    var isNew := found.Some? && step.lot !in used;
    var used' := if isNew then used + {step.lot} else used;
    var x, y := plan[i].lot, plan[j].lot;
    assert plan[1..][j - 1] == plan[j];
    if i == 0 {
      assert plan[0].lot != y;
      PlannedOffered(list, plan[1..], used', y);
    } else {
      assert plan[1..][i - 1] == plan[i] && plan[0].lot != x && plan[0].lot != y;
      assert FirstMention(plan[1..], i - 1) && FirstMention(plan[1..], j - 1) by {
        assert forall k :: 0 <= k < j - 1 ==> plan[1..][k] == plan[k + 1];
      }
      PlannedPrecedes(list, plan[1..], used', i - 1, j - 1);
    }
    if isNew {
      PrecedesCons(Offer(step.lot, OfferOf(found.value.remaining, step.qty)), PlannedOffers(list, plan[1..], used'), x, y);
    }
  }

  lemma UnplannedCons(list: seq<Lot>, plan: seq<PlanStep>, x: int, y: int)
    requires list != []
    ensures var os, rest := UnplannedOffers(list, plan), UnplannedOffers(list[1..], plan);
      && (Precedes(rest, x, y) ==> Precedes(os, x, y))
      && (Offered(rest, y) ==> Offered(os, y))
      && (!Named(plan, list[0].id) ==> Offered(os, list[0].id))
      && (!Named(plan, list[0].id) && x == list[0].id && Offered(rest, y) ==> Precedes(os, x, y))
  {
    var rest := UnplannedOffers(list[1..], plan);
    var o := Offer(list[0].id, OfferOf(list[0].remaining, list[0].remaining));
    assert UnplannedOffers(list, plan) == if Named(plan, list[0].id) then rest else [o] + rest;
    hide UnplannedOffers, Named, Offered, Precedes, OfferOf;
    PrecedesCons(o, rest, x, y);
  }

  lemma {:induction false} UnplannedOffered(list: seq<Lot>, plan: seq<PlanStep>, lot: int)
    requires InList(list, lot) && !Named(plan, lot)
    ensures Offered(UnplannedOffers(list, plan), lot)
  {
    hide UnplannedOffers, Offered;
    UnplannedCons(list, plan, lot, lot);
    if list[0].id != lot {
      var l :| l in list && l.id == lot;
      assert l in list[1..];
      UnplannedOffered(list[1..], plan, lot);
    }
  }

  lemma {:induction false} UnplannedPrecedes(list: seq<Lot>, plan: seq<PlanStep>, i: nat, j: nat)
    requires i < j < |list| && !Named(plan, list[i].id) && !Named(plan, list[j].id)
    ensures Precedes(UnplannedOffers(list, plan), list[i].id, list[j].id)
  {
    hide UnplannedOffers, Offered, Precedes;
    UnplannedCons(list, plan, list[i].id, list[j].id);
    assert list[1..][j - 1] == list[j] && list[j] in list[1..];
    if i == 0 {
      UnplannedOffered(list[1..], plan, list[j].id);
    } else {
      assert list[1..][i - 1] == list[i];
      UnplannedPrecedes(list[1..], plan, i - 1, j - 1);
    }
  }

  /** An offer's amount is what its lot can contribute. */
  lemma {:induction false} PlannedAmount(list: seq<Lot>, plan: seq<PlanStep>, used: set<int>, k: nat)
    requires k < |PlannedOffers(list, plan, used)|
    ensures var o := PlannedOffers(list, plan, used)[k];
      o.lot !in used && exists l :: l in list && l.id == o.lot && Named(plan, l.id) && o.amount == OfferOf(l.remaining, PlannedQty(plan, l.id))
  {
    var step := plan[0];
    var found := FindLot(list, step.lot);
    var isNew := found.Some? && step.lot !in used;
    var used' := if isNew then used + {step.lot} else used;
    forall lot ensures Named(plan, lot) <==> step.lot == lot || Named(plan[1..], lot) { NamedTail(plan, lot); }
    if isNew && k == 0 {
      assert found.value in list;
    } else {
      var k' := if isNew then k - 1 else k;
      assert PlannedOffers(list, plan, used)[k] == PlannedOffers(list, plan[1..], used')[k'];
      PlannedAmount(list, plan[1..], used', k');
      var o := PlannedOffers(list, plan, used)[k];
      var l :| l in list && l.id == o.lot && Named(plan[1..], l.id)
        && o.amount == OfferOf(l.remaining, PlannedQty(plan[1..], l.id));
      assert step.lot != l.id;
    }
  }

  lemma OfferAmount(list: seq<Lot>, plan: seq<PlanStep>, k: nat, l: Lot)
    requires DistinctIds(list) && l in list
    requires k < |Offers(list, plan)| && Offers(list, plan)[k].lot == l.id
    ensures Offers(list, plan)[k].amount == CapOf(plan)(l)
  {
    var a := PlannedOffers(list, plan, {});
    UnplannedOffersFacts(list, plan);
    if k < |a| {
      PlannedAmount(list, plan, {}, k);
    } else {
      assert Offers(list, plan)[k] == UnplannedOffers(list, plan)[k - |a|];
      assert FromUnplanned(UnplannedOffers(list, plan)[k - |a|], list, plan);
    }
  }

  /** What a draw of `qty` takes from one lot. */
  function Loss(list: seq<Lot>, plan: seq<PlanStep>, qty: int, lot: int): int {
    Sum(Greedy(Offers(list, plan), qty), TakenAt(lot))
  }

  /** No lot gives more than it can contribute, hence no planned lot more than its plan. */
  lemma LossBounded(list: seq<Lot>, plan: seq<PlanStep>, qty: int, l: Lot)
    requires DistinctIds(list) && l in list
    ensures 0 <= Loss(list, plan, qty, l.id) <= CapOf(plan)(l)
  {
    var os := Offers(list, plan);
    OffersFacts(list, plan);
    if k: nat :| k < |os| && os[k].lot == l.id {
      OfferAmount(list, plan, k, l);
      GreedyShare(os, qty, k);
      SumNonNegative(os[..k], Amount());
    } else {
      GreedyAbsent(os, qty, l.id);
    }
  }

  lemma PrefixSum(os: seq<Offer>, a: nat, b: nat)
    requires OffersNonNegative(os) && a < b <= |os|
    ensures Sum(os[..a], Amount()) + os[a].amount <= Sum(os[..b], Amount())
  {
    assert os[..b] == os[..a] + ([os[a]] + os[a + 1..b]);
    SumConcat(os[..a], [os[a]] + os[a + 1..b], Amount());
    SumNonNegative([os[a]] + os[a + 1..b], Amount());
    assert ([os[a]] + os[a + 1..b])[0] == os[a];
  }

  /** A later offer gives something only when every earlier one has given its all. */
  lemma GreedySaturates(os: seq<Offer>, left: int, a: nat, b: nat)
    requires OffersNonNegative(os) && DistinctOffers(os) && a < b < |os|
    requires 0 < Sum(Greedy(os, left), TakenAt(os[b].lot))
    ensures Sum(Greedy(os, left), TakenAt(os[a].lot)) == os[a].amount
  {
    GreedyShare(os, left, a);
    GreedyShare(os, left, b);
    PrefixSum(os, a, b);
    assert os[a].amount <= left - Sum(os[..a], Amount());
  }

  /** If `y` comes after `x` among the offers and gave anything, then `x` gave all it could. */
  lemma LossSaturates(list: seq<Lot>, plan: seq<PlanStep>, qty: int, x: Lot, y: int)
    requires DistinctIds(list) && x in list
    requires Precedes(Offers(list, plan), x.id, y) && 0 < Loss(list, plan, qty, y)
    ensures Loss(list, plan, qty, x.id) == CapOf(plan)(x)
  {
    var os := Offers(list, plan);
    OffersFacts(list, plan);
    var a: nat, b: nat :| a < b < |os| && os[a].lot == x.id && os[b].lot == y;
    OfferAmount(list, plan, a, x);
    GreedySaturates(os, qty, a, b);
  }

  /** The order of a draw: the plan's lots in plan order, then the other lots oldest first; whoever
      comes later gives something only once everyone before has given all they can. */
  lemma DrawOrder(list: seq<Lot>, plan: seq<PlanStep>, qty: int)
    requires DistinctIds(list)
    ensures forall i: nat, j: nat, x
      | i < j < |plan| && FirstMention(plan, i) && FirstMention(plan, j)
        && x in list && x.id == plan[i].lot && 0 < Loss(list, plan, qty, plan[j].lot)
      :: Loss(list, plan, qty, x.id) == CapOf(plan)(x)
    ensures forall x, y
      | x in list && y in list && Named(plan, x.id) && !Named(plan, y.id) && 0 < Loss(list, plan, qty, y.id)
      :: Loss(list, plan, qty, x.id) == CapOf(plan)(x)
    ensures forall i, j
      | 0 <= i < j < |list| && !Named(plan, list[i].id) && !Named(plan, list[j].id) && 0 < Loss(list, plan, qty, list[j].id)
      :: Loss(list, plan, qty, list[i].id) == CapOf(plan)(list[i])
  {
    var a, b := PlannedOffers(list, plan, {}), UnplannedOffers(list, plan);
    var os := Offers(list, plan);
    assert forall k :: 0 <= k < |a| ==> os[k] == a[k];
    assert forall k :: 0 <= k < |b| ==> os[|a| + k] == b[k];
    forall i: nat, j: nat, x | i < j < |plan| && FirstMention(plan, i) && FirstMention(plan, j)
      && x in list && x.id == plan[i].lot && 0 < Loss(list, plan, qty, plan[j].lot)
      ensures Loss(list, plan, qty, x.id) == CapOf(plan)(x)
    {
      LossPositiveInList(list, plan, qty, plan[j].lot);
      PlannedPrecedes(list, plan, {}, i, j);
      LossSaturates(list, plan, qty, x, plan[j].lot);
    }
    forall x, y | x in list && y in list && Named(plan, x.id) && !Named(plan, y.id) && 0 < Loss(list, plan, qty, y.id)
      ensures Loss(list, plan, qty, x.id) == CapOf(plan)(x)
    {
      PlannedOffered(list, plan, {}, x.id);
      UnplannedOffered(list, plan, y.id);
      var k, m :| 0 <= k < |a| && a[k].lot == x.id && 0 <= m < |b| && b[m].lot == y.id;
      assert os[k].lot == x.id && os[|a| + m].lot == y.id;
      LossSaturates(list, plan, qty, x, y.id);
    }
    forall i, j | 0 <= i < j < |list| && !Named(plan, list[i].id) && !Named(plan, list[j].id)
      && 0 < Loss(list, plan, qty, list[j].id)
      ensures Loss(list, plan, qty, list[i].id) == CapOf(plan)(list[i])
    {
      UnplannedPrecedes(list, plan, i, j);
      var k, m :| 0 <= k < m < |b| && b[k].lot == list[i].id && b[m].lot == list[j].id;
      assert os[|a| + k].lot == list[i].id && os[|a| + m].lot == list[j].id;
      LossSaturates(list, plan, qty, list[i], list[j].id);
    }
  }

  lemma LossPositiveInList(list: seq<Lot>, plan: seq<PlanStep>, qty: int, lot: int)
    requires DistinctIds(list) && 0 < Loss(list, plan, qty, lot)
    ensures InList(list, lot)
  {
    var os := Offers(list, plan);
    OffersFacts(list, plan);
    if i: nat :| i < |os| && os[i].lot == lot {
    } else {
      GreedyAbsent(os, qty, lot);
    }
  }

  /** A draw of a positive quantity takes exactly that quantity, or is refused, and it is refused exactly
      when the lots cannot contribute that much. */
  lemma DrawExact(list: seq<Lot>, plan: seq<PlanStep>, qty: int)
    requires DistinctIds(list) && 0 < qty
    ensures var taken := Sum(Greedy(Offers(list, plan), qty), Taken());
      && (taken == qty <==> qty <= Sum(list, CapOf(plan)))
      && taken <= qty
  {
    OffersFacts(list, plan);
    OffersTotal(list, plan);
    GreedyTotal(Offers(list, plan), qty);
  }

  // ---- What a plan holds back ----

  function LeftIn(): Lot -> int { (l: Lot) => l.remaining }

  /** What a planned lot keeps beyond its plan: the second pass never comes back to it. */
  function HeldBack(plan: seq<PlanStep>): Lot -> int { (l: Lot) => l.remaining - CapOf(plan)(l) }

  /** A draw that the lots could cover is refused exactly when what would be left over is less than what the
      planned lots hold back. */
  lemma RefusedDespiteLotsIff(list: seq<Lot>, plan: seq<PlanStep>, qty: int)
    requires DistinctIds(list) && 0 < qty <= Sum(list, LeftIn())
    ensures Sum(Greedy(Offers(list, plan), qty), Taken()) < qty <==> Sum(list, LeftIn()) - qty < Sum(list, HeldBack(plan))
  {
    DrawExact(list, plan, qty);
    SumAdd(list, list, CapOf(plan), HeldBack(plan), LeftIn());
  }

  /** One lot of 10.00 with a plan of 5.00 cannot give 10.00. */
  lemma PlannedLotRefused()
    ensures var list, plan := [Lot(1, 1, 1000, 1000, 0)], [PlanStep(1, 500)];
      Sum(list, LeftIn()) == 1000 && Sum(Greedy(Offers(list, plan), 1000), Taken()) == 500
  {
    assert [PlanStep(1, 500)][0].lot == 1;
  }
}
