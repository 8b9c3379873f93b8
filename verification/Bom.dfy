/** How much of one part a batch of `plan` products needs. Quantities are integer hundredths and a loss
    rate is integer hundredths of a percent, so every intermediate value is an exact fraction. */
module Bom {

  datatype BomItem = BomItem(id: int, product: int, part: int, quantity: int, lossRate: int, useMode: int)

  const MAX_LOSS_RATE := 100_00

  predicate ValidBomItem(item: BomItem) {
    (item.useMode == 0 || item.useMode == 1) && item.quantity > 0 && 0 <= item.lossRate <= MAX_LOSS_RATE
  }

  function CeilDiv(a: int, b: int): int
    requires 0 < b
  {
    (a + b - 1) / b
  }

  /** math.Round of a non-negative fraction with denominator 10000. */
  function RoundPerTenThousand(numerator: int): int {
    (2 * numerator + 10000) / 20000
  }

  /** The exact demand of a per-unit item, in ten-thousandths of a hundredth. */
  function ExactNumerator(plan: int, quantity: int, lossRate: int): int {
    plan * quantity * (10000 + lossRate)
  }

  /** Boxes needed when one box serves `quantity` hundredths of a product. */
  function Boxes(plan: int, quantity: int): int {
    if quantity <= 0 then plan else CeilDiv(plan * 100, quantity)
  }

  /** Boxes raised by the loss rate, again a whole number. */
  function BoxedUnits(plan: int, quantity: int, lossRate: int): int {
    CeilDiv(Boxes(plan, quantity) * (10000 + lossRate), 10000)
  }

  /** bomConsume followed by quantizeQuantity, in hundredths. */
  function Consume(plan: int, item: BomItem): int {
    if item.useMode == 1 then BoxedUnits(plan, item.quantity, item.lossRate) * 100
    else RoundPerTenThousand(ExactNumerator(plan, item.quantity, item.lossRate))
  }

  // ---- Arithmetic steps ----

  lemma CeilDivBounds(a: int, b: int)
    requires 0 < b
    ensures (CeilDiv(a, b) - 1) * b < a <= CeilDiv(a, b) * b
  {
    var n := CeilDiv(a, b);
    assert a + b - 1 == n * b + (a + b - 1) % b;
    assert (n - 1) * b == n * b - b;
  }

  lemma CeilDivLeast(a: int, b: int, n: int)
    requires 0 < b
    ensures CeilDiv(a, b) <= n <==> a <= n * b
  {
    var c := CeilDiv(a, b);
    CeilDivBounds(a, b);
    if c <= n {
      assert c * b <= n * b;
    } else {
      assert n * b <= (c - 1) * b;
    }
  }

  lemma Distribute(x: int, y: int, z: int)
    ensures (x + y) * z == x * z + y * z
  {
  }

  lemma MulMono(x: int, y: int, z: int)
    requires x <= y && 0 <= z
    ensures x * z <= y * z
  {
    assert 0 <= (y - x) * z;
    Distribute(y - x, x, z);
  }

  // ---- Boxed mode ----

  /** How many hundredths of a product one box serves; a box size that is not positive counts as one product. */
  function BoxSize(quantity: int): int { if 0 < quantity then quantity else 100 }

  /** Any whole number of boxes serves the plan exactly when it is at least `Boxes`. */
  lemma BoxesLeast(plan: int, quantity: int, n: int)
    ensures Boxes(plan, quantity) <= n <==> plan * 100 <= n * BoxSize(quantity)
  {
    if 0 < quantity {
      CeilDivLeast(plan * 100, quantity, n);
    }
  }

  /** The boxed demand is the least whole number covering the boxes raised by the loss rate. */
  lemma BoxedUnitsLeast(plan: int, quantity: int, lossRate: int, n: int)
    ensures BoxedUnits(plan, quantity, lossRate) <= n
       <==> Boxes(plan, quantity) * (10000 + lossRate) <= n * 10000
  {
    CeilDivLeast(Boxes(plan, quantity) * (10000 + lossRate), 10000, n);
  }

  /** What a boxed item asks for is a whole number of boxes, the least that covers the plan's boxes raised by the
      loss rate. */
  lemma ConsumeBoxed(plan: int, item: BomItem, n: int)
    requires item.useMode == 1
    ensures Consume(plan, item) % 100 == 0
    ensures Consume(plan, item) <= n * 100 <==> Boxes(plan, item.quantity) * (10000 + item.lossRate) <= n * 10000
  {
    BoxedUnitsLeast(plan, item.quantity, item.lossRate, n);
  }

  lemma BoxesNonNegative(plan: nat, quantity: int)
    ensures 0 <= Boxes(plan, quantity)
  {
    if 0 < quantity && Boxes(plan, quantity) <= -1 {
      BoxesLeast(plan, quantity, -1);
    }
  }

  lemma BoxesMonotone(plan: nat, more: nat, quantity: int)
    requires plan <= more
    ensures Boxes(plan, quantity) <= Boxes(more, quantity)
  {
    BoxesLeast(more, quantity, Boxes(more, quantity));
    BoxesLeast(plan, quantity, Boxes(more, quantity));
  }

  lemma BoxesSplit(a: nat, b: nat, quantity: int)
    ensures Boxes(a + b, quantity) <= Boxes(a, quantity) + Boxes(b, quantity)
  {
    var k, m := Boxes(a, quantity), Boxes(b, quantity);
    BoxesLeast(a, quantity, k);
    BoxesLeast(b, quantity, m);
    Distribute(k, m, BoxSize(quantity));
    BoxesLeast(a + b, quantity, k + m);
  }

  /** Whole boxes: the demand is a hundred times some number. */
  lemma InBoxes(plan: int, item: BomItem) returns (n: int)
    requires item.useMode == 1
    ensures Consume(plan, item) == n * 100
  {
    n := BoxedUnits(plan, item.quantity, item.lossRate);
  }

  /** A boxed demand always serves the whole plan. */
  lemma BoxedCoversPlan(plan: nat, item: BomItem)
    requires item.useMode == 1 && 0 <= item.lossRate
    ensures plan * 10000 <= Consume(plan, item) * BoxSize(item.quantity)
  {
    var k, q := Boxes(plan, item.quantity), BoxSize(item.quantity);
    var n := InBoxes(plan, item);
    ConsumeBoxed(plan, item, n);
    hide Consume, BoxSize;
    BoxesLeast(plan, item.quantity, k);
    BoxesNonNegative(plan, item.quantity);
    MulMono(10000, 10000 + item.lossRate, k);
    assert k <= n;
    assert 0 <= q by { BoxSizePositive(item.quantity); }
    MulMono(k, n, q);
    Hundredfold(plan * 100, n, q);
  }

  lemma BoxSizePositive(quantity: int)
    ensures 0 < BoxSize(quantity)
  {
  }

  lemma Hundredfold(a: int, n: int, q: int)
    requires a <= n * q
    ensures a * 100 <= (n * 100) * q
  {
    assert (n * 100) * q == (n * q) * 100;
  }

  /** A larger plan or a larger loss rate never needs less. */
  lemma BoxedMonotone(plan: nat, more: nat, item: BomItem, higher: int)
    requires item.useMode == 1 && plan <= more && 0 <= item.lossRate <= higher
    ensures Consume(plan, item) <= Consume(more, item.(lossRate := higher))
  {
    var k, k' := Boxes(plan, item.quantity), Boxes(more, item.quantity);
    BoxesMonotone(plan, more, item.quantity);
    BoxesNonNegative(plan, item.quantity);
    MulMono(k, k', 10000 + item.lossRate);
    MulMono(10000 + item.lossRate, 10000 + higher, k');
    var n := InBoxes(more, item.(lossRate := higher));
    ConsumeBoxed(more, item.(lossRate := higher), n);
    ConsumeBoxed(plan, item, n);
  }

  /** Splitting a plan over two batches never lowers the total of boxes. */
  lemma BoxedSplit(a: nat, b: nat, item: BomItem)
    requires item.useMode == 1 && 0 <= item.lossRate
    ensures Consume(a + b, item) <= Consume(a, item) + Consume(b, item)
  {
    var f := 10000 + item.lossRate;
    var k, m := Boxes(a, item.quantity), Boxes(b, item.quantity);
    var i := InBoxes(a, item);
    var j := InBoxes(b, item);
    ConsumeBoxed(a, item, i);
    ConsumeBoxed(b, item, j);
    ConsumeBoxed(a + b, item, i + j);
    hide Consume;
    BoxesSplit(a, b, item.quantity);
    MulMono(Boxes(a + b, item.quantity), k + m, f);
    Distribute(k, m, f);
    Distribute(i, j, 10000);
  }

  // ---- Per-unit mode ----

  /** The demand is the exact product rounded to the nearest hundredth, a half upwards. */
  lemma PerUnitWithinHalf(plan: int, item: BomItem)
    requires item.useMode != 1
    ensures -5000 <= plan * item.quantity * (10000 + item.lossRate) - 10000 * Consume(plan, item) < 5000
  {
    var e := ExactNumerator(plan, item.quantity, item.lossRate);
    var r := (2 * e + 10000) / 20000;
    assert 2 * e + 10000 == 20000 * r + (2 * e + 10000) % 20000;
  }

  /** Splitting a plan over two batches moves a per-unit total by at most one hundredth. */
  lemma PerUnitSplit(a: nat, b: nat, item: BomItem)
    requires item.useMode != 1
    ensures -1 <= Consume(a + b, item) - Consume(a, item) - Consume(b, item) <= 1
  {
    var q, f := item.quantity, 10000 + item.lossRate;
    Distribute(a, b, q);
    Distribute(a * q, b * q, f);
    assert ExactNumerator(a + b, q, item.lossRate)
        == ExactNumerator(a, q, item.lossRate) + ExactNumerator(b, q, item.lossRate);
    PerUnitWithinHalf(a, item);
    PerUnitWithinHalf(b, item);
    PerUnitWithinHalf(a + b, item);
  }

  /** A valid item never demands a negative amount. */
  lemma ConsumeNonNegative(plan: nat, item: BomItem)
    requires item.quantity >= 0 && 0 <= item.lossRate
    ensures 0 <= Consume(plan, item)
  {
    if item.useMode == 1 {
      BoxesNonNegative(plan, item.quantity);
      MulMono(0, Boxes(plan, item.quantity), 10000 + item.lossRate);
      if BoxedUnits(plan, item.quantity, item.lossRate) <= -1 {
        BoxedUnitsLeast(plan, item.quantity, item.lossRate, -1);
      }
    } else {
      MulMono(0, plan, item.quantity);
      MulMono(0, plan * item.quantity, 10000 + item.lossRate);
    }
  }

  /** A valid item asks for something for every plan: at least what the plan needs without loss. */
  lemma ConsumeCovers(plan: nat, item: BomItem)
    requires ValidBomItem(item) && 0 < plan
    ensures 0 < Consume(plan, item)
    ensures item.useMode == 0 ==> plan * item.quantity <= Consume(plan, item) <= 2 * (plan * item.quantity)
  {
    var q, e := item.quantity, plan * item.quantity;
    MulMono(1, plan, q);
    if item.useMode == 1 {
      BoxedCoversPlan(plan, item);
    } else {
      PerUnitWithinHalf(plan, item);
      MulMono(10000, 10000 + item.lossRate, e);
      MulMono(10000 + item.lossRate, 20000, e);
      hide Consume;
    }
  }
}
