/** Spending allocations: a table of (label, percent) shares is expanded
    onto a tax total, each amount rounded to whole cents. */
module Allocations {

  /** One row of a spending table: the fraction of a tax total spent on a
      category. */
  datatype Share = Share(category: string, percent: real)

  /** One row of the result: the dollars of the tax total for a category. */
  datatype Allocation = Allocation(category: string, amount: real)

  /** True when x is a whole number of cents. */
  predicate WholeCents(x: real) {
    (x * 100.0).Floor as real == x * 100.0
  }

  lemma NegatedWholeCents(x: real)
    requires WholeCents(x)
    ensures WholeCents(-x)
  {
    var k := (x * 100.0).Floor;
    assert (-x) * 100.0 == (-k) as real;
  }

  /** Rounds a non-negative amount to the nearest cent, a half cent going
      up. */
  function RoundCentsUp(x: real): (r: real)
    requires 0.0 <= x
    ensures 0.0 <= r && WholeCents(r)
    ensures x - 0.005 < r <= x + 0.005
  {
    var n := (x * 100.0 + 0.5).Floor;
    assert (n as real) / 100.0 * 100.0 == n as real;
    (n as real) / 100.0
  }

  /** Reading back a number printed with two decimals: the nearest whole
      cent, a half cent going away from zero (the magnitude is rounded and
      the sign put back). */
  function Round2(x: real): (r: real)
    ensures WholeCents(r)
    ensures -0.005 <= r - x <= 0.005
    ensures 0.0 <= x ==> 0.0 <= r
    ensures x <= 0.0 ==> r <= 0.0
    ensures 0.0 <= x ==> x - 0.005 < r
    ensures x < 0.0 ==> r < x + 0.005
  {
    if x < 0.0 then
      var m := RoundCentsUp(-x);
      NegatedWholeCents(m);
      -m
    else RoundCentsUp(x)
  }

  /** An amount already in whole cents is left as it is. */
  lemma WholeCentsUnchanged(x: real)
    requires WholeCents(x)
    ensures Round2(x) == x
  {
    var n := (x * 100.0).Floor;
    if x < 0.0 {
      assert (-x * 100.0 + 0.5).Floor == -n;
    } else {
      assert (x * 100.0 + 0.5).Floor == n;
    }
  }

  /** Rounding twice is rounding once. */
  lemma Round2Idempotent(x: real)
    ensures Round2(Round2(x)) == Round2(x)
  {
    WholeCentsUnchanged(Round2(x));
  }

  /** A half cent rounds away from zero, in both directions. */
  lemma Round2HalfCentAwayFromZero()
    ensures Round2(0.005) == 0.01
    ensures Round2(-0.005) == -0.01
    ensures Round2(1234.565) == 1234.57
  {
    assert (0.005 * 100.0 + 0.5).Floor == 1;
    assert (1234.565 * 100.0 + 0.5).Floor == 123457;
  }

  /** One share of `tax`, rounded to cents. */
  function Entry(share: Share, tax: real): Allocation {
    Allocation(share.category, Round2(share.percent * tax))
  }

  /** Expands a spending table onto `tax`: one row per share, in the
      table's order, with the share's category and its percent of `tax`
      rounded to cents. */
  function Allocate(shares: seq<Share>, tax: real): (r: seq<Allocation>)
    ensures |r| == |shares|
    ensures forall i | 0 <= i < |shares| :: r[i] == Entry(shares[i], tax)
    ensures forall i | 0 <= i < |shares| ::
      r[i].category == shares[i].category && r[i].amount == Round2(shares[i].percent * tax)
  {
    if shares == [] then []
    else [Entry(shares[0], tax)] + Allocate(shares[1..], tax)
  }

  /** The percents of a spending table added up. */
  function PercentSum(shares: seq<Share>): real {
    if shares == [] then 0.0 else shares[0].percent + PercentSum(shares[1..])
  }

  /** The unrounded amounts of a spending table expanded onto `tax`, added
      up. */
  function ExactSum(shares: seq<Share>, tax: real): real {
    if shares == [] then 0.0 else shares[0].percent * tax + ExactSum(shares[1..], tax)
  }

  /** Before rounding, the amounts add up to the table's total percent of
      the tax. */
  lemma {:induction false} ExactSumIsPercentOfTax(shares: seq<Share>, tax: real)
    ensures ExactSum(shares, tax) == PercentSum(shares) * tax
  {
    if shares != [] {
      ExactSumIsPercentOfTax(shares[1..], tax);
      assert (shares[0].percent + PercentSum(shares[1..])) * tax
          == shares[0].percent * tax + PercentSum(shares[1..]) * tax;
    }
  }

  /** The amounts of an allocation added up. */
  function AmountSum(allocs: seq<Allocation>): real {
    if allocs == [] then 0.0 else allocs[0].amount + AmountSum(allocs[1..])
  }

  /** Rounding each row moves the total by at most half a cent per row
      from the table's total percent of the tax. */
  lemma AllocationTotalWithinRounding(shares: seq<Share>, tax: real)
    ensures -0.005 * |shares| as real
            <= AmountSum(Allocate(shares, tax)) - PercentSum(shares) * tax
            <= 0.005 * |shares| as real
  {
    RoundingDrift(shares, tax);
    ExactSumIsPercentOfTax(shares, tax);
  }

  lemma {:induction false} RoundingDrift(shares: seq<Share>, tax: real)
    ensures -0.005 * |shares| as real
            <= AmountSum(Allocate(shares, tax)) - ExactSum(shares, tax)
            <= 0.005 * |shares| as real
  {
    if shares != [] {
      var rest := shares[1..];
      RoundingDrift(rest, tax);
      assert Allocate(shares, tax)[1..] == Allocate(rest, tax);
    }
  }

  /** A tax of zero expands to rows of zero. */
  lemma NothingToAllocate(shares: seq<Share>)
    ensures forall i | 0 <= i < |shares| :: Allocate(shares, 0.0)[i].amount == 0.0
  {
    WholeCentsUnchanged(0.0);
  }
}
