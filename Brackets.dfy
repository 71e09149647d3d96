/** Progressive (marginal-rate) federal income tax over a table of brackets.

    A bracket table is a list of (rate, cap) pairs in ascending order of cap,
    where each cap is the cumulative income up to which the bracket applies
    and the last cap is unbounded. Income between the previous cap and a
    bracket's cap is taxed at that bracket's rate, and only that slice.

    `ComputeFederalTax` is the step-by-step loop of the calculator;
    `BracketTax` is the closed form it is proved against:
      BracketTax(b, gross) = sum over i of rate_i * Slice_i(gross)
      Slice_i(gross)       = min(max(gross - prevCap_i, 0), cap_i - prevCap_i)
*/
module Brackets {

  /** A cumulative income threshold; the top bracket has none. */
  datatype Cap = Finite(amount: real) | Unbounded

  datatype Bracket = Bracket(rate: real, cap: Cap)

  function Min(x: real, y: real): real { if x <= y then x else y }

  function Max(x: real, y: real): real { if x >= y then x else y }

  /** Every cap but the last is finite and the last one is unbounded,
      finite caps strictly increase from 0, and rates lie in [0, 1] and
      never decrease from one bracket to the next. */
  predicate WellFormed(b: seq<Bracket>) {
    && |b| > 0
    && (forall i | 0 <= i < |b| - 1 :: b[i].cap.Finite?)
    && b[|b| - 1].cap.Unbounded?
    && (forall i | 0 <= i < |b| - 1 :: 0.0 < b[i].cap.amount)
    && (forall i, j | 0 <= i < j < |b| - 1 :: b[i].cap.amount < b[j].cap.amount)
    && (forall i | 0 <= i < |b| :: 0.0 <= b[i].rate <= 1.0)
    && (forall i, j | 0 <= i <= j < |b| :: b[i].rate <= b[j].rate)
  }

  /** The cap of the bracket before bracket i, or 0 for the first bracket. */
  function PrevCap(b: seq<Bracket>, i: int): (p: real)
    requires WellFormed(b) && 0 <= i < |b|
    ensures 0.0 <= p
    ensures forall j | 0 <= j < i :: b[j].cap.amount <= p
    ensures i < |b| - 1 ==> p < b[i].cap.amount
  {
    if i == 0 then 0.0 else b[i - 1].cap.amount
  }

  /** The part of `gross` that falls inside bracket i: never negative, and
      never more than the bracket's width when the bracket is capped. */
  function Slice(b: seq<Bracket>, i: int, gross: real): (s: real)
    requires WellFormed(b) && 0 <= i < |b|
    ensures 0.0 <= s
    ensures gross <= PrevCap(b, i) ==> s == 0.0
    ensures b[i].cap.Finite? ==> s <= b[i].cap.amount - PrevCap(b, i)
  {
    var above := Max(gross - PrevCap(b, i), 0.0);
    match b[i].cap
    case Unbounded => above
    case Finite(c) => Min(above, c - PrevCap(b, i))
  }

  /** Income taxed in brackets 0 .. k-1. */
  function TaxedUpTo(b: seq<Bracket>, k: int, gross: real): real
    requires WellFormed(b) && 0 <= k <= |b|
  {
    if k == 0 then 0.0 else TaxedUpTo(b, k - 1, gross) + Slice(b, k - 1, gross)
  }

  /** Tax owed on the slice of `gross` in bracket i. */
  function SliceTax(b: seq<Bracket>, i: int, gross: real): real
    requires WellFormed(b) && 0 <= i < |b|
  {
    b[i].rate * Slice(b, i, gross)
  }

  /** Tax owed on brackets 0 .. k-1. */
  function TaxUpTo(b: seq<Bracket>, k: int, gross: real): real
    requires WellFormed(b) && 0 <= k <= |b|
  {
    if k == 0 then 0.0 else TaxUpTo(b, k - 1, gross) + SliceTax(b, k - 1, gross)
  }

  /** The closed-form marginal tax: every bracket's rate times its slice. */
  function BracketTax(b: seq<Bracket>, gross: real): real
    requires WellFormed(b)
  {
    TaxUpTo(b, |b|, gross)
  }

  /** Before any capped bracket k, the income already taxed is gross
      clipped to the range [0, prevCap_k]. */
  lemma {:induction false} TaxedPrefix(b: seq<Bracket>, k: int, gross: real)
    requires WellFormed(b) && 0 <= k < |b|
    ensures TaxedUpTo(b, k, gross) == Min(Max(gross, 0.0), PrevCap(b, k))
  {
    if k > 0 {
      TaxedPrefix(b, k - 1, gross);
    }
  }

  /** Every non-negative dollar of gross is taxed in exactly one slice:
      the slices add up to max(gross, 0). */
  lemma AllIncomeTaxed(b: seq<Bracket>, gross: real)
    requires WellFormed(b)
    ensures TaxedUpTo(b, |b|, gross) == Max(gross, 0.0)
  {
    TaxedPrefix(b, |b| - 1, gross);
  }

  /** Once gross is at or below the previous cap of bracket k, brackets
      k and beyond add no tax. */
  lemma {:induction false} UpperBracketsUntaxed(b: seq<Bracket>, k: int, n: int, gross: real)
    requires WellFormed(b) && 0 <= k <= n <= |b|
    requires k < |b| && gross <= PrevCap(b, k)
    ensures TaxUpTo(b, n, gross) == TaxUpTo(b, k, gross)
  {
    if n > k {
      UpperBracketsUntaxed(b, k, n - 1, gross);
      assert PrevCap(b, k) <= PrevCap(b, n - 1);
    }
  }

  /** No tax on a gross of zero or less. */
  lemma NonPositiveGrossUntaxed(b: seq<Bracket>, gross: real)
    requires WellFormed(b) && gross <= 0.0
    ensures BracketTax(b, gross) == 0.0
  {
    UpperBracketsUntaxed(b, 0, |b|, gross);
  }

  /** While income remains at bracket k, the remainder is exactly the part
      of gross above the previous cap. */
  lemma RemainderAbovePrevCap(b: seq<Bracket>, k: int, gross: real, remain: real)
    requires WellFormed(b) && 0 <= k < |b|
    requires TaxedUpTo(b, k, gross) + remain == gross && remain > 0.0
    ensures remain == gross - PrevCap(b, k)
  {
    TaxedPrefix(b, k, gross);
  }

  /** One turn of the tax loop: the part of the remainder that fits in
      bracket k is bracket k's slice of the gross, and taking it off the
      remainder keeps the taxed part and the remainder adding up to the
      gross. */
  lemma LoopStep(b: seq<Bracket>, k: int, gross: real, remain: real, taxable: real)
    requires WellFormed(b) && 0 <= k < |b|
    requires TaxedUpTo(b, k, gross) + remain == gross && remain > 0.0
    requires b[k].cap.Unbounded? ==> taxable == remain
    requires b[k].cap.Finite? ==> taxable == Min(remain, b[k].cap.amount - PrevCap(b, k))
    ensures taxable == Slice(b, k, gross)
    ensures TaxedUpTo(b, k + 1, gross) + (remain - taxable) == gross
    ensures TaxUpTo(b, k + 1, gross) == TaxUpTo(b, k, gross) + taxable * b[k].rate
  {
    RemainderAbovePrevCap(b, k, gross, remain);
    assert taxable == Slice(b, k, gross);
    assert SliceTax(b, k, gross) == taxable * b[k].rate;
  }

  /** When the tax loop stops, the tax it has summed is the tax on the
      whole gross, and nothing positive is left over. */
  lemma LoopExit(b: seq<Bracket>, k: int, gross: real, remain: real)
    requires WellFormed(b) && 0 <= k <= |b|
    requires k > 0 ==> gross > 0.0
    requires TaxedUpTo(b, k, gross) + remain == gross
    requires k == |b| || remain <= 0.0
    ensures TaxUpTo(b, k, gross) == BracketTax(b, gross)
    ensures remain == Min(gross, 0.0)
  {
    if gross <= 0.0 {
      NonPositiveGrossUntaxed(b, gross);
    } else if k < |b| {
      TaxedPrefix(b, k, gross);
      UpperBracketsUntaxed(b, k, |b|, gross);
    } else {
      AllIncomeTaxed(b, gross);
    }
  }

  /** The tax loop of the calculator. For each bracket in turn, while
      income remains, the slice of the remainder that fits in the bracket's
      width is taxed at the bracket's rate and taken off the remainder.
      Returns the tax and what was left untaxed when the loop stopped. */
  method ComputeFederalTax(b: seq<Bracket>, gross: real) returns (fedTax: real, remain: real)
    requires WellFormed(b)
    ensures fedTax == BracketTax(b, gross)
    ensures remain == Min(gross, 0.0)
    ensures gross <= 0.0 ==> fedTax == 0.0
  {
    fedTax := 0.0;
    remain := gross;
    var i := 0;
    while i < |b| && remain > 0.0
      invariant 0 <= i <= |b|
      invariant i > 0 ==> gross > 0.0
      invariant fedTax == TaxUpTo(b, i, gross)
      invariant TaxedUpTo(b, i, gross) + remain == gross
    {
      var prevCap := if i == 0 then 0.0 else b[i - 1].cap.amount;
      // Math.min(remain, Infinity - prevCap) is the whole remainder
      var taxable := match b[i].cap
        case Unbounded => remain
        case Finite(c) => Min(remain, c - prevCap);
      LoopStep(b, i, gross, remain, taxable);
      fedTax := fedTax + taxable * b[i].rate;
      remain := remain - taxable;
      i := i + 1;
    }
    LoopExit(b, i, gross, remain);
    if gross <= 0.0 {
      NonPositiveGrossUntaxed(b, gross);
    }
  }

  /** A rise of `dTax` in tax on a rise of `dIncome` in taxed income is
      at least `lo` and at most `hi` per unit of income. */
  predicate RateBetween(lo: real, hi: real, dIncome: real, dTax: real) {
    lo * dIncome <= dTax <= hi * dIncome
  }

  /** Taxing amounts s1 <= s2 at a rate r between lo and hi: the rise in
      tax is between lo and hi times the rise in amount. */
  lemma ScaleBetween(lo: real, r: real, hi: real, s1: real, s2: real, t1: real, t2: real)
    requires lo <= r <= hi && s1 <= s2
    requires t1 == r * s1 && t2 == r * s2
    ensures RateBetween(lo, hi, s2 - s1, t2 - t1)
  {
    assert t2 - t1 == r * (s2 - s1);
    assert (r - lo) * (s2 - s1) >= 0.0;
    assert (hi - r) * (s2 - s1) >= 0.0;
  }

  /** Within one bracket, the rise in tax is between the lowest and the
      top rate times the rise in the bracket's slice. */
  lemma SliceTaxBetween(b: seq<Bracket>, i: int, g1: real, g2: real)
    requires WellFormed(b) && 0 <= i < |b| && g1 <= g2
    ensures Slice(b, i, g1) <= Slice(b, i, g2)
    ensures RateBetween(b[0].rate, b[|b| - 1].rate,
                        Slice(b, i, g2) - Slice(b, i, g1), SliceTax(b, i, g2) - SliceTax(b, i, g1))
  {
    ScaleBetween(b[0].rate, b[i].rate, b[|b| - 1].rate,
      Slice(b, i, g1), Slice(b, i, g2), SliceTax(b, i, g1), SliceTax(b, i, g2));
  }

  /** Rises that each stay between two rates add up to a rise that does. */
  lemma AddBetween(lo: real, hi: real, dx1: real, dt1: real, dx2: real, dt2: real, dx: real, dt: real)
    requires RateBetween(lo, hi, dx1, dt1) && RateBetween(lo, hi, dx2, dt2)
    requires dx == dx1 + dx2 && dt == dt1 + dt2
    ensures RateBetween(lo, hi, dx, dt)
  {
    assert lo * dx == lo * dx1 + lo * dx2;
    assert hi * dx == hi * dx1 + hi * dx2;
  }

  /** At a non-negative lowest rate, a rise in income never lowers tax. */
  lemma RiseNonNegative(lo: real, hi: real, dx: real, dt: real)
    requires 0.0 <= lo && 0.0 <= dx && RateBetween(lo, hi, dx, dt)
    ensures 0.0 <= dt
  {
    assert 0.0 <= lo * dx;
  }

  /** Over brackets 0 .. k-1, raising gross from g1 to g2 raises the taxed
      income, and the tax rises by at least the first rate and at most the
      top rate times that rise. */
  lemma {:induction false} MarginalUpTo(b: seq<Bracket>, k: int, g1: real, g2: real)
    requires WellFormed(b) && 0 <= k <= |b| && g1 <= g2
    ensures TaxedUpTo(b, k, g1) <= TaxedUpTo(b, k, g2)
    ensures RateBetween(b[0].rate, b[|b| - 1].rate,
                        TaxedUpTo(b, k, g2) - TaxedUpTo(b, k, g1), TaxUpTo(b, k, g2) - TaxUpTo(b, k, g1))
  {
    if k > 0 {
      MarginalUpTo(b, k - 1, g1, g2);
      SliceTaxBetween(b, k - 1, g1, g2);
      AddBetween(b[0].rate, b[|b| - 1].rate,
        TaxedUpTo(b, k - 1, g2) - TaxedUpTo(b, k - 1, g1), TaxUpTo(b, k - 1, g2) - TaxUpTo(b, k - 1, g1),
        Slice(b, k - 1, g2) - Slice(b, k - 1, g1), SliceTax(b, k - 1, g2) - SliceTax(b, k - 1, g1),
        TaxedUpTo(b, k, g2) - TaxedUpTo(b, k, g1), TaxUpTo(b, k, g2) - TaxUpTo(b, k, g1));
    }
  }

  /** No jump at a bracket boundary: between any two non-negative incomes
      the tax rises by at least the lowest rate and at most the top rate
      times the difference in income. */
  lemma MarginalRateBounds(b: seq<Bracket>, g1: real, g2: real)
    requires WellFormed(b) && 0.0 <= g1 <= g2
    ensures b[0].rate * (g2 - g1) <= BracketTax(b, g2) - BracketTax(b, g1)
    ensures BracketTax(b, g2) - BracketTax(b, g1) <= b[|b| - 1].rate * (g2 - g1)
  {
    MarginalUpTo(b, |b|, g1, g2);
    AllIncomeTaxed(b, g1);
    AllIncomeTaxed(b, g2);
  }

  /** Earning more never lowers the tax. */
  lemma BracketTaxMonotone(b: seq<Bracket>, g1: real, g2: real)
    requires WellFormed(b) && g1 <= g2
    ensures BracketTax(b, g1) <= BracketTax(b, g2)
  {
    MarginalUpTo(b, |b|, g1, g2);
    RiseNonNegative(b[0].rate, b[|b| - 1].rate,
      TaxedUpTo(b, |b|, g2) - TaxedUpTo(b, |b|, g1), TaxUpTo(b, |b|, g2) - TaxUpTo(b, |b|, g1));
  }

  /** For non-negative gross the tax lies between the lowest and the top
      rate applied to all of it. */
  lemma BracketTaxBounds(b: seq<Bracket>, gross: real)
    requires WellFormed(b) && 0.0 <= gross
    ensures b[0].rate * gross <= BracketTax(b, gross) <= b[|b| - 1].rate * gross
  {
    MarginalRateBounds(b, 0.0, gross);
    NonPositiveGrossUntaxed(b, 0.0);
  }
}
