/** The calculator's constant tables: the 2023 federal income tax brackets
    for single and married-filing-jointly filers, flat approximations of
    state income tax rates, and the spending-allocation percentages for
    federal and state taxes.

    The two keyed tables are lookups from a code to `Some(entry)`, or to
    `None` for a code the table does not list. */
module TaxTables {
  import opened Brackets
  import opened Allocations

  datatype Option<T> = None | Some(value: T)

  datatype FilingStatus = Single | Married

  /** The federal bracket table for a filing status. */
  function FederalBrackets(status: FilingStatus): seq<Bracket> {
    match status
    case Single => [
      Bracket(0.1, Finite(11000.0)),
      Bracket(0.12, Finite(44725.0)),
      Bracket(0.22, Finite(95375.0)),
      Bracket(0.24, Finite(182100.0)),
      Bracket(0.32, Finite(231250.0)),
      Bracket(0.35, Finite(578125.0)),
      Bracket(0.37, Unbounded)
    ]
    case Married => [
      Bracket(0.1, Finite(22000.0)),
      Bracket(0.12, Finite(89450.0)),
      Bracket(0.22, Finite(190750.0)),
      Bracket(0.24, Finite(364200.0)),
      Bracket(0.32, Finite(462500.0)),
      Bracket(0.35, Finite(693750.0)),
      Bracket(0.37, Unbounded)
    ]
  }

  /** Flat state income tax rate by two-letter state code. */
  function StateTaxRates(code: string): Option<real> {
    match code
    case "AL" => Some(0.05)
    case "AK" => Some(0.0)
    case "AZ" => Some(0.025)
    case "AR" => Some(0.049)
    case "CA" => Some(0.093)
    case "CO" => Some(0.045)
    case "CT" => Some(0.05)
    case "DE" => Some(0.052)
    case "FL" => Some(0.0)
    case "GA" => Some(0.057)
    case "HI" => Some(0.0825)
    case "ID" => Some(0.059)
    case "IL" => Some(0.0495)
    case "IN" => Some(0.0323)
    case "IA" => Some(0.06)
    case "KS" => Some(0.057)
    case "KY" => Some(0.05)
    case "LA" => Some(0.06)
    case "ME" => Some(0.0715)
    case "MD" => Some(0.0525)
    case "MA" => Some(0.05)
    case "MI" => Some(0.0425)
    case "MN" => Some(0.059)
    case "MS" => Some(0.05)
    case "MO" => Some(0.05)
    case "MT" => Some(0.068)
    case "NE" => Some(0.06)
    case "NV" => Some(0.0)
    case "NH" => Some(0.0)
    case "NJ" => Some(0.0637)
    case "NM" => Some(0.049)
    case "NY" => Some(0.0685)
    case "NC" => Some(0.0475)
    case "ND" => Some(0.021)
    case "OH" => Some(0.0368)
    case "OK" => Some(0.05)
    case "OR" => Some(0.09)
    case "PA" => Some(0.0307)
    case "RI" => Some(0.051)
    case "SC" => Some(0.07)
    case "SD" => Some(0.0)
    case "TN" => Some(0.0)
    case "TX" => Some(0.0)
    case "UT" => Some(0.0495)
    case "VT" => Some(0.063)
    case "VA" => Some(0.0575)
    case "WA" => Some(0.0)
    case "WV" => Some(0.052)
    case "WI" => Some(0.053)
    case "WY" => Some(0.0)
    case "DC" => Some(0.065)
    case _ => None
  }

  /** Spending shares by scope: "fed" for federal tax, otherwise a state
      code. */
  function Spending(scope: string): Option<seq<Share>> {
    match scope
    case "fed" => Some([
        Share("Social Security & Medicare", 0.3),
        Share("Defense & Veterans", 0.17),
        Share("Health Programs", 0.14),
        Share("Interest on Debt", 0.08),
        Share("Safety Net Programs", 0.08),
        Share("Education & Training", 0.06),
        Share("Infrastructure & Science", 0.04),
        Share("Other Spending", 0.13)
    ])
    case "AL" => Some([
        Share("Education", 0.35),
        Share("Healthcare", 0.28),
        Share("Public Safety", 0.14),
        Share("Transportation", 0.08),
        Share("Other Services", 0.15)
    ])
    case "AK" => Some([
        Share("Public Safety", 0.3),
        Share("Healthcare", 0.25),
        Share("Education", 0.2),
        Share("Transportation", 0.1),
        Share("Other Services", 0.15)
    ])
    case "AZ" => Some([
        Share("Education", 0.36),
        Share("Healthcare", 0.3),
        Share("Public Safety", 0.1),
        Share("Transportation", 0.1),
        Share("Other Services", 0.14)
    ])
    case "AR" => Some([
        Share("Education", 0.37),
        Share("Healthcare", 0.3),
        Share("Public Safety", 0.12),
        Share("Transportation", 0.08),
        Share("Other Services", 0.13)
    ])
    case "CA" => Some([
        Share("Education", 0.38),
        Share("Healthcare", 0.29),
        Share("Transportation", 0.08),
        Share("Public Safety", 0.07),
        Share("Other Services", 0.18)
    ])
    case "CO" => Some([
        Share("Education", 0.34),
        Share("Healthcare", 0.28),
        Share("Transportation", 0.11),
        Share("Public Safety", 0.11),
        Share("Other Services", 0.16)
    ])
    case "CT" => Some([
        Share("Education", 0.35),
        Share("Healthcare", 0.32),
        Share("Public Safety", 0.12),
        Share("Transportation", 0.09),
        Share("Other Services", 0.12)
    ])
    case "DE" => Some([
        Share("Education", 0.36),
        Share("Healthcare", 0.29),
        Share("Public Safety", 0.13),
        Share("Transportation", 0.09),
        Share("Other Services", 0.13)
    ])
    case "FL" => Some([
        Share("Education", 0.39),
        Share("Healthcare", 0.27),
        Share("Public Safety", 0.12),
        Share("Transportation", 0.09),
        Share("Other Services", 0.13)
    ])
    case "GA" => Some([
        Share("Education", 0.4),
        Share("Healthcare", 0.26),
        Share("Public Safety", 0.14),
        Share("Transportation", 0.1),
        Share("Other Services", 0.1)
    ])
    case "HI" => Some([
        Share("Education", 0.36),
        Share("Healthcare", 0.29),
        Share("Public Safety", 0.13),
        Share("Transportation", 0.1),
        Share("Other Services", 0.12)
    ])
    case "ID" => Some([
        Share("Education", 0.38),
        Share("Healthcare", 0.28),
        Share("Public Safety", 0.12),
        Share("Transportation", 0.1),
        Share("Other Services", 0.12)
    ])
    case "IL" => Some([
        Share("Education", 0.34),
        Share("Healthcare", 0.3),
        Share("Public Safety", 0.14),
        Share("Transportation", 0.1),
        Share("Other Services", 0.12)
    ])
    case "IN" => Some([
        Share("Education", 0.33),
        Share("Healthcare", 0.3),
        Share("Public Safety", 0.13),
        Share("Transportation", 0.12),
        Share("Other Services", 0.12)
    ])
    case "IA" => Some([
        Share("Education", 0.35),
        Share("Healthcare", 0.28),
        Share("Public Safety", 0.12),
        Share("Transportation", 0.1),
        Share("Other Services", 0.15)
    ])
    case "KS" => Some([
        Share("Education", 0.36),
        Share("Healthcare", 0.27),
        Share("Public Safety", 0.13),
        Share("Transportation", 0.11),
        Share("Other Services", 0.13)
    ])
    case "KY" => Some([
        Share("Education", 0.34),
        Share("Healthcare", 0.29),
        Share("Public Safety", 0.14),
        Share("Transportation", 0.08),
        Share("Other Services", 0.15)
    ])
    case "LA" => Some([
        Share("Education", 0.32),
        Share("Healthcare", 0.3),
        Share("Public Safety", 0.15),
        Share("Transportation", 0.09),
        Share("Other Services", 0.14)
    ])
    case "ME" => Some([
        Share("Education", 0.35),
        Share("Healthcare", 0.31),
        Share("Public Safety", 0.12),
        Share("Transportation", 0.1),
        Share("Other Services", 0.12)
    ])
    case "MD" => Some([
        Share("Education", 0.37),
        Share("Healthcare", 0.3),
        Share("Public Safety", 0.13),
        Share("Transportation", 0.1),
        Share("Other Services", 0.1)
    ])
    case "MA" => Some([
        Share("Education", 0.36),
        Share("Healthcare", 0.32),
        Share("Public Safety", 0.12),
        Share("Transportation", 0.09),
        Share("Other Services", 0.11)
    ])
    case "MI" => Some([
        Share("Education", 0.33),
        Share("Healthcare", 0.3),
        Share("Public Safety", 0.15),
        Share("Transportation", 0.1),
        Share("Other Services", 0.12)
    ])
    case "MN" => Some([
        Share("Education", 0.38),
        Share("Healthcare", 0.29),
        Share("Public Safety", 0.12),
        Share("Transportation", 0.09),
        Share("Other Services", 0.12)
    ])
    case "MS" => Some([
        Share("Education", 0.36),
        Share("Healthcare", 0.3),
        Share("Public Safety", 0.13),
        Share("Transportation", 0.08),
        Share("Other Services", 0.13)
    ])
    case "MO" => Some([
        Share("Education", 0.35),
        Share("Healthcare", 0.28),
        Share("Public Safety", 0.14),
        Share("Transportation", 0.1),
        Share("Other Services", 0.13)
    ])
    case "MT" => Some([
        Share("Education", 0.34),
        Share("Healthcare", 0.29),
        Share("Public Safety", 0.14),
        Share("Transportation", 0.11),
        Share("Other Services", 0.12)
    ])
    case "NE" => Some([
        Share("Education", 0.36),
        Share("Healthcare", 0.27),
        Share("Public Safety", 0.14),
        Share("Transportation", 0.11),
        Share("Other Services", 0.12)
    ])
    case "NV" => Some([
        Share("Education", 0.39),
        Share("Healthcare", 0.26),
        Share("Public Safety", 0.13),
        Share("Transportation", 0.09),
        Share("Other Services", 0.13)
    ])
    case "NH" => Some([
        Share("Education", 0.37),
        Share("Healthcare", 0.28),
        Share("Public Safety", 0.13),
        Share("Transportation", 0.1),
        Share("Other Services", 0.12)
    ])
    case "NJ" => Some([
        Share("Education", 0.38),
        Share("Healthcare", 0.3),
        Share("Public Safety", 0.12),
        Share("Transportation", 0.1),
        Share("Other Services", 0.1)
    ])
    case "NM" => Some([
        Share("Education", 0.35),
        Share("Healthcare", 0.29),
        Share("Public Safety", 0.14),
        Share("Transportation", 0.09),
        Share("Other Services", 0.13)
    ])
    case "NY" => Some([
        Share("Education", 0.34),
        Share("Healthcare", 0.32),
        Share("Public Safety", 0.13),
        Share("Transportation", 0.09),
        Share("Other Services", 0.12)
    ])
    case "NC" => Some([
        Share("Education", 0.36),
        Share("Healthcare", 0.29),
        Share("Public Safety", 0.14),
        Share("Transportation", 0.09),
        Share("Other Services", 0.12)
    ])
    case "ND" => Some([
        Share("Education", 0.35),
        Share("Healthcare", 0.28),
        Share("Public Safety", 0.15),
        Share("Transportation", 0.1),
        Share("Other Services", 0.12)
    ])
    case "OH" => Some([
        Share("Education", 0.33),
        Share("Healthcare", 0.3),
        Share("Public Safety", 0.15),
        Share("Transportation", 0.09),
        Share("Other Services", 0.13)
    ])
    case "OK" => Some([
        Share("Education", 0.36),
        Share("Healthcare", 0.27),
        Share("Public Safety", 0.13),
        Share("Transportation", 0.11),
        Share("Other Services", 0.13)
    ])
    case "OR" => Some([
        Share("Education", 0.34),
        Share("Healthcare", 0.3),
        Share("Public Safety", 0.13),
        Share("Transportation", 0.1),
        Share("Other Services", 0.13)
    ])
    case "PA" => Some([
        Share("Education", 0.35),
        Share("Healthcare", 0.29),
        Share("Public Safety", 0.13),
        Share("Transportation", 0.1),
        Share("Other Services", 0.13)
    ])
    case "RI" => Some([
        Share("Education", 0.35),
        Share("Healthcare", 0.3),
        Share("Public Safety", 0.12),
        Share("Transportation", 0.1),
        Share("Other Services", 0.13)
    ])
    case "SC" => Some([
        Share("Education", 0.37),
        Share("Healthcare", 0.29),
        Share("Public Safety", 0.13),
        Share("Transportation", 0.08),
        Share("Other Services", 0.13)
    ])
    case "SD" => Some([
        Share("Education", 0.33),
        Share("Healthcare", 0.3),
        Share("Public Safety", 0.14),
        Share("Transportation", 0.12),
        Share("Other Services", 0.11)
    ])
    case "TN" => Some([
        Share("Education", 0.36),
        Share("Healthcare", 0.28),
        Share("Public Safety", 0.13),
        Share("Transportation", 0.1),
        Share("Other Services", 0.13)
    ])
    case "TX" => Some([
        Share("Education", 0.4),
        Share("Healthcare", 0.26),
        Share("Public Safety", 0.1),
        Share("Transportation", 0.06),
        Share("Other Services", 0.18)
    ])
    case "UT" => Some([
        Share("Education", 0.38),
        Share("Healthcare", 0.27),
        Share("Public Safety", 0.13),
        Share("Transportation", 0.11),
        Share("Other Services", 0.11)
    ])
    case "VT" => Some([
        Share("Education", 0.36),
        Share("Healthcare", 0.3),
        Share("Public Safety", 0.13),
        Share("Transportation", 0.1),
        Share("Other Services", 0.11)
    ])
    case "VA" => Some([
        Share("Education", 0.37),
        Share("Healthcare", 0.29),
        Share("Public Safety", 0.12),
        Share("Transportation", 0.09),
        Share("Other Services", 0.13)
    ])
    case "WA" => Some([
        Share("Education", 0.39),
        Share("Healthcare", 0.26),
        Share("Public Safety", 0.12),
        Share("Transportation", 0.1),
        Share("Other Services", 0.13)
    ])
    case "WV" => Some([
        Share("Education", 0.34),
        Share("Healthcare", 0.3),
        Share("Public Safety", 0.14),
        Share("Transportation", 0.09),
        Share("Other Services", 0.13)
    ])
    case "WI" => Some([
        Share("Education", 0.36),
        Share("Healthcare", 0.29),
        Share("Public Safety", 0.13),
        Share("Transportation", 0.1),
        Share("Other Services", 0.12)
    ])
    case "WY" => Some([
        Share("Education", 0.35),
        Share("Healthcare", 0.28),
        Share("Public Safety", 0.15),
        Share("Transportation", 0.09),
        Share("Other Services", 0.13)
    ])
    case "DC" => Some([
        Share("Education", 0.39),
        Share("Healthcare", 0.3),
        Share("Public Safety", 0.1),
        Share("Transportation", 0.08),
        Share("Other Services", 0.13)
    ])
    case _ => None
  }

  /** Both federal tables are well formed, start at 10% and top out at 37%. */
  lemma FederalBracketsWellFormed(status: FilingStatus)
    ensures WellFormed(FederalBrackets(status))
    ensures FederalBrackets(status)[0].rate == 0.1
    ensures FederalBrackets(status)[|FederalBrackets(status)| - 1].rate == 0.37
  {
    match status
    case Single => SingleBracketsWellFormed();
    case Married => MarriedBracketsWellFormed();
  }

  lemma SingleBracketsWellFormed()
    ensures WellFormed(FederalBrackets(Single))
  {
  }

  lemma MarriedBracketsWellFormed()
    ensures WellFormed(FederalBrackets(Married))
  {
  }

  /** Every state rate lies between 0 and California's 9.3%. */
  lemma StateRatesInRange(code: string)
    requires StateTaxRates(code).Some?
    ensures 0.0 <= StateTaxRates(code).value <= 0.093
  {
  }

  /** The federal spending table has eight rows whose shares add up to
      exactly the whole. */
  lemma FederalSharesSumToOne()
    ensures Spending("fed").Some? && |Spending("fed").value| == 8
    ensures PercentSum(Spending("fed").value) == 1.0
  {
  }

  /** Texas levies no income tax. */
  lemma TexasRateIsZero()
    ensures StateTaxRates("TX") == Some(0.0)
  {
  }

  /** Texas still has a spending table, of five rows. */
  lemma TexasSpendingTable()
    ensures Spending("TX").Some? && |Spending("TX").value| == 5
  {
  }
}
