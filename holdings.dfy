/**
 * What every investment component computes from a holding: its value
 * `quantity * purchase_price`, its grouping key `symbol || name`, and the
 * total invested.
 */
module Holdings {
  import opened Wrappers
  import opened Types
  import opened Sums
  import opened Grouping

  /** `inv.quantity * inv.purchase_price`. */
  function Value(inv: Investment): real
  {
    inv.quantity * inv.purchasePrice
  }

  /**
   * `inv.symbol || inv.name`: the symbol unless it is null or empty (both
   * falsy in JavaScript), else the name.
   */
  function Key(inv: Investment): (k: string)
    ensures inv.symbol.Some? && inv.symbol.value != "" ==> k == inv.symbol.value
    ensures inv.symbol.None? || inv.symbol.value == "" ==> k == inv.name
  {
    match inv.symbol
    case Some(s) => if s != "" then s else inv.name
    case None => inv.name
  }

  /** `investments.reduce((sum, inv) => sum + inv.quantity * inv.purchase_price, 0)`. */
  function TotalInvested(investments: seq<Investment>): real
  {
    Sum(investments, Value)
  }

  /** With non-negative quantities and prices every value, and so the total, is non-negative. */
  predicate NonNegative(investments: seq<Investment>)
  {
    forall inv :: inv in investments ==> inv.quantity >= 0.0 && inv.purchasePrice >= 0.0
  }

  lemma ValuesNonNegative(investments: seq<Investment>)
    requires NonNegative(investments)
    ensures forall inv :: inv in investments ==> Value(inv) >= 0.0
    ensures TotalInvested(investments) >= 0.0
  {
    SumNonNegative(investments, Value);
  }

  /**
   * The holdings grouped by key with their values added up: the
   * `reduce` into `acc[symbol || name]` (the loop is `Grouping.Accumulate`).
   */
  function Grouped(investments: seq<Investment>): seq<(string, real)>
  {
    GroupBy(investments, Key, Value)
  }

  /** Every group's value is a sum of holding values, so non-negative holdings give non-negative groups. */
  lemma GroupsNonNegative(investments: seq<Investment>)
    requires NonNegative(investments)
    ensures forall i :: 0 <= i < |Grouped(investments)| ==> Grouped(investments)[i].1 >= 0.0
  {
    ValuesNonNegative(investments);
    GroupByTotals(investments, Key, Value);
    forall i | 0 <= i < |Grouped(investments)|
      ensures Grouped(investments)[i].1 >= 0.0
    {
      var members := Filter(investments, KeyIs(Key, Grouped(investments)[i].0));
      SumNonNegative(members, Value);
    }
  }
}
