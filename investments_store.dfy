/**
 * The investments hook (src/hooks/use-investments.ts): the signed-in
 * user's holdings, the loading flag, the list transitions after each
 * backend answer and the total invested. Each operation receives the
 * backend's answer (`Ok(row)` or `Err(code)`) as a parameter, and whether a
 * user is signed in as a flag.
 */
module InvestmentsHook {
  import opened Wrappers
  import opened Types
  import opened Sums
  import opened Lists
  import opened Holdings

  /** `i => i.id === id`. */
  function HasId(id: string): Investment -> bool
  {
    (inv: Investment) => inv.id == id
  }

  class InvestmentStore {
    var investments: seq<Investment>
    var loading: bool

    /** The initial state: no holdings, still loading. */
    constructor()
      ensures investments == [] && loading
    {
      investments := [];
      loading := true;
    }

    /** `totalInvested`. */
    function Total(): real
      reads this
    {
      TotalInvested(investments)
    }

    /**
     * `fetchData`: without a user nothing happens; otherwise the list
     * becomes the rows read, or stays as it was on an error, and loading
     * ends either way.
     */
    method Fetch(signedIn: bool, answer: Outcome<seq<Investment>>)
      modifies this
      ensures !signedIn ==> investments == old(investments) && loading == old(loading)
      ensures signedIn ==> !loading
      ensures signedIn ==> investments == if answer.Ok? then answer.row else old(investments)
    {
      if !signedIn {
        return;
      }
      if answer.Ok? {
        investments := answer.row;
      }
      loading := false;
    }

    /**
     * `addInvestment`: with a user and a successful insert the returned row
     * is appended; otherwise nothing changes. The total grows by the new
     * holding's value.
     */
    method AddInvestment(signedIn: bool, answer: Outcome<Investment>)
      modifies this
      ensures loading == old(loading)
      ensures investments == if signedIn && answer.Ok? then old(investments) + [answer.row] else old(investments)
      ensures signedIn && answer.Ok? ==> Total() == old(Total()) + Value(answer.row)
    {
      if !signedIn {
        return;
      }
      match answer
      case Err(_) =>
      case Ok(row) =>
        SumSnoc(investments, row, Value);
        investments := investments + [row];
    }

    /**
     * `updateInvestment`: on success every holding with the id is replaced
     * by the returned row, in place; on an error nothing changes. No user
     * check is made.
     */
    method UpdateInvestment(id: string, answer: Outcome<Investment>)
      modifies this
      ensures loading == old(loading)
      ensures investments == if answer.Ok? then ReplaceWhere(old(investments), HasId(id), answer.row) else old(investments)
      ensures answer.Ok? ==> forall i :: 0 <= i < |investments| ==>
        investments[i] == if old(investments)[i].id == id then answer.row else old(investments)[i]
    {
      if answer.Ok? {
        investments := ReplaceWhere(investments, HasId(id), answer.row);
      }
    }

    /**
     * `deleteInvestment`: on success exactly the holdings with the id are
     * dropped and the rest keep their order; the total falls by their
     * value. On an error nothing changes.
     */
    method DeleteInvestment(id: string, answer: Outcome<()>)
      modifies this
      ensures loading == old(loading)
      ensures investments == if answer.Ok? then RemoveWhere(old(investments), HasId(id)) else old(investments)
      ensures answer.Ok? ==> forall inv :: inv in investments ==> inv.id != id
      ensures answer.Ok? ==> forall inv :: inv in old(investments) && inv.id != id ==> inv in investments
      ensures answer.Ok? ==> Total() == old(Total()) - Sum(Filter(old(investments), HasId(id)), Value)
      ensures answer.Ok? ==> forall a, b :: old(investments) == a + b ==> investments == RemoveWhere(a, HasId(id)) + RemoveWhere(b, HasId(id))
    {
      if answer.Ok? {
        SumRemoveWhere(investments, HasId(id), Value);
        RemoveWhereSplits(investments, HasId(id));
        investments := RemoveWhere(investments, HasId(id));
      }
    }
  }

  /**
   * When ids are unique, an update replaces the one holding with the id
   * and the total moves by the difference of the two values.
   */
  lemma UpdateShiftsTotal(investments: seq<Investment>, id: string, row: Investment, i: nat)
    requires i < |investments| && investments[i].id == id
    requires forall j :: 0 <= j < |investments| && j != i ==> investments[j].id != id
    ensures ReplaceWhere(investments, HasId(id), row) == investments[i := row]
    ensures TotalInvested(ReplaceWhere(investments, HasId(id), row)) == TotalInvested(investments) - Value(investments[i]) + Value(row)
  {
    ReplaceWhereOnly(investments, HasId(id), row, i, Value);
  }
}
