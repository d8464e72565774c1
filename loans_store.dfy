/**
 * The loans hook (src/hooks/use-loans.ts): the signed-in user's loans, the
 * loading flag, the list transitions after each backend answer and the two
 * totals. The backend is not modelled: each operation receives the answer
 * (`Ok(row)` or `Err(code)`) as a parameter, and whether a user is signed in
 * as a flag.
 */
module LoansHook {
  import opened Wrappers
  import opened Types
  import opened Sums
  import opened Lists

  function Owed(loan: Loan): real { loan.amount }

  function Monthly(loan: Loan): real { loan.monthlyPayment }

  /** `l => l.id === id`. */
  function HasId(id: string): Loan -> bool
  {
    (l: Loan) => l.id == id
  }

  class LoanStore {
    var loans: seq<Loan>
    var loading: bool

    /** The initial state: no loans, still loading. */
    constructor()
      ensures loans == [] && loading
    {
      loans := [];
      loading := true;
    }

    /** `totalOwed`: the loan amounts added up. */
    function TotalOwed(): real
      reads this
    {
      Sum(loans, Owed)
    }

    /** `totalMonthlyPayment`: the stored monthly payments added up. */
    function TotalMonthlyPayment(): real
      reads this
    {
      Sum(loans, Monthly)
    }

    /**
     * `fetchData`: without a user nothing happens (loading stays as it
     * is); otherwise the list becomes the rows read, or stays as it was on
     * an error, and loading ends either way.
     */
    method Fetch(signedIn: bool, answer: Outcome<seq<Loan>>)
      modifies this
      ensures !signedIn ==> loans == old(loans) && loading == old(loading)
      ensures signedIn ==> !loading
      ensures signedIn ==> loans == if answer.Ok? then answer.row else old(loans)
    {
      if !signedIn {
        return;
      }
      if answer.Ok? {
        loans := answer.row;
      }
      loading := false;
    }

    /**
     * `addLoan`: with a user and a successful insert the returned row is
     * appended after the existing loans; otherwise nothing changes. The
     * totals grow by the new row's figures.
     */
    method AddLoan(signedIn: bool, answer: Outcome<Loan>)
      modifies this
      ensures loading == old(loading)
      ensures loans == if signedIn && answer.Ok? then old(loans) + [answer.row] else old(loans)
      ensures signedIn && answer.Ok? ==>
        && TotalOwed() == old(TotalOwed()) + answer.row.amount
        && TotalMonthlyPayment() == old(TotalMonthlyPayment()) + answer.row.monthlyPayment
    {
      if !signedIn {
        return;
      }
      match answer
      case Err(_) =>
      case Ok(row) =>
        SumSnoc(loans, row, Owed);
        SumSnoc(loans, row, Monthly);
        loans := loans + [row];
    }

    /**
     * `updateLoan`: on success every loan with the id is replaced by the
     * returned row, in place; the other loans, the length and the order
     * stay. On an error nothing changes. No user check is made.
     */
    method UpdateLoan(id: string, answer: Outcome<Loan>)
      modifies this
      ensures loading == old(loading)
      ensures loans == if answer.Ok? then ReplaceWhere(old(loans), HasId(id), answer.row) else old(loans)
      ensures |loans| == |old(loans)|
      ensures answer.Ok? ==>
        forall i :: 0 <= i < |loans| ==> loans[i] == if old(loans)[i].id == id then answer.row else old(loans)[i]
    {
      if answer.Ok? {
        loans := ReplaceWhere(loans, HasId(id), answer.row);
      }
    }

    /**
     * `deleteLoan`: on success exactly the loans with the id are dropped
     * and the others keep their order; the amount owed falls by the
     * amounts dropped. On an error nothing changes.
     */
    method DeleteLoan(id: string, answer: Outcome<()>)
      modifies this
      ensures loading == old(loading)
      ensures loans == if answer.Ok? then RemoveWhere(old(loans), HasId(id)) else old(loans)
      ensures answer.Ok? ==> forall l :: l in loans ==> l.id != id
      ensures answer.Ok? ==> forall l :: l in old(loans) && l.id != id ==> l in loans
      ensures answer.Ok? ==> TotalOwed() == old(TotalOwed()) - Sum(Filter(old(loans), HasId(id)), Owed)
      ensures answer.Ok? ==> forall a, b :: old(loans) == a + b ==> loans == RemoveWhere(a, HasId(id)) + RemoveWhere(b, HasId(id))
    {
      if answer.Ok? {
        SumRemoveWhere(loans, HasId(id), Owed);
        RemoveWhereSplits(loans, HasId(id));
        loans := RemoveWhere(loans, HasId(id));
      }
    }
  }
}
