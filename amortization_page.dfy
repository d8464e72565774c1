/**
 * The amortization calculator page (src/pages/amortization.tsx): its two
 * pieces of state, the calculate and load handlers, the loan record the
 * save handler inserts, the key-metric ratios, the presets and the CSV
 * export.
 */
module AmortizationPage {
  import opened Wrappers
  import opened Annuity
  import opened Amortization
  import opened Text

  /** The form's values: principal, annual rate in percent, term in months. */
  datatype Inputs = Inputs(principal: real, annualRate: real, termMonths: int)

  /** Inputs calculateAmortization accepts: a positive rate and at least one month. */
  predicate Computable(input: Inputs)
  {
    input.annualRate > 0.0 && input.termMonths >= 1
  }

  function ResultFor(input: Inputs): Result
    requires Computable(input)
  {
    AmortizationOf(input.principal, input.annualRate, input.termMonths)
  }

  /** The loan row handleSave inserts (its name and start date come from the clock). */
  datatype LoanRecord = LoanRecord(amount: real, interestRate: real, termMonths: int, monthlyPayment: real)

  /** handleSave: nothing without a signed-in user, else the record built from the computed result. */
  function SaveRecord(signedIn: bool, input: Inputs): (record: Option<LoanRecord>)
    requires Computable(input)
    ensures record.Some? <==> signedIn
    ensures record.Some? ==>
      && record.value.amount == input.principal
      && record.value.interestRate == input.annualRate
      && record.value.termMonths == input.termMonths
      && record.value.monthlyPayment == ResultFor(input).monthlyPayment
  {
    if !signedIn then None
    else Some(LoanRecord(input.principal, input.annualRate, input.termMonths, ResultFor(input).monthlyPayment))
  }

  /** A saved record reproduces the payment the calculator showed for its own fields. */
  lemma SavedPaymentReproducible(input: Inputs)
    requires Computable(input)
    ensures var r := SaveRecord(true, input).value;
      r.monthlyPayment == Payment(r.amount, MonthlyRate(r.interestRate), r.termMonths)
  {
  }

  class Page {
    var values: Option<Inputs>
    var result: Option<Result>

    /** Whatever result is shown was computed from the values shown. */
    predicate Valid()
      reads this
    {
      result.Some? ==> values.Some? && Computable(values.value) && result.value == ResultFor(values.value)
    }

    constructor()
      ensures values == None && result == None
      ensures Valid()
    {
      values := None;
      result := None;
    }

    /** handleCalculate: store the inputs and the schedule computed from them. */
    method HandleCalculate(input: Inputs)
      requires Computable(input)
      modifies this
      ensures values == Some(input) && result == Some(ResultFor(input))
      ensures Valid()
    {
      values := Some(input);
      var r := CalculateAmortization(input.principal, input.annualRate, input.termMonths);
      result := Some(r);
    }

    /** handleLoad: recompute from the saved inputs; the saved result is not used. */
    method HandleLoad(input: Inputs, savedResult: Option<Result>)
      requires Computable(input)
      modifies this
      ensures values == Some(input) && result == Some(ResultFor(input))
      ensures Valid()
    {
      HandleCalculate(input);
    }

    /** The save-calculation dialog is offered once both values and a result exist. */
    predicate CanSaveCalculation()
      reads this
    {
      values.Some? && result.Some?
    }
  }

  /** The two quick presets: a 30-year mortgage and a 5-year auto loan. */
  function Presets(): (presets: seq<(string, Inputs)>)
    ensures |presets| == 2
    ensures forall i :: 0 <= i < |presets| ==> Computable(presets[i].1) && presets[i].1.principal > 0.0
    ensures presets[0].1 == Inputs(200000.0, 6.5, 360) && presets[1].1 == Inputs(25000.0, 4.5, 60)
  {
    [("30-Year Mortgage", Inputs(200000.0, 6.5, 360)),
     ("5-Year Auto Loan", Inputs(25000.0, 4.5, 60))]
  }

  /** Interest-to-principal ratio, in percent. */
  function InterestRatio(res: Result, principal: real): real
    requires principal != 0.0
  {
    res.totalInterest / principal * 100.0
  }

  /** Total cost per $1000 borrowed. */
  function CostPerThousand(res: Result, principal: real): real
    requires principal != 0.0
  {
    res.totalPayment / principal * 1000.0
  }

  /** Monthly payment per $1000 borrowed. */
  function PaymentPerThousand(res: Result, principal: real): real
    requires principal != 0.0
  {
    res.monthlyPayment / principal * 1000.0
  }

  /** On a computed result the cost per $1000 is $1000 plus ten times the interest ratio. */
  lemma CostIsPrincipalPlusInterest(principal: real, annualRate: real, n: nat)
    requires annualRate > 0.0 && n >= 1 && principal != 0.0
    ensures var res := AmortizationOf(principal, annualRate, n);
      CostPerThousand(res, principal) == 1000.0 + 10.0 * InterestRatio(res, principal)
  {
    TotalInterestIsRest(principal, annualRate, n);
    CostFromInterest(AmortizationOf(principal, annualRate, n), principal);
  }

  /**
   * On a computed result the cost per $1000 is n monthly payments per
   * $1000 (`Repeated(x, n)` is x added n times).
   */
  lemma CostIsPayments(principal: real, annualRate: real, n: nat)
    requires annualRate > 0.0 && n >= 1 && principal != 0.0
    ensures var res := AmortizationOf(principal, annualRate, n);
      CostPerThousand(res, principal) == Repeated(PaymentPerThousand(res, principal), n)
  {
    var r := MonthlyRate(annualRate);
    var m := Payment(principal, r, n);
    SummaryCost(m, n, Schedule(principal, r, m, n), principal);
  }

  lemma SummaryCost(m: real, n: nat, s: seq<Row>, p: real)
    requires |s| == n >= 1 && p != 0.0
    ensures CostPerThousand(Summary(m, n, s), p) == Repeated(PaymentPerThousand(Summary(m, n, s), p), n)
  {
    CostFromPayments(Summary(m, n, s), p, n as real);
    RepeatedIsProduct(PaymentPerThousand(Summary(m, n, s), p), n);
  }

  lemma CostFromInterest(res: Result, p: real)
    requires p != 0.0 && res.totalInterest == res.totalPayment - p
    ensures CostPerThousand(res, p) == 1000.0 + 10.0 * InterestRatio(res, p)
  {
    DivideExactly(res.totalInterest, p, res.totalPayment / p - 1.0);
  }

  lemma CostFromPayments(res: Result, p: real, n: real)
    requires p != 0.0 && res.totalPayment == res.monthlyPayment * n
    ensures CostPerThousand(res, p) == PaymentPerThousand(res, p) * n
  {
    DivideExactly(res.totalPayment, p, res.monthlyPayment / p * n);
  }

  lemma DivideExactly(x: real, p: real, q: real)
    requires p != 0.0 && x == q * p
    ensures x / p == q
  {
  }

  /** The CSV header line's fields. */
  function Header(): seq<string>
  {
    ["Month", "Payment", "Principal", "Interest", "Balance", "Total Interest"]
  }

  /** A number as JavaScript prints it; only that it contains neither ',' nor '\n' matters here. */
  ghost predicate Printable(show: real -> string)
  {
    forall x :: ',' !in show(x) && '\n' !in show(x)
  }

  function Fields(row: Row, show: real -> string): seq<string>
  {
    [show(row.month as real), show(row.payment), show(row.principal), show(row.interest),
     show(row.balance), show(row.totalInterest)]
  }

  /** One schedule row as a CSV line. */
  function RowLine(row: Row, show: real -> string): string
  {
    Join(Fields(row, show), ',')
  }

  /** `schedule.map(row => [...].join(','))`. */
  function {:induction false} RowLines(schedule: seq<Row>, show: real -> string): (lines: seq<string>)
    ensures |lines| == |schedule|
    ensures forall i :: 0 <= i < |schedule| ==> lines[i] == RowLine(schedule[i], show)
  {
    if |schedule| == 0 then [] else [RowLine(schedule[0], show)] + RowLines(schedule[1..], show)
  }

  /** The export's lines: the header, then one line per row in schedule order. */
  function CsvLines(schedule: seq<Row>, show: real -> string): seq<string>
  {
    [Join(Header(), ',')] + RowLines(schedule, show)
  }

  /** The exported text: the lines joined by '\n', with no trailing newline. */
  function Csv(schedule: seq<Row>, show: real -> string): string
  {
    Join(CsvLines(schedule, show), '\n')
  }

  lemma HeaderFree()
    ensures Free(Header(), ',') && Free(Header(), '\n')
  {
  }

  lemma LineFree(row: Row, show: real -> string)
    requires Printable(show)
    ensures '\n' !in RowLine(row, show)
    ensures Split(RowLine(row, show), ',') == Fields(row, show)
  {
    JoinFree(Fields(row, show), ',', '\n');
    SplitJoin(Fields(row, show), ',');
  }

  lemma RowLinesRead(schedule: seq<Row>, show: real -> string)
    requires Printable(show)
    ensures Free(RowLines(schedule, show), '\n')
    ensures forall i :: 0 <= i < |schedule| ==> Split(RowLines(schedule, show)[i], ',') == Fields(schedule[i], show)
  {
    forall i | 0 <= i < |schedule|
      ensures '\n' !in RowLines(schedule, show)[i]
      ensures Split(RowLines(schedule, show)[i], ',') == Fields(schedule[i], show)
    {
      LineFree(schedule[i], show);
    }
  }

  /**
   * Reading the export back: splitting at '\n' gives the header line and
   * then one line per row; splitting the header at ',' gives the six column
   * names, and splitting a row line gives that row's six fields.
   */
  lemma CsvReadsBack(schedule: seq<Row>, show: real -> string)
    requires Printable(show)
    ensures var lines := Split(Csv(schedule, show), '\n');
      && |lines| == |schedule| + 1
      && Split(lines[0], ',') == Header()
      && forall i :: 0 <= i < |schedule| ==> Split(lines[i + 1], ',') == Fields(schedule[i], show)
  {
    HeaderFree();
    JoinFree(Header(), ',', '\n');
    SplitJoin(Header(), ',');
    RowLinesRead(schedule, show);
    FreeCons(Join(Header(), ','), RowLines(schedule, show), '\n');
    SplitJoin(CsvLines(schedule, show), '\n');
  }
}
