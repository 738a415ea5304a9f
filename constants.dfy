/** The fixed training set and the scatter-plot configuration (constants.ts). */
module Constants {
  import opened Types

  /** Builds a loan record; the four arguments are stored unchanged. */
  function CreateLoan(id: int, creditScore: real, annualIncome: real, paidBack: bool): (loan: Loan)
    ensures loan.id == id && loan.creditScore == creditScore
    ensures loan.annualIncome == annualIncome && loan.paidBack == paidBack
  {
    Loan(id, creditScore, annualIncome, paidBack)
  }

  /** The 25 loan applications every dashboard plots. */
  const LoanData: seq<Loan> := [
    // obvious good loans
    CreateLoan(1, 780.0, 120.0, true),
    CreateLoan(2, 750.0, 95.0, true),
    CreateLoan(3, 800.0, 150.0, true),
    // obvious bad loans
    CreateLoan(4, 580.0, 35.0, false),
    CreateLoan(5, 610.0, 40.0, false),
    CreateLoan(6, 550.0, 30.0, false),
    // low score but paid back: the score rule wrongly denies them
    CreateLoan(7, 630.0, 110.0, true),
    CreateLoan(8, 620.0, 130.0, true),
    // high score but defaulted: the score rule wrongly approves them
    CreateLoan(9, 700.0, 45.0, false),
    CreateLoan(10, 690.0, 42.0, false),
    // clear cases for the residual story
    CreateLoan(11, 820.0, 140.0, true),
    CreateLoan(12, 560.0, 25.0, false),
    // borderline cases
    CreateLoan(13, 680.0, 60.0, true),
    CreateLoan(14, 660.0, 55.0, false),
    // the rest of the set
    CreateLoan(15, 720.0, 85.0, true),
    CreateLoan(16, 790.0, 100.0, true),
    CreateLoan(17, 650.0, 75.0, true),
    CreateLoan(18, 630.0, 50.0, false),
    CreateLoan(19, 670.0, 65.0, false),
    CreateLoan(20, 710.0, 70.0, false),
    CreateLoan(21, 640.0, 90.0, true),
    CreateLoan(22, 600.0, 38.0, false),
    CreateLoan(23, 760.0, 80.0, true),
    CreateLoan(24, 680.0, 105.0, true),
    CreateLoan(25, 620.0, 60.0, false)
  ]

  /** A closed numeric interval `[lo, hi]`, the source's `[number, number]` domains. */
  datatype Domain = Domain(lo: real, hi: real)

  datatype Margin = Margin(top: real, right: real, bottom: real, left: real)

  /** Size of the SVG, its margins and the data domains on both axes. */
  datatype PlotConfig = PlotConfig(width: real, height: real, margin: Margin, xDomain: Domain, yDomain: Domain)

  const ScatterPlotConfig := PlotConfig(800.0, 500.0, Margin(40.0, 40.0, 60.0, 70.0),
                                        Domain(540.0, 830.0), Domain(20.0, 160.0))

  /** Number of defaulted loans among `loans[i..]`. */
  function DefaultsFrom(loans: seq<Loan>, i: nat): (n: nat)
    ensures i <= |loans| ==> n <= |loans| - i
    decreases |loans| - i
  {
    if i >= |loans| then 0
    else (if loans[i].paidBack then 0 else 1) + DefaultsFrom(loans, i + 1)
  }

  /** Number of defaulted loans (the length of `filter(l => !l.paidBack)`). */
  function DefaultCount(loans: seq<Loan>): (n: nat)
    ensures n <= |loans|
  {
    DefaultsFrom(loans, 0)
  }

  /** Exactly 25 records, with ids 1..25 in order; hence the ids are unique. */
  lemma LoanDataIds()
    ensures |LoanData| == 25
    ensures forall i :: 0 <= i < |LoanData| ==> LoanData[i].id == i + 1
    ensures forall i, j :: 0 <= i < j < |LoanData| ==> LoanData[i].id != LoanData[j].id
  {
  }

  /** Every record lies in score [550, 820] and income [25, 150], inside both plot domains. */
  lemma LoanDataInDomain()
    ensures forall i :: 0 <= i < |LoanData| ==>
      550.0 <= LoanData[i].creditScore <= 820.0 && 25.0 <= LoanData[i].annualIncome <= 150.0
    ensures ScatterPlotConfig.xDomain.lo < 550.0 && 820.0 < ScatterPlotConfig.xDomain.hi
    ensures ScatterPlotConfig.yDomain.lo < 25.0 && 150.0 < ScatterPlotConfig.yDomain.hi
  {
  }

  /** The defaulted records are exactly those with ids 4,5,6,9,10,12,14,18,19,20,22,25. */
  lemma DefaultedIds()
    ensures forall i :: 0 <= i < |LoanData| ==>
      (!LoanData[i].paidBack <==> LoanData[i].id in {4, 5, 6, 9, 10, 12, 14, 18, 19, 20, 22, 25})
  {
  }

  /** Twelve of the 25 loans defaulted. */
  lemma DefaultCountOfLoanData()
    ensures DefaultCount(LoanData) == 12
  {
    var s := LoanData;
    assert DefaultsFrom(s, 24) == 1;
    assert DefaultsFrom(s, 23) == 1;
    assert DefaultsFrom(s, 22) == 1;
    assert DefaultsFrom(s, 21) == 2;
    assert DefaultsFrom(s, 20) == 2;
    assert DefaultsFrom(s, 19) == 3;
    assert DefaultsFrom(s, 18) == 4;
    assert DefaultsFrom(s, 17) == 5;
    assert DefaultsFrom(s, 16) == 5;
    assert DefaultsFrom(s, 15) == 5;
    assert DefaultsFrom(s, 14) == 5;
    assert DefaultsFrom(s, 13) == 6;
    assert DefaultsFrom(s, 12) == 6;
    assert DefaultsFrom(s, 11) == 7;
    assert DefaultsFrom(s, 10) == 7;
    assert DefaultsFrom(s, 9) == 8;
    assert DefaultsFrom(s, 8) == 9;
    assert DefaultsFrom(s, 7) == 9;
    assert DefaultsFrom(s, 6) == 9;
    assert DefaultsFrom(s, 5) == 10;
    assert DefaultsFrom(s, 4) == 11;
    assert DefaultsFrom(s, 3) == 12;
    assert DefaultsFrom(s, 2) == 12;
    assert DefaultsFrom(s, 1) == 12;
  }

  /**
   * The records the score rule gets wrong: 7 and 8 (low score, paid back,
   * high income), 9 and 10 (high score, defaulted, low income).
   */
  lemma StoryRecords()
    ensures LoanData[6].id == 7 && LoanData[6].creditScore <= 680.0 && LoanData[6].paidBack
    ensures LoanData[7].id == 8 && LoanData[7].creditScore <= 680.0 && LoanData[7].paidBack
    ensures LoanData[8].id == 9 && LoanData[8].creditScore > 680.0 && !LoanData[8].paidBack
    ensures LoanData[9].id == 10 && LoanData[9].creditScore > 680.0 && !LoanData[9].paidBack
    ensures LoanData[6].annualIncome > 80.0 && LoanData[7].annualIncome > 80.0
    ensures LoanData[8].annualIncome <= 80.0 && LoanData[9].annualIncome <= 80.0
  {
  }
}
