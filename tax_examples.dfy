/** Worked scenarios for the tax engine (the expected values of
    src/services/__tests__/taxCalculator.test.ts), proved exactly on reals,
    plus what the engine computes for two registry options. */
module TaxExamples {
  import opened Wrappers
  import opened TaxConfig
  import opened BracketSort
  import opened TaxCalculator

  /** A test option of the given shape. */
  function TestOption(rate: Option<real>, brackets: Option<seq<TaxBracket>>, exemption: Option<real>): TaxOption
  {
    TaxOption("test", "Test", Income, true, rate, brackets, exemption, None)
  }

  const ThreeBrackets := [TaxBracket(0.0, 10.0), TaxBracket(10000.0, 20.0), TaxBracket(50000.0, 30.0)]

  /** The schedule the tests use: the registry's 2024 US ordinary brackets. */
  const UsTestBrackets := UsOrdinaryBrackets

  /** On brackets already in order the sort changes nothing, so the tax is
      the walk itself. */
  lemma ProgressiveOnSorted(amount: real, brackets: seq<TaxBracket>)
    requires SortedByThreshold(brackets) && amount > 0.0
    ensures ProgressiveTax(amount, brackets) == Accrued(amount, brackets, 0)
  {
    SortByThresholdOfSorted(brackets);
  }

  lemma FlatRateScenarios()
    ensures CalculateTax(1000.0, TestOption(Some(25.0), None, None)) == 250.0
    ensures CalculateTax(5000.0, TestOption(Some(25.0), None, None)) == 1250.0
    ensures CalculateTax(0.0, TestOption(Some(25.0), None, None)) == 0.0
    ensures CalculateTax(-1000.0, TestOption(Some(25.0), None, None)) == 0.0
  {
  }

  lemma ExemptionScenarios()
    ensures CalculateTax(30000.0, TestOption(Some(10.0), None, Some(50000.0))) == 0.0
    ensures CalculateTax(50000.0, TestOption(Some(10.0), None, Some(50000.0))) == 0.0
    ensures CalculateTax(60000.0, TestOption(Some(10.0), None, Some(50000.0))) == 1000.0
    ensures CalculateTax(100000.0, TestOption(Some(10.0), None, Some(50000.0))) == 5000.0
  {
  }

  lemma NoMechanismScenario()
    ensures CalculateTax(10000.0, TestOption(None, None, None)) == 0.0
  {
  }

  lemma ThreeBracketScenarios()
    ensures ProgressiveTax(5000.0, ThreeBrackets) == 500.0
    ensures ProgressiveTax(10000.0, ThreeBrackets) == 1000.0
    ensures ProgressiveTax(15000.0, ThreeBrackets) == 2000.0
    ensures ProgressiveTax(50000.0, ThreeBrackets) == 9000.0
    ensures ProgressiveTax(60000.0, ThreeBrackets) == 12000.0
    ensures ProgressiveTax(100000.0, ThreeBrackets) == 24000.0
    ensures ProgressiveTax(0.0, ThreeBrackets) == 0.0 && ProgressiveTax(-1000.0, ThreeBrackets) == 0.0
    ensures ProgressiveTax(10000.0, []) == 0.0
  {
    assert SortedByThreshold(ThreeBrackets);
    ProgressiveOnSorted(5000.0, ThreeBrackets);
    ProgressiveOnSorted(10000.0, ThreeBrackets);
    ProgressiveOnSorted(15000.0, ThreeBrackets);
    assert Accrued(15000.0, ThreeBrackets, 1) == 1000.0;
    ProgressiveOnSorted(50000.0, ThreeBrackets);
    assert Accrued(50000.0, ThreeBrackets, 1) == 8000.0;
    ProgressiveOnSorted(60000.0, ThreeBrackets);
    assert Accrued(60000.0, ThreeBrackets, 2) == 3000.0;
    assert Accrued(60000.0, ThreeBrackets, 1) == 11000.0;
    ProgressiveOnSorted(100000.0, ThreeBrackets);
    assert Accrued(100000.0, ThreeBrackets, 2) == 15000.0;
    assert Accrued(100000.0, ThreeBrackets, 1) == 23000.0;
  }

  /** `calculateTax` on the same brackets goes through the progressive path. */
  lemma BracketOptionScenarios()
    ensures CalculateTax(5000.0, TestOption(None, Some(ThreeBrackets), None)) == 500.0
    ensures CalculateTax(15000.0, TestOption(None, Some(ThreeBrackets), None)) == 2000.0
    ensures CalculateTax(60000.0, TestOption(None, Some(ThreeBrackets), None)) == 12000.0
  {
    ThreeBracketScenarios();
  }

  lemma SingleBracketScenarios()
    ensures ProgressiveTax(10000.0, [TaxBracket(0.0, 15.0)]) == 1500.0
    ensures ProgressiveTax(50000.0, [TaxBracket(0.0, 15.0)]) == 7500.0
  {
    ProgressiveOnSorted(10000.0, [TaxBracket(0.0, 15.0)]);
    ProgressiveOnSorted(50000.0, [TaxBracket(0.0, 15.0)]);
  }

  lemma UsScheduleScenarios()
    ensures ProgressiveTax(50000.0, UsTestBrackets) == 6307.5
    ensures ProgressiveTax(100000.0, UsTestBrackets) == 17400.0
  {
    assert SortedByThreshold(UsTestBrackets);
    ProgressiveOnSorted(50000.0, UsTestBrackets);
    assert Accrued(50000.0, UsTestBrackets, 3) == 0.0;
    assert Accrued(50000.0, UsTestBrackets, 2) == 1160.5;
    assert Accrued(50000.0, UsTestBrackets, 1) == 5207.5;
    ProgressiveOnSorted(100000.0, UsTestBrackets);
    assert Accrued(100000.0, UsTestBrackets, 4) == 0.0;
    assert Accrued(100000.0, UsTestBrackets, 3) == 1110.0;
    assert Accrued(100000.0, UsTestBrackets, 2) == 12253.0;
    assert Accrued(100000.0, UsTestBrackets, 1) == 16300.0;
  }

  const UnsortedBrackets := [TaxBracket(50000.0, 30.0), TaxBracket(0.0, 10.0), TaxBracket(10000.0, 20.0)]

  /** The brackets listed out of order are taxed as if in order. */
  lemma UnsortedBracketsScenario()
    ensures ProgressiveTax(15000.0, UnsortedBrackets) == 2000.0
  {
    assert UnsortedBrackets == [ThreeBrackets[2], ThreeBrackets[0], ThreeBrackets[1]];
    assert DistinctThresholds(UnsortedBrackets);
    assert multiset(UnsortedBrackets) == multiset(ThreeBrackets);
    ProgressiveTaxIgnoresOrder(15000.0, UnsortedBrackets, ThreeBrackets);
    ThreeBracketScenarios();
  }

  /** The method on the same array: it sorts its own copy and leaves the
      caller's array as it was. */
  method UnsortedBracketsOnArray() returns (tax: real, callerArray: seq<TaxBracket>)
    ensures tax == 2000.0
    ensures callerArray == UnsortedBrackets
  {
    var unsorted := new TaxBracket[3];
    unsorted[0], unsorted[1], unsorted[2] := UnsortedBrackets[0], UnsortedBrackets[1], UnsortedBrackets[2];
    assert unsorted[..] == UnsortedBrackets;
    UnsortedBracketsScenario();
    tax := CalculateProgressiveTax(15000.0, unsorted);
    callerArray := unsorted[..];
  }

  /** Two brackets with the same threshold: the sort keeps their order and
      only the later one's rate applies, so listing them the other way round
      changes the tax. */
  lemma TiedOrderMatters()
    ensures ProgressiveTax(100.0, [TaxBracket(0.0, 10.0), TaxBracket(0.0, 20.0)]) == 20.0
    ensures ProgressiveTax(100.0, [TaxBracket(0.0, 20.0), TaxBracket(0.0, 10.0)]) == 10.0
  {
    var up := [TaxBracket(0.0, 10.0), TaxBracket(0.0, 20.0)];
    var down := [TaxBracket(0.0, 20.0), TaxBracket(0.0, 10.0)];
    assert SortedByThreshold(up) && SortedByThreshold(down);
    ProgressiveOnSorted(100.0, up);
    ProgressiveOnSorted(100.0, down);
    TiedBracketGetsNothing(100.0, up, 0);
    TiedBracketGetsNothing(100.0, down, 0);
  }

  /** A bracket below zero: the tax is 0 at amount 0 but already 10.1 just
      above it, which is why continuity across 0 needs non-negative
      thresholds. */
  lemma NegativeThresholdJumpsAtZero()
    ensures ProgressiveTax(0.0, [TaxBracket(-100.0, 10.0)]) == 0.0
    ensures ProgressiveTax(1.0, [TaxBracket(-100.0, 10.0)]) == 10.1
  {
    ProgressiveOnSorted(1.0, [TaxBracket(-100.0, 10.0)]);
  }

  lemma MonthlyScenarios()
    ensures CalculateMonthlyTax(100000.0, TestOption(Some(12.0), None, None)) == 1000.0
    ensures CalculateMonthlyTax(100000.0,
              TestOption(None, Some([TaxBracket(0.0, 10.0), TaxBracket(50000.0, 20.0)]), None)) == 1250.0
    ensures CalculateMonthlyIncomeTax(5000.0, TestOption(Some(25.0), None, None)) == 1250.0
    ensures CalculateMonthlyIncomeTax(5000.0, TestOption(None, Some(ThreeBrackets), None)) == 1000.0
    ensures CalculateMonthlyIncomeTax(1000.0, TestOption(Some(20.0), None, Some(12000.0))) == 0.0
    ensures CalculateMonthlyIncomeTax(2000.0, TestOption(Some(20.0), None, Some(12000.0))) == 200.0
  {
    var two := [TaxBracket(0.0, 10.0), TaxBracket(50000.0, 20.0)];
    assert SortedByThreshold(two);
    ProgressiveOnSorted(100000.0, two);
    assert Accrued(100000.0, two, 1) == 10000.0;
    ThreeBracketScenarios();
  }

  /** Annualising matters under brackets: taxing each month's income on
      its own would give half as much here. */
  lemma AnnualisingMatters()
    ensures CalculateMonthlyIncomeTax(5000.0, TestOption(None, Some(ThreeBrackets), None)) == 1000.0
    ensures CalculateTax(5000.0, TestOption(None, Some(ThreeBrackets), None)) == 500.0
  {
    ThreeBracketScenarios();
  }

  lemma RealWorldScenarios()
    ensures CalculateMonthlyIncomeTax(5000.0,
              TestOption(None, Some([TaxBracket(0.0, 36.93), TaxBracket(73031.0, 49.5)]), None)) == 1846.5
    ensures CalculateMonthlyTax(100000.0, TestOption(Some(36.0), None, Some(57000.0))) == 1290.0
    ensures CalculateTax(10000.0, TestOption(Some(10.0), None, Some(3000.0))) == 700.0
    ensures CalculateTax(2000.0, TestOption(Some(10.0), None, Some(3000.0))) == 0.0
    ensures CalculateMonthlyIncomeTax(5000.0, TestOption(None, Some(UsTestBrackets[..4]), None)) == 8507.5 / 12.0
  {
    var box1 := [TaxBracket(0.0, 36.93), TaxBracket(73031.0, 49.5)];
    assert SortedByThreshold(box1);
    ProgressiveOnSorted(60000.0, box1);
    var us4 := UsTestBrackets[..4];
    assert us4 == [TaxBracket(0.0, 10.0), TaxBracket(11000.0, 12.0), TaxBracket(44725.0, 22.0), TaxBracket(95375.0, 24.0)];
    assert SortedByThreshold(us4);
    ProgressiveOnSorted(60000.0, us4);
    assert Accrued(60000.0, us4, 3) == 0.0;
    assert Accrued(60000.0, us4, 2) == 3360.5;
    assert Accrued(60000.0, us4, 1) == 7407.5;
  }

  // ---------------------------------------------------------------------------
  // Resolution against the registry
  // ---------------------------------------------------------------------------

  lemma ResolveScenarios()
    ensures ResolveTaxOption(None, Some("NL"), Income).None?
    ensures ResolveTaxOption(Some("none"), Some("NL"), Wealth).None?
    ensures ResolveTaxOption(Some("after-tax"), Some("NL"), Income).None?
    ensures ResolveTaxOption(Some("default"), None, Income).None?
    ensures ResolveTaxOption(Some("default"), Some("NL"), Income) == Some(NlTaxConfig.incomeTaxes[0])
    ensures NlTaxConfig.incomeTaxes[0].id == "nl-box1" && NlTaxConfig.incomeTaxes[0].isDefault
    ensures ResolveTaxOption(Some("default"), Some("US"), Income) == Some(UsTaxConfig.incomeTaxes[0])
    ensures UsTaxConfig.incomeTaxes[0].id == "us-federal-single"
    ensures ResolveTaxOption(Some("default"), Some("GB"), Income) == Some(GbTaxConfig.incomeTaxes[0])
    ensures GbTaxConfig.incomeTaxes[0].id == "gb-income"
  {
    GetTaxConfigCases("NL");
    GetTaxConfigCases("US");
    GetTaxConfigCases("GB");
  }

  lemma ResolveByIdScenarios()
    ensures ResolveTaxOption(Some("nl-box2"), Some("NL"), Income) == Some(NlTaxConfig.incomeTaxes[1])
    ensures NlTaxConfig.incomeTaxes[1].name == "Box 2 - Substantial Interest"
    ensures ResolveTaxOption(Some("invalid-tax-id"), Some("NL"), Income).None?
    ensures ResolveTaxOption(Some("nl-box1"), Some("NL"), Wealth).None?
  {
    GetTaxConfigCases("NL");
    var all := AllOptions(NlTaxConfig);
    assert all == NlTaxConfig.incomeTaxes + NlTaxConfig.wealthTaxes + NlTaxConfig.capitalGainsTaxes;
    assert FindById(all, "nl-box2") == Some(all[1]);
    assert FindById(all, "nl-box1") == Some(all[0]);
    assert forall i :: 0 <= i < |all| ==> all[i].id != "invalid-tax-id";
  }

  // ---------------------------------------------------------------------------
  // Registry options
  // ---------------------------------------------------------------------------

  /** The UK income option subtracts the personal allowance and then applies
      brackets that start at the allowance again, so 25,140 owes nothing
      and 60,000 owes 6,972. */
  lemma GbIncomeAsConfigured()
    ensures CalculateTax(25140.0, GbTaxConfig.incomeTaxes[0]) == 0.0
    ensures CalculateTax(60000.0, GbTaxConfig.incomeTaxes[0]) == 6972.0
  {
    var b := GbTaxConfig.incomeTaxes[0].brackets.value;
    assert SortedByThreshold(b);
    ProgressiveOnSorted(12570.0, b);
    ProgressiveOnSorted(47430.0, b);
    assert Accrued(47430.0, b, 1) == 0.0;
  }

  /** Every amount up to 25,140 owes nothing under the UK income option as
      configured: the allowance is taken off first and the brackets then start
      at the allowance again. */
  lemma GbIncomeNothingUpTo(amount: real)
    requires amount <= 25140.0
    ensures CalculateTax(amount, GbTaxConfig.incomeTaxes[0]) == 0.0
  {
    var b := GbTaxConfig.incomeTaxes[0].brackets.value;
    assert SortedByThreshold(b);
    SortByThresholdOfSorted(b);
  }

  /** The US long-term capital gains schedule on two amounts. */
  lemma UsLongTermGainsAsConfigured()
    ensures CalculateTax(40000.0, UsTaxConfig.capitalGainsTaxes[0]) == 0.0
    ensures CalculateTax(100000.0, UsTaxConfig.capitalGainsTaxes[0]) == 8306.25
  {
    var b := UsTaxConfig.capitalGainsTaxes[0].brackets.value;
    assert SortedByThreshold(b);
    ProgressiveOnSorted(40000.0, b);
    assert Accrued(40000.0, b, 1) == 0.0;
    ProgressiveOnSorted(100000.0, b);
    assert Accrued(100000.0, b, 2) == 0.0;
    assert Accrued(100000.0, b, 1) == 8306.25;
  }

  /** The US long-term capital gains schedule taxes nothing up to 44,625. */
  lemma UsLongTermGainsNothingUpTo(amount: real)
    requires amount <= 44625.0
    ensures CalculateTax(amount, UsTaxConfig.capitalGainsTaxes[0]) == 0.0
  {
    var b := UsTaxConfig.capitalGainsTaxes[0].brackets.value;
    assert SortedByThreshold(b);
    SortByThresholdOfSorted(b);
  }
}
