/**
 * `credit_check_tool`: the scoring engine. From an already-parsed financial
 * dictionary it computes four sub-scores (debt-to-income, loan-to-income,
 * credit utilisation, discretionary income) of at most 250 points each when no
 * debt is negative (the discretionary score always), subtracts payment
 * penalties, clamps the total to [0, 1000] and reports.
 *
 * All arithmetic is exact over reals. The total debt sums a map in no
 * particular order, so it and everything built on it are ghost functions.
 */
module CreditScoring {
  import opened Wrappers
  import opened PyValues
  import JsonValidation

  const BaseScore: real := 0.0
  const MaxScore: real := 1000.0
  /** Each sub-score is normalised to this many points. */
  const SubScoreBudget: real := 250.0
  const MissedPaymentPenalty: real := 100.0
  const LatePaymentPenalty: real := 50.0

  /** The numeric fields of the financial dictionary after the defaults are applied. */
  datatype Financials = Financials(
    income: real,
    expenses: real,
    debts: map<string, real>,
    creditLimit: real,
    missedPayments: real,
    latePayments: real)

  /**
   * The tool's response dictionary. The ratios and scores are the values
   * before `round(_, 2)`; the payment counts are echoed as given.
   */
  datatype CreditReport = CreditReport(
    creditScore: int,
    debtToIncomeRatio: real,
    loanToIncomeRatio: real,
    creditUtilization: real,
    discretionaryIncomeScore: real,
    missedPayments: Value,
    latePayments: Value)

  /** Where the source raises: a field used in arithmetic that is not a number. */
  datatype ToolError =
    | NotNumeric(key: string)
    | DebtsNotADict
    | NonNumericDebt

  /** Python `max(a, b)`: `a` unless `b` is strictly larger. */
  function Max(a: real, b: real): (r: real)
    ensures r >= a && r >= b && (r == a || r == b)
  {
    if b > a then b else a
  }

  /** Python `min(a, b)`: `a` unless `b` is strictly smaller. */
  function Min(a: real, b: real): (r: real)
    ensures r <= a && r <= b && (r == a || r == b)
  {
    if b < a then b else a
  }

  /** `sum(debts.values())`: nothing for no debts, never negative when no debt is. */
  ghost function SumValues(m: map<string, real>): (r: real)
    ensures m == map[] ==> r == 0.0
    ensures (forall k | k in m :: m[k] >= 0.0) ==> r >= 0.0
    decreases |m|
  {
    if m == map[] then 0.0
    else
      var k :| k in m;
      assert |m - {k}| < |m| by { assert (m - {k}).Keys < m.Keys; }
      m[k] + SumValues(m - {k})
  }

  /** The sum does not depend on the order the values are visited: any entry can be taken first. */
  lemma {:induction false} SumValuesRemove(m: map<string, real>, k: string)
    requires k in m
    ensures SumValues(m) == m[k] + SumValues(m - {k})
    decreases |m|
  {
    var j :| j in m && SumValues(m) == m[j] + SumValues(m - {j});
    if j != k {
      assert (m - {j}).Keys < m.Keys && (m - {k}).Keys < m.Keys;
      SumValuesRemove(m - {j}, k);
      SumValuesRemove(m - {k}, j);
      assert m - {j} - {k} == m - {k} - {j};
    }
  }

  /** Net income is the surplus of income over expenses, never negative. */
  function NetIncome(f: Financials): (r: real)
    ensures r >= 0.0 && r >= f.income - f.expenses
    ensures r == 0.0 || r == f.income - f.expenses
  {
    Max(0.0, f.income - f.expenses)
  }

  ghost function TotalDebt(f: Financials): real {
    SumValues(f.debts)
  }

  /** A ratio turned into points: the full budget at ratio 0, nothing from ratio 1 on. */
  function SubScore(ratio: real): (r: real)
    ensures r >= 0.0
    ensures ratio >= 0.0 ==> r <= SubScoreBudget
    ensures ratio >= 1.0 ==> r == 0.0
    ensures ratio <= 1.0 ==> r == SubScoreBudget * (1.0 - ratio)
  {
    Max(0.0, SubScoreBudget - ratio * SubScoreBudget)
  }

  /** Debt over net income; the worst case 1 when there is no net income. */
  ghost function DtiRatio(f: Financials): (r: real)
    ensures NetIncome(f) > 0.0 ==> r * NetIncome(f) == TotalDebt(f)
    ensures NetIncome(f) == 0.0 ==> r == 1.0
  {
    if NetIncome(f) > 0.0 then TotalDebt(f) / NetIncome(f) else 1.0
  }

  /**
   * Points for debt against net income: nothing in the fallback case or once the
   * debt reaches net income, and between, the budget scaled by the share of net income left over.
   */
  ghost function DtiScore(f: Financials): (r: real)
    ensures r >= 0.0
    ensures NetIncome(f) == 0.0 ==> r == 0.0
    ensures NetIncome(f) > 0.0 && TotalDebt(f) >= NetIncome(f) ==> r == 0.0
    ensures NetIncome(f) > 0.0 && TotalDebt(f) <= NetIncome(f) ==>
      r * NetIncome(f) == SubScoreBudget * (NetIncome(f) - TotalDebt(f))
  {
    if NetIncome(f) > 0.0 then
      QuotientVersusOne(TotalDebt(f), NetIncome(f));
      SubScore(DtiRatio(f))
    else SubScore(DtiRatio(f))
  }

  /** Debt over income; the worst case 1 when income is not positive. */
  ghost function LtiRatio(f: Financials): (r: real)
    ensures f.income > 0.0 ==> r * f.income == TotalDebt(f)
    ensures f.income <= 0.0 ==> r == 1.0
  {
    if f.income > 0.0 then TotalDebt(f) / f.income else 1.0
  }

  /**
   * Points for debt against income: nothing in the fallback case or once the
   * debt reaches income, and between, the budget scaled by the share of income left over.
   */
  ghost function LtiScore(f: Financials): (r: real)
    ensures r >= 0.0
    ensures f.income <= 0.0 ==> r == 0.0
    ensures f.income > 0.0 && TotalDebt(f) >= f.income ==> r == 0.0
    ensures f.income > 0.0 && TotalDebt(f) <= f.income ==> r * f.income == SubScoreBudget * (f.income - TotalDebt(f))
  {
    if f.income > 0.0 then
      QuotientVersusOne(TotalDebt(f), f.income);
      SubScore(LtiRatio(f))
    else SubScore(LtiRatio(f))
  }

  /** Debt over the credit limit; the worst case 1 when the limit is not positive. */
  ghost function UtilizationRatio(f: Financials): (r: real)
    ensures f.creditLimit > 0.0 ==> r * f.creditLimit == TotalDebt(f)
    ensures f.creditLimit <= 0.0 ==> r == 1.0
  {
    if f.creditLimit > 0.0 then TotalDebt(f) / f.creditLimit else 1.0
  }

  /**
   * Points for debt against the credit limit: nothing in the fallback case or once the
   * debt reaches the credit limit, and between, the budget scaled by the share of the credit limit left over.
   */
  ghost function UtilizationScore(f: Financials): (r: real)
    ensures r >= 0.0
    ensures f.creditLimit <= 0.0 ==> r == 0.0
    ensures f.creditLimit > 0.0 && TotalDebt(f) >= f.creditLimit ==> r == 0.0
    ensures f.creditLimit > 0.0 && TotalDebt(f) <= f.creditLimit ==>
      r * f.creditLimit == SubScoreBudget * (f.creditLimit - TotalDebt(f))
  {
    if f.creditLimit > 0.0 then
      QuotientVersusOne(TotalDebt(f), f.creditLimit);
      SubScore(UtilizationRatio(f))
    else SubScore(UtilizationRatio(f))
  }

  /**
   * The share of income left after expenses, in points. With non-negative
   * expenses the cap of 250 never applies and the score is exactly
   * proportional to net income; with negative expenses the cap gives 250.
   */
  function DiscretionaryScore(f: Financials): (r: real)
    ensures 0.0 <= r <= SubScoreBudget
    ensures f.income <= 0.0 ==> r == 0.0
    ensures f.income > 0.0 && f.expenses >= 0.0 ==> r * f.income == SubScoreBudget * NetIncome(f)
    ensures f.income > 0.0 && f.expenses <= 0.0 ==> r == SubScoreBudget
  {
    if f.income > 0.0 then
      var share := NetIncome(f) / f.income;
      QuotientVersusOne(NetIncome(f), f.income);
      Min(SubScoreBudget, share * SubScoreBudget)
    else 0.0
  }

  lemma QuotientVersusOne(n: real, d: real)
    requires d > 0.0
    ensures (n / d) * d == n
    ensures n <= d ==> n / d <= 1.0
    ensures n >= d ==> n / d >= 1.0
  {
  }

  /** Points taken off for payment history: none without missed or late payments. */
  function Penalty(f: Financials): (r: real)
    ensures f.missedPayments >= 0.0 && f.latePayments >= 0.0 ==> r >= 0.0
    ensures f.missedPayments == 0.0 && f.latePayments == 0.0 ==> r == 0.0
  {
    f.missedPayments * MissedPaymentPenalty + f.latePayments * LatePaymentPenalty
  }

  /**
   * The unclamped score: the penalty aside, never negative, and when no debt
   * is negative never above the four budgets together.
   */
  ghost function RawScore(f: Financials): (r: real)
    ensures r + Penalty(f) >= BaseScore
    ensures (forall name | name in f.debts :: f.debts[name] >= 0.0) ==> r + Penalty(f) <= 4.0 * SubScoreBudget
  {
    BaseScore + DtiScore(f) + LtiScore(f) + UtilizationScore(f) + DiscretionaryScore(f) - Penalty(f)
  }

  /** The raw score clamped to [0, 1000]. */
  ghost function FinalScore(f: Financials): (r: real)
    ensures BaseScore <= r <= MaxScore
    ensures BaseScore <= RawScore(f) <= MaxScore ==> r == RawScore(f)
    ensures RawScore(f) < BaseScore ==> r == BaseScore
    ensures RawScore(f) > MaxScore ==> r == MaxScore
  {
    Max(BaseScore, Min(MaxScore, RawScore(f)))
  }

  /** The response: `int(...)` of the clamped score is its floor, as the score is never negative. */
  ghost function Report(f: Financials, missedRaw: Value, lateRaw: Value): (r: CreditReport)
    ensures 0 <= r.creditScore <= 1000
    ensures r.creditScore as real <= FinalScore(f) < r.creditScore as real + 1.0
    ensures r.creditUtilization == 100.0 * UtilizationRatio(f)
  {
    CreditReport(
      FinalScore(f).Floor,
      DtiRatio(f),
      LtiRatio(f),
      UtilizationRatio(f) * 100.0,
      DiscretionaryScore(f),
      missedRaw,
      lateRaw)
  }

  // ---- From the parsed dictionary to the report ----

  /** The keys read as plain numbers, each defaulting to 0. */
  const NumericKeys: set<string> := {"income", "expenses", "credit_limit", "missed_payments", "late_payments"}

  /** `financial_data.get(key, 0)` used in arithmetic. */
  function NumberAt(data: map<string, Value>, key: string): (r: Result<real, ToolError>)
    ensures r.Success? <==> IsNumber(Get(data, key, Int(0)))
    ensures key !in data ==> r == Success(0.0)
    ensures r.Failure? ==> r.error == NotNumeric(key)
    ensures r.Success? ==> r.value == ToReal(Get(data, key, Int(0)))
  {
    var v := Get(data, key, Int(0));
    if IsNumber(v) then Success(ToReal(v)) else Failure(NotNumeric(key))
  }

  /** `financial_data.get("debts", {})` whose values are summed. */
  function DebtsAt(data: map<string, Value>): (r: Result<map<string, real>, ToolError>)
    ensures "debts" !in data ==> r == Success(map[])
    ensures r.Success? <==>
      var v := Get(data, "debts", Dict(map[]));
      v.Dict? && forall name | name in v.entries :: IsNumber(v.entries[name])
    ensures !Get(data, "debts", Dict(map[])).Dict? ==> r == Failure(DebtsNotADict)
    ensures r.Failure? && Get(data, "debts", Dict(map[])).Dict? ==> r == Failure(NonNumericDebt)
    ensures r.Success? && "debts" in data ==> data["debts"].Dict? && r.value.Keys == data["debts"].entries.Keys
    ensures r.Success? ==> forall name | name in r.value :: r.value[name] == ToReal(data["debts"].entries[name])
  {
    var v := Get(data, "debts", Dict(map[]));
    if !v.Dict? then Failure(DebtsNotADict)
    else if exists name | name in v.entries :: !IsNumber(v.entries[name]) then Failure(NonNumericDebt)
    else Success(map name | name in v.entries :: ToReal(v.entries[name]))
  }

  /** The fields in the order the source first uses them in arithmetic. */
  function ParseFinancials(data: map<string, Value>): (r: Result<Financials, ToolError>)
    ensures r.Success? <==> Scorable(data)
    ensures !IsNumber(Get(data, "income", Int(0))) ==> r == Failure(NotNumeric("income"))
    ensures r.Success? ==>
      && r.value.income == ToReal(Get(data, "income", Int(0)))
      && r.value.expenses == ToReal(Get(data, "expenses", Int(0)))
      && r.value.creditLimit == ToReal(Get(data, "credit_limit", Int(0)))
      && r.value.missedPayments == ToReal(Get(data, "missed_payments", Int(0)))
      && r.value.latePayments == ToReal(Get(data, "late_payments", Int(0)))
      && r.value.debts.Keys == Get(data, "debts", Dict(map[])).entries.Keys
      && forall name | name in r.value.debts :: r.value.debts[name] == ToReal(data["debts"].entries[name])
  {
    assert Scorable(data) <==>
      && NumberAt(data, "income").Success? && NumberAt(data, "expenses").Success?
      && DebtsAt(data).Success? && NumberAt(data, "credit_limit").Success?
      && NumberAt(data, "missed_payments").Success? && NumberAt(data, "late_payments").Success?;
    var income :- NumberAt(data, "income");
    var expenses :- NumberAt(data, "expenses");
    var debts :- DebtsAt(data);
    var creditLimit :- NumberAt(data, "credit_limit");
    var missed :- NumberAt(data, "missed_payments");
    var late :- NumberAt(data, "late_payments");
    Success(Financials(income, expenses, debts, creditLimit, missed, late))
  }

  /**
   * The inputs the tool scores without raising, stated key by key: every
   * numeric key is absent or a number, and the debts are absent or a
   * dictionary of numbers.
   */
  predicate Scorable(data: map<string, Value>) {
    && (forall key | key in NumericKeys && key in data :: IsNumber(data[key]))
    && ("debts" in data ==>
          && data["debts"].Dict?
          && forall name | name in data["debts"].entries :: IsNumber(data["debts"].entries[name]))
  }

  /** `credit_check_tool` on the already-parsed dictionary. */
  ghost function CreditCheckTool(data: map<string, Value>): (r: Result<CreditReport, ToolError>)
    ensures r.Success? <==> Scorable(data)
    ensures r.Success? ==> 0 <= r.value.creditScore <= 1000
    ensures r.Success? ==> r.value.missedPayments == Get(data, "missed_payments", Int(0))
    ensures r.Success? ==> r.value.latePayments == Get(data, "late_payments", Int(0))
  {
    var f :- ParseFinancials(data);
    Success(Report(f, Get(data, "missed_payments", Int(0)), Get(data, "late_payments", Int(0))))
  }

  // ---- Properties of the score ----

  /** With no net income the debt-to-income ratio falls back to 1 and earns nothing. */
  lemma ZeroNetIncomeFallback(f: Financials)
    requires NetIncome(f) == 0.0
    ensures DtiRatio(f) == 1.0 && DtiScore(f) == 0.0
  {
  }

  /**
   * With no positive income the loan-to-income ratio is 1, and neither it nor
   * the discretionary score earns anything.
   */
  lemma NonPositiveIncomeFallback(f: Financials)
    requires f.income <= 0.0
    ensures LtiRatio(f) == 1.0 && LtiScore(f) == 0.0
    ensures DiscretionaryScore(f) == 0.0
  {
  }

  /** With no positive credit limit utilisation is 1, reported as 100 percent, and earns nothing. */
  lemma NoCreditLimitFallback(f: Financials, missedRaw: Value, lateRaw: Value)
    requires f.creditLimit <= 0.0
    ensures UtilizationRatio(f) == 1.0 && UtilizationScore(f) == 0.0
    ensures Report(f, missedRaw, lateRaw).creditUtilization == 100.0
  {
  }

  /** When no debt is negative, each sub-score lies within its budget of 250 points. */
  lemma SubScoresWithinBudget(f: Financials)
    requires forall name | name in f.debts :: f.debts[name] >= 0.0
    ensures 0.0 <= DtiScore(f) <= SubScoreBudget
    ensures 0.0 <= LtiScore(f) <= SubScoreBudget
    ensures 0.0 <= UtilizationScore(f) <= SubScoreBudget
    ensures 0.0 <= DiscretionaryScore(f) <= SubScoreBudget
    ensures RawScore(f) <= 4.0 * SubScoreBudget - Penalty(f)
  {
    if NetIncome(f) > 0.0 { QuotientVersusOne(TotalDebt(f), NetIncome(f)); }
    if f.income > 0.0 { QuotientVersusOne(TotalDebt(f), f.income); }
    if f.creditLimit > 0.0 { QuotientVersusOne(TotalDebt(f), f.creditLimit); }
  }

  /** A negative ratio is what lets a sub-score exceed its budget: a negative debt does it. */
  lemma NegativeDebtExceedsBudget()
    ensures DtiScore(Financials(100.0, 0.0, map["refund" := -100.0], 100.0, 0.0, 0.0)) == 2.0 * SubScoreBudget
  {
    var f := Financials(100.0, 0.0, map["refund" := -100.0], 100.0, 0.0, 0.0);
    assert f.debts - {"refund"} == map[];
    assert TotalDebt(f) == -100.0;
  }

  /** More missed or late payments, all else equal, never raise the clamped score or the reported score. */
  lemma PaymentPenaltiesNeverRaiseScore(f: Financials, missed: real, late: real, missedRaw: Value, lateRaw: Value)
    requires f.missedPayments <= missed && f.latePayments <= late
    ensures FinalScore(f.(missedPayments := missed, latePayments := late)) <= FinalScore(f)
    ensures Report(f.(missedPayments := missed, latePayments := late), missedRaw, lateRaw).creditScore
         <= Report(f, missedRaw, lateRaw).creditScore
  {
    var g := f.(missedPayments := missed, latePayments := late);
    assert Penalty(g) >= Penalty(f);
    assert RawScore(g) <= RawScore(f);
  }

  /** A worked example: income 5000, expenses 2000, one loan of 1000, limit 3000, one late payment. */
  lemma WorkedExample()
    ensures var data := map[
        "income" := Int(5000), "expenses" := Int(2000), "debts" := Dict(map["loan" := Int(1000)]),
        "credit_limit" := Int(3000), "missed_payments" := Int(0), "late_payments" := Int(1)];
      CreditCheckTool(data) == Success(CreditReport(633, 1.0 / 3.0, 0.2, 100.0 / 3.0, 150.0, Int(0), Int(1)))
  {
    var data := map[
        "income" := Int(5000), "expenses" := Int(2000), "debts" := Dict(map["loan" := Int(1000)]),
        "credit_limit" := Int(3000), "missed_payments" := Int(0), "late_payments" := Int(1)];
    var f := Financials(5000.0, 2000.0, map["loan" := 1000.0], 3000.0, 0.0, 1.0);
    assert Scorable(data);
    assert ParseFinancials(data).value.debts == f.debts;
    assert ParseFinancials(data) == Success(f);
    assert f.debts - {"loan"} == map[];
    assert TotalDebt(f) == 1000.0;
    assert NetIncome(f) == 3000.0;
    assert DtiRatio(f) == 1.0 / 3.0;
    assert LtiRatio(f) == 0.2;
    assert UtilizationRatio(f) == 1.0 / 3.0;
    assert DiscretionaryScore(f) == 150.0;
    assert RawScore(f) == 1900.0 / 3.0;
    assert FinalScore(f).Floor == 633;
  }

  /** An empty dictionary scores as all zeros: every fallback applies and the score is 0. */
  lemma EmptyInputScoresZero()
    ensures CreditCheckTool(map[]) == Success(CreditReport(0, 1.0, 1.0, 100.0, 0.0, Int(0), Int(0)))
  {
    var f := Financials(0.0, 0.0, map[], 0.0, 0.0, 0.0);
    assert ParseFinancials(map[]) == Success(f);
    assert TotalDebt(f) == 0.0;
  }

  /** A missing numeric key gives the same result as the value 0. */
  lemma MissingNumberDefaults(data: map<string, Value>, key: string)
    requires key in NumericKeys
    ensures CreditCheckTool(data - {key}) == CreditCheckTool(data[key := Int(0)])
  {
    var d1, d2 := data - {key}, data[key := Int(0)];
    forall k ensures Get(d1, k, Int(0)) == Get(d2, k, Int(0)) && NumberAt(d1, k) == NumberAt(d2, k) {
    }
    assert DebtsAt(d1) == DebtsAt(d2);
    assert ParseFinancials(d1) == ParseFinancials(d2);
  }

  /** Missing debts give the same result as an empty debts dictionary. */
  lemma MissingDebtsDefault(data: map<string, Value>)
    ensures CreditCheckTool(data - {"debts"}) == CreditCheckTool(data["debts" := Dict(map[])])
  {
    var d1, d2 := data - {"debts"}, data["debts" := Dict(map[])];
    forall k | k != "debts" ensures Get(d1, k, Int(0)) == Get(d2, k, Int(0)) && NumberAt(d1, k) == NumberAt(d2, k) {
    }
    assert DebtsAt(d1) == DebtsAt(d2);
    assert ParseFinancials(d1) == ParseFinancials(d2);
  }

  /**
   * On the dictionary itself: raising the missed or late payment count, all else
   * equal, never raises the reported score; the new count is echoed.
   */
  lemma RaisingPaymentCountNeverRaisesScore(data: map<string, Value>, key: string, v: Value)
    requires key == "missed_payments" || key == "late_payments"
    requires Scorable(data) && IsNumber(v)
    requires ToReal(Get(data, key, Int(0))) <= ToReal(v)
    ensures CreditCheckTool(data[key := v]).Success?
    ensures CreditCheckTool(data[key := v]).value.creditScore <= CreditCheckTool(data).value.creditScore
  {
    var data' := data[key := v];
    assert Scorable(data');
    var f, g := ParseFinancials(data).value, ParseFinancials(data').value;
    assert g.debts == f.debts;
    assert g == f.(missedPayments := g.missedPayments, latePayments := g.latePayments);
    PaymentPenaltiesNeverRaiseScore(f, g.missedPayments, g.latePayments,
      Get(data', "missed_payments", Int(0)), Get(data', "late_payments", Int(0)));
  }

  /** Whatever the validator accepts, the tool scores without raising. */
  lemma ValidatedDataIsScorable(data: map<string, Value>)
    requires JsonValidation.Validate(Dict(data)) == Pass
    ensures CreditCheckTool(data).Success?
  {
  }
}
