/**
 * `credit_check_agent`: the toy agent that scores 0 when income is below
 * expenses and 100 otherwise, reading missing fields as 0.
 */
module CreditCheckAgent {
  import opened Wrappers
  import opened PyValues

  /** Where the source raises. */
  datatype AgentError =
    | FinancialDataWithoutGet  // `financial_data` is not a dictionary, so `.get` raises AttributeError
    | NotComparable            // `income < expenses` raises TypeError

  const LowScore: int := 0
  const HighScore: int := 100

  /** Python `<` on strings: code point by code point, a proper prefix being smaller. */
  function StrLess(s: string, t: string): (r: bool)
    ensures |s| < |t| && s == t[..|s|] ==> r
    ensures |t| <= |s| && t == s[..|t|] ==> !r
    ensures forall i | 0 <= i < |s| && i < |t| && s[i] != t[i] && (forall j | 0 <= j < i :: s[j] == t[j]) ::
      r == (s[i] < t[i])
  {
    if |t| == 0 then false
    else if |s| == 0 then true
    else if s[0] != t[0] then s[0] < t[0]
    else
      var r := StrLess(s[1..], t[1..]);
      assert forall i | 1 <= i < |s| && i < |t| :: s[i] == s[1..][i - 1] && t[i] == t[1..][i - 1];
      r
  }

  lemma {:induction false} StrLessIrreflexive(s: string)
    ensures !StrLess(s, s)
  {
    if |s| > 0 {
      StrLessIrreflexive(s[1..]);
    }
  }

  /** Python `a < b` for numbers and for strings; other pairs raise. */
  function PyLess(a: Value, b: Value): (r: Result<bool, AgentError>)
    ensures IsNumber(a) && IsNumber(b) ==> r == Success(ToReal(a) < ToReal(b))
    ensures a.Str? && b.Str? ==> r == Success(StrLess(a.s, b.s))
    ensures r.Success? <==> (IsNumber(a) && IsNumber(b)) || (a.Str? && b.Str?)
  {
    if IsNumber(a) && IsNumber(b) then Success(ToReal(a) < ToReal(b))
    else if a.Str? && b.Str? then Success(StrLess(a.s, b.s))
    else Failure(NotComparable)
  }

  /** `state.get("financial_data", {})`. */
  function FinancialData(state: map<string, Value>): Value {
    Get(state, "financial_data", Dict(map[]))
  }

  /** `financial_data.get(key, 0)`, once `financial_data` is a dictionary. */
  function Field(state: map<string, Value>, key: string): Value
    requires FinancialData(state).Dict?
  {
    Get(FinancialData(state).entries, key, Int(0))
  }

  /** `credit_check_agent`. */
  function CreditCheckAgent(state: map<string, Value>): (r: Result<map<string, Value>, AgentError>)
    ensures !FinancialData(state).Dict? ==> r == Failure(FinancialDataWithoutGet)
    ensures FinancialData(state).Dict? ==>
      (r.Success? <==> PyLess(Field(state, "income"), Field(state, "expenses")).Success?)
    ensures r.Success? ==>
      && r.value.Keys == {"credit_score"}
      && (r.value["credit_score"] == Int(LowScore) || r.value["credit_score"] == Int(HighScore))
      && (r.value["credit_score"] == Int(LowScore) <==>
            PyLess(Field(state, "income"), Field(state, "expenses")) == Success(true))
  {
    if !FinancialData(state).Dict? then Failure(FinancialDataWithoutGet)
    else
      var below :- PyLess(Field(state, "income"), Field(state, "expenses"));
      var creditScore := if below then LowScore else HighScore;
      Success(map["credit_score" := Int(creditScore)])
  }

  /** On numbers the score is 0 exactly when income is below expenses, and 100 when it is at least as large. */
  lemma NumericScoreRule(state: map<string, Value>)
    requires FinancialData(state).Dict?
    requires IsNumber(Field(state, "income")) && IsNumber(Field(state, "expenses"))
    ensures var income, expenses := ToReal(Field(state, "income")), ToReal(Field(state, "expenses"));
      CreditCheckAgent(state) == Success(map["credit_score" := Int(if income < expenses then LowScore else HighScore)])
  {
  }

  /** Missing financial data, or missing income and expenses inside it, read as 0 and score 100. */
  lemma MissingFieldsScoreHigh(state: map<string, Value>)
    requires "financial_data" !in state ||
      (state["financial_data"].Dict? && "income" !in state["financial_data"].entries
        && "expenses" !in state["financial_data"].entries)
    ensures CreditCheckAgent(state) == Success(map["credit_score" := Int(HighScore)])
  {
  }

  /** Equal income and expenses, numbers or strings alike, score 100. */
  lemma EqualFieldsScoreHigh(state: map<string, Value>)
    requires FinancialData(state).Dict?
    requires Field(state, "income") == Field(state, "expenses")
    requires IsNumber(Field(state, "income")) || Field(state, "income").Str?
    ensures CreditCheckAgent(state) == Success(map["credit_score" := Int(HighScore)])
  {
    if Field(state, "income").Str? {
      StrLessIrreflexive(Field(state, "income").s);
    }
  }
}
