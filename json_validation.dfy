/**
 * `validate_financial_data`: checks that a parsed value is a dictionary holding
 * every required financial key with the expected type, in a fixed order, and
 * then that every debt amount is a number. Extra keys are allowed.
 */
module JsonValidation {
  import opened Wrappers
  import opened PyValues

  /** The type tuple a required key is checked against with `isinstance`. */
  datatype ExpectedType =
    | Number   // (int, float)
    | Mapping  // dict
    | Integer  // int, which bool passes too

  /** The required keys in the order the check visits them. */
  const RequiredKeys: seq<(string, ExpectedType)> := [
    ("income", Number),
    ("expenses", Number),
    ("debts", Mapping),
    ("credit_limit", Number),
    ("missed_payments", Integer),
    ("late_payments", Integer)
  ]

  /** The kind of failure the source raises (its message text is not modelled). */
  datatype ValidationError =
    | NotADict
    | MissingKey(key: string)
    | WrongType(key: string)
    | NonNumericDebt

  predicate HasType(v: Value, t: ExpectedType) {
    match t
    case Number => IsNumber(v)
    case Mapping => v.Dict?
    case Integer => IsInt(v)
  }

  /** The required entry is present and has its type. */
  predicate EntryOk(d: map<string, Value>, entry: (string, ExpectedType)) {
    entry.0 in d && HasType(d[entry.0], entry.1)
  }

  /** The error raised for a required entry that is not OK. */
  function EntryError(d: map<string, Value>, entry: (string, ExpectedType)): ValidationError {
    if entry.0 !in d then MissingKey(entry.0) else WrongType(entry.0)
  }

  /** Index of the first entry of `ks` that is not OK, or `|ks|` when all are. */
  function FirstFailure(d: map<string, Value>, ks: seq<(string, ExpectedType)>): (i: nat)
    ensures i <= |ks|
    ensures forall j | 0 <= j < i :: EntryOk(d, ks[j])
    ensures i < |ks| ==> !EntryOk(d, ks[i])
  {
    if ks == [] || !EntryOk(d, ks[0]) then 0 else 1 + FirstFailure(d, ks[1..])
  }

  /** `all(isinstance(v, (int, float)) for v in debts.values())`. */
  predicate DebtsNumeric(debts: map<string, Value>) {
    forall name | name in debts :: IsNumber(debts[name])
  }

  /**
   * What the validator accepts, written out key by key: a reference
   * definition independent of `RequiredKeys` and `FirstFailure`.
   */
  predicate WellFormedFinancialData(d: map<string, Value>) {
    && "income" in d && IsNumber(d["income"])
    && "expenses" in d && IsNumber(d["expenses"])
    && "debts" in d && d["debts"].Dict? && DebtsNumeric(d["debts"].entries)
    && "credit_limit" in d && IsNumber(d["credit_limit"])
    && "missed_payments" in d && IsInt(d["missed_payments"])
    && "late_payments" in d && IsInt(d["late_payments"])
  }

  /** Every required entry is OK exactly when each key is present with its type. */
  lemma RequiredEntriesOk(d: map<string, Value>)
    ensures (forall j | 0 <= j < |RequiredKeys| :: EntryOk(d, RequiredKeys[j])) <==>
      && "income" in d && IsNumber(d["income"])
      && "expenses" in d && IsNumber(d["expenses"])
      && "debts" in d && d["debts"].Dict?
      && "credit_limit" in d && IsNumber(d["credit_limit"])
      && "missed_payments" in d && IsInt(d["missed_payments"])
      && "late_payments" in d && IsInt(d["late_payments"])
  {
    if forall j | 0 <= j < |RequiredKeys| :: EntryOk(d, RequiredKeys[j]) {
      assert EntryOk(d, RequiredKeys[0]) && EntryOk(d, RequiredKeys[1]) && EntryOk(d, RequiredKeys[2]);
      assert EntryOk(d, RequiredKeys[3]) && EntryOk(d, RequiredKeys[4]) && EntryOk(d, RequiredKeys[5]);
    }
  }

  /** `validate_financial_data`: `Pass` where the source returns, `Fail` where it raises. */
  function Validate(v: Value): (r: Outcome<ValidationError>)
    ensures r == Fail(NotADict) <==> !v.Dict?
    ensures r == Pass <==> v.Dict? && WellFormedFinancialData(v.entries)
    ensures r == Fail(NonNumericDebt) <==>
      && v.Dict?
      && (forall j | 0 <= j < |RequiredKeys| :: EntryOk(v.entries, RequiredKeys[j]))
      && "debts" in v.entries && v.entries["debts"].Dict?
      && !DebtsNumeric(v.entries["debts"].entries)
  {
    if !v.Dict? then Fail(NotADict)
    else
      var d := v.entries;
      var i := FirstFailure(d, RequiredKeys);
      RequiredEntriesOk(d);
      if i < |RequiredKeys| then Fail(EntryError(d, RequiredKeys[i]))
      else if !DebtsNumeric(d["debts"].entries) then Fail(NonNumericDebt)
      else Pass
  }

  /**
   * A missing or mistyped key is reported for the first required entry, in
   * the order of `RequiredKeys`, that is not OK; every entry before it passed.
   */
  lemma ReportsFirstFailingKey(d: map<string, Value>, i: nat)
    requires i < |RequiredKeys|
    requires forall j | 0 <= j < i :: EntryOk(d, RequiredKeys[j])
    requires !EntryOk(d, RequiredKeys[i])
    ensures RequiredKeys[i].0 !in d ==> Validate(Dict(d)) == Fail(MissingKey(RequiredKeys[i].0))
    ensures RequiredKeys[i].0 in d ==> Validate(Dict(d)) == Fail(WrongType(RequiredKeys[i].0))
  {
    assert FirstFailure(d, RequiredKeys) == i;
  }

  /**
   * Conversely, a key-level error names a required key that is absent
   * (or present with the wrong type) and every required key before it passed.
   */
  lemma KeyErrorIsFirstFailure(d: map<string, Value>)
    requires Validate(Dict(d)).Fail?
    requires Validate(Dict(d)).error.MissingKey? || Validate(Dict(d)).error.WrongType?
    ensures var err := Validate(Dict(d)).error;
      exists i | 0 <= i < |RequiredKeys| ::
        && RequiredKeys[i].0 == err.key
        && (err.MissingKey? <==> err.key !in d)
        && (err.WrongType? ==> !HasType(d[err.key], RequiredKeys[i].1))
        && forall j | 0 <= j < i :: EntryOk(d, RequiredKeys[j])
  {
    var i := FirstFailure(d, RequiredKeys);
    assert RequiredKeys[i].0 == Validate(Dict(d)).error.key;
  }

  /** Two dictionaries that agree on every entry of `ks` fail first at the same place. */
  lemma {:induction false} FirstFailureAgree(d1: map<string, Value>, d2: map<string, Value>,
                                            ks: seq<(string, ExpectedType)>)
    requires forall j | 0 <= j < |ks| :: ks[j].0 in d1 <==> ks[j].0 in d2
    requires forall j | 0 <= j < |ks| && ks[j].0 in d1 :: d1[ks[j].0] == d2[ks[j].0]
    ensures FirstFailure(d1, ks) == FirstFailure(d2, ks)
  {
    if ks != [] {
      assert ks[0].0 in d1 <==> ks[0].0 in d2;
      FirstFailureAgree(d1, d2, ks[1..]);
    }
  }

  /** Adding, replacing or removing a key that is not required never changes the verdict. */
  lemma ExtraKeysIgnored(d: map<string, Value>, k: string, v: Value)
    requires forall j | 0 <= j < |RequiredKeys| :: RequiredKeys[j].0 != k
    ensures Validate(Dict(d[k := v])) == Validate(Dict(d))
    ensures Validate(Dict(d - {k})) == Validate(Dict(d))
  {
    assert k != RequiredKeys[2].0;
    FirstFailureAgree(d[k := v], d, RequiredKeys);
    FirstFailureAgree(d - {k}, d, RequiredKeys);
    var i := FirstFailure(d, RequiredKeys);
    if i < |RequiredKeys| {
      assert k != RequiredKeys[i].0;
    }
  }

  /** Booleans pass where `int` is expected, because `isinstance(True, int)` holds. */
  lemma BooleanPaymentCountsAccepted()
    ensures Validate(Dict(map[
      "income" := Int(5000), "expenses" := Float(2000.5), "debts" := Dict(map["loan" := Bool(true)]),
      "credit_limit" := Int(3000), "missed_payments" := Bool(true), "late_payments" := Bool(false)])) == Pass
  {
  }

  /** A float payment count is rejected even though any number would score. */
  lemma FloatPaymentCountRejected(d: map<string, Value>)
    requires WellFormedFinancialData(d)
    ensures Validate(Dict(d["late_payments" := Float(1.0)])) == Fail(WrongType("late_payments"))
  {
    ReportsFirstFailingKey(d["late_payments" := Float(1.0)], 5);
  }
}
