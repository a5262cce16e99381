# Credit-score scenario agent: a Dafny model of its deterministic core

This project models the four pieces of deterministic logic in a credit-score
"what-if" agent:

- the **scoring tool** (`credit_check_tool`). It turns a financial dictionary
  into a credit report. There are four sub-scores: debt-to-income,
  loan-to-income, credit utilisation and discretionary income. Each is at most
  250 points when no debt is negative (the discretionary score always).
  Payment penalties are 100 per missed and 50 per late payment. The total is
  clamped to [0, 1000] and then truncated to an integer;
- the **financial-data validator** (`validate_financial_data`). It checks the
  required keys and their types in a fixed order, then checks that the debt
  amounts are numeric;
- the **feedback planner** (`feedback_agent`). It compares the current state
  with the last past scenario on `credit_score`, `financial_data` and
  `personal_data`, and picks one of two feedback messages;
- the **toy credit-check agent** (`credit_check_agent`). It scores 0 when
  income is below expenses and 100 otherwise.

Python values are the datatype `PyValues.Value`. Its constructors are None,
bool, int, float (as an exact real), str, list, and dict with string keys.
The model keeps two Python rules:

- `bool` is a subclass of `int`. `isinstance(True, int)` holds, and `True`
  counts as 1 in arithmetic.
- `==` compares numbers by value across types. `PyValues.Equal` is that
  equality: `633 == 633.0` and `True == 1`, and dictionary equality ignores
  insertion order.

Where the source raises an exception, the model returns a `Failure` or `Fail`
value naming the kind of error. The validator accepts booleans for
`missed_payments` and `late_payments`, exactly as the code does (see
`JsonValidation.BooleanPaymentCountsAccepted`). It also rejects a float
payment count, even though the scoring tool would score one.

The modules are:

- `Wrappers`: `Result` and `Outcome`, used for error results.
- `PyValues`: Python values, truthiness and equality.
- `CreditScoring`: `tools/credit_check.py`. It is pure. The total debt sums a
  map in no fixed order, so it and the functions built on it are ghost
  functions.
- `JsonValidation`: `validation/json_validation.py`. It is pure. The `for`
  loop that exits early becomes `FirstFailure`, the index of the first
  required entry that fails.
- `FeedbackPlanner`: `agents/feedback_planner.py`. The `changes` dictionary is
  built by the method `CollectChanges`. Its loop invariant ties the dictionary
  to the reference function `ChangedKeys`. Choosing the baseline and the
  message are plain functions.
- `CreditCheckAgent`: `agents/credit_check.py`. It is pure.

## Model

| member | source | states |
|---|---|---|
| `PyValues.Truthy` | agents/feedback_planner.py:4 | a value is falsy exactly when it is None, False, 0, 0.0, the empty string, the empty list or the empty dict |
| `PyValues.Equal` | agents/feedback_planner.py:10 | two numbers (bool, int or float) are `==` exactly when their values are equal; a non-number is only ever `==` to a value of the same kind (None, str, list or dict) |
| `PyValues.EqualStrings` | agents/feedback_planner.py:10 | two strings are `==` exactly when they are the same string |
| `PyValues.DictsWithDifferentKeysDiffer` | agents/feedback_planner.py:10 | dictionaries with different key sets are not `==` |
| `PyValues.DictsDifferingAtAKeyDiffer` | agents/feedback_planner.py:10 | dictionaries whose values at a shared key are not `==` are not `==` |
| `PyValues.ListsOfDifferentLengthsDiffer` | agents/feedback_planner.py:10 | lists of different lengths are not `==` |
| `PyValues.ListsDifferingAtAnIndexDiffer` | agents/feedback_planner.py:10 | lists whose elements at some index are not `==` are not `==` |
| `PyValues.ListsPairwiseEqual` | agents/feedback_planner.py:10 | lists of the same length whose elements are pairwise `==` are `==` |
| `PyValues.DictsPairwiseEqual` | agents/feedback_planner.py:10 | dictionaries with the same keys whose values are pairwise `==` are `==`, whatever the insertion order |
| `PyValues.EqualSymmetric` | agents/feedback_planner.py:10 | `a == b` exactly when `b == a`, including for nested lists and dictionaries |
| `PyValues.EqualReflexive` | agents/feedback_planner.py:10 | Python `==` is reflexive on every modelled value, including nested lists and dictionaries |
| `JsonValidation.FirstFailure` | validation/json_validation.py:16-23 | the index it returns is the first required entry that is missing or mistyped: every entry before it passes, and the entry at it fails |
| `JsonValidation.RequiredEntriesOk` | validation/json_validation.py:4-11 | all six required entries pass exactly when income, expenses and credit_limit are numbers, debts is a dict, and both payment counts are ints |
| `JsonValidation.Validate` | validation/json_validation.py:3-26 | the error is NotADict exactly when the input is not a dict; it passes exactly when the key-by-key reference `WellFormedFinancialData` holds; the error is NonNumericDebt exactly when every required key passed, debts is a dict, and one of its amounts is not a number |
| `JsonValidation.ReportsFirstFailingKey` | validation/json_validation.py:16-23 | when entry i is the first that fails, the error is MissingKey for that key if it is absent, and WrongType if it is present |
| `JsonValidation.KeyErrorIsFirstFailure` | validation/json_validation.py:16-23 | a MissingKey or WrongType error names a required key that is absent or mistyped, and every required key before it passed |
| `JsonValidation.ExtraKeysIgnored` | validation/json_validation.py:16-26 | adding, replacing or removing a key that is not required never changes the verdict |
| `JsonValidation.BooleanPaymentCountsAccepted` | validation/json_validation.py:9-10 | booleans pass as payment counts and as debt values, because bool is an int in Python |
| `JsonValidation.FloatPaymentCountRejected` | validation/json_validation.py:19-23 | a float late-payment count gets WrongType, even in otherwise well-formed data |
| `CreditScoring.Max` | tools/credit_check.py:22 | Python `max` of two numbers: at least both arguments, and one of them |
| `CreditScoring.Min` | tools/credit_check.py:48 | Python `min` of two numbers: at most both arguments, and one of them |
| `CreditScoring.SumValues` | tools/credit_check.py:25 | the sum over no debts is 0, and the sum of non-negative debt amounts is non-negative |
| `CreditScoring.SumValuesRemove` | tools/credit_check.py:25 | the total debt does not depend on the order the amounts are added: any one debt can be taken out first |
| `CreditScoring.NetIncome` | tools/credit_check.py:22 | net income is never negative, is at least income minus expenses, and is either 0 or exactly income minus expenses |
| `CreditScoring.SubScore` | tools/credit_check.py:27-35 | a normalised sub-score is at least 0; at most 250 for a non-negative ratio; 0 from ratio 1 on; 250·(1−ratio) up to ratio 1 |
| `CreditScoring.DtiRatio` | tools/credit_check.py:26 | the ratio times net income is the total debt when net income is positive, and the ratio is 1 when net income is 0 |
| `CreditScoring.LtiRatio` | tools/credit_check.py:30 | the ratio times income is the total debt when income is positive, and the ratio is 1 otherwise |
| `CreditScoring.UtilizationRatio` | tools/credit_check.py:34 | the ratio times the credit limit is the total debt when the limit is positive, and the ratio is 1 otherwise |
| `CreditScoring.DtiScore` | tools/credit_check.py:26-27 | never negative; 0 when net income is 0 or the debt is at least the net income; otherwise the score times net income is 250·(net income − debt) |
| `CreditScoring.LtiScore` | tools/credit_check.py:30-31 | never negative; 0 when income is not positive or the debt is at least the income; otherwise the score times income is 250·(income − debt) |
| `CreditScoring.UtilizationScore` | tools/credit_check.py:34-35 | never negative; 0 when the limit is not positive or the debt is at least the limit; otherwise the score times the limit is 250·(limit − debt) |
| `CreditScoring.DiscretionaryScore` | tools/credit_check.py:42 | in [0, 250]; 0 without positive income; exactly 250·net/income when expenses are non-negative (the cap never applies); 250 when income is positive and expenses are not positive |
| `CreditScoring.Penalty` | tools/credit_check.py:38-39 | no penalty without missed or late payments; never negative for non-negative counts |
| `CreditScoring.RawScore` | tools/credit_check.py:45 | the score before the penalty is never negative, and is at most 1000 when no debt is negative |
| `CreditScoring.FinalScore` | tools/credit_check.py:45-48 | the score lies in [0, 1000]; it equals the raw score inside that range and the nearer bound outside it |
| `CreditScoring.Report` | tools/credit_check.py:50-58 | the reported integer score is in [0, 1000] and is the floor of the clamped score; the utilisation is reported as a percentage |
| `CreditScoring.NumberAt` | tools/credit_check.py:11-16 | a missing key reads as 0; the value is usable exactly when it is numeric, and then it is the number's value; otherwise the error names the key |
| `CreditScoring.DebtsAt` | tools/credit_check.py:13 | missing debts read as an empty dictionary; the debts are usable exactly when they are a dict whose amounts are all numbers; a non-dict is DebtsNotADict and a non-numeric amount NonNumericDebt; the amounts summed have the same debt names as the input, each with its number's value |
| `CreditScoring.ParseFinancials` | tools/credit_check.py:11-16 | succeeds exactly when the key-by-key reference `Scorable` holds; a non-numeric income is reported first; each field is the value read with its default, and the debts keep their names and values |
| `CreditScoring.CreditCheckTool` | tools/credit_check.py:5-61 | succeeds exactly when the key-by-key reference `Scorable` holds; the reported score is in [0, 1000]; the payment counts are echoed unchanged (0 when missing) |
| `CreditScoring.ZeroNetIncomeFallback` | tools/credit_check.py:26-27 | with net income 0, the debt-to-income ratio is 1 and its score is 0 |
| `CreditScoring.NonPositiveIncomeFallback` | tools/credit_check.py:30-42 | with income at most 0, the loan-to-income ratio is 1, its score is 0 and the discretionary score is 0 |
| `CreditScoring.NoCreditLimitFallback` | tools/credit_check.py:34-54 | with a credit limit at most 0, utilisation is 1, its score is 0 and the reported credit_utilization is 100 |
| `CreditScoring.SubScoresWithinBudget` | tools/credit_check.py:24-42 | when no debt is negative, each of the four sub-scores lies in [0, 250], so the raw score is at most 1000 minus the penalty |
| `CreditScoring.NegativeDebtExceedsBudget` | tools/credit_check.py:25-27 | the non-negative-debt condition is needed: a negative debt gives a 500-point debt-to-income score |
| `CreditScoring.PaymentPenaltiesNeverRaiseScore` | tools/credit_check.py:38-51 | more missed or late payments, all else equal, never raise the clamped score or the reported integer score |
| `CreditScoring.RaisingPaymentCountNeverRaisesScore` | tools/credit_check.py:38-57 | on the input dictionary: replacing a payment count with a larger number still scores, and never scores higher |
| `CreditScoring.WorkedExample` | tools/credit_check.py:5-61 | income 5000, expenses 2000, one loan of 1000, limit 3000, one late payment: score 633, ratios 1/3 and 0.2, utilisation 100/3 percent, discretionary 150 |
| `CreditScoring.EmptyInputScoresZero` | tools/credit_check.py:11-16 | an empty dictionary gets every default and fallback: score 0, ratios 1, utilisation 100, discretionary 0, payment counts 0 |
| `CreditScoring.MissingNumberDefaults` | tools/credit_check.py:11-16 | a missing income, expenses, credit_limit or payment count gives the same result as the value 0 |
| `CreditScoring.MissingDebtsDefault` | tools/credit_check.py:13 | missing debts give the same result as an empty debts dictionary |
| `CreditScoring.ValidatedDataIsScorable` | validation/json_validation.py:16-26 | every dictionary the validator accepts is scored by the tool without raising |
| `FeedbackPlanner.LastScenario` | agents/feedback_planner.py:4 | a missing past_scenarios is a KeyError; a falsy history gives the empty baseline; otherwise the baseline is the dictionary at the end of the list |
| `FeedbackPlanner.ChangedKeys` | agents/feedback_planner.py:8-10 | the changed keys of `ks`, in order, never more than the keys compared; each key is reported exactly when it differs (see `ChangedKeysMembers`) and the order is kept (see `ChangedKeysInOrder`) |
| `FeedbackPlanner.ChangedKeysMembers` | agents/feedback_planner.py:8-11 | a key is reported exactly when it is one of the keys compared, is present in both state and baseline, and the two values are not `==` |
| `FeedbackPlanner.ChangedKeysInOrder` | agents/feedback_planner.py:8 | the reported keys are a subsequence of the keys compared, so they keep the fixed order |
| `FeedbackPlanner.ChangedKeysOnlyReadTracked` | agents/feedback_planner.py:8-10 | states and baselines that agree on the compared keys give the same changed keys |
| `FeedbackPlanner.NoChangeAgainstItself` | agents/feedback_planner.py:9-10 | a state compared with itself shows no change |
| `FeedbackPlanner.CollectChanges` | agents/feedback_planner.py:7-11 | the keys of `changes`, in insertion order, are exactly the changed tracked keys; each entry holds the baseline's value as before and the state's value as after |
| `FeedbackPlanner.Join` | agents/feedback_planner.py:15 | joining no parts gives the empty string, and joining one part gives that part without any separator |
| `FeedbackPlanner.JoinAppend` | agents/feedback_planner.py:15 | joining one more key appends the separator and that key |
| `FeedbackPlanner.FeedbackText` | agents/feedback_planner.py:14-17 | the "No major changes" message is chosen exactly when no key changed; otherwise the text is "I noticed you adjusted ", then the changed keys joined by ", ", then the "what happens next" sentence |
| `FeedbackPlanner.FeedbackAgent` | agents/feedback_planner.py:2-21 | the result holds only `feedback`, whose text is given by the changed tracked keys against the last scenario; history errors propagate; the state is a value and is unchanged |
| `FeedbackPlanner.EmptyHistoryMeansNoChange` | agents/feedback_planner.py:4-17 | with empty (or falsy) past_scenarios, the baseline is `{}` and the "No major changes" message is returned |
| `FeedbackPlanner.OnlyLastScenarioCompared` | agents/feedback_planner.py:4 | whatever the earlier scenarios are, the baseline is the last one |
| `FeedbackPlanner.UntrackedKeysIgnored` | agents/feedback_planner.py:8-11 | changing, adding or removing an untracked key in the state or the baseline never changes the changed keys |
| `FeedbackPlanner.ChangedKeysOfThree` | agents/feedback_planner.py:8-11 | over three keys, the changed keys are each key that differs, in order |
| `FeedbackPlanner.OneTrackedKeyChanged` | agents/feedback_planner.py:14-15 | when exactly one tracked key changed, the message names that key alone |
| `FeedbackPlanner.TwoTrackedKeysChanged` | agents/feedback_planner.py:14-15 | when exactly two tracked keys changed, the message names both in the fixed order, separated by ", " |
| `FeedbackPlanner.TwoKeyMessage` | agents/feedback_planner.py:15 | the message for two changed keys is the prefix, both keys separated by ", ", and the suffix |
| `FeedbackPlanner.AllTrackedKeysChanged` | agents/feedback_planner.py:14-15 | when all three keys changed, the message lists credit_score, financial_data and personal_data in that order, separated by ", " |
| `FeedbackPlanner.ChangedFinancialDataDetected` | agents/feedback_planner.py:8-11 | when financial_data is a dict in both state and baseline and the two differ in their key set or at a shared key, financial_data is among the changed keys |
| `FeedbackPlanner.SameDictUpToNumberTypeIsNoChange` | agents/feedback_planner.py:9-10 | financial_data `{"income": 5000}` against `{"income": 5000.0}` is not a change, because dict `==` compares the values with numeric `==` |
| `FeedbackPlanner.SameNumberIsNoChange` | agents/feedback_planner.py:10 | a credit score of 633 against 633.0 is not a change, because Python's `==` compares numbers by value |
| `CreditCheckAgent.StrLess` | agents/credit_check.py:9 | Python's string `<`: a proper prefix is less, a string is never less than its own prefix, and otherwise the first differing character decides |
| `CreditCheckAgent.StrLessIrreflexive` | agents/credit_check.py:9 | no string is less than itself under Python's ordering |
| `CreditCheckAgent.PyLess` | agents/credit_check.py:9 | numbers compare by value and strings by `StrLess`; the comparison succeeds exactly for two numbers or two strings |
| `CreditCheckAgent.CreditCheckAgent` | agents/credit_check.py:2-14 | a non-dict financial_data is an error; otherwise it fails exactly when the comparison fails; the result holds only credit_score, whose value is 0 or 100, and 0 exactly when income < expenses |
| `CreditCheckAgent.NumericScoreRule` | agents/credit_check.py:9-12 | on numbers, the score is 0 when income < expenses and 100 when income ≥ expenses, equality included |
| `CreditCheckAgent.MissingFieldsScoreHigh` | agents/credit_check.py:4-7 | missing financial_data, or missing income and expenses inside it, default to 0 and give 100 |
| `CreditCheckAgent.EqualFieldsScoreHigh` | agents/credit_check.py:9-12 | equal income and expenses (numbers or strings) give 100 |

## Left out

- `CreditScoring.Report`: `round(x, 2)` on the ratios, the utilisation and the discretionary score is not modelled. The report holds the exact unrounded values, because Python's float rounding is not exact over reals.
- Floats are exact reals. Infinities, NaN and float rounding in the arithmetic are not modelled.
- `ast.literal_eval` of the tool's string argument is not modelled. The tool takes the already-parsed dictionary.
- The input values are narrower than what `ast.literal_eval` produces: dictionaries have string keys only, and there are no tuples, sets, bytes or complex numbers. So a debts dictionary with non-string keys, such as `{1: 100}`, which Python would score, is outside the model.
- `CreditScoring.CreditCheckTool`: when several fields are non-numeric, the error names the first in the order income, expenses, debts, credit_limit, missed_payments, late_payments. This is a modelling label: Python's exception names no key, and for a string payment count it is raised later, at the final sum. A non-dict debts value is one error kind, whatever Python exception it raises.
- `FeedbackPlanner.LastScenario`: a truthy past_scenarios that is not a list ending in a dictionary is reported as `PastScenariosUnsupported`. In that case Python raises for some shapes and falls back to substring or list-membership tests for others (a non-empty string, a last entry that is a list or string).
- `CreditCheckAgent.PyLess`: Python's ordering of two lists (lexicographic, element by element) is reported as `NotComparable` rather than modelled.
- The validator's error message text and the `doc`/`pos` fields of `JSONDecodeError` are not modelled. Only the error kind is kept.
- All `print` calls are logging side effects and are left out.
- `agents/financial_strategy.py` is not part of this model: it is a call to an external language model, with prompt formatting around it.
- `lambda_function.py` is not part of this model: it returns a constant HTTP response.
- The wider program keeps a per-session state for the agents: stored sessions, a message log, a history of past scenarios, and the loop that sequences the agents and the scoring tool. These live outside the four files modelled here and are not part of this model. Their only trace here is the `state` dictionary that `feedback_agent` and `credit_check_agent` receive, with its `past_scenarios` list.
