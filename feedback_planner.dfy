/**
 * `feedback_agent`: compares the current state with the last past scenario on
 * three tracked keys, collects the keys whose values changed, and picks one of
 * two feedback messages.
 */
module FeedbackPlanner {
  import opened Wrappers
  import opened PyValues

  /** The keys compared, in the order they are visited. */
  const TrackedKeys: seq<string> := ["credit_score", "financial_data", "personal_data"]

  // Written as two literals: the verifier does not look inside one literal this long.
  const NoChangeFeedback: string := "No major changes detected." + " You can tweak more settings for better results."
  const ChangePrefix: string := "I noticed you adjusted "
  const ChangeSuffix: string := ". Here\U{2019}s what happens next..."
  const KeySeparator: string := ", "

  /** One entry `changes[key] = {"before": ..., "after": ...}`. */
  datatype Change = Change(key: string, before: Value, after: Value)

  /** Where the source raises, or reaches a shape of history this model does not interpret. */
  datatype FeedbackError =
    | PastScenariosMissing     // state["past_scenarios"] raises KeyError
    | PastScenariosUnsupported // a truthy history that is not a list ending in a dictionary

  /** `state["past_scenarios"][-1] if state["past_scenarios"] else {}`. */
  function LastScenario(state: map<string, Value>): (r: Result<map<string, Value>, FeedbackError>)
    ensures r == Failure(PastScenariosMissing) <==> "past_scenarios" !in state
    ensures "past_scenarios" in state && !Truthy(state["past_scenarios"]) ==> r == Success(map[])
    ensures r.Success? && Truthy(state["past_scenarios"]) ==>
      var past := state["past_scenarios"];
      past.List? && |past.items| > 0 && past.items[|past.items| - 1] == Dict(r.value)
  {
    if "past_scenarios" !in state then Failure(PastScenariosMissing)
    else
      var past := state["past_scenarios"];
      if !Truthy(past) then Success(map[])
      else if past.List? && past.items[|past.items| - 1].Dict? then Success(past.items[|past.items| - 1].entries)
      else Failure(PastScenariosUnsupported)
  }

  /** The key is present in both dictionaries with values that are not `==`. */
  predicate Differs(state: map<string, Value>, last: map<string, Value>, key: string) {
    key in state && key in last && !Equal(state[key], last[key])
  }

  /** The keys of `ks`, in their order, whose values differ. */
  function ChangedKeys(ks: seq<string>, state: map<string, Value>, last: map<string, Value>): (r: seq<string>)
    ensures |r| <= |ks|
  {
    if ks == [] then []
    else (if Differs(state, last, ks[0]) then [ks[0]] else []) + ChangedKeys(ks[1..], state, last)
  }

  /** A key is reported exactly when it is compared and its values differ. */
  lemma {:induction false} ChangedKeysMembers(ks: seq<string>, state: map<string, Value>, last: map<string, Value>)
    ensures forall k :: k in ChangedKeys(ks, state, last) <==> k in ks && Differs(state, last, k)
  {
    if ks != [] {
      ChangedKeysMembers(ks[1..], state, last);
      assert forall k :: k in ks <==> k == ks[0] || k in ks[1..];
    }
  }

  lemma {:induction false} ChangedKeysSnoc(ks: seq<string>, k: string,
                                          state: map<string, Value>, last: map<string, Value>)
    ensures ChangedKeys(ks + [k], state, last) ==
      ChangedKeys(ks, state, last) + (if Differs(state, last, k) then [k] else [])
  {
    if ks == [] {
      assert ChangedKeys([k], state, last) ==
        (if Differs(state, last, k) then [k] else []) + ChangedKeys([], state, last);
    } else {
      var head := if Differs(state, last, ks[0]) then [ks[0]] else [];
      var tail := if Differs(state, last, k) then [k] else [];
      assert (ks + [k])[0] == ks[0];
      assert (ks + [k])[1..] == ks[1..] + [k];
      ChangedKeysSnoc(ks[1..], k, state, last);
      assert ChangedKeys(ks + [k], state, last) == head + (ChangedKeys(ks[1..], state, last) + tail);
      assert head + (ChangedKeys(ks[1..], state, last) + tail) == (head + ChangedKeys(ks[1..], state, last)) + tail;
    }
  }

  /** `xs` is `ys` with some elements dropped and the rest kept in order. */
  predicate IsSubsequence(xs: seq<string>, ys: seq<string>) {
    if xs == [] then true
    else if ys == [] then false
    else (xs[0] == ys[0] && IsSubsequence(xs[1..], ys[1..])) || IsSubsequence(xs, ys[1..])
  }

  /** The changed keys keep the order of the tracked keys. */
  lemma {:induction false} ChangedKeysInOrder(ks: seq<string>, state: map<string, Value>, last: map<string, Value>)
    ensures IsSubsequence(ChangedKeys(ks, state, last), ks)
  {
    if ks != [] {
      ChangedKeysInOrder(ks[1..], state, last);
      var rest := ChangedKeys(ks[1..], state, last);
      if Differs(state, last, ks[0]) {
        assert ChangedKeys(ks, state, last) == [ks[0]] + rest;
        assert ([ks[0]] + rest)[1..] == rest;
      } else {
        assert ChangedKeys(ks, state, last) == rest;
        SubsequenceOfTail(rest, ks);
      }
    }
  }

  lemma {:induction false} SubsequenceOfTail(xs: seq<string>, ys: seq<string>)
    requires ys != [] && IsSubsequence(xs, ys[1..])
    ensures IsSubsequence(xs, ys)
  {
  }

  /** Dictionaries that agree on every key of `ks` (presence and value) give the same changed keys. */
  lemma {:induction false} ChangedKeysOnlyReadTracked(ks: seq<string>, s1: map<string, Value>, l1: map<string, Value>,
                                                     s2: map<string, Value>, l2: map<string, Value>)
    requires forall k | k in ks :: (k in s1 <==> k in s2) && (k in s1 ==> s1[k] == s2[k])
    requires forall k | k in ks :: (k in l1 <==> k in l2) && (k in l1 ==> l1[k] == l2[k])
    ensures ChangedKeys(ks, s1, l1) == ChangedKeys(ks, s2, l2)
  {
    if ks != [] {
      assert ks[0] in ks;
      ChangedKeysOnlyReadTracked(ks[1..], s1, l1, s2, l2);
    }
  }

  /** Comparing a state with itself finds no change. */
  lemma NoChangeAgainstItself(ks: seq<string>, state: map<string, Value>)
    ensures ChangedKeys(ks, state, state) == []
  {
    forall k | k in state ensures Equal(state[k], state[k]) {
      EqualReflexive(state[k]);
    }
    NothingDiffersNoChange(ks, state, state);
  }

  lemma {:induction false} NothingDiffersNoChange(ks: seq<string>, state: map<string, Value>, last: map<string, Value>)
    requires forall k | k in ks :: !Differs(state, last, k)
    ensures ChangedKeys(ks, state, last) == []
  {
    if ks != [] {
      assert ks[0] in ks;
      NothingDiffersNoChange(ks[1..], state, last);
    }
  }

  /** The keys of the `changes` dictionary, in insertion order. */
  function KeysOf(changes: seq<Change>): (r: seq<string>)
    ensures |r| == |changes| && forall i | 0 <= i < |changes| :: r[i] == changes[i].key
  {
    seq(|changes|, i requires 0 <= i < |changes| => changes[i].key)
  }

  /** The loop of lines 7-11: builds `changes` over the compared keys, which the caller gives as `TrackedKeys`. */
  method CollectChanges(keys: seq<string>, state: map<string, Value>, last: map<string, Value>)
    returns (changes: seq<Change>)
    ensures KeysOf(changes) == ChangedKeys(keys, state, last)
    ensures forall c | c in changes ::
      c.key in state && c.key in last && c.before == last[c.key] && c.after == state[c.key]
  {
    changes := [];
    for n := 0 to |keys|
      invariant KeysOf(changes) == ChangedKeys(keys[..n], state, last)
      invariant forall c | c in changes ::
        c.key in state && c.key in last && c.before == last[c.key] && c.after == state[c.key]
    {
      var key := keys[n];
      if key in state && key in last {
        if !Equal(state[key], last[key]) {
          changes := changes + [Change(key, last[key], state[key])];
        }
      }
      assert keys[..n + 1] == keys[..n] + [key];
      ChangedKeysSnoc(keys[..n], key, state, last);
    }
    assert keys[..|keys|] == keys;
  }

  /** `sep.join(parts)`. */
  function Join(parts: seq<string>, sep: string): (r: string)
    ensures parts == [] ==> r == ""
    ensures |parts| == 1 ==> r == parts[0]
  {
    if |parts| == 0 then ""
    else if |parts| == 1 then parts[0]
    else parts[0] + sep + Join(parts[1..], sep)
  }

  lemma {:induction false} JoinAppend(parts: seq<string>, p: string, sep: string)
    requires parts != []
    ensures Join(parts + [p], sep) == Join(parts, sep) + sep + p
  {
    if |parts| > 1 {
      assert (parts + [p])[1..] == parts[1..] + [p];
      JoinAppend(parts[1..], p, sep);
    }
  }

  /** Lines 14-17: the message names the changed keys, or says there were none. */
  function FeedbackText(changed: seq<string>): (r: string)
    ensures r == NoChangeFeedback <==> changed == []
    ensures changed != [] ==>
      && |r| >= |ChangePrefix| + |ChangeSuffix|
      && r[..|ChangePrefix|] == ChangePrefix
      && r[|r| - |ChangeSuffix|..] == ChangeSuffix
      && r[|ChangePrefix|..|r| - |ChangeSuffix|] == Join(changed, KeySeparator)
  {
    if changed == [] then NoChangeFeedback
    else
      var r := ChangePrefix + Join(changed, KeySeparator) + ChangeSuffix;
      assert r[0] == 'I' && NoChangeFeedback[0] == 'N';
      r
  }

  /**
   * `feedback_agent`: the result holds only `feedback`, whose text is
   * determined by the tracked keys that differ from the last scenario.
   */
  method FeedbackAgent(state: map<string, Value>) returns (r: Result<map<string, Value>, FeedbackError>)
    ensures LastScenario(state).Failure? ==> r == Failure(LastScenario(state).error)
    ensures LastScenario(state).Success? ==>
      && r.Success? && r.value.Keys == {"feedback"}
      && r.value["feedback"] == Str(FeedbackText(ChangedKeys(TrackedKeys, state, LastScenario(state).value)))
  {
    var last :- LastScenario(state);
    var changes := CollectChanges(TrackedKeys, state, last);
    var feedback := FeedbackText(KeysOf(changes));
    r := Success(map["feedback" := Str(feedback)]);
  }

  /** With no history (an empty or falsy list) the baseline is `{}`, so nothing changed. */
  lemma EmptyHistoryMeansNoChange(state: map<string, Value>)
    requires "past_scenarios" in state && !Truthy(state["past_scenarios"])
    ensures LastScenario(state) == Success(map[])
    ensures FeedbackText(ChangedKeys(TrackedKeys, state, map[])) == NoChangeFeedback
  {
    NothingDiffersNoChange(TrackedKeys, state, map[]);
  }

  /** Only the last scenario is the baseline; earlier ones are never read. */
  lemma OnlyLastScenarioCompared(state: map<string, Value>, earlier: seq<Value>, last: map<string, Value>)
    ensures LastScenario(state["past_scenarios" := List(earlier + [Dict(last)])]) == Success(last)
  {
  }

  /** Keys outside the tracked three never affect the feedback. */
  lemma UntrackedKeysIgnored(state: map<string, Value>, last: map<string, Value>, k: string, v: Value, w: Value)
    requires k !in TrackedKeys
    ensures ChangedKeys(TrackedKeys, state[k := v], last[k := w]) == ChangedKeys(TrackedKeys, state, last)
    ensures ChangedKeys(TrackedKeys, state - {k}, last - {k}) == ChangedKeys(TrackedKeys, state, last)
  {
    ChangedKeysOnlyReadTracked(TrackedKeys, state[k := v], last[k := w], state, last);
    ChangedKeysOnlyReadTracked(TrackedKeys, state - {k}, last - {k}, state, last);
  }

  /** Over three keys, the changed keys spelled out key by key. */
  lemma ChangedKeysOfThree(k0: string, k1: string, k2: string, state: map<string, Value>, last: map<string, Value>)
    ensures ChangedKeys([k0, k1, k2], state, last) ==
      (if Differs(state, last, k0) then [k0] else []) +
      (if Differs(state, last, k1) then [k1] else []) +
      (if Differs(state, last, k2) then [k2] else [])
  {
    var a0 := if Differs(state, last, k0) then [k0] else [];
    var a1 := if Differs(state, last, k1) then [k1] else [];
    var a2 := if Differs(state, last, k2) then [k2] else [];
    assert [k2][1..] == [];
    assert ChangedKeys([k2], state, last) == a2 + ChangedKeys([], state, last);
    assert [k1, k2][1..] == [k2];
    assert ChangedKeys([k1, k2], state, last) == a1 + a2;
    assert [k0, k1, k2][1..] == [k1, k2];
    assert ChangedKeys([k0, k1, k2], state, last) == a0 + (a1 + a2);
    assert a0 + (a1 + a2) == a0 + a1 + a2;
  }

  /** All three tracked keys changed: they are listed in the fixed order, separated by ", ". */
  lemma AllTrackedKeysChanged(state: map<string, Value>, last: map<string, Value>)
    requires forall j | 0 <= j < |TrackedKeys| :: Differs(state, last, TrackedKeys[j])
    ensures FeedbackText(ChangedKeys(TrackedKeys, state, last)) ==
      ChangePrefix + "credit_score" + KeySeparator + "financial_data" + KeySeparator + "personal_data" + ChangeSuffix
  {
    var k0, k1, k2 := TrackedKeys[0], TrackedKeys[1], TrackedKeys[2];
    assert TrackedKeys == [k0, k1, k2];
    ChangedKeysOfThree(k0, k1, k2, state, last);
    assert Differs(state, last, k0) && Differs(state, last, k1) && Differs(state, last, k2);
    assert ChangedKeys(TrackedKeys, state, last) == [k0, k1, k2];
    assert [k1, k2][1..] == [k2];
    assert Join([k1, k2], KeySeparator) == k1 + KeySeparator + k2;
    assert [k0, k1, k2][1..] == [k1, k2];
    assert Join([k0, k1, k2], KeySeparator) == k0 + KeySeparator + (k1 + KeySeparator + k2);
  }

  /** Exactly one tracked key changed: the message names that key alone. */
  lemma OneTrackedKeyChanged(state: map<string, Value>, last: map<string, Value>, c: nat)
    requires c < |TrackedKeys| && Differs(state, last, TrackedKeys[c])
    requires forall j | 0 <= j < |TrackedKeys| && j != c :: !Differs(state, last, TrackedKeys[j])
    ensures FeedbackText(ChangedKeys(TrackedKeys, state, last)) == ChangePrefix + TrackedKeys[c] + ChangeSuffix
  {
    var k0, k1, k2 := TrackedKeys[0], TrackedKeys[1], TrackedKeys[2];
    assert TrackedKeys == [k0, k1, k2];
    ChangedKeysOfThree(k0, k1, k2, state, last);
    assert Differs(state, last, k0) == (c == 0);
    assert Differs(state, last, k1) == (c == 1);
    assert Differs(state, last, k2) == (c == 2);
    assert ChangedKeys(TrackedKeys, state, last) == [TrackedKeys[c]];
  }

  /** Exactly two tracked keys changed: the message names both, in the fixed order, separated by ", ". */
  lemma TwoTrackedKeysChanged(state: map<string, Value>, last: map<string, Value>, u: nat)
    requires u < |TrackedKeys| && !Differs(state, last, TrackedKeys[u])
    requires forall j | 0 <= j < |TrackedKeys| && j != u :: Differs(state, last, TrackedKeys[j])
    ensures var rest := TrackedKeys[..u] + TrackedKeys[u + 1..];
      FeedbackText(ChangedKeys(TrackedKeys, state, last)) ==
        ChangePrefix + rest[0] + KeySeparator + rest[1] + ChangeSuffix
  {
    var k0, k1, k2 := TrackedKeys[0], TrackedKeys[1], TrackedKeys[2];
    assert TrackedKeys == [k0, k1, k2];
    ChangedKeysOfThree(k0, k1, k2, state, last);
    var rest := TrackedKeys[..u] + TrackedKeys[u + 1..];
    if u == 0 {
      assert !Differs(state, last, k0) && Differs(state, last, k1) && Differs(state, last, k2);
      assert rest == [k1, k2];
    } else if u == 1 {
      assert Differs(state, last, k0) && !Differs(state, last, k1) && Differs(state, last, k2);
      assert rest == [k0, k2];
    } else {
      assert Differs(state, last, k0) && Differs(state, last, k1) && !Differs(state, last, k2);
      assert rest == [k0, k1];
    }
    assert ChangedKeys(TrackedKeys, state, last) == [rest[0], rest[1]];
    TwoKeyMessage(rest[0], rest[1]);
  }

  /** The message for two changed keys names both, separated by ", ". */
  lemma TwoKeyMessage(p: string, q: string)
    ensures FeedbackText([p, q]) == ChangePrefix + p + KeySeparator + q + ChangeSuffix
  {
    assert [p, q][1..] == [q];
    assert Join([p, q], KeySeparator) == p + KeySeparator + q;
  }

  /** A financial_data dictionary that changed at a shared key, or in its key set, is reported as changed. */
  lemma ChangedFinancialDataDetected(state: map<string, Value>, last: map<string, Value>, k: string)
    requires "financial_data" in state && "financial_data" in last
    requires state["financial_data"].Dict? && last["financial_data"].Dict?
    requires var m, n := state["financial_data"].entries, last["financial_data"].entries;
      m.Keys != n.Keys || (k in m && k in n && !Equal(m[k], n[k]))
    ensures "financial_data" in ChangedKeys(TrackedKeys, state, last)
  {
    var m, n := state["financial_data"].entries, last["financial_data"].entries;
    if m.Keys != n.Keys {
      DictsWithDifferentKeysDiffer(m, n);
    } else {
      DictsDifferingAtAKeyDiffer(m, n, k);
    }
    assert state["financial_data"] == Dict(m) && last["financial_data"] == Dict(n);
    assert TrackedKeys[1] == "financial_data";
    ChangedKeysMembers(TrackedKeys, state, last);
  }

  /** A financial_data dictionary whose income changed only from int to float is no change. */
  lemma SameDictUpToNumberTypeIsNoChange(state: map<string, Value>, last: map<string, Value>)
    requires "financial_data" in state && "financial_data" in last
    requires state["financial_data"] == Dict(map["income" := Int(5000)])
    requires last["financial_data"] == Dict(map["income" := Float(5000.0)])
    ensures "financial_data" !in ChangedKeys(TrackedKeys, state, last)
  {
    var m, n := map["income" := Int(5000)], map["income" := Float(5000.0)];
    assert Equal(m["income"], n["income"]);
    DictsPairwiseEqual(m, n);
    ChangedKeysMembers(TrackedKeys, state, last);
  }

  /** Numbers equal in value are no change, whatever their Python type. */
  lemma SameNumberIsNoChange(state: map<string, Value>, last: map<string, Value>)
    requires "credit_score" in state && "credit_score" in last
    requires state["credit_score"] == Int(633) && last["credit_score"] == Float(633.0)
    ensures "credit_score" !in ChangedKeys(TrackedKeys, state, last)
  {
    ChangedKeysMembers(TrackedKeys, state, last);
  }
}
