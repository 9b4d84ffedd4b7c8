/**
 * Vega production rules: an ordered list of value references, each guarded
 * by an optional test expression. Vega uses the value of the first rule whose
 * test holds for the datum; a rule without a test always holds.
 *
 * Test expressions are kept as text. Whether a test holds for a datum is
 * decided by Vega's expression evaluator, which is not part of this model:
 * the lemmas take the set of test texts that hold as a parameter.
 */
module ProductionRules {
  import opened Results

  datatype Rule<+V> = Rule(test: Option<string>, value: V)

  /** A rule without a test: the fallback of a list. */
  function Fallback<V>(v: V): (r: Rule<V>)
    ensures r.test.None? && r.value == v
  {
    Rule(None, v)
  }

  /** Every rule but the last is guarded by a test, and the last is a fallback. */
  predicate EndsInFallback<V>(rules: seq<Rule<V>>) {
    && |rules| >= 1
    && rules[|rules| - 1].test.None?
    && forall k :: 0 <= k < |rules| - 1 ==> rules[k].test.Some?
  }

  predicate Applies<V>(r: Rule<V>, holds: set<string>) {
    r.test.None? || r.test.value in holds
  }

  /** Vega's reading of a rule list: the value of the first rule that applies, if any does. */
  function Pick<V>(rules: seq<Rule<V>>, holds: set<string>): (v: Option<V>)
    ensures v.Some? <==> exists k :: 0 <= k < |rules| && Applies(rules[k], holds)
    ensures v.Some? ==>
              exists k :: && 0 <= k < |rules| && Applies(rules[k], holds) && v.value == rules[k].value
                          && forall j :: 0 <= j < k ==> !Applies(rules[j], holds)
  {
    if rules == [] then None
    else if Applies(rules[0], holds) then Some(rules[0].value)
    else
      var v := Pick(rules[1..], holds);
      assert forall k :: 1 <= k < |rules| ==> rules[k] == rules[1..][k - 1];
      v
  }

  /** A list that ends in a fallback always yields a value. */
  lemma {:induction false} FallbackAlwaysPicks<V>(rules: seq<Rule<V>>, holds: set<string>)
    requires EndsInFallback(rules)
    ensures Pick(rules, holds).Some?
  {
    assert Applies(rules[|rules| - 1], holds);
  }

  /**
   * Guarded rules placed in front of a fallback: the first guarded rule that
   * applies wins, and the fallback decides only when none does.
   */
  lemma {:induction false} PickBeforeFallback<V>(guarded: seq<Rule<V>>, v: V, holds: set<string>)
    requires forall k :: 0 <= k < |guarded| ==> guarded[k].test.Some?
    ensures EndsInFallback(guarded + [Fallback(v)])
    ensures Pick(guarded + [Fallback(v)], holds)
              == if Pick(guarded, holds).Some? then Pick(guarded, holds) else Some(v)
  {
    var rules := guarded + [Fallback(v)];
    if guarded == [] {
      assert rules == [Fallback(v)];
    } else {
      assert rules[1..] == guarded[1..] + [Fallback(v)];
      PickBeforeFallback(guarded[1..], v, holds);
    }
  }
}
