/** The shape shared by every `validate*` function of the services: an
    ordered list of checks, each paired with the sentinel error it returns;
    the checks run in order and the first one that fails decides the error,
    and nil is returned only when every check passes. */
module GuardChain {
  import opened Foundation

  /** One `if !holds { return failure }` step. */
  datatype Rule<E> = Rule(holds: bool, failure: E)

  /** The error of the first failing rule, or nil. */
  function FirstFailure<E>(rules: seq<Rule<E>>): Option<E> {
    if rules == [] then None
    else if !rules[0].holds then Some(rules[0].failure)
    else FirstFailure(rules[1..])
  }

  predicate AllHold<E>(rules: seq<Rule<E>>) {
    forall i :: 0 <= i < |rules| ==> rules[i].holds
  }

  /** Nil exactly when every rule holds. */
  lemma {:induction false} NilIffAllHold<E>(rules: seq<Rule<E>>)
    ensures FirstFailure(rules).None? <==> AllHold(rules)
  {
    if rules != [] && rules[0].holds {
      NilIffAllHold(rules[1..]);
      assert AllHold(rules[1..]) ==> AllHold(rules) by {
        if AllHold(rules[1..]) {
          forall i | 0 <= i < |rules| ensures rules[i].holds {
            if i > 0 { assert rules[i] == rules[1..][i - 1]; }
          }
        }
      }
    }
  }

  /** A failing rule preceded only by passing rules decides the result,
      whatever the rules after it say. */
  lemma {:induction false} FirstFailingDecides<E>(rules: seq<Rule<E>>, i: nat)
    requires i < |rules| && !rules[i].holds
    requires forall j :: 0 <= j < i ==> rules[j].holds
    ensures FirstFailure(rules) == Some(rules[i].failure)
  {
    if i > 0 {
      FirstFailingDecides(rules[1..], i - 1);
    }
  }

  /** The error returned is always the error of one of the rules. */
  lemma {:induction false} FailureIsSomeRuleError<E>(rules: seq<Rule<E>>)
    ensures FirstFailure(rules).Some? ==>
              exists i :: 0 <= i < |rules| && !rules[i].holds && rules[i].failure == FirstFailure(rules).value
  {
    if rules != [] && rules[0].holds {
      FailureIsSomeRuleError(rules[1..]);
      if FirstFailure(rules[1..]).Some? {
        var i :| 0 <= i < |rules[1..]| && !rules[1..][i].holds && rules[1..][i].failure == FirstFailure(rules[1..]).value;
        assert rules[i + 1] == rules[1..][i];
      }
    }
  }
}
