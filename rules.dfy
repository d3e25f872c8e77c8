/** Ordered, first-match-wins decision lists. The status cascades of the slip
    extractors are specified as such lists; their imperative if/elif chains
    are proved to agree with them. */
module Rules {

  /** One guarded rule: when `fires`, the list's verdict is `outcome`. */
  datatype Rule<O> = Rule(fires: bool, outcome: O)

  /** The outcome of the first rule that fires, else `default`. */
  function FirstMatch<O>(rules: seq<Rule<O>>, default: O): O
    decreases |rules|
  {
    if |rules| == 0 then default
    else if rules[0].fires then rules[0].outcome
    else FirstMatch(rules[1..], default)
  }

  /** No rule before `k` fires. */
  predicate NoneBefore<O>(rules: seq<Rule<O>>, k: nat)
    requires k <= |rules|
  {
    forall j :: 0 <= j < k ==> !rules[j].fires
  }

  /** The verdict is that of the first rule that fires. */
  lemma {:induction false} FirstMatchAt<O>(rules: seq<Rule<O>>, default: O, k: nat)
    requires k < |rules| && rules[k].fires && NoneBefore(rules, k)
    ensures FirstMatch(rules, default) == rules[k].outcome
    decreases k
  {
    if k > 0 {
      assert !rules[0].fires;
      assert NoneBefore(rules[1..], k - 1) by {
        forall j | 0 <= j < k - 1 ensures !rules[1..][j].fires {
          assert rules[1..][j] == rules[j + 1];
        }
      }
      FirstMatchAt(rules[1..], default, k - 1);
    }
  }

  /** When no rule fires, the verdict is the default. */
  lemma {:induction false} FirstMatchNone<O>(rules: seq<Rule<O>>, default: O)
    requires NoneBefore(rules, |rules|)
    ensures FirstMatch(rules, default) == default
    decreases |rules|
  {
    if |rules| > 0 {
      assert NoneBefore(rules[1..], |rules| - 1) by {
        forall j | 0 <= j < |rules| - 1 ensures !rules[1..][j].fires {
          assert rules[1..][j] == rules[j + 1];
        }
      }
      FirstMatchNone(rules[1..], default);
    }
  }

  /** The verdict is the default or the outcome of some rule that fires, and
      every rule before that one is silent. */
  lemma {:induction false} FirstMatchWitness<O>(rules: seq<Rule<O>>, default: O) returns (k: nat)
    ensures k <= |rules| && NoneBefore(rules, k)
    ensures k < |rules| ==> rules[k].fires && FirstMatch(rules, default) == rules[k].outcome
    ensures k == |rules| ==> FirstMatch(rules, default) == default
    decreases |rules|
  {
    if |rules| == 0 {
      k := 0;
    } else if rules[0].fires {
      k := 0;
    } else {
      var k' := FirstMatchWitness(rules[1..], default);
      k := k' + 1;
      forall j | 0 <= j < k ensures !rules[j].fires {
        if j > 0 { assert rules[j] == rules[1..][j - 1]; }
      }
      if k < |rules| { assert rules[k] == rules[1..][k']; }
    }
  }
}
