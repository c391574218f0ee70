/**
 * The shape shared by the screens' error-message classifiers: the message is lowercased,
 * then matched against a list of branches in source order, and the first branch that
 * fires decides; when none fires, the generic toast is shown.
 */
module Classify {
  import opened Text

  /**
   * One `if` of a classifier. It fires when, for some alternative (the `||`-joined
   * operands), the lowercased text contains every needle of that alternative (the
   * `&&`-joined `contains` calls).
   */
  datatype Rule<K> = Rule(alternatives: seq<seq<string>>, kind: K)

  /** `text.contains(n1) && text.contains(n2) && …`, checked left to right. */
  predicate ContainsAll(text: string, needles: seq<string>)
    decreases |needles|
  {
    needles == [] || (Contains(text, needles[0]) && ContainsAll(text, needles[1..]))
  }

  /** Some alternative has all of its needles in the text. */
  predicate AnyAlternative(text: string, alternatives: seq<seq<string>>)
    decreases |alternatives|
  {
    alternatives != [] && (ContainsAll(text, alternatives[0]) || AnyAlternative(text, alternatives[1..]))
  }

  predicate Fires<K>(text: string, rule: Rule<K>)
  {
    AnyAlternative(text, rule.alternatives)
  }

  /** One alternative per needle. */
  function Singletons(needles: seq<string>): (r: seq<seq<string>>)
    ensures |r| == |needles|
    ensures forall i :: 0 <= i < |needles| ==> r[i] == [needles[i]]
  {
    if needles == [] then [] else [[needles[0]]] + Singletons(needles[1..])
  }

  /** `a || b || …`: a branch that fires when any one of the needles occurs. */
  function AnyOf<K>(needles: seq<string>, kind: K): Rule<K>
  {
    Rule(Singletons(needles), kind)
  }

  /** `a && b && …`: a branch that fires when all of the needles occur. */
  function AllOf<K>(needles: seq<string>, kind: K): Rule<K>
  {
    Rule([needles], kind)
  }

  lemma {:induction false} ContainsAllIffEvery(text: string, needles: seq<string>)
    ensures ContainsAll(text, needles) <==> forall n :: n in needles ==> Contains(text, n)
    decreases |needles|
  {
    if needles != [] {
      var rest := needles[1..];
      ContainsAllIffEvery(text, rest);
      assert needles == [needles[0]] + rest;
      if ContainsAll(text, needles) {
        forall n | n in needles
          ensures Contains(text, n)
        {
          if n != needles[0] {
            assert n in rest;
          }
        }
      }
      if forall n :: n in needles ==> Contains(text, n) {
        assert needles[0] in needles;
        forall n | n in rest
          ensures Contains(text, n)
        {
          assert n in needles;
        }
      }
    }
  }

  lemma {:induction false} AnyAlternativeIffSome(text: string, alternatives: seq<seq<string>>)
    ensures AnyAlternative(text, alternatives) <==>
      exists i :: 0 <= i < |alternatives| && ContainsAll(text, alternatives[i])
    decreases |alternatives|
  {
    if alternatives != [] {
      var rest := alternatives[1..];
      AnyAlternativeIffSome(text, rest);
      if exists i :: 0 <= i < |alternatives| && ContainsAll(text, alternatives[i]) {
        var i :| 0 <= i < |alternatives| && ContainsAll(text, alternatives[i]);
        if i > 0 {
          assert rest[i - 1] == alternatives[i];
        }
      }
      if AnyAlternative(text, rest) {
        var i :| 0 <= i < |rest| && ContainsAll(text, rest[i]);
        assert alternatives[i + 1] == rest[i];
      }
    }
  }

  lemma AnyOfFires<K>(text: string, needles: seq<string>, kind: K)
    ensures Fires(text, AnyOf(needles, kind)) <==> exists n :: n in needles && Contains(text, n)
  {
    var alts := Singletons(needles);
    AnyAlternativeIffSome(text, alts);
    forall i | 0 <= i < |alts|
      ensures ContainsAll(text, alts[i]) <==> Contains(text, needles[i])
    {
      assert alts[i] == [needles[i]];
      assert alts[i][1..] == [];
    }
    if exists n :: n in needles && Contains(text, n) {
      var n :| n in needles && Contains(text, n);
      var i :| 0 <= i < |needles| && needles[i] == n;
      assert ContainsAll(text, alts[i]);
    }
  }

  lemma AllOfFires<K>(text: string, needles: seq<string>, kind: K)
    ensures Fires(text, AllOf(needles, kind)) <==> forall n :: n in needles ==> Contains(text, n)
  {
    ContainsAllIffEvery(text, needles);
    var alts := [needles];
    assert alts[0] == needles && alts[1..] == [];
    assert Fires(text, AllOf(needles, kind)) == (ContainsAll(text, needles) || AnyAlternative(text, []));
  }

  /** `a`: a branch with a single `contains` test. */
  lemma AnyOfOneFires<K>(text: string, a: string, kind: K)
    ensures Fires(text, AnyOf([a], kind)) <==> Contains(text, a)
  {
    AnyOfFires(text, [a], kind);
    assert a in [a];
  }

  /** `a || b`. */
  lemma AnyOfTwoFires<K>(text: string, a: string, b: string, kind: K)
    ensures Fires(text, AnyOf([a, b], kind)) <==> Contains(text, a) || Contains(text, b)
  {
    AnyOfFires(text, [a, b], kind);
    assert a in [a, b] && b in [a, b];
  }

  /** `a || b || c`. */
  lemma AnyOfThreeFires<K>(text: string, a: string, b: string, c: string, kind: K)
    ensures Fires(text, AnyOf([a, b, c], kind)) <==> Contains(text, a) || Contains(text, b) || Contains(text, c)
  {
    AnyOfFires(text, [a, b, c], kind);
    assert a in [a, b, c] && b in [a, b, c] && c in [a, b, c];
  }

  /** Every classifier's first branch: the repository's network-failure messages contain "сетев". */
  const NetworkNeedle: string := "сетев"

  predicate MentionsNetwork(t: string)
  {
    Contains(t, NetworkNeedle)
  }

  lemma NetworkRuleFires<K>(t: string, kind: K)
    ensures Fires(t, AnyOf([NetworkNeedle], kind)) <==> MentionsNetwork(t)
  {
    AnyOfOneFires(t, NetworkNeedle, kind);
  }

  /** The kind of the first rule that fires, else `otherwise`. */
  function FirstMatch<K>(text: string, rules: seq<Rule<K>>, otherwise: K): (k: K)
    ensures k == otherwise || exists i :: 0 <= i < |rules| && Fires(text, rules[i]) && k == rules[i].kind
  {
    if rules == [] then otherwise
    else if Fires(text, rules[0]) then rules[0].kind
    else
      var k := FirstMatch(text, rules[1..], otherwise);
      assert forall i :: 0 <= i < |rules[1..]| ==> rules[1..][i] == rules[i + 1];
      k
  }

  /** One step of the chain: the first rule decides if it fires, else the rest of the chain does. */
  lemma FirstMatchStep<K>(text: string, rules: seq<Rule<K>>, otherwise: K)
    requires rules != []
    ensures FirstMatch(text, rules, otherwise) ==
      if Fires(text, rules[0]) then rules[0].kind else FirstMatch(text, rules[1..], otherwise)
  {
  }

  /** A chain of five branches, spelled out as nested `if`s. */
  lemma FirstMatchOfFive<K>(text: string, rules: seq<Rule<K>>, otherwise: K)
    requires |rules| == 5
    ensures FirstMatch(text, rules, otherwise) ==
      if Fires(text, rules[0]) then rules[0].kind
      else if Fires(text, rules[1]) then rules[1].kind
      else if Fires(text, rules[2]) then rules[2].kind
      else if Fires(text, rules[3]) then rules[3].kind
      else if Fires(text, rules[4]) then rules[4].kind
      else otherwise
  {
    var r1 := rules[1..];
    var r2 := r1[1..];
    var r3 := r2[1..];
    var r4 := r3[1..];
    var r5 := r4[1..];
    assert r1[0] == rules[1] && r2[0] == rules[2] && r3[0] == rules[3] && r4[0] == rules[4] && r5 == [];
    FirstMatchStep(text, rules, otherwise);
    FirstMatchStep(text, r1, otherwise);
    FirstMatchStep(text, r2, otherwise);
    FirstMatchStep(text, r3, otherwise);
    FirstMatchStep(text, r4, otherwise);
  }

  /** A chain of six branches, spelled out as nested `if`s. */
  lemma FirstMatchOfSix<K>(text: string, rules: seq<Rule<K>>, otherwise: K)
    requires |rules| == 6
    ensures FirstMatch(text, rules, otherwise) ==
      if Fires(text, rules[0]) then rules[0].kind
      else if Fires(text, rules[1]) then rules[1].kind
      else if Fires(text, rules[2]) then rules[2].kind
      else if Fires(text, rules[3]) then rules[3].kind
      else if Fires(text, rules[4]) then rules[4].kind
      else if Fires(text, rules[5]) then rules[5].kind
      else otherwise
  {
    var rest := rules[1..];
    assert rest[0] == rules[1] && rest[1] == rules[2] && rest[2] == rules[3] && rest[3] == rules[4] && rest[4] == rules[5];
    FirstMatchStep(text, rules, otherwise);
    FirstMatchOfFive(text, rest, otherwise);
  }

  /** Rule `i` fires and no earlier rule does. */
  predicate FirstToFire<K>(text: string, rules: seq<Rule<K>>, i: int)
    requires 0 <= i < |rules|
  {
    Fires(text, rules[i]) && forall j :: 0 <= j < i ==> !Fires(text, rules[j])
  }

  /** Every branch leads to its own outcome, and none to the fallback's. */
  ghost predicate DistinctKinds<K>(rules: seq<Rule<K>>, otherwise: K)
  {
    && (forall i :: 0 <= i < |rules| ==> rules[i].kind != otherwise)
    && (forall i, j :: 0 <= i < j < |rules| ==> rules[i].kind != rules[j].kind)
  }

  /** The first rule that fires decides, whatever the later rules say. */
  lemma {:induction false} FirstFiringRuleWins<K>(text: string, rules: seq<Rule<K>>, otherwise: K, i: int)
    requires 0 <= i < |rules| && FirstToFire(text, rules, i)
    ensures FirstMatch(text, rules, otherwise) == rules[i].kind
    decreases i
  {
    if i > 0 {
      assert !Fires(text, rules[0]);
      assert forall j :: 0 <= j < i - 1 ==> rules[1..][j] == rules[j + 1];
      FirstFiringRuleWins(text, rules[1..], otherwise, i - 1);
    }
  }

  /** When no rule fires, the result is the fallback. */
  lemma {:induction false} NoRuleFiresGivesOtherwise<K>(text: string, rules: seq<Rule<K>>, otherwise: K)
    requires forall j :: 0 <= j < |rules| ==> !Fires(text, rules[j])
    ensures FirstMatch(text, rules, otherwise) == otherwise
    decreases |rules|
  {
    if rules != [] {
      assert !Fires(text, rules[0]);
      NoRuleFiresGivesOtherwise(text, rules[1..], otherwise);
    }
  }

  /**
   * With distinct outcomes, a classifier answers a branch's outcome exactly when that
   * branch is the first to fire, and the fallback exactly when no branch fires.
   */
  lemma {:induction false} OutcomeIffFirstToFire<K>(text: string, rules: seq<Rule<K>>, otherwise: K)
    requires DistinctKinds(rules, otherwise)
    ensures forall i :: 0 <= i < |rules| ==>
      (FirstMatch(text, rules, otherwise) == rules[i].kind <==> FirstToFire(text, rules, i))
    ensures FirstMatch(text, rules, otherwise) == otherwise <==>
      forall j :: 0 <= j < |rules| ==> !Fires(text, rules[j])
    decreases |rules|
  {
    if rules != [] {
      var rest := rules[1..];
      assert forall j :: 0 <= j < |rest| ==> rest[j] == rules[j + 1];
      OutcomeIffFirstToFire(text, rest, otherwise);
      if Fires(text, rules[0]) {
        assert FirstMatch(text, rules, otherwise) == rules[0].kind;
      } else {
        assert FirstMatch(text, rules, otherwise) == FirstMatch(text, rest, otherwise);
        forall i | 1 <= i < |rules|
          ensures FirstToFire(text, rules, i) <==> FirstToFire(text, rest, i - 1)
        {
          assert forall j :: 0 <= j < i ==> (j == 0 || rules[j] == rest[j - 1]);
        }
      }
    }
  }

  /** A chain that starts with the network rule reports a network problem whenever the lowercased message names one. */
  lemma NetworkRuleWins<K>(message: string, rules: seq<Rule<K>>, otherwise: K)
    requires rules != [] && rules[0] == AnyOf([NetworkNeedle], rules[0].kind)
    ensures MentionsNetwork(ToLower(message)) ==> FirstMatch(ToLower(message), rules, otherwise) == rules[0].kind
  {
    NetworkRuleFires(ToLower(message), rules[0].kind);
    FirstMatchStep(ToLower(message), rules, otherwise);
  }

  /** `message.toLowerCase(Locale.ROOT)` matched against the rules. */
  function ClassifyMessage<K>(message: string, rules: seq<Rule<K>>, otherwise: K): K
  {
    FirstMatch(ToLower(message), rules, otherwise)
  }

  /** The classification does not depend on the case of the message. */
  lemma ClassifyIgnoresCase<K>(message: string, rules: seq<Rule<K>>, otherwise: K)
    ensures ClassifyMessage(ToLower(message), rules, otherwise) == ClassifyMessage(message, rules, otherwise)
  {
    ToLowerIdempotent(message);
  }
}
