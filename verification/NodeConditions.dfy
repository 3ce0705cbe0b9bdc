/** `ConditionsController` and `is_node_available` of src/operator/backend_listener.py:
    which node conditions make a node unavailable. The regex engine is arbitrary. */
module NodeConditions {
  datatype Verdict = Matches | Differs | BadPattern

  /** `typeMatch(p, t)` stands for `re.match(p, t)`, `statusMatch(r, s)` for the anchored
      match of a status; both may raise `re.error`. */
  datatype Engine = Engine(typeMatch: (string, string) -> Verdict, statusMatch: (string, string) -> Verdict)

  datatype Rule = Rule(pattern: string, status: string)

  type Rules = seq<Rule>

  datatype Condition = Condition(kind: string, status: string)

  datatype Node = Node(conditions: seq<Condition>, unschedulable: bool)

  const READY := "Ready"
  const TRUE := "True"

  /** `DEFAULT_AVAILABLE_CONDITION`, a literal condition type with its status regex. */
  const DEFAULTS: seq<Rule> := [Rule(READY, TRUE)]

  /** The anchored pattern for a literal type; `re.escape` leaves letters alone. */
  function Literal(kind: string): string {
    "^" + kind + "$"
  }

  /** All that is assumed of the engine: the literal pattern matches its own type, and the
      regex `True` matches the status True alone. */
  predicate Sane(e: Engine) {
    && e.typeMatch(Literal(READY), READY) == Matches
    && e.statusMatch(TRUE, TRUE) == Matches
  }

  /** What the anchored regex `True` matches: `$` also matches before a final newline. */
  predicate ReadsAsTrue(status: string) {
    status == TRUE || status == TRUE + "\n"
  }

  ghost predicate TrueIsExact(e: Engine) {
    forall s | e.statusMatch(TRUE, s) == Matches :: ReadsAsTrue(s)
  }

  // ---------- rule sets ----------

  predicate Acceptable(e: Engine, rule: Rule) {
    e.typeMatch(rule.pattern, READY) == Matches ==> rule.status == TRUE
  }

  predicate AllAcceptable(e: Engine, rules: Rules) {
    forall i | 0 <= i < |rules| :: Acceptable(e, rules[i])
  }

  /** `any(re.match(...))`: stops at the first match; an invalid pattern met before that
      makes the whole test count as no override. */
  function HasOverride(e: Engine, rules: Rules, kind: string): (found: bool)
    ensures found ==> exists i :: 0 <= i < |rules| && e.typeMatch(rules[i].pattern, kind) == Matches
  {
    if rules == [] then false
    else
      match e.typeMatch(rules[0].pattern, kind)
      case Matches => true
      case BadPattern => false
      case Differs =>
        var found := HasOverride(e, rules[1..], kind);
        assert found ==> exists i :: 0 <= i < |rules[1..]| && e.typeMatch(rules[1..][i].pattern, kind) == Matches;
        assert forall i | 0 <= i < |rules[1..]| :: rules[1..][i] == rules[i + 1];
        found
  }

  function WithDefaults(e: Engine, effective: Rules, defaults: seq<Rule>): Rules
    decreases |defaults|
  {
    if defaults == [] then effective
    else
      WithDefaults(e,
        if HasOverride(e, effective, defaults[0].pattern) then effective
        else effective + [Rule(Literal(defaults[0].pattern), defaults[0].status)],
        defaults[1..])
  }

  // ---------- availability ----------

  predicate Touches(e: Engine, rule: Rule, c: Condition) {
    e.typeMatch(rule.pattern, c.kind) == Matches
  }

  predicate Allows(e: Engine, rule: Rule, c: Condition) {
    Touches(e, rule, c) && e.statusMatch(rule.status, c.status) == Matches
  }

  /** A condition is fine when no rule matches its type or some matching rule allows its
      status. */
  predicate Fine(e: Engine, rules: Rules, c: Condition) {
    || (forall i | 0 <= i < |rules| :: !Touches(e, rules[i], c))
    || exists i :: 0 <= i < |rules| && Allows(e, rules[i], c)
  }

  predicate Available(e: Engine, rules: Rules, node: Node) {
    !node.unschedulable && forall i | 0 <= i < |node.conditions| :: Fine(e, rules, node.conditions[i])
  }

  class ConditionsController {
    const engine: Engine
    var rules: Rules

    predicate Valid()
      reads this
    {
      AllAcceptable(engine, rules)
    }

    constructor (engine: Engine)
      ensures Valid() && this.engine == engine && rules == []
    {
      this.engine, rules := engine, [];
    }

    /** Replaces the whole set, or rejects it when it would override Ready. */
    method SetRules(newRules: Rules) returns (accepted: bool)
      requires Valid()
      modifies this
      ensures Valid()
      ensures accepted <==> AllAcceptable(engine, newRules)
      ensures rules == if accepted then newRules else old(rules)
    {
      var i := 0;
      while i < |newRules|
        invariant 0 <= i <= |newRules| && rules == old(rules)
        invariant forall j | 0 <= j < i :: Acceptable(engine, newRules[j])
      {
        match engine.typeMatch(newRules[i].pattern, READY) {
          case Matches =>
            if newRules[i].status != TRUE { return false; }
          case _ =>
        }
        i := i + 1;
      }
      rules := newRules;
      return true;
    }

    /** The rules in force: those provided, then each default that none of them overrides. */
    method GetEffectiveRules(defaults: seq<Rule>) returns (effective: Rules)
      ensures effective == WithDefaults(engine, rules, defaults)
    {
      effective := rules;
      var k := 0;
      while k < |defaults|
        invariant 0 <= k <= |defaults|
        invariant WithDefaults(engine, effective, defaults[k..]) == WithDefaults(engine, rules, defaults)
      {
        assert defaults[k..][1..] == defaults[k + 1..];
        var found, i := false, 0;
        while i < |effective|
          invariant 0 <= i <= |effective| && !found
          invariant HasOverride(engine, effective, defaults[k].pattern) == HasOverride(engine, effective[i..], defaults[k].pattern)
        {
          assert effective[i..][1..] == effective[i + 1..];
          match engine.typeMatch(effective[i].pattern, defaults[k].pattern) {
            case Matches => found := true; break;
            case BadPattern => break;
            case Differs =>
          }
          i := i + 1;
        }
        assert i == |effective| ==> effective[i..] == [];
        if !found {
          effective := effective + [Rule(Literal(defaults[k].pattern), defaults[k].status)];
        }
        k := k + 1;
      }
    }

    /** `is_node_available`: the scan that stops at the first condition that is not fine. */
    method IsNodeAvailable(node: Node) returns (available: bool)
      ensures available <==> Available(engine, WithDefaults(engine, rules, DEFAULTS), node)
      ensures node.unschedulable ==> !available
    {
      var effective := GetEffectiveRules(DEFAULTS);
      var k := 0;
      while k < |node.conditions|
        invariant 0 <= k <= |node.conditions|
        invariant forall j | 0 <= j < k :: Fine(engine, effective, node.conditions[j])
      {
        var c := node.conditions[k];
        var matchedAnyRule, allowedByAnyRule, i := false, false, 0;
        while i < |effective|
          invariant 0 <= i <= |effective| && !allowedByAnyRule
          invariant matchedAnyRule <==> exists j :: 0 <= j < i && Touches(engine, effective[j], c)
          invariant forall j | 0 <= j < i :: !Allows(engine, effective[j], c)
        {
          if engine.typeMatch(effective[i].pattern, c.kind) == Matches {
            matchedAnyRule := true;
            assert Touches(engine, effective[i], c);
            if engine.statusMatch(effective[i].status, c.status) == Matches {
              allowedByAnyRule := true;
              assert Allows(engine, effective[i], c);
              break;
            }
          }
          i := i + 1;
        }
        if matchedAnyRule && !allowedByAnyRule {
          assert !Fine(engine, effective, c);
          return false;
        }
        k := k + 1;
      }
      return !node.unschedulable;
    }
  }

  // ---------- the rules in force ----------

  /** This pattern matches, and those before it are valid and do not. */
  predicate MatchesFirst(e: Engine, rules: Rules, kind: string, k: nat)
    requires k < |rules|
  {
    e.typeMatch(rules[k].pattern, kind) == Matches && forall j | 0 <= j < k :: e.typeMatch(rules[j].pattern, kind) == Differs
  }

  lemma {:induction false} OverrideExactly(e: Engine, rules: Rules, kind: string)
    ensures HasOverride(e, rules, kind) <==> exists k :: 0 <= k < |rules| && MatchesFirst(e, rules, kind, k)
  {
    if rules != [] {
      var rest := rules[1..];
      OverrideExactly(e, rest, kind);
      assert forall j | 0 <= j < |rest| :: rest[j] == rules[j + 1];
      if e.typeMatch(rules[0].pattern, kind) == Matches {
        assert MatchesFirst(e, rules, kind, 0);
      } else if e.typeMatch(rules[0].pattern, kind) == Differs {
        forall k | 0 <= k < |rest| && MatchesFirst(e, rest, kind, k) ensures MatchesFirst(e, rules, kind, k + 1) {
          assert forall j | 0 < j <= k :: rules[j] == rest[j - 1];
        }
        forall k | 0 < k < |rules| && MatchesFirst(e, rules, kind, k) ensures MatchesFirst(e, rest, kind, k - 1) {}
      }
    }
  }

  /** The configured rules, followed by the demand that Ready be True unless one of them
      matches Ready first. */
  lemma RulesInForce(e: Engine, rules: Rules)
    ensures
      WithDefaults(e, rules, DEFAULTS)
      == if exists k :: 0 <= k < |rules| && MatchesFirst(e, rules, "Ready", k) then rules else rules + [Rule("^Ready$", "True")]
  {
    OverrideExactly(e, rules, READY);
    var extended := rules + [Rule(Literal(READY), TRUE)];
    assert Literal(READY) == "^Ready$";
    assert WithDefaults(e, rules, DEFAULTS) == if HasOverride(e, rules, READY) then rules else extended;
  }

  /** The two anchored patterns read as Python reads them. */
  ghost predicate ReadsAnchors(e: Engine) {
    && (forall kind :: e.typeMatch("^Ready$", kind) == Matches <==> kind == "Ready" || kind == "Ready\n")
    && forall s :: e.statusMatch("True", s) == Matches <==> s == "True" || s == "True\n"
  }

  /** Without configured rules a node is available exactly when it is not cordoned and no
      Ready condition says anything but True. */
  lemma UnconfiguredAvailability(e: Engine, node: Node)
    requires ReadsAnchors(e)
    ensures
      Available(e, WithDefaults(e, [], DEFAULTS), node) <==>
        && !node.unschedulable
        && forall i | 0 <= i < |node.conditions| && node.conditions[i].kind in {"Ready", "Ready\n"} ::
             node.conditions[i].status in {"True", "True\n"}
  {
    RulesInForce(e, []);
    var rule := Rule("^Ready$", "True");
    assert WithDefaults(e, [], DEFAULTS) == [] + [rule] == [rule];
    forall i | 0 <= i < |node.conditions|
      ensures
        Fine(e, [rule], node.conditions[i])
        <==> (node.conditions[i].kind in {"Ready", "Ready\n"} ==> node.conditions[i].status in {"True", "True\n"})
    {
      assert [rule][0] == rule;
    }
  }

  // ---------- Ready cannot be overridden ----------

  /** Every effective rule that matches Ready demands True, and there is one. */
  lemma EffectiveRulesGuardReady(e: Engine, rules: Rules)
    requires Sane(e) && AllAcceptable(e, rules)
    ensures
      var effective := WithDefaults(e, rules, DEFAULTS);
      && AllAcceptable(e, effective)
      && exists i :: 0 <= i < |effective| && e.typeMatch(effective[i].pattern, READY) == Matches
  {
    var extended := rules + [Rule(Literal(READY), TRUE)];
    assert extended[|rules|].pattern == Literal(READY);
    forall i | 0 <= i < |extended| ensures Acceptable(e, extended[i]) { if i < |rules| { assert extended[i] == rules[i]; } }
    assert WithDefaults(e, rules, DEFAULTS) == if HasOverride(e, rules, READY) then rules else extended;
  }

  /** Under every rule set the controller can hold, a node whose Ready condition is not
      True is unavailable. */
  lemma ReadyCannotBeOverridden(e: Engine, rules: Rules, node: Node, i: nat)
    requires Sane(e) && TrueIsExact(e) && AllAcceptable(e, rules)
    requires i < |node.conditions| && node.conditions[i].kind == READY && !ReadsAsTrue(node.conditions[i].status)
    ensures !Available(e, WithDefaults(e, rules, DEFAULTS), node)
  {
    var effective := WithDefaults(e, rules, DEFAULTS);
    EffectiveRulesGuardReady(e, rules);
    var c := node.conditions[i];
    var k :| 0 <= k < |effective| && e.typeMatch(effective[k].pattern, READY) == Matches;
    assert Touches(e, effective[k], c);
    forall j | 0 <= j < |effective|
      ensures !Allows(e, effective[j], c)
    {
      assert Acceptable(e, effective[j]);
    }
    assert !Fine(e, effective, c);
  }

  /** The Ready rule that is always there is not too strict either: whatever other rules
      say, a Ready condition that is True is fine. */
  lemma ReadyTrueIsFine(e: Engine, rules: Rules)
    requires Sane(e) && AllAcceptable(e, rules)
    ensures Fine(e, WithDefaults(e, rules, DEFAULTS), Condition(READY, TRUE))
  {
    var effective := WithDefaults(e, rules, DEFAULTS);
    EffectiveRulesGuardReady(e, rules);
    var k :| 0 <= k < |effective| && e.typeMatch(effective[k].pattern, READY) == Matches;
    assert Acceptable(e, effective[k]);
    assert Allows(e, effective[k], Condition(READY, TRUE));
  }
}
