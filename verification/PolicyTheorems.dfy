/** What the policy engine's decisions depend on, and which rewrites of a policy set keep them. */
module PolicyTheorems {
  import opened Policy

  /** `r` is one of the rules of one of the policies. */
  ghost predicate RuleIn(policies: seq<Policy>, r: PolicyRule) {
    exists p :: p in policies && r in p.rules
  }

  lemma CallIsRule(policies: seq<Policy>, effect: Effect, ctx: PolicyContext, greater: Greater)
    ensures Calls(policies, effect, ctx, greater)
       <==> exists r :: RuleIn(policies, r) && r.effect == effect && CallsFor(r, ctx, greater)
  {
    if Calls(policies, effect, ctx, greater) {
      var p, r :| p in policies && r in p.rules && r.effect == effect && CallsFor(r, ctx, greater);
      assert RuleIn(policies, r);
    }
    if r :| RuleIn(policies, r) && r.effect == effect && CallsFor(r, ctx, greater) {
      var p :| p in policies && r in p.rules;
    }
  }

  /** Permuting, regrouping, renaming or repeating policies and rules never changes what is allowed. */
  lemma OnlyTheRuleSetMatters(a: seq<Policy>, b: seq<Policy>, defaultDeny: bool, ctx: PolicyContext, greater: Greater)
    requires forall r :: RuleIn(a, r) <==> RuleIn(b, r)
    ensures Decide(a, defaultDeny, ctx, greater).allowed == Decide(b, defaultDeny, ctx, greater).allowed
  {
    forall e: Effect
      ensures Calls(a, e, ctx, greater) <==> Calls(b, e, ctx, greater)
    {
      CallIsRule(a, e, ctx, greater);
      CallIsRule(b, e, ctx, greater);
    }
    DecisionInFull(a, defaultDeny, ctx, greater);
    DecisionInFull(b, defaultDeny, ctx, greater);
  }

  // ---- The reason given ----------------------------------------------------------------

  /** Some rule has something to say. */
  ghost predicate Speaks(policies: seq<Policy>, ctx: PolicyContext, greater: Greater) {
    Calls(policies, Allow, ctx, greater) || Calls(policies, Deny, ctx, greater)
  }

  lemma SpeaksIffHits(policies: seq<Policy>, ctx: PolicyContext, greater: Greater)
    ensures Speaks(policies, ctx, greater) <==> Hits(Flat(policies), ctx, greater) != []
  {
    var hits := Hits(Flat(policies), ctx, greater);
    HasIsCall(policies, ctx, greater, Allow);
    HasIsCall(policies, ctx, greater, Deny);
    if hits != [] { assert hits[0].rule.effect == Allow || hits[0].rule.effect == Deny; }
  }

  lemma {:induction false} FlatJoins(a: seq<Policy>, b: seq<Policy>)
    ensures Flat(a + b) == Flat(a) + Flat(b)
    decreases |b|
  {
    if b == [] {
      assert a + b == a;
    } else {
      assert (a + b)[..|a + b| - 1] == a + b[..|b| - 1];
      FlatJoins(a, b[..|b| - 1]);
    }
  }

  lemma {:induction false} JoinOfTwo(a: seq<string>, b: seq<string>)
    requires a != [] && b != []
    ensures Join(a + b) == Join(a) + "; " + Join(b)
    decreases |b|
  {
    assert (a + b)[..|a + b| - 1] == a + b[..|b| - 1];
    if |b| == 1 {
      assert a + b[..0] == a;
    } else {
      JoinOfTwo(a, b[..|b| - 1]);
    }
  }

  lemma FlatOfOne(p: Policy)
    ensures Flat([p]) == NamedRules(p.name, p.rules)
  {
    assert [p][..0] == [] && Flat([p][..0]) == [];
  }

  /** One rule that speaks gives its effect and the name of its policy. */
  lemma ReasonOfOne(name: string, r: PolicyRule, defaultDeny: bool, ctx: PolicyContext, greater: Greater)
    requires CallsFor(r, ctx, greater)
    ensures Decide([Policy(name, [r])], defaultDeny, ctx, greater)
         == if r.effect == Allow then PolicyDecision(true, "Allowed by policy: " + name)
            else PolicyDecision(false, "Denied by policy: " + name)
  {
    AppliesInFull(r, ctx, greater);
    var n := Named(name, r);
    FlatOfOne(Policy(name, [r]));
    assert Flat([Policy(name, [r])]) == [n];
    assert [n][..0] == [] && Hits([n][..0], ctx, greater) == [];
    assert Hits([n], ctx, greater) == [n];
    assert [n][0].rule.effect == r.effect;
    assert Reasons([n]) == [Reason(n)];
  }

  lemma ReasonsJoin(a: seq<Named>, b: seq<Named>)
    requires a != [] && b != []
    ensures Join(Reasons(a + b)) == Join(Reasons(a)) + "; " + Join(Reasons(b))
  {
    assert Reasons(a + b) == Reasons(a) + Reasons(b);
    JoinOfTwo(Reasons(a), Reasons(b));
  }

  lemma VerdictReason(hits: seq<Named>, defaultDeny: bool)
    ensures Verdict(hits, defaultDeny).reason
         == if hits != [] then Join(Reasons(hits))
            else if defaultDeny then "No matching policy - default deny" else "No matching policy - default allow"
  {
    if hits != [] { assert hits[0].rule.effect == Allow || hits[0].rule.effect == Deny; }
  }

  lemma JoinedVerdicts(a: seq<Named>, b: seq<Named>, defaultDeny: bool)
    ensures var first, second := Verdict(a, defaultDeny).reason, Verdict(b, defaultDeny).reason;
            Verdict(a + b, defaultDeny).reason
            == if a != [] && b != [] then first + "; " + second
               else if a != [] then first
               else if b != [] then second
               else if defaultDeny then "No matching policy - default deny"
               else "No matching policy - default allow"
  {
    VerdictReason(a, defaultDeny);
    VerdictReason(b, defaultDeny);
    if a == [] {
      assert a + b == b;
    } else if b == [] {
      assert a + b == a;
    } else {
      VerdictReason(a + b, defaultDeny);
      ReasonsJoin(a, b);
    }
  }

  /** Policies are heard in order: their reasons are joined, and those that say nothing add nothing. */
  lemma ReasonsAreJoined(a: seq<Policy>, b: seq<Policy>, defaultDeny: bool, ctx: PolicyContext, greater: Greater)
    ensures var first := Decide(a, defaultDeny, ctx, greater).reason;
            var second := Decide(b, defaultDeny, ctx, greater).reason;
            Decide(a + b, defaultDeny, ctx, greater).reason
            == if Speaks(a, ctx, greater) && Speaks(b, ctx, greater) then first + "; " + second
               else if Speaks(a, ctx, greater) then first
               else if Speaks(b, ctx, greater) then second
               else if defaultDeny then "No matching policy - default deny"
               else "No matching policy - default allow"
  {
    var ha, hb := Hits(Flat(a), ctx, greater), Hits(Flat(b), ctx, greater);
    FlatJoins(a, b);
    HitsJoin(Flat(a), Flat(b), ctx, greater);
    SpeaksIffHits(a, ctx, greater);
    SpeaksIffHits(b, ctx, greater);
    JoinedVerdicts(ha, hb, defaultDeny);
  }

  /** Nor does it matter how the rules of one name are divided: the whole decision, reason included, stays. */
  lemma PoliciesSplit(
      a: seq<Policy>, name: string, r: seq<PolicyRule>, q: seq<PolicyRule>, b: seq<Policy>,
      defaultDeny: bool, ctx: PolicyContext, greater: Greater)
    ensures Decide(a + [Policy(name, r + q)] + b, defaultDeny, ctx, greater)
         == Decide(a + [Policy(name, r), Policy(name, q)] + b, defaultDeny, ctx, greater)
  {
    var one, two := [Policy(name, r + q)], [Policy(name, r)] + [Policy(name, q)];
    FlatJoins(a + one, b);
    FlatJoins(a, one);
    FlatJoins(a + two, b);
    FlatJoins(a, two);
    FlatJoins([Policy(name, r)], [Policy(name, q)]);
    FlatOfOne(Policy(name, r));
    FlatOfOne(Policy(name, q));
    FlatOfOne(Policy(name, r + q));
    assert NamedRules(name, r + q) == NamedRules(name, r) + NamedRules(name, q);
    assert two == [Policy(name, r), Policy(name, q)];
  }

  // ---- Rule erasure --------------------------------------------------------------------

  function Unconditional(rules: seq<PolicyRule>): seq<PolicyRule> {
    if rules == [] then []
    else
      var last := rules[|rules| - 1];
      Unconditional(rules[..|rules| - 1]) + if last.conditions == [] then [last] else []
  }

  /** Every conditional rule removed, nothing else changed. */
  function Erase(policies: seq<Policy>): seq<Policy> {
    seq(|policies|, i requires 0 <= i < |policies| => policies[i].(rules := Unconditional(policies[i].rules)))
  }

  lemma {:induction false} UnconditionalRules(rules: seq<PolicyRule>, r: PolicyRule)
    ensures r in Unconditional(rules) <==> r in rules && r.conditions == []
    decreases |rules|
  {
    if rules != [] {
      UnconditionalRules(rules[..|rules| - 1], r);
      assert rules == rules[..|rules| - 1] + [rules[|rules| - 1]];
    }
  }

  /** What is left is exactly the rules without conditions. */
  lemma ErasedHasRules(policies: seq<Policy>, r: PolicyRule)
    ensures RuleIn(Erase(policies), r) <==> RuleIn(policies, r) && r.conditions == []
  {
    forall p | p in policies
      ensures r in Unconditional(p.rules) <==> r in p.rules && r.conditions == []
    {
      UnconditionalRules(p.rules, r);
    }
    if RuleIn(policies, r) && r.conditions == [] {
      var p :| p in policies && r in p.rules;
      var i :| 0 <= i < |policies| && policies[i] == p;
      assert Erase(policies)[i] in Erase(policies) && r in Erase(policies)[i].rules;
    }
  }

  lemma {:induction false} ErasedRules(name: string, rules: seq<PolicyRule>, ctx: PolicyContext, greater: Greater)
    requires ctx.attributes == map[]
    ensures Hits(NamedRules(name, Unconditional(rules)), ctx, greater) == Hits(NamedRules(name, rules), ctx, greater)
    decreases |rules|
  {
    if rules != [] {
      var rest, last := rules[..|rules| - 1], rules[|rules| - 1];
      ErasedRules(name, rest, ctx, greater);
      assert NamedRules(name, rules) == NamedRules(name, rest) + [Named(name, last)];
      assert NamedRules(name, rules)[..|rules| - 1] == NamedRules(name, rest);
      if last.conditions == [] {
        var kept := Unconditional(rest);
        assert NamedRules(name, kept + [last]) == NamedRules(name, kept) + [Named(name, last)];
        assert NamedRules(name, kept + [last])[..|kept|] == NamedRules(name, kept);
      } else {
        assert last.conditions[0] in last.conditions;
        assert !Applies(last, ctx, greater);
        assert Unconditional(rules) == Unconditional(rest);
        var hits := Hits(NamedRules(name, rest), ctx, greater);
        assert Hits(NamedRules(name, rules), ctx, greater) == hits + [] == hits;
      }
    }
  }

  lemma {:induction false} ErasedHits(policies: seq<Policy>, ctx: PolicyContext, greater: Greater)
    requires ctx.attributes == map[]
    ensures Hits(Flat(Erase(policies)), ctx, greater) == Hits(Flat(policies), ctx, greater)
    decreases |policies|
  {
    if policies != [] {
      var rest, last := policies[..|policies| - 1], policies[|policies| - 1];
      ErasedHits(rest, ctx, greater);
      assert Erase(policies)[..|policies| - 1] == Erase(rest);
      assert Flat(Erase(policies)) == Flat(Erase(rest)) + NamedRules(last.name, Unconditional(last.rules));
      assert Flat(policies) == Flat(rest) + NamedRules(last.name, last.rules);
      ErasedRules(last.name, last.rules, ctx, greater);
      HitsJoin(Flat(rest), NamedRules(last.name, last.rules), ctx, greater);
      HitsJoin(Flat(Erase(rest)), NamedRules(last.name, Unconditional(last.rules)), ctx, greater);
    }
  }

  /**
    Without attributes, as the gate always asks, conditional rules might as well not exist: same
    decision, same reason.
  */
  lemma ErasureKeepsDecision(policies: seq<Policy>, defaultDeny: bool, ctx: PolicyContext, greater: Greater)
    requires ctx.attributes == map[]
    ensures Decide(Erase(policies), defaultDeny, ctx, greater) == Decide(policies, defaultDeny, ctx, greater)
  {
    ErasedHits(policies, ctx, greater);
  }

  // ---- Pattern inclusion ---------------------------------------------------------------

  /** The decision procedure: `q` covers everything `p` matches. */
  predicate Includes(q: string, p: string) {
    if EndsInStar(q) then Stem(q) <= Stem(p) else !EndsInStar(p) && q == p
  }

  lemma StarMatchesPrefix(pattern: string, resource: string)
    requires EndsInStar(pattern)
    ensures Matches(pattern, resource) <==> Stem(pattern) <= resource
  {
    if pattern == "*" { assert Stem(pattern) == ""; }
  }

  lemma IncludedMatches(q: string, p: string, resource: string)
    requires Includes(q, p) && Matches(p, resource)
    ensures Matches(q, resource)
  {
    if EndsInStar(q) { StarMatchesPrefix(q, resource); }
    if EndsInStar(p) { StarMatchesPrefix(p, resource); }
    assert Stem(p) <= resource;
    if EndsInStar(q) { assert resource[..|Stem(q)|] == Stem(p)[..|Stem(q)|]; }
  }

  lemma IncludedFits(q: string, p: string, resource: string)
    requires Includes(q, p) && Fits(p, resource)
    ensures Fits(q, resource)
  {
    MatchesInFull(p, resource);
    MatchesInFull(q, resource);
    IncludedMatches(q, p, resource);
  }

  /** A resource matched by `p` and not by `q`, whenever the procedure says no. */
  ghost function Separating(q: string, p: string): (resource: string)
    requires !Includes(q, p)
    ensures Matches(p, resource) && !Matches(q, resource)
  {
    var resource := if !EndsInStar(q) && EndsInStar(p) && Stem(p) == q then Stem(p) + "/" else Stem(p);
    assert EndsInStar(q) ==> (Matches(q, resource) <==> Stem(q) <= resource) by {
      if EndsInStar(q) { StarMatchesPrefix(q, resource); }
    }
    assert EndsInStar(p) ==> (Matches(p, resource) <==> Stem(p) <= resource) by {
      if EndsInStar(p) { StarMatchesPrefix(p, resource); }
    }
    resource
  }

  /** Inclusion of the matched sets is decided exactly by comparing the two texts. */
  lemma InclusionIsDecided(q: string, p: string)
    ensures (forall resource :: Fits(p, resource) ==> Fits(q, resource)) <==> Includes(q, p)
  {
    if Includes(q, p) {
      forall resource | Fits(p, resource)
        ensures Fits(q, resource)
      {
        IncludedFits(q, p, resource);
      }
    } else {
      var resource := Separating(q, p);
      MatchesInFull(p, resource);
      MatchesInFull(q, resource);
    }
  }

  // ---- Redundant rules -----------------------------------------------------------------

  /** `general` applies wherever `special` does, to the same effect. */
  ghost predicate Covers(general: PolicyRule, special: PolicyRule) {
    && general.effect == special.effect
    && Includes(general.pattern, special.pattern)
    && (forall a :: a in special.actions ==> a in general.actions)
    && (forall c :: c in general.conditions ==> c in special.conditions)
  }

  /** Removing rules that are each covered by a rule that stays changes nothing for any request. */
  lemma CoveredRulesAreRedundant(full: seq<Policy>, pruned: seq<Policy>, defaultDeny: bool, ctx: PolicyContext,
      greater: Greater)
    requires forall r :: RuleIn(pruned, r) ==> RuleIn(full, r)
    requires forall r :: RuleIn(full, r) && !RuleIn(pruned, r) ==> exists g :: RuleIn(pruned, g) && Covers(g, r)
    ensures Decide(pruned, defaultDeny, ctx, greater).allowed == Decide(full, defaultDeny, ctx, greater).allowed
  {
    forall e: Effect
      ensures Calls(full, e, ctx, greater) <==> Calls(pruned, e, ctx, greater)
    {
      CallIsRule(full, e, ctx, greater);
      CallIsRule(pruned, e, ctx, greater);
      if Calls(full, e, ctx, greater) {
        var r :| RuleIn(full, r) && r.effect == e && CallsFor(r, ctx, greater);
        if !RuleIn(pruned, r) {
          var g :| RuleIn(pruned, g) && Covers(g, r);
          IncludedFits(g.pattern, r.pattern, ctx.resource);
          assert CallsFor(g, ctx, greater);
        }
      }
    }
    DecisionInFull(full, defaultDeny, ctx, greater);
    DecisionInFull(pruned, defaultDeny, ctx, greater);
  }

  /**
    For rules without conditions coverage is exact: a rule that acts at all is implied by another
    iff it is covered.
  */
  lemma CoverageIsExact(general: PolicyRule, special: PolicyRule, greater: Greater)
    requires general.conditions == [] && special.conditions == [] && general.effect == special.effect
    ensures (forall ctx :: CallsFor(special, ctx, greater) ==> CallsFor(general, ctx, greater))
       <==> special.actions == [] || Covers(general, special)
  {
    if special.actions == [] || Covers(general, special) {
      forall ctx | CallsFor(special, ctx, greater)
        ensures CallsFor(general, ctx, greater)
      {
        IncludedFits(general.pattern, special.pattern, ctx.resource);
      }
    } else if !Includes(general.pattern, special.pattern) {
      var resource := Separating(general.pattern, special.pattern);
      MatchesInFull(general.pattern, resource);
      MatchesInFull(special.pattern, resource);
      var ctx := PolicyContext("", resource, special.actions[0], map[]);
      assert CallsFor(special, ctx, greater) && !CallsFor(general, ctx, greater);
    } else {
      var a :| a in special.actions && a !in general.actions;
      var resource := Stem(special.pattern);
      if EndsInStar(special.pattern) { StarMatchesPrefix(special.pattern, resource); }
      MatchesInFull(special.pattern, resource);
      var ctx := PolicyContext("", resource, a, map[]);
      assert CallsFor(special, ctx, greater) && !CallsFor(general, ctx, greater);
    }
  }

  // ---- The built-in engine -------------------------------------------------------------

  const METHODS: seq<string> := ["get", "post", "put", "patch", "delete", "head", "options"]

  const DEFAULT_ALLOW: PolicyRule := PolicyRule("*", METHODS, [], Allow)

  const DEFAULT_POLICY: Policy := Policy("Allow all authenticated requests (MVP default)", [DEFAULT_ALLOW])

  method BuildDefaultPolicyEngine(defaultDeny: bool, greater: Greater) returns (engine: PolicyEngine)
    ensures fresh(engine) && engine.policies == [DEFAULT_POLICY]
    ensures engine.defaultDeny == defaultDeny && engine.greater == greater
  {
    engine := new PolicyEngine(defaultDeny, greater);
    engine.AddPolicy(DEFAULT_POLICY);
  }

  /**
    The built-in engine with deny rules added: a listed method passes iff no deny rule applies,
    any other method needs the permissive default as well.
  */
  lemma BuiltInWithDenies(denies: seq<Policy>, defaultDeny: bool, ctx: PolicyContext, greater: Greater)
    requires forall r :: RuleIn(denies, r) ==> r.effect == Deny
    ensures Decide([DEFAULT_POLICY] + denies, defaultDeny, ctx, greater).allowed
       <==> !Calls(denies, Deny, ctx, greater) && (ctx.action in METHODS || !defaultDeny)
  {
    var all := [DEFAULT_POLICY] + denies;
    assert DEFAULT_POLICY in all && DEFAULT_ALLOW in DEFAULT_POLICY.rules;
    assert RuleIn(all, DEFAULT_ALLOW);
    forall r
      ensures RuleIn(all, r) <==> r == DEFAULT_ALLOW || RuleIn(denies, r)
    {
      if RuleIn(denies, r) {
        var p :| p in denies && r in p.rules;
        assert p in all;
      }
    }
    assert DEFAULT_ALLOW.pattern == "" + "*" && "" <= ctx.resource;
    assert CallsFor(DEFAULT_ALLOW, ctx, greater) <==> ctx.action in METHODS;
    forall e: Effect
      ensures Calls(all, e, ctx, greater)
         <==> Calls(denies, e, ctx, greater) || (e == Allow && ctx.action in METHODS)
    {
      CallIsRule(all, e, ctx, greater);
      CallIsRule(denies, e, ctx, greater);
    }
    CallIsRule(denies, Allow, ctx, greater);
    DecisionInFull(all, defaultDeny, ctx, greater);
  }
}
