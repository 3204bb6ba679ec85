/** The policy engine of `src/policy/mod.rs`: deny-overrides evaluation over prefix patterns. */
module Policy {
  datatype Effect = Allow | Deny

  datatype Operator = Equals | NotEquals | Contains | GreaterThan | LessThan

  datatype Condition = Condition(attribute: string, operator: Operator, value: string)

  datatype PolicyRule = PolicyRule(pattern: string, actions: seq<string>, conditions: seq<Condition>, effect: Effect)

  datatype Policy = Policy(name: string, rules: seq<PolicyRule>)

  datatype PolicyContext = PolicyContext(
    userId: string,
    resource: string,
    action: string,
    attributes: map<string, string>)

  datatype PolicyDecision = PolicyDecision(allowed: bool, reason: string)

  /** `a > b` on the texts read as floats, zero where a text is not one: left uninterpreted. */
  type Greater = (string, string) -> bool

  predicate EndsInStar(pattern: string) {
    pattern != "" && pattern[|pattern| - 1] == '*'
  }

  /** The pattern without its one trailing star, if it has one. */
  function Stem(pattern: string): string {
    if EndsInStar(pattern) then pattern[..|pattern| - 1] else pattern
  }

  /** `matches_resource`: `*` alone, a trailing `*` after a literal prefix, or the literal text. */
  predicate Matches(pattern: string, resource: string) {
    if pattern == "*" then true
    else if EndsInStar(pattern) then Stem(pattern) <= resource
    else pattern == resource
  }

  predicate HasSubstring(text: string, part: string) {
    exists i | 0 <= i <= |text| :: part <= text[i..]
  }

  predicate Compare(op: Operator, actual: string, wanted: string, greater: Greater) {
    match op
    case Equals => actual == wanted
    case NotEquals => actual != wanted
    case Contains => HasSubstring(actual, wanted)
    case GreaterThan => greater(actual, wanted)
    case LessThan => greater(wanted, actual)
  }

  predicate Holds(c: Condition, attributes: map<string, string>, greater: Greater) {
    c.attribute in attributes && Compare(c.operator, attributes[c.attribute], c.value, greater)
  }

  predicate Applies(r: PolicyRule, ctx: PolicyContext, greater: Greater) {
    && Matches(r.pattern, ctx.resource)
    && ctx.action in r.actions
    && forall c :: c in r.conditions ==> Holds(c, ctx.attributes, greater)
  }

  /** A policy's rules with the name each one reports. */
  datatype Named = Named(policy: string, rule: PolicyRule)

  function NamedRules(name: string, rules: seq<PolicyRule>): seq<Named> {
    seq(|rules|, i requires 0 <= i < |rules| => Named(name, rules[i]))
  }

  /** All rules of all policies in evaluation order. */
  function Flat(policies: seq<Policy>): seq<Named> {
    if policies == [] then []
    else Flat(policies[..|policies| - 1]) + NamedRules(policies[|policies| - 1].name, policies[|policies| - 1].rules)
  }

  /** The rules that apply, in order. */
  function Hits(rules: seq<Named>, ctx: PolicyContext, greater: Greater): seq<Named> {
    if rules == [] then []
    else
      var last := rules[|rules| - 1];
      Hits(rules[..|rules| - 1], ctx, greater) + if Applies(last.rule, ctx, greater) then [last] else []
  }

  function Reason(n: Named): string {
    (if n.rule.effect.Allow? then "Allowed by policy: " else "Denied by policy: ") + n.policy
  }

  function Reasons(hits: seq<Named>): seq<string> {
    seq(|hits|, i requires 0 <= i < |hits| => Reason(hits[i]))
  }

  /** `reasons.join("; ")`. */
  function Join(parts: seq<string>): string {
    if parts == [] then ""
    else if |parts| == 1 then parts[0]
    else Join(parts[..|parts| - 1]) + "; " + parts[|parts| - 1]
  }

  predicate Has(hits: seq<Named>, effect: Effect) {
    exists i | 0 <= i < |hits| :: hits[i].rule.effect == effect
  }

  function Verdict(hits: seq<Named>, defaultDeny: bool): PolicyDecision {
    if Has(hits, Deny) then PolicyDecision(false, Join(Reasons(hits)))
    else if Has(hits, Allow) then PolicyDecision(true, Join(Reasons(hits)))
    else if defaultDeny then PolicyDecision(false, "No matching policy - default deny")
    else PolicyDecision(true, "No matching policy - default allow")
  }

  /** What the engine decides, as one filter over the flattened rules. */
  function Decide(policies: seq<Policy>, defaultDeny: bool, ctx: PolicyContext, greater: Greater): PolicyDecision {
    Verdict(Hits(Flat(policies), ctx, greater), defaultDeny)
  }

  lemma HitsJoin(a: seq<Named>, b: seq<Named>, ctx: PolicyContext, greater: Greater)
    ensures Hits(a + b, ctx, greater) == Hits(a, ctx, greater) + Hits(b, ctx, greater)
    decreases |b|
  {
    if b == [] {
      assert a + b == a;
    } else {
      assert (a + b)[..|a + b| - 1] == a + b[..|b| - 1];
      HitsJoin(a, b[..|b| - 1], ctx, greater);
    }
  }

  lemma HasPushed(hits: seq<Named>, n: Named)
    ensures Has(hits + [n], Allow) <==> Has(hits, Allow) || n.rule.effect == Allow
    ensures Has(hits + [n], Deny) <==> Has(hits, Deny) || n.rule.effect == Deny
    ensures Reasons(hits + [n]) == Reasons(hits) + [Reason(n)]
  {
    assert (hits + [n])[|hits|] == n;
    assert forall i :: 0 <= i < |hits| ==> (hits + [n])[i] == hits[i];
  }

  /** The flags and reasons of the loop say what the rules seen so far say. */
  predicate Tally(
      seen: seq<Named>, ctx: PolicyContext, greater: Greater, allow: bool, deny: bool, reasons: seq<string>) {
    var hits := Hits(seen, ctx, greater);
    allow == Has(hits, Allow) && deny == Has(hits, Deny) && reasons == Reasons(hits)
  }

  /** One more rule counts if it applies, and only then. */
  lemma TallyGoesOn(
      seen: seq<Named>, n: Named, ctx: PolicyContext, greater: Greater, allow: bool, deny: bool, reasons: seq<string>)
    requires Tally(seen, ctx, greater, allow, deny, reasons)
    ensures var applies := Applies(n.rule, ctx, greater);
            if applies then
              Tally(seen + [n], ctx, greater, allow || n.rule.effect == Allow, deny || n.rule.effect == Deny,
                    reasons + [Reason(n)])
            else Tally(seen + [n], ctx, greater, allow, deny, reasons)
  {
    var hits := Hits(seen, ctx, greater);
    assert (seen + [n])[..|seen|] == seen && (seen + [n])[|seen|] == n;
    assert Hits(seen + [n], ctx, greater) == if Applies(n.rule, ctx, greater) then hits + [n] else hits + [];
    assert hits + [] == hits;
    HasPushed(hits, n);
  }

  // ---- The decision in plain terms -----------------------------------------------------

  /** A pattern that ends in a star fits what starts with the text before the star; any pattern fits itself. */
  ghost predicate Fits(pattern: string, resource: string) {
    pattern == resource || exists prefix: string :: pattern == prefix + "*" && prefix <= resource
  }

  /** The attribute is there and its value stands in the wanted relation to the condition's. */
  ghost predicate Met(c: Condition, attributes: map<string, string>, greater: Greater) {
    c.attribute in attributes &&
    var v := attributes[c.attribute];
    (c.operator == Equals ==> v == c.value) && (c.operator == NotEquals ==> v != c.value)
    && (c.operator == Contains ==> exists a: string, b: string :: v == a + c.value + b)
    && (c.operator == GreaterThan ==> greater(v, c.value)) && (c.operator == LessThan ==> greater(c.value, v))
  }

  ghost predicate CallsFor(r: PolicyRule, ctx: PolicyContext, greater: Greater) {
    && ctx.action in r.actions && Fits(r.pattern, ctx.resource)
    && forall c :: c in r.conditions ==> Met(c, ctx.attributes, greater)
  }

  /** Some rule to this effect lists the action, has a fitting pattern, and has all its conditions met. */
  ghost predicate Calls(policies: seq<Policy>, effect: Effect, ctx: PolicyContext, greater: Greater) {
    exists p, r :: p in policies && r in p.rules && r.effect == effect && CallsFor(r, ctx, greater)
  }

  lemma MatchesInFull(pattern: string, resource: string)
    ensures Matches(pattern, resource) <==> Fits(pattern, resource)
  {
    if EndsInStar(pattern) {
      assert pattern == Stem(pattern) + "*";
      if pattern == "*" { assert Stem(pattern) == ""; }
      forall prefix: string | pattern == prefix + "*"
        ensures prefix == Stem(pattern)
      {
      }
      if pattern == resource { assert Stem(pattern) <= resource; }
    } else if exists prefix: string :: pattern == prefix + "*" && prefix <= resource {
      var prefix: string :| pattern == prefix + "*" && prefix <= resource;
      assert pattern[|pattern| - 1] == '*';
    }
  }

  lemma ContainsInFull(text: string, part: string)
    ensures HasSubstring(text, part) <==> exists a: string, b: string :: text == a + part + b
  {
    if HasSubstring(text, part) {
      var i :| 0 <= i <= |text| && part <= text[i..];
      assert text == text[..i] + part + text[i + |part|..];
    }
    if a: string, b: string :| text == a + part + b {
      assert text[|a|..] == part + b;
    }
  }

  lemma HoldsInFull(c: Condition, attributes: map<string, string>, greater: Greater)
    ensures Holds(c, attributes, greater) <==> Met(c, attributes, greater)
  {
    if c.attribute in attributes { ContainsInFull(attributes[c.attribute], c.value); }
  }

  lemma AppliesInFull(r: PolicyRule, ctx: PolicyContext, greater: Greater)
    ensures Applies(r, ctx, greater) <==> CallsFor(r, ctx, greater)
  {
    MatchesInFull(r.pattern, ctx.resource);
    forall c | c in r.conditions
      ensures Holds(c, ctx.attributes, greater) <==> Met(c, ctx.attributes, greater)
    {
      HoldsInFull(c, ctx.attributes, greater);
    }
  }

  lemma {:induction false} HitsAreApplying(rules: seq<Named>, ctx: PolicyContext, greater: Greater, n: Named)
    ensures n in Hits(rules, ctx, greater) <==> n in rules && Applies(n.rule, ctx, greater)
    decreases |rules|
  {
    if rules != [] {
      HitsAreApplying(rules[..|rules| - 1], ctx, greater, n);
      assert rules == rules[..|rules| - 1] + [rules[|rules| - 1]];
    }
  }

  lemma NamedHasRules(name: string, rules: seq<PolicyRule>, n: Named)
    ensures n in NamedRules(name, rules) <==> n.policy == name && n.rule in rules
  {
    var named := NamedRules(name, rules);
    if n.policy == name && n.rule in rules {
      var i :| 0 <= i < |rules| && rules[i] == n.rule;
      assert named[i] == n;
    }
  }

  lemma {:induction false} FlatHasRules(policies: seq<Policy>, n: Named)
    ensures n in Flat(policies) <==> exists p :: p in policies && p.name == n.policy && n.rule in p.rules
    decreases |policies|
  {
    if policies != [] {
      var rest, last := policies[..|policies| - 1], policies[|policies| - 1];
      FlatHasRules(rest, n);
      assert policies == rest + [last];
      NamedHasRules(last.name, last.rules, n);
      assert n in Flat(policies) <==> n in Flat(rest) || n in NamedRules(last.name, last.rules);
    }
  }

  lemma HasIsCall(policies: seq<Policy>, ctx: PolicyContext, greater: Greater, effect: Effect)
    ensures Has(Hits(Flat(policies), ctx, greater), effect) <==> Calls(policies, effect, ctx, greater)
  {
    var hits := Hits(Flat(policies), ctx, greater);
    if Has(hits, effect) {
      var i :| 0 <= i < |hits| && hits[i].rule.effect == effect;
      HitsAreApplying(Flat(policies), ctx, greater, hits[i]);
      FlatHasRules(policies, hits[i]);
      AppliesInFull(hits[i].rule, ctx, greater);
    }
    if Calls(policies, effect, ctx, greater) {
      var p, r :| p in policies && r in p.rules && r.effect == effect && CallsFor(r, ctx, greater);
      var n := Named(p.name, r);
      FlatHasRules(policies, n);
      AppliesInFull(r, ctx, greater);
      HitsAreApplying(Flat(policies), ctx, greater, n);
      assert n in hits;
    }
  }

  /** Allowed iff nothing calls for a denial, and something for an allowance or the default is permissive. */
  lemma DecisionInFull(policies: seq<Policy>, defaultDeny: bool, ctx: PolicyContext, greater: Greater)
    ensures Decide(policies, defaultDeny, ctx, greater).allowed
       <==> !Calls(policies, Deny, ctx, greater) && (Calls(policies, Allow, ctx, greater) || !defaultDeny)
  {
    HasIsCall(policies, ctx, greater, Deny);
    HasIsCall(policies, ctx, greater, Allow);
  }

  class PolicyEngine {
    var policies: seq<Policy>
    const defaultDeny: bool
    const greater: Greater

    constructor (defaultDeny: bool, greater: Greater)
      ensures policies == [] && this.defaultDeny == defaultDeny && this.greater == greater
    {
      this.policies := [];
      this.defaultDeny := defaultDeny;
      this.greater := greater;
    }

    method AddPolicy(policy: Policy)
      modifies this`policies
      ensures policies == old(policies) + [policy]
      ensures Flat(policies) == Flat(old(policies)) + NamedRules(policy.name, policy.rules)
    {
      policies := policies + [policy];
      assert policies[..|policies| - 1] == old(policies);
    }

    method EvaluateConditions(conditions: seq<Condition>, attributes: map<string, string>) returns (ok: bool)
      ensures ok <==> forall c :: c in conditions ==> Holds(c, attributes, greater)
      ensures ok <==> forall c :: c in conditions ==> Met(c, attributes, greater)
    {
      forall c
        ensures Holds(c, attributes, greater) <==> Met(c, attributes, greater)
      {
        HoldsInFull(c, attributes, greater);
      }
      for i := 0 to |conditions|
        invariant forall j :: 0 <= j < i ==> Holds(conditions[j], attributes, greater)
      {
        var c := conditions[i];
        assert c in conditions;
        if c.attribute in attributes {
          var matches := Compare(c.operator, attributes[c.attribute], c.value, greater);
          if !matches {
            return false;
          }
        } else {
          return false;
        }
      }
      ok := true;
    }

    /** The nested loop refines the filter: flags and reasons are those of the rules that apply, in order. */
    method CollectRules(ctx: PolicyContext) returns (allowFound: bool, denyFound: bool, reasons: seq<string>)
      ensures Tally(Flat(policies), ctx, greater, allowFound, denyFound, reasons)
    {
      allowFound, denyFound, reasons := false, false, [];
      for p := 0 to |policies|
        invariant Tally(Flat(policies[..p]), ctx, greater, allowFound, denyFound, reasons)
      {
        var policy := policies[p];
        ghost var before, all := Flat(policies[..p]), NamedRules(policy.name, policy.rules);
        assert before + all[..0] == before;
        for i := 0 to |policy.rules|
          invariant Tally(before + all[..i], ctx, greater, allowFound, denyFound, reasons)
        {
          var rule := policy.rules[i];
          TallyGoesOn(before + all[..i], all[i], ctx, greater, allowFound, denyFound, reasons);
          assert before + all[..i + 1] == (before + all[..i]) + [all[i]];
          if Matches(rule.pattern, ctx.resource) && ctx.action in rule.actions {
            var met := EvaluateConditions(rule.conditions, ctx.attributes);
            if met {
              match rule.effect {
                case Allow =>
                  allowFound := true;
                  reasons := reasons + ["Allowed by policy: " + policy.name];
                case Deny =>
                  denyFound := true;
                  reasons := reasons + ["Denied by policy: " + policy.name];
              }
            }
          }
        }
        assert policies[..p + 1][..p] == policies[..p];
        assert before + all[..|policy.rules|] == Flat(policies[..p + 1]);
      }
      assert policies[..|policies|] == policies;
    }

    /** A denial overrides an allowance, and an allowance the default. */
    method Evaluate(ctx: PolicyContext) returns (d: PolicyDecision)
      ensures d == Decide(policies, defaultDeny, ctx, greater)
      ensures d.allowed
         <==> !Calls(policies, Deny, ctx, greater) && (Calls(policies, Allow, ctx, greater) || !defaultDeny)
    {
      var allowFound, denyFound, reasons := CollectRules(ctx);
      DecisionInFull(policies, defaultDeny, ctx, greater);
      if denyFound {
        return PolicyDecision(false, Join(reasons));
      }
      if allowFound {
        return PolicyDecision(true, Join(reasons));
      }
      if defaultDeny {
        d := PolicyDecision(false, "No matching policy - default deny");
      } else {
        d := PolicyDecision(true, "No matching policy - default allow");
      }
    }
  }
}
