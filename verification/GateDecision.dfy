/** The gate's decision told by the request, the session and the instant, without the gate's own helpers. */
module GateDecision {
  import opened Base
  import opened KeyValue
  import opened Gate
  import Policy
  import PolicyTheorems
  import Risk

  // ---- Policy --------------------------------------------------------------------------

  const CAPITALS: string := "ABCDEFGHIJKLMNOPQRSTUVWXYZ"
  const SMALLS: string := "abcdefghijklmnopqrstuvwxyz"

  /** `lower` is `text` with each capital replaced by its small letter. */
  predicate LowerOf(lower: string, text: string) {
    && |lower| == |text|
    && forall i | 0 <= i < |text| ::
         && (text[i] !in CAPITALS ==> lower[i] == text[i])
         && forall k | 0 <= k < 26 && CAPITALS[k] == text[i] :: lower[i] == SMALLS[k]
  }

  /** What the gate asks the policy engine: subject, path, action, no attributes. */
  function Asked(kind: Kind, action: string): Policy.PolicyContext
    requires kind.Authorize?
  {
    Policy.PolicyContext(userId := kind.claims.sub, resource := kind.path, action := action, attributes := map[])
  }

  /**
    For the small-letter method, no rule calls for a denial, and one calls for an allowance or the
    default is permissive.
  */
  ghost predicate PolicyAllows(cfg: Config, kind: Kind)
    requires kind.Authorize?
  {
    forall action | LowerOf(action, kind.httpMethod) ::
      var ctx := Asked(kind, action);
      && !Policy.Calls(cfg.policies, Policy.Deny, ctx, cfg.greater)
      && (Policy.Calls(cfg.policies, Policy.Allow, ctx, cfg.greater) || !cfg.defaultDeny)
  }

  lemma Alphabet()
    ensures forall k | 0 <= k < 26 :: CAPITALS[k] as int == 65 + k && SMALLS[k] as int == 97 + k
  {
    assert forall k | 0 <= k < 13 :: CAPITALS[k] as int == 65 + k && SMALLS[k] as int == 97 + k;
  }

  lemma LetterInFull(c: char)
    ensures c !in CAPITALS ==> LowerChar(c) == c
    ensures forall k | 0 <= k < 26 && CAPITALS[k] == c :: LowerChar(c) == SMALLS[k]
  {
    Alphabet();
    if 'A' <= c <= 'Z' { assert CAPITALS[c as int - 65] == c; }
  }

  /** Lower case is the one text that says so. */
  lemma LowerInFull(lower: string, text: string)
    ensures LowerOf(lower, text) <==> lower == LowerCase(text)
  {
    forall i | 0 <= i < |text|
      ensures text[i] !in CAPITALS ==> LowerCase(text)[i] == text[i]
      ensures forall k | 0 <= k < 26 && CAPITALS[k] == text[i] :: LowerCase(text)[i] == SMALLS[k]
    {
      LetterInFull(text[i]);
    }
    if LowerOf(lower, text) {
      forall i | 0 <= i < |text|
        ensures lower[i] == LowerCase(text)[i]
      {
        if text[i] in CAPITALS {
          var k :| 0 <= k < 26 && CAPITALS[k] == text[i];
          LetterInFull(text[i]);
        }
      }
    }
  }

  lemma VerdictInFull(cfg: Config, kind: Kind)
    requires kind.Authorize?
    ensures PolicyVerdict(cfg, kind).allowed <==> PolicyAllows(cfg, kind)
  {
    forall action
      ensures LowerOf(action, kind.httpMethod) <==> action == LowerCase(kind.httpMethod)
    {
      LowerInFull(action, kind.httpMethod);
    }
    Policy.DecisionInFull(cfg.policies, cfg.defaultDeny, Asked(kind, LowerCase(kind.httpMethod)), cfg.greater);
  }

  // ---- Risk ----------------------------------------------------------------------------

  /**
    The gate's score: 20 for the device that logged in and 60 for another, 15 from two to five in
    the morning (UTC), 20 for another address, and 15 or 30 once the session is 61 or 121 minutes
    old; 100 at most.
  */
  function Score(kind: Kind, x: Session, now: int): nat
    requires kind.Authorize?
  {
    var age := now - x.createdAt;
    var sum := (if kind.claims.deviceId == x.deviceId then 20 else 60)
               + (if 2 * HOUR <= now % DAY < 5 * HOUR then 15 else 0)
               + (if kind.ip == x.ipAddress then 0 else 20)
               + (if age < 61 * MINUTE then 0 else if age < 121 * MINUTE then 15 else 30);
    if sum > 100 then 100 else sum
  }

  lemma ScoreInFull(kind: Kind, x: Session, now: int)
    requires kind.Authorize?
    ensures GateScore(kind, x, now) == Score(kind, x, now)
  {
    var ctx := GateContext(kind, x, now);
    Risk.ScoreInFull(ctx, now);
    TruncInFull(now - x.createdAt, MINUTE);
  }

  /** What the gate answers on this score: an enforced MFA first, then the two thresholds. */
  function OutcomeAt(cfg: Config, score: nat, mfa: bool): Outcome {
    if cfg.requireMfa && !mfa then Refused(MfaRequired)
    else if score >= cfg.block then Refused(RiskThresholdExceeded(score))
    else if score >= cfg.stepUp && !mfa then Refused(MfaRequired)
    else Forwarded
  }

  lemma RiskInFull(cfg: Config, kind: Kind, x: Session, now: int)
    requires kind.Authorize?
    ensures RiskVerdict(cfg, kind, x, now) == OutcomeAt(cfg, Score(kind, x, now), x.mfaVerified)
  {
    ScoreInFull(kind, x, now);
  }

  // ---- The built-in engine -------------------------------------------------------------

  const COMMON: seq<string> := ["GET", "POST", "PUT", "PATCH", "DELETE", "HEAD", "OPTIONS"]

  predicate BuiltIn(cfg: Config) {
    cfg.policies == [PolicyTheorems.DEFAULT_POLICY]
  }

  lemma LowerMethods()
    ensures forall i | 0 <= i < 7 :: LowerCase(COMMON[i]) == PolicyTheorems.METHODS[i]
  {
    assert LowerCase("GET") == "get" && LowerCase("POST") == "post" && LowerCase("PUT") == "put";
    assert LowerCase("PATCH") == "patch" && LowerCase("DELETE") == "delete";
    assert LowerCase("HEAD") == "head" && LowerCase("OPTIONS") == "options";
  }

  /**
    The built-in engine lets every request with one of the seven methods through, whatever the
    case of its letters; any other method needs the permissive default.
  */
  lemma BuiltInAllows(cfg: Config, kind: Kind)
    requires kind.Authorize? && BuiltIn(cfg)
    ensures PolicyAllows(cfg, kind)
       <==> !cfg.defaultDeny
            || exists m | m in ["get", "post", "put", "patch", "delete", "head", "options"] ::
                 LowerOf(m, kind.httpMethod)
    ensures kind.httpMethod in COMMON ==> PolicyAllows(cfg, kind)
  {
    var action := LowerCase(kind.httpMethod);
    assert [PolicyTheorems.DEFAULT_POLICY] + [] == cfg.policies;
    PolicyTheorems.BuiltInWithDenies([], cfg.defaultDeny, Asked(kind, action), cfg.greater);
    VerdictInFull(cfg, kind);
    forall m | m in PolicyTheorems.METHODS
      ensures LowerOf(m, kind.httpMethod) <==> m == action
    {
      LowerInFull(m, kind.httpMethod);
    }
    LowerMethods();
  }
}
