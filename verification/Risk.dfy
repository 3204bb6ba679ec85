/** The risk engine of `src/risk/mod.rs`: a clamped sum of factor scores with a level and a recommendation. */
module Risk {
  import opened Base
  import opened Device

  /** `previousIp` and the other inputs of `RiskContext` that the engine reads. */
  datatype RiskContext = RiskContext(
    device: Device,
    ipAddress: string,
    timestamp: int,
    previousIp: Option<string>,
    sessionAgeMinutes: int,
    failedAttempts: nat)

  datatype Factor = DeviceTrust | FailedAttempts | UnusualTime | IpChange | SessionAge

  datatype RiskFactor = RiskFactor(name: Factor, score: nat)

  datatype RiskLevel = Low | Medium | High | Critical

  datatype Recommendation = Allow | StepUpAuth | Block

  datatype RiskScore = RiskScore(total: nat, factors: seq<RiskFactor>, level: RiskLevel, recommendation: Recommendation)

  function DaysSince(firstSeen: int, now: int): int {
    Trunc(now - firstSeen, DAY)
  }

  function DeviceRisk(d: Device, now: int): nat {
    var days := DaysSince(d.firstSeen, now);
    (if d.isTrusted then 0 else 25) + (if d.trustScore < 50 then 15 else 0)
    + if days < 1 then 20 else if days < 7 then 10 else 0
  }

  function AttemptsRisk(attempts: nat): nat {
    if 1 <= attempts <= 2 then 10 else if 3 <= attempts <= 5 then 25 else if 6 <= attempts <= 10 then 40 else 60
  }

  function HourOf(t: int): int {
    (t / HOUR) % 24
  }

  predicate Unusual(t: int) {
    2 <= HourOf(t) < 5
  }

  predicate IpChanged(ctx: RiskContext) {
    ctx.previousIp.Some? && ctx.previousIp.value != ctx.ipAddress
  }

  function AgeRisk(minutes: int): nat {
    if minutes > 120 then 30 else if minutes > 60 then 15 else 0
  }

  /** What each of the five inputs contributes, zero included, in the order the engine looks at them. */
  function Inputs(ctx: RiskContext, now: int): seq<RiskFactor> {
    [ RiskFactor(DeviceTrust, DeviceRisk(ctx.device, now)),
      RiskFactor(FailedAttempts, if ctx.failedAttempts > 0 then AttemptsRisk(ctx.failedAttempts) else 0),
      RiskFactor(UnusualTime, if Unusual(ctx.timestamp) then 15 else 0),
      RiskFactor(IpChange, if IpChanged(ctx) then 20 else 0),
      RiskFactor(SessionAge, AgeRisk(ctx.sessionAgeMinutes)) ]
  }

  function SumTo(factors: seq<RiskFactor>, n: nat): nat
    requires n <= |factors|
  {
    if n == 0 then 0 else SumTo(factors, n - 1) + factors[n - 1].score
  }

  function Sum(factors: seq<RiskFactor>): nat {
    SumTo(factors, |factors|)
  }

  /** A factor that scores nothing is not reported. */
  function Reported(factors: seq<RiskFactor>, n: nat): seq<RiskFactor>
    requires n <= |factors|
  {
    if n == 0 then [] else Reported(factors, n - 1) + if factors[n - 1].score > 0 then [factors[n - 1]] else []
  }

  function Factors(ctx: RiskContext, now: int): seq<RiskFactor> {
    Reported(Inputs(ctx, now), 5)
  }

  function Total(ctx: RiskContext, now: int): nat {
    Min(100, Sum(Inputs(ctx, now)))
  }

  function LevelOf(total: int): RiskLevel {
    if total <= 30 then Low else if total <= 60 then Medium else if total <= 85 then High else Critical
  }

  function Recommend(total: int, stepUp: int, block: int): Recommendation {
    if total >= block then Block else if total >= stepUp then StepUpAuth else Allow
  }

  lemma {:induction false} SumOfPrefix(a: seq<RiskFactor>, b: seq<RiskFactor>, n: nat)
    requires n <= |a| <= |b| && a <= b
    ensures SumTo(a, n) == SumTo(b, n)
  {
    if n > 0 { SumOfPrefix(a, b, n - 1); }
  }

  lemma {:induction false} ReportedSums(factors: seq<RiskFactor>, n: nat)
    requires n <= |factors|
    ensures Sum(Reported(factors, n)) == SumTo(factors, n)
  {
    if n > 0 {
      ReportedSums(factors, n - 1);
      SumOfPrefix(Reported(factors, n - 1), Reported(factors, n), |Reported(factors, n - 1)|);
    }
  }

  lemma SumOfFive(f: seq<RiskFactor>)
    requires |f| == 5
    ensures Sum(f) == f[0].score + f[1].score + f[2].score + f[3].score + f[4].score
  {
    assert SumTo(f, 1) == f[0].score;
    assert SumTo(f, 2) == SumTo(f, 1) + f[1].score;
    assert SumTo(f, 3) == SumTo(f, 2) + f[2].score;
    assert SumTo(f, 4) == SumTo(f, 3) + f[3].score;
  }

  /** The sum of the reported factors is the sum over all inputs, and never exceeds 185. */
  lemma SumOfFactors(ctx: RiskContext, now: int)
    ensures Sum(Factors(ctx, now)) == Sum(Inputs(ctx, now)) <= 185
  {
    ReportedSums(Inputs(ctx, now), 5);
    SumOfFive(Inputs(ctx, now));
    assert DeviceRisk(ctx.device, now) <= 60;
  }

  // ---- The scores in plain terms -------------------------------------------------------

  /**
    What the five inputs are worth, told by instants and not by the engine's own helpers: device,
    failed attempts, two to five in the morning (UTC), changed address, minutes of session age.
  */
  function Points(ctx: RiskContext, now: int): (nat, nat, nat, nat, nat) {
    var d, n := ctx.device, ctx.failedAttempts;
    ( (if d.isTrusted then 0 else 25) + (if d.trustScore < 50 then 15 else 0)
      + (if now < d.firstSeen + DAY then 20 else if now < d.firstSeen + 7 * DAY then 10 else 0),
      if n == 0 then 0 else if n <= 2 then 10 else if n <= 5 then 25 else if n <= 10 then 40 else 60,
      if 2 * HOUR <= ctx.timestamp % DAY < 5 * HOUR then 15 else 0,
      if ctx.previousIp == None || ctx.previousIp == Some(ctx.ipAddress) then 0 else 20,
      if ctx.sessionAgeMinutes <= 60 then 0 else if ctx.sessionAgeMinutes <= 120 then 15 else 30 )
  }

  function Nonzero(name: Factor, score: nat): seq<RiskFactor> {
    if score == 0 then [] else [RiskFactor(name, score)]
  }

  /** The hour by the clock is the time since midnight in whole hours. */
  lemma NightByInstant(t: int)
    ensures Unusual(t) <==> 2 * HOUR <= t % DAY < 5 * HOUR
  {
    var day, rest := t / DAY, t % DAY;
    assert t == day * 24 * HOUR + rest;
    assert t / HOUR == day * 24 + rest / HOUR;
    assert 0 <= rest / HOUR < 24;
  }

  lemma DeviceInFull(d: Device, now: int)
    ensures DeviceRisk(d, now)
         == (if d.isTrusted then 0 else 25) + (if d.trustScore < 50 then 15 else 0)
            + (if now < d.firstSeen + DAY then 20 else if now < d.firstSeen + 7 * DAY then 10 else 0)
  {
  }

  lemma InputsInFull(ctx: RiskContext, now: int)
    ensures var (device, attempts, night, address, age) := Points(ctx, now);
            Inputs(ctx, now) == [RiskFactor(DeviceTrust, device), RiskFactor(FailedAttempts, attempts),
                                 RiskFactor(UnusualTime, night), RiskFactor(IpChange, address),
                                 RiskFactor(SessionAge, age)]
  {
    DeviceInFull(ctx.device, now);
    NightByInstant(ctx.timestamp);
  }

  lemma ReportedFive(f: seq<RiskFactor>)
    requires |f| == 5
    ensures Reported(f, 5)
         == Nonzero(f[0].name, f[0].score) + Nonzero(f[1].name, f[1].score) + Nonzero(f[2].name, f[2].score)
            + Nonzero(f[3].name, f[3].score) + Nonzero(f[4].name, f[4].score)
  {
    assert Reported(f, 1) == Nonzero(f[0].name, f[0].score);
    assert Reported(f, 2) == Reported(f, 1) + Nonzero(f[1].name, f[1].score);
    assert Reported(f, 3) == Reported(f, 2) + Nonzero(f[2].name, f[2].score);
    assert Reported(f, 4) == Reported(f, 3) + Nonzero(f[3].name, f[3].score);
  }

  /** The total and the reported factors, from the instants and values of the context alone. */
  predicate AddsUp(total: int, factors: seq<RiskFactor>, ctx: RiskContext, now: int) {
    var (device, attempts, night, address, age) := Points(ctx, now);
    var sum := device + attempts + night + address + age;
    && total == (if sum < 100 then sum else 100)
    && factors == Nonzero(DeviceTrust, device) + Nonzero(FailedAttempts, attempts)
                  + Nonzero(UnusualTime, night) + Nonzero(IpChange, address) + Nonzero(SessionAge, age)
  }

  lemma ScoreInFull(ctx: RiskContext, now: int)
    ensures AddsUp(Total(ctx, now), Factors(ctx, now), ctx, now)
  {
    InputsInFull(ctx, now);
    SumOfFive(Inputs(ctx, now));
    ReportedFive(Inputs(ctx, now));
  }

  class RiskEngine {
    const stepUpThreshold: nat
    const blockThreshold: nat

    constructor (stepUp: nat, block: nat)
      ensures stepUpThreshold == stepUp && blockThreshold == block
    {
      stepUpThreshold := stepUp;
      blockThreshold := block;
    }

    method CalculateDeviceRisk(d: Device, now: int) returns (risk: nat)
      ensures risk == DeviceRisk(d, now) && risk <= 60
      ensures risk == (if d.isTrusted then 0 else 25) + (if d.trustScore < 50 then 15 else 0)
                      + (if now < d.firstSeen + DAY then 20 else if now < d.firstSeen + 7 * DAY then 10 else 0)
    {
      risk := 0;
      if !d.isTrusted {
        risk := risk + 25;
      }
      if d.trustScore < 50 {
        risk := risk + 15;
      }
      var days := DaysSince(d.firstSeen, now);
      if days < 1 {
        risk := risk + 20;
      } else if days < 7 {
        risk := risk + 10;
      }
    }

    /** The factors that score anything, and the running total before it is clamped. */
    method CollectFactors(ctx: RiskContext, now: int) returns (factors: seq<RiskFactor>, total: nat)
      ensures factors == Factors(ctx, now) && total == Sum(Inputs(ctx, now))
    {
      ghost var inputs := Inputs(ctx, now);
      factors, total := [], 0;
      var device := CalculateDeviceRisk(ctx.device, now);
      if device > 0 {
        factors, total := factors + [RiskFactor(DeviceTrust, device)], total + device;
      }
      assert factors == Reported(inputs, 1) && total == SumTo(inputs, 1);
      if ctx.failedAttempts > 0 {
        var attempts := AttemptsRisk(ctx.failedAttempts);
        factors, total := factors + [RiskFactor(FailedAttempts, attempts)], total + attempts;
      }
      assert factors == Reported(inputs, 2) && total == SumTo(inputs, 2);
      if Unusual(ctx.timestamp) {
        factors, total := factors + [RiskFactor(UnusualTime, 15)], total + 15;
      }
      assert factors == Reported(inputs, 3) && total == SumTo(inputs, 3);
      if IpChanged(ctx) {
        factors, total := factors + [RiskFactor(IpChange, 20)], total + 20;
      }
      assert factors == Reported(inputs, 4) && total == SumTo(inputs, 4);
      var age := AgeRisk(ctx.sessionAgeMinutes);
      if age > 0 {
        factors, total := factors + [RiskFactor(SessionAge, age)], total + age;
      }
      assert factors == Reported(inputs, 5) && total == SumTo(inputs, 5);
    }

    /** The running total is a `u32`: it never exceeds 185 before it is clamped. */
    method CalculateRisk(ctx: RiskContext, now: int) returns (r: RiskScore)
      ensures r.factors == Factors(ctx, now)
      ensures r.total == Total(ctx, now) == Min(100, Sum(r.factors)) && Sum(r.factors) <= 185
      ensures r.level == LevelOf(r.total)
      ensures r.recommendation == Recommend(r.total, stepUpThreshold, blockThreshold)
      ensures AddsUp(r.total, r.factors, ctx, now)
      ensures (r.level == Low <==> r.total <= 30) && (r.level == Medium <==> 31 <= r.total <= 60)
      ensures (r.level == High <==> 61 <= r.total <= 85) && (r.level == Critical <==> 86 <= r.total)
      ensures r.recommendation == Block <==> r.total >= blockThreshold
      ensures r.recommendation == StepUpAuth <==> stepUpThreshold <= r.total < blockThreshold
      ensures r.recommendation == Allow <==> r.total < stepUpThreshold && r.total < blockThreshold
    {
      var factors, total := CollectFactors(ctx, now);
      SumOfFactors(ctx, now);
      ScoreInFull(ctx, now);
      total := if total < 100 then total else 100;
      r := RiskScore(total, factors, LevelOf(total), Recommend(total, stepUpThreshold, blockThreshold));
    }
  }

  // ---- Meaning -------------------------------------------------------------------------

  /** `worse` is at least as risky as `ctx` in every input. */
  predicate Dominates(worse: RiskContext, ctx: RiskContext) {
    && (worse.device.isTrusted ==> ctx.device.isTrusted)
    && worse.device.trustScore <= ctx.device.trustScore
    && worse.device.firstSeen >= ctx.device.firstSeen
    && worse.failedAttempts >= ctx.failedAttempts
    && (Unusual(ctx.timestamp) ==> Unusual(worse.timestamp))
    && (IpChanged(ctx) ==> IpChanged(worse))
    && worse.sessionAgeMinutes >= ctx.sessionAgeMinutes
  }

  function LevelRank(l: RiskLevel): nat {
    match l case Low => 0 case Medium => 1 case High => 2 case Critical => 3
  }

  function RecommendationRank(r: Recommendation): nat {
    match r case Allow => 0 case StepUpAuth => 1 case Block => 2
  }

  lemma DaysMonotone(a: int, b: int)
    requires a <= b
    ensures Trunc(a, DAY) <= Trunc(b, DAY)
  {
  }

  lemma InputsMonotone(worse: RiskContext, ctx: RiskContext, now: int, i: nat)
    requires Dominates(worse, ctx) && i < 5
    ensures Inputs(worse, now)[i].score >= Inputs(ctx, now)[i].score
  {
    DaysMonotone(now - worse.device.firstSeen, now - ctx.device.firstSeen);
  }

  lemma SumMonotone(worse: RiskContext, ctx: RiskContext, now: int)
    requires Dominates(worse, ctx)
    ensures Sum(Inputs(worse, now)) >= Sum(Inputs(ctx, now))
  {
    SumOfFive(Inputs(worse, now));
    SumOfFive(Inputs(ctx, now));
    forall i: nat | i < 5
      ensures Inputs(worse, now)[i].score >= Inputs(ctx, now)[i].score
    {
      InputsMonotone(worse, ctx, now, i);
    }
  }

  lemma RanksMonotone(high: nat, low: nat, stepUp: nat, block: nat)
    requires high >= low
    ensures LevelRank(LevelOf(high)) >= LevelRank(LevelOf(low))
    ensures RecommendationRank(Recommend(high, stepUp, block)) >= RecommendationRank(Recommend(low, stepUp, block))
  {
  }

  /**
    A context that is worse in every input never scores lower, is never rated lower and is never
    treated more mildly.
  */
  lemma RiskIsMonotone(worse: RiskContext, ctx: RiskContext, now: int, stepUp: nat, block: nat)
    requires Dominates(worse, ctx)
    ensures Total(worse, now) >= Total(ctx, now)
    ensures LevelRank(LevelOf(Total(worse, now))) >= LevelRank(LevelOf(Total(ctx, now)))
    ensures RecommendationRank(Recommend(Total(worse, now), stepUp, block))
         >= RecommendationRank(Recommend(Total(ctx, now), stepUp, block))
  {
    var high, low := Total(worse, now), Total(ctx, now);
    assert high >= low by { SumMonotone(worse, ctx, now); }
    RanksMonotone(high, low, stepUp, block);
  }

  /** The bound of 185 on the unclamped sum is reached. */
  lemma WorstContext()
    ensures Sum(Factors(RiskContext(Device(0, false, 0), "b", 2 * HOUR, Some("a"), 121, 11), 0)) == 185
  {
    var ctx := RiskContext(Device(0, false, 0), "b", 2 * HOUR, Some("a"), 121, 11);
    SumOfFactors(ctx, 0);
    SumOfFive(Inputs(ctx, 0));
    assert HourOf(ctx.timestamp) == 2;
    assert "b"[0] != "a"[0];
  }
}
