/** The rate bound cannot be lowered: a run that reaches it, for every rule and every number of windows. */
module RateExact {
  import opened Base
  import opened KeyValue
  import opened RateLimit

  /** The commands of one undisturbed call; SetWindow is idle unless the call opened the window. */
  function Block(rid: nat, src: Source): seq<Label> {
    [Arrive(rid, src), Increment(rid), SetWindow(rid), Decide(rid)]
  }

  function Burst(rid: nat, calls: nat, src: Source): seq<Label> {
    if calls == 0 then [] else Burst(rid, calls - 1, src) + Block(rid + calls - 1, src)
  }

  /** `cycles` times: a full allowance at one instant, then a whole window, then the key lapses. */
  function Cycles(rid: nat, cycles: nat, src: Source, rule: Rule): seq<Label>
    decreases cycles
  {
    if cycles == 0 then []
    else
      var rest := Cycles(rid + rule.limit, cycles - 1, src, rule);
      Burst(rid, rule.limit, src) + ([Tick(Nanos(rule)), Evict(RateKey(src))] + rest)
  }

  /** Call ids from `rid` on are unused and the counter stands at `n`, to lapse at `due`. */
  ghost predicate Standing(s: State, src: Source, rid: nat, n: nat, due: int) {
    var key := RateKey(src);
    && (forall r :: r >= rid ==> r !in s.calls)
    && (n == 0 ==> key !in s.db)
    && (n > 0 ==> key in s.db && s.db[key] == Entry(Count(n), Some(due)) && s.clock <= due)
  }

  lemma {:induction false} RunJoins(rules: Rules, s: State, a: seq<Label>, b: seq<Label>)
    ensures Run(rules, s, a + b) == Run(rules, Run(rules, s, a), b)
    decreases |a|
  {
    if a == [] {
      assert a + b == b;
    } else {
      assert (a + b)[0] == a[0] && (a + b)[1..] == a[1..] + b;
      RunJoins(rules, Step(rules, s, a[0]), a[1..], b);
    }
  }

  lemma RunTwo(rules: Rules, s: State, a: Label, b: Label)
    ensures Run(rules, s, [a, b]) == Step(rules, Step(rules, s, a), b)
  {
    assert [a, b][1..] == [b] && [b][1..] == [];
    assert Run(rules, Step(rules, s, a), [b]) == Step(rules, Step(rules, s, a), b);
  }

  lemma RunOne(rules: Rules, s: State, a: Label)
    ensures Run(rules, s, [a]) == Step(rules, s, a)
  {
    assert [a][1..] == [];
  }

  /** The call arrives and counts. */
  lemma CallCounts(rules: Rules, s: State, src: Source, rid: nat, n: nat, due: int)
    requires src.bucket in rules && Standing(s, src, rid, n, due)
    ensures var key, entry := RateKey(src), Entry(Count(n + 1), if n == 0 then None else Some(due));
            var s' := Run(rules, s, [Arrive(rid, src), Increment(rid)]);
            && s'.clock == s.clock && s'.db == s.db[key := entry]
            && var stage := if n == 0 then Expiring else Deciding(n + 1);
               s'.calls == s.calls[rid := Call(src, stage, |Log(s, src)|, s.clock)]
  {
    RunTwo(rules, s, Arrive(rid, src), Increment(rid));
    var s1 := Step(rules, s, Arrive(rid, src));
    assert s1 == s.(calls := s.calls[rid := Call(src, Starting, 0, 0)]);
    assert s1.calls[rid := Call(src, if n == 0 then Expiring else Deciding(n + 1), |Log(s, src)|, s.clock)]
        == s.calls[rid := Call(src, if n == 0 then Expiring else Deciding(n + 1), |Log(s, src)|, s.clock)];
  }

  /** The call opens the window if it came first, and is let through. */
  lemma CallSettles(rules: Rules, s: State, src: Source, rid: nat, n: nat, index: nat, deadline: Option<int>)
    requires src.bucket in rules && n + 1 <= rules[src.bucket].limit && rules[src.bucket].window > 0
    requires rid in s.calls && s.calls[rid] == Call(src, if n == 0 then Expiring else Deciding(n + 1), index, s.clock)
    requires RateKey(src) in s.db && s.db[RateKey(src)] == Entry(Count(n + 1), deadline)
    requires n == 0 ==> deadline.None?
    ensures var s' := Run(rules, s, [SetWindow(rid), Decide(rid)]);
            && s'.clock == s.clock
            && RateKey(src) in s'.db
            && s'.db[RateKey(src)].value == Count(n + 1)
            && s'.db[RateKey(src)].deadline == (if n == 0 then Some(s.clock + Nanos(rules[src.bucket])) else deadline)
            && s'.calls == s.calls[rid := Call(src, Admitted, index, s.clock)]
  {
    RunTwo(rules, s, SetWindow(rid), Decide(rid));
    var s1 := Step(rules, s, SetWindow(rid));
    assert s1.calls == s.calls[rid := Call(src, Deciding(n + 1), index, s.clock)];
  }

  /** An undisturbed call within its allowance is admitted at once and moves the counter by one. */
  lemma CallAdmitted(rules: Rules, s: State, src: Source, rid: nat, n: nat, due: int)
    requires ValidRules(rules) && src.bucket in rules && n < rules[src.bucket].limit
    requires Standing(s, src, rid, n, due)
    ensures var s' := Run(rules, s, Block(rid, src));
            && s'.clock == s.clock
            && Standing(s', src, rid + 1, n + 1, if n == 0 then s.clock + Nanos(rules[src.bucket]) else due)
            && s'.calls == s.calls[rid := Call(src, Admitted, |Log(s, src)|, s.clock)]
  {
    assert Block(rid, src) == [Arrive(rid, src), Increment(rid)] + [SetWindow(rid), Decide(rid)];
    RunJoins(rules, s, [Arrive(rid, src), Increment(rid)], [SetWindow(rid), Decide(rid)]);
    CallCounts(rules, s, src, rid, n, due);
    var s2 := Run(rules, s, [Arrive(rid, src), Increment(rid)]);
    CallSettles(rules, s2, src, rid, n, |Log(s, src)|, if n == 0 then None else Some(due));
  }

  lemma OneCall(rules: Rules, s: State, src: Source, rid: nat, n: nat, due: int, from: int, until: int)
    requires ValidRules(rules) && src.bucket in rules && n < rules[src.bucket].limit
    requires Standing(s, src, rid, n, due)
    ensures var s' := Run(rules, s, Block(rid, src));
            && s'.clock == s.clock
            && Standing(s', src, rid + 1, n + 1, if n == 0 then s.clock + Nanos(rules[src.bucket]) else due)
            && (from <= s.clock < until ==> |AdmittedIn(s', src, from, until)| >= |AdmittedIn(s, src, from, until)| + 1)
            && |AdmittedIn(s', src, from, until)| >= |AdmittedIn(s, src, from, until)|
  {
    CallAdmitted(rules, s, src, rid, n, due);
    var s' := Run(rules, s, Block(rid, src));
    var before, after := AdmittedIn(s, src, from, until), AdmittedIn(s', src, from, until);
    assert before <= after && rid !in before;
    SubsetSize(before, after);
    if from <= s.clock < until {
      assert before + {rid} <= after;
      SubsetSize(before + {rid}, after);
    }
  }

  lemma BurstGoesOn(rules: Rules, s: State, src: Source, rid: nat, calls: nat)
    requires calls > 0
    ensures Run(rules, s, Burst(rid, calls, src))
         == Run(rules, Run(rules, s, Burst(rid, calls - 1, src)), Block(rid + calls - 1, src))
  {
    RunJoins(rules, s, Burst(rid, calls - 1, src), Block(rid + calls - 1, src));
  }

  /** Where the counter stands, and how many have got through, after some undisturbed calls. */
  ghost predicate AfterBurst(s: State, s': State, src: Source, rid: nat, n: nat, calls: nat, due: int, from: int,
      until: int) {
    && s'.clock == s.clock && Standing(s', src, rid + calls, n + calls, due)
    && |AdmittedIn(s', src, from, until)|
       >= |AdmittedIn(s, src, from, until)| + if from <= s.clock < until then calls else 0
  }

  /** One more undisturbed call after some others. */
  lemma BurstGrows(rules: Rules, s: State, mid: State, src: Source, rid: nat, n: nat, calls: nat, due: int,
      from: int, until: int)
    requires ValidRules(rules) && src.bucket in rules && 0 < n + calls < rules[src.bucket].limit
    requires AfterBurst(s, mid, src, rid, n, calls, due, from, until)
    ensures AfterBurst(s, Run(rules, mid, Block(rid + calls, src)), src, rid, n, calls + 1, due, from, until)
  {
    OneCall(rules, mid, src, rid + calls, n + calls, due, from, until);
  }

  lemma {:induction false} BurstAdmits(rules: Rules, s: State, src: Source, rid: nat, n: nat, calls: nat, due: int,
      from: int, until: int)
    requires ValidRules(rules) && src.bucket in rules && n + calls <= rules[src.bucket].limit && (n > 0 || calls > 0)
    requires Standing(s, src, rid, n, due)
    ensures var due' := if n == 0 then s.clock + Nanos(rules[src.bucket]) else due;
            AfterBurst(s, Run(rules, s, Burst(rid, calls, src)), src, rid, n, calls, due', from, until)
    decreases calls
  {
    if calls > 0 {
      BurstGoesOn(rules, s, src, rid, calls);
      if n + calls == 1 {
        OneCall(rules, s, src, rid, n, due, from, until);
      } else {
        var due' := if n == 0 then s.clock + Nanos(rules[src.bucket]) else due;
        BurstAdmits(rules, s, src, rid, n, calls - 1, due, from, until);
        BurstGrows(rules, s, Run(rules, s, Burst(rid, calls - 1, src)), src, rid, n, calls - 1, due', from, until);
      }
    }
  }

  /** After the rest of its window a counter can lapse. */
  lemma Lapses(rules: Rules, s: State, src: Source, rid: nat, n: nat, due: int, wait: nat)
    requires Standing(s, src, rid, n, due) && n > 0 && due == s.clock + wait
    ensures var s' := Run(rules, s, [Tick(wait), Evict(RateKey(src))]);
            s'.clock == due && Standing(s', src, rid, 0, due) && s'.calls == s.calls
  {
    RunTwo(rules, s, Tick(wait), Evict(RateKey(src)));
  }

  lemma {:induction false} CyclesAdmit(rules: Rules, s: State, src: Source, rid: nat, cycles: nat, due: int,
      from: int, until: int)
    requires ValidRules(rules) && src.bucket in rules && rules[src.bucket].limit > 0
    requires Standing(s, src, rid, 0, due) && from <= s.clock
    requires cycles > 0 ==> s.clock + (cycles - 1) * Nanos(rules[src.bucket]) < until
    ensures |AdmittedIn(Run(rules, s, Cycles(rid, cycles, src, rules[src.bucket])), src, from, until)|
         >= |AdmittedIn(s, src, from, until)| + cycles * rules[src.bucket].limit
    decreases cycles
  {
    var rule := rules[src.bucket];
    if cycles > 0 {
      var window := Nanos(rule);
      assert (cycles - 1) * window >= 0;
      var rest := Cycles(rid + rule.limit, cycles - 1, src, rule);
      var lapse := [Tick(window), Evict(RateKey(src))];
      RunJoins(rules, s, Burst(rid, rule.limit, src), lapse + rest);
      BurstAdmits(rules, s, src, rid, 0, rule.limit, due, from, until);
      var s1 := Run(rules, s, Burst(rid, rule.limit, src));
      RunJoins(rules, s1, lapse, rest);
      Lapses(rules, s1, src, rid + rule.limit, rule.limit, s.clock + window, window);
      var s2 := Run(rules, s1, lapse);
      assert AdmittedIn(s2, src, from, until) == AdmittedIn(s1, src, from, until);
      assert (cycles - 1) * window == (cycles - 2) * window + window;
      assert cycles * rule.limit == (cycles - 1) * rule.limit + rule.limit;
      CyclesAdmit(rules, s2, src, rid + rule.limit, cycles - 1, s.clock + window, from, until);
    }
  }

  /** One call opens the window, and the rest of its allowance comes a nanosecond before it lapses. */
  function Opening(src: Source, rule: Rule): seq<Label>
    requires rule.limit > 0 && rule.window > 0
  {
    (Block(0, src) + [Tick(Nanos(rule) - 1)]) + (Burst(1, rule.limit - 1, src) + [Tick(1), Evict(RateKey(src))])
  }

  lemma OpeningAdmits(rules: Rules, src: Source, until: int)
    requires ValidRules(rules) && src.bucket in rules && rules[src.bucket].limit > 0
    requires until >= Nanos(rules[src.bucket])
    ensures var rule := rules[src.bucket];
            var s' := Run(rules, Init(0), Opening(src, rule));
            && s'.clock == Nanos(rule) && Standing(s', src, rule.limit, 0, Nanos(rule))
            && |AdmittedIn(s', src, Nanos(rule) - 1, until)| >= rule.limit - 1
  {
    var rule, s0 := rules[src.bucket], Init(0);
    var window := Nanos(rule);
    var from := window - 1;
    var lapse := [Tick(1), Evict(RateKey(src))];
    var burst := Burst(1, rule.limit - 1, src);
    RunJoins(rules, s0, Block(0, src) + [Tick(window - 1)], burst + lapse);
    RunJoins(rules, s0, Block(0, src), [Tick(window - 1)]);
    OneCall(rules, s0, src, 0, 0, 0, from, until);
    var s1 := Run(rules, s0, Block(0, src));
    var s2 := Step(rules, s1, Tick(window - 1));
    RunOne(rules, s1, Tick(window - 1));
    assert Standing(s2, src, 1, 1, window);
    BurstAdmits(rules, s2, src, 1, 1, rule.limit - 1, window, from, until);
    var s3 := Run(rules, s2, burst);
    RunJoins(rules, s2, burst, lapse);
    Lapses(rules, s3, src, rule.limit, rule.limit, window, 1);
    assert AdmittedIn(Run(rules, s3, lapse), src, from, until) == AdmittedIn(s3, src, from, until);
  }

  /** The bound is reached: no smaller number bounds the calls admitted in `k` windows. */
  lemma BoundIsReached(rules: Rules, src: Source, k: nat)
    requires ValidRules(rules) && src.bucket in rules && rules[src.bucket].limit > 0 && k > 0
    ensures var rule := rules[src.bucket];
            var from, labels := Nanos(rule) - 1, Opening(src, rule) + Cycles(rule.limit, k, src, rule);
            |AdmittedIn(Run(rules, Init(0), labels), src, from, from + k * Nanos(rule))| == Ceiling(rule.limit, k)
  {
    var rule := rules[src.bucket];
    var window, limit := Nanos(rule), rule.limit;
    var from := window - 1;
    var until := from + k * window;
    var labels := Opening(src, rule) + Cycles(limit, k, src, rule);
    assert k * window == (k - 1) * window + window;
    assert (k - 1) * window >= 0;
    OpeningAdmits(rules, src, until);
    CyclesAdmit(rules, Run(rules, Init(0), Opening(src, rule)), src, limit, k, window, from, until);
    RunJoins(rules, Init(0), Opening(src, rule), Cycles(limit, k, src, rule));
    assert (k + 1) * limit == k * limit + limit;
    RateBound(rules, 0, labels, src, k, from);
  }

  // ---- A lost EXPIRE -------------------------------------------------------------------

  /** The call that opens the window is abandoned before its EXPIRE; `n` more calls count. */
  function Stranding(n: nat, src: Source): seq<Label> {
    if n == 0 then [Arrive(0, src), Increment(0), Abandon(0)]
    else Stranding(n - 1, src) + [Arrive(n, src), Increment(n)]
  }

  /** After call `n` the counter stands at `n + 1` without a deadline, and nobody is about to give it one. */
  ghost predicate StrandedAt(s: State, src: Source, n: nat) {
    && RateKey(src) in s.db && s.db[RateKey(src)] == Entry(Count(n + 1), None)
    && Log(s, src) != [] && Last(Log(s, src)).count == n + 1
    && (forall r :: r > n ==> r !in s.calls)
    && (forall r :: r in s.calls ==> !s.calls[r].stage.Expiring?)
  }

  lemma StrandedFirst(rules: Rules, clock: int, src: Source)
    requires src.bucket in rules
    ensures StrandedAt(Run(rules, Init(clock), Stranding(0, src)), src, 0)
  {
    RunThree(rules, Init(clock), Arrive(0, src), Increment(0), Abandon(0));
  }

  lemma StrandedNext(rules: Rules, s: State, src: Source, n: nat)
    requires src.bucket in rules && n > 0 && StrandedAt(s, src, n - 1)
    ensures StrandedAt(Run(rules, s, [Arrive(n, src), Increment(n)]), src, n)
  {
    RunTwo(rules, s, Arrive(n, src), Increment(n));
  }

  lemma {:induction false} Stranded(rules: Rules, clock: int, src: Source, n: nat)
    requires src.bucket in rules
    ensures StrandedAt(Run(rules, Init(clock), Stranding(n, src)), src, n)
  {
    if n == 0 {
      StrandedFirst(rules, clock, src);
    } else {
      Stranded(rules, clock, src, n - 1);
      RunJoins(rules, Init(clock), Stranding(n - 1, src), [Arrive(n, src), Increment(n)]);
      StrandedNext(rules, Run(rules, Init(clock), Stranding(n - 1, src)), src, n);
    }
  }

  /** The lost EXPIRE and the spent allowance do occur: one abandoned call, and enough calls after it. */
  lemma StuckIsReachable(rules: Rules, clock: int, src: Source)
    requires src.bucket in rules
    ensures var s := Run(rules, Init(clock), Stranding(rules[src.bucket].limit, src));
            Stuck(s, src) && Log(s, src) != [] && Last(Log(s, src)).count >= rules[src.bucket].limit
    ensures Stuck(Run(rules, Init(clock), [Arrive(0, src), Increment(0), Abandon(0)]), src)
  {
    Stranded(rules, clock, src, rules[src.bucket].limit);
    Stranded(rules, clock, src, 0);
  }

  // ---- One call that nobody interrupts -------------------------------------------------

  function StageOf(r: Result<(), ProxyError>): Stage {
    match r
    case Ok(_) => Admitted
    case Err(e) => if e.RateLimitExceeded? then Rejected else Lost
  }

  /** Arrival and INCR. */
  lemma CallBegins(rules: Rules, s: State, src: Source, rid: nat)
    requires src.bucket in rules && rid !in s.calls
    ensures var (db, reply) := Incr(s.db, s.clock, RateKey(src));
            var s' := Run(rules, s, [Arrive(rid, src), Increment(rid)]);
            && s'.clock == s.clock && s'.db == db && rid in s'.calls && s'.calls[rid].src == src
            && s'.calls[rid].stage == match reply
               case None => Lost
               case Some(count) => if count == 1 then Expiring else Deciding(count)
  {
    RunTwo(rules, s, Arrive(rid, src), Increment(rid));
  }

  /** EXPIRE if it is owed, and the verdict. */
  lemma CallEnds(rules: Rules, s: State, src: Source, rid: nat, count: int)
    requires src.bucket in rules && rid in s.calls && s.calls[rid].src == src
    requires s.calls[rid].stage == if count == 1 then Expiring else Deciding(count)
    ensures var s', rule := Run(rules, s, [SetWindow(rid), Decide(rid)]), rules[src.bucket];
            && s'.db == (if count == 1 then Expire(s.db, s.clock, RateKey(src), rule.window) else s.db)
            && rid in s'.calls && s'.calls[rid].stage == if count > rule.limit then Rejected else Admitted
  {
    RunTwo(rules, s, SetWindow(rid), Decide(rid));
  }

  lemma CallIsLost(rules: Rules, s: State, rid: nat)
    requires rid in s.calls && s.calls[rid].stage.Lost?
    ensures Run(rules, s, [SetWindow(rid), Decide(rid)]) == s
  {
    RunTwo(rules, s, SetWindow(rid), Decide(rid));
  }

  /** The commands of one call in a row do what `check_rate_limit` does in one go. */
  lemma UndisturbedCall(rules: Rules, s: State, src: Source, rid: nat)
    requires src.bucket in rules && rid !in s.calls
    ensures var s', rule := Run(rules, s, Block(rid, src)), rules[src.bucket];
            && s'.db == LimitState(s.db, s.clock, src, rule.window)
            && rid in s'.calls && s'.calls[rid].stage == StageOf(LimitResult(s.db, s.clock, src, rule.limit))
  {
    var first, last := [Arrive(rid, src), Increment(rid)], [SetWindow(rid), Decide(rid)];
    assert Block(rid, src) == first + last;
    RunJoins(rules, s, first, last);
    CallBegins(rules, s, src, rid);
    var s1 := Run(rules, s, first);
    match Incr(s.db, s.clock, RateKey(src)).1
    case None => CallIsLost(rules, s1, rid);
    case Some(count) => CallEnds(rules, s1, src, rid, count);
  }

  // ---- Locked out ----------------------------------------------------------------------

  lemma {:induction false} SomeUnused(used: set<nat>) returns (bound: nat)
    ensures forall r :: r in used ==> r < bound
    decreases |used|
  {
    if used == {} {
      bound := 0;
    } else {
      var r :| r in used;
      var rest := SomeUnused(used - {r});
      bound := Max(rest, r + 1);
      assert forall q :: q in used ==> q == r || q in used - {r};
    }
  }

  lemma LogsGrow(rules: Rules, s: State, l: Label, src: Source)
    ensures |Log(s, src)| <= |Log(Step(rules, s, l), src)|
  {
  }

  lemma {:induction false} LogsGrowOn(rules: Rules, s: State, labels: seq<Label>, src: Source)
    ensures |Log(s, src)| <= |Log(Run(rules, s, labels), src)|
    decreases |labels|
  {
    if labels != [] {
      LogsGrow(rules, s, labels[0], src);
      LogsGrowOn(rules, Step(rules, s, labels[0]), labels[1..], src);
    }
  }

  /** The call is this source's, was let through, and counted after this many others. */
  predicate LetIn(s: State, rid: nat, src: Source, after: nat) {
    rid in s.calls && s.calls[rid].src == src && s.calls[rid].stage.Admitted? && s.calls[rid].index >= after
  }

  /** No call of this source that has not counted yet is ever let through, in any continuation. */
  ghost predicate NeverAgain(rules: Rules, s: State, src: Source) {
    forall labels, rid :: !LetIn(Run(rules, s, labels), rid, src, |Log(s, src)|)
  }

  /** The counter stands at the limit or above. */
  predicate Spent(db: Db, src: Source, limit: nat) {
    RateKey(src) in db && db[RateKey(src)].value.Count? && db[RateKey(src)].value.n >= limit
  }

  lemma CountedCall(rules: Rules, s: State, src: Source, rid: nat)
    requires src.bucket in rules && rid !in s.calls && Incr(s.db, s.clock, RateKey(src)).1.Some?
    ensures var s1 := Run(rules, s, [Arrive(rid, src), Increment(rid)]);
            rid in s1.calls && s1.calls[rid].index == |Log(s, src)|
  {
    RunTwo(rules, s, Arrive(rid, src), Increment(rid));
  }

  lemma IndexStays(rules: Rules, s: State, rid: nat)
    requires rid in s.calls
    ensures var s' := Run(rules, s, [SetWindow(rid), Decide(rid)]);
            rid in s'.calls && s'.calls[rid].index == s.calls[rid].index && s'.calls[rid].src == s.calls[rid].src
  {
    RunTwo(rules, s, SetWindow(rid), Decide(rid));
  }

  /** A call that the serial limiter would let through is let through by the machine, undisturbed. */
  lemma NextIsLetIn(rules: Rules, s: State, src: Source, rid: nat)
    requires src.bucket in rules && rid !in s.calls && LimitResult(s.db, s.clock, src, rules[src.bucket].limit).Ok?
    ensures LetIn(Run(rules, s, Block(rid, src)), rid, src, |Log(s, src)|)
  {
    var first, last := [Arrive(rid, src), Increment(rid)], [SetWindow(rid), Decide(rid)];
    assert Block(rid, src) == first + last;
    RunJoins(rules, s, first, last);
    UndisturbedCall(rules, s, src, rid);
    CallBegins(rules, s, src, rid);
    CountedCall(rules, s, src, rid);
    IndexStays(rules, Run(rules, s, first), rid);
  }

  /** If the serial limiter would let a call through after some run, the source is not locked out. */
  lemma NotLockedOut(rules: Rules, s: State, labels: seq<Label>, src: Source)
    requires src.bucket in rules
    requires var s1 := Run(rules, s, labels); LimitResult(s1.db, s1.clock, src, rules[src.bucket].limit).Ok?
    ensures !NeverAgain(rules, s, src)
  {
    var s1 := Run(rules, s, labels);
    var rid := SomeUnused(s1.calls.Keys);
    NextIsLetIn(rules, s1, src, rid);
    LogsGrowOn(rules, s, labels, src);
    RunJoins(rules, s, labels, Block(rid, src));
    assert LetIn(Run(rules, s, labels + Block(rid, src)), rid, src, |Log(s, src)|);
  }

  /** A counter with a deadline can lapse. */
  lemma DeadlinePasses(rules: Rules, s: State, src: Source)
    requires RateKey(src) in s.db && s.db[RateKey(src)].deadline.Some?
    ensures exists labels :: RateKey(src) !in Run(rules, s, labels).db
  {
    var wait := Max(s.db[RateKey(src)].deadline.value - s.clock, 0);
    RunTwo(rules, s, Tick(wait), Evict(RateKey(src)));
    assert RateKey(src) !in Run(rules, s, [Tick(wait), Evict(RateKey(src))]).db;
  }

  lemma StuckAndSpent(rules: Rules, s: State, src: Source)
    requires ValidRules(rules) && Inv(rules, s) && src.bucket in rules
    requires Stuck(s, src) && Spent(s.db, src, rules[src.bucket].limit)
    ensures NeverAgain(rules, s, src)
  {
    assert SourceOk(rules, s, src);
    forall labels, rid
      ensures !LetIn(Run(rules, s, labels), rid, src, |Log(s, src)|)
    {
      LockedOut(rules, s, labels, src, rid);
    }
  }

  lemma LimitOfZero(rules: Rules, s: State, src: Source)
    requires ValidRules(rules) && Inv(rules, s) && src.bucket in rules && rules[src.bucket].limit == 0
    ensures NeverAgain(rules, s, src)
  {
    forall labels, rid
      ensures !LetIn(Run(rules, s, labels), rid, src, |Log(s, src)|)
    {
      RunKeeps(rules, s, labels);
      var s' := Run(rules, s, labels);
      if rid in s'.calls && s'.calls[rid].src == src && s'.calls[rid].stage.Admitted? {
        assert CallOk(rules, s', rid) && SourceOk(rules, s', src);
        LastAfter(Log(s', src), Nanos(rules[src.bucket]), s'.calls[rid].index);
        assert false;
      }
    }
  }

  /** In every other state some run lets a call in: let the counter lapse if it can, then call. */
  lemma SomeoneIsLetIn(rules: Rules, s: State, src: Source)
    requires ValidRules(rules) && Inv(rules, s) && src.bucket in rules && rules[src.bucket].limit > 0
    requires !(Stuck(s, src) && Spent(s.db, src, rules[src.bucket].limit))
    ensures !NeverAgain(rules, s, src)
  {
    var key := RateKey(src);
    assert SourceOk(rules, s, src);
    if Stuck(s, src) || key !in s.db {
      NotLockedOut(rules, s, [], src);
    } else {
      if s.db[key].deadline.Some? { DeadlinePasses(rules, s, src); } else { CanLapseIffPending(rules, s, src); }
      var labels :| key !in Run(rules, s, labels).db;
      NotLockedOut(rules, s, labels, src);
    }
  }

  /**
    Exactly when a source is locked out for good: the limit is 0, or its counter has no deadline,
    nobody owes it one, and it stands at the limit.
  */
  lemma LockedOutIff(rules: Rules, clock: int, before: seq<Label>, src: Source)
    requires ValidRules(rules) && src.bucket in rules
    ensures var s, limit := Run(rules, Init(clock), before), rules[src.bucket].limit;
            NeverAgain(rules, s, src) <==> limit == 0 || (Stuck(s, src) && Spent(s.db, src, limit))
  {
    var s, limit := Run(rules, Init(clock), before), rules[src.bucket].limit;
    Reachable(rules, clock, before);
    if limit == 0 {
      LimitOfZero(rules, s, src);
    } else if Stuck(s, src) && Spent(s.db, src, limit) {
      StuckAndSpent(rules, s, src);
    } else {
      SomeoneIsLetIn(rules, s, src);
    }
  }
}
