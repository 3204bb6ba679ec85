/**
  The fixed-window limiter `check_rate_limit` as a machine in which INCR and EXPIRE are
  separate commands of concurrent calls, time passes between any two of them, lapsed keys
  vanish at any moment after their deadline, session keys change freely, and a call can be
  abandoned anywhere, so that an EXPIRE may never be sent.
*/
module RateLimit {
  import opened Base
  import opened KeyValue

  /** `limit` calls per `window` seconds; every call site of a bucket passes the same rule. */
  datatype Rule = Rule(limit: nat, window: nat)

  datatype Stage = Starting | Expiring | Deciding(count: int) | Admitted | Rejected | Lost

  /**
    A call in flight or finished; `index` and `at` are the place of its INCR in the log of its
    source and its instant.
  */
  datatype Call = Call(src: Source, stage: Stage, index: nat, at: int)

  /** History of one INCR: who, when, the reply, and the incarnation of the key with its first instant. */
  datatype Hit = Hit(rid: nat, time: int, count: int, round: nat, anchor: int)

  datatype State = State(clock: int, db: Db, calls: map<nat, Call>, logs: map<Source, seq<Hit>>)

  datatype Label =
    | Tick(elapsed: nat)
    | Evict(key: string)
    | SessionWrite(id: string, value: Value, seconds: nat)
    | SessionDelete(id: string)
    | Arrive(rid: nat, src: Source)
    | Increment(rid: nat)
    | SetWindow(rid: nat)
    | Decide(rid: nat)
    | Abandon(rid: nat)

  type Rules = map<string, Rule>

  /** Bucket names carry no colon (login, register, mfa_verify) and windows are positive. */
  predicate ValidRules(rules: Rules) {
    forall b :: b in rules ==> ':' !in b && rules[b].window > 0
  }

  function Log(s: State, src: Source): seq<Hit> {
    if src in s.logs then s.logs[src] else []
  }

  function Record(log: seq<Hit>, rid: nat, now: int, count: int): Hit {
    if count == 1 then Hit(rid, now, 1, if log == [] then 0 else Last(log).round + 1, now)
    else Hit(rid, now, count, if log == [] then 0 else Last(log).round, if log == [] then now else Last(log).anchor)
  }

  function IncrementStep(s: State, rid: nat): State
    requires rid in s.calls
  {
    var call := s.calls[rid];
    var (db, reply) := Incr(s.db, s.clock, RateKey(call.src));
    if reply.None? then s.(calls := s.calls[rid := call.(stage := Lost)])
    else
      var log := Log(s, call.src);
      var next := if reply.value == 1 then Expiring else Deciding(reply.value);
      s.(db := db,
         calls := s.calls[rid := Call(call.src, next, |log|, s.clock)],
         logs := s.logs[call.src := log + [Record(log, rid, s.clock, reply.value)]])
  }

  /** One command of one call, or a move of the environment; a label that is not enabled changes nothing. */
  function Step(rules: Rules, s: State, l: Label): State {
    match l
    case Tick(d) => s.(clock := s.clock + d)
    case Evict(key) =>
      if key in s.db && s.db[key].deadline.Some? && s.clock >= s.db[key].deadline.value
      then s.(db := Del(s.db, key)) else s
    case SessionWrite(id, value, seconds) =>
      if seconds > 0 then s.(db := SetEx(s.db, s.clock, SessionKey(id), value, seconds)) else s
    case SessionDelete(id) => s.(db := Del(s.db, SessionKey(id)))
    case Arrive(rid, src) =>
      if rid !in s.calls && src.bucket in rules then s.(calls := s.calls[rid := Call(src, Starting, 0, 0)]) else s
    case Increment(rid) =>
      if rid in s.calls && s.calls[rid].stage.Starting? then IncrementStep(s, rid) else s
    case SetWindow(rid) =>
      if rid in s.calls && s.calls[rid].stage.Expiring? && s.calls[rid].src.bucket in rules then
        var call := s.calls[rid];
        s.(db := Expire(s.db, s.clock, RateKey(call.src), rules[call.src.bucket].window),
           calls := s.calls[rid := call.(stage := Deciding(1))])
      else s
    case Decide(rid) =>
      if rid in s.calls && s.calls[rid].stage.Deciding? && s.calls[rid].src.bucket in rules then
        var call := s.calls[rid];
        var verdict := if call.stage.count > rules[call.src.bucket].limit then Rejected else Admitted;
        s.(calls := s.calls[rid := call.(stage := verdict)])
      else s
    case Abandon(rid) =>
      if rid in s.calls && !s.calls[rid].stage.Admitted? && !s.calls[rid].stage.Rejected?
      then s.(calls := s.calls[rid := s.calls[rid].(stage := Lost)]) else s
  }

  function Run(rules: Rules, s: State, labels: seq<Label>): State
    decreases |labels|
  {
    if labels == [] then s else Run(rules, Step(rules, s, labels[0]), labels[1..])
  }

  function Init(clock: int): State {
    State(clock, map[], map[], map[])
  }

  // ---- The invariant -------------------------------------------------------------------

  /** `h` was logged right after `g`: the same incarnation one higher, or a new one a full window later. */
  predicate Follows(g: Hit, h: Hit, window: int) {
    && g.time <= h.time
    && if h.round == g.round then h.count == g.count + 1 && h.anchor == g.anchor
       else h.round == g.round + 1 && h.count == 1 && h.anchor == h.time && g.anchor + window <= h.anchor
  }

  ghost predicate LogOk(log: seq<Hit>, window: int) {
    && (log != [] ==> log[0].count == 1 && log[0].anchor == log[0].time)
    && forall i :: 0 < i < |log| ==> Follows(log[i - 1], log[i], window)
  }

  function Nanos(rule: Rule): int {
    rule.window * SECOND
  }

  ghost predicate SourceOk(rules: Rules, s: State, src: Source)
    requires src.bucket in rules
  {
    var log, key, window := Log(s, src), RateKey(src), Nanos(rules[src.bucket]);
    && LogOk(log, window)
    && (log != [] ==> Last(log).time <= s.clock)
    && (key in s.db ==>
          && log != []
          && s.db[key].value == Count(Last(log).count)
          && (s.db[key].deadline.Some? ==> Last(log).anchor + window <= s.db[key].deadline.value))
    && (key !in s.db && log != [] ==> Last(log).anchor + window <= s.clock)
  }

  /** The EXPIRE a call still owes belongs to the current incarnation of its key, which has no deadline. */
  ghost predicate Owes(s: State, call: Call) {
    var log, key := Log(s, call.src), RateKey(call.src);
    && key in s.db && s.db[key].deadline.None?
    && call.index < |log| && log[call.index].count == 1 && log[call.index].round == Last(log).round
  }

  predicate Counted(stage: Stage) {
    stage.Expiring? || stage.Deciding? || stage.Admitted? || stage.Rejected?
  }

  ghost predicate CallOk(rules: Rules, s: State, rid: nat)
    requires rid in s.calls
  {
    var call := s.calls[rid];
    && call.src.bucket in rules
    && (call.stage.Expiring? ==> Owes(s, call))
    && (Counted(call.stage) ==>
          && call.index < |Log(s, call.src)|
          && var hit := Log(s, call.src)[call.index];
             && hit.rid == rid && hit.time == call.at
             && (call.stage.Deciding? ==> hit.count == call.stage.count)
             && (call.stage.Admitted? ==> hit.count <= rules[call.src.bucket].limit)
             && (call.stage.Rejected? ==> hit.count > rules[call.src.bucket].limit))
  }

  ghost predicate OnePending(s: State) {
    forall p, q | p in s.calls && q in s.calls && s.calls[p].stage.Expiring? && s.calls[q].stage.Expiring? ::
      s.calls[p].src == s.calls[q].src ==> p == q
  }

  ghost predicate Inv(rules: Rules, s: State) {
    && (forall src: Source :: src.bucket in rules ==> SourceOk(rules, s, src))
    && (forall rid :: rid in s.calls ==> CallOk(rules, s, rid))
    && OnePending(s)
  }

  /** No hit is earlier than the start of its own incarnation. */
  lemma {:induction false} LastAfter(log: seq<Hit>, window: int, i: nat)
    requires LogOk(log, window) && i < |log|
    ensures log[i].anchor <= log[i].time && log[i].count >= 1
    ensures log[i].count == 1 ==> log[i].anchor == log[i].time
  {
    if i > 0 {
      LastAfter(log, window, i - 1);
      assert Follows(log[i - 1], log[i], window);
    }
  }

  /** An INCR either continues the incarnation of its key or starts one a full window after the last. */
  lemma IncrementedSource(rules: Rules, s: State, rid: nat)
    requires ValidRules(rules) && rid in s.calls && s.calls[rid].src.bucket in rules
    requires SourceOk(rules, s, s.calls[rid].src)
    ensures SourceOk(rules, IncrementStep(s, rid), s.calls[rid].src)
    ensures Counted(IncrementStep(s, rid).calls[rid].stage)
    ensures IncrementStep(s, rid).calls[rid].stage.Expiring?
       <==> (RateKey(s.calls[rid].src) !in s.db || !Live(s.db[RateKey(s.calls[rid].src)], s.clock))
  {
    var src := s.calls[rid].src;
    var log, log' := Log(s, src), Log(IncrementStep(s, rid), src);
    var window := Nanos(rules[src.bucket]);
    if log != [] { LastAfter(log, window, |log| - 1); }
    forall i | 0 < i < |log'|
      ensures Follows(log'[i - 1], log'[i], window)
    {
      if i < |log| { assert Follows(log[i - 1], log[i], window); }
    }
  }

  lemma IncrementKeepsSource(rules: Rules, s: State, rid: nat, o: Source)
    requires ValidRules(rules) && Inv(rules, s) && rid in s.calls && s.calls[rid].stage.Starting? && o.bucket in rules
    ensures SourceOk(rules, IncrementStep(s, rid), o)
  {
    var src := s.calls[rid].src;
    assert CallOk(rules, s, rid) && SourceOk(rules, s, o);
    if o == src {
      IncrementedSource(rules, s, rid);
    } else if RateKey(o) == RateKey(src) {
      RateKeyInjective(o, src);
    }
  }

  lemma IncrementKeepsCall(rules: Rules, s: State, rid: nat, r: nat)
    requires ValidRules(rules) && Inv(rules, s) && rid in s.calls && s.calls[rid].stage.Starting? && r in s.calls
    ensures CallOk(rules, IncrementStep(s, rid), r)
  {
    var src := s.calls[rid].src;
    assert CallOk(rules, s, rid) && CallOk(rules, s, r) && SourceOk(rules, s, src);
    IncrementedSource(rules, s, rid);
    if s.calls[r].src != src && RateKey(s.calls[r].src) == RateKey(src) { RateKeyInjective(s.calls[r].src, src); }
  }

  lemma IncrementKeeps(rules: Rules, s: State, rid: nat)
    requires ValidRules(rules) && Inv(rules, s) && rid in s.calls && s.calls[rid].stage.Starting?
    ensures Inv(rules, IncrementStep(s, rid))
  {
    var src := s.calls[rid].src;
    var s' := IncrementStep(s, rid);
    assert CallOk(rules, s, rid) && SourceOk(rules, s, src);
    IncrementedSource(rules, s, rid);
    forall o: Source | o.bucket in rules
      ensures SourceOk(rules, s', o)
    {
      IncrementKeepsSource(rules, s, rid, o);
    }
    forall r | r in s'.calls
      ensures CallOk(rules, s', r)
    {
      IncrementKeepsCall(rules, s, rid, r);
    }
    forall p, q | p in s'.calls && q in s'.calls && s'.calls[p].stage.Expiring? && s'.calls[q].stage.Expiring?
                  && s'.calls[p].src == s'.calls[q].src
      ensures p == q
    {
      if p != rid { assert CallOk(rules, s, p); }
      if q != rid { assert CallOk(rules, s, q); }
    }
  }

  lemma SetWindowKeeps(rules: Rules, s: State, rid: nat)
    requires ValidRules(rules) && Inv(rules, s) && rid in s.calls && s.calls[rid].stage.Expiring?
    ensures Inv(rules, Step(rules, s, SetWindow(rid)))
  {
    var src := s.calls[rid].src;
    var s' := Step(rules, s, SetWindow(rid));
    assert SourceOk(rules, s, src) && CallOk(rules, s, rid);
    LastAfter(Log(s, src), Nanos(rules[src.bucket]), |Log(s, src)| - 1);
    forall o: Source | o.bucket in rules
      ensures SourceOk(rules, s', o)
    {
      assert SourceOk(rules, s, o);
      if o != src && RateKey(o) == RateKey(src) { RateKeyInjective(o, src); }
    }
    forall r | r in s'.calls
      ensures CallOk(rules, s', r)
    {
      assert CallOk(rules, s, r);
      if s.calls[r].src != src && RateKey(s.calls[r].src) == RateKey(src) { RateKeyInjective(s.calls[r].src, src); }
    }
  }

  /** Commands on keys that are not counters, and evictions, keep the invariant. */
  lemma KeyspaceKeeps(rules: Rules, s: State, l: Label)
    requires ValidRules(rules) && Inv(rules, s) && (l.Evict? || l.SessionWrite? || l.SessionDelete?)
    ensures Inv(rules, Step(rules, s, l))
  {
    var s' := Step(rules, s, l);
    forall o: Source | o.bucket in rules
      ensures SourceOk(rules, s', o)
    {
      assert SourceOk(rules, s, o);
      if !l.Evict? { KeysDisjoint(l.id, o); }
    }
    forall r | r in s'.calls
      ensures CallOk(rules, s', r)
    {
      assert CallOk(rules, s, r);
      if !l.Evict? { KeysDisjoint(l.id, s.calls[r].src); }
    }
  }

  /** A move that touches no key and settles at most the call `rid` keeps the invariant. */
  lemma LocalKeeps(rules: Rules, s: State, s': State, rid: nat, call: Call)
    requires Inv(rules, s)
    requires s' == s.(clock := s'.clock, calls := s'.calls) && s.clock <= s'.clock
    requires s'.calls != s.calls ==> s'.calls == s.calls[rid := call] && CallOk(rules, s', rid) && !call.stage.Expiring?
    ensures Inv(rules, s')
  {
    forall o: Source | o.bucket in rules
      ensures SourceOk(rules, s', o)
    {
      assert SourceOk(rules, s, o);
    }
    forall r | r in s'.calls
      ensures CallOk(rules, s', r)
    {
      if s'.calls == s.calls || r != rid { assert CallOk(rules, s, r); }
    }
  }

  lemma StepKeeps(rules: Rules, s: State, l: Label)
    requires ValidRules(rules) && Inv(rules, s)
    ensures Inv(rules, Step(rules, s, l))
  {
    match l
    case Evict(_) => KeyspaceKeeps(rules, s, l);
    case SessionWrite(_, _, _) => KeyspaceKeeps(rules, s, l);
    case SessionDelete(_) => KeyspaceKeeps(rules, s, l);
    case Increment(rid) =>
      if rid in s.calls && s.calls[rid].stage.Starting? { IncrementKeeps(rules, s, rid); }
    case SetWindow(rid) =>
      if rid in s.calls && s.calls[rid].stage.Expiring? { SetWindowKeeps(rules, s, rid); }
    case Tick(_) => LocalKeeps(rules, s, Step(rules, s, l), 0, Call(Source("", ""), Lost, 0, 0));
    case Arrive(rid, src) => LocalKeeps(rules, s, Step(rules, s, l), rid, Call(src, Starting, 0, 0));
    case Decide(rid) =>
      if rid in s.calls && s.calls[rid].stage.Deciding? {
        assert CallOk(rules, s, rid);
        LocalKeeps(rules, s, Step(rules, s, l), rid, Step(rules, s, l).calls[rid]);
      }
    case Abandon(rid) =>
      if rid in s.calls {
        assert CallOk(rules, s, rid);
        LocalKeeps(rules, s, Step(rules, s, l), rid, Step(rules, s, l).calls[rid]);
      }
  }

  lemma {:induction false} RunKeeps(rules: Rules, s: State, labels: seq<Label>)
    requires ValidRules(rules) && Inv(rules, s)
    ensures Inv(rules, Run(rules, s, labels))
    decreases |labels|
  {
    if labels != [] {
      StepKeeps(rules, s, labels[0]);
      RunKeeps(rules, Step(rules, s, labels[0]), labels[1..]);
    }
  }

  /** The window invariant in every reachable state. */
  lemma Reachable(rules: Rules, clock: int, labels: seq<Label>)
    requires ValidRules(rules)
    ensures Inv(rules, Run(rules, Init(clock), labels))
  {
    RunKeeps(rules, Init(clock), labels);
  }

  /** The hits sharing the incarnation of hit `i`, up to it, are the `count` latest ones. */
  lemma {:induction false} RoundIsSuffix(log: seq<Hit>, window: int, i: nat, j: nat)
    requires LogOk(log, window) && j <= i < |log|
    ensures log[j].round == log[i].round <==> i - j < log[i].count
    ensures log[j].round <= log[i].round
    decreases i
  {
    LastAfter(log, window, i);
    if j < i {
      RoundIsSuffix(log, window, i - 1, j);
      assert Follows(log[i - 1], log[i], window);
    }
  }

  // ---- The rate bound ------------------------------------------------------------------

  predicate Passing(h: Hit, limit: nat, from: int, until: int) {
    from <= h.time < until && h.count <= limit
  }

  /** The calls among the first `n` hits whose INCR fell in the interval and within the limit. */
  function Passed(log: seq<Hit>, n: nat, limit: nat, from: int, until: int): set<nat>
    requires n <= |log|
  {
    if n == 0 then {}
    else
      Passed(log, n - 1, limit, from, until)
      + if Passing(log[n - 1], limit, from, until) then {log[n - 1].rid} else {}
  }

  lemma {:induction false} PassedHas(log: seq<Hit>, n: nat, limit: nat, from: int, until: int, i: nat)
    requires i < n <= |log| && Passing(log[i], limit, from, until)
    ensures log[i].rid in Passed(log, n, limit, from, until)
  {
    if i < n - 1 { PassedHas(log, n - 1, limit, from, until, i); }
  }

  lemma {:induction false} PassedNone(log: seq<Hit>, n: nat, limit: nat, from: int, until: int)
    requires n <= |log| && forall i :: 0 <= i < n ==> !Passing(log[i], limit, from, until)
    ensures Passed(log, n, limit, from, until) == {}
  {
    if n > 0 { PassedNone(log, n - 1, limit, from, until); }
  }

  lemma {:induction false} TimesGrow(log: seq<Hit>, window: int, i: nat, j: nat)
    requires LogOk(log, window) && i <= j < |log|
    ensures log[i].time <= log[j].time
    decreases j
  {
    if i < j {
      TimesGrow(log, window, i, j - 1);
      assert Follows(log[j - 1], log[j], window);
    }
  }

  /** Each further incarnation after the one of hit `i` starts another whole window later. */
  lemma {:induction false} RoundsApart(log: seq<Hit>, window: nat, i: nat, j: nat)
    requires LogOk(log, window) && i <= j < |log|
    ensures log[i].round <= log[j].round
    ensures log[j].round > log[i].round ==> log[i].time + (log[j].round - log[i].round - 1) * window <= log[j].anchor
    decreases j
  {
    if i < j {
      RoundsApart(log, window, i, j - 1);
      LastAfter(log, window, j - 1);
      assert Follows(log[j - 1], log[j], window);
      var m := log[j - 1].round - log[i].round;
      if log[j].round != log[j - 1].round {
        if m > 0 {
          assert (m - 1) * window + window == m * window;
        } else {
          TimesGrow(log, window, i, j);
          assert m * window == 0;
        }
      }
    }
  }

  /** Incarnations begin at least one window apart. */
  lemma {:induction false} AnchorsApart(log: seq<Hit>, window: nat, i: nat, j: nat)
    requires LogOk(log, window) && i <= j < |log|
    ensures log[i].round <= log[j].round
    ensures log[i].anchor + (log[j].round - log[i].round) * window <= log[j].anchor
    decreases j
  {
    if i < j {
      AnchorsApart(log, window, i, j - 1);
      assert Follows(log[j - 1], log[j], window);
      var m := log[j - 1].round - log[i].round;
      assert (m + 1) * window == m * window + window;
    }
  }

  lemma Cancel(x: int, y: int, w: nat)
    requires x * w < y * w
    ensures x < y
  {
    assert (y - x) * w > 0;
  }

  /**
    A hit inside an interval of `k` windows lies at most `k` incarnations after the first one
    inside it, and fewer than `k` when that first one began its own incarnation.
  */
  lemma FewRounds(log: seq<Hit>, window: nat, k: nat, from: int, i: nat, j: nat)
    requires LogOk(log, window) && i <= j < |log|
    requires from <= log[i].time && log[j].time < from + k * window
    ensures 0 <= log[j].round - log[i].round <= k
    ensures log[i].count == 1 ==> log[j].round - log[i].round < k
  {
    RoundsApart(log, window, i, j);
    LastAfter(log, window, i);
    LastAfter(log, window, j);
    var m := log[j].round - log[i].round;
    if m > 0 {
      assert (m - 1) * window < k * window;
      Cancel(m - 1, k, window);
    }
    if log[i].count == 1 {
      AnchorsApart(log, window, i, j);
      assert m * window < k * window;
      Cancel(m, k, window);
    }
  }

  function Times(n: nat, limit: nat): nat {
    if n == 0 then 0 else Times(n - 1, limit) + limit
  }

  /** What the hits so far can have let through: whole incarnations, then the current one. */
  function Allowance(rounds: nat, count: nat, limit: nat, k: nat): nat {
    if rounds > k then Times(k + 1, limit) else Times(rounds, limit) + Min(count, limit)
  }

  lemma AllowanceGrows(m: nat, count: nat, m': nat, count': nat, passes: bool, limit: nat, k: nat)
    requires (m' == m && count' == count + 1) || (m' == m + 1 && count' == 1)
    requires passes ==> m' <= k && count' <= limit
    ensures Allowance(m, count, limit, k) + (if passes then 1 else 0) <= Allowance(m', count', limit, k)
  {
  }

  lemma {:induction false} TimesIsProduct(n: nat, limit: nat)
    ensures Times(n, limit) == n * limit
  {
    if n > 0 {
      TimesIsProduct(n - 1, limit);
      assert n * limit == (n - 1) * limit + limit;
    }
  }

  lemma {:induction false} AllowanceCeiling(m: nat, count: nat, limit: nat, k: nat)
    ensures Allowance(m, count, limit, k) <= (k + 1) * limit
    decreases k
  {
    TimesIsProduct(k + 1, limit);
    if m <= k {
      TimesIsProduct(m, limit);
      assert (k + 1) * limit == m * limit + (k - m) * limit + limit;
      assert (k - m) * limit >= 0;
    }
  }

  lemma PassedStep(log: seq<Hit>, n: nat, limit: nat, from: int, until: int)
    requires 0 < n <= |log|
    ensures |Passed(log, n, limit, from, until)|
         <= |Passed(log, n - 1, limit, from, until)| + if Passing(log[n - 1], limit, from, until) then 1 else 0
  {
  }

  lemma BoundBegins(log: seq<Hit>, window: nat, limit: nat, k: nat, from: int, until: int, i: nat)
    requires LogOk(log, window) && i < |log| && Passing(log[i], limit, from, until)
    requires forall h :: 0 <= h < i ==> !Passing(log[h], limit, from, until)
    ensures 0 <= log[i].count
    ensures |Passed(log, i + 1, limit, from, until)| + log[i].count - 1 <= Allowance(0, log[i].count, limit, k)
  {
    LastAfter(log, window, i);
    PassedStep(log, i + 1, limit, from, until);
    PassedNone(log, i, limit, from, until);
  }

  /** One more hit: the allowance grows by at least what it lets through. */
  lemma AllowanceFollows(log: seq<Hit>, window: nat, limit: nat, k: nat, from: int, until: int, i: nat, n: nat)
    requires LogOk(log, window) && i < n < |log|
    requires log[n].time < until ==> log[n].round - log[i].round <= k
    ensures log[i].round <= log[n - 1].round && log[i].round <= log[n].round && 0 <= log[n - 1].count
            && 0 <= log[n].count
    ensures Allowance(log[n - 1].round - log[i].round, log[n - 1].count, limit, k)
            + (if Passing(log[n], limit, from, until) then 1 else 0)
         <= Allowance(log[n].round - log[i].round, log[n].count, limit, k)
  {
    var g, h := log[n - 1], log[n];
    LastAfter(log, window, n - 1);
    LastAfter(log, window, n);
    RoundIsSuffix(log, window, n - 1, i);
    assert Follows(g, h, window);
    AllowanceGrows(g.round - log[i].round, g.count, h.round - log[i].round, h.count, Passing(h, limit, from, until),
        limit, k);
  }

  /** What was let through, with the earlier hits of the first incarnation added, stays within the allowance. */
  lemma {:induction false} PassedBound(log: seq<Hit>, window: nat, limit: nat, k: nat, from: int, until: int, i: nat,
      n: nat)
    requires LogOk(log, window) && i < n <= |log| && Passing(log[i], limit, from, until)
    requires forall h :: 0 <= h < i ==> !Passing(log[h], limit, from, until)
    requires forall j :: i <= j < |log| && log[j].time < until ==> log[j].round - log[i].round <= k
    ensures log[i].round <= log[n - 1].round && 0 <= log[n - 1].count
    ensures |Passed(log, n, limit, from, until)| + log[i].count - 1
         <= Allowance(log[n - 1].round - log[i].round, log[n - 1].count, limit, k)
    decreases n
  {
    if n - 1 == i {
      BoundBegins(log, window, limit, k, from, until, i);
    } else {
      PassedBound(log, window, limit, k, from, until, i, n - 1);
      AllowanceFollows(log, window, limit, k, from, until, i, n - 1);
      PassedStep(log, n, limit, from, until);
    }
  }

  /** The most that `k` windows can let through: one call short of `k + 1` full allowances. */
  function Ceiling(limit: nat, k: nat): nat {
    if limit == 0 || k == 0 then 0 else (k + 1) * limit - 1
  }

  ghost function First(log: seq<Hit>, limit: nat, from: int, until: int, i: nat): (first: nat)
    requires i < |log| && Passing(log[i], limit, from, until)
    ensures first <= i && Passing(log[first], limit, from, until)
    ensures forall h :: 0 <= h < first ==> !Passing(log[h], limit, from, until)
  {
    if h: nat :| h < i && Passing(log[h], limit, from, until) then First(log, limit, from, until, h) else i
  }

  lemma LogBound(log: seq<Hit>, window: nat, limit: nat, k: nat, from: int)
    requires LogOk(log, window)
    ensures |Passed(log, |log|, limit, from, from + k * window)| <= Ceiling(limit, k)
  {
    var until := from + k * window;
    if i: nat :| i < |log| && Passing(log[i], limit, from, until) {
      var first := First(log, limit, from, until, i);
      LastAfter(log, window, first);
      LastAfter(log, window, |log| - 1);
      assert k * window > 0;
      assert (k + 1) * limit == k * limit + limit;
      var rounds := if log[first].count == 1 then k - 1 else k;
      forall j | first <= j < |log| && log[j].time < until
        ensures log[j].round - log[first].round <= rounds
      {
        FewRounds(log, window, k, from, first, j);
      }
      PassedBound(log, window, limit, rounds, from, until, first, |log|);
      AllowanceCeiling(Last(log).round - log[first].round, Last(log).count, limit, rounds);
    } else {
      PassedNone(log, |log|, limit, from, until);
    }
  }

  /** The calls of one source that were let through and whose INCR ran in the interval. */
  function AdmittedIn(s: State, src: Source, from: int, until: int): set<nat> {
    set rid | rid in s.calls && s.calls[rid].src == src && s.calls[rid].stage.Admitted?
      && from <= s.calls[rid].at < until
  }

  /**
    The rate bound over all runs: whatever the interleaving and however many EXPIREs are
    lost, k windows admit fewer than (k+1)·limit calls of a (bucket, address) pair.
  */
  lemma RateBound(rules: Rules, clock: int, labels: seq<Label>, src: Source, k: nat, from: int)
    requires ValidRules(rules) && src.bucket in rules
    ensures var rule := rules[src.bucket];
            |AdmittedIn(Run(rules, Init(clock), labels), src, from, from + k * Nanos(rule))| <= Ceiling(rule.limit, k)
  {
    var s, rule := Run(rules, Init(clock), labels), rules[src.bucket];
    var log, until := Log(s, src), from + k * Nanos(rule);
    Reachable(rules, clock, labels);
    assert SourceOk(rules, s, src);
    var passed := Passed(log, |log|, rule.limit, from, until);
    forall rid | rid in AdmittedIn(s, src, from, until)
      ensures rid in passed
    {
      assert CallOk(rules, s, rid);
      PassedHas(log, |log|, rule.limit, from, until, s.calls[rid].index);
    }
    SubsetSize(AdmittedIn(s, src, from, until), passed);
    LogBound(log, Nanos(rule), rule.limit, k, from);
  }

  // ---- The window invariant ------------------------------------------------------------

  function HitsInRound(log: seq<Hit>, n: nat, round: nat): nat
    requires n <= |log|
  {
    if n == 0 then 0 else HitsInRound(log, n - 1, round) + if log[n - 1].round == round then 1 else 0
  }

  lemma {:induction false} NoHitsYet(log: seq<Hit>, n: nat, round: nat)
    requires n <= |log| && forall i :: 0 <= i < n ==> log[i].round != round
    ensures HitsInRound(log, n, round) == 0
  {
    if n > 0 { NoHitsYet(log, n - 1, round); }
  }

  lemma {:induction false} CountIsHits(log: seq<Hit>, window: int, i: nat)
    requires LogOk(log, window) && i < |log|
    ensures HitsInRound(log, i + 1, log[i].round) == log[i].count
  {
    if i == 0 {
      assert HitsInRound(log, 0, log[0].round) == 0;
    } else {
      CountIsHits(log, window, i - 1);
      assert Follows(log[i - 1], log[i], window);
      if log[i].round != log[i - 1].round {
        forall j | 0 <= j < i
          ensures log[j].round != log[i].round
        {
          RoundIsSuffix(log, window, i - 1, j);
        }
        NoHitsYet(log, i, log[i].round);
      }
    }
  }

  /** The number stored under a counter key is the number of INCRs since the key last began. */
  lemma CounterCountsHits(rules: Rules, s: State, src: Source)
    requires Inv(rules, s) && src.bucket in rules && RateKey(src) in s.db
    ensures var log := Log(s, src);
            log != [] && s.db[RateKey(src)].value == Count(HitsInRound(log, |log|, Last(log).round))
  {
    assert SourceOk(rules, s, src);
    CountIsHits(Log(s, src), Nanos(rules[src.bucket]), |Log(s, src)| - 1);
  }

  /** Some call still owes the EXPIRE of this source's key. */
  ghost predicate PendingAt(s: State, src: Source) {
    exists rid :: rid in s.calls && s.calls[rid].src == src && s.calls[rid].stage.Expiring?
  }

  /** Either a later incarnation is under way, or the key is gone, or its deadline is still `d`. */
  ghost predicate Fixed(s: State, src: Source, round: nat, d: Option<int>) {
    var log := Log(s, src);
    && log != [] && Last(log).round >= round
    && (Last(log).round == round && RateKey(src) in s.db ==> s.db[RateKey(src)].deadline == d)
  }

  lemma FixedIncrement(rules: Rules, s: State, rid: nat, src: Source, round: nat, d: Option<int>)
    requires ValidRules(rules) && Inv(rules, s) && src.bucket in rules && Fixed(s, src, round, d)
    requires rid in s.calls && s.calls[rid].stage.Starting?
    ensures Fixed(IncrementStep(s, rid), src, round, d)
  {
    assert SourceOk(rules, s, src) && CallOk(rules, s, rid);
    LastAfter(Log(s, src), Nanos(rules[src.bucket]), |Log(s, src)| - 1);
    if s.calls[rid].src == src {
      IncrementedSource(rules, s, rid);
    } else if RateKey(s.calls[rid].src) == RateKey(src) {
      RateKeyInjective(s.calls[rid].src, src);
    }
  }

  /** An EXPIRE of this source meets a deadline that is not set yet. */
  lemma FixedWindow(rules: Rules, s: State, rid: nat, src: Source, round: nat, d: Option<int>)
    requires ValidRules(rules) && Inv(rules, s) && src.bucket in rules && Fixed(s, src, round, d)
    requires d.None? ==> !PendingAt(s, src)
    requires rid in s.calls && s.calls[rid].stage.Expiring?
    ensures Fixed(Step(rules, s, SetWindow(rid)), src, round, d)
  {
    assert SourceOk(rules, s, src) && CallOk(rules, s, rid);
    if s.calls[rid].src != src && RateKey(s.calls[rid].src) == RateKey(src) { RateKeyInjective(s.calls[rid].src, src); }
  }

  lemma FixedStep(rules: Rules, s: State, l: Label, src: Source, round: nat, d: Option<int>)
    requires ValidRules(rules) && Inv(rules, s) && src.bucket in rules && Fixed(s, src, round, d)
    requires d.None? ==> !PendingAt(s, src)
    ensures Fixed(Step(rules, s, l), src, round, d)
  {
    var key := RateKey(src);
    assert SourceOk(rules, s, src);
    match l
    case SessionWrite(id, _, _) => KeysDisjoint(id, src);
    case SessionDelete(id) => KeysDisjoint(id, src);
    case Increment(rid) =>
      if rid in s.calls && s.calls[rid].stage.Starting? { FixedIncrement(rules, s, rid, src, round, d); }
    case SetWindow(rid) =>
      if rid in s.calls && s.calls[rid].stage.Expiring? { FixedWindow(rules, s, rid, src, round, d); }
    case _ =>
  }

  /** A deadline once set never moves while its incarnation lasts. */
  lemma {:induction false} DeadlineNeverMoves(rules: Rules, s: State, labels: seq<Label>, src: Source, round: nat,
      d: int)
    requires ValidRules(rules) && Inv(rules, s) && src.bucket in rules && Fixed(s, src, round, Some(d))
    ensures Fixed(Run(rules, s, labels), src, round, Some(d))
    decreases |labels|
  {
    if labels != [] {
      FixedStep(rules, s, labels[0], src, round, Some(d));
      StepKeeps(rules, s, labels[0]);
      DeadlineNeverMoves(rules, Step(rules, s, labels[0]), labels[1..], src, round, d);
    }
  }

  /** The counter has no deadline and nobody owes it one. */
  ghost predicate Stuck(s: State, src: Source) {
    RateKey(src) in s.db && s.db[RateKey(src)].deadline.None? && !PendingAt(s, src)
  }

  ghost predicate SameRound(log: seq<Hit>, log': seq<Hit>) {
    log != [] && log <= log' && Last(log').round == Last(log).round
  }

  lemma StuckIncrement(rules: Rules, s: State, rid: nat, src: Source)
    requires ValidRules(rules) && Inv(rules, s) && src.bucket in rules && Stuck(s, src)
    requires rid in s.calls && s.calls[rid].stage.Starting?
    ensures Stuck(IncrementStep(s, rid), src) && SameRound(Log(s, src), Log(IncrementStep(s, rid), src))
  {
    assert SourceOk(rules, s, src) && CallOk(rules, s, rid);
    LastAfter(Log(s, src), Nanos(rules[src.bucket]), |Log(s, src)| - 1);
    if s.calls[rid].src == src {
      IncrementedSource(rules, s, rid);
    } else if RateKey(s.calls[rid].src) == RateKey(src) {
      RateKeyInjective(s.calls[rid].src, src);
    }
  }

  lemma LostExpireStep(rules: Rules, s: State, l: Label, src: Source)
    requires ValidRules(rules) && Inv(rules, s) && src.bucket in rules && Stuck(s, src)
    ensures Stuck(Step(rules, s, l), src) && SameRound(Log(s, src), Log(Step(rules, s, l), src))
  {
    assert SourceOk(rules, s, src);
    match l
    case SessionWrite(id, _, _) => KeysDisjoint(id, src);
    case SessionDelete(id) => KeysDisjoint(id, src);
    case Increment(rid) =>
      if rid in s.calls && s.calls[rid].stage.Starting? { StuckIncrement(rules, s, rid, src); }
    case SetWindow(rid) =>
      if rid in s.calls && s.calls[rid].stage.Expiring? {
        assert CallOk(rules, s, rid);
        if RateKey(s.calls[rid].src) == RateKey(src) { RateKeyInjective(s.calls[rid].src, src); }
      }
    case _ =>
  }

  /** A counter without a deadline whose EXPIRE was lost stays, in the same incarnation, for ever. */
  lemma {:induction false} LostExpireIsPermanent(rules: Rules, s: State, labels: seq<Label>, src: Source)
    requires ValidRules(rules) && Inv(rules, s) && src.bucket in rules && Stuck(s, src)
    ensures Stuck(Run(rules, s, labels), src) && SameRound(Log(s, src), Log(Run(rules, s, labels), src))
    decreases |labels|
  {
    assert SourceOk(rules, s, src);
    if labels != [] {
      LostExpireStep(rules, s, labels[0], src);
      StepKeeps(rules, s, labels[0]);
      LostExpireIsPermanent(rules, Step(rules, s, labels[0]), labels[1..], src);
    }
  }

  lemma RunThree(rules: Rules, s: State, a: Label, b: Label, c: Label)
    ensures Run(rules, s, [a, b, c]) == Step(rules, Step(rules, Step(rules, s, a), b), c)
  {
    assert [a, b, c][1..] == [b, c] && [b, c][1..] == [c] && [c][1..] == [];
    assert Run(rules, Step(rules, Step(rules, s, a), b), [c]) == Step(rules, Step(rules, Step(rules, s, a), b), c);
  }

  /** Exactly when a counter without a deadline can still lapse: some call owes its EXPIRE. */
  lemma CanLapseIffPending(rules: Rules, s: State, src: Source)
    requires ValidRules(rules) && Inv(rules, s) && src.bucket in rules
    requires RateKey(src) in s.db && s.db[RateKey(src)].deadline.None?
    ensures (exists labels :: RateKey(src) !in Run(rules, s, labels).db) <==> PendingAt(s, src)
  {
    var key := RateKey(src);
    if PendingAt(s, src) {
      var rid :| rid in s.calls && s.calls[rid].src == src && s.calls[rid].stage.Expiring?;
      assert CallOk(rules, s, rid);
      var lapse := Tick(Nanos(rules[src.bucket]));
      var s1 := Step(rules, s, SetWindow(rid));
      var s2 := Step(rules, s1, lapse);
      RunThree(rules, s, SetWindow(rid), lapse, Evict(key));
      assert s1.db[key].deadline == Some(s2.clock);
      assert key !in Run(rules, s, [SetWindow(rid), lapse, Evict(key)]).db;
    } else {
      forall labels
        ensures key in Run(rules, s, labels).db
      {
        LostExpireIsPermanent(rules, s, labels, src);
      }
    }
  }

  lemma {:induction false} SameRoundCounts(log: seq<Hit>, window: int, i: nat, j: nat)
    requires LogOk(log, window) && i <= j < |log| && log[i].round == log[j].round
    ensures log[j].count == log[i].count + (j - i)
    decreases j
  {
    if i < j {
      RoundIsSuffix(log, window, j - 1, i);
      assert Follows(log[j - 1], log[j], window);
      SameRoundCounts(log, window, i, j - 1);
    }
  }

  /** After a lost EXPIRE and a spent allowance, no call that has not yet counted is ever admitted again. */
  lemma LockedOut(rules: Rules, s: State, labels: seq<Label>, src: Source, rid: nat)
    requires ValidRules(rules) && Inv(rules, s) && src.bucket in rules
    requires Stuck(s, src) && Log(s, src) != [] && Last(Log(s, src)).count >= rules[src.bucket].limit
    ensures var s' := Run(rules, s, labels);
            rid in s'.calls && s'.calls[rid].src == src && s'.calls[rid].stage.Admitted? ==>
              s'.calls[rid].index < |Log(s, src)|
  {
    var s', window := Run(rules, s, labels), Nanos(rules[src.bucket]);
    LostExpireIsPermanent(rules, s, labels, src);
    RunKeeps(rules, s, labels);
    assert SourceOk(rules, s', src);
    if rid in s'.calls && s'.calls[rid].src == src && s'.calls[rid].stage.Admitted? {
      assert CallOk(rules, s', rid);
      var log', tail, i := Log(s', src), |Log(s, src)| - 1, s'.calls[rid].index;
      if tail < i {
        RoundIsSuffix(log', window, |log'| - 1, i);
        RoundIsSuffix(log', window, |log'| - 1, tail);
        RoundIsSuffix(log', window, i, tail);
        SameRoundCounts(log', window, tail, i);
        assert false;
      }
    }
  }
}
