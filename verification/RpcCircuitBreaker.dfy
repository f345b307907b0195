/** RpcCircuitBreaker (src/infrastructure/rpc-circuit-breaker.ts): a leaky failure counter shared by overlapping calls,
    each of which retries in a loop of its own. */
module RpcBreaker {
  import opened Prelude

  datatype Mode = Closed | Open | HalfOpen

  datatype Params = Params(
    failureThreshold: nat, successThreshold: nat, openDurationMs: nat, maxRetries: nat, baseDelayMs: nat)

  predicate ThresholdsOk(p: Params) {
    p.failureThreshold >= 1 && p.successThreshold >= 1
  }

  datatype Fields = Fields(mode: Mode, failureCount: nat, successCount: nat, lastOpenedAt: nat)

  const Fresh := Fields(Closed, 0, 0, 0)

  function Tripped(b: Fields, now: nat): Fields {
    b.(mode := Open, lastOpenedAt := now, failureCount := 0)
  }

  function Close(b: Fields): Fields {
    b.(mode := Closed, failureCount := 0, successCount := 0)
  }

  /** maybeTransitionFromOpen. */
  function Enter(p: Params, b: Fields, now: nat): Fields {
    if b.mode.Open? && now - b.lastOpenedAt >= p.openDurationMs then b.(mode := HalfOpen, successCount := 0) else b
  }

  predicate Closes(p: Params, b: Fields) {
    b.mode.HalfOpen? && b.successCount + 1 >= p.successThreshold
  }

  predicate Trips(p: Params, b: Fields) {
    b.mode.HalfOpen? || b.failureCount + 1 >= p.failureThreshold
  }

  function OnSuccess(p: Params, b: Fields): Fields {
    if Closes(p, b) then Close(b)
    else if b.mode.HalfOpen? then b.(successCount := b.successCount + 1)
    else b.(failureCount := if b.failureCount == 0 then 0 else b.failureCount - 1)
  }

  function OnFailure(p: Params, b: Fields, now: nat): Fields {
    if Trips(p, b) then Tripped(b, now) else b.(failureCount := b.failureCount + 1)
  }

  /** `log` is history: the outcomes counted since the breaker last closed, tripped or went half-open. */
  datatype State = State(now: nat, b: Fields, log: seq<bool>)

  const Init := State(0, Fresh, [])

  /** What any call, or time, does to the shared breaker. */
  datatype Event = Enters | Counts(ok: bool) | Tick(to: nat)

  function Next(p: Params, s: State, e: Event): State {
    match e
    case Enters =>
      var b := Enter(p, s.b, s.now);
      s.(b := b, log := if b.mode == s.b.mode then s.log else [])
    case Counts(ok) =>
      if ok then State(s.now, OnSuccess(p, s.b), if Closes(p, s.b) then [] else s.log + [true])
      else State(s.now, OnFailure(p, s.b, s.now), if Trips(p, s.b) then [] else s.log + [false])
    case Tick(to) => if to < s.now then s else s.(now := to)
  }

  function Run(p: Params, s: State, es: seq<Event>): State {
    if es == [] then s else Next(p, Run(p, s, es[..|es| - 1]), es[|es| - 1])
  }

  lemma RunSnoc(p: Params, s: State, es: seq<Event>, e: Event)
    ensures Run(p, s, es + [e]) == Next(p, Run(p, s, es), e)
  {
    assert (es + [e])[..|es + [e]| - 1] == es;
  }

  // ---------------------------------------------------------------- the leaky counter refines the outcome log

  /** Failures less successes among outcomes i to j. */
  function Surplus(log: seq<bool>, i: nat, j: nat): int
    requires i <= j <= |log|
  {
    if i == j then 0 else Surplus(log, i, j - 1) + if log[j - 1] then -1 else 1
  }

  lemma {:induction false} SurplusPrefix(log: seq<bool>, ok: bool, i: nat, j: nat)
    requires i <= j <= |log|
    ensures Surplus(log + [ok], i, j) == Surplus(log, i, j)
  {
    if i < j { SurplusPrefix(log, ok, i, j - 1); }
  }

  /** `m` is the largest surplus of any suffix, the empty one included. */
  ghost predicate LargestSuffix(log: seq<bool>, m: nat) {
    && (forall i :: 0 <= i <= |log| ==> Surplus(log, i, |log|) <= m)
    && (exists i :: 0 <= i <= |log| && Surplus(log, i, |log|) == m)
  }

  function Leak(m: nat, ok: bool): nat {
    if !ok then m + 1 else if m == 0 then 0 else m - 1
  }

  lemma LargestSuffixSnoc(log: seq<bool>, m: nat, ok: bool)
    requires LargestSuffix(log, m)
    ensures LargestSuffix(log + [ok], Leak(m, ok))
  {
    var more := log + [ok];
    var step := if ok then -1 else 1;
    forall i | 0 <= i <= |log| ensures Surplus(more, i, |more|) == Surplus(log, i, |log|) + step {
      SurplusPrefix(log, ok, i, |log|);
    }
    assert Surplus(more, |more|, |more|) == 0;
    var best :| 0 <= best <= |log| && Surplus(log, best, |log|) == m;
    assert Surplus(more, best, |more|) == m + step;
    assert Surplus(log, |log|, |log|) == 0;
  }

  /** Some contiguous run of outcomes holds `n` more failures than successes. */
  ghost predicate SomeRunReaches(log: seq<bool>, n: nat) {
    exists i, j :: 0 <= i <= j <= |log| && Surplus(log, i, j) >= n
  }

  lemma RunReachesSnoc(log: seq<bool>, m: nat, ok: bool, n: nat)
    requires n >= 1 && LargestSuffix(log, m) && !SomeRunReaches(log, n)
    ensures SomeRunReaches(log + [ok], n) <==> Leak(m, ok) >= n
  {
    var more := log + [ok];
    LargestSuffixSnoc(log, m, ok);
    if Leak(m, ok) >= n {
      var best :| 0 <= best <= |more| && Surplus(more, best, |more|) == Leak(m, ok);
      assert 0 <= best <= |more| <= |more| && Surplus(more, best, |more|) >= n;
    }
    if SomeRunReaches(more, n) {
      var i, j :| 0 <= i <= j <= |more| && Surplus(more, i, j) >= n;
      if j <= |log| {
        SurplusPrefix(log, ok, i, j);
        assert Surplus(log, i, j) >= n;
      }
      assert j == |more|;
    }
  }

  ghost predicate LogOk(p: Params, s: State) {
    if s.b.mode.HalfOpen? then
      s.b.successCount == |s.log| < p.successThreshold && (forall i :: 0 <= i < |s.log| ==> s.log[i])
    else
      LargestSuffix(s.log, s.b.failureCount) && !SomeRunReaches(s.log, p.failureThreshold)
  }

  ghost predicate Inv(p: Params, s: State) {
    LogOk(p, s) && s.b.failureCount < p.failureThreshold && (s.b.mode.Open? ==> s.b.lastOpenedAt <= s.now)
  }

  lemma EmptyLog(n: nat)
    requires n >= 1
    ensures LargestSuffix([], 0) && !SomeRunReaches([], n)
  {
    assert Surplus([], 0, 0) == 0;
  }

  lemma NextKeeps(p: Params, s: State, e: Event)
    requires ThresholdsOk(p) && Inv(p, s)
    ensures Inv(p, Next(p, s, e))
  {
    EmptyLog(p.failureThreshold);
    if e.Counts? && !s.b.mode.HalfOpen? {
      LargestSuffixSnoc(s.log, s.b.failureCount, e.ok);
      RunReachesSnoc(s.log, s.b.failureCount, e.ok, p.failureThreshold);
    }
  }

  /** While CLOSED the counter is the largest surplus of failures over successes in any suffix of the outcomes counted
      since the breaker last closed; the same holds of late outcomes while OPEN. */
  lemma {:induction false} RunKeeps(p: Params, s: State, es: seq<Event>)
    requires ThresholdsOk(p) && Inv(p, s)
    ensures Inv(p, Run(p, s, es))
  {
    if es != [] {
      RunKeeps(p, s, es[..|es| - 1]);
      NextKeeps(p, Run(p, s, es[..|es| - 1]), es[|es| - 1]);
    }
  }

  /** Outside HALF_OPEN a counted outcome trips the breaker if and only if it is the first to give some contiguous run
      of outcomes a surplus of failureThreshold failures. */
  lemma TripsExactly(p: Params, s: State, ok: bool)
    requires ThresholdsOk(p) && Inv(p, s) && !s.b.mode.HalfOpen?
    ensures var t := Next(p, s, Counts(ok));
            var trips := SomeRunReaches(s.log + [ok], p.failureThreshold);
            && (trips <==> t.log == [])
            && (trips ==> t.b.mode.Open? && t.b.lastOpenedAt == s.now && t.b.failureCount == 0)
            && (!trips ==> t.b == s.b.(failureCount := t.b.failureCount))
            && (!trips ==> LargestSuffix(s.log + [ok], t.b.failureCount))
  {
    LargestSuffixSnoc(s.log, s.b.failureCount, ok);
    RunReachesSnoc(s.log, s.b.failureCount, ok, p.failureThreshold);
  }

  /** In HALF_OPEN a failure reopens; success number successThreshold closes, and nothing else does. */
  lemma ProbeDecides(p: Params, s: State, ok: bool)
    requires ThresholdsOk(p) && Inv(p, s) && s.b.mode.HalfOpen?
    ensures var t := Next(p, s, Counts(ok));
            && (t.b.mode.Open? <==> !ok)
            && (t.b.mode.Closed? <==> ok && |s.log| + 1 == p.successThreshold)
            && (t.b.mode.Closed? ==> t.b.failureCount == 0 && t.b.successCount == 0)
            && (t.b.mode.Open? ==> t.b.lastOpenedAt == s.now && t.b.failureCount == 0)
  {
  }

  // ---------------------------------------------------------------- the retry loop

  /** One run of fn: a value, an error worth retrying, or one of the non-retryable errors. */
  datatype Attempt = Value(value: int) | Retryable(error: string) | Fatal(error: string)

  datatype Answered = Returned(last: Attempt) | FastFail | NothingTried

  /** What one attempt does to the breaker; a non-retryable error is not counted. */
  function Counted(p: Params, s: State, a: Attempt): State {
    match a
    case Value(_) => Next(p, s, Counts(true))
    case Retryable(_) => Next(p, s, Counts(false))
    case Fatal(_) => s
  }

  /** `fn` is what each attempt yields; `meanwhile(i)` is what everybody else does from the previous attempt's end, its
      delay included, until attempt i ends; `random` is Math.random. */
  datatype Schedule = Schedule(fn: nat -> Attempt, meanwhile: nat -> seq<Event>, random: nat -> real)

  ghost predicate RandomOk(sched: Schedule) {
    forall i :: 0.0 <= sched.random(i) < 1.0
  }

  /** The breaker once a call that entered in `s` has made `n` attempts among everybody else's events. */
  function AfterAttempts(p: Params, s: State, sched: Schedule, n: nat): State {
    if n == 0 then Next(p, s, Enters)
    else Counted(p, Run(p, AfterAttempts(p, s, sched, n - 1), sched.meanwhile(n - 1)), sched.fn(n - 1))
  }

  /** The retry loop is made of breaker events, so what every event keeps, every call keeps. */
  lemma {:induction false} AttemptsKeep(p: Params, s: State, sched: Schedule, n: nat)
    requires ThresholdsOk(p) && Inv(p, s)
    ensures Inv(p, AfterAttempts(p, s, sched, n))
  {
    if n == 0 {
      NextKeeps(p, s, Enters);
    } else {
      AttemptsKeep(p, s, sched, n - 1);
      var before := Run(p, AfterAttempts(p, s, sched, n - 1), sched.meanwhile(n - 1));
      RunKeeps(p, AfterAttempts(p, s, sched, n - 1), sched.meanwhile(n - 1));
      NextKeeps(p, before, Counts(sched.fn(n - 1).Value?));
    }
  }

  /** What a call and everybody else do to the breaker until its n-th attempt is over: it enters, and each attempt
      counts a success or a retryable failure, and nothing for a non-retryable error. */
  function EventsOf(sched: Schedule, n: nat): seq<Event> {
    if n == 0 then [Enters]
    else
      EventsOf(sched, n - 1) + sched.meanwhile(n - 1)
      + match sched.fn(n - 1)
        case Value(_) => [Counts(true)]
        case Retryable(_) => [Counts(false)]
        case Fatal(_) => []
  }

  lemma {:induction false} RunAppend(p: Params, s: State, before: seq<Event>, after: seq<Event>)
    ensures Run(p, s, before + after) == Run(p, Run(p, s, before), after)
  {
    if after == [] {
      assert before + after == before;
    } else {
      RunAppend(p, s, before, after[..|after| - 1]);
      assert (before + after)[..|before + after| - 1] == before + after[..|after| - 1];
    }
  }

  /** The retry loop is one run of the breaker: its own events in their place among everybody else's. */
  lemma {:induction false} AttemptsAreARun(p: Params, s: State, sched: Schedule, n: nat)
    ensures AfterAttempts(p, s, sched, n) == Run(p, s, EventsOf(sched, n))
  {
    if n == 0 {
      assert [Enters][..0] == [];
    } else {
      var before := EventsOf(sched, n - 1) + sched.meanwhile(n - 1);
      AttemptsAreARun(p, s, sched, n - 1);
      RunAppend(p, s, EventsOf(sched, n - 1), sched.meanwhile(n - 1));
      RunSnoc(p, s, before, Counts(sched.fn(n - 1).Value?));
      assert before + [] == before;
    }
  }

  /** baseDelayMs * 2 ** i (see ExponentialIsPower). */
  function Exponential(base: nat, i: nat): (r: nat)
    ensures r >= base
  {
    if i == 0 then base else 2 * Exponential(base, i - 1)
  }

  function Pow2(n: nat): nat {
    if n == 0 then 1 else 2 * Pow2(n - 1)
  }

  lemma {:induction false} ExponentialIsPower(base: nat, i: nat)
    ensures Exponential(base, i) == base * Pow2(i)
  {
    if i > 0 { ExponentialIsPower(base, i - 1); }
  }

  function Backoff(p: Params, sched: Schedule, i: nat): real {
    Exponential(p.baseDelayMs, i) as real + sched.random(i) * 50.0
  }

  /** The i-th delay lies in [base * 2^i, base * 2^i + 50) and may be anything in that interval. */
  lemma BackoffRange(p: Params, sched: Schedule, i: nat, delay: real) returns (r: real)
    requires RandomOk(sched)
    ensures var least := (p.baseDelayMs * Pow2(i)) as real;
            && least <= Backoff(p, sched, i) < least + 50.0
            && (least <= delay < least + 50.0 ==>
                  0.0 <= r < 1.0 && Backoff(p, sched.(random := _ => r), i) == delay)
  {
    ExponentialIsPower(p.baseDelayMs, i);
    var least := (p.baseDelayMs * Pow2(i)) as real;
    assert 0.0 <= sched.random(i) < 1.0;
    r := (delay - least) / 50.0;
    assert Backoff(p, sched.(random := _ => r), i) == least + r * 50.0 == delay;
  }

  /** How many attempts a call that enters now may make. */
  function Budget(p: Params, b: Fields, now: nat): nat {
    match Enter(p, b, now).mode
    case Open => 0
    case HalfOpen => 1
    case Closed => p.maxRetries
  }

  ghost predicate AllRetryable(fn: nat -> Attempt, k: nat) {
    forall i: nat :: i < k ==> fn(i).Retryable?
  }

  /** `k` attempts were made out of `budget`, and `answer` is the first success, the first non-retryable error, or the
      last error. */
  ghost predicate AnswersWith(fn: nat -> Attempt, budget: nat, k: nat, answer: Answered) {
    && k <= budget
    && (k == 0 <==> budget == 0)
    && (k > 0 ==> answer == Returned(fn(k - 1)))
    && (k > 0 ==> AllRetryable(fn, k - 1))
    && (k < budget ==> k > 0 && !fn(k - 1).Retryable?)
  }

  function Total(waits: seq<real>): real {
    if waits == [] then 0.0 else Total(waits[..|waits| - 1]) + waits[|waits| - 1]
  }

  /** The waits between the attempts of one call. */
  ghost predicate AreBackoffs(p: Params, sched: Schedule, waits: seq<real>) {
    forall i :: 0 <= i < |waits| ==> waits[i] == Backoff(p, sched, i)
  }

  /** n waits take base * (2^n - 1) ms and less than 50 ms of jitter each; the header comment's "± 50ms"
      (src/infrastructure/rpc-circuit-breaker.ts:12) is one-sided in the code. */
  lemma {:induction false} WaitsBounded(p: Params, sched: Schedule, waits: seq<real>)
    requires RandomOk(sched) && AreBackoffs(p, sched, waits)
    ensures var n := |waits|;
            var exponential := (Exponential(p.baseDelayMs, n) - p.baseDelayMs) as real;
            && exponential <= Total(waits) <= exponential + 50.0 * n as real
            && (n > 0 ==> Total(waits) < exponential + 50.0 * n as real)
  {
    var n := |waits|;
    if n > 0 {
      WaitsBounded(p, sched, waits[..n - 1]);
      assert 0.0 <= sched.random(n - 1) < 1.0;
      assert waits[n - 1] == Backoff(p, sched, n - 1);
    }
  }

  // ---------------------------------------------------------------- how many probes

  function Repeat(e: Event, n: nat): seq<Event> {
    if n == 0 then [] else Repeat(e, n - 1) + [e]
  }

  /** The header comment promises one probe call in HALF-OPEN (src/infrastructure/rpc-circuit-breaker.ts:7); however
      many calls have entered and not completed, the next one may run fn once as well. */
  lemma {:induction false} HalfOpenAdmitsAny(p: Params, s: State, n: nat)
    requires s.b.mode.HalfOpen?
    ensures var t := Run(p, s, Repeat(Enters, n)); t == s && Budget(p, t.b, t.now) == 1
  {
    if n > 0 {
      HalfOpenAdmitsAny(p, s, n - 1);
      RunSnoc(p, s, Repeat(Enters, n - 1), Enters);
    }
  }

  lemma {:induction false} SomeFail(p: Params, n: nat)
    requires ThresholdsOk(p) && n <= p.failureThreshold
    ensures Run(p, Init, Repeat(Counts(false), n)).now == 0
    ensures Run(p, Init, Repeat(Counts(false), n)).b ==
              if n < p.failureThreshold then Fields(Closed, n, 0, 0) else Fields(Open, 0, 0, 0)
  {
    if n > 0 {
      SomeFail(p, n - 1);
      RunSnoc(p, Init, Repeat(Counts(false), n - 1), Counts(false));
    }
  }

  /** For all thresholds: failureThreshold counted failures, the open duration, and one call entering. */
  lemma ReachesHalfOpen(p: Params) returns (es: seq<Event>)
    requires ThresholdsOk(p)
    ensures Run(p, Init, es).b.mode.HalfOpen?
  {
    es := Repeat(Counts(false), p.failureThreshold);
    SomeFail(p, p.failureThreshold);
    RunSnoc(p, Init, es, Tick(p.openDurationMs));
    es := es + [Tick(p.openDurationMs)];
    RunSnoc(p, Init, es, Enters);
    es := es + [Enters];
  }

  class RpcCircuitBreaker {
    const p: Params
    var mode: Mode
    var failureCount: nat
    var successCount: nat
    var lastOpenedAt: nat
    var now: nat
    var log: seq<bool>

    constructor (p: Params)
      ensures this.p == p && View() == Init
    {
      this.p := p;
      mode, failureCount, successCount, lastOpenedAt, now, log := Closed, 0, 0, 0, 0, [];
    }

    function Current(): Fields
      reads this
    {
      Fields(mode, failureCount, successCount, lastOpenedAt)
    }

    function View(): State
      reads this
    {
      State(now, Current(), log)
    }

    method Trip()
      modifies this`mode, this`lastOpenedAt, this`failureCount
      ensures Current() == Tripped(old(Current()), now)
    {
      mode := Open;
      lastOpenedAt := now;
      failureCount := 0;
    }

    method Reset()
      modifies this`mode, this`successCount, this`failureCount
      ensures Current() == Close(old(Current()))
    {
      mode := Closed;
      failureCount := 0;
      successCount := 0;
    }

    method MaybeTransitionFromOpen()
      modifies this`mode, this`successCount, this`log
      ensures View() == Next(p, old(View()), Enters)
    {
      if mode != Open { return; }
      if now - lastOpenedAt >= p.openDurationMs {
        mode := HalfOpen;
        successCount := 0;
        log := [];
      }
    }

    method OnSuccess()
      modifies this`mode, this`successCount, this`failureCount, this`log
      ensures View() == Next(p, old(View()), Counts(true))
    {
      log := if Closes(p, Current()) then [] else log + [true];
      if mode == HalfOpen {
        successCount := successCount + 1;
        if successCount >= p.successThreshold { Reset(); }
      } else {
        failureCount := if failureCount == 0 then 0 else failureCount - 1;
      }
    }

    method OnFailure()
      modifies this`mode, this`lastOpenedAt, this`failureCount, this`log
      ensures View() == Next(p, old(View()), Counts(false))
    {
      log := if Trips(p, Current()) then [] else log + [false];
      if mode == HalfOpen {
        Trip();
        return;
      }
      failureCount := failureCount + 1;
      if failureCount >= p.failureThreshold { Trip(); }
    }

    /** What the other calls and the clock do while this one waits. */
    method Others(es: seq<Event>)
      modifies this
      ensures View() == Run(p, old(View()), es)
    {
      ghost var s0 := View();
      for k := 0 to |es|
        invariant View() == Run(p, s0, es[..k])
      {
        RunSnoc(p, s0, es[..k], es[k]);
        assert es[..k + 1] == es[..k] + [es[k]];
        var t := Next(p, View(), es[k]);
        mode, failureCount, successCount, lastOpenedAt :=
              t.b.mode, t.b.failureCount, t.b.successCount, t.b.lastOpenedAt;
        now, log := t.now, t.log;
      }
      assert es[..|es|] == es;
    }

    /** One attempt: fn, then onSuccess or onFailure unless the error is non-retryable. */
    method Try(sched: Schedule, i: nat) returns (result: Attempt)
      modifies this
      ensures result == sched.fn(i) && View() == Counted(p, Run(p, old(View()), sched.meanwhile(i)), result)
    {
      Others(sched.meanwhile(i));
      result := sched.fn(i);
      if result.Value? {
        OnSuccess();
      } else if result.Retryable? {
        OnFailure();
      }
    }

    /** The loop: after attempt k the outcome is decided, or one more wait precedes attempt k + 1. */
    method Retry(sched: Schedule, attempts: nat, ghost s0: State) returns (answer: Answered, k: nat, waits: seq<real>)
      requires View() == AfterAttempts(p, s0, sched, 0)
      modifies this
      ensures View() == AfterAttempts(p, s0, sched, k)
      ensures AnswersWith(sched.fn, attempts, k, answer) && !answer.FastFail?
      ensures |waits| == (if k == 0 then 0 else k - 1) && AreBackoffs(p, sched, waits)
    {
      answer, k, waits := NothingTried, 0, [];
      while k < attempts
        invariant View() == AfterAttempts(p, s0, sched, k)
        invariant k <= attempts && AllRetryable(sched.fn, k)
        invariant answer == if k == 0 then NothingTried else Returned(sched.fn(k - 1))
        invariant |waits| == (if k == 0 || k < attempts then k else k - 1) && AreBackoffs(p, sched, waits)
      {
        var result := Try(sched, k);
        answer, k := Returned(result), k + 1;
        if !result.Retryable? { break; }
        if k < attempts { waits := waits + [Backoff(p, sched, k - 1)]; }
      }
    }

    /** call: fn runs at most maxRetries times, once when the call enters half-open, never while the window lasts; the
        budget is fixed on entry, whatever happens to the breaker between attempts. The breaker ends as the counted
        outcomes of this call, in their place among everybody else's, leave it. */
    method Call(sched: Schedule) returns (answer: Answered, k: nat, waits: seq<real>)
      requires RandomOk(sched)
      modifies this
      ensures View() == AfterAttempts(p, old(View()), sched, k)
      ensures AnswersWith(sched.fn, Budget(p, old(Current()), old(now)), k, answer)
      ensures answer.FastFail? <==> old(mode).Open? && old(now) - old(lastOpenedAt) < p.openDurationMs
      ensures |waits| == (if k == 0 then 0 else k - 1) && AreBackoffs(p, sched, waits)
      ensures k >= 2 ==>
                var exponential := (Exponential(p.baseDelayMs, k - 1) - p.baseDelayMs) as real;
                Total(waits) < exponential + 50.0 * (k - 1) as real
    {
      ghost var s0 := View();
      MaybeTransitionFromOpen();
      if mode == Open { return FastFail, 0, []; }
      var attempts := if mode == HalfOpen then 1 else p.maxRetries;
      answer, k, waits := Retry(sched, attempts, s0);
      WaitsBounded(p, sched, waits);
    }
  }
}
