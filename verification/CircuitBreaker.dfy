/** CircuitBreaker (src/infrastructure/circuit-breaker.ts): the fields and what each method does to them, and a machine
    in which any number of calls are in flight while the breaker changes state around them. */
module Breaker {
  import opened Prelude

  datatype Mode = Closed | Open | HalfOpen

  datatype Params = Params(failureThreshold: nat, successThreshold: nat, resetTimeoutMs: nat, callTimeoutMs: nat)

  predicate ThresholdsOk(p: Params) {
    p.failureThreshold >= 1 && p.successThreshold >= 1
  }

  /** The breaker's four mutable fields. */
  datatype Fields = Fields(mode: Mode, failures: nat, successes: nat, lastOpenedAt: Option<nat>)

  const Fresh := Fields(Closed, 0, 0, None)

  function TransitionTo(b: Fields, next: Mode, now: nat): Fields {
    match next
    case Open => b.(mode := Open, lastOpenedAt := Some(now), failures := 0)
    case HalfOpen => b.(mode := HalfOpen, successes := 0)
    case Closed => b.(mode := Closed, failures := 0, successes := 0)
  }

  /** Still blocking at `now`. */
  predicate Blocks(p: Params, b: Fields, now: nat) {
    b.mode.Open? && now - b.lastOpenedAt.GetOr(0) < p.resetTimeoutMs
  }

  /** isOpen's effect: the first question after the window turns OPEN into HALF_OPEN. */
  function Asked(p: Params, b: Fields, now: nat): Fields {
    if b.mode.Open? && !Blocks(p, b, now) then TransitionTo(b, HalfOpen, now) else b
  }

  predicate Trips(p: Params, b: Fields) {
    b.mode.HalfOpen? || b.failures + 1 >= p.failureThreshold
  }

  predicate Closes(p: Params, b: Fields) {
    b.mode.HalfOpen? && b.successes + 1 >= p.successThreshold
  }

  function OnSuccess(p: Params, b: Fields, now: nat): Fields {
    if Closes(p, b) then TransitionTo(b, Closed, now)
    else if b.mode.HalfOpen? then b.(successes := b.successes + 1)
    else b.(failures := 0)
  }

  function OnFailure(p: Params, b: Fields, now: nat): Fields {
    var counted := b.(failures := b.failures + 1, successes := 0);
    if Trips(p, b) then TransitionTo(counted, Open, now) else counted
  }

  // ---------------------------------------------------------------- calls in flight

  type CallId = nat

  /** A call is over for the breaker once counted; its function may still be running after a timeout. */
  datatype Call = Blocked | InFlight(since: nat) | Counted | PassedOn

  datatype Ending = Resolved | Rejected | RejectedOpen   // the last: fn itself rejects with a CircuitOpenError

  /** `log` is history: the outcomes counted since the breaker last changed or re-entered a state; so is `counted`. */
  datatype State = State(now: nat, b: Fields, calls: map<CallId, Call>, log: seq<bool>, counted: multiset<CallId>)

  const Init := State(0, Fresh, map[], [], multiset{})

  datatype Event =
    | Start(id: CallId)
    | Ask                    // isOpen() asked from outside execute
    | Completes(id: CallId, ending: Ending)
    | Timer(id: CallId)
    | Reset
    | Tick(to: nat)

  predicate Running(s: State, id: CallId) {
    id in s.calls && s.calls[id].InFlight?
  }

  function IsOpen(p: Params, s: State): State {
    var b := Asked(p, s.b, s.now);
    s.(b := b, log := if b.mode == s.b.mode then s.log else [])
  }

  function Admit(p: Params, s: State, id: CallId): State {
    IsOpen(p, s).(calls := s.calls[id := if Blocks(p, s.b, s.now) then Blocked else InFlight(s.now)])
  }

  function Count(p: Params, s: State, id: CallId, ok: bool): State {
    var changes := if ok then Closes(p, s.b) else Trips(p, s.b);
    s.(b := if ok then OnSuccess(p, s.b, s.now) else OnFailure(p, s.b, s.now),
       calls := s.calls[id := Counted],
       log := if changes then [] else s.log + [ok],
       counted := s.counted + multiset{id})
  }

  function Next(p: Params, s: State, e: Event): State {
    match e
    case Start(id) => if id in s.calls then s else Admit(p, s, id)
    case Ask => IsOpen(p, s)
    case Completes(id, ending) =>
      if !Running(s, id) then s
      else if ending.RejectedOpen? then s.(calls := s.calls[id := PassedOn])
      else Count(p, s, id, ending.Resolved?)
    case Timer(id) =>
      if Running(s, id) && s.now >= s.calls[id].since + p.callTimeoutMs then Count(p, s, id, false) else s
    case Reset => s.(b := Fresh, log := [])
    case Tick(to) => if to < s.now then s else s.(now := to)
  }

  function Run(p: Params, s: State, es: seq<Event>): State {
    if es == [] then s else Next(p, Run(p, s, es[..|es| - 1]), es[|es| - 1])
  }

  lemma RunSnoc(p: Params, s: State, es: seq<Event>, e: Event)
    ensures Run(p, s, es + [e]) == Next(p, Run(p, s, es), e)
  {
    assert (es + [e])[..|es + [e]| - 1] == es;
  }

  // ---------------------------------------------------------------- the counters refine the outcome log

  /** The last `n` outcomes exist and are failures. */
  predicate FailedLast(log: seq<bool>, n: nat) {
    n <= |log| && forall i :: |log| - n <= i < |log| ==> !log[i]
  }

  /** `n` counts the failures at the end of the log: the longest such run. */
  ghost predicate Trailing(log: seq<bool>, n: nat) {
    FailedLast(log, n) && !FailedLast(log, n + 1)
  }

  lemma TrailingSnoc(log: seq<bool>, n: nat, ok: bool)
    requires Trailing(log, n)
    ensures Trailing(log + [ok], if ok then 0 else n + 1)
  {
    var more := log + [ok];
    if ok {
      assert more[|log|];
    } else {
      forall i | |more| - (n + 1) <= i < |more| ensures !more[i] {
        assert i < |log| ==> !log[i];
      }
      if n + 1 <= |log| {
        var i :| |log| - (n + 1) <= i < |log| && log[i];
        assert more[i];
      }
    }
  }

  /** Fewer outcomes than the run at the end are all failures; more are not. */
  lemma TrailingDecides(log: seq<bool>, n: nat, m: nat)
    requires Trailing(log, n)
    ensures FailedLast(log, m) <==> m <= n
  {
    if m > n && n + 1 <= |log| {
      var i :| |log| - (n + 1) <= i < |log| && log[i];
      assert m <= |log| ==> |log| - m <= i;
    }
  }

  /** In HALF_OPEN all outcomes so far are successes; elsewhere `failures` is the run of failures at the end of the
      log. */
  ghost predicate LogOk(s: State) {
    if s.b.mode.HalfOpen? then s.b.successes == |s.log| && forall i :: 0 <= i < |s.log| ==> s.log[i]
    else s.b.successes == 0 && Trailing(s.log, s.b.failures)
  }

  ghost predicate BelowThresholds(p: Params, b: Fields) {
    b.failures < p.failureThreshold && b.successes < p.successThreshold
  }

  /** A call is counted once it is over, exactly once, unless it was blocked or passed on a CircuitOpenError. */
  ghost predicate CountedOnce(s: State) {
    forall id :: s.counted[id] == if id in s.calls && s.calls[id].Counted? then 1 else 0
  }

  ghost predicate Inv(p: Params, s: State) {
    && LogOk(s) && BelowThresholds(p, s.b) && CountedOnce(s)
    && (s.b.mode.Open? ==> s.b.lastOpenedAt.Some? && s.b.lastOpenedAt.value <= s.now)
  }

  lemma EmptyLog()
    ensures Trailing([], 0)
  {
  }

  lemma CountKeeps(p: Params, s: State, id: CallId, ok: bool)
    requires ThresholdsOk(p) && Inv(p, s) && Running(s, id)
    ensures Inv(p, Count(p, s, id, ok))
  {
    EmptyLog();
    if !s.b.mode.HalfOpen? { TrailingSnoc(s.log, s.b.failures, ok); }
  }

  lemma NextKeeps(p: Params, s: State, e: Event)
    requires ThresholdsOk(p) && Inv(p, s)
    ensures Inv(p, Next(p, s, e))
  {
    EmptyLog();
    match e
    case Completes(id, ending) =>
      if Running(s, id) && !ending.RejectedOpen? { CountKeeps(p, s, id, ending.Resolved?); }
    case Timer(id) =>
      if Running(s, id) { CountKeeps(p, s, id, false); }
    case _ =>
  }

  /** However many calls overlap, and whenever they complete: counters stay below their thresholds, they are what the
      log says, and every admitted call is counted once, even one that completes after its timeout. */
  lemma {:induction false} RunKeeps(p: Params, s: State, es: seq<Event>)
    requires ThresholdsOk(p) && Inv(p, s)
    ensures Inv(p, Run(p, s, es))
  {
    if es != [] {
      RunKeeps(p, s, es[..|es| - 1]);
      NextKeeps(p, Run(p, s, es[..|es| - 1]), es[|es| - 1]);
    }
  }

  /** Outside HALF_OPEN a counted outcome trips the breaker if and only if it completes a run of failureThreshold
      failures, none of them separated by a success, since the breaker last changed state. */
  lemma TripsExactly(p: Params, s: State, id: CallId, ok: bool)
    requires ThresholdsOk(p) && Inv(p, s) && Running(s, id) && !s.b.mode.HalfOpen?
    ensures var t := Count(p, s, id, ok);
            var trips := FailedLast(s.log + [ok], p.failureThreshold);
            && (t.log == [] <==> trips)
            && (trips ==> t.b == Fields(Open, 0, 0, Some(s.now)))
            && (!trips ==> t.b.mode == s.b.mode && t.b.lastOpenedAt == s.b.lastOpenedAt)
  {
    TrailingSnoc(s.log, s.b.failures, ok);
    TrailingDecides(s.log + [ok], if ok then 0 else s.b.failures + 1, p.failureThreshold);
  }

  /** In HALF_OPEN one failure reopens; the breaker closes if and only if this is the successThreshold-th success. */
  lemma ProbeDecides(p: Params, s: State, id: CallId, ok: bool)
    requires ThresholdsOk(p) && Inv(p, s) && Running(s, id) && s.b.mode.HalfOpen?
    ensures var t := Count(p, s, id, ok);
            && (t.b.mode.Open? <==> !ok)
            && (t.b.mode.Closed? <==> ok && |s.log| + 1 == p.successThreshold)
            && (t.b.mode.Open? ==> t.b.lastOpenedAt == Some(s.now))
  {
  }

  // ---------------------------------------------------------------- how a call ends

  /** A call in flight is counted as a success exactly when its function resolves; as a failure exactly when its
      function rejects with an ordinary error, or its timer fires once the call timeout has passed; and it is passed
      on exactly when its function rejects with a CircuitOpenError, which leaves the breaker and its counters alone.
      */
  lemma EndsExactly(p: Params, s: State, e: Event, id: CallId)
    requires ThresholdsOk(p) && Inv(p, s) && Running(s, id)
    ensures var t := Next(p, s, e);
            var succeeds := e == Completes(id, Resolved);
            var fails := e == Completes(id, Rejected)
                  || (e == Timer(id) && s.calls[id].since + p.callTimeoutMs <= s.now);
            && id in t.calls
            && (t.calls[id] == Counted <==> succeeds || fails)
            && (t.calls[id] == PassedOn <==> e == Completes(id, RejectedOpen))
            && (t.calls[id] == s.calls[id] <==> !succeeds && !fails && e != Completes(id, RejectedOpen))
            && (t.counted[id] == 1 <==> succeeds || fails)
            && (succeeds ==> t.log == s.log + [true] || (t.log == [] && s.b.mode.HalfOpen? && t.b.mode.Closed?))
            && (fails ==> t.log == s.log + [false] || (t.log == [] && t.b.mode.Open?))
            && (e == Completes(id, RejectedOpen) ==> t.b == s.b && t.log == s.log && t.counted == s.counted)
  {
    assert s.counted[id] == 0;
  }

  /** reset() makes the breaker as good as new, in whatever state it was. */
  lemma ResetIsFresh(p: Params, s: State)
    ensures var t := Next(p, s, Reset);
            t.b == Init.b && t.log == [] && t.calls == s.calls && t.counted == s.counted && t.now == s.now
  {
  }

  // ---------------------------------------------------------------- the open window

  predicate NoReset(es: seq<Event>) {
    forall i :: 0 <= i < |es| ==> !es[i].Reset?
  }

  /** No call of `t` beyond those of `s` was let through. */
  ghost predicate NothingAdmitted(s: State, t: State) {
    forall id :: id in t.calls && id !in s.calls ==> t.calls[id].Blocked?
  }

  ghost predicate OpenSince(b: Fields, since: nat) {
    b.mode.Open? && b.lastOpenedAt.Some? && b.lastOpenedAt.value >= since
  }

  lemma OpenStep(p: Params, s: State, e: Event, since: nat)
    requires OpenSince(s.b, since) && since <= s.now < since + p.resetTimeoutMs && !e.Reset?
    ensures OpenSince(Next(p, s, e).b, since) && NothingAdmitted(s, Next(p, s, e))
  {
  }

  lemma {:induction false} ClockMonotone(p: Params, s: State, es: seq<Event>)
    ensures Run(p, s, es).now >= s.now
    ensures forall id :: id in s.calls ==> id in Run(p, s, es).calls
  {
    if es != [] { ClockMonotone(p, s, es[..|es| - 1]); }
  }

  lemma NextClock(p: Params, s: State, e: Event)
    ensures Next(p, s, e).now >= s.now
  {
  }

  /** A call once blocked stays so. */
  lemma BlockedStays(p: Params, s: State, e: Event, id: CallId)
    requires id in s.calls && s.calls[id].Blocked?
    ensures id in Next(p, s, e).calls && Next(p, s, e).calls[id].Blocked?
  {
  }

  /** After a trip at time T no call is let through before T + resetTimeoutMs unless reset() is called, whatever
      happens to the calls already in flight: late failures may only move the window further out, late successes do
      not end it. */
  lemma {:induction false} OpenWindow(p: Params, s: State, es: seq<Event>)
    requires s.b.mode.Open? && s.b.lastOpenedAt.Some? && s.b.lastOpenedAt.value <= s.now && NoReset(es)
    requires Run(p, s, es).now < s.b.lastOpenedAt.value + p.resetTimeoutMs
    ensures OpenSince(Run(p, s, es).b, s.b.lastOpenedAt.value) && NothingAdmitted(s, Run(p, s, es))
  {
    if es != [] {
      var init, last := es[..|es| - 1], es[|es| - 1];
      var u := Run(p, s, init);
      ClockMonotone(p, s, init);
      NextClock(p, u, last);
      OpenWindow(p, s, init);
      OpenStep(p, u, last, s.b.lastOpenedAt.value);
      var t := Next(p, u, last);
      forall id | id in t.calls && id !in s.calls ensures t.calls[id].Blocked? {
        if id in u.calls { BlockedStays(p, u, last, id); }
      }
    }
  }

  /** Outside that window every fresh call is let through. */
  lemma AdmittedOutsideTheWindow(p: Params, s: State, id: CallId)
    requires id !in s.calls
    ensures Running(Next(p, s, Start(id)), id) <==>
              !(s.b.mode.Open? && s.now < s.b.lastOpenedAt.GetOr(0) + p.resetTimeoutMs)
  {
  }

  // ---------------------------------------------------------------- how many probes

  /** `n` calls begin one after the other. */
  function Starts(from: CallId, n: nat): seq<Event> {
    if n == 0 then [] else Starts(from, n - 1) + [Start(from + n - 1)]
  }

  /** `t` is `s` with `n` more calls let through. */
  ghost predicate LetThrough(s: State, t: State, from: CallId, n: nat) {
    && t.b == s.b && t.now == s.now && t.log == s.log && t.counted == s.counted
    && (forall id :: from <= id < from + n ==> Running(t, id))
    && (forall id :: id >= from + n ==> (id in t.calls <==> id in s.calls))
  }

  lemma OneMoreThrough(p: Params, s: State, t: State, from: CallId, n: nat)
    requires s.b.mode.HalfOpen? && LetThrough(s, t, from, n) && from + n !in s.calls
    ensures LetThrough(s, Next(p, t, Start(from + n)), from, n + 1)
  {
    var u := Next(p, t, Start(from + n));
    assert u == t.(calls := t.calls[from + n := InFlight(t.now)]);
    forall id | from <= id < from + n + 1 ensures Running(u, id) {
      if id < from + n { assert Running(t, id); }
    }
  }

  /** The class comment promises one probe in HALF_OPEN (src/infrastructure/circuit-breaker.ts:7); the code lets any
      number through at once until the first of them is counted. */
  lemma {:induction false} HalfOpenAdmitsAny(p: Params, s: State, from: CallId, n: nat)
    requires s.b.mode.HalfOpen? && forall id :: id >= from ==> id !in s.calls
    ensures LetThrough(s, Run(p, s, Starts(from, n)), from, n)
  {
    if n > 0 {
      HalfOpenAdmitsAny(p, s, from, n - 1);
      RunSnoc(p, s, Starts(from, n - 1), Start(from + n - 1));
      OneMoreThrough(p, s, Run(p, s, Starts(from, n - 1)), from, n - 1);
    }
  }

  // ---------------------------------------------------------------- a run that reaches HALF_OPEN

  ghost predicate Reachable(p: Params, s: State) {
    exists es :: s == Run(p, Init, es)
  }

  lemma ReachableNext(p: Params, s: State, e: Event) returns (t: State)
    requires Reachable(p, s)
    ensures t == Next(p, s, e) && Reachable(p, t)
  {
    var es :| s == Run(p, Init, es);
    RunSnoc(p, Init, es, e);
    t := Next(p, s, e);
    assert t == Run(p, Init, es + [e]);
  }

  ghost predicate FreshFrom(s: State, id: CallId) {
    s.now == 0 && forall k :: k >= id ==> k !in s.calls
  }

  lemma OneFails(p: Params, s: State, id: CallId) returns (t: State)
    requires ThresholdsOk(p) && Reachable(p, s) && s.b.mode.Closed? && FreshFrom(s, id)
    ensures Reachable(p, t) && FreshFrom(t, id + 1)
    ensures t.b == OnFailure(p, s.b, 0)
  {
    t := ReachableNext(p, s, Start(id));
    assert Running(t, id) && t.b == s.b;
    t := ReachableNext(p, t, Completes(id, Rejected));
  }

  /** `n` calls fail, one after the other, and the breaker is still closed. */
  lemma {:induction false} SomeFail(p: Params, n: nat) returns (s: State)
    requires ThresholdsOk(p) && n < p.failureThreshold
    ensures Reachable(p, s) && FreshFrom(s, n) && s.b == Fields(Closed, n, 0, None)
  {
    if n == 0 {
      assert Init == Run(p, Init, []);
      s := Init;
    } else {
      s := SomeFail(p, n - 1);
      s := OneFails(p, s, n - 1);
    }
  }

  /** failureThreshold failures, the reset timeout, and one question. */
  lemma ReachesHalfOpen(p: Params) returns (s: State)
    requires ThresholdsOk(p)
    ensures Reachable(p, s) && s.b.mode.HalfOpen? && forall id :: id >= p.failureThreshold ==> id !in s.calls
  {
    s := SomeFail(p, p.failureThreshold - 1);
    s := OneFails(p, s, p.failureThreshold - 1);
    assert s.b == Fields(Open, 0, 0, Some(0));
    var u := s;
    s := ReachableNext(p, s, Tick(p.resetTimeoutMs));
    assert s.b == u.b && s.calls == u.calls && s.now == p.resetTimeoutMs;
    s := ReachableNext(p, s, Ask);
  }

  /** For all thresholds and every n there is a run at whose end n calls are in flight in HALF_OPEN. */
  lemma ManyProbes(p: Params, n: nat) returns (s: State, es: seq<Event>)
    requires ThresholdsOk(p)
    ensures Reachable(p, s) && s.b.mode.HalfOpen?
    ensures var t := Run(p, s, es);
            t.b.mode.HalfOpen? && forall id :: p.failureThreshold <= id < p.failureThreshold + n ==> Running(t, id)
  {
    s := ReachesHalfOpen(p);
    es := Starts(p.failureThreshold, n);
    HalfOpenAdmitsAny(p, s, p.failureThreshold, n);
  }
}
