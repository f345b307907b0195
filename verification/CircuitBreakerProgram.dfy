/** The class CircuitBreaker in its own shape. What other calls do while one awaits its function comes in between, as a
    list of events; the result is a run of the machine in module Breaker. */
module BreakerProgram {
  import opened Prelude
  import opened Breaker

  /** What execute answers: fn's value, fn's error, the timeout error, or CircuitOpenError. */
  datatype Answered = Value | Error | TimeoutError | OpenError

  /** How the race between fn and the timer ends. */
  datatype Race = FnEnds(ending: Ending) | TimerFires

  predicate About(e: Event, id: CallId) {
    match e
    case Start(other) => other == id
    case Completes(other, _) => other == id
    case Timer(other) => other == id
    case _ => false
  }

  lemma OthersLeaveCall(p: Params, s: State, e: Event, id: CallId)
    requires !About(e, id) && id in s.calls
    ensures id in Next(p, s, e).calls && Next(p, s, e).calls[id] == s.calls[id]
  {
  }

  /** What execute answers when fn ran: the winner of the race. */
  function AnswerOf(race: Race): Answered {
    match race
    case TimerFires => TimeoutError
    case FnEnds(Resolved) => Value
    case FnEnds(Rejected) => Error
    case FnEnds(RejectedOpen) => OpenError
  }

  class CircuitBreaker {
    const p: Params
    var mode: Mode
    var failures: nat
    var successes: nat
    var lastOpenedAt: Option<nat>
    var now: nat
    var calls: map<CallId, Call>
    var log: seq<bool>
    var counted: multiset<CallId>

    constructor (p: Params)
      ensures this.p == p && View() == Init
    {
      this.p := p;
      mode, failures, successes, lastOpenedAt := Closed, 0, 0, None;
      now, calls, log, counted := 0, map[], [], multiset{};
    }

    function Current(): Fields
      reads this
    {
      Fields(mode, failures, successes, lastOpenedAt)
    }

    function View(): State
      reads this
    {
      State(now, Current(), calls, log, counted)
    }

    method TransitionTo(next: Mode)
      modifies this`mode, this`failures, this`successes, this`lastOpenedAt
      ensures Current() == Breaker.TransitionTo(old(Current()), next, now)
    {
      mode := next;
      if next == Open {
        lastOpenedAt := Some(now);
        failures := 0;
      } else if next == HalfOpen {
        successes := 0;
      } else {
        failures, successes := 0, 0;
      }
    }

    /** isOpen: true while the window lasts; the first question after it moves the breaker to HALF_OPEN. */
    method IsOpen() returns (open: bool)
      modifies this`mode, this`failures, this`successes, this`lastOpenedAt, this`log
      ensures open <==> old(Blocks(p, Current(), now))
      ensures View() == Breaker.IsOpen(p, old(View()))
    {
      var before := mode;
      open := false;
      if mode == Open {
        if now - lastOpenedAt.GetOr(0) >= p.resetTimeoutMs {
          TransitionTo(HalfOpen);
        } else {
          open := true;
        }
      }
      if mode != before { log := []; }
    }

    method OnSuccess()
      modifies this`mode, this`failures, this`successes, this`lastOpenedAt
      ensures Current() == Breaker.OnSuccess(p, old(Current()), now)
    {
      if mode == HalfOpen {
        successes := successes + 1;
        if successes >= p.successThreshold { TransitionTo(Closed); }
      } else {
        failures := 0;
      }
    }

    method OnFailure()
      modifies this`mode, this`failures, this`successes, this`lastOpenedAt
      ensures Current() == Breaker.OnFailure(p, old(Current()), now)
    {
      failures := failures + 1;
      successes := 0;
      if mode == HalfOpen || failures >= p.failureThreshold { TransitionTo(Open); }
    }

    method Reset()
      modifies this
      ensures View() == Next(p, old(View()), Event.Reset)
    {
      mode, failures, successes, lastOpenedAt := Closed, 0, 0, None;
      log := [];
    }

    method Store(s: State)
      modifies this
      ensures View() == s
    {
      mode, failures, successes, lastOpenedAt := s.b.mode, s.b.failures, s.b.successes, s.b.lastOpenedAt;
      now, calls, log, counted := s.now, s.calls, s.log, s.counted;
    }

    /** What other calls, the clock and administrators do meanwhile. */
    method Others(id: CallId, es: seq<Event>, ghost s0: State, ghost before: seq<Event>)
      returns (ghost trace: seq<Event>)
      requires View() == Run(p, s0, before) && id in calls
      modifies this
      ensures View() == Run(p, s0, trace) && id in calls && calls[id] == old(calls[id])
      ensures before <= trace
    {
      trace := before;
      for k := 0 to |es|
        invariant View() == Run(p, s0, trace) && id in calls && calls[id] == old(calls[id])
        invariant before <= trace
      {
        if !About(es[k], id) {
          RunSnoc(p, s0, trace, es[k]);
          OthersLeaveCall(p, View(), es[k], id);
          Store(Next(p, View(), es[k]));
          trace := trace + [es[k]];
        }
      }
    }

    /** The continuation of execute once its own call is decided. */
    method Conclude(id: CallId, ok: bool)
      requires Running(View(), id)
      modifies this
      ensures View() == Count(p, old(View()), id, ok)
    {
      var changes := if ok then Closes(p, Current()) else Trips(p, Current());
      log := if changes then [] else log + [ok];
      counted := counted + multiset{id};
      if ok { OnSuccess(); } else { OnFailure(); }
      calls := calls[id := Counted];
    }

    /** withTimeout: fn and the timer race; the loser is ignored. The answer is the winner's, and the clock has reached
        the deadline when the timer wins. */
    method WithTimeout(id: CallId, during: seq<Event>, race: Race, ghost s0: State, ghost before: seq<Event>)
      returns (answer: Answered, ghost trace: seq<Event>)
      requires View() == Run(p, s0, before) && Running(View(), id)
      modifies this
      ensures View() == Run(p, s0, trace) && id in calls && calls[id] == old(calls[id])
      ensures answer == AnswerOf(race)
      ensures before <= trace
      ensures race.TimerFires? ==> now >= old(calls[id]).since + p.callTimeoutMs
    {
      var deadline := calls[id].since + p.callTimeoutMs;
      trace := Others(id, during, s0, before);
      match race
      case FnEnds(Resolved) => answer := Value;
      case FnEnds(Rejected) => answer := Error;
      case FnEnds(RejectedOpen) => answer := OpenError;
      case TimerFires =>
        answer := TimeoutError;
        RunSnoc(p, s0, trace, Tick(deadline));
        if deadline > now { now := deadline; }
        trace := trace + [Tick(deadline)];
    }

    /** The start of execute: the call is refused or let through. */
    method Enter(id: CallId, ghost s0: State) returns (open: bool, ghost trace: seq<Event>)
      requires id !in calls && s0 == View()
      modifies this
      ensures View() == Run(p, s0, trace) && trace == [Start(id)] && id in calls
      ensures open <==> Blocks(p, s0.b, s0.now)
      ensures calls[id] == if open then Blocked else InFlight(now)
    {
      assert s0 == Run(p, s0, []);
      RunSnoc(p, s0, [], Start(id));
      trace := [] + [Start(id)];
      open := IsOpen();
      calls := calls[id := if open then Blocked else InFlight(now)];
    }

    /** The end of execute for a call that was let through. */
    method Settle(id: CallId, race: Race, ghost s0: State, ghost before: seq<Event>) returns (ghost trace: seq<Event>)
      requires View() == Run(p, s0, before) && Running(View(), id)
      requires race.TimerFires? ==> now >= calls[id].since + p.callTimeoutMs
      modifies this
      ensures View() == Run(p, s0, trace) && id in calls
      ensures calls[id] == if AnswerOf(race).OpenError? then PassedOn else Counted
      ensures trace == before + [if race.TimerFires? then Timer(id) else Completes(id, race.ending)]
    {
      ghost var last := if race.TimerFires? then Timer(id) else Completes(id, race.ending);
      RunSnoc(p, s0, before, last);
      trace := before + [last];
      match race
      case FnEnds(RejectedOpen) => calls := calls[id := PassedOn];
      case FnEnds(Resolved) => Conclude(id, true);
      case FnEnds(Rejected) => Conclude(id, false);
      case TimerFires => Conclude(id, false);
    }

    /** execute: blocked while the window lasts, otherwise fn runs once and its outcome is counted once, unless it is
        itself a CircuitOpenError. All of it is one run of the machine, so the theorems of module Breaker apply. */
    method Execute(id: CallId, during: seq<Event>, race: Race)
      returns (answer: Answered, ran: bool, ghost trace: seq<Event>)
      requires id !in calls
      modifies this
      ensures View() == Run(p, old(View()), trace) && id in calls
      ensures ran <==> !old(Blocks(p, Current(), now))
      ensures calls[id] == if !ran then Blocked else if answer.OpenError? then PassedOn else Counted
      ensures !ran ==> answer == OpenError
      ensures ran ==>
                && (answer == Value <==> race == FnEnds(Resolved))
                && (answer == Error <==> race == FnEnds(Rejected))
                && (answer == OpenError <==> race == FnEnds(RejectedOpen))
                && (answer == TimeoutError <==> race == TimerFires)
      ensures trace != [] && trace[0] == Start(id)
      ensures ran ==> trace[|trace| - 1] == if race.TimerFires? then Timer(id) else Completes(id, race.ending)
    {
      ghost var s0 := View();
      var open;
      open, trace := Enter(id, s0);
      ran := !open;
      if open { return OpenError, false, trace; }
      answer, trace := WithTimeout(id, during, race, s0, trace);
      trace := Settle(id, race, s0, trace);
    }
  }
}
