/** The lock of settlePayment. It is deleted twice on the failure path (src/settlement/settle-payment.ts:217 and :225)
    and carries no owner, so the second DEL may remove somebody else's. */
module SettleLocks {
  import opened Prelude
  import opened Registry
  import opened SettlePayment
  import opened SettleTheorems
  import opened SettleWitnesses

  /** Holding the lock: from the successful SET NX until a DEL of its own was acknowledged. */
  predicate Inside(pc: Pc) {
    match pc
    case Loading(_, _) => false
    case Checking(_, _) => false
    case Locking(_, _) => false
    case Finally(_, result) => result != Threw(SettlementFailed)
    case Done(_, _) => false
    case _ => true
  }

  ghost predicate Mutex(s: State) {
    && (forall c :: c in s.callers && Inside(s.callers[c]) ==> s.callers[c].r in s.locks)
    && (forall c, d :: c in s.callers && d in s.callers && c != d && Inside(s.callers[c]) && Inside(s.callers[d]) ==>
          s.callers[c].r != s.callers[d].r)
  }

  ghost predicate Held(s: State, r: RequestId) {
    exists d :: d in s.callers && Inside(s.callers[d]) && s.callers[d].r == r
  }

  /** The lock goes while somebody holds it: it expires, its holder's first DEL deletes it and is not acknowledged, or
      the DEL of the finally block comes after an acknowledged one and finds another caller's lock. */
  ghost predicate TakesLock(s: State, e: Event) {
    match e
    case LockExpires(r) => Held(s, r)
    case Act(c, reply, _) =>
      c in s.callers && !reply.Dropped? &&
      (match s.callers[c]
       case Unlocking(_) => reply.ReplyLost?
       case Finally(r, result) => result == Threw(SettlementFailed) && Held(s, r)
       case _ => false)
    case _ => false
  }

  function Moved(cfg: Config, reqs: Requests, s: State, pc: Pc, reply: Reply, x: Choice): Pc {
    if reply.Delivered? then Resume(cfg, reqs, s, pc, x) else Catch(cfg, pc)
  }

  lemma MovedInside(cfg: Config, reqs: Requests, s: State, pc: Pc, reply: Reply, x: Choice)
    ensures var pc' := Moved(cfg, reqs, s, pc, reply, x);
            && pc'.r == pc.r
            && (Inside(pc') && !Inside(pc) ==> pc.Locking? && reply.Delivered? && pc.r !in s.locks)
  {
  }

  lemma LockEffect(cfg: Config, reqs: Requests, s: State, pc: Pc, x: Choice)
    ensures var t := Effect(cfg, reqs, s, pc, x);
            t.locks == if pc.Locking? then s.locks + {pc.r}
                       else if pc.Unlocking? || pc.Finally? then s.locks - {pc.r} else s.locks
  {
  }

  lemma ActMutex(cfg: Config, reqs: Requests, s: State, c: CallerId, reply: Reply, x: Choice)
    requires Mutex(s) && c in s.callers && !TakesLock(s, Act(c, reply, x))
    ensures Mutex(ActStep(cfg, reqs, s, c, reply, x))
  {
    var pc := s.callers[c];
    MovedInside(cfg, reqs, s, pc, reply, x);
    LockEffect(cfg, reqs, s, pc, x);
    var t := ActStep(cfg, reqs, s, c, reply, x);
    assert t.callers == s.callers[c := Moved(cfg, reqs, s, pc, reply, x)];
    forall d | d in t.callers && Inside(t.callers[d]) ensures t.callers[d].r in t.locks {
      if d != c { assert s.callers[d].r in s.locks; }
    }
  }

  /** A lock taken from its holder leaves the holder inside without it. */
  lemma TakingBreaks(cfg: Config, reqs: Requests, s: State, e: Event)
    requires TakesLock(s, e)
    ensures !Mutex(Next(cfg, reqs, s, e))
  {
    var t := Next(cfg, reqs, s, e);
    match e
    case LockExpires(r) =>
      var d :| d in s.callers && Inside(s.callers[d]) && s.callers[d].r == r;
      assert t.callers[d] == s.callers[d] && r !in t.locks;
    case Act(c, _, x) =>
      var r := s.callers[c].r;
      LockEffect(cfg, reqs, s, s.callers[c], x);
      if s.callers[c].Unlocking? {
        assert Inside(t.callers[c]) && t.callers[c].r == r && r !in t.locks;
      } else {
        var d :| d in s.callers && Inside(s.callers[d]) && s.callers[d].r == r;
        assert d != c && t.callers[d] == s.callers[d] && r !in t.locks;
      }
  }

  lemma QuietMutex(cfg: Config, reqs: Requests, s: State, e: Event)
    requires Mutex(s) && !TakesLock(s, e) && (e.Act? ==> e.c !in s.callers)
    ensures Mutex(Next(cfg, reqs, s, e))
  {
    var t := Next(cfg, reqs, s, e);
    forall d | d in t.callers && Inside(t.callers[d]) ensures t.callers[d].r in t.locks {
      assert d in s.callers && s.callers[d] == t.callers[d];
    }
  }

  /** A step breaks mutual exclusion if and only if it takes the lock from somebody who holds it. */
  lemma MutexExactly(cfg: Config, reqs: Requests, s: State, e: Event)
    requires Mutex(s)
    ensures Mutex(Next(cfg, reqs, s, e)) <==> !TakesLock(s, e)
  {
    if TakesLock(s, e) {
      TakingBreaks(cfg, reqs, s, e);
    } else if e.Act? && e.c in s.callers {
      ActMutex(cfg, reqs, s, e.c, e.reply, e.choice);
    } else {
      QuietMutex(cfg, reqs, s, e);
    }
  }

  // ---------------------------------------------------------------- two callers inside at once

  /** No lock expires and nobody crashes. */
  predicate Undisturbed(es: seq<Event>) {
    forall i :: 0 <= i < |es| ==> !es[i].LockExpires? && !es[i].Crash?
  }

  /** For every submittable request, and any number of endpoints, there is a run without expiry or crash in which two
      callers are between their SET NX and their DEL at once: call 1, whom every endpoint refused, has deleted its lock;
      call 2 enters; the second DEL of call 1, step `i`, takes the lock of call 2; and call 3 enters. */
  lemma TwoInside(cfg: Config, reqs: Requests, r: RequestId) returns (es: seq<Event>, i: nat)
    requires Submittable(cfg, reqs, r) && cfg.rpcUrls >= 1
    ensures Undisturbed(es) && i < |es| && es[i] == Answered(1)
    ensures var u := Run(cfg, reqs, Init, es[..i]);
            && Mutex(u) && 1 in u.callers && u.callers[1] == Finally(r, Threw(SettlementFailed)) && TakesLock(u, es[i])
    ensures Run(cfg, reqs, Init, es).callers ==
              map[1 := Done(r, Threw(SettlementFailed)), 2 := Creating(r, None), 3 := Creating(r, None)]
  {
    var before, u := SecondEnters(cfg, reqs, r);
    SecondDeleteTakes(cfg, reqs, u, r);
    i := |before|;
    es := ThirdEnters(cfg, reqs, before, u, r);
    assert es[..i] == before;
  }

  lemma SecondEnters(cfg: Config, reqs: Requests, r: RequestId) returns (es: seq<Event>, u: State)
    requires Submittable(cfg, reqs, r) && cfg.rpcUrls >= 1
    ensures u == Run(cfg, reqs, Init, es) && Undisturbed(es) && NoneConfirmed(u.rows, r) && u.locks == {r}
    ensures u.callers == map[1 := Finally(r, Threw(SettlementFailed)), 2 := Creating(r, None)]
  {
    es, u := FirstFails(cfg, reqs, r);
    es, u := Enters(cfg, reqs, es, u, 2, r);
  }

  lemma ThirdEnters(cfg: Config, reqs: Requests, before: seq<Event>, u: State, r: RequestId) returns (es: seq<Event>)
    requires u == Run(cfg, reqs, Init, before) && Undisturbed(before)
    requires Submittable(cfg, reqs, r) && NoneConfirmed(u.rows, r) && u.locks == {r}
    requires u.callers == map[1 := Finally(r, Threw(SettlementFailed)), 2 := Creating(r, None)]
    ensures Undisturbed(es) && before + [Answered(1)] <= es
    ensures Run(cfg, reqs, Init, es).callers ==
              map[1 := Done(r, Threw(SettlementFailed)), 2 := Creating(r, None), 3 := Creating(r, None)]
  {
    var t;
    es, t := DeletesSecond(cfg, reqs, before, u, r);
    es, t := Enters(cfg, reqs, es, t, 3, r);
  }

  lemma DeletesSecond(cfg: Config, reqs: Requests, before: seq<Event>, u: State, r: RequestId)
    returns (es: seq<Event>, t: State)
    requires u == Run(cfg, reqs, Init, before) && u.locks == {r}
    requires u.callers == map[1 := Finally(r, Threw(SettlementFailed)), 2 := Creating(r, None)]
    ensures es == before + [Answered(1)] && t == Run(cfg, reqs, Init, es)
    ensures t.locks == {} && t.rows == u.rows
    ensures t.callers == map[1 := Done(r, Threw(SettlementFailed)), 2 := Creating(r, None)]
  {
    DeletesAgain(cfg, reqs, u, 1, r);
    es, t := Go(cfg, reqs, before, u, Answered(1));
    assert {r} - {r} == {};
  }

  lemma SecondDeleteTakes(cfg: Config, reqs: Requests, u: State, r: RequestId)
    requires u.callers == map[1 := Finally(r, Threw(SettlementFailed)), 2 := Creating(r, None)] && u.locks == {r}
    ensures Mutex(u) && TakesLock(u, Answered(1))
  {
    assert Inside(u.callers[2]) && u.callers[2].r == r;
  }

  lemma FirstFails(cfg: Config, reqs: Requests, r: RequestId) returns (es: seq<Event>, s: State)
    requires Submittable(cfg, reqs, r) && cfg.rpcUrls >= 1
    ensures s == Run(cfg, reqs, Init, es) && Undisturbed(es)
    ensures s.callers == map[1 := Finally(r, Threw(SettlementFailed))] && s.locks == {} && NoneConfirmed(s.rows, r)
  {
    es, s := FirstRefused(cfg, reqs, r);
    es, s := UnlocksOnce(cfg, reqs, es, s, 1, r, 0);
    assert {r} - {r} == {};
  }

  lemma FirstRefused(cfg: Config, reqs: Requests, r: RequestId) returns (es: seq<Event>, s: State)
    requires Submittable(cfg, reqs, r) && cfg.rpcUrls >= 1
    ensures s == Run(cfg, reqs, Init, es) && Undisturbed(es)
    ensures s.callers == map[1 := Failing(r, 0)] && s.locks == {r} && s.rows == [PendingRow(r)]
  {
    es, s := Submits(cfg, reqs, [], Init, 1, r);
    assert s.locks == {r};
    es, s := RefusesRest(cfg, reqs, es, s, 1, r, 0, 0);
  }

  // ---------------------------------------------------------------- a call that crashes keeps its lock

  /** Nothing fails but call 1, which crashes. */
  predicate OnlyCrash(es: seq<Event>) {
    forall i :: 0 <= i < |es| ==> Fine(es[i]) || es[i] == Crash(1)
  }

  /** For every submittable request: a call that crashes at its first broadcast leaves its row pending and its lock
      held; the next call is turned away by the lock, and once the lock has expired another one gets in. */
  lemma CrashKeepsLock(cfg: Config, reqs: Requests, r: RequestId) returns (es: seq<Event>, later: seq<Event>)
    requires Submittable(cfg, reqs, r) && cfg.rpcUrls >= 1
    ensures OnlyCrash(es) && GoesOn(es + [LockExpires(r)], later)
    ensures var s := Run(cfg, reqs, Init, es);
            && s.callers == map[1 := Done(r, Crashed), 2 := Done(r, InProgress)]
            && s.rows == [PendingRow(r)] && s.locks == {r}
    ensures Run(cfg, reqs, Init, later).callers ==
              map[1 := Done(r, Crashed), 2 := Done(r, InProgress), 3 := Creating(r, None)]
  {
    var s;
    es, s := SecondTurnedAway(cfg, reqs, r);
    later := EntersOnExpiry(cfg, reqs, es, s, r);
  }

  lemma CrashesInside(cfg: Config, reqs: Requests, r: RequestId) returns (es: seq<Event>, s: State)
    requires Submittable(cfg, reqs, r) && cfg.rpcUrls >= 1
    ensures s == Run(cfg, reqs, Init, es) && OnlyCrash(es)
    ensures s.callers == map[1 := Done(r, Crashed)] && s.locks == {r} && s.rows == [PendingRow(r)]
  {
    es, s := Submits(cfg, reqs, [], Init, 1, r);
    es, s := Go(cfg, reqs, es, s, Crash(1));
  }

  lemma SecondTurnedAway(cfg: Config, reqs: Requests, r: RequestId) returns (es: seq<Event>, s: State)
    requires Submittable(cfg, reqs, r) && cfg.rpcUrls >= 1
    ensures s == Run(cfg, reqs, Init, es) && OnlyCrash(es)
    ensures s.callers == map[1 := Done(r, Crashed), 2 := Done(r, InProgress)]
    ensures s.locks == {r} && s.rows == [PendingRow(r)]
  {
    es, s := CrashesInside(cfg, reqs, r);
    es, s := TurnedAway(cfg, reqs, es, s, 2, r);
  }

  lemma EntersOnExpiry(cfg: Config, reqs: Requests, es: seq<Event>, s: State, r: RequestId)
    returns (later: seq<Event>)
    requires s == Run(cfg, reqs, Init, es) && Submittable(cfg, reqs, r)
    requires s.callers == map[1 := Done(r, Crashed), 2 := Done(r, InProgress)]
    requires s.locks == {r} && s.rows == [PendingRow(r)]
    ensures GoesOn(es + [LockExpires(r)], later)
    ensures Run(cfg, reqs, Init, later).callers ==
              map[1 := Done(r, Crashed), 2 := Done(r, InProgress), 3 := Creating(r, None)]
  {
    var fs, t;
    fs, t := Go(cfg, reqs, es, s, LockExpires(r));
    assert {r} - {r} == {};
    later, t := Enters(cfg, reqs, fs, t, 3, r);
  }

  /** A new caller finds the lock taken. */
  lemma TurnedAway(cfg: Config, reqs: Requests, es: seq<Event>, s: State, c: CallerId, r: RequestId)
    returns (fs: seq<Event>, t: State)
    requires s == Run(cfg, reqs, Init, es)
    requires Submittable(cfg, reqs, r) && c !in s.callers && r in s.locks && NoneConfirmed(s.rows, r)
    ensures t == Run(cfg, reqs, Init, fs) && GoesOn(es, fs)
    ensures t == s.(callers := s.callers[c := Done(r, InProgress)])
  {
    fs, t := Go(cfg, reqs, es, s, Begin(c, r, None));
    Loads(cfg, reqs, t, c, r);
    fs, t := Go(cfg, reqs, fs, t, Answered(c));
    Checks(cfg, reqs, t, c, r);
    fs, t := Go(cfg, reqs, fs, t, Answered(c));
    FindsLock(cfg, reqs, t, c, r);
    fs, t := Go(cfg, reqs, fs, t, Answered(c));
    assert t.callers == s.callers[c := Done(r, InProgress)];
  }

  lemma FindsLock(cfg: Config, reqs: Requests, s: State, c: CallerId, r: RequestId)
    requires c in s.callers && s.callers[c] == Locking(r, None) && r in s.locks
    ensures Next(cfg, reqs, s, Answered(c)) == s.(callers := s.callers[c := Done(r, InProgress)])
  {
    assert s.locks + {r} == s.locks;
  }
}
