/** The per-seller rate limit (src/infrastructure/rate-limit.ts:50-85) on one Redis key: INCR and, for the request that
    created the key, a separate EXPIRE. Any number of requests interleave; a Redis error lets its request through. */
module RateLimit {
  import opened Prelude

  /** Requests a seller may make per window, by endpoint. */
  function LimitOf(endpoint: string): nat {
    if endpoint == "verify" then 60 else if endpoint == "settle" then 30 else 100
  }

  /** The window in whole seconds, rounded up, as EXPIRE takes it; here in ms. */
  function WindowOf(windowMs: nat): nat {
    (windowMs + 999) / 1000 * 1000
  }

  /** The window is the least number of whole seconds that holds the configured one. */
  lemma WindowRoundsUp(windowMs: nat)
    ensures WindowOf(windowMs) % 1000 == 0 && windowMs <= WindowOf(windowMs) < windowMs + 1000
  {
  }

  type RequestId = nat

  /** A lifetime of the key runs from the INCR that creates it to its expiry; a ticket is one INCR in it. */
  datatype Ticket = Ticket(life: nat, rank: nat)

  /** `creator`, the request whose INCR made the key, is history. */
  datatype Counter = Counter(value: nat, expiresAt: Option<nat>, creator: RequestId)

  /** Where a request is, or how it was answered: let through or 429, let through because a command failed, or cut
      short. The ticket it drew, if any, and the time of its answer are history. */
  datatype Pc =
    | Expiring(ticket: Ticket)
    | Admitted(ticket: Ticket, at: nat)
    | Limited(ticket: Ticket, at: nat)
    | FailedOpen(drew: Option<Ticket>)
    | Crashed(ticket: Ticket)

  /** `births`, `hits` (when each life began and how many INCRs it has had) and `drawer` are history. */
  datatype State = State(
    now: nat, counter: Option<Counter>, requests: map<RequestId, Pc>,
    births: seq<nat>, hits: seq<nat>, drawer: map<Ticket, RequestId>)

  const Init := State(0, None, map[], [], [], map[])

  datatype Event =
    | Incr(id: RequestId, reply: Reply)
    | Expire(id: RequestId, reply: Reply)
    | Crash(id: RequestId)
    | Tick(to: nat)

  datatype Params = Params(limit: nat, window: nat)

  /** The ticket the next INCR draws. */
  function NextTicket(s: State): Ticket {
    match s.counter
    case None => Ticket(|s.births|, 1)
    case Some(c) => Ticket(if s.births == [] then 0 else |s.births| - 1, c.value + 1)
  }

  /** INCR's effect: a new life, or one more hit in the current one. */
  function Hit(s: State, id: RequestId): State {
    var drawer := s.drawer[NextTicket(s) := id];
    match s.counter
    case None =>
      s.(counter := Some(Counter(1, None, id)), births := s.births + [s.now], hits := s.hits + [1], drawer := drawer)
    case Some(c) =>
      s.(counter := Some(c.(value := c.value + 1)), drawer := drawer,
         hits := if s.hits == [] then [] else s.hits[|s.hits| - 1 := c.value + 1])
  }

  /** 429 when the count is beyond the limit. */
  function Verdict(p: Params, s: State, t: Ticket): Pc {
    if t.rank > p.limit then Limited(t, s.now) else Admitted(t, s.now)
  }

  function IncrStep(p: Params, s: State, id: RequestId, reply: Reply): State {
    var t := NextTicket(s);
    match reply
    case Dropped => s.(requests := s.requests[id := FailedOpen(None)])
    case ReplyLost => Hit(s, id).(requests := s.requests[id := FailedOpen(Some(t))])
    case Delivered => Hit(s, id).(requests := s.requests[id := if t.rank == 1 then Expiring(t) else Verdict(p, s, t)])
  }

  function SetExpiry(p: Params, s: State): State {
    if s.counter.Some? then s.(counter := Some(s.counter.value.(expiresAt := Some(s.now + p.window)))) else s
  }

  function ExpireStep(p: Params, s: State, id: RequestId, t: Ticket, reply: Reply): State {
    match reply
    case Dropped => s.(requests := s.requests[id := FailedOpen(Some(t))])
    case ReplyLost => SetExpiry(p, s).(requests := s.requests[id := FailedOpen(Some(t))])
    case Delivered => SetExpiry(p, s).(requests := s.requests[id := Verdict(p, s, t)])
  }

  predicate AwaitsExpire(s: State, id: RequestId) {
    id in s.requests && s.requests[id].Expiring?
  }

  /** Time passes; a key whose time is up is gone. */
  function Advance(s: State, to: nat): State {
    if to < s.now then s
    else
      var dead := s.counter.Some? && s.counter.value.expiresAt.Some? && s.counter.value.expiresAt.value <= to;
      s.(now := to, counter := if dead then None else s.counter)
  }

  function Next(p: Params, s: State, e: Event): State {
    match e
    case Incr(id, reply) => if id in s.requests then s else IncrStep(p, s, id, reply)
    case Expire(id, reply) => if AwaitsExpire(s, id) then ExpireStep(p, s, id, s.requests[id].ticket, reply) else s
    case Crash(id) =>
      if AwaitsExpire(s, id) then s.(requests := s.requests[id := Crashed(s.requests[id].ticket)]) else s
    case Tick(to) => Advance(s, to)
  }

  function Run(p: Params, s: State, es: seq<Event>): State {
    if es == [] then s else Next(p, Run(p, s, es[..|es| - 1]), es[|es| - 1])
  }

  lemma RunSnoc(p: Params, s: State, es: seq<Event>, e: Event)
    ensures Run(p, s, es + [e]) == Next(p, Run(p, s, es), e)
  {
    assert (es + [e])[..|es + [e]| - 1] == es;
  }

  // ---------------------------------------------------------------- the invariant

  predicate Drawn(s: State, t: Ticket) {
    t.life < |s.hits| && 1 <= t.rank <= s.hits[t.life]
  }

  /** The ticket a request drew. */
  function TicketOf(pc: Pc): Option<Ticket> {
    match pc
    case Expiring(t) => Some(t)
    case Admitted(t, _) => Some(t)
    case Limited(t, _) => Some(t)
    case FailedOpen(drew) => drew
    case Crashed(t) => Some(t)
  }

  predicate Answered(pc: Pc) {
    pc.Admitted? || pc.Limited?
  }

  /** Lives follow one another, each at least a window after the one before; the key belongs to the last. */
  ghost predicate LivesOk(p: Params, s: State) {
    && |s.births| == |s.hits|
    && (forall i :: 0 <= i < |s.births| ==> s.births[i] <= s.now)
    && (forall i, j :: 0 <= i < j < |s.births| ==> s.births[i] + p.window <= s.births[j])
    && (s.counter.None? && |s.births| > 0 ==> s.births[|s.births| - 1] + p.window <= s.now)
    && (s.counter.Some? ==>
          && |s.births| > 0 && s.counter.value.value == s.hits[|s.hits| - 1] >= 1
          && (s.counter.value.expiresAt.Some? ==>
                s.now < s.counter.value.expiresAt.value
                && s.counter.value.expiresAt.value >= s.births[|s.births| - 1] + p.window))
  }

  /** Whoever still has to send EXPIRE created the current life. */
  ghost predicate PendingOk(s: State) {
    forall id :: AwaitsExpire(s, id) ==>
      && s.counter.Some? && s.counter.value.expiresAt.None? && s.counter.value.creator == id
      && s.requests[id].ticket.rank == 1 && s.requests[id].ticket.life + 1 == |s.births|
  }

  /** Every drawn ticket has one drawer, and every request its own ticket. */
  ghost predicate DrawersOk(s: State) {
    && (s.counter.Some? ==> s.counter.value.creator in s.requests)
    && (forall t :: t in s.drawer <==> Drawn(s, t))
    && (forall t :: t in s.drawer ==> s.drawer[t] in s.requests && TicketOf(s.requests[s.drawer[t]]) == Some(t))
    && (forall id :: id in s.requests && TicketOf(s.requests[id]).Some? ==>
          TicketOf(s.requests[id]).value in s.drawer && s.drawer[TicketOf(s.requests[id]).value] == id)
  }

  /** A request is let through by count exactly when its rank is within the limit. */
  ghost predicate AnswersOk(p: Params, s: State) {
    forall id :: id in s.requests && Answered(s.requests[id]) ==>
      (s.requests[id].Admitted? <==> s.requests[id].ticket.rank <= p.limit)
  }

  /** An answer falls into the life of its ticket. */
  ghost predicate TimeOk(s: State, life: nat, at: nat) {
    && life < |s.births| && s.births[life] <= at <= s.now
    && (life + 1 < |s.births| ==> at < s.births[life + 1])
    && (life + 1 == |s.births| && s.counter.None? ==> at < s.now)
  }

  ghost predicate TimesOk(s: State) {
    forall id :: id in s.requests && Answered(s.requests[id]) ==>
          TimeOk(s, s.requests[id].ticket.life, s.requests[id].at)
  }

  ghost predicate Inv(p: Params, s: State) {
    LivesOk(p, s) && PendingOk(s) && DrawersOk(s) && AnswersOk(p, s) && TimesOk(s)
  }

  lemma HitLives(p: Params, s: State, id: RequestId)
    requires p.window >= 1 && LivesOk(p, s)
    ensures LivesOk(p, Hit(s, id))
  {
  }

  lemma ExpiryLives(p: Params, s: State)
    requires p.window >= 1 && LivesOk(p, s)
    ensures LivesOk(p, SetExpiry(p, s))
  {
  }

  lemma AdvanceLives(p: Params, s: State, to: nat)
    requires LivesOk(p, s)
    ensures LivesOk(p, Advance(s, to))
  {
  }

  predicate SameKey(s: State, t: State) {
    t.now == s.now && t.counter == s.counter && t.births == s.births && t.hits == s.hits
  }

  /** What a step does to the key, without regard to the request's answer. */
  function KeyAfter(p: Params, s: State, e: Event): State {
    match e
    case Incr(id, reply) => if id in s.requests || reply.Dropped? then s else Hit(s, id)
    case Expire(id, reply) => if !AwaitsExpire(s, id) || reply.Dropped? then s else SetExpiry(p, s)
    case Crash(_) => s
    case Tick(to) => Advance(s, to)
  }

  lemma KeyStep(p: Params, s: State, e: Event)
    ensures SameKey(KeyAfter(p, s, e), Next(p, s, e))
  {
  }

  lemma SameKeyLives(p: Params, s: State, t: State)
    requires LivesOk(p, s) && SameKey(s, t)
    ensures LivesOk(p, t)
  {
  }

  lemma LivesStep(p: Params, s: State, e: Event)
    requires p.window >= 1 && LivesOk(p, s)
    ensures LivesOk(p, Next(p, s, e))
  {
    KeyStep(p, s, e);
    match e
    case Incr(id, _) => HitLives(p, s, id); SameKeyLives(p, KeyAfter(p, s, e), Next(p, s, e));
    case Expire(id, _) => ExpiryLives(p, s); SameKeyLives(p, KeyAfter(p, s, e), Next(p, s, e));
    case Crash(_) => SameKeyLives(p, s, Next(p, s, e));
    case Tick(to) => AdvanceLives(p, s, to); SameKeyLives(p, KeyAfter(p, s, e), Next(p, s, e));
  }

  lemma PendingStep(p: Params, s: State, e: Event)
    requires LivesOk(p, s) && PendingOk(s)
    ensures PendingOk(Next(p, s, e))
  {
  }

  // ---------------------------------------------------------------- what a step does to the requests

  /** The request a step moves. */
  function Mover(s: State, e: Event): Option<RequestId> {
    match e
    case Incr(id, _) => if id in s.requests then None else Some(id)
    case Expire(id, _) => if AwaitsExpire(s, id) then Some(id) else None
    case Crash(id) => if AwaitsExpire(s, id) then Some(id) else None
    case Tick(_) => None
  }

  /** Where it goes. */
  function Goes(p: Params, s: State, e: Event): Pc
    requires Mover(s, e).Some?
  {
    match e
    case Incr(id, Dropped) => FailedOpen(None)
    case Incr(id, ReplyLost) => FailedOpen(Some(NextTicket(s)))
    case Incr(id, Delivered) =>
      if NextTicket(s).rank == 1 then Expiring(NextTicket(s)) else Verdict(p, s, NextTicket(s))
    case Expire(id, Delivered) => Verdict(p, s, s.requests[id].ticket)
    case Expire(id, _) => FailedOpen(Some(s.requests[id].ticket))
    case Crash(id) => Crashed(s.requests[id].ticket)
  }

  lemma RequestsStep(p: Params, s: State, e: Event)
    ensures var t := Next(p, s, e);
            t.requests == if Mover(s, e).Some? then s.requests[Mover(s, e).value := Goes(p, s, e)] else s.requests
    ensures Next(p, s, e).drawer == KeyAfter(p, s, e).drawer
  {
  }

  lemma DrawersSame(s: State, t: State, id: RequestId, pc: Pc)
    requires DrawersOk(s) && id in s.requests && TicketOf(pc) == TicketOf(s.requests[id])
    requires t.requests == s.requests[id := pc] && t.drawer == s.drawer && t.hits == s.hits
    requires t.counter.Some? ==> s.counter.Some? && t.counter.value.creator == s.counter.value.creator
    ensures DrawersOk(t)
  {
    assert forall k :: Drawn(t, k) <==> Drawn(s, k);
  }

  lemma DrawersUntouched(s: State, t: State)
    requires DrawersOk(s) && t.requests == s.requests && t.drawer == s.drawer && t.hits == s.hits
    requires t.counter.Some? ==> s.counter.Some? && t.counter.value.creator == s.counter.value.creator
    ensures DrawersOk(t)
  {
    assert forall k :: Drawn(t, k) <==> Drawn(s, k);
  }

  lemma HitDraws(p: Params, s: State, id: RequestId, k: Ticket)
    requires LivesOk(p, s)
    ensures Drawn(Hit(s, id), k) <==> Drawn(s, k) || k == NextTicket(s)
    ensures !Drawn(s, NextTicket(s))
  {
  }

  lemma DrawersHit(p: Params, s: State, t: State, id: RequestId, pc: Pc)
    requires LivesOk(p, s) && DrawersOk(s) && id !in s.requests && TicketOf(pc) == Some(NextTicket(s))
    requires t.requests == s.requests[id := pc] && t.drawer == s.drawer[NextTicket(s) := id]
    requires t.hits == Hit(s, id).hits && t.counter == Hit(s, id).counter
    ensures DrawersOk(t)
  {
    forall k ensures Drawn(t, k) <==> Drawn(s, k) || k == NextTicket(s) { HitDraws(p, s, id, k); }
    HitDraws(p, s, id, NextTicket(s));
  }

  lemma DrawersNew(s: State, t: State, id: RequestId)
    requires DrawersOk(s) && id !in s.requests
    requires t == s.(requests := s.requests[id := FailedOpen(None)])
    ensures DrawersOk(t)
  {
    assert forall k :: Drawn(t, k) <==> Drawn(s, k);
  }

  lemma DrawersStep(p: Params, s: State, e: Event)
    requires LivesOk(p, s) && DrawersOk(s)
    ensures DrawersOk(Next(p, s, e))
  {
    var t := Next(p, s, e);
    RequestsStep(p, s, e);
    match e
    case Incr(id, reply) =>
      if id !in s.requests {
        if reply.Dropped? { DrawersNew(s, t, id); } else { DrawersHit(p, s, t, id, Goes(p, s, e)); }
      }
    case Expire(id, _) => if AwaitsExpire(s, id) { DrawersSame(s, t, id, Goes(p, s, e)); }
    case Crash(id) => if AwaitsExpire(s, id) { DrawersSame(s, t, id, Goes(p, s, e)); }
    case Tick(_) => DrawersUntouched(s, t);
  }

  lemma AnswersStep(p: Params, s: State, e: Event)
    requires AnswersOk(p, s)
    ensures AnswersOk(p, Next(p, s, e))
  {
    RequestsStep(p, s, e);
  }

  /** The times of a life stay good while the key moves on. */
  lemma TimeStays(p: Params, s: State, e: Event, life: nat, at: nat)
    requires LivesOk(p, s) && TimeOk(s, life, at)
    ensures TimeOk(Next(p, s, e), life, at)
  {
    KeyStep(p, s, e);
  }

  /** A new answer is given while the life of its ticket lasts. */
  lemma NewTime(p: Params, s: State, e: Event)
    requires LivesOk(p, s) && PendingOk(s) && Mover(s, e).Some? && Answered(Goes(p, s, e))
    ensures TimeOk(Next(p, s, e), Goes(p, s, e).ticket.life, Goes(p, s, e).at)
  {
    KeyStep(p, s, e);
  }

  lemma TimesStep(p: Params, s: State, e: Event)
    requires LivesOk(p, s) && PendingOk(s) && TimesOk(s)
    ensures TimesOk(Next(p, s, e))
  {
    var t := Next(p, s, e);
    RequestsStep(p, s, e);
    forall id | id in t.requests && Answered(t.requests[id])
      ensures TimeOk(t, t.requests[id].ticket.life, t.requests[id].at) {
      if Mover(s, e) == Some(id) {
        NewTime(p, s, e);
      } else {
        TimeStays(p, s, e, s.requests[id].ticket.life, s.requests[id].at);
      }
    }
  }

  lemma NextKeeps(p: Params, s: State, e: Event)
    requires p.window >= 1 && Inv(p, s)
    ensures Inv(p, Next(p, s, e))
  {
    LivesStep(p, s, e);
    PendingStep(p, s, e);
    DrawersStep(p, s, e);
    AnswersStep(p, s, e);
    TimesStep(p, s, e);
  }

  lemma {:induction false} RunKeeps(p: Params, s: State, es: seq<Event>)
    requires p.window >= 1 && Inv(p, s)
    ensures Inv(p, Run(p, s, es))
  {
    if es != [] {
      RunKeeps(p, s, es[..|es| - 1]);
      NextKeeps(p, Run(p, s, es[..|es| - 1]), es[|es| - 1]);
    }
  }

  ghost predicate Reachable(p: Params, s: State) {
    exists es :: s == Run(p, Init, es)
  }

  lemma ReachableInv(p: Params, s: State)
    requires p.window >= 1 && Reachable(p, s)
    ensures Inv(p, s)
  {
    var es :| s == Run(p, Init, es);
    RunKeeps(p, Init, es);
  }
}
