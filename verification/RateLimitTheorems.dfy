/** What the per-seller rate limit guarantees: how many requests one lifetime of the key and one window let through, and
    exactly when the key outlives its window for ever. */
module RateLimitTheorems {
  import opened Prelude
  import opened RateLimit

  // ---------------------------------------------------------------- requests and tickets are counted alike

  function Ranks(life: nat, n: nat): set<Ticket> {
    if n == 0 then {} else Ranks(life, n - 1) + {Ticket(life, n)}
  }

  lemma {:induction false} RanksAre(life: nat, n: nat)
    ensures forall t :: t in Ranks(life, n) <==> t.life == life && 1 <= t.rank <= n
    ensures |Ranks(life, n)| == n
  {
    if n > 0 { RanksAre(life, n - 1); }
  }

  /** Requests whose tickets lie in `tickets` are at most as many. */
  lemma {:induction false} AtMostTheirTickets(s: State, ids: set<RequestId>, tickets: set<Ticket>)
    requires DrawersOk(s)
    requires forall id :: id in ids ==>
               id in s.requests && TicketOf(s.requests[id]).Some? && TicketOf(s.requests[id]).value in tickets
    ensures |ids| <= |tickets|
  {
    if ids != {} {
      var id :| id in ids;
      AtMostTheirTickets(s, ids - {id}, tickets - {TicketOf(s.requests[id]).value});
    }
  }

  /** Tickets drawn by requests in `ids` are at most as many. */
  lemma {:induction false} AtMostTheirDrawers(s: State, tickets: set<Ticket>, ids: set<RequestId>)
    requires DrawersOk(s)
    requires forall t :: t in tickets ==> t in s.drawer && s.drawer[t] in ids
    ensures |tickets| <= |ids|
  {
    if tickets != {} {
      var t :| t in tickets;
      AtMostTheirDrawers(s, tickets - {t}, ids - {s.drawer[t]});
    }
  }

  // ---------------------------------------------------------------- exactly min(n, limit) per life

  /** The request made its INCR in this life of the key. */
  predicate MadeIn(pc: Pc, life: nat) {
    TicketOf(pc).Some? && TicketOf(pc).value.life == life
  }

  ghost function RequestsOf(s: State, life: nat): set<RequestId> {
    set id | id in s.requests && MadeIn(s.requests[id], life)
  }

  ghost function AdmittedOf(s: State, life: nat): set<RequestId> {
    set id | id in s.requests && MadeIn(s.requests[id], life) && s.requests[id].Admitted?
  }

  function Least(a: nat, b: nat): nat { if a <= b then a else b }

  lemma CountOfLife(p: Params, s: State, life: nat)
    requires Inv(p, s) && life < |s.hits|
    ensures |RequestsOf(s, life)| == s.hits[life]
  {
    RanksAre(life, s.hits[life]);
    var ids, tickets := RequestsOf(s, life), Ranks(life, s.hits[life]);
    forall id | id in ids ensures TicketOf(s.requests[id]).value in tickets {
      assert Drawn(s, TicketOf(s.requests[id]).value);
    }
    AtMostTheirTickets(s, ids, tickets);
    forall t | t in tickets ensures t in s.drawer && s.drawer[t] in ids { assert Drawn(s, t); }
    AtMostTheirDrawers(s, tickets, ids);
  }

  lemma AtMostLimitPerLife(p: Params, s: State, life: nat)
    requires Inv(p, s)
    ensures |AdmittedOf(s, life)| <= p.limit
  {
    RanksAre(life, p.limit);
    forall id | id in AdmittedOf(s, life) ensures TicketOf(s.requests[id]).value in Ranks(life, p.limit) {
      assert Drawn(s, TicketOf(s.requests[id]).value);
    }
    AtMostTheirTickets(s, AdmittedOf(s, life), Ranks(life, p.limit));
  }

  /** One life of the key lets exactly min(n, limit) of its n requests through, once all of them have been answered by
      count: none still waits for EXPIRE, crashed, or passed because a command failed. */
  lemma LifeAdmitsExactly(p: Params, s: State, life: nat)
    requires p.window >= 1 && Reachable(p, s) && life < |s.births|
    requires forall id :: id in RequestsOf(s, life) ==> Answered(s.requests[id])
    ensures |AdmittedOf(s, life)| == Least(|RequestsOf(s, life)|, p.limit)
  {
    ReachableInv(p, s);
    CountOfLife(p, s, life);
    AtMostLimitPerLife(p, s, life);
    var n := Least(s.hits[life], p.limit);
    RanksAre(life, n);
    forall t | t in Ranks(life, n) ensures t in s.drawer && s.drawer[t] in AdmittedOf(s, life) {
      assert Drawn(s, t);
      assert s.drawer[t] in RequestsOf(s, life);
    }
    AtMostTheirDrawers(s, Ranks(life, n), AdmittedOf(s, life));
    if s.hits[life] <= p.limit { AdmittedWithin(s, life); }
  }

  lemma AdmittedWithin(s: State, life: nat)
    ensures |AdmittedOf(s, life)| <= |RequestsOf(s, life)|
  {
    SubsetCount(AdmittedOf(s, life), RequestsOf(s, life));
  }

  lemma {:induction false} SubsetCount<T>(a: set<T>, b: set<T>)
    requires a <= b
    ensures |a| <= |b|
  {
    if a != {} {
      var x :| x in a;
      SubsetCount(a - {x}, b - {x});
    }
  }

  // ---------------------------------------------------------------- at most 2 * limit in any window

  /** The requests let through by count from time `from` on and before `to`. */
  ghost function AdmittedIn(s: State, from: nat, to: nat): set<RequestId> {
    set id | id in s.requests && s.requests[id].Admitted? && from <= s.requests[id].at < to
  }

  lemma NearbyLives(p: Params, s: State, from: nat, c: RequestId, d: RequestId)
    requires Inv(p, s) && c in AdmittedIn(s, from, from + p.window) && d in AdmittedIn(s, from, from + p.window)
    ensures s.requests[d].ticket.life <= s.requests[c].ticket.life + 1
  {
    assert TimeOk(s, s.requests[c].ticket.life, s.requests[c].at)
             && TimeOk(s, s.requests[d].ticket.life, s.requests[d].at);
  }

  /** All admissions of one window fall into two lives, one following the other. */
  lemma TwoLives(p: Params, s: State, from: nat, ids: set<RequestId>) returns (first: nat)
    requires Inv(p, s) && ids == AdmittedIn(s, from, from + p.window)
    ensures forall id :: id in ids ==> s.requests[id].ticket.life == first || s.requests[id].ticket.life == first + 1
  {
    if ids == {} { return 0; }
    var c :| c in ids;
    if d :| d in ids && s.requests[d].ticket.life < s.requests[c].ticket.life {
      first := s.requests[d].ticket.life;
      NearbyLives(p, s, from, d, c);
      forall id | id in ids ensures first <= s.requests[id].ticket.life <= first + 1 {
        NearbyLives(p, s, from, d, id);
        NearbyLives(p, s, from, id, c);
      }
    } else {
      first := s.requests[c].ticket.life;
      forall id | id in ids ensures first <= s.requests[id].ticket.life <= first + 1 {
        NearbyLives(p, s, from, c, id);
      }
    }
  }

  /** Requests let through in one of two lives are at most 2 * limit. */
  lemma TwoLivesCount(p: Params, s: State, ids: set<RequestId>, first: nat)
    requires Inv(p, s)
    requires forall id :: id in ids ==> id in AdmittedOf(s, first) + AdmittedOf(s, first + 1)
    ensures |ids| <= 2 * p.limit
  {
    AtMostLimitPerLife(p, s, first);
    AtMostLimitPerLife(p, s, first + 1);
    SubsetCount(ids, AdmittedOf(s, first) + AdmittedOf(s, first + 1));
    UnionCount(AdmittedOf(s, first), AdmittedOf(s, first + 1));
  }

  lemma UnionCount<T>(a: set<T>, b: set<T>)
    ensures |a + b| <= |a| + |b|
  {
    assert a + b == a + (b - a);
  }

  /** In any interval of one window, wherever it starts, at most 2 * limit requests are let through by count, whatever
      Redis errors and crashes there are; requests let through by an error come on top. */
  lemma WindowAdmitsTwiceTheLimit(p: Params, s: State, from: nat)
    requires p.window >= 1 && Reachable(p, s)
    ensures |AdmittedIn(s, from, from + p.window)| <= 2 * p.limit
  {
    ReachableInv(p, s);
    var ids := AdmittedIn(s, from, from + p.window);
    var first := TwoLives(p, s, from, ids);
    TwoLivesCount(p, s, ids, first);
  }

  // ---------------------------------------------------------------- INCR and EXPIRE are two commands

  /** The current life has no expiry and nobody left who would set one. */
  predicate Immortal(s: State) {
    s.counter.Some? && s.counter.value.expiresAt.None? && !AwaitsExpire(s, s.counter.value.creator)
  }

  /** The INCR that creates the key is not heard of, the EXPIRE after it has no effect, or its request crashes before
      it. */
  predicate LosesExpiry(s: State, e: Event) {
    match e
    case Incr(id, reply) => id !in s.requests && s.counter.None? && reply.ReplyLost?
    case Expire(id, reply) => AwaitsExpire(s, id) && reply.Dropped?
    case Crash(id) => AwaitsExpire(s, id)
    case Tick(_) => false
  }

  /** A step makes the key immortal if and only if it is one of the three, and nothing makes it mortal again. */
  lemma ImmortalExactly(p: Params, s: State, e: Event)
    requires p.window >= 1 && Inv(p, s)
    ensures Immortal(Next(p, s, e)) <==> Immortal(s) || LosesExpiry(s, e)
  {
  }

  /** Some step of the run lost the expiry. */
  ghost predicate EverLost(p: Params, es: seq<Event>) {
    es != [] && (EverLost(p, es[..|es| - 1]) || LosesExpiry(Run(p, Init, es[..|es| - 1]), es[|es| - 1]))
  }

  /** Over whole runs: the key is immortal at the end if and only if some step lost its expiry. */
  lemma {:induction false} ImmortalRuns(p: Params, es: seq<Event>)
    requires p.window >= 1
    ensures Immortal(Run(p, Init, es)) <==> EverLost(p, es)
  {
    if es != [] {
      var init := es[..|es| - 1];
      ImmortalRuns(p, init);
      RunKeeps(p, Init, init);
      ImmortalExactly(p, Run(p, Init, init), es[|es| - 1]);
    }
  }

  lemma ImmortalStep(p: Params, s: State, e: Event)
    requires p.window >= 1 && Inv(p, s) && Immortal(s)
    ensures var t := Next(p, s, e);
            Immortal(t) && t.births == s.births && t.counter.value.value >= s.counter.value.value
  {
  }

  /** That life goes on for ever. */
  lemma {:induction false} ImmortalForEver(p: Params, s: State, es: seq<Event>)
    requires p.window >= 1 && Inv(p, s) && Immortal(s)
    ensures var t := Run(p, s, es);
            Immortal(t) && t.births == s.births && t.counter.value.value >= s.counter.value.value
  {
    if es != [] {
      var init := es[..|es| - 1];
      ImmortalForEver(p, s, init);
      RunKeeps(p, s, init);
      ImmortalStep(p, Run(p, s, init), es[|es| - 1]);
    }
  }

  /** So once an immortal key has counted to the limit, every later request whose INCR is answered gets 429. */
  lemma ImmortalRejects(p: Params, s: State, es: seq<Event>, id: RequestId)
    requires p.window >= 1 && Inv(p, s) && Immortal(s)
    requires s.counter.value.value >= p.limit && id !in Run(p, s, es).requests
    ensures Next(p, Run(p, s, es), Incr(id, Delivered)).requests[id].Limited?
  {
    ImmortalForEver(p, s, es);
  }

  /** Nobody sets the expiry of the key again; only the request that made the key does, once. */
  predicate NoExpire(es: seq<Event>) {
    forall i :: 0 <= i < |es| ==> !es[i].Expire?
  }

  lemma LifeStep(p: Params, s: State, e: Event, until: nat)
    requires !e.Expire? && s.births != []
    requires s.counter.Some? && s.counter.value.expiresAt == Some(until) && s.now < until
    ensures var t := Next(p, s, e);
            if t.now < until then t.counter.Some? && t.counter.value.expiresAt == Some(until) && t.births == s.births
            else t.counter.None?
  {
  }

  lemma LaterLives(p: Params, s: State, e: Event)
    ensures s.births <= Next(p, s, e).births && s.now <= Next(p, s, e).now
  {
  }

  /** The key's lifetime goes on: it is there, with this end, and no other has begun since. */
  predicate SameLife(s: State, t: State, until: nat) {
    t.counter.Some? && t.counter.value.expiresAt == Some(until) && t.births == s.births
  }

  /** The lifetime is over, and perhaps others have begun. */
  predicate LifeOver(s: State, t: State) {
    s.births <= t.births && (t.counter.None? || |t.births| > |s.births|)
  }

  lemma OverStays(p: Params, s: State, t: State, e: Event)
    requires LifeOver(s, t) && !e.Expire?
    ensures LifeOver(s, Next(p, t, e))
  {
  }

  /** Once a key has its expiry, its lifetime goes on exactly until then, over every continuation, whatever is counted
      meanwhile: the window is neither longer nor shorter. */
  lemma {:induction false} LifeEndsExactly(p: Params, s: State, es: seq<Event>, until: nat)
    requires NoExpire(es) && s.births != []
    requires s.counter.Some? && s.counter.value.expiresAt == Some(until) && s.now < until
    ensures var t := Run(p, s, es);
            && s.now <= t.now
            && (t.now < until ==> SameLife(s, t, until))
            && (t.now >= until ==> LifeOver(s, t))
  {
    if es != [] {
      var u, e := Run(p, s, es[..|es| - 1]), es[|es| - 1];
      LifeEndsExactly(p, s, es[..|es| - 1], until);
      LaterLives(p, u, e);
      if u.now < until { LifeStep(p, u, e, until); } else { OverStays(p, s, u, e); }
    }
  }

  /** An EXPIRE that takes effect ends the lifetime one window from now. */
  lemma ExpireSetsWindow(p: Params, s: State, id: RequestId, reply: Reply)
    requires AwaitsExpire(s, id) && s.counter.Some? && !reply.Dropped?
    ensures var t := Next(p, s, Expire(id, reply));
            t.counter.Some? && t.counter.value.expiresAt == Some(s.now + p.window) && t.births == s.births
  {
  }

  /** The second command of the first request is dropped. */
  lemma DroppedExpire(p: Params)
    ensures Immortal(Run(p, Init, [Incr(0, Delivered)] + [Expire(0, Dropped)]))
  {
    FirstRequest(p);
    RunSnoc(p, Init, [Incr(0, Delivered)], Expire(0, Dropped));
  }

  lemma FirstRequest(p: Params)
    ensures var s := Run(p, Init, [Incr(0, Delivered)]); AwaitsExpire(s, 0) && s.counter == Some(Counter(1, None, 0))
  {
    assert [] + [Incr(0, Delivered)] == [Incr(0, Delivered)];
    RunSnoc(p, Init, [], Incr(0, Delivered));
  }

  /** The first request crashes between its two commands. */
  lemma CrashBeforeExpire(p: Params)
    ensures Immortal(Run(p, Init, [Incr(0, Delivered)] + [Crash(0)]))
  {
    FirstRequest(p);
    RunSnoc(p, Init, [Incr(0, Delivered)], Crash(0));
  }

  function Ids(n: nat): set<RequestId> {
    if n == 0 then {} else Ids(n - 1) + {n - 1}
  }

  lemma {:induction false} IdsAre(n: nat)
    ensures forall id: nat :: id in Ids(n) <==> id < n
    ensures |Ids(n)| == n
  {
    if n > 0 {
      IdsAre(n - 1);
      assert n - 1 !in Ids(n - 1);
    }
  }

  lemma AnotherIncr(p: Params, s: State, id: RequestId)
    requires Immortal(s) && id !in s.requests
    ensures var t := Next(p, s, Incr(id, Delivered));
            t.counter == Some(s.counter.value.(value := s.counter.value.value + 1))
                  && t.requests.Keys == s.requests.Keys + {id}
            && (id != s.counter.value.creator ==> Immortal(t))
  {
  }

  /** The reply to the first INCR is lost, and n - 1 more requests come. */
  function Unanswered(n: nat): seq<Event>
    requires n >= 1
  {
    if n == 1 then [Incr(0, ReplyLost)] else Unanswered(n - 1) + [Incr(n - 1, Delivered)]
  }

  /** Then the key has counted to n and has no expiry. */
  lemma LostIncr(p: Params, n: nat) returns (s: State)
    requires n >= 1
    ensures CountedTo(p, s, n)
  {
    s := FirstIncrLost(p);
    for k := 1 to n
      invariant CountedTo(p, s, k)
    {
      s := OneMore(p, s, k);
    }
  }

  /** The run has counted `n` requests, and the key never expires. */
  ghost predicate CountedTo(p: Params, s: State, n: nat) {
    && n >= 1 && s == Run(p, Init, Unanswered(n))
    && Immortal(s) && s.counter == Some(Counter(n, None, 0)) && s.requests.Keys == Ids(n)
  }

  lemma OneMore(p: Params, s: State, n: nat) returns (t: State)
    requires CountedTo(p, s, n)
    ensures CountedTo(p, t, n + 1)
  {
    NotYet(n);
    assert n !in s.requests.Keys;
    t := CountsOn(p, Unanswered(n), s, n);
  }

  lemma NotYet(n: nat)
    ensures n !in Ids(n)
  {
    IdsAre(n);
  }

  lemma FirstIncrLost(p: Params) returns (s: State)
    ensures CountedTo(p, s, 1)
  {
    assert [] + [Incr(0, ReplyLost)] == Unanswered(1);
    RunSnoc(p, Init, [], Incr(0, ReplyLost));
    assert Ids(0) == {};
    s := Next(p, Init, Incr(0, ReplyLost));
  }

  lemma CountsOn(p: Params, es: seq<Event>, s: State, n: nat) returns (t: State)
    requires s == Run(p, Init, es) && n >= 1 && n !in s.requests
    requires Immortal(s) && s.counter == Some(Counter(n, None, 0))
    ensures t == Run(p, Init, es + [Incr(n, Delivered)])
    ensures Immortal(t) && t.counter == Some(Counter(n + 1, None, 0)) && t.requests.Keys == s.requests.Keys + {n}
  {
    RunSnoc(p, Init, es, Incr(n, Delivered));
    AnotherIncr(p, s, n);
    t := Next(p, s, Incr(n, Delivered));
  }

  /** From here on every request whose INCR is answered gets 429, however much time passes. */
  ghost predicate Blocked(p: Params, s: State) {
    forall es, id :: id !in Run(p, s, es).requests ==> Next(p, Run(p, s, es), Incr(id, Delivered)).requests[id].Limited?
  }

  lemma ImmortalBlocks(p: Params, s: State)
    requires p.window >= 1 && Inv(p, s) && Immortal(s) && s.counter.value.value >= p.limit
    ensures Blocked(p, s)
  {
    forall es, id | id !in Run(p, s, es).requests
      ensures Next(p, Run(p, s, es), Incr(id, Delivered)).requests[id].Limited?
    {
      ImmortalRejects(p, s, es, id);
    }
  }

  /** For every limit: after one unanswered first request and `limit` more, without any window passing them by, the
      seller is blocked for ever. */
  lemma BlockedForEver(p: Params)
    requires p.window >= 1
    ensures Blocked(p, Run(p, Init, Unanswered(p.limit + 1)))
  {
    var s := LostIncr(p, p.limit + 1);
    RunKeeps(p, Init, Unanswered(p.limit + 1));
    ImmortalBlocks(p, Run(p, Init, Unanswered(p.limit + 1)));
  }
}
