/** The preHandler hook of the per-seller rate limit in its own shape, on one Redis key. Other requests of the seller
    come in between its two commands; what it answers is what module RateLimit says of the run. */
module RateLimitProgram {
  import opened Prelude
  import opened RateLimit

  /** Everybody else's events before one command, and how the command ends. */
  datatype Turn = Turn(others: seq<Event>, reply: Reply)

  /** 429, or the request goes on with what X-RateLimit-Remaining says; an error sets no header. */
  datatype HookResult = TooMany | Pass(remaining: Option<nat>)

  predicate About(e: Event, id: RequestId) {
    match e
    case Incr(other, _) => other == id
    case Expire(other, _) => other == id
    case Crash(other) => other == id
    case Tick(_) => false
  }

  lemma OthersLeaveRequest(p: Params, s: State, e: Event, id: RequestId)
    requires !About(e, id)
    ensures var t := Next(p, s, e);
            (id in t.requests <==> id in s.requests) && (id in s.requests ==> t.requests[id] == s.requests[id])
  {
  }

  class SellerLimit {
    const p: Params
    var now: nat
    var counter: Option<Counter>
    var requests: map<RequestId, Pc>
    var births: seq<nat>
    var hits: seq<nat>
    var drawer: map<Ticket, RequestId>

    constructor (endpoint: string, windowMs: nat)
      requires windowMs >= 1_000
      ensures View() == Init
      ensures p.limit == if endpoint == "verify" then 60 else if endpoint == "settle" then 30 else 100
      ensures p.window % 1000 == 0 && windowMs <= p.window < windowMs + 1000
      ensures Valid()
    {
      p := Params(LimitOf(endpoint), WindowOf(windowMs));
      now, counter, requests, births, hits, drawer := 0, None, map[], [], [], map[];
    }

    function View(): State
      reads this
    {
      State(now, counter, requests, births, hits, drawer)
    }

    ghost predicate Valid()
      reads this
    {
      p.window >= 1 && Inv(p, View())
    }

    method Store(s: State)
      modifies this
      ensures View() == s
    {
      now, counter, requests, births, hits, drawer := s.now, s.counter, s.requests, s.births, s.hits, s.drawer;
    }

    method Others(id: RequestId, es: seq<Event>, ghost s0: State, ghost before: seq<Event>)
      returns (ghost trace: seq<Event>)
      requires View() == Run(p, s0, before)
      modifies this
      ensures View() == Run(p, s0, trace)
      ensures (id in requests) == old(id in requests) && (id in requests ==> requests[id] == old(requests)[id])
    {
      trace := before;
      for k := 0 to |es|
        invariant View() == Run(p, s0, trace)
        invariant (id in requests) == old(id in requests) && (id in requests ==> requests[id] == old(requests)[id])
      {
        if !About(es[k], id) {
          RunSnoc(p, s0, trace, es[k]);
          OthersLeaveRequest(p, View(), es[k], id);
          Store(Next(p, View(), es[k]));
          trace := trace + [es[k]];
        }
      }
    }

    /** redis.incr: the answer is the counter's new value. */
    method Increment(id: RequestId, reply: Reply) returns (answer: Answer<nat>)
      requires id !in requests
      modifies this
      ensures View() == Next(p, old(View()), Incr(id, reply)) && id in requests
      ensures answer == if reply.Delivered? then Ok(NextTicket(old(View())).rank) else Thrown
      ensures match answer
              case Thrown => requests[id].FailedOpen?
              case Ok(1) => requests[id].Expiring? && requests[id].ticket.rank == 1
              case Ok(n) => requests[id] == Verdict(p, View(), NextTicket(old(View())))
    {
      answer := if reply.Delivered? then Ok(NextTicket(View()).rank) else Thrown;
      Store(IncrStep(p, View(), id, reply));
    }

    /** redis.expire with the window. */
    method SetWindow(id: RequestId, reply: Reply) returns (answer: Answer<()>)
      requires AwaitsExpire(View(), id)
      modifies this
      ensures View() == Next(p, old(View()), Expire(id, reply)) && id in requests
      ensures answer == if reply.Delivered? then Ok(()) else Thrown
      ensures answer.Thrown? ==> requests[id].FailedOpen?
      ensures answer.Ok? ==> requests[id] == Verdict(p, View(), old(requests[id]).ticket)
    {
      answer := if reply.Delivered? then Ok(()) else Thrown;
      Store(ExpireStep(p, View(), id, requests[id].ticket, reply));
    }

    /** The hook: 429 exactly when the request's count is beyond the limit, and `limit - count` left otherwise; an error
        of either command lets the request through. */
    method Hook(id: RequestId, first: Turn, second: Turn) returns (verdict: HookResult, ghost trace: seq<Event>)
      requires Valid() && id !in requests
      modifies this
      ensures Valid() && View() == Run(p, old(View()), trace) && id in requests
      ensures match verdict
              case TooMany => requests[id].Limited?
              case Pass(Some(left)) => requests[id].Admitted? && left == p.limit - requests[id].ticket.rank
              case Pass(None) => requests[id].FailedOpen?
    {
      ghost var s0 := View();
      assert s0 == Run(p, s0, []);
      trace := Others(id, first.others, s0, []);
      RunSnoc(p, s0, trace, Incr(id, first.reply));
      var current := Increment(id, first.reply);
      trace := trace + [Incr(id, first.reply)];
      var failed := current.Thrown?;
      if current == Ok(1) {
        trace := Others(id, second.others, s0, trace);
        RunSnoc(p, s0, trace, Expire(id, second.reply));
        var expiry := SetWindow(id, second.reply);
        trace := trace + [Expire(id, second.reply)];
        failed := expiry.Thrown?;
      }
      RunKeeps(p, s0, trace);
      if failed { return Pass(None), trace; }
      var remaining := if current.value <= p.limit then p.limit - current.value else 0;
      verdict := if current.value > p.limit then TooMany else Pass(Some(remaining));
    }
  }
}
