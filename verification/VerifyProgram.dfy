/** verifyPayment in its own shape: checks, claims, recovery and persistence in sequence, with a rollback on every
    failure, while all other calls go on between its awaits. Its result is the one of the protocol in VerifyPayment. */
module VerifyProgram {
  import opened Prelude
  import opened Hex
  import opened Registry
  import opened VerifyPayment
  import Answers = VerifyAnswers

  /** Everybody else's events before one await, how its command ends, and the id it may generate. */
  datatype Turn = Turn(others: seq<Event>, reply: Reply, id: RequestId)

  type Schedule = nat -> Turn

  predicate BySomeoneElse(e: Event, c: CallerId) {
    match e
    case Begin(d, _) => d != c
    case Act(d, _, _) => d != c
    case Crash(d) => d != c
    case KeyExpires(_) => true
  }

  lemma OthersLeavePc(cfg: Config, s: State, e: Event, c: CallerId)
    requires BySomeoneElse(e, c)
    ensures var t := Next(cfg, s, e);
            (c in t.callers <==> c in s.callers) && (c in s.callers ==> t.callers[c] == s.callers[c])
  {
  }

  /** Where a call is after one await. */
  function After(cfg: Config, s: State, pc: Pc, reply: Reply, id: RequestId): Pc {
    if reply.Delivered? then Resume(cfg, s, pc, id) else Catch(s, pc, reply, id)
  }

  lemma PersistStep(cfg: Config, s: State, c: CallerId, reply: Reply, id: RequestId)
    requires c in s.callers && s.callers[c].Persisting?
    ensures var p := s.callers[c].p;
            Next(cfg, s, Act(c, reply, id)) ==
              (if CanPersist(s, p.body, id) && !reply.Dropped? then Persist(s, Origin(p, c), id) else s)
              .(callers := s.callers[c := After(cfg, s, s.callers[c], reply, id)])
  {
  }

  lemma ClaimStep(cfg: Config, s: State, c: CallerId, k: Key, reply: Reply, id: RequestId)
    requires c in s.callers && (s.callers[c].ClaimingNonce? || s.callers[c].ClaimingSig?)
    requires k == if s.callers[c].ClaimingNonce? then NonceOf(s.callers[c].p.body) else SigOf(s.callers[c].p.body)
    ensures Next(cfg, s, Act(c, reply, id)) ==
              s.(keys := if reply.Dropped? then s.keys else SetNx(s.keys, k, c),
                 callers := s.callers[c := After(cfg, s, s.callers[c], reply, id)])
  {
  }

  class Verifier {
    const cfg: Config
    var keys: map<Key, CallerId>
    var requests: Requests
    var nonceIndex: map<string, RequestId>
    var sigIndex: map<string, RequestId>
    var origin: map<RequestId, Origin>
    var callers: map<CallerId, Pc>

    constructor (cfg: Config)
      ensures View() == Init && this.cfg == cfg && Valid()
    {
      this.cfg := cfg;
      keys, requests, nonceIndex, sigIndex, origin, callers := map[], map[], map[], map[], map[], map[];
    }

    function View(): State
      reads this
    {
      State(keys, requests, nonceIndex, sigIndex, origin, callers)
    }

    /** The tables and the calls are as some run of the protocol leaves them. */
    ghost predicate Valid()
      reads this
    {
      Inv(cfg, View())
    }

    method Store(s: State)
      modifies this
      ensures View() == s
    {
      keys, requests, nonceIndex, sigIndex, origin, callers :=
        s.keys, s.requests, s.nonceIndex, s.sigIndex, s.origin, s.callers;
    }

    method Others(c: CallerId, es: seq<Event>, ghost s0: State, ghost before: seq<Event>)
      returns (ghost trace: seq<Event>)
      requires View() == Run(cfg, s0, before) && c in callers
      modifies this
      ensures View() == Run(cfg, s0, trace)
      ensures c in callers && callers[c] == old(callers[c])
    {
      trace := before;
      for k := 0 to |es|
        invariant View() == Run(cfg, s0, trace)
        invariant c in callers && callers[c] == old(callers[c])
      {
        if BySomeoneElse(es[k], c) {
          RunSnoc(cfg, s0, trace, es[k]);
          OthersLeavePc(cfg, View(), es[k], c);
          Store(Next(cfg, View(), es[k]));
          trace := trace + [es[k]];
        }
      }
    }

    // -------------------------------------------------------------- the awaited commands

    /** claimNonce and claimSignatureHash: SET NX, true when the key was absent. */
    method Claim(c: CallerId, k: Key, t: Turn) returns (answer: Answer<bool>, ghost e: Event)
      requires c in callers && (callers[c].ClaimingNonce? || callers[c].ClaimingSig?)
      requires k == if callers[c].ClaimingNonce? then NonceOf(callers[c].p.body) else SigOf(callers[c].p.body)
      modifies this`callers, this`keys
      ensures e == Act(c, t.reply, t.id) && View() == Next(cfg, old(View()), e)
      ensures answer == if t.reply.Delivered? then Ok(k !in old(keys)) else Thrown
    {
      e := Act(c, t.reply, t.id);
      var s := View();
      answer := if t.reply.Delivered? then Ok(k !in keys) else Thrown;
      if !t.reply.Dropped? && k !in keys { keys := keys[k := c]; }
      callers := callers[c := After(cfg, s, callers[c], t.reply, t.id)];
      ClaimStep(cfg, s, c, k, t.reply, t.id);
    }

    /** releaseNonce and releaseSignatureHash: DEL. */
    method Release(c: CallerId, k: Key, t: Turn) returns (answer: Answer<()>, ghost e: Event)
      requires c in callers && (callers[c].ReleasingNonce? || callers[c].RollingNonce? || callers[c].RollingSig?)
      requires k == if callers[c].RollingSig? then SigOf(callers[c].p.body) else NonceOf(callers[c].p.body)
      modifies this`callers, this`keys
      ensures e == Act(c, t.reply, t.id) && View() == Next(cfg, old(View()), e)
      ensures answer == if t.reply.Delivered? then Ok(()) else Thrown
    {
      e := Act(c, t.reply, t.id);
      var s := View();
      answer := if t.reply.Delivered? then Ok(()) else Thrown;
      if !t.reply.Dropped? { keys := keys - {k}; }
      callers := callers[c := After(cfg, s, callers[c], t.reply, t.id)];
    }

    /** verifyErc3009Signature and the comparison with the payer. */
    method SignatureMatches(c: CallerId, t: Turn) returns (matches: bool, ghost e: Event)
      requires c in callers && callers[c].Recovering?
      modifies this`callers
      ensures e == Act(c, t.reply, t.id) && View() == Next(cfg, old(View()), e)
      ensures matches <==> t.reply.Delivered? && SignedByPayer(cfg, old(callers[c]).p.body)
    {
      e := Act(c, t.reply, t.id);
      var s := View();
      matches := t.reply.Delivered? && SignedByPayer(cfg, callers[c].p.body);
      callers := callers[c := After(cfg, s, callers[c], t.reply, t.id)];
    }

    /** The two creates inside the transaction, with their unique indexes. */
    method WriteRows(o: Origin, id: RequestId)
      modifies this`requests, this`nonceIndex, this`sigIndex, this`origin
      ensures View() == Persist(old(View()), o, id)
    {
      var b := o.proof.body;
      requests := requests[id := RecordOf(b)];
      nonceIndex := nonceIndex[b.auth.nonce := id];
      sigIndex := sigIndex[Lower(b.signature) := id];
      origin := origin[id := o];
    }

    /** prisma.$transaction: the request row and its accepted verification, or neither. */
    method PersistAccepted(c: CallerId, t: Turn) returns (answer: Answer<RequestId>, ghost e: Event)
      requires c in callers && callers[c].Persisting?
      modifies this`callers, this`requests, this`nonceIndex, this`sigIndex, this`origin
      ensures e == Act(c, t.reply, t.id) && View() == Next(cfg, old(View()), e)
      ensures answer == if t.reply.Delivered? && CanPersist(old(View()), old(callers[c]).p.body, t.id) then Ok(t.id)
                        else Thrown
    {
      e := Act(c, t.reply, t.id);
      var s := View();
      var p := callers[c].p;
      var ok := CanPersist(s, p.body, t.id);
      answer := if t.reply.Delivered? && ok then Ok(t.id) else Thrown;
      PersistStep(cfg, s, c, t.reply, t.id);
      if ok && !t.reply.Dropped? { WriteRows(Origin(p, c), t.id); }
      callers := callers[c := After(cfg, s, callers[c], t.reply, t.id)];
    }

    // -------------------------------------------------------------- the program

    /** Release the nonce, then the signature, then throw `code`; a Redis error ends the call at once. */
    method Rollback(c: CallerId, sched: Schedule, at: nat, ghost s0: State, ghost before: seq<Event>)
      returns (result: Result, ghost trace: seq<Event>)
      requires View() == Run(cfg, s0, before) && c in callers && callers[c].RollingNonce?
      modifies this
      ensures View() == Run(cfg, s0, trace) && c in callers
      ensures callers[c] == Done(old(callers[c]).p, result)
      ensures result.Aborted? || result == Rejected(old(callers[c]).code, old(callers[c]).committed)
    {
      var b := callers[c].p.body;
      ghost var e;
      var released;
      trace := Others(c, sched(at).others, s0, before);
      released, e := Release(c, NonceOf(b), sched(at));
      RunSnoc(cfg, s0, trace, e);
      trace := trace + [e];
      if released.Ok? {
        trace := Others(c, sched(at + 1).others, s0, trace);
        released, e := Release(c, SigOf(b), sched(at + 1));
        RunSnoc(cfg, s0, trace, e);
        trace := trace + [e];
      }
      result := callers[c].result;
    }

    /** Both claims; false when the call has ended. */
    method ClaimBoth(c: CallerId, sched: Schedule, ghost s0: State, ghost before: seq<Event>)
      returns (claimed: bool, result: Result, ghost trace: seq<Event>)
      requires View() == Run(cfg, s0, before) && c in callers && callers[c].ClaimingNonce?
      modifies this
      ensures View() == Run(cfg, s0, trace) && c in callers
      ensures callers[c] == if claimed then Recovering(old(callers[c]).p) else Done(old(callers[c]).p, result)
    {
      var p := callers[c].p;
      ghost var e;
      var answer;
      claimed, result := false, Rejected(DuplicatePayment, None);
      trace := Others(c, sched(0).others, s0, before);
      answer, e := Claim(c, NonceOf(p.body), sched(0));
      RunSnoc(cfg, s0, trace, e);
      trace := trace + [e];
      if answer.Thrown? { result := callers[c].result; return; }
      if !answer.value { return; }
      trace := Others(c, sched(1).others, s0, trace);
      answer, e := Claim(c, SigOf(p.body), sched(1));
      RunSnoc(cfg, s0, trace, e);
      trace := trace + [e];
      if answer.Thrown? { result := callers[c].result; return; }
      claimed := answer.value;
      if !claimed {
        var released;
        trace := Others(c, sched(2).others, s0, trace);
        released, e := Release(c, NonceOf(p.body), sched(2));
        RunSnoc(cfg, s0, trace, e);
        trace := trace + [e];
        result := callers[c].result;
      }
    }

    /** Recovery, persistence and, when either fails, the rollback. */
    method RecoverAndPersist(c: CallerId, sched: Schedule, ghost s0: State, ghost before: seq<Event>)
      returns (result: Result, ghost trace: seq<Event>)
      requires View() == Run(cfg, s0, before) && c in callers && callers[c].Recovering?
      modifies this
      ensures View() == Run(cfg, s0, trace) && c in callers && callers[c] == Done(old(callers[c]).p, result)
    {
      ghost var e;
      var matches;
      trace := Others(c, sched(2).others, s0, before);
      matches, e := SignatureMatches(c, sched(2));
      RunSnoc(cfg, s0, trace, e);
      trace := trace + [e];
      if matches {
        var persisted;
        trace := Others(c, sched(3).others, s0, trace);
        persisted, e := PersistAccepted(c, sched(3));
        RunSnoc(cfg, s0, trace, e);
        trace := trace + [e];
        if persisted.Ok? { return Accepted(persisted.value), trace; }
      }
      result, trace := Rollback(c, sched, 4, s0, trace);
    }

    /** verifyPayment. Whatever the other calls do between its awaits, it leaves the stores as one run of the protocol
        does; when it accepts, the payment request it names is the record of exactly the checked body. */
    method VerifyPayment(c: CallerId, p: Proof, sched: Schedule) returns (result: Result, ghost trace: seq<Event>)
      requires Valid() && c !in callers
      modifies this
      ensures Valid()
      ensures View() == Run(cfg, old(View()), trace) && c in callers && callers[c] == Done(p, result)
      ensures result.Accepted? ==>
                && result.request in requests && requests[result.request] == RecordOf(p.body)
                && origin[result.request] == Origin(p, c) && Checked(cfg, p)
      ensures Answers.AnswersTo(cfg, p, result, Answers.Told(cfg, old(View()), trace, c))
    {
      ghost var s0 := View();
      ghost var e := Begin(c, p);
      RunSnoc(cfg, s0, [], e);
      callers := callers[c := Start(cfg, p)];
      trace := [] + [e];
      if Precheck(cfg, p).Some? {
        result := Rejected(Precheck(cfg, p).value, None);
      } else {
        var claimed;
        claimed, result, trace := ClaimBoth(c, sched, s0, trace);
        if claimed { result, trace := RecoverAndPersist(c, sched, s0, trace); }
      }
      RunKeeps(cfg, s0, trace);
      AcceptedIsRecord(View(), c);
      Answers.AnswersExactly(cfg, s0, trace, c);
    }

    lemma AcceptedIsRecord(s: State, c: CallerId)
      requires Inv(cfg, s) && c in s.callers
      ensures var pc := s.callers[c];
              pc.Done? && pc.result.Accepted? ==>
                && pc.result.request in s.requests && s.requests[pc.result.request] == RecordOf(pc.p.body)
                && s.origin[pc.result.request] == Origin(pc.p, c) && Checked(cfg, pc.p)
    {
      if s.callers[c].Done? && s.callers[c].result.Accepted? {
        assert Committed(s.callers[c]).Some?;
        assert RequestOk(s, s.callers[c].result.request);
      }
    }
  }
}
