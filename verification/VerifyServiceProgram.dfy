/** runVerify, claimNonceRedis and releaseNonceRedis in their own shape, while other calls, crashes and key expiries
    come in between their commands. The result is a run of the machine in module VerifyService. */
module VerifyServiceProgram {
  import opened Prelude
  import opened Registry
  import opened VerifyService
  import Theorems = VerifyServiceTheorems
  import Answers = VerifyServiceAnswers

  /** Everybody else's events before one command, how it ends, whether Redis serves the command on the nonce key first
      where two run in parallel, and which of two matching rows the durable check is shown. */
  datatype Turn = Turn(others: seq<Event>, reply: Reply, nonceFirst: bool, sigRow: bool)

  type Schedule = nat -> Turn

  /** What the caller of runVerify sees. */
  datatype Response = Accepted(row: nat) | Rejected(code: Code) | Threw | Crashed

  function Seen(result: Result): Response {
    match result
    case Accepted(row) => Response.Accepted(row)
    case Rejected(code, _) => Response.Rejected(code)
    case Aborted(_) => Threw
    case Crashed(_) => Response.Crashed
  }

  predicate BySomeoneElse(e: Event, c: CallerId) {
    match e
    case KeyExpires(_) => true
    case _ => e.c != c
  }

  lemma OthersLeavePc(cfg: Config, s: State, e: Event, c: CallerId)
    requires BySomeoneElse(e, c)
    ensures var t := Next(cfg, s, e);
            (c in t.callers <==> c in s.callers) && (c in s.callers ==> t.callers[c] == s.callers[c])
  {
    Theorems.NextMoves(cfg, s, e);
  }

  lemma StartOfAdmitted(cfg: Config, request: RequestId, body: Option<Body>, now: nat)
    requires Precheck(cfg, body, now).None?
    ensures body.Some?
    ensures Start(cfg, request, body, now).q == Call(request, body.value, cfg.hash(body.value.signature), now)
  {
  }

  class VerifyStore {
    const cfg: Config
    var keys: map<Key, CallerId>
    var requests: set<RequestId>
    var rows: seq<Row>
    var nonceIndex: map<string, nat>
    var sigIndex: map<string, nat>
    var callers: map<CallerId, Pc>

    constructor (cfg: Config)
      ensures this.cfg == cfg && View() == Init && Valid()
    {
      this.cfg := cfg;
      keys, requests, rows, nonceIndex, sigIndex, callers := map[], {}, [], map[], map[], map[];
    }

    function View(): State
      reads this
    {
      State(keys, requests, rows, nonceIndex, sigIndex, callers)
    }

    /** The tables and the calls are as some run leaves them. */
    ghost predicate Valid()
      reads this
    {
      Theorems.Inv(cfg, View()) && Answers.StoresOk(View()) && Answers.RecordsFirst(View())
    }

    method Store(s: State)
      modifies this
      ensures View() == s
    {
      keys, requests, rows, nonceIndex, sigIndex, callers :=
            s.keys, s.requests, s.rows, s.nonceIndex, s.sigIndex, s.callers;
    }

    method Others(c: CallerId, es: seq<Event>, ghost s0: State, ghost before: seq<Event>)
      returns (ghost trace: seq<Event>)
      requires View() == Run(cfg, s0, before) && c in callers
      modifies this
      ensures View() == Run(cfg, s0, trace) && c in callers && callers[c] == old(callers[c])
      ensures old(requests) <= requests
    {
      trace := before;
      ghost var pc := callers[c];
      for k := 0 to |es|
        invariant View() == Run(cfg, s0, trace) && c in callers && callers[c] == pc
        invariant old(requests) <= requests
      {
        if BySomeoneElse(es[k], c) {
          Answers.NextRequests(cfg, View(), es[k]);
          RunSnoc(cfg, s0, trace, es[k]);
          OthersLeavePc(cfg, View(), es[k], c);
          Store(Next(cfg, View(), es[k]));
          trace := trace + [es[k]];
        }
      }
    }

    // -------------------------------------------------------------- the commands

    /** SET nonce:n EX ttl NX. */
    method SetNonce(c: CallerId, reply: Reply) returns (answer: Claim)
      requires c in callers && callers[c].Claiming? && callers[c].nonce.None?
      modifies this`keys, this`callers
      ensures View() == Next(cfg, old(View()), NonceCommand(c, reply)) && c in callers
      ensures answer == ClaimReply(old(keys), NonceOf(old(callers[c]).q), reply)
      ensures callers[c] == ClaimStep(old(callers[c]).q, Some(answer), old(callers[c]).sig)
    {
      var q, sig := callers[c].q, callers[c].sig;
      answer := ClaimReply(keys, NonceOf(q), reply);
      if NonceOf(q) !in keys && !reply.Dropped? { keys := keys[NonceOf(q) := c]; }
      callers := callers[c := ClaimStep(q, Some(answer), sig)];
    }

    /** SET sig:h EX ttl NX. */
    method SetSig(c: CallerId, reply: Reply) returns (answer: Claim)
      requires c in callers && callers[c].Claiming? && callers[c].sig.None?
      modifies this`keys, this`callers
      ensures View() == Next(cfg, old(View()), SigCommand(c, reply)) && c in callers
      ensures answer == ClaimReply(old(keys), SigOf(old(callers[c]).q), reply)
      ensures callers[c] == ClaimStep(old(callers[c]).q, old(callers[c]).nonce, Some(answer))
    {
      var q, nonce := callers[c].q, callers[c].nonce;
      answer := ClaimReply(keys, SigOf(q), reply);
      if SigOf(q) !in keys && !reply.Dropped? { keys := keys[SigOf(q) := c]; }
      callers := callers[c := ClaimStep(q, nonce, Some(answer))];
    }

    /** DEL nonce:n while releasing. */
    method DelNonce(c: CallerId, reply: Reply) returns (answer: Deletion)
      requires c in callers && callers[c].Releasing? && callers[c].nonceDel.None?
      modifies this`keys, this`callers
      ensures View() == Next(cfg, old(View()), NonceCommand(c, reply)) && c in callers
      ensures answer == DelReply(reply)
      ensures callers[c] == ReleaseStep(old(callers[c]).q, old(callers[c]).after, Some(answer), old(callers[c]).sigDel)
    {
      var pc := callers[c];
      answer := DelReply(reply);
      if !reply.Dropped? { keys := keys - {NonceOf(pc.q)}; }
      callers := callers[c := ReleaseStep(pc.q, pc.after, Some(answer), pc.sigDel)];
    }

    /** DEL sig:h while releasing. */
    method DelSig(c: CallerId, reply: Reply) returns (answer: Deletion)
      requires c in callers && callers[c].Releasing? && callers[c].sigDel.None?
      modifies this`keys, this`callers
      ensures View() == Next(cfg, old(View()), SigCommand(c, reply)) && c in callers
      ensures answer == DelReply(reply)
      ensures callers[c] == ReleaseStep(old(callers[c]).q, old(callers[c]).after, old(callers[c]).nonceDel,
                Some(answer))
    {
      var pc := callers[c];
      answer := DelReply(reply);
      if !reply.Dropped? { keys := keys - {SigOf(pc.q)}; }
      callers := callers[c := ReleaseStep(pc.q, pc.after, pc.nonceDel, Some(answer))];
    }

    /** DEL nonce:n after the signature key turned out to be taken. */
    method UndoNonce(c: CallerId, reply: Reply) returns (answer: Answer<()>)
      requires c in callers && callers[c].UndoingNonce?
      modifies this`keys, this`callers
      ensures View() == Next(cfg, old(View()), Act(c, reply, false)) && c in callers
      ensures answer == if reply.Delivered? then Ok(()) else Thrown
      ensures callers[c].Done? && callers[c].q == old(callers[c]).q
      ensures Seen(callers[c].result) == if answer.Ok? then Response.Rejected(SignatureUsed) else Threw
    {
      var s, q := View(), callers[c].q;
      answer := if reply.Delivered? then Ok(()) else Thrown;
      if !reply.Dropped? { keys := keys - {NonceOf(q)}; }
      callers := callers[c := if reply.Delivered? then Resume(cfg, s, callers[c], false) else Catch(callers[c], reply)];
    }

    /** db.paymentVerification.findFirst by nonce or signature hash. */
    method CheckReplayPostgres(c: CallerId, reply: Reply, sigRow: bool) returns (answer: Answer<Option<Code>>)
      requires c in callers && callers[c].Checking?
      modifies this`callers
      ensures View() == Next(cfg, old(View()), Act(c, reply, sigRow)) && c in callers
                && callers[c].q == old(callers[c]).q
      ensures answer == if reply.Delivered? then Ok(ReplayAnswer(old(View()), old(callers[c]).q, sigRow)) else Thrown
      ensures match answer
              case Thrown => callers[c].Done? && callers[c].result.Aborted?
              case Ok(Some(code)) => callers[c] == Release(callers[c].q, Answer(code))
              case Ok(None) => callers[c] == Verifying(callers[c].q)
    {
      var s, pc := View(), callers[c];
      answer := if reply.Delivered? then Ok(ReplayAnswer(s, pc.q, sigRow)) else Thrown;
      callers := callers[c := if reply.Delivered? then Resume(cfg, s, pc, sigRow) else Catch(pc, reply)];
    }

    /** verifyTransferAuthorization. */
    method VerifySignature(c: CallerId, reply: Reply) returns (answer: Answer<bool>)
      requires c in callers && callers[c].Verifying?
      modifies this`callers
      ensures View() == Next(cfg, old(View()), Act(c, reply, false)) && c in callers
                && callers[c].q == old(callers[c]).q
      ensures answer == if reply.Delivered? then Ok(cfg.valid(callers[c].q.body)) else Thrown
      ensures match answer
              case Thrown => callers[c].Done? && callers[c].result.Aborted?
              case Ok(true) => callers[c] == Upserting(callers[c].q, true)
              case Ok(false) => callers[c] == Release(callers[c].q, RecordRejection)
    {
      var s, pc := View(), callers[c];
      answer := if reply.Delivered? then Ok(cfg.valid(pc.q.body)) else Thrown;
      callers := callers[c := if reply.Delivered? then Resume(cfg, s, pc, false) else Catch(pc, reply)];
    }

    /** db.paymentRequest.upsert. */
    method UpsertRequest(c: CallerId, reply: Reply) returns (answer: Answer<()>)
      requires c in callers && callers[c].Upserting?
      modifies this`callers, this`requests
      ensures View() == Next(cfg, old(View()), Act(c, reply, false)) && c in callers
      ensures answer == if reply.Delivered? then Ok(()) else Thrown
      ensures callers[c] == if answer.Ok? then Recording(old(callers[c]).q, old(callers[c]).accepted)
                            else Catch(old(callers[c]), reply)
      ensures requests == old(requests) + if reply.Dropped? then {} else {old(callers[c]).q.request}
    {
      var pc := callers[c];
      answer := if reply.Delivered? then Ok(()) else Thrown;
      if !reply.Dropped? { requests := requests + {pc.q.request}; }
      callers := callers[c := if reply.Delivered? then Recording(pc.q, pc.accepted) else Catch(pc, reply)];
    }

    /** db.paymentVerification.create: the new row's number, or a unique constraint's exception. */
    method CreateVerification(c: CallerId, reply: Reply) returns (answer: Answer<nat>)
      requires c in callers && callers[c].Recording?
      modifies this`callers, this`rows, this`nonceIndex, this`sigIndex
      ensures View() == Next(cfg, old(View()), Act(c, reply, false)) && c in callers
      ensures answer == if reply.Delivered? && Replay(old(View()), old(callers[c]).q).None? then Ok(|old(rows)|)
                else Thrown
      ensures callers[c] == if reply.Delivered? then Resume(cfg, old(View()), old(callers[c]), false)
                else Catch(old(callers[c]), reply)
      ensures answer.Ok? ==>
                var pc := old(callers[c]);
                rows == old(rows) + [Row(pc.accepted, pc.q.request, pc.q.body.auth.nonce, pc.q.sig, c)]
    {
      var s, pc := View(), callers[c];
      var free := Replay(s, pc.q).None?;
      answer := if reply.Delivered? && free then Ok(|rows|) else Thrown;
      if free && !reply.Dropped? {
        nonceIndex := nonceIndex[pc.q.body.auth.nonce := |rows|];
        sigIndex := sigIndex[pc.q.sig := |rows|];
        rows := rows + [Row(pc.accepted, pc.q.request, pc.q.body.auth.nonce, pc.q.sig, c)];
      }
      callers := callers[c := if reply.Delivered? then Resume(cfg, s, pc, false) else Catch(pc, reply)];
    }

    // -------------------------------------------------------------- claim and release

    /** The two SETs when Redis serves the nonce key first. */
    method SetNonceThenSig(c: CallerId, one: Turn, two: Turn, ghost s0: State, ghost before: seq<Event>)
      returns (nonce: Claim, sig: Claim, ghost trace: seq<Event>)
      requires View() == Run(cfg, s0, before) && c in callers && callers[c] == Claiming(callers[c].q, None, None)
      modifies this
      ensures View() == Run(cfg, s0, trace) && c in callers && callers[c] == AfterClaims(old(callers[c]).q, nonce, sig)
    {
      trace := Others(c, one.others, s0, before);
      RunSnoc(cfg, s0, trace, NonceCommand(c, one.reply));
      nonce := SetNonce(c, one.reply);
      trace := Others(c, two.others, s0, trace + [NonceCommand(c, one.reply)]);
      RunSnoc(cfg, s0, trace, SigCommand(c, two.reply));
      sig := SetSig(c, two.reply);
      trace := trace + [SigCommand(c, two.reply)];
    }

    /** The two SETs when Redis serves the signature key first. */
    method SetSigThenNonce(c: CallerId, one: Turn, two: Turn, ghost s0: State, ghost before: seq<Event>)
      returns (nonce: Claim, sig: Claim, ghost trace: seq<Event>)
      requires View() == Run(cfg, s0, before) && c in callers && callers[c] == Claiming(callers[c].q, None, None)
      modifies this
      ensures View() == Run(cfg, s0, trace) && c in callers && callers[c] == AfterClaims(old(callers[c]).q, nonce, sig)
    {
      trace := Others(c, one.others, s0, before);
      RunSnoc(cfg, s0, trace, SigCommand(c, one.reply));
      sig := SetSig(c, one.reply);
      trace := Others(c, two.others, s0, trace + [SigCommand(c, one.reply)]);
      RunSnoc(cfg, s0, trace, NonceCommand(c, two.reply));
      nonce := SetNonce(c, two.reply);
      trace := trace + [NonceCommand(c, two.reply)];
    }

    /** Promise.all over the two SETs, in the order Redis serves them. */
    method SetBoth(c: CallerId, sched: Schedule, at: nat, ghost s0: State, ghost before: seq<Event>)
      returns (nonce: Claim, sig: Claim, ghost trace: seq<Event>)
      requires View() == Run(cfg, s0, before) && c in callers && callers[c] == Claiming(callers[c].q, None, None)
      modifies this
      ensures View() == Run(cfg, s0, trace) && c in callers && callers[c] == AfterClaims(old(callers[c]).q, nonce, sig)
    {
      if sched(at).nonceFirst {
        nonce, sig, trace := SetNonceThenSig(c, sched(at), sched(at + 1), s0, before);
      } else {
        nonce, sig, trace := SetSigThenNonce(c, sched(at), sched(at + 1), s0, before);
      }
    }

    /** claimNonceRedis: whether the pair is a duplicate, and why. */
    method ClaimNonceRedis(c: CallerId, sched: Schedule, at: nat, ghost s0: State, ghost before: seq<Event>)
      returns (duplicate: Answer<Option<Code>>, ghost trace: seq<Event>)
      requires View() == Run(cfg, s0, before) && c in callers && callers[c] == Claiming(callers[c].q, None, None)
      modifies this
      ensures View() == Run(cfg, s0, trace) && c in callers && callers[c].q == old(callers[c]).q
      ensures match duplicate
              case Ok(None) => callers[c] == Checking(callers[c].q)
              case Ok(Some(code)) => callers[c].Done? && Seen(callers[c].result) == Response.Rejected(code)
              case Thrown => callers[c].Done? && callers[c].result.Aborted?
    {
      var nonce, sig;
      nonce, sig, trace := SetBoth(c, sched, at, s0, before);
      if nonce.Failed? || sig.Failed? { return Thrown, trace; }
      if nonce.Lost? { return Ok(Some(NonceUsed)), trace; }
      if sig.Lost? {
        trace := Others(c, sched(at + 2).others, s0, trace);
        RunSnoc(cfg, s0, trace, Act(c, sched(at + 2).reply, false));
        var undone := UndoNonce(c, sched(at + 2).reply);
        trace := trace + [Act(c, sched(at + 2).reply, false)];
        duplicate := if undone.Ok? then Ok(Some(SignatureUsed)) else Thrown;
        return;
      }
      duplicate := Ok(None);
    }

    /** The two DELs when Redis serves the nonce key first. */
    method DelNonceThenSig(c: CallerId, one: Turn, two: Turn, ghost s0: State, ghost before: seq<Event>)
      returns (nonce: Deletion, sig: Deletion, ghost trace: seq<Event>)
      requires View() == Run(cfg, s0, before) && c in callers
      requires callers[c].Releasing? && callers[c].nonceDel.None? && callers[c].sigDel.None?
      modifies this
      ensures View() == Run(cfg, s0, trace) && c in callers
      ensures callers[c] == AfterReleases(old(callers[c]).q, old(callers[c]).after, nonce, sig)
    {
      trace := Others(c, one.others, s0, before);
      RunSnoc(cfg, s0, trace, NonceCommand(c, one.reply));
      nonce := DelNonce(c, one.reply);
      trace := Others(c, two.others, s0, trace + [NonceCommand(c, one.reply)]);
      RunSnoc(cfg, s0, trace, SigCommand(c, two.reply));
      sig := DelSig(c, two.reply);
      trace := trace + [SigCommand(c, two.reply)];
    }

    /** The two DELs when Redis serves the signature key first. */
    method DelSigThenNonce(c: CallerId, one: Turn, two: Turn, ghost s0: State, ghost before: seq<Event>)
      returns (nonce: Deletion, sig: Deletion, ghost trace: seq<Event>)
      requires View() == Run(cfg, s0, before) && c in callers
      requires callers[c].Releasing? && callers[c].nonceDel.None? && callers[c].sigDel.None?
      modifies this
      ensures View() == Run(cfg, s0, trace) && c in callers
      ensures callers[c] == AfterReleases(old(callers[c]).q, old(callers[c]).after, nonce, sig)
    {
      trace := Others(c, one.others, s0, before);
      RunSnoc(cfg, s0, trace, SigCommand(c, one.reply));
      sig := DelSig(c, one.reply);
      trace := Others(c, two.others, s0, trace + [SigCommand(c, one.reply)]);
      RunSnoc(cfg, s0, trace, NonceCommand(c, two.reply));
      nonce := DelNonce(c, two.reply);
      trace := trace + [NonceCommand(c, two.reply)];
    }

    /** releaseNonceRedis: both DELs; it throws when either does. */
    method ReleaseNonceRedis(c: CallerId, sched: Schedule, at: nat, ghost s0: State, ghost before: seq<Event>)
      returns (released: bool, ghost trace: seq<Event>)
      requires View() == Run(cfg, s0, before) && c in callers
      requires callers[c].Releasing? && callers[c].nonceDel.None? && callers[c].sigDel.None?
      modifies this
      ensures View() == Run(cfg, s0, trace) && c in callers && callers[c].q == old(callers[c]).q
      ensures !released ==> callers[c].Done? && callers[c].result.Aborted?
      ensures released ==> callers[c] == match old(callers[c]).after
                                         case Answer(code) => Done(callers[c].q, Result.Rejected(code, {}))
                                         case RecordRejection => Upserting(callers[c].q, false)
    {
      var nonce, sig;
      if sched(at).nonceFirst {
        nonce, sig, trace := DelNonceThenSig(c, sched(at), sched(at + 1), s0, before);
      } else {
        nonce, sig, trace := DelSigThenNonce(c, sched(at), sched(at + 1), s0, before);
      }
      released := nonce.Deleted? && sig.Deleted?;
    }

    // -------------------------------------------------------------- runVerify

    /** persistVerification: the request, then the verification row. */
    method PersistVerification(c: CallerId, sched: Schedule, at: nat, ghost s0: State, ghost before: seq<Event>)
      returns (row: Answer<nat>, ghost trace: seq<Event>)
      requires View() == Run(cfg, s0, before) && c in callers && callers[c].Upserting?
      modifies this
      ensures View() == Run(cfg, s0, trace) && c in callers && callers[c].q == old(callers[c]).q
      ensures old(callers[c]).accepted ==>
                callers[c] == match row
                              case Ok(i) => Done(callers[c].q, Result.Accepted(i))
                              case Thrown => Release(callers[c].q, Answer(InternalError))
      ensures !old(callers[c]).accepted ==>
                callers[c].Done? && Seen(callers[c].result) == if row.Ok? then Response.Rejected(InvalidSignature)
                      else Threw
      ensures row.Ok? ==>
                var q := callers[c].q;
                && q.request in requests && row.value < |rows|
                && rows[row.value] == Row(old(callers[c]).accepted, q.request, q.body.auth.nonce, q.sig, c)
    {
      trace := Others(c, sched(at).others, s0, before);
      RunSnoc(cfg, s0, trace, Act(c, sched(at).reply, false));
      var upserted := UpsertRequest(c, sched(at).reply);
      trace := trace + [Act(c, sched(at).reply, false)];
      if upserted.Thrown? { return Thrown, trace; }
      trace := Others(c, sched(at + 1).others, s0, trace);
      RunSnoc(cfg, s0, trace, Act(c, sched(at + 1).reply, false));
      row := CreateVerification(c, sched(at + 1).reply);
      trace := trace + [Act(c, sched(at + 1).reply, false)];
    }

    /** Step 9: persist the acceptance, or release and ask for a retry. */
    method Accept(c: CallerId, sched: Schedule, at: nat, ghost s0: State, ghost before: seq<Event>)
      returns (response: Response, ghost trace: seq<Event>)
      requires View() == Run(cfg, s0, before) && c in callers && callers[c].Upserting? && callers[c].accepted
      modifies this
      ensures View() == Run(cfg, s0, trace) && c in callers && callers[c].q == old(callers[c]).q
      ensures callers[c].Done? && Seen(callers[c].result) == response && !response.Crashed?
    {
      var row;
      row, trace := PersistVerification(c, sched, at, s0, before);
      if row.Ok? { return Response.Accepted(row.value), trace; }
      var released;
      released, trace := ReleaseNonceRedis(c, sched, at + 2, s0, trace);
      response := if released then Response.Rejected(InternalError) else Threw;
    }

    /** The rejection of step 8: release the claim first, then record it. */
    method RejectSignature(c: CallerId, sched: Schedule, at: nat, ghost s0: State, ghost before: seq<Event>)
      returns (response: Response, ghost trace: seq<Event>)
      requires View() == Run(cfg, s0, before) && c in callers && callers[c] == Release(callers[c].q, RecordRejection)
      modifies this
      ensures View() == Run(cfg, s0, trace) && c in callers && callers[c].q == old(callers[c]).q
      ensures callers[c].Done? && Seen(callers[c].result) == response && !response.Crashed?
    {
      var released;
      released, trace := ReleaseNonceRedis(c, sched, at, s0, before);
      if !released { return Threw, trace; }
      var row;
      row, trace := PersistVerification(c, sched, at + 2, s0, trace);
      response := if row.Ok? then Response.Rejected(InvalidSignature) else Threw;
    }

    /** Steps 8 and 9, once the durable check has passed. */
    method VerifyAndPersist(c: CallerId, sched: Schedule, ghost s0: State, ghost before: seq<Event>)
      returns (response: Response, ghost trace: seq<Event>)
      requires View() == Run(cfg, s0, before) && c in callers && callers[c].Verifying?
      modifies this
      ensures View() == Run(cfg, s0, trace) && c in callers && callers[c].q == old(callers[c]).q
      ensures callers[c].Done? && Seen(callers[c].result) == response && !response.Crashed?
    {
      trace := Others(c, sched(4).others, s0, before);
      RunSnoc(cfg, s0, trace, Act(c, sched(4).reply, false));
      var valid := VerifySignature(c, sched(4).reply);
      trace := trace + [Act(c, sched(4).reply, false)];
      match valid
      case Thrown => response := Threw;
      case Ok(false) => response, trace := RejectSignature(c, sched, 5, s0, trace);
      case Ok(true) => response, trace := Accept(c, sched, 5, s0, trace);
    }

    /** Steps 6 to 9. */
    method ClaimAndVerify(c: CallerId, sched: Schedule, ghost s0: State, ghost before: seq<Event>)
      returns (response: Response, ghost trace: seq<Event>)
      requires View() == Run(cfg, s0, before) && c in callers && callers[c] == Claiming(callers[c].q, None, None)
      modifies this
      ensures View() == Run(cfg, s0, trace) && c in callers && callers[c].q == old(callers[c]).q
      ensures callers[c].Done? && Seen(callers[c].result) == response && !response.Crashed?
    {
      var claim;
      claim, trace := ClaimNonceRedis(c, sched, 0, s0, before);
      match claim
      case Thrown => return Threw, trace;
      case Ok(Some(code)) => return Response.Rejected(code), trace;
      case Ok(None) =>
      trace := Others(c, sched(3).others, s0, trace);
      RunSnoc(cfg, s0, trace, Act(c, sched(3).reply, sched(3).sigRow));
      var replay := CheckReplayPostgres(c, sched(3).reply, sched(3).sigRow);
      trace := trace + [Act(c, sched(3).reply, sched(3).sigRow)];
      match replay
      case Thrown => response := Threw;
      case Ok(None) => response, trace := VerifyAndPersist(c, sched, s0, trace);
      case Ok(Some(code)) =>
        var released;
        released, trace := ReleaseNonceRedis(c, sched, 4, s0, trace);
        response := if released then Response.Rejected(code) else Threw;
    }

    /** The checks before the first await may already decide the call. */
    method Arrive(c: CallerId, request: RequestId, body: Option<Body>, now: nat, ghost s0: State)
      returns (decided: Option<Response>, ghost trace: seq<Event>)
      requires c !in callers && s0 == View()
      modifies this`callers
      ensures View() == Run(cfg, s0, trace) && c in callers && callers[c] == Start(cfg, request, body, now)
      ensures match decided
              case Some(response) => callers[c].Done? && Seen(callers[c].result) == response
              case None => callers[c] == Claiming(callers[c].q, None, None)
      ensures decided.Some? ==> decided.value.Rejected?
      ensures decided.None? ==> Precheck(cfg, body, now).None?
    {
      assert s0 == Run(cfg, s0, []);
      RunSnoc(cfg, s0, [], Begin(c, request, body, now));
      trace := [] + [Begin(c, request, body, now)];
      match Precheck(cfg, body, now)
      case Some(code) =>
        callers := callers[c := Start(cfg, request, body, now)];
        decided := Some(Response.Rejected(code));
      case None =>
        callers := callers[c := Start(cfg, request, body, now)];
        decided := None;
    }

    method Execute(c: CallerId, request: RequestId, body: Option<Body>, now: nat, sched: Schedule)
      returns (response: Response, ghost trace: seq<Event>)
      requires c !in callers
      modifies this
      ensures View() == Run(cfg, old(View()), trace)
      ensures c in callers && callers[c].Done? && Seen(callers[c].result) == response && !response.Crashed?
      ensures callers[c].q == Start(cfg, request, body, now).q
      ensures response.Accepted? ==> Precheck(cfg, body, now).None?
    {
      ghost var s0 := View();
      var decided;
      decided, trace := Arrive(c, request, body, now, s0);
      if decided.Some? { return decided.value, trace; }
      response, trace := ClaimAndVerify(c, sched, s0, trace);
    }

    /** runVerify: its response is that of one run of the machine; an accepted one passed every check and owns the row
        it names, so by module VerifyServiceTheorems no other accepted response carries its nonce or signature. */
    method RunVerify(c: CallerId, request: RequestId, body: Option<Body>, now: nat, sched: Schedule)
      returns (response: Response, ghost trace: seq<Event>)
      requires Valid() && c !in callers
      modifies this
      ensures Valid()
      ensures View() == Run(cfg, old(View()), trace)
      ensures c in callers && callers[c].Done? && Seen(callers[c].result) == response && !response.Crashed?
      ensures response.Accepted? ==>
                && body.Some? && Precheck(cfg, body, now).None? && cfg.valid(body.value)
                && response.row < |rows|
                && rows[response.row] == Row(true, request, body.value.auth.nonce, cfg.hash(body.value.signature), c)
      ensures response.Accepted? ==> request in requests
      ensures response == Response.Rejected(InvalidSignature) ==>
                exists i :: 0 <= i < |rows| && !rows[i].accepted && rows[i].caller == c && rows[i].request in requests
      ensures response.Threw? <==> Theorems.EverThrew(cfg, old(View()), trace, c)
      ensures Answers.AnswersTo(cfg, callers[c].q, callers[c].result, Answers.Told(cfg, old(View()), trace, c))
    {
      ghost var s0 := View();
      response, trace := Execute(c, request, body, now, sched);
      Theorems.RunKeeps(cfg, s0, trace);
      if response.Accepted? { StartOfAdmitted(cfg, request, body, now); }
      assert Theorems.Passed(cfg, callers[c]) && Theorems.AcceptedRow(View(), c, callers[c]);
      Theorems.ThrowsExactly(cfg, s0, trace, c);
      Answers.RunStores(cfg, s0, trace);
      Answers.AnswersExactly(cfg, s0, trace, c);
      assert Answers.RejectionRecorded(View(), c, callers[c]);
    }
  }
}
