/** What settlePayment answers, over all runs: exactly what the call has heard, once every endpoint had its turn. */
module SettleAnswers {
  import opened Prelude
  import opened Registry
  import opened Hex
  import opened SettlePayment
  import opened SettleTheorems
  import opened SettleWitnesses
  import opened SettleFailures
  import Chain
  import FeeEngine

  // ---------------------------------------------------------------- an answer is what the call was told

  /** What an await may tell a call that decides its answer. */
  datatype Heard =
    | Nothing
    | NoVerification
    | SettledBefore(row: nat)
    | LockTaken
    | OwnReceipt
    | FailureHandled
    | StoreFault

  /** What step `e` from `s` to `t` tells call `c`: its confirming transaction is known by the receipt that was not
      there before, the other tidings by what the stores held. */
  function HeardIn(reqs: Requests, s: State, t: State, e: Event, c: CallerId): Heard {
    if !(e.Act? && e.c == c && c in s.callers) then Nothing
    else
      var pc := s.callers[c];
      if !e.reply.Delivered? then
        if pc.Submitting? || pc.Waiting? || pc.Confirming? || pc.Finally? || pc.Done? then Nothing else StoreFault
      else if pc.r !in s.receipts && pc.r in t.receipts then OwnReceipt
      else
        match pc
        case Loading(r, _) => if r in reqs && |reqs[r].accepted| > 0 then Nothing else NoVerification
        case Checking(r, _) =>
          if ConfirmedRow(s, r, e.choice.pick) then SettledBefore(e.choice.pick) else Nothing
        case Locking(r, _) => if r in s.locks then LockTaken else Nothing
        case Unlocking(_) => FailureHandled
        case _ => Nothing
  }

  /** The last thing the run told call `c`. */
  ghost function Told(cfg: Config, reqs: Requests, s: State, es: seq<Event>, c: CallerId): Heard {
    if es == [] then Nothing
    else
      var init, e := es[..|es| - 1], es[|es| - 1];
      var u := Run(cfg, reqs, s, init);
      var h := HeardIn(reqs, u, Next(cfg, reqs, u, e), e, c);
      if h.Nothing? then Told(cfg, reqs, s, init, c) else h
  }

  predicate AnswersTo(o: Outcome, heard: Heard) {
    match heard
    case Nothing => false
    case NoVerification => o == Threw(VerificationRequired)
    case SettledBefore(i) => o.Settled? && o.idempotent && o.settlement == i
    case LockTaken => o == InProgress
    case OwnReceipt => o.Settled? && !o.idempotent
    case FailureHandled => o == Threw(SettlementFailed)
    case StoreFault => o == Threw(StoreError)
  }

  ghost predicate Fated(s: State, c: CallerId, heard: Heard) {
    c in s.callers ==>
      match s.callers[c]
      case Finally(_, o) => AnswersTo(o, heard)
      case Done(_, o) => o.Crashed? || AnswersTo(o, heard)
      case _ => heard.Nothing?
  }

  /** Only a confirming transaction that commits writes a receipt. */
  lemma ReceiptsOf(cfg: Config, reqs: Requests, s: State, c: CallerId, reply: Reply, x: Choice)
    requires c in s.callers && PcOk(cfg, reqs, s, s.callers[c])
    ensures var pc := s.callers[c]; var t := ActStep(cfg, reqs, s, c, reply, x);
            pc.r !in s.receipts && pc.r in t.receipts <==>
              pc.Confirming? && !reply.Dropped? && CanConfirm(s, pc.r, pc.row, pc.tx, x.freshId)
  {
  }

  lemma OwnFate(cfg: Config, reqs: Requests, s: State, c: CallerId, reply: Reply, x: Choice, heard: Heard)
    requires c in s.callers && PcOk(cfg, reqs, s, s.callers[c]) && Fated(s, c, heard)
    ensures var t := ActStep(cfg, reqs, s, c, reply, x);
            var h := HeardIn(reqs, s, t, Act(c, reply, x), c);
            Fated(t, c, if h.Nothing? then heard else h)
  {
    ReceiptsOf(cfg, reqs, s, c, reply, x);
  }

  lemma FateStep(cfg: Config, reqs: Requests, s: State, e: Event, c: CallerId, heard: Heard)
    requires Inv(cfg, reqs, s) && Fated(s, c, heard) && (c !in s.callers ==> heard.Nothing?)
    ensures var t := Next(cfg, reqs, s, e); var h := HeardIn(reqs, s, t, e, c);
            && Fated(t, c, if h.Nothing? then heard else h)
            && (c !in t.callers ==> heard.Nothing? && h.Nothing?)
  {
    var t := Next(cfg, reqs, s, e);
    if c in t.callers { NextCaller(cfg, reqs, s, e, c); }
    if e.Act? && e.c == c && c in s.callers { OwnFate(cfg, reqs, s, c, e.reply, e.choice, heard); }
  }

  lemma {:induction false} FateRun(cfg: Config, reqs: Requests, s: State, es: seq<Event>, c: CallerId)
    requires Inv(cfg, reqs, s) && c !in s.callers
    ensures Fated(Run(cfg, reqs, s, es), c, Told(cfg, reqs, s, es, c))
    ensures c !in Run(cfg, reqs, s, es).callers ==> Told(cfg, reqs, s, es, c).Nothing?
  {
    if es != [] {
      var init, e := es[..|es| - 1], es[|es| - 1];
      FateRun(cfg, reqs, s, init, c);
      RunKeeps(cfg, reqs, s, init);
      FateStep(cfg, reqs, Run(cfg, reqs, s, init), e, c, Told(cfg, reqs, s, init, c));
    }
  }

  /** Over all runs, the answer of a call that did not crash is the one that belongs to what it was told, and so says
      it: no two tidings have an answer in common. */
  lemma AnswersExactly(cfg: Config, reqs: Requests, s: State, es: seq<Event>, c: CallerId)
    requires Inv(cfg, reqs, s) && c !in s.callers
    requires var t := Run(cfg, reqs, s, es); c in t.callers && t.callers[c].Done? && !t.callers[c].result.Crashed?
    ensures AnswersTo(Run(cfg, reqs, s, es).callers[c].result, Told(cfg, reqs, s, es, c))
  {
    FateRun(cfg, reqs, s, es, c);
  }

  /** A delivered await of call `c` wrote the receipt of its request. */
  predicate WritesReceipt(s: State, t: State, e: Event, c: CallerId) {
    && e.Act? && e.c == c && e.reply.Delivered? && c in s.callers
    && s.callers[c].r !in s.receipts && s.callers[c].r in t.receipts
  }

  ghost predicate EverWroteReceipt(cfg: Config, reqs: Requests, s: State, es: seq<Event>, c: CallerId) {
    es != [] &&
    var init, e := es[..|es| - 1], es[|es| - 1];
    var u := Run(cfg, reqs, s, init);
    EverWroteReceipt(cfg, reqs, s, init, c) || WritesReceipt(u, Next(cfg, reqs, u, e), e, c)
  }

  lemma NothingAfterReceipt(cfg: Config, reqs: Requests, s: State, e: Event, c: CallerId, heard: Heard)
    requires Inv(cfg, reqs, s) && Fated(s, c, heard) && heard.OwnReceipt?
    ensures HeardIn(reqs, s, Next(cfg, reqs, s, e), e, c).Nothing?
  {
    if e.Act? && e.c == c && c in s.callers { ReceiptsOf(cfg, reqs, s, c, e.reply, e.choice); }
  }

  lemma {:induction false} ToldOfReceipt(cfg: Config, reqs: Requests, s: State, es: seq<Event>, c: CallerId)
    requires Inv(cfg, reqs, s) && c !in s.callers
    ensures Told(cfg, reqs, s, es, c).OwnReceipt? <==> EverWroteReceipt(cfg, reqs, s, es, c)
  {
    if es != [] {
      var init, e := es[..|es| - 1], es[|es| - 1];
      ToldOfReceipt(cfg, reqs, s, init, c);
      FateRun(cfg, reqs, s, init, c);
      RunKeeps(cfg, reqs, s, init);
      if Told(cfg, reqs, s, init, c).OwnReceipt? {
        NothingAfterReceipt(cfg, reqs, Run(cfg, reqs, s, init), e, c, Told(cfg, reqs, s, init, c));
      }
    }
  }

  /** A call that did not crash answers with a fresh settlement if and only if a delivered await of its own wrote its
      request's receipt; the answer is then that receipt. */
  lemma FreshAnswerExactly(cfg: Config, reqs: Requests, s: State, es: seq<Event>, c: CallerId)
    requires Inv(cfg, reqs, s) && c !in s.callers
    requires var t := Run(cfg, reqs, s, es); c in t.callers && t.callers[c].Done? && !t.callers[c].result.Crashed?
    ensures var t := Run(cfg, reqs, s, es); var o := t.callers[c].result; var r := t.callers[c].r;
            && (o.Settled? && !o.idempotent <==> EverWroteReceipt(cfg, reqs, s, es, c))
            && (EverWroteReceipt(cfg, reqs, s, es, c) ==>
                  r in t.receipts && o == Settled(t.receipts[r].settlement, Some(t.receipts[r].txHash),
                                                  Some(t.receipts[r].id), false))
  {
    AnswersExactly(cfg, reqs, s, es, c);
    ToldOfReceipt(cfg, reqs, s, es, c);
    RunKeeps(cfg, reqs, s, es);
    var t := Run(cfg, reqs, s, es);
    assert PcOk(cfg, reqs, t, t.callers[c]);
  }

  /** The transaction moves exactly what the request says: the configured asset, from the buyer to the seller, its
      amount, until its expiry in whole seconds, under the nonce and the signature of its first accepted verification.
      */
  predicate MovesAsRequested(cfg: Config, req: PaymentRequest, call: Chain.Call) {
    && req.network in cfg.networks && req.asset in cfg.networks[req.network].assets && |req.accepted| > 0
    && call.asset == ToBytes(cfg.networks[req.network].assets[req.asset].contractAddress)
    && call.auth.from == ToBytes(req.buyer) && call.auth.to == ToBytes(req.seller) && call.auth.value == req.amount
    && call.auth.validAfter == 0
    && call.auth.validBefore * 1_000 <= req.expiresAtMs < (call.auth.validBefore + 1) * 1_000
    && call.auth.nonce == ToBytes(req.accepted[0].nonce)
    && call.sig == Chain.SplitSignature(req.accepted[0].signatureHash)
  }

  /** Behind every settled answer, fresh or idempotent, of every run stands a successful transaction that moved exactly
      what the request says. */
  lemma PaidAsRequested(cfg: Config, reqs: Requests, s: State, c: CallerId)
    requires Reachable(cfg, reqs, s) && c in s.callers && s.callers[c].Done? && s.callers[c].result.Settled?
    ensures var r, hash := s.callers[c].r, s.callers[c].result.txHash;
            && r in reqs && hash.Some? && Chain.Succeeded(s.chain, hash.value)
            && MovesAsRequested(cfg, reqs[r], s.chain.txs[hash.value].call)
  {
    Agreement(cfg, reqs, s, c, c);
  }

  // ---------------------------------------------------------------- every endpoint is tried

  /** One endpoint fails call `c`: the broadcast or the wait throws, or the block shows a reverted transaction. */
  predicate EndpointFails(s: State, e: Event, c: CallerId) {
    && e.Act? && e.c == c && c in s.callers
    && match s.callers[c]
       case Submitting(_, _, _) => !e.reply.Delivered?
       case Waiting(_, _, _, tx) => !e.reply.Delivered? || (tx < |s.chain.txs| && s.chain.txs[tx].status.Reverted?)
       case _ => false
  }

  ghost function EndpointsFailed(cfg: Config, reqs: Requests, s: State, es: seq<Event>, c: CallerId): nat {
    if es == [] then 0
    else
      var init, e := es[..|es| - 1], es[|es| - 1];
      EndpointsFailed(cfg, reqs, s, init, c) + if EndpointFails(Run(cfg, reqs, s, init), e, c) then 1 else 0
  }

  /** The wait of call `c` is answered with a block in which its transaction succeeded. */
  predicate HearsOfSuccess(s: State, e: Event, c: CallerId) {
    && e.Act? && e.c == c && e.reply.Delivered? && c in s.callers
    && s.callers[c].Waiting? && Chain.Succeeded(s.chain, s.callers[c].tx)
  }

  ghost predicate EverHeardOfSuccess(cfg: Config, reqs: Requests, s: State, es: seq<Event>, c: CallerId) {
    es != []
    && (EverHeardOfSuccess(cfg, reqs, s, es[..|es| - 1], c)
        || HearsOfSuccess(Run(cfg, reqs, s, es[..|es| - 1]), es[|es| - 1], c))
  }

  /** How far call `c` is in the failover loop. */
  ghost predicate Tried(cfg: Config, reqs: Requests, pc: Pc, failed: nat, success: bool) {
    match pc
    case Submitting(_, _, url) => failed == url < cfg.rpcUrls && !success
    case Waiting(_, _, url, _) => failed == url < cfg.rpcUrls && !success
    case Confirming(_, _, _) => failed < cfg.rpcUrls && success
    case Failing(r, _) => Exhausted(cfg, reqs, r, failed, success)
    case Unlocking(r) => Exhausted(cfg, reqs, r, failed, success)
    case Finally(r, o) => TriedFor(cfg, reqs, r, o, failed, success)
    case Done(r, o) => TriedFor(cfg, reqs, r, o, failed, success)
    case _ => failed == 0 && !success
  }

  ghost predicate Exhausted(cfg: Config, reqs: Requests, r: RequestId, failed: nat, success: bool) {
    if !Submittable(cfg, reqs, r) then failed == 0 && !success
    else if success then failed < cfg.rpcUrls
    else failed == cfg.rpcUrls
  }

  ghost predicate TriedFor(cfg: Config, reqs: Requests, r: RequestId, o: Outcome, failed: nat, success: bool) {
    && failed <= cfg.rpcUrls
    && (o == Threw(SettlementFailed) ==> Exhausted(cfg, reqs, r, failed, success))
    && (o.Settled? && !o.idempotent ==> failed < cfg.rpcUrls && success)
  }

  ghost predicate LoopOk(cfg: Config, reqs: Requests, s: State, c: CallerId, failed: nat, success: bool) {
    if c in s.callers then Tried(cfg, reqs, s.callers[c], failed, success) else failed == 0 && !success
  }

  lemma TryingNext(cfg: Config, reqs: Requests, s: State, pc: Pc, reply: Reply, x: Choice)
    requires PcOk(cfg, reqs, s, pc) && (pc.Submitting? || pc.Waiting?)
    ensures var next := if reply.Delivered? then Resume(cfg, reqs, s, pc, x) else Catch(cfg, pc);
            || (pc.Submitting? && reply.Delivered? && next == Waiting(pc.r, pc.row, pc.url, |s.chain.txs|))
            || (pc.Waiting? && reply.Delivered? && s.chain.txs[pc.tx].status.Mempool? && next == pc)
            || (pc.Waiting? && reply.Delivered? && s.chain.txs[pc.tx].status.Success?
                && next == Confirming(pc.r, pc.row, pc.tx))
            || ((reply.Delivered? ==> pc.Waiting? && s.chain.txs[pc.tx].status.Reverted?)
                && next == Attempt(cfg, pc.r, pc.row, pc.url + 1))
  {
  }

  lemma TryingLoop(cfg: Config, reqs: Requests, s: State, c: CallerId, reply: Reply, x: Choice, failed: nat,
                   success: bool)
    requires c in s.callers && PcOk(cfg, reqs, s, s.callers[c]) && Tried(cfg, reqs, s.callers[c], failed, success)
    requires s.callers[c].Submitting? || s.callers[c].Waiting?
    ensures var e := Act(c, reply, x);
            Tried(cfg, reqs, ActStep(cfg, reqs, s, c, reply, x).callers[c],
                  failed + (if EndpointFails(s, e, c) then 1 else 0), success || HearsOfSuccess(s, e, c))
  {
    TryingNext(cfg, reqs, s, s.callers[c], reply, x);
  }

  lemma OtherLoop(cfg: Config, reqs: Requests, s: State, c: CallerId, reply: Reply, x: Choice, failed: nat,
                  success: bool)
    requires c in s.callers && PcOk(cfg, reqs, s, s.callers[c]) && Tried(cfg, reqs, s.callers[c], failed, success)
    requires !s.callers[c].Submitting? && !s.callers[c].Waiting?
    ensures Tried(cfg, reqs, ActStep(cfg, reqs, s, c, reply, x).callers[c], failed, success)
  {
  }

  lemma {:induction false} LoopRun(cfg: Config, reqs: Requests, s: State, es: seq<Event>, c: CallerId)
    requires Inv(cfg, reqs, s) && c !in s.callers
    ensures LoopOk(cfg, reqs, Run(cfg, reqs, s, es), c, EndpointsFailed(cfg, reqs, s, es, c),
                   EverHeardOfSuccess(cfg, reqs, s, es, c))
  {
    if es != [] {
      var init, e := es[..|es| - 1], es[|es| - 1];
      LoopRun(cfg, reqs, s, init, c);
      RunKeeps(cfg, reqs, s, init);
      LoopStep(cfg, reqs, Run(cfg, reqs, s, init), e, c, EndpointsFailed(cfg, reqs, s, init, c),
               EverHeardOfSuccess(cfg, reqs, s, init, c));
    }
  }

  lemma OwnLoop(cfg: Config, reqs: Requests, s: State, c: CallerId, reply: Reply, x: Choice, failed: nat, success: bool)
    requires c in s.callers && PcOk(cfg, reqs, s, s.callers[c]) && Tried(cfg, reqs, s.callers[c], failed, success)
    ensures var e := Act(c, reply, x);
            Tried(cfg, reqs, ActStep(cfg, reqs, s, c, reply, x).callers[c],
                  failed + (if EndpointFails(s, e, c) then 1 else 0), success || HearsOfSuccess(s, e, c))
  {
    if s.callers[c].Submitting? || s.callers[c].Waiting? {
      TryingLoop(cfg, reqs, s, c, reply, x, failed, success);
    } else {
      OtherLoop(cfg, reqs, s, c, reply, x, failed, success);
    }
  }

  lemma OthersLoop(cfg: Config, reqs: Requests, s: State, e: Event, c: CallerId, failed: nat, success: bool)
    requires LoopOk(cfg, reqs, s, c, failed, success) && !(e.Act? && e.c == c)
    ensures LoopOk(cfg, reqs, Next(cfg, reqs, s, e), c, failed, success)
  {
    if c in Next(cfg, reqs, s, e).callers { NextCaller(cfg, reqs, s, e, c); }
    if c in s.callers { CrashTried(cfg, reqs, s.callers[c], failed, success); }
  }

  lemma LoopStep(cfg: Config, reqs: Requests, s: State, e: Event, c: CallerId, failed: nat, success: bool)
    requires Inv(cfg, reqs, s) && LoopOk(cfg, reqs, s, c, failed, success)
    ensures LoopOk(cfg, reqs, Next(cfg, reqs, s, e), c, failed + (if EndpointFails(s, e, c) then 1 else 0),
                   success || HearsOfSuccess(s, e, c))
  {
    if e.Act? && e.c == c {
      if c in s.callers { OwnLoop(cfg, reqs, s, c, e.reply, e.choice, failed, success); }
    } else {
      OthersLoop(cfg, reqs, s, e, c, failed, success);
    }
  }

  lemma CrashTried(cfg: Config, reqs: Requests, pc: Pc, failed: nat, success: bool)
    requires Tried(cfg, reqs, pc, failed, success)
    ensures Tried(cfg, reqs, Done(pc.r, Crashed), failed, success)
  {
  }

  /** Failover over all runs: a call that answers settlement_failed has been failed by every endpoint, once each, unless
      it heard of a success (and could not confirm it) or its request cannot be submitted; and one that answers with a
      fresh settlement heard of a success before the last endpoint failed it. */
  lemma EveryEndpointTried(cfg: Config, reqs: Requests, s: State, es: seq<Event>, c: CallerId)
    requires Inv(cfg, reqs, s) && c !in s.callers
    requires var t := Run(cfg, reqs, s, es); c in t.callers && t.callers[c].Done?
    ensures var o, r := Run(cfg, reqs, s, es).callers[c].result, Run(cfg, reqs, s, es).callers[c].r;
            var failed, success := EndpointsFailed(cfg, reqs, s, es, c), EverHeardOfSuccess(cfg, reqs, s, es, c);
            && (o == Threw(SettlementFailed) ==>
                  if Submittable(cfg, reqs, r) then failed == cfg.rpcUrls <==> !success else failed == 0 && !success)
            && (o.Settled? && !o.idempotent ==> success && failed < cfg.rpcUrls)
            && failed <= cfg.rpcUrls
  {
    LoopRun(cfg, reqs, s, es, c);
  }

  // ---------------------------------------------------------------- the referral code a caller passes is credited

  /** What a row is about never changes. */
  ghost predicate SameSubjects(s: State, t: State) {
    && |s.rows| <= |t.rows|
    && forall i :: 0 <= i < |s.rows| ==>
         t.rows[i].request == s.rows[i].request && t.rows[i].referral == s.rows[i].referral
         && t.rows[i].createdAt == s.rows[i].createdAt
  }

  lemma NextSubjects(cfg: Config, reqs: Requests, s: State, e: Event)
    requires CallersOk(cfg, reqs, s)
    ensures SameSubjects(s, Next(cfg, reqs, s, e))
  {
    if e.Act? && e.c in s.callers { assert PcOk(cfg, reqs, s, s.callers[e.c]); }
  }

  /** Call `c` carries `referral`, or its row does. */
  ghost predicate Carries(s: State, pc: Pc, referral: Option<string>) {
    match pc
    case Loading(_, ref) => ref == referral
    case Checking(_, ref) => ref == referral
    case Locking(_, ref) => ref == referral
    case Creating(_, ref) => ref == referral
    case Submitting(_, row, _) => row < |s.rows| && s.rows[row].referral == referral
    case Waiting(_, row, _, _) => row < |s.rows| && s.rows[row].referral == referral
    case Confirming(_, row, _) => row < |s.rows| && s.rows[row].referral == referral
    case Finally(_, o) => Credits(s, o, referral)
    case Done(_, o) => Credits(s, o, referral)
    case _ => true
  }

  ghost predicate Credits(s: State, o: Outcome, referral: Option<string>) {
    o.Settled? && !o.idempotent ==> o.settlement < |s.rows| && s.rows[o.settlement].referral == referral
  }

  lemma StillCarries(s: State, t: State, pc: Pc, referral: Option<string>)
    requires Carries(s, pc, referral) && SameSubjects(s, t)
    ensures Carries(t, pc, referral)
  {
  }

  lemma OwnCarries(cfg: Config, reqs: Requests, s: State, pc: Pc, reply: Reply, x: Choice, referral: Option<string>,
                   t: State)
    requires Carries(s, pc, referral) && SameSubjects(s, t)
    requires pc.Creating? && reply.Delivered? ==> |s.rows| < |t.rows| && t.rows[|s.rows|].referral == referral
    ensures Carries(t, if reply.Delivered? then Resume(cfg, reqs, s, pc, x) else Catch(cfg, pc), referral)
  {
  }

  lemma CreatedRow(cfg: Config, reqs: Requests, s: State, c: CallerId, reply: Reply, x: Choice)
    requires c in s.callers && s.callers[c].Creating? && !reply.Dropped?
    ensures var t := ActStep(cfg, reqs, s, c, reply, x);
            && |t.rows| == |s.rows| + 1 && t.rows[|s.rows|].referral == s.callers[c].referral
            && t.rows[|s.rows|].request == s.callers[c].r && t.rows[|s.rows|].status == Pending
            && t.rows[|s.rows|].createdAt == x.at
  {
  }

  lemma CarriesStep(cfg: Config, reqs: Requests, s: State, e: Event, c: CallerId, referral: Option<string>)
    requires CallersOk(cfg, reqs, s) && c in s.callers && Carries(s, s.callers[c], referral)
    ensures var t := Next(cfg, reqs, s, e);
            c in t.callers && t.callers[c].r == s.callers[c].r && Carries(t, t.callers[c], referral)
  {
    var t := Next(cfg, reqs, s, e);
    NextSubjects(cfg, reqs, s, e);
    NextRequest(cfg, reqs, s, e, c);
    NextCaller(cfg, reqs, s, e, c);
    if e.Act? && e.c == c {
      if s.callers[c].Creating? && !e.reply.Dropped? { CreatedRow(cfg, reqs, s, c, e.reply, e.choice); }
      OwnCarries(cfg, reqs, s, s.callers[c], e.reply, e.choice, referral, t);
    } else {
      StillCarries(s, t, s.callers[c], referral);
    }
  }

  lemma {:induction false} CarriesRun(cfg: Config, reqs: Requests, s: State, es: seq<Event>, c: CallerId)
    requires Inv(cfg, reqs, s) && c in s.callers && s.callers[c].Loading?
    ensures var t := Run(cfg, reqs, s, es);
            c in t.callers && t.callers[c].r == s.callers[c].r && Carries(t, t.callers[c], s.callers[c].referral)
  {
    if es != [] {
      var init := es[..|es| - 1];
      CarriesRun(cfg, reqs, s, init, c);
      RunKeeps(cfg, reqs, s, init);
      CarriesStep(cfg, reqs, Run(cfg, reqs, s, init), es[|es| - 1], c, s.callers[c].referral);
    }
  }

  /** The row's fee is the platform's rate of the amount, and its developer share, if there is a referral code, the
      developer's rate of the fee, each rounded down. */
  predicate ChargedFor(cfg: Config, amount: nat, referral: Option<string>, row: Settlement) {
    && FeeEngine.RoundedDown(amount, cfg.platformFeeBps, row.feeAmount)
    && if referral.Some? && |referral.value| > 0
       then FeeEngine.RoundedDown(row.feeAmount, cfg.developerShareBps, row.developerShare)
       else row.developerShare == 0
  }

  lemma FeesAreCharged(cfg: Config, req: PaymentRequest, row: Settlement)
    requires FeesCharged(cfg, req, row)
    ensures ChargedFor(cfg, req.amount, row.referral, row)
  {
    FeeEngine.ChargesExactly(FeeConfigOf(cfg), req.amount, req.seller, row.referral, 0, 0);
  }

  lemma FreshRowCharged(cfg: Config, reqs: Requests, s: State, c: CallerId, referral: Option<string>)
    requires Inv(cfg, reqs, s) && c in s.callers && s.callers[c].Done? && Carries(s, s.callers[c], referral)
    requires s.callers[c].result.Settled? && !s.callers[c].result.idempotent
    ensures var i, r := s.callers[c].result.settlement, s.callers[c].r;
            && r in reqs && i < |s.rows| && s.rows[i].request == r && s.rows[i].referral == referral
            && ChargedFor(cfg, reqs[r].amount, referral, s.rows[i])
  {
    assert PcOk(cfg, reqs, s, s.callers[c]);
    assert ReceiptOk(cfg, reqs, s, s.callers[c].r);
    FeesAreCharged(cfg, reqs[s.callers[c].r], s.rows[s.callers[c].result.settlement]);
  }

  /** Over all runs: a fresh settlement's row is about the request and carries the referral code that its call began
      with, and its fee and developer share are the configured rates of that request's amount, rounded down. */
  lemma ReferralCredited(cfg: Config, reqs: Requests, s: State, es: seq<Event>, c: CallerId)
    requires Inv(cfg, reqs, s) && c in s.callers && s.callers[c].Loading?
    requires var t := Run(cfg, reqs, s, es);
             c in t.callers && t.callers[c].Done? && t.callers[c].result.Settled? && !t.callers[c].result.idempotent
    ensures var t := Run(cfg, reqs, s, es); var i := t.callers[c].result.settlement;
            var r, referral := s.callers[c].r, s.callers[c].referral;
            && r in reqs && i < |t.rows| && t.rows[i].request == r && t.rows[i].referral == referral
            && ChargedFor(cfg, reqs[r].amount, referral, t.rows[i])
  {
    CarriesRun(cfg, reqs, s, es, c);
    RunKeeps(cfg, reqs, s, es);
    FreshRowCharged(cfg, reqs, Run(cfg, reqs, s, es), c, s.callers[c].referral);
  }
}
