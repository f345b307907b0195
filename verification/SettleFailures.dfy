/** What the answer settlement_failed says about the money. The source's text is "No funds were moved"
    (src/settlement/settle-payment.ts:220): exactly when is that so, and by which ways does it fail. */
module SettleFailures {
  import opened Prelude
  import opened Registry
  import opened SettlePayment
  import opened SettleTheorems
  import opened SettleWitnesses
  import Chain

  /** Transaction `h` was broadcast by call `c`. */
  predicate IsSentBy(s: State, h: Chain.TxHash, c: CallerId) {
    h in s.sent && s.sent[h] == c
  }

  /** A transaction of call `c` has moved its money. */
  ghost predicate PaidBy(s: State, c: CallerId) {
    exists h: Chain.TxHash :: IsSentBy(s, h, c) && Chain.Succeeded(s.chain, h)
  }

  /** Every broadcast of the call that took effect was answered with a reverted receipt. */
  ghost predicate AllHeardReverted(s: State, c: CallerId) {
    forall h: Chain.TxHash :: IsSentBy(s, h, c) ==> h in s.heard
  }

  // ---------------------------------------------------------------- what the history records

  /** A recorded broadcast is on the chain with the arguments of its call's request. */
  ghost predicate SentOk(cfg: Config, reqs: Requests, s: State, h: Chain.TxHash) {
    h in s.sent ==>
      && h < |s.chain.txs| && s.sent[h] in s.callers
      && Submittable(cfg, reqs, s.callers[s.sent[h]].r)
      && s.chain.txs[h].call == CallFor(cfg, reqs[s.callers[s.sent[h]].r])
  }

  /** A call that waits for a transaction, or confirms with it, broadcast it. */
  predicate OwnsTx(s: State, c: CallerId, pc: Pc) {
    match pc
    case Waiting(_, _, _, tx) => IsSentBy(s, tx, c)
    case Confirming(_, _, tx) => IsSentBy(s, tx, c)
    case _ => true
  }

  ghost predicate HistoryOk(cfg: Config, reqs: Requests, s: State) {
    && (forall h: Chain.TxHash :: SentOk(cfg, reqs, s, h))
    && (forall h :: h in s.heard ==> h < |s.chain.txs| && s.chain.txs[h].status.Reverted?)
    && (forall c :: c in s.callers ==> OwnsTx(s, c, s.callers[c]))
    && (forall r :: r in s.receipts ==> s.receipts[r].txHash in s.sent)
  }

  // ---------------------------------------------------------------- what a step does

  lemma NextChain(cfg: Config, reqs: Requests, s: State, e: Event)
    requires CallersOk(cfg, reqs, s)
    ensures var t := Next(cfg, reqs, s, e);
            || t.chain == s.chain
            || (exists call :: t.chain == Chain.Broadcast(s.chain, call))
            || (exists h, accepted :: t.chain == Chain.Mine(s.chain, h, accepted))
            || (exists now :: t.chain == Chain.Tick(s.chain, now))
  {
    match e
    case Act(c, reply, x) =>
      if c in s.callers && s.callers[c].Submitting? {
        assert PcOk(cfg, reqs, s, s.callers[c]);
        SubmitActStep(cfg, reqs, s, c, reply, x);
      }
    case StrangerCalls(call) => assert Next(cfg, reqs, s, e).chain == Chain.Broadcast(s.chain, call);
    case Mined(h, accepted) => assert Next(cfg, reqs, s, e).chain == Chain.Mine(s.chain, h, accepted);
    case Tick(now) => assert Next(cfg, reqs, s, e).chain == Chain.Tick(s.chain, now);
    case _ =>
  }

  lemma NextExtends(cfg: Config, reqs: Requests, s: State, e: Event)
    requires CallersOk(cfg, reqs, s)
    ensures Chain.Extends(s.chain, Next(cfg, reqs, s, e).chain)
  {
    NextChain(cfg, reqs, s, e);
  }

  /** A step records at most one broadcast, of the call that makes it, under a hash that is new. */
  lemma NextSent(cfg: Config, reqs: Requests, s: State, e: Event)
    requires CallersOk(cfg, reqs, s)
    ensures var t := Next(cfg, reqs, s, e);
            || t.sent == s.sent
            || (e.Act? && e.c in s.callers && s.callers[e.c].Submitting? && Submittable(cfg, reqs, s.callers[e.c].r)
                && t.sent == s.sent[|s.chain.txs| := e.c]
                && t.chain == Chain.Broadcast(s.chain, CallFor(cfg, reqs[s.callers[e.c].r])))
  {
    if e.Act? && e.c in s.callers && s.callers[e.c].Submitting? {
      assert PcOk(cfg, reqs, s, s.callers[e.c]);
      SubmitActStep(cfg, reqs, s, e.c, e.reply, e.choice);
    }
  }

  lemma NextHeard(cfg: Config, reqs: Requests, s: State, e: Event)
    ensures var t := Next(cfg, reqs, s, e);
            t.heard == s.heard + if e.Act? && e.c in s.callers then HeardBy(s, s.callers[e.c], e.reply) else {}
  {
  }

  lemma NextRequest(cfg: Config, reqs: Requests, s: State, e: Event, c: CallerId)
    requires c in s.callers
    ensures var t := Next(cfg, reqs, s, e);
            c in t.callers && t.callers[c].r == s.callers[c].r && (s.callers[c].Done? ==> t.callers[c] == s.callers[c])
  {
    if e.Act? && e.c == c { ResumeKeepsRequest(cfg, reqs, s, s.callers[c], e.choice); }
  }

  lemma SentStep(cfg: Config, reqs: Requests, s: State, e: Event, h: Chain.TxHash)
    requires CallersOk(cfg, reqs, s) && (forall k: Chain.TxHash :: SentOk(cfg, reqs, s, k))
    ensures SentOk(cfg, reqs, Next(cfg, reqs, s, e), h)
  {
    NextSent(cfg, reqs, s, e);
    NextExtends(cfg, reqs, s, e);
    if h in s.sent {
      assert SentOk(cfg, reqs, s, h);
      NextRequest(cfg, reqs, s, e, s.sent[h]);
    } else if h in Next(cfg, reqs, s, e).sent {
      NextRequest(cfg, reqs, s, e, e.c);
    }
  }

  lemma SentStays(cfg: Config, reqs: Requests, s: State, e: Event, h: Chain.TxHash)
    requires CallersOk(cfg, reqs, s) && SentOk(cfg, reqs, s, h) && h in s.sent
    ensures h in Next(cfg, reqs, s, e).sent && Next(cfg, reqs, s, e).sent[h] == s.sent[h]
  {
    NextSent(cfg, reqs, s, e);
  }

  /** Going on to wait or to confirm, a call takes along a transaction of its own. */
  lemma MovedTx(cfg: Config, reqs: Requests, s: State, c: CallerId, reply: Reply, x: Choice)
    requires c in s.callers && OwnsTx(s, c, s.callers[c]) && PcOk(cfg, reqs, s, s.callers[c])
    ensures OwnsTx(ActStep(cfg, reqs, s, c, reply, x), c, ActStep(cfg, reqs, s, c, reply, x).callers[c])
  {
  }

  lemma OwnsStep(cfg: Config, reqs: Requests, s: State, e: Event, c: CallerId)
    requires CallersOk(cfg, reqs, s) && HistoryOk(cfg, reqs, s) && c in Next(cfg, reqs, s, e).callers
    ensures OwnsTx(Next(cfg, reqs, s, e), c, Next(cfg, reqs, s, e).callers[c])
  {
    NextCaller(cfg, reqs, s, e, c);
    if c in s.callers {
      assert OwnsTx(s, c, s.callers[c]) && PcOk(cfg, reqs, s, s.callers[c]);
      if e.Act? && e.c == c {
        MovedTx(cfg, reqs, s, c, e.reply, e.choice);
      } else if s.callers[c].Waiting? || s.callers[c].Confirming? {
        assert SentOk(cfg, reqs, s, s.callers[c].tx);
        SentStays(cfg, reqs, s, e, s.callers[c].tx);
      }
    }
  }

  /** A receipt written by a step names the transaction its call confirmed with. */
  lemma NextReceipts(cfg: Config, reqs: Requests, s: State, e: Event, r: RequestId)
    requires r in Next(cfg, reqs, s, e).receipts
    ensures var rec := Next(cfg, reqs, s, e).receipts[r];
            || (r in s.receipts && rec == s.receipts[r])
            || (e.Act? && e.c in s.callers && s.callers[e.c].Confirming? && rec.txHash == s.callers[e.c].tx)
  {
  }

  lemma ReceiptSentStep(cfg: Config, reqs: Requests, s: State, e: Event, r: RequestId)
    requires CallersOk(cfg, reqs, s) && HistoryOk(cfg, reqs, s) && r in Next(cfg, reqs, s, e).receipts
    ensures Next(cfg, reqs, s, e).receipts[r].txHash in Next(cfg, reqs, s, e).sent
  {
    NextReceipts(cfg, reqs, s, e, r);
    var tx := Next(cfg, reqs, s, e).receipts[r].txHash;
    if e.Act? && e.c in s.callers { assert OwnsTx(s, e.c, s.callers[e.c]); }
    assert SentOk(cfg, reqs, s, tx);
    SentStays(cfg, reqs, s, e, tx);
  }

  lemma HistoryStep(cfg: Config, reqs: Requests, s: State, e: Event)
    requires Inv(cfg, reqs, s) && HistoryOk(cfg, reqs, s)
    ensures HistoryOk(cfg, reqs, Next(cfg, reqs, s, e))
  {
    var t := Next(cfg, reqs, s, e);
    NextExtends(cfg, reqs, s, e);
    NextHeard(cfg, reqs, s, e);
    forall h: Chain.TxHash ensures SentOk(cfg, reqs, t, h) { SentStep(cfg, reqs, s, e, h); }
    forall c | c in t.callers ensures OwnsTx(t, c, t.callers[c]) { OwnsStep(cfg, reqs, s, e, c); }
    forall r | r in t.receipts ensures t.receipts[r].txHash in t.sent { ReceiptSentStep(cfg, reqs, s, e, r); }
  }

  lemma {:induction false} RunHistory(cfg: Config, reqs: Requests, s: State, es: seq<Event>)
    requires Inv(cfg, reqs, s) && HistoryOk(cfg, reqs, s)
    ensures Inv(cfg, reqs, Run(cfg, reqs, s, es)) && HistoryOk(cfg, reqs, Run(cfg, reqs, s, es))
  {
    RunKeeps(cfg, reqs, s, es);
    if es != [] {
      RunHistory(cfg, reqs, s, es[..|es| - 1]);
      HistoryStep(cfg, reqs, Run(cfg, reqs, s, es[..|es| - 1]), es[|es| - 1]);
    }
  }

  lemma ReachableHistory(cfg: Config, reqs: Requests, s: State)
    requires Reachable(cfg, reqs, s)
    ensures Inv(cfg, reqs, s) && HistoryOk(cfg, reqs, s)
  {
    var es :| s == Run(cfg, reqs, Init, es);
    RunHistory(cfg, reqs, Init, es);
  }

  // ---------------------------------------------------------------- exactly when a finished call's money can move

  /** The transaction succeeded, or it waits in the mempool with its key unspent and some of its window left. */
  predicate CanSucceed(chain: Chain.State, h: Chain.TxHash) {
    h < |chain.txs| &&
    var call := chain.txs[h].call;
    || chain.txs[h].status.Success?
    || (chain.txs[h].status.Mempool? && Chain.KeyOf(call) !in chain.used
        && chain.now < call.auth.validBefore && call.auth.validAfter + 1 < call.auth.validBefore)
  }

  /** What cannot succeed never will: blocks, broadcasts and time only close doors. */
  lemma StepCloses(cfg: Config, reqs: Requests, s: State, e: Event, h: Chain.TxHash)
    requires CallersOk(cfg, reqs, s) && h < |s.chain.txs| && CanSucceed(Next(cfg, reqs, s, e).chain, h)
    ensures CanSucceed(s.chain, h)
  {
    NextChain(cfg, reqs, s, e);
  }

  /** A finished call broadcasts nothing more. */
  lemma DoneSendsNoMore(cfg: Config, reqs: Requests, s: State, e: Event, c: CallerId, h: Chain.TxHash)
    requires CallersOk(cfg, reqs, s) && c in s.callers && s.callers[c].Done? && IsSentBy(Next(cfg, reqs, s, e), h, c)
    ensures IsSentBy(s, h, c)
  {
    NextSent(cfg, reqs, s, e);
  }

  lemma {:induction false} RunCloses(cfg: Config, reqs: Requests, s: State, es: seq<Event>, c: CallerId,
        h: Chain.TxHash)
    requires Inv(cfg, reqs, s) && HistoryOk(cfg, reqs, s) && c in s.callers && s.callers[c].Done?
    ensures var t := Run(cfg, reqs, s, es);
            && c in t.callers && t.callers[c] == s.callers[c]
            && (IsSentBy(t, h, c) ==> IsSentBy(s, h, c) && (CanSucceed(t.chain, h) ==> CanSucceed(s.chain, h)))
  {
    if es != [] {
      var init, e := es[..|es| - 1], es[|es| - 1];
      var u := Run(cfg, reqs, s, init);
      RunCloses(cfg, reqs, s, init, c, h);
      RunHistory(cfg, reqs, s, init);
      NextRequest(cfg, reqs, u, e, c);
      if IsSentBy(Next(cfg, reqs, u, e), h, c) {
        DoneSendsNoMore(cfg, reqs, u, e, c, h);
        assert SentOk(cfg, reqs, u, h);
        if CanSucceed(Next(cfg, reqs, u, e).chain, h) { StepCloses(cfg, reqs, u, e, h); }
      }
    }
  }

  /** One more tick and one more block are enough for a transaction that can succeed. */
  lemma OpensInTwoSteps(cfg: Config, reqs: Requests, s: State, c: CallerId, h: Chain.TxHash)
    requires IsSentBy(s, h, c) && CanSucceed(s.chain, h) && s.chain.txs[h].status.Mempool?
    ensures exists es :: PaidBy(Run(cfg, reqs, s, es), c)
  {
    var tick, mined := Tick(s.chain.txs[h].call.auth.validAfter + 1), Mined(h, true);
    var one: seq<Event> := [] + [tick];
    RunSnoc(cfg, reqs, s, [], tick);
    RunSnoc(cfg, reqs, s, one, mined);
    var t := Run(cfg, reqs, s, one + [mined]);
    assert IsSentBy(t, h, c) && Chain.Succeeded(t.chain, h);
  }

  /** Money of a finished call moves, now or in some continuation, if and only if one of its broadcasts succeeded or can
      still succeed. In particular this decides when settlement_failed is truthfully "no funds were moved". */
  lemma FundsMoveExactly(cfg: Config, reqs: Requests, s: State, c: CallerId)
    requires Reachable(cfg, reqs, s) && c in s.callers && s.callers[c].Done?
    ensures (exists es :: PaidBy(Run(cfg, reqs, s, es), c)) <==>
              exists h: Chain.TxHash :: IsSentBy(s, h, c) && CanSucceed(s.chain, h)
  {
    ReachableHistory(cfg, reqs, s);
    if es: seq<Event> :| PaidBy(Run(cfg, reqs, s, es), c) {
      var t := Run(cfg, reqs, s, es);
      var h: Chain.TxHash :| IsSentBy(t, h, c) && Chain.Succeeded(t.chain, h);
      RunCloses(cfg, reqs, s, es, c, h);
      assert IsSentBy(s, h, c) && CanSucceed(s.chain, h);
    }
    if h: Chain.TxHash :| IsSentBy(s, h, c) && CanSucceed(s.chain, h) {
      if s.chain.txs[h].status.Mempool? {
        OpensInTwoSteps(cfg, reqs, s, c, h);
      } else {
        assert Run(cfg, reqs, s, []) == s && PaidBy(s, c);
      }
    }
  }

  /** A call that answered settlement_failed, and whose every broadcast either took no effect or was heard to revert,
      has moved nothing and never will. */
  lemma FailedCallMovedNothing(cfg: Config, reqs: Requests, s: State, c: CallerId, es: seq<Event>)
    requires Reachable(cfg, reqs, s) && c in s.callers && s.callers[c].Done?
    requires s.callers[c].result == Threw(SettlementFailed) && AllHeardReverted(s, c)
    ensures !PaidBy(Run(cfg, reqs, s, es), c)
  {
    ReachableHistory(cfg, reqs, s);
    FundsMoveExactly(cfg, reqs, s, c);
  }

  /** Its request's authorization is then spent if and only if somebody else's transaction spent it. */
  lemma SpentByOthersOnly(cfg: Config, reqs: Requests, s: State, c: CallerId)
    requires Reachable(cfg, reqs, s) && c in s.callers && Submittable(cfg, reqs, s.callers[c].r)
               && AllHeardReverted(s, c)
    ensures var key := Chain.KeyOf(CallFor(cfg, reqs[s.callers[c].r]));
            key in s.chain.used <==>
            exists h: Chain.TxHash :: Chain.Succeeded(s.chain, h) && Chain.KeyOf(s.chain.txs[h].call) == key
                  && !IsSentBy(s, h, c)
  {
    ReachableHistory(cfg, reqs, s);
    var key := Chain.KeyOf(CallFor(cfg, reqs[s.callers[c].r]));
    if key in s.chain.used { assert Chain.Succeeded(s.chain, s.chain.used[key]); }
  }

  // ---------------------------------------------------------------- every other way to fail may have paid

  /** How a call's broadcast may end other than by a reverted receipt. */
  datatype Way = BroadcastUnheard | WaitThrew | ConfirmDropped

  /** The one await that fails, and how. */
  predicate FailsAs(way: Way, pc: Pc, e: Event) {
    match way
    case BroadcastUnheard => pc.Submitting? && e == Unheard(1)
    case WaitThrew => pc.Waiting? && e == Refused(1)
    case ConfirmDropped => pc.Confirming? && e == Refused(1)
  }

  /** In the run `es` of call 1 nothing fails but its await number `i`, in the given way, and after a broadcast the
      submissions to the remaining endpoints, which refuse. */
  ghost predicate OnlyFailure(cfg: Config, reqs: Requests, es: seq<Event>, i: nat, way: Way) {
    && i < |es| && (var u := Run(cfg, reqs, Init, es[..i]); 1 in u.callers && FailsAs(way, u.callers[1], es[i]))
    && Smooth(es[..i])
    && var rest := i + 1 + (if way.ConfirmDropped? then 0 else cfg.rpcUrls - 1);
       && (forall k :: i < k < rest && k < |es| ==> es[k] == Refused(1))
       && (forall k :: rest <= k < |es| ==> Fine(es[k]))
  }

  /** A lone call with its row and one broadcast. */
  function Lone(r: RequestId, chain: Chain.State, pc: Pc, sent: map<Chain.TxHash, CallerId>): State {
    State({r}, [PendingRow(r)], map[], chain, map[1 := pc], {}, sent, {})
  }

  function Broadcasted(cfg: Config, reqs: Requests, r: RequestId): Chain.State
    requires Submittable(cfg, reqs, r)
  {
    Chain.Broadcast(Chain.Genesis, CallFor(cfg, reqs[r]))
  }

  lemma LoneSubmits(cfg: Config, reqs: Requests, r: RequestId) returns (es: seq<Event>, s: State)
    requires Submittable(cfg, reqs, r) && cfg.rpcUrls >= 1
    ensures s == Run(cfg, reqs, Init, es) && Smooth(es) && s == Lone(r, Chain.Genesis, Submitting(r, 0, 0), map[])
  {
    es, s := Submits(cfg, reqs, [], Init, 1, r);
    assert Init.locks + {r} == {r};
  }

  lemma LoneWaits(cfg: Config, reqs: Requests, r: RequestId) returns (es: seq<Event>, s: State)
    requires Submittable(cfg, reqs, r) && cfg.rpcUrls >= 1
    ensures s == Run(cfg, reqs, Init, es) && Smooth(es)
    ensures s == Lone(r, Broadcasted(cfg, reqs, r), Waiting(r, 0, 0, 0), map[0 := 1])
  {
    es, s := Waits(cfg, reqs, [], Init, 1, r);
    assert Init.locks + {r} == {r};
  }

  lemma LonePays(cfg: Config, reqs: Requests, r: RequestId) returns (es: seq<Event>, s: State)
    requires Submittable(cfg, reqs, r) && cfg.rpcUrls >= 1 && reqs[r].expiresAtMs >= 2_000
    ensures s == Run(cfg, reqs, Init, es) && Smooth(es) && Paid(cfg, reqs, s.chain, r, 0)
    ensures s == Lone(r, s.chain, Confirming(r, 0, 0), map[0 := 1])
    ensures s.chain.used == map[Chain.KeyOf(CallFor(cfg, reqs[r])) := 0] && s.chain.now == 1 && |s.chain.txs| == 1
  {
    InitOpen(cfg, reqs, r);
    es, s := Pays(cfg, reqs, [], Init, 1, r);
    assert Init.locks + {r} == {r};
  }

  /** The failing await itself: it brings the call past its first endpoint, or into its catch block. */
  lemma FirstFailure(cfg: Config, reqs: Requests, r: RequestId, way: Way)
    returns (es: seq<Event>, i: nat, t: State)
    requires Submittable(cfg, reqs, r) && cfg.rpcUrls >= 1 && reqs[r].expiresAtMs >= 2_000
    ensures t == Run(cfg, reqs, Init, es) && i + 1 == |es| && Smooth(es[..i])
    ensures var u := Run(cfg, reqs, Init, es[..i]); 1 in u.callers && FailsAs(way, u.callers[1], es[i])
    ensures t == Lone(r, t.chain, if way.ConfirmDropped? then Failing(r, 0) else Attempt(cfg, r, 0, 1), map[0 := 1])
    ensures if way.ConfirmDropped? then Paid(cfg, reqs, t.chain, r, 0) else t.chain == Broadcasted(cfg, reqs, r)
  {
    var before, u;
    match way {
      case BroadcastUnheard =>
        before, u := LoneSubmits(cfg, reqs, r);
        LosesHash(cfg, reqs, u, 1, r, 0, 0);
        es, t := Go(cfg, reqs, before, u, Unheard(1));
      case WaitThrew =>
        before, u := LoneWaits(cfg, reqs, r);
        StopsWaiting(cfg, reqs, u, 1);
        es, t := Go(cfg, reqs, before, u, Refused(1));
      case ConfirmDropped =>
        before, u := LonePays(cfg, reqs, r);
        ConfirmFails(cfg, reqs, u, 1, Dropped);
        es, t := Go(cfg, reqs, before, u, Refused(1));
    }
    i := |before|;
    assert es[..i] == before;
  }

  lemma OnlyFailureSoFar(cfg: Config, reqs: Requests, cut: seq<Event>, es: seq<Event>, i: nat, way: Way)
    requires i + 1 == |cut| && Smooth(cut[..i])
    requires var u := Run(cfg, reqs, Init, cut[..i]); 1 in u.callers && FailsAs(way, u.callers[1], cut[i])
    requires cut <= es && |es| == i + 1 + (if way.ConfirmDropped? then 0 else cfg.rpcUrls - 1)
    requires forall k :: |cut| <= k < |es| ==> es[k] == Refused(1)
    ensures OnlyFailure(cfg, reqs, es, i, way)
  {
    assert es[..i] == cut[..i] && es[i] == cut[i];
  }

  /** The call in its catch block, all remaining endpoints having refused. */
  lemma Strays(cfg: Config, reqs: Requests, r: RequestId, way: Way) returns (es: seq<Event>, i: nat, s: State)
    requires Submittable(cfg, reqs, r) && cfg.rpcUrls >= 1 && reqs[r].expiresAtMs >= 2_000
    ensures s == Run(cfg, reqs, Init, es) && OnlyFailure(cfg, reqs, es, i, way)
    ensures |es| == i + 1 + (if way.ConfirmDropped? then 0 else cfg.rpcUrls - 1)
    ensures s == Lone(r, s.chain, Failing(r, 0), map[0 := 1])
    ensures if way.ConfirmDropped? then Paid(cfg, reqs, s.chain, r, 0) else s.chain == Broadcasted(cfg, reqs, r)
  {
    var cut;
    cut, i, s := FirstFailure(cfg, reqs, r, way);
    es := cut;
    if !way.ConfirmDropped? {
      es, s := RefusesRest(cfg, reqs, cut, s, 1, r, 0, 1);
      assert map[1 := Attempt(cfg, r, 0, 1)][1 := Failing(r, 0)] == map[1 := Failing(r, 0)];
    }
    OnlyFailureSoFar(cfg, reqs, cut, es, i, way);
  }

  lemma OnlyFailureGoesOn(cfg: Config, reqs: Requests, es: seq<Event>, fs: seq<Event>, i: nat, way: Way)
    requires OnlyFailure(cfg, reqs, es, i, way) && GoesOn(es, fs)
    requires |es| >= i + 1 + (if way.ConfirmDropped? then 0 else cfg.rpcUrls - 1)
    ensures OnlyFailure(cfg, reqs, fs, i, way)
  {
    assert fs[..i] == es[..i] && fs[i] == es[i];
  }

  /** The call answered settlement_failed, its row is failed, and its own transaction has paid. */
  ghost predicate FailedButPaid(cfg: Config, reqs: Requests, s: State, r: RequestId)
    requires Submittable(cfg, reqs, r)
  {
    && s.callers == map[1 := Done(r, Threw(SettlementFailed))]
    && |s.rows| == 1 && s.rows[0].status.Failed? && s.receipts == map[]
    && Paid(cfg, reqs, s.chain, r, 0) && IsSentBy(s, 0, 1) && PaidBy(s, 1)
  }

  /** "No funds were moved" is not a consequence of the failure path. For every submittable request whose deadline lies
      at least two seconds past time 0 (otherwise see NeverPaidWithoutWindow), any number of endpoints, and each of the
      three ways there is a run of one call in which only that await fails, in that way, and the call answers
      settlement_failed although its own transaction moves the request's money. */
  lemma FailureMayFollowPayment(cfg: Config, reqs: Requests, r: RequestId, way: Way) returns (es: seq<Event>, i: nat)
    requires Submittable(cfg, reqs, r) && cfg.rpcUrls >= 1 && reqs[r].expiresAtMs >= 2_000
    ensures OnlyFailure(cfg, reqs, es, i, way)
    ensures FailedButPaid(cfg, reqs, Run(cfg, reqs, Init, es), r)
  {
    var cut, s, fs;
    cut, i, s := Strays(cfg, reqs, r, way);
    fs, s := FailsOut(cfg, reqs, cut, s, 1, r, 0);
    OnlyFailureGoesOn(cfg, reqs, cut, fs, i, way);
    es := fs;
    if !way.ConfirmDropped? {
      InitOpen(cfg, reqs, r);
      OpenPays(cfg, reqs, s.chain, r, 0);
      es, s := BlockArrives(cfg, reqs, fs, s, 0);
      OnlyFailureGoesOn(cfg, reqs, fs, es, i, way);
    }
    assert IsSentBy(s, 0, 1) && Chain.Succeeded(s.chain, 0);
  }

  /** The fourth way: nothing fails at all. For any two requests with different authorizations there is a smooth run in
      which call 2 has heard that its transfer succeeded, its confirming transaction, step `i`, is answered and refused
      because its generated receipt id is taken by the other request's receipt, and it answers settlement_failed. */
  lemma RefusedConfirmFollowsPayment(cfg: Config, reqs: Requests, q: RequestId, r: RequestId)
    returns (es: seq<Event>, i: nat)
    requires Submittable(cfg, reqs, q) && Submittable(cfg, reqs, r) && cfg.rpcUrls >= 1
    requires reqs[q].expiresAtMs >= 2_000 && reqs[r].expiresAtMs >= 2_000
    requires Chain.KeyOf(CallFor(cfg, reqs[q])) != Chain.KeyOf(CallFor(cfg, reqs[r]))
    ensures Smooth(es) && i < |es| && es[i] == Answered(2)
    ensures var u := Run(cfg, reqs, Init, es[..i]);
            && 2 in u.callers && u.callers[2] == Confirming(r, 1, 1) && Paid(cfg, reqs, u.chain, r, 1)
            && q in u.receipts && u.receipts[q].id == Any.freshId && !CanConfirm(u, r, 1, 1, Any.freshId)
    ensures var s := Run(cfg, reqs, Init, es);
            && 2 in s.callers && s.callers[2] == Done(r, Threw(SettlementFailed))
            && Paid(cfg, reqs, s.chain, r, 1) && IsSentBy(s, 1, 2) && PaidBy(s, 2)
  {
    var before, u, s;
    before, u := FirstConfirms(cfg, reqs, q);
    SecondIsOpen(cfg, reqs, u, q, r);
    before, u := Pays(cfg, reqs, before, u, 2, r);
    assert q in u.receipts && u.receipts[q].id == 0;
    i := |before|;
    ConfirmFails(cfg, reqs, u, 2, Delivered);
    es, s := Go(cfg, reqs, before, u, Answered(2));
    es, s := FailsOut(cfg, reqs, es, s, 2, r, 1);
    assert es[..i] == before;
    assert IsSentBy(s, 1, 2) && Chain.Succeeded(s.chain, 1);
  }

  lemma FirstConfirms(cfg: Config, reqs: Requests, q: RequestId) returns (es: seq<Event>, s: State)
    requires Submittable(cfg, reqs, q) && cfg.rpcUrls >= 1 && reqs[q].expiresAtMs >= 2_000
    ensures s == Run(cfg, reqs, Init, es) && Smooth(es)
    ensures s.callers.Keys == {1} && s.locks == {q} && |s.rows| == 1 && s.rows[0].request == q
    ensures s.receipts == map[q := Receipt(0, 0, 0)] && |s.chain.txs| == 1 && s.chain.now == 1
    ensures s.chain.used == map[Chain.KeyOf(CallFor(cfg, reqs[q])) := 0]
  {
    var u;
    es, u := LonePays(cfg, reqs, q);
    ConfirmsFirst(cfg, reqs, u, q);
    es, s := Go(cfg, reqs, es, u, Answered(1));
  }

  lemma ConfirmsFirst(cfg: Config, reqs: Requests, u: State, q: RequestId)
    requires q in reqs && u.callers == map[1 := Confirming(q, 0, 0)] && u.rows == [PendingRow(q)]
    requires u.receipts == map[]
    ensures var t := Next(cfg, reqs, u, Answered(1));
            && t.callers.Keys == {1} && t.locks == u.locks && t.chain == u.chain
            && |t.rows| == 1 && t.rows[0].request == q && t.receipts == map[q := Receipt(0, 0, 0)]
  {
  }

  lemma SecondIsOpen(cfg: Config, reqs: Requests, s: State, q: RequestId, r: RequestId)
    requires Submittable(cfg, reqs, q) && Submittable(cfg, reqs, r) && reqs[r].expiresAtMs >= 2_000
    requires Chain.KeyOf(CallFor(cfg, reqs[q])) != Chain.KeyOf(CallFor(cfg, reqs[r]))
    requires |s.rows| == 1 && s.rows[0].request == q && s.chain.now == 1
    requires s.chain.used == map[Chain.KeyOf(CallFor(cfg, reqs[q])) := 0]
    ensures q != r && NoneConfirmed(s.rows, r) && Open(cfg, reqs, s.chain, r)
  {
  }

  // ---------------------------------------------------------------- the deadline

  ghost predicate WindowsHeld(chain: Chain.State) {
    forall h :: Chain.Succeeded(chain, h) ==> chain.txs[h].call.auth.validAfter + 1 < chain.txs[h].call.auth.validBefore
  }

  lemma {:induction false} RunWindows(cfg: Config, reqs: Requests, es: seq<Event>)
    ensures WindowsHeld(Run(cfg, reqs, Init, es).chain)
  {
    if es != [] {
      var init := es[..|es| - 1];
      RunWindows(cfg, reqs, init);
      RunKeeps(cfg, reqs, Init, init);
      NextChain(cfg, reqs, Run(cfg, reqs, Init, init), es[|es| - 1]);
    }
  }

  /** A request whose deadline lies less than two seconds past time 0 is never paid, in any run. */
  lemma NeverPaidWithoutWindow(cfg: Config, reqs: Requests, s: State, r: RequestId, h: Chain.TxHash)
    requires Reachable(cfg, reqs, s) && Submittable(cfg, reqs, r) && reqs[r].expiresAtMs < 2_000
    ensures !Paid(cfg, reqs, s.chain, r, h)
  {
    var es :| s == Run(cfg, reqs, Init, es);
    RunWindows(cfg, reqs, es);
  }

  // ---------------------------------------------------------------- a lost acknowledgement undoes a confirmation

  /** The exception in ConfirmedMeansReceipt and FinalStatus is real, for every such request and any number of
      endpoints: nothing fails but the acknowledgement of the confirming transaction, step `i`, and the failure path
      marks the paid, receipted row failed. */
  lemma LostAckUndoesConfirmation(cfg: Config, reqs: Requests, r: RequestId) returns (es: seq<Event>, i: nat)
    requires Submittable(cfg, reqs, r) && cfg.rpcUrls >= 1 && reqs[r].expiresAtMs >= 2_000
    ensures i < |es| && es == es[..i] + [Unheard(1)] + [Answered(1)] && Smooth(es[..i])
    ensures var u := Run(cfg, reqs, Init, es[..i]);
            1 in u.callers && u.callers[1] == Confirming(r, 0, 0) && Paid(cfg, reqs, u.chain, r, 0)
    ensures var s := Run(cfg, reqs, Init, es);
            r in s.receipts && Undone(s, r) && !exists k :: ConfirmedRow(s, r, k)
  {
    var before, u := LonePays(cfg, reqs, r);
    var t, s;
    i := |before|;
    UnheardConfirm(cfg, reqs, u, r);
    es, t := Go(cfg, reqs, before, u, Unheard(1));
    es, s := Go(cfg, reqs, es, t, Answered(1));
    assert es[..i] == before;
  }

  lemma UnheardConfirm(cfg: Config, reqs: Requests, u: State, r: RequestId)
    requires r in reqs && u.callers == map[1 := Confirming(r, 0, 0)] && u.rows == [PendingRow(r)]
    requires u.receipts == map[]
    ensures var s := Next(cfg, reqs, Next(cfg, reqs, u, Unheard(1)), Answered(1));
            r in s.receipts && Undone(s, r) && !exists i :: ConfirmedRow(s, r, i)
  {
    var t := Next(cfg, reqs, u, Unheard(1));
    assert t.callers == map[1 := Failing(r, 0)] && |t.rows| == 1 && 0 in t.lost;
  }
}
