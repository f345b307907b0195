/** What settlePayment guarantees over all interleavings, faults, crashes and lock expiries. */
module SettleTheorems {
  import opened Prelude
  import opened Hex
  import opened Registry
  import opened SettlePayment
  import Chain

  /** A state some run of the protocol ends in. */
  ghost predicate Reachable(cfg: Config, reqs: Requests, s: State) {
    exists es :: s == Run(cfg, reqs, Init, es)
  }

  lemma ReachableInv(cfg: Config, reqs: Requests, s: State)
    requires Reachable(cfg, reqs, s)
    ensures Inv(cfg, reqs, s)
  {
    var es :| s == Run(cfg, reqs, Init, es);
    RunKeeps(cfg, reqs, Init, es);
  }

  // ---------------------------------------------------------------- agreement

  /** Two successful answers about one request name the same settlement, transaction and receipt, and that
      transaction really moved the request's payment. */
  lemma Agreement(cfg: Config, reqs: Requests, s: State, c: CallerId, d: CallerId)
    requires Reachable(cfg, reqs, s) && c in s.callers && d in s.callers
    requires s.callers[c].Done? && s.callers[d].Done? && s.callers[c].r == s.callers[d].r
    requires s.callers[c].result.Settled? && s.callers[d].result.Settled?
    ensures s.callers[c].result.settlement == s.callers[d].result.settlement
    ensures s.callers[c].result.txHash == s.callers[d].result.txHash
    ensures s.callers[c].result.receiptId == s.callers[d].result.receiptId
    ensures var answer := s.callers[c].result;
            answer.receiptId.Some? && answer.txHash.Some?
            && Submittable(cfg, reqs, s.callers[c].r)
            && Chain.Succeeded(s.chain, answer.txHash.value)
            && s.chain.txs[answer.txHash.value].call == CallFor(cfg, reqs[s.callers[c].r])
  {
    ReachableInv(cfg, reqs, s);
    assert PcOk(cfg, reqs, s, s.callers[c]) && PcOk(cfg, reqs, s, s.callers[d]);
    assert ReceiptOk(cfg, reqs, s, s.callers[c].r);
  }

  // ---------------------------------------------------------------- confirmed means receipt

  /** The undoing of a settlement: its confirmation committed, its caller saw an error, and the failure path ran. */
  predicate Undone(s: State, r: RequestId) {
    r in s.receipts && s.receipts[r].settlement < |s.rows|
    && s.receipts[r].settlement in s.lost && s.rows[s.receipts[r].settlement].status.Failed?
  }

  /** A request has at most one confirmed settlement and every one has its receipt; conversely a receipt has its
      confirmed settlement exactly when that settlement was not undone after a lost acknowledgement. */
  lemma ConfirmedMeansReceipt(cfg: Config, reqs: Requests, s: State, r: RequestId)
    requires Reachable(cfg, reqs, s)
    ensures forall i :: ConfirmedRow(s, r, i) ==> r in s.receipts && s.receipts[r].settlement == i
    ensures r in s.receipts ==> ((exists i :: ConfirmedRow(s, r, i)) <==> !Undone(s, r))
  {
    ReachableInv(cfg, reqs, s);
    forall i | ConfirmedRow(s, r, i) ensures r in s.receipts && s.receipts[r].settlement == i {
      assert RowOk(s, i);
    }
    if r in s.receipts {
      assert ReceiptOk(cfg, reqs, s, r);
      var i := s.receipts[r].settlement;
      assert RowOk(s, i);
      assert !Undone(s, r) ==> ConfirmedRow(s, r, i);
    }
  }

  /** Without lost acknowledgements receipts and confirmed settlements are the same requests, one for one. */
  lemma OneReceiptPerConfirmed(cfg: Config, reqs: Requests, s: State, r: RequestId)
    requires Reachable(cfg, reqs, s) && s.lost == {}
    ensures r in s.receipts <==> exists i :: ConfirmedRow(s, r, i)
  {
    ConfirmedMeansReceipt(cfg, reqs, s, r);
  }

  // ---------------------------------------------------------------- final statuses

  /** Step `e` is the failure path of a caller whose confirmation committed unheard. */
  predicate UndoStep(s: State, e: Event, i: nat) {
    && e.Act? && e.c in s.callers && !e.reply.Dropped?
    && s.callers[e.c].Failing? && s.callers[e.c].row == i
    && i < |s.rows| && s.rows[i].status.Confirmed?
  }

  lemma ActStatus(cfg: Config, reqs: Requests, s: State, e: Event, i: nat)
    requires e.Act? && e.c in s.callers && PcOk(cfg, reqs, s, s.callers[e.c])
    requires i < |s.rows| && !s.rows[i].status.Pending? && RowOk(s, i)
    ensures var t := Next(cfg, reqs, s, e);
            i < |t.rows| && s.lost <= t.lost
            && (if UndoStep(s, e, i) then t.rows[i] == s.rows[i].(status := Failed) && i in s.lost
                  else t.rows[i] == s.rows[i])
  {
    var pc := s.callers[e.c];
    if pc.Confirming? { assert pc.row != i; }
  }

  /** One step changes a settlement that is no longer pending if and only if it is an undo step, and an undo step
      only ever hits a row whose acknowledgement was lost. */
  lemma FinalStatusStep(cfg: Config, reqs: Requests, s: State, e: Event, i: nat)
    requires Inv(cfg, reqs, s) && i < |s.rows| && !s.rows[i].status.Pending?
    ensures var t := Next(cfg, reqs, s, e);
            i < |t.rows| && t.rows[i].request == s.rows[i].request
            && (t.rows[i] != s.rows[i] <==> UndoStep(s, e, i))
            && (UndoStep(s, e, i) ==> i in s.lost && t.rows[i] == s.rows[i].(status := Failed))
            && s.lost <= t.lost
  {
    assert RowOk(s, i);
    if e.Act? && e.c in s.callers {
      ActStatus(cfg, reqs, s, e, i);
    }
  }

  /** A settlement moves from pending to confirmed or from pending to failed, and then never again, unless the
      acknowledgement of its own confirmation is lost. */
  lemma {:induction false} FinalStatus(cfg: Config, reqs: Requests, s: State, es: seq<Event>, i: nat)
    requires Inv(cfg, reqs, s) && i < |s.rows| && !s.rows[i].status.Pending?
    ensures var t := Run(cfg, reqs, s, es);
            i < |t.rows| && s.lost <= t.lost && !t.rows[i].status.Pending?
            && (t.rows[i] != s.rows[i] ==> i in t.lost && s.rows[i].status.Confirmed? && t.rows[i].status.Failed?)
  {
    if es != [] {
      var init := es[..|es| - 1];
      FinalStatus(cfg, reqs, s, init, i);
      RunKeeps(cfg, reqs, s, init);
      FinalStatusStep(cfg, reqs, Run(cfg, reqs, s, init), es[|es| - 1], i);
    }
  }

  // ---------------------------------------------------------------- later calls repeat the receipt

  /** Row `i` is confirmed, and its caller has heard of it. */
  predicate Acknowledged(s: State, r: RequestId, i: nat) {
    ConfirmedRow(s, r, i) && i !in s.lost
  }

  /** All a call about a request can do once its settlement is row `i`: look it up, repeat it, or fail to ask. */
  predicate Repeats(pc: Pc, i: nat) {
    match pc
    case Loading(_, _) => true
    case Checking(_, _) => true
    case Done(_, o) =>
      (o.Settled? && o.settlement == i && o.idempotent)
      || o == Threw(StoreError) || o == Threw(VerificationRequired) || o.Crashed?
    case _ => false
  }

  ghost predicate LaterOnesRepeat(before: set<CallerId>, s: State, r: RequestId, i: nat) {
    forall c :: c in s.callers && c !in before && s.callers[c].r == r ==> Repeats(s.callers[c], i)
  }

  lemma NextLost(cfg: Config, reqs: Requests, s: State, e: Event)
    ensures Next(cfg, reqs, s, e).lost ==
            s.lost + if e.Act? && e.c in s.callers then LostBy(s, s.callers[e.c], e.reply, e.choice) else {}
  {
  }

  /** A commit is lost only for the row its caller still owns. */
  lemma LostIsPending(cfg: Config, reqs: Requests, s: State, pc: Pc, reply: Reply, x: Choice, i: nat)
    requires PcOk(cfg, reqs, s, pc) && i in LostBy(s, pc, reply, x)
    ensures i < |s.rows| && s.rows[i].status.Pending?
  {
  }

  lemma AcknowledgedStep(cfg: Config, reqs: Requests, s: State, e: Event, r: RequestId, i: nat)
    requires Inv(cfg, reqs, s) && Acknowledged(s, r, i)
    ensures Acknowledged(Next(cfg, reqs, s, e), r, i)
  {
    FinalStatusStep(cfg, reqs, s, e, i);
    NextLost(cfg, reqs, s, e);
    if i in Next(cfg, reqs, s, e).lost {
      LostIsPending(cfg, reqs, s, s.callers[e.c], e.reply, e.choice, i);
    }
  }

  lemma OnlyConfirmed(cfg: Config, reqs: Requests, s: State, r: RequestId, i: nat, k: nat)
    requires Inv(cfg, reqs, s) && ConfirmedRow(s, r, i) && ConfirmedRow(s, r, k)
    ensures k == i
  {
    assert RowOk(s, i) && RowOk(s, k);
  }

  lemma MovedRepeats(cfg: Config, reqs: Requests, s: State, pc: Pc, reply: Reply, x: Choice, i: nat)
    requires Inv(cfg, reqs, s) && ConfirmedRow(s, pc.r, i) && Repeats(pc, i)
    ensures Repeats(if reply.Delivered? then Resume(cfg, reqs, s, pc, x) else Catch(cfg, pc), i)
  {
    if ConfirmedRow(s, pc.r, x.pick) { OnlyConfirmed(cfg, reqs, s, pc.r, i, x.pick); }
  }

  /** A step moves at most the caller it names. */
  lemma NextCaller(cfg: Config, reqs: Requests, s: State, e: Event, c: CallerId)
    requires c in Next(cfg, reqs, s, e).callers
    ensures var pc' := Next(cfg, reqs, s, e).callers[c];
            if c !in s.callers then pc'.Loading?
            else if e.Act? && e.c == c then
              pc' == if e.reply.Delivered? then Resume(cfg, reqs, s, s.callers[c], e.choice)
                    else Catch(cfg, s.callers[c])
            else pc' == s.callers[c] || pc' == Done(s.callers[c].r, Crashed)
  {
  }

  lemma ResumeKeepsRequest(cfg: Config, reqs: Requests, s: State, pc: Pc, x: Choice)
    ensures Resume(cfg, reqs, s, pc, x).r == pc.r && Catch(cfg, pc).r == pc.r
  {
  }

  lemma RepeatStep(cfg: Config, reqs: Requests, s: State, e: Event, before: set<CallerId>, r: RequestId, i: nat)
    requires Inv(cfg, reqs, s) && Acknowledged(s, r, i) && LaterOnesRepeat(before, s, r, i)
    ensures LaterOnesRepeat(before, Next(cfg, reqs, s, e), r, i)
  {
    var t := Next(cfg, reqs, s, e);
    forall c | c in t.callers && c !in before && t.callers[c].r == r ensures Repeats(t.callers[c], i) {
      NextCaller(cfg, reqs, s, e, c);
      if c in s.callers && e.Act? && e.c == c {
        ResumeKeepsRequest(cfg, reqs, s, s.callers[c], e.choice);
        MovedRepeats(cfg, reqs, s, s.callers[c], e.reply, e.choice, i);
      }
    }
  }

  /** Idempotence over every interleaving: once a request has a confirmed settlement whose caller heard of it, that row
      stays confirmed, and every call about the request that begins later, whatever runs beside it, repeats this very
      settlement or ends in an exception or a crash; none takes the lock, writes a row or submits again. */
  lemma {:induction false} LaterCallsRepeatTheSettlement(cfg: Config, reqs: Requests, s: State, es: seq<Event>,
        r: RequestId, i: nat)
    requires Inv(cfg, reqs, s) && Acknowledged(s, r, i)
    ensures var t := Run(cfg, reqs, s, es);
            Inv(cfg, reqs, t) && Acknowledged(t, r, i) && LaterOnesRepeat(s.callers.Keys, t, r, i)
  {
    if es != [] {
      var init, e := es[..|es| - 1], es[|es| - 1];
      LaterCallsRepeatTheSettlement(cfg, reqs, s, init, r, i);
      var u := Run(cfg, reqs, s, init);
      NextKeeps(cfg, reqs, u, e);
      AcknowledgedStep(cfg, reqs, u, e, r, i);
      RepeatStep(cfg, reqs, u, e, s.callers.Keys, r, i);
    }
  }

  // ---------------------------------------------------------------- one authorization, one transfer

  /** However often the failover loop, other callers or strangers broadcast a request's authorization, money moves
      at most once for it. */
  lemma PaidOnce(cfg: Config, reqs: Requests, s: State, r: RequestId, g: Chain.TxHash, h: Chain.TxHash)
    requires Reachable(cfg, reqs, s) && Submittable(cfg, reqs, r)
    requires Chain.Succeeded(s.chain, g) && s.chain.txs[g].call == CallFor(cfg, reqs[r])
    requires Chain.Succeeded(s.chain, h) && s.chain.txs[h].call == CallFor(cfg, reqs[r])
    ensures g == h
  {
    ReachableInv(cfg, reqs, s);
    Chain.AuthorizationSpentOnce(s.chain, g, h);
  }
}
