/** settlePayment (src/settlement/settle-payment.ts) with submitOnChain's failover loop (src/settlement/on-chain.ts)
    as a state machine: any number of callers, each at its next await, over Redis, PostgreSQL and the chain.

    Every await is one step. Its command may be delivered, dropped, or take effect while its reply is lost; callers
    may crash, lock keys may expire and strangers may use the token contract at any time. A step that is not
    enabled leaves the state alone, so a run is any sequence of events. */
module SettlePayment {
  import opened Prelude
  import opened Hex
  import opened Registry
  import Chain
  import FeeEngine

  datatype Config = Config(networks: Networks, rpcUrls: nat, platformFeeBps: nat, developerShareBps: nat)

  datatype Status = Pending | Confirmed | Failed

  /** One row of payment_settlements; its id is its position. */
  datatype Settlement = Settlement(
    request: RequestId, status: Status, txHash: Option<Chain.TxHash>,
    feeAmount: nat, developerShare: nat, referral: Option<string>, createdAt: nat)

  /** One row of payment_receipts, unique per request. */
  datatype Receipt = Receipt(id: nat, settlement: nat, txHash: Chain.TxHash)

  datatype ThrowCode = VerificationRequired | SettlementFailed | StoreError

  datatype Outcome =
    | Settled(settlement: nat, txHash: Option<Chain.TxHash>, receiptId: Option<nat>, idempotent: bool)
    | InProgress
    | Threw(code: ThrowCode)
    | Crashed

  /** Where a caller is: the await it will perform next. */
  datatype Pc =
    | Loading(r: RequestId, referral: Option<string>)
    | Checking(r: RequestId, referral: Option<string>)
    | Locking(r: RequestId, referral: Option<string>)
    | Creating(r: RequestId, referral: Option<string>)
    | Submitting(r: RequestId, row: nat, url: nat)
    | Waiting(r: RequestId, row: nat, url: nat, tx: Chain.TxHash)
    | Confirming(r: RequestId, row: nat, tx: Chain.TxHash)
    | Failing(r: RequestId, row: nat)
    | Unlocking(r: RequestId)
    | Finally(r: RequestId, result: Outcome)
    | Done(r: RequestId, result: Outcome)

  type CallerId = nat

  /** History: `lost` are the rows whose confirming transaction committed without its caller hearing of it, `sent` maps
      each transaction a settle call broadcast to that call, `heard` are those whose call was told they reverted. */
  datatype State = State(
    locks: set<RequestId>,
    rows: seq<Settlement>,
    receipts: map<RequestId, Receipt>,
    chain: Chain.State,
    callers: map<CallerId, Pc>,
    lost: set<nat>,
    sent: map<Chain.TxHash, CallerId>,
    heard: set<Chain.TxHash>)

  const Init: State := State({}, [], map[], Chain.Genesis, map[], {}, map[], {})

  /** What a reply may choose: the row findFirst returns, the id and the time generated by the caller. */
  datatype Choice = Choice(pick: nat, freshId: nat, at: nat)

  datatype Event =
    | Begin(c: CallerId, r: RequestId, referral: Option<string>)
    | Act(c: CallerId, reply: Reply, choice: Choice)
    | Crash(c: CallerId)
    | LockExpires(r: RequestId)
    | StrangerCalls(call: Chain.Call)
    | Mined(h: Chain.TxHash, accepted: bool)
    | Tick(now: nat)

  // ---------------------------------------------------------------- what one caller submits

  function FeeConfigOf(cfg: Config): FeeEngine.FeeConfig {
    FeeEngine.FeeConfig(cfg.platformFeeBps, cfg.developerShareBps, 0, [])
  }

  function FeesOf(cfg: Config, req: PaymentRequest, referral: Option<string>): FeeEngine.Breakdown {
    FeeEngine.Compute(FeeConfigOf(cfg), req.amount, req.seller, referral, 0, 0)
  }

  predicate Resolvable(cfg: Config, req: PaymentRequest) {
    Resolve(cfg.networks, req.network, req.asset).Asset?
  }

  /** The arguments handed to transferWithAuthorization. */
  function CallFor(cfg: Config, req: PaymentRequest): Chain.Call
    requires Resolvable(cfg, req) && |req.accepted| > 0
  {
    var v := req.accepted[0];
    Chain.Call(
      ToBytes(Resolve(cfg.networks, req.network, req.asset).asset.contractAddress),
      Chain.Authorization(ToBytes(req.buyer), ToBytes(req.seller), req.amount, 0, req.expiresAtMs / 1000,
            ToBytes(v.nonce)),
      Chain.SplitSignature(v.signatureHash))
  }

  /** `r` can be submitted: it was verified and its asset is configured. */
  predicate Submittable(cfg: Config, reqs: Requests, r: RequestId) {
    r in reqs && |reqs[r].accepted| > 0 && Resolvable(cfg, reqs[r])
  }

  // ---------------------------------------------------------------- one await

  predicate ConfirmedRow(s: State, r: RequestId, i: nat) {
    i < |s.rows| && s.rows[i].request == r && s.rows[i].status.Confirmed?
  }

  /** The loop over RPC URLs moves on, or gives up after the last one. */
  function Attempt(cfg: Config, r: RequestId, row: nat, url: nat): Pc {
    if url < cfg.rpcUrls then Submitting(r, row, url) else Failing(r, row)
  }

  /** The confirming transaction aborts when a unique constraint is violated. */
  predicate CanConfirm(s: State, r: RequestId, row: nat, tx: Chain.TxHash, receiptId: nat) {
    && row < |s.rows|
    && r !in s.receipts
    && (forall q :: q in s.receipts ==> s.receipts[q].id != receiptId)
    && (forall i :: 0 <= i < |s.rows| ==> s.rows[i].txHash != Some(tx))
  }

  function Confirm(cfg: Config, req: PaymentRequest, row: Settlement, tx: Chain.TxHash): Settlement {
    var fees := FeesOf(cfg, req, row.referral);
    row.(status := Confirmed, txHash := Some(tx), feeAmount := fees.platformFee, developerShare := fees.developerShare)
  }

  /** The state after the command of a caller at `pc` took effect. */
  function Effect(cfg: Config, reqs: Requests, s: State, pc: Pc, x: Choice): State {
    match pc
    case Locking(r, _) => s.(locks := s.locks + {r})
    case Creating(r, referral) => s.(rows := s.rows + [Settlement(r, Pending, None, 0, 0, referral, x.at)])
    case Submitting(r, _, _) =>
      if Submittable(cfg, reqs, r) then s.(chain := Chain.Broadcast(s.chain, CallFor(cfg, reqs[r]))) else s
    case Confirming(r, row, tx) =>
      if r in reqs && CanConfirm(s, r, row, tx, x.freshId) then
        s.(rows := s.rows[row := Confirm(cfg, reqs[r], s.rows[row], tx)],
           receipts := s.receipts[r := Receipt(x.freshId, row, tx)])
      else s
    case Failing(_, row) =>
      if row < |s.rows| then s.(rows := s.rows[row := s.rows[row].(status := Failed)]) else s
    case Unlocking(r) => s.(locks := s.locks - {r})
    case Finally(r, _) => s.(locks := s.locks - {r})
    case _ => s
  }

  /** Where the caller goes when the reply arrives; replies are computed in the state the command saw. */
  function Resume(cfg: Config, reqs: Requests, s: State, pc: Pc, x: Choice): Pc {
    match pc
    case Loading(r, referral) =>
      if r in reqs && |reqs[r].accepted| > 0 then Checking(r, referral) else Done(r, Threw(VerificationRequired))
    case Checking(r, referral) =>
      if ConfirmedRow(s, r, x.pick) then
        Done(r, Settled(x.pick, s.rows[x.pick].txHash, ReceiptIdOf(s, x.pick), true))
      else if exists i | 0 <= i < |s.rows| :: ConfirmedRow(s, r, i) then pc
      else Locking(r, referral)
    case Locking(r, referral) => if r in s.locks then Done(r, InProgress) else Creating(r, referral)
    case Creating(r, _) =>
      if Submittable(cfg, reqs, r) then Attempt(cfg, r, |s.rows|, 0) else Failing(r, |s.rows|)
    case Submitting(r, row, url) => Waiting(r, row, url, |s.chain.txs|)
    case Waiting(r, row, url, tx) =>
      if tx >= |s.chain.txs| || s.chain.txs[tx].status.Mempool? then pc
      else if s.chain.txs[tx].status.Success? then Confirming(r, row, tx)
      else Attempt(cfg, r, row, url + 1)
    case Confirming(r, row, tx) =>
      if CanConfirm(s, r, row, tx, x.freshId) then Finally(r, Settled(row, Some(tx), Some(x.freshId), false))
      else Failing(r, row)
    case Failing(r, _) => Unlocking(r)
    case Unlocking(r) => Finally(r, Threw(SettlementFailed))
    case Finally(r, result) => Done(r, result)
    case Done(_, _) => pc
  }

  /** The receipt joined to a settlement row. */
  function ReceiptIdOf(s: State, row: nat): Option<nat>
    requires row < |s.rows|
  {
    var r := s.rows[row].request;
    if r in s.receipts && s.receipts[r].settlement == row then Some(s.receipts[r].id) else None
  }

  /** Where the caller goes when the await throws. */
  function Catch(cfg: Config, pc: Pc): Pc {
    match pc
    case Loading(r, _) => Done(r, Threw(StoreError))
    case Checking(r, _) => Done(r, Threw(StoreError))
    case Locking(r, _) => Done(r, Threw(StoreError))
    case Creating(r, _) => Done(r, Threw(StoreError))
    case Submitting(r, row, url) => Attempt(cfg, r, row, url + 1)
    case Waiting(r, row, url, _) => Attempt(cfg, r, row, url + 1)
    case Confirming(r, row, _) => Failing(r, row)
    case Failing(r, _) => Finally(r, Threw(StoreError))
    case Unlocking(r) => Finally(r, Threw(StoreError))
    case Finally(r, result) => Done(r, result)
    case Done(_, _) => pc
  }

  /** A commit that its caller never hears of. */
  function LostBy(s: State, pc: Pc, reply: Reply, x: Choice): set<nat> {
    if pc.Confirming? && reply.ReplyLost? && CanConfirm(s, pc.r, pc.row, pc.tx, x.freshId) then {pc.row} else {}
  }

  /** Broadcasting is recorded when it took effect, whether or not the hash arrived. */
  function SentBy(cfg: Config, reqs: Requests, s: State, c: CallerId, reply: Reply): map<Chain.TxHash, CallerId>
    requires c in s.callers
  {
    var pc := s.callers[c];
    if pc.Submitting? && Submittable(cfg, reqs, pc.r) && !reply.Dropped? then s.sent[|s.chain.txs| := c] else s.sent
  }

  /** The wait was answered with a reverted receipt. */
  function HeardBy(s: State, pc: Pc, reply: Reply): set<Chain.TxHash> {
    if pc.Waiting? && reply.Delivered? && pc.tx < |s.chain.txs| && s.chain.txs[pc.tx].status.Reverted? then {pc.tx}
          else {}
  }

  function ActStep(cfg: Config, reqs: Requests, s: State, c: CallerId, reply: Reply, x: Choice): State
    requires c in s.callers
  {
    var pc := s.callers[c];
    var s' := if reply.Dropped? then s else Effect(cfg, reqs, s, pc, x);
    var pc' := if reply.Delivered? then Resume(cfg, reqs, s, pc, x) else Catch(cfg, pc);
    s'.(callers := s.callers[c := pc'], lost := s.lost + LostBy(s, pc, reply, x),
        sent := SentBy(cfg, reqs, s, c, reply), heard := s.heard + HeardBy(s, pc, reply))
  }

  function Next(cfg: Config, reqs: Requests, s: State, e: Event): State {
    match e
    case Begin(c, r, referral) =>
      if c in s.callers then s else s.(callers := s.callers[c := Loading(r, referral)])
    case Act(c, reply, x) => if c in s.callers then ActStep(cfg, reqs, s, c, reply, x) else s
    case Crash(c) =>
      if c in s.callers && !s.callers[c].Done? then s.(callers := s.callers[c := Done(s.callers[c].r, Crashed)]) else s
    case LockExpires(r) => s.(locks := s.locks - {r})
    case StrangerCalls(call) => s.(chain := Chain.Broadcast(s.chain, call))
    case Mined(h, accepted) => s.(chain := Chain.Mine(s.chain, h, accepted))
    case Tick(now) => s.(chain := Chain.Tick(s.chain, now))
  }

  function Run(cfg: Config, reqs: Requests, s: State, es: seq<Event>): State {
    if es == [] then s else Next(cfg, reqs, Run(cfg, reqs, s, es[..|es| - 1]), es[|es| - 1])
  }

  lemma RunSnoc(cfg: Config, reqs: Requests, s: State, es: seq<Event>, e: Event)
    ensures Run(cfg, reqs, s, es + [e]) == Next(cfg, reqs, Run(cfg, reqs, s, es), e)
  {
    assert (es + [e])[..|es + [e]| - 1] == es;
  }

  // ---------------------------------------------------------------- the invariant

  /** The row a caller may still write. */
  function OwnRow(pc: Pc): Option<nat> {
    match pc
    case Submitting(_, row, _) => Some(row)
    case Waiting(_, row, _, _) => Some(row)
    case Confirming(_, row, _) => Some(row)
    case Failing(_, row) => Some(row)
    case _ => None
  }

  /** A row with a transaction hash is the one its request's receipt names; only a lost commit is ever undone. */
  ghost predicate RowOk(s: State, i: nat)
    requires i < |s.rows|
  {
    var row := s.rows[i];
    && (row.status.Pending? ==> row.txHash.None?)
    && (row.status.Confirmed? ==> row.txHash.Some?)
    && (row.txHash.Some? ==>
          row.request in s.receipts && s.receipts[row.request].settlement == i
          && (row.status.Failed? ==> i in s.lost))
    && (i in s.lost ==> row.txHash.Some?)
  }

  ghost predicate FeesCharged(cfg: Config, req: PaymentRequest, row: Settlement) {
    var fees := FeesOf(cfg, req, row.referral);
    row.feeAmount == fees.platformFee && row.developerShare == fees.developerShare
  }

  /** A receipt names the row, the successful transfer of exactly this request, and the fees charged for it. */
  ghost predicate ReceiptOk(cfg: Config, reqs: Requests, s: State, r: RequestId)
    requires r in s.receipts
  {
    var rec := s.receipts[r];
    && rec.settlement < |s.rows|
    && s.rows[rec.settlement].request == r
    && s.rows[rec.settlement].txHash == Some(rec.txHash)
    && Submittable(cfg, reqs, r)
    && Chain.Succeeded(s.chain, rec.txHash)
    && s.chain.txs[rec.txHash].call == CallFor(cfg, reqs[r])
    && FeesCharged(cfg, reqs[r], s.rows[rec.settlement])
  }

  ghost predicate OwnRowOk(s: State, r: RequestId, i: nat) {
    i < |s.rows| && s.rows[i].request == r && s.rows[i].status.Pending?
  }

  ghost predicate ResultOk(s: State, r: RequestId, o: Outcome) {
    o.Settled? ==>
      r in s.receipts && s.receipts[r].settlement == o.settlement
      && o.txHash == Some(s.receipts[r].txHash) && o.receiptId == Some(s.receipts[r].id)
  }

  ghost predicate PcOk(cfg: Config, reqs: Requests, s: State, pc: Pc) {
    match pc
    case Submitting(r, row, url) => Submittable(cfg, reqs, r) && OwnRowOk(s, r, row) && url < cfg.rpcUrls
    case Waiting(r, row, url, tx) =>
      && Submittable(cfg, reqs, r) && OwnRowOk(s, r, row)
      && tx < |s.chain.txs| && s.chain.txs[tx].call == CallFor(cfg, reqs[r])
    case Confirming(r, row, tx) =>
      && Submittable(cfg, reqs, r) && OwnRowOk(s, r, row)
      && Chain.Succeeded(s.chain, tx) && s.chain.txs[tx].call == CallFor(cfg, reqs[r])
    case Failing(r, row) => row in s.lost || OwnRowOk(s, r, row)
    case Finally(r, result) => ResultOk(s, r, result)
    case Done(r, result) => ResultOk(s, r, result)
    case _ => true
  }

  ghost predicate CallersOk(cfg: Config, reqs: Requests, s: State) {
    forall c :: c in s.callers ==> PcOk(cfg, reqs, s, s.callers[c])
  }

  ghost predicate OwnersDistinct(s: State) {
    forall c, d :: c in s.callers && d in s.callers && c != d && OwnRow(s.callers[c]).Some? ==>
      OwnRow(s.callers[c]) != OwnRow(s.callers[d])
  }

  /** What holds of the three stores, whoever the callers are. */
  ghost predicate StoresOk(cfg: Config, reqs: Requests, s: State) {
    && Chain.Inv(s.chain)
    && (forall i :: 0 <= i < |s.rows| ==> RowOk(s, i))
    && (forall i :: i in s.lost ==> i < |s.rows|)
    && (forall r :: r in s.receipts ==> ReceiptOk(cfg, reqs, s, r))
    && TxHashesUnique(s.rows)
  }

  ghost predicate TxHashesUnique(rows: seq<Settlement>) {
    forall i, j :: 0 <= i < j < |rows| && rows[i].txHash.Some? ==> rows[i].txHash != rows[j].txHash
  }

  ghost predicate Inv(cfg: Config, reqs: Requests, s: State) {
    StoresOk(cfg, reqs, s) && CallersOk(cfg, reqs, s) && OwnersDistinct(s)
  }

  // ---------------------------------------------------------------- one step by one caller leaves the others alone

  /** `t` follows `s` by the command of a caller that may write only row `own`. */
  ghost predicate Frame(s: State, t: State, own: Option<nat>) {
    && |s.rows| <= |t.rows|
    && (forall i :: 0 <= i < |s.rows| && own != Some(i) ==> t.rows[i] == s.rows[i])
    && (forall r :: r in s.receipts ==> r in t.receipts && t.receipts[r] == s.receipts[r])
    && Chain.Extends(s.chain, t.chain)
    && s.lost <= t.lost
  }

  lemma PcFrame(cfg: Config, reqs: Requests, s: State, t: State, own: Option<nat>, pc: Pc)
    requires PcOk(cfg, reqs, s, pc) && Frame(s, t, own)
    requires OwnRow(pc).None? || OwnRow(pc) != own
    ensures PcOk(cfg, reqs, t, pc)
  {
  }

  lemma Assemble(cfg: Config, reqs: Requests, s: State, t: State, c: CallerId, pc': Pc)
    requires Inv(cfg, reqs, s) && c in s.callers && t.callers == s.callers[c := pc']
    requires Frame(s, t, OwnRow(s.callers[c])) && StoresOk(cfg, reqs, t) && PcOk(cfg, reqs, t, pc')
    requires OwnRow(pc').None? || OwnRow(pc') == OwnRow(s.callers[c]) || OwnRow(pc').value >= |s.rows|
    ensures Inv(cfg, reqs, t)
  {
    forall d | d in s.callers && d != c
      ensures PcOk(cfg, reqs, t, s.callers[d])
      ensures OwnRow(s.callers[d]).Some? ==> OwnRow(s.callers[d]).value < |s.rows|
    {
      PcFrame(cfg, reqs, s, t, OwnRow(s.callers[c]), s.callers[d]);
    }
  }

  // ---------------------------------------------------------------- the commands that change a store

  lemma CreateKeeps(cfg: Config, reqs: Requests, s: State, t: State, row: Settlement)
    requires StoresOk(cfg, reqs, s) && row.status.Pending? && row.txHash.None?
    requires t == s.(rows := s.rows + [row], callers := t.callers, sent := t.sent, heard := t.heard)
    ensures StoresOk(cfg, reqs, t)
  {
    forall i | 0 <= i < |t.rows| ensures RowOk(t, i) {
      if i < |s.rows| { assert RowOk(s, i); }
    }
    forall r | r in t.receipts ensures ReceiptOk(cfg, reqs, t, r) { assert ReceiptOk(cfg, reqs, s, r); }
  }

  lemma ChainKeeps(cfg: Config, reqs: Requests, s: State, t: State)
    requires StoresOk(cfg, reqs, s) && Chain.Inv(t.chain) && Chain.Extends(s.chain, t.chain)
    requires t == s.(chain := t.chain, callers := t.callers, locks := t.locks, sent := t.sent, heard := t.heard)
    ensures StoresOk(cfg, reqs, t)
  {
    forall i | 0 <= i < |t.rows| ensures RowOk(t, i) { assert RowOk(s, i); }
    forall r | r in t.receipts ensures ReceiptOk(cfg, reqs, t, r) { assert ReceiptOk(cfg, reqs, s, r); }
  }

  lemma FailKeepsRows(s: State, t: State, row: nat)
    requires row < |s.rows| && (s.rows[row].status.Pending? || row in s.lost)
    requires t.rows == s.rows[row := s.rows[row].(status := Failed)] && t.receipts == s.receipts && t.lost == s.lost
    requires forall i :: 0 <= i < |s.rows| ==> RowOk(s, i)
    ensures forall i :: 0 <= i < |t.rows| ==> RowOk(t, i)
  {
    forall i | 0 <= i < |t.rows| ensures RowOk(t, i) { assert RowOk(s, i); }
  }

  lemma FailKeeps(cfg: Config, reqs: Requests, s: State, t: State, row: nat)
    requires StoresOk(cfg, reqs, s) && row < |s.rows|
    requires s.rows[row].status.Pending? || row in s.lost
    requires t == s.(rows := s.rows[row := s.rows[row].(status := Failed)],
                     callers := t.callers, sent := t.sent, heard := t.heard)
    ensures StoresOk(cfg, reqs, t)
  {
    FailKeepsRows(s, t, row);
    forall r | r in t.receipts ensures ReceiptOk(cfg, reqs, t, r) { assert ReceiptOk(cfg, reqs, s, r); }
  }

  /** `t` is `s` with row `k` confirmed by `tx` and its receipt written. */
  ghost predicate Confirms(s: State, t: State, k: nat, tx: Chain.TxHash, id: nat) {
    && k < |s.rows| && s.rows[k].request !in s.receipts && s.rows[k].status.Pending?
    && (forall i :: 0 <= i < |s.rows| ==> s.rows[i].txHash != Some(tx))
    && |t.rows| == |s.rows|
    && (forall i :: 0 <= i < |s.rows| && i != k ==> t.rows[i] == s.rows[i])
    && t.rows[k].request == s.rows[k].request && t.rows[k].status.Confirmed? && t.rows[k].txHash == Some(tx)
    && t.receipts == s.receipts[s.rows[k].request := Receipt(id, k, tx)]
    && t.chain == s.chain && (t.lost == s.lost || t.lost == s.lost + {k})
  }

  lemma ConfirmKeepsRows(s: State, t: State, k: nat, tx: Chain.TxHash, id: nat)
    requires Confirms(s, t, k, tx, id)
    requires forall i :: 0 <= i < |s.rows| ==> RowOk(s, i)
    ensures forall i :: 0 <= i < |t.rows| ==> RowOk(t, i)
  {
    forall i | 0 <= i < |t.rows| ensures RowOk(t, i) { assert RowOk(s, i); }
  }

  lemma ConfirmKeepsUnique(s: State, t: State, k: nat, tx: Chain.TxHash, id: nat)
    requires Confirms(s, t, k, tx, id) && TxHashesUnique(s.rows)
    ensures TxHashesUnique(t.rows)
  {
    forall i, j | 0 <= i < j < |t.rows| && t.rows[i].txHash.Some? ensures t.rows[i].txHash != t.rows[j].txHash {
      assert i != k ==> t.rows[i] == s.rows[i];
      assert j != k ==> t.rows[j] == s.rows[j];
    }
  }

  lemma ConfirmKeepsReceipts(cfg: Config, reqs: Requests, s: State, t: State, k: nat, tx: Chain.TxHash, id: nat)
    requires Confirms(s, t, k, tx, id) && RowOk(s, k)
    requires forall r :: r in s.receipts ==> ReceiptOk(cfg, reqs, s, r)
    requires Submittable(cfg, reqs, s.rows[k].request) && FeesCharged(cfg, reqs[s.rows[k].request], t.rows[k])
    requires Chain.Succeeded(s.chain, tx) && s.chain.txs[tx].call == CallFor(cfg, reqs[s.rows[k].request])
    ensures forall r :: r in t.receipts ==> ReceiptOk(cfg, reqs, t, r)
  {
    forall r | r in t.receipts ensures ReceiptOk(cfg, reqs, t, r) {
      if r in s.receipts { assert ReceiptOk(cfg, reqs, s, r); }
    }
  }

  // ---------------------------------------------------------------- every event keeps the invariant

  lemma SubmitActStep(cfg: Config, reqs: Requests, s: State, c: CallerId, reply: Reply, x: Choice)
    requires c in s.callers && s.callers[c].Submitting? && PcOk(cfg, reqs, s, s.callers[c])
    ensures var t := ActStep(cfg, reqs, s, c, reply, x); var pc := s.callers[c];
            && t == s.(chain := t.chain, callers := t.callers, sent := t.sent)
            && t.chain == (if reply.Dropped? then s.chain else Chain.Broadcast(s.chain, CallFor(cfg, reqs[pc.r])))
            && t.callers == s.callers[c := if reply.Delivered? then Waiting(pc.r, pc.row, pc.url, |s.chain.txs|)
                                           else Attempt(cfg, pc.r, pc.row, pc.url + 1)]
  {
  }

  lemma SubmitKeeps(cfg: Config, reqs: Requests, s: State, c: CallerId, reply: Reply, x: Choice)
    requires Inv(cfg, reqs, s) && c in s.callers && s.callers[c].Submitting?
    ensures Inv(cfg, reqs, ActStep(cfg, reqs, s, c, reply, x))
  {
    var t := ActStep(cfg, reqs, s, c, reply, x);
    assert PcOk(cfg, reqs, s, s.callers[c]);
    SubmitActStep(cfg, reqs, s, c, reply, x);
    Chain.BroadcastKeeps(s.chain, CallFor(cfg, reqs[s.callers[c].r]));
    ChainKeeps(cfg, reqs, s, t);
    Assemble(cfg, reqs, s, t, c, t.callers[c]);
  }

  lemma CommitConfirms(cfg: Config, reqs: Requests, s: State, t: State, pc: Pc, x: Choice)
    requires pc.Confirming? && PcOk(cfg, reqs, s, pc) && CanConfirm(s, pc.r, pc.row, pc.tx, x.freshId)
    requires t == Effect(cfg, reqs, s, pc, x).(callers := t.callers, lost := t.lost, sent := t.sent, heard := t.heard)
    requires t.lost == s.lost || t.lost == s.lost + {pc.row}
    ensures Confirms(s, t, pc.row, pc.tx, x.freshId) && s.rows[pc.row].request == pc.r
    ensures FeesCharged(cfg, reqs[pc.r], t.rows[pc.row])
  {
  }

  lemma CommitKeeps(cfg: Config, reqs: Requests, s: State, t: State, k: nat, tx: Chain.TxHash, id: nat)
    requires StoresOk(cfg, reqs, s) && Confirms(s, t, k, tx, id)
    requires Submittable(cfg, reqs, s.rows[k].request) && FeesCharged(cfg, reqs[s.rows[k].request], t.rows[k])
    requires Chain.Succeeded(s.chain, tx) && s.chain.txs[tx].call == CallFor(cfg, reqs[s.rows[k].request])
    ensures StoresOk(cfg, reqs, t)
  {
    assert RowOk(s, k);
    ConfirmKeepsRows(s, t, k, tx, id);
    ConfirmKeepsUnique(s, t, k, tx, id);
    ConfirmKeepsReceipts(cfg, reqs, s, t, k, tx, id);
  }

  lemma CommitFrame(s: State, t: State, k: nat, tx: Chain.TxHash, id: nat)
    requires Confirms(s, t, k, tx, id)
    ensures Frame(s, t, Some(k))
  {
  }

  lemma ConfirmActStep(cfg: Config, reqs: Requests, s: State, c: CallerId, reply: Reply, x: Choice)
    requires c in s.callers && s.callers[c].Confirming? && PcOk(cfg, reqs, s, s.callers[c])
    ensures var t := ActStep(cfg, reqs, s, c, reply, x); var pc := s.callers[c];
            if CanConfirm(s, pc.r, pc.row, pc.tx, x.freshId) && !reply.Dropped?
            then t == Effect(cfg, reqs, s, pc, x).(callers := t.callers, lost := t.lost)
                 && (t.lost == s.lost || t.lost == s.lost + {pc.row})
            else t == s.(callers := t.callers)
  {
  }

  /** The stores after the confirming await. */
  lemma ConfirmActStores(cfg: Config, reqs: Requests, s: State, c: CallerId, reply: Reply, x: Choice)
    requires Inv(cfg, reqs, s) && c in s.callers && s.callers[c].Confirming?
    ensures var t := ActStep(cfg, reqs, s, c, reply, x); StoresOk(cfg, reqs, t) && Frame(s, t, OwnRow(s.callers[c]))
  {
    var t := ActStep(cfg, reqs, s, c, reply, x);
    var pc := s.callers[c];
    assert PcOk(cfg, reqs, s, pc);
    ConfirmActStep(cfg, reqs, s, c, reply, x);
    if CanConfirm(s, pc.r, pc.row, pc.tx, x.freshId) && !reply.Dropped? {
      CommitStores(cfg, reqs, s, t, pc, x);
    } else {
      ChainKeeps(cfg, reqs, s, t);
    }
  }

  lemma CommitStores(cfg: Config, reqs: Requests, s: State, t: State, pc: Pc, x: Choice)
    requires StoresOk(cfg, reqs, s) && pc.Confirming? && PcOk(cfg, reqs, s, pc)
    requires CanConfirm(s, pc.r, pc.row, pc.tx, x.freshId)
    requires t == Effect(cfg, reqs, s, pc, x).(callers := t.callers, lost := t.lost, sent := t.sent, heard := t.heard)
    requires t.lost == s.lost || t.lost == s.lost + {pc.row}
    ensures StoresOk(cfg, reqs, t) && Frame(s, t, Some(pc.row))
  {
    CommitConfirms(cfg, reqs, s, t, pc, x);
    CommitKeeps(cfg, reqs, s, t, pc.row, pc.tx, x.freshId);
    CommitFrame(s, t, pc.row, pc.tx, x.freshId);
  }

  lemma ConfirmActPc(cfg: Config, reqs: Requests, s: State, c: CallerId, reply: Reply, x: Choice)
    requires c in s.callers && s.callers[c].Confirming? && PcOk(cfg, reqs, s, s.callers[c])
    ensures var t := ActStep(cfg, reqs, s, c, reply, x);
            PcOk(cfg, reqs, t, t.callers[c])
            && (OwnRow(t.callers[c]).None? || OwnRow(t.callers[c]) == OwnRow(s.callers[c]))
  {
  }

  lemma ConfirmActKeeps(cfg: Config, reqs: Requests, s: State, c: CallerId, reply: Reply, x: Choice)
    requires Inv(cfg, reqs, s) && c in s.callers && s.callers[c].Confirming?
    ensures Inv(cfg, reqs, ActStep(cfg, reqs, s, c, reply, x))
  {
    var t := ActStep(cfg, reqs, s, c, reply, x);
    ConfirmActStores(cfg, reqs, s, c, reply, x);
    assert PcOk(cfg, reqs, s, s.callers[c]);
    ConfirmActPc(cfg, reqs, s, c, reply, x);
    Assemble(cfg, reqs, s, t, c, t.callers[c]);
  }

  lemma FailActKeeps(cfg: Config, reqs: Requests, s: State, c: CallerId, reply: Reply, x: Choice)
    requires Inv(cfg, reqs, s) && c in s.callers && s.callers[c].Failing?
    ensures Inv(cfg, reqs, ActStep(cfg, reqs, s, c, reply, x))
  {
    var t := ActStep(cfg, reqs, s, c, reply, x);
    var pc := s.callers[c];
    if reply.Dropped? { ChainKeeps(cfg, reqs, s, t); } else { FailKeeps(cfg, reqs, s, t, pc.row); }
    Assemble(cfg, reqs, s, t, c, t.callers[c]);
  }

  lemma CreateActKeeps(cfg: Config, reqs: Requests, s: State, c: CallerId, reply: Reply, x: Choice)
    requires Inv(cfg, reqs, s) && c in s.callers && s.callers[c].Creating?
    ensures Inv(cfg, reqs, ActStep(cfg, reqs, s, c, reply, x))
  {
    var t := ActStep(cfg, reqs, s, c, reply, x);
    var pc := s.callers[c];
    if reply.Dropped? { ChainKeeps(cfg, reqs, s, t); }
    else { CreateKeeps(cfg, reqs, s, t, Settlement(pc.r, Pending, None, 0, 0, pc.referral, x.at)); }
    Assemble(cfg, reqs, s, t, c, t.callers[c]);
  }

  /** An idempotent reply repeats the receipt. */
  lemma IdempotentReplyOk(cfg: Config, reqs: Requests, s: State, r: RequestId, pick: nat)
    requires StoresOk(cfg, reqs, s) && ConfirmedRow(s, r, pick)
    ensures ResultOk(s, r, Settled(pick, s.rows[pick].txHash, ReceiptIdOf(s, pick), true))
  {
    assert RowOk(s, pick);
    assert ReceiptOk(cfg, reqs, s, r);
  }

  /** The other awaits change no store but the locks. */
  predicate Quiet(pc: Pc) {
    !pc.Submitting? && !pc.Confirming? && !pc.Failing? && !pc.Creating?
  }

  lemma QuietActStep(cfg: Config, reqs: Requests, s: State, c: CallerId, reply: Reply, x: Choice)
    requires c in s.callers && Quiet(s.callers[c])
    ensures var t := ActStep(cfg, reqs, s, c, reply, x); var pc := s.callers[c];
            && t == s.(locks := t.locks, callers := t.callers, heard := t.heard)
            && t.callers == s.callers[c := if reply.Delivered? then Resume(cfg, reqs, s, pc, x) else Catch(cfg, pc)]
            && (OwnRow(t.callers[c]).None? || OwnRow(t.callers[c]) == OwnRow(pc))
  {
  }

  lemma QuietActKeeps(cfg: Config, reqs: Requests, s: State, c: CallerId, reply: Reply, x: Choice)
    requires Inv(cfg, reqs, s) && c in s.callers && Quiet(s.callers[c])
    ensures Inv(cfg, reqs, ActStep(cfg, reqs, s, c, reply, x))
  {
    var t := ActStep(cfg, reqs, s, c, reply, x);
    QuietActStep(cfg, reqs, s, c, reply, x);
    assert PcOk(cfg, reqs, s, s.callers[c]);
    QuietFrame(cfg, reqs, s, t);
    ResumeQuiet(cfg, reqs, s, s.callers[c], x);
    CatchQuiet(cfg, reqs, s, s.callers[c]);
    PcSameStores(cfg, reqs, s, t, t.callers[c]);
    Assemble(cfg, reqs, s, t, c, t.callers[c]);
  }

  lemma QuietFrame(cfg: Config, reqs: Requests, s: State, t: State)
    requires StoresOk(cfg, reqs, s) && t == s.(locks := t.locks, callers := t.callers, heard := t.heard)
    ensures StoresOk(cfg, reqs, t) && Frame(s, t, None)
  {
    ChainKeeps(cfg, reqs, s, t);
  }

  lemma ResumeQuiet(cfg: Config, reqs: Requests, s: State, pc: Pc, x: Choice)
    requires StoresOk(cfg, reqs, s) && PcOk(cfg, reqs, s, pc) && Quiet(pc)
    ensures PcOk(cfg, reqs, s, Resume(cfg, reqs, s, pc, x))
  {
    if pc.Checking? && ConfirmedRow(s, pc.r, x.pick) { IdempotentReplyOk(cfg, reqs, s, pc.r, x.pick); }
  }

  lemma CatchQuiet(cfg: Config, reqs: Requests, s: State, pc: Pc)
    requires PcOk(cfg, reqs, s, pc) && Quiet(pc)
    ensures PcOk(cfg, reqs, s, Catch(cfg, pc))
  {
  }

  lemma PcSameStores(cfg: Config, reqs: Requests, s: State, t: State, pc: Pc)
    requires PcOk(cfg, reqs, s, pc)
    requires t.rows == s.rows && t.receipts == s.receipts && t.chain == s.chain && t.lost == s.lost
    ensures PcOk(cfg, reqs, t, pc)
  {
  }

  lemma EnvironmentKeeps(cfg: Config, reqs: Requests, s: State, t: State)
    requires Inv(cfg, reqs, s) && Chain.Inv(t.chain) && Chain.Extends(s.chain, t.chain)
    requires t == s.(chain := t.chain, locks := t.locks)
    ensures Inv(cfg, reqs, t)
  {
    ChainKeeps(cfg, reqs, s, t);
    forall c | c in t.callers ensures PcOk(cfg, reqs, t, t.callers[c]) {
      PcFrame(cfg, reqs, s, t, None, t.callers[c]);
    }
  }

  lemma ActKeeps(cfg: Config, reqs: Requests, s: State, c: CallerId, reply: Reply, x: Choice)
    requires Inv(cfg, reqs, s) && c in s.callers
    ensures Inv(cfg, reqs, ActStep(cfg, reqs, s, c, reply, x))
  {
    match s.callers[c]
    case Submitting(_, _, _) => SubmitKeeps(cfg, reqs, s, c, reply, x);
    case Confirming(_, _, _) => ConfirmActKeeps(cfg, reqs, s, c, reply, x);
    case Failing(_, _) => FailActKeeps(cfg, reqs, s, c, reply, x);
    case Creating(_, _) => CreateActKeeps(cfg, reqs, s, c, reply, x);
    case _ => QuietActKeeps(cfg, reqs, s, c, reply, x);
  }

  lemma BeginKeeps(cfg: Config, reqs: Requests, s: State, c: CallerId, pc: Pc)
    requires Inv(cfg, reqs, s) && c !in s.callers && pc.Loading?
    ensures Inv(cfg, reqs, s.(callers := s.callers[c := pc]))
  {
    var t := s.(callers := s.callers[c := pc]);
    ChainKeeps(cfg, reqs, s, t);
    forall d | d in t.callers ensures PcOk(cfg, reqs, t, t.callers[d]) {
      if d != c { PcFrame(cfg, reqs, s, t, None, s.callers[d]); }
    }
  }

  lemma CrashKeeps(cfg: Config, reqs: Requests, s: State, c: CallerId)
    requires Inv(cfg, reqs, s) && c in s.callers
    ensures Inv(cfg, reqs, s.(callers := s.callers[c := Done(s.callers[c].r, Crashed)]))
  {
    var t := s.(callers := s.callers[c := Done(s.callers[c].r, Crashed)]);
    ChainKeeps(cfg, reqs, s, t);
    Assemble(cfg, reqs, s, t, c, t.callers[c]);
  }

  lemma NextKeeps(cfg: Config, reqs: Requests, s: State, e: Event)
    requires Inv(cfg, reqs, s)
    ensures Inv(cfg, reqs, Next(cfg, reqs, s, e))
  {
    match e
    case Begin(c, r, referral) => if c !in s.callers { BeginKeeps(cfg, reqs, s, c, Loading(r, referral)); }
    case Act(c, reply, x) => if c in s.callers { ActKeeps(cfg, reqs, s, c, reply, x); }
    case Crash(c) => if c in s.callers { CrashKeeps(cfg, reqs, s, c); }
    case StrangerCalls(call) =>
      Chain.BroadcastKeeps(s.chain, call);
      EnvironmentKeeps(cfg, reqs, s, Next(cfg, reqs, s, e));
    case Mined(h, accepted) =>
      Chain.MineKeeps(s.chain, h, accepted);
      EnvironmentKeeps(cfg, reqs, s, Next(cfg, reqs, s, e));
    case _ => EnvironmentKeeps(cfg, reqs, s, Next(cfg, reqs, s, e));
  }

  lemma {:induction false} RunKeeps(cfg: Config, reqs: Requests, s: State, es: seq<Event>)
    requires Inv(cfg, reqs, s)
    ensures Inv(cfg, reqs, Run(cfg, reqs, s, es))
  {
    if es != [] {
      RunKeeps(cfg, reqs, s, es[..|es| - 1]);
      NextKeeps(cfg, reqs, Run(cfg, reqs, s, es[..|es| - 1]), es[|es| - 1]);
    }
  }
}
