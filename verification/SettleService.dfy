/** runSettle (src/application/settle.service.ts) and the confirmation worker
    (src/infrastructure/workers/confirm-settlement.worker.ts) over the same tables and lock keys. submitOnChain is one
    await here, answered with a transaction hash or an exception; module SettlePayment looks inside it. */
module SettleService {
  import opened Prelude

  type RequestId = string
  type TxHash = nat
  type CallerId = nat

  /** What computeFees yields for a request's amount. */
  datatype Fees = Fees(platformFee: nat, developerShare: nat)

  /** `accepted` lists the accepted verifications (id, request); `fees` covers every known request. */
  datatype Config = Config(accepted: set<(string, RequestId)>, fees: RequestId -> Fees)

  datatype Status = Processing | Confirmed | Failed

  /** What a confirmation writes next to the status. */
  datatype Details = Details(txHash: TxHash, fees: Fees, confirmedAt: nat)

  datatype Row = Row(request: RequestId, status: Status, details: Option<Details>)

  datatype Receipt = Receipt(id: nat, settlement: nat)

  datatype Code = VerificationNotFound | SettlementFailed | SettlementPending

  datatype Response =
    | Settled(settlement: nat, details: Option<Details>, receiptId: Option<nat>)
    | Rejected(code: Code)
    | Threw
    | Crashed

  datatype Pc =
    | Loading(r: RequestId, verification: string)
    | Checking(r: RequestId)
    | Locking(r: RequestId)
    | Creating(r: RequestId)
    | Submitting(r: RequestId, row: nat)
    | Confirming(r: RequestId, row: nat, tx: TxHash)
    | Unlocking(r: RequestId, row: nat, response: Response)
    | Failing(r: RequestId, row: nat)
    | LastUnlock(r: RequestId)
    | Done(r: RequestId, response: Response)

  datatype Job = Job(row: nat, tx: TxHash, request: RequestId)

  const ATTEMPTS: nat := 5

  /** The worker on one job. */
  datatype WorkerPc =
    | Reading(job: Job, attempt: nat)
    | Polling(job: Job, attempt: nat)
    | Reverting(job: Job, attempt: nat)
    | Persisting(job: Job, attempt: nat)
    | DeletingLock(job: Job)
    | GivingUp(job: Job)
    | Finished(job: Job)

  /** `submits` is history: how often submitOnChain was entered for a request. */
  datatype State = State(
    locks: set<RequestId>,
    rows: seq<Row>,
    receipts: map<RequestId, Receipt>,
    callers: map<CallerId, Pc>,
    workers: map<CallerId, WorkerPc>,
    submits: multiset<RequestId>)

  const Init := State({}, [], map[], map[], map[], multiset{})

  datatype Poll = Success | Reverted | Silent

  /** Answers the environment chooses: the row findFirst picks, ids and times generated, whether the asset is
      configured, the hash submitOnChain returns, the receipt the worker polls. */
  datatype Choice = Choice(pick: nat, id: nat, at: nat, configured: bool, tx: TxHash, poll: Poll)

  datatype Event =
    | Begin(c: CallerId, r: RequestId, verification: string)
    | Act(c: CallerId, reply: Reply, x: Choice)
    | Crash(c: CallerId)
    | LockExpires(r: RequestId)
    | JobStarts(w: CallerId, job: Job)
    | WorkerActs(w: CallerId, reply: Reply, x: Choice)

  // ---------------------------------------------------------------- runSettle

  predicate RowFor(s: State, r: RequestId, i: nat) {
    i < |s.rows| && s.rows[i].request == r
  }

  /** Unique constraints: one receipt per request, receipt ids, transaction hashes. */
  predicate TxFree(s: State, row: nat, tx: TxHash) {
    forall i :: 0 <= i < |s.rows| && i != row && s.rows[i].details.Some? ==> s.rows[i].details.value.txHash != tx
  }

  predicate IdFree(s: State, id: nat) {
    forall q :: q in s.receipts ==> s.receipts[q].id != id
  }

  predicate CanConfirm(s: State, r: RequestId, row: nat, tx: TxHash, id: nat) {
    row < |s.rows| && r !in s.receipts && IdFree(s, id) && TxFree(s, row, tx)
  }

  function ReceiptIdOf(s: State, r: RequestId): Option<nat> {
    if r in s.receipts then Some(s.receipts[r].id) else None
  }

  /** The idempotent reply to a row that already exists. */
  function Existing(s: State, i: nat): Response
    requires i < |s.rows|
  {
    match s.rows[i].status
    case Confirmed => Settled(i, s.rows[i].details, ReceiptIdOf(s, s.rows[i].request))
    case Failed => Rejected(SettlementFailed)
    case Processing => Rejected(SettlementPending)
  }

  function Confirm(cfg: Config, row: Row, tx: TxHash, at: nat): Row {
    Row(row.request, Confirmed, Some(Details(tx, cfg.fees(row.request), at)))
  }

  function MarkFailed(rows: seq<Row>, row: nat): seq<Row> {
    if row < |rows| then rows[row := rows[row].(status := Failed)] else rows
  }

  function Effect(cfg: Config, s: State, pc: Pc, x: Choice): State {
    match pc
    case Locking(r) => s.(locks := s.locks + {r})
    case Creating(r) => s.(rows := s.rows + [Row(r, Processing, None)])
    case Confirming(r, row, tx) =>
      if CanConfirm(s, r, row, tx, x.id) then
        s.(rows := s.rows[row := Confirm(cfg, s.rows[row], tx, x.at)], receipts := s.receipts[r := Receipt(x.id, row)])
      else s
    case Unlocking(r, _, _) => s.(locks := s.locks - {r})
    case Failing(_, row) => s.(rows := MarkFailed(s.rows, row))
    case LastUnlock(r) => s.(locks := s.locks - {r})
    case _ => s
  }

  function Resume(cfg: Config, s: State, pc: Pc, x: Choice): Pc {
    match pc
    case Loading(r, v) => if (v, r) in cfg.accepted then Checking(r) else Done(r, Rejected(VerificationNotFound))
    case Checking(r) =>
      if RowFor(s, r, x.pick) then Done(r, Existing(s, x.pick))
      else if exists i | 0 <= i < |s.rows| :: RowFor(s, r, i) then pc
      else Locking(r)
    case Locking(r) => if r in s.locks then Done(r, Rejected(SettlementPending)) else Creating(r)
    case Creating(r) => if x.configured then Submitting(r, |s.rows|) else Failing(r, |s.rows|)
    case Submitting(r, row) => Confirming(r, row, x.tx)
    case Confirming(r, row, tx) =>
      if CanConfirm(s, r, row, tx, x.id)
      then Unlocking(r, row, Settled(row, Some(Details(tx, cfg.fees(s.rows[row].request), x.at)), Some(x.id)))
      else Failing(r, row)
    case Unlocking(r, _, response) => Done(r, response)
    case Failing(r, _) => LastUnlock(r)
    case LastUnlock(r) => Done(r, Rejected(SettlementFailed))
    case Done(_, _) => pc
  }

  /** The await threw. Before the try block the exception leaves runSettle; inside it, the DEL after a confirmation
      included, it lands in the catch block, whose own two commands swallow their errors. */
  function Catch(pc: Pc): Pc {
    match pc
    case Submitting(r, row) => Failing(r, row)
    case Confirming(r, row, _) => Failing(r, row)
    case Unlocking(r, row, _) => Failing(r, row)
    case Failing(r, _) => LastUnlock(r)
    case LastUnlock(r) => Done(r, Rejected(SettlementFailed))
    case Done(_, _) => pc
    case _ => Done(pc.r, Threw)
  }

  /** submitOnChain is entered when its await begins, whatever comes of it. */
  function SubmitsOf(pc: Pc): multiset<RequestId> {
    if pc.Submitting? then multiset{pc.r} else multiset{}
  }

  function ActStep(cfg: Config, s: State, c: CallerId, reply: Reply, x: Choice): State
    requires c in s.callers
  {
    var pc := s.callers[c];
    var s' := if reply.Dropped? then s else Effect(cfg, s, pc, x);
    s'.(callers := s.callers[c := if reply.Delivered? then Resume(cfg, s, pc, x) else Catch(pc)],
        submits := s.submits + SubmitsOf(pc))
  }

  // ---------------------------------------------------------------- the worker

  /** The worker's transaction: confirm the row whatever its status, create the receipt unless there is one. */
  predicate CanPersist(s: State, job: Job, id: nat) {
    job.row < |s.rows| && TxFree(s, job.row, job.tx) && (job.request in s.receipts || IdFree(s, id))
  }

  function WorkerEffect(cfg: Config, s: State, pc: WorkerPc, x: Choice): State {
    match pc
    case Reverting(job, _) => s.(rows := MarkFailed(s.rows, job.row))
    case Persisting(job, _) =>
      if CanPersist(s, job, x.id) then
        s.(rows := s.rows[job.row := Confirm(cfg, s.rows[job.row], job.tx, x.at)],
           receipts := if job.request in s.receipts then s.receipts
                 else s.receipts[job.request := Receipt(x.id, job.row)])
      else s
    case DeletingLock(job) => s.(locks := s.locks - {job.request})
    case GivingUp(job) => s.(rows := MarkFailed(s.rows, job.row))
    case _ => s
  }

  /** An attempt threw: BullMQ retries until the fifth, then the failed handler gives the job up. */
  function Retry(job: Job, attempt: nat): WorkerPc {
    if attempt >= ATTEMPTS then GivingUp(job) else Reading(job, attempt + 1)
  }

  function WorkerResume(s: State, pc: WorkerPc, x: Choice): WorkerPc {
    match pc
    case Reading(job, n) =>
      if job.row < |s.rows| && !s.rows[job.row].status.Processing? then Finished(job) else Polling(job, n)
    case Polling(job, n) =>
      (match x.poll case Success => Persisting(job, n) case Reverted => Reverting(job, n) case Silent => Retry(job, n))
    case Reverting(job, n) => Retry(job, n)
    case Persisting(job, n) => if CanPersist(s, job, x.id) then DeletingLock(job) else Retry(job, n)
    case DeletingLock(job) => Finished(job)
    case GivingUp(job) => Finished(job)
    case Finished(_) => pc
  }

  function WorkerCatch(pc: WorkerPc): WorkerPc {
    match pc
    case Reading(job, n) => Retry(job, n)
    case Polling(job, n) => Retry(job, n)
    case Reverting(job, n) => Retry(job, n)
    case Persisting(job, n) => Retry(job, n)
    case DeletingLock(job) => Finished(job)
    case GivingUp(job) => Finished(job)
    case Finished(_) => pc
  }

  function WorkerStep(cfg: Config, s: State, w: CallerId, reply: Reply, x: Choice): State
    requires w in s.workers
  {
    var pc := s.workers[w];
    var s' := if reply.Dropped? then s else WorkerEffect(cfg, s, pc, x);
    s'.(workers := s.workers[w := if reply.Delivered? then WorkerResume(s, pc, x) else WorkerCatch(pc)])
  }

  // ---------------------------------------------------------------- runs

  function Next(cfg: Config, s: State, e: Event): State {
    match e
    case Begin(c, r, v) => if c in s.callers then s else s.(callers := s.callers[c := Loading(r, v)])
    case Act(c, reply, x) => if c in s.callers then ActStep(cfg, s, c, reply, x) else s
    case Crash(c) =>
      if c in s.callers && !s.callers[c].Done? then s.(callers := s.callers[c := Done(s.callers[c].r, Crashed)]) else s
    case LockExpires(r) => s.(locks := s.locks - {r})
    case JobStarts(w, job) =>
      if w in s.workers || !RowFor(s, job.request, job.row) then s
      else s.(workers := s.workers[w := Reading(job, 1)])
    case WorkerActs(w, reply, x) => if w in s.workers then WorkerStep(cfg, s, w, reply, x) else s
  }

  function Run(cfg: Config, s: State, es: seq<Event>): State {
    if es == [] then s else Next(cfg, Run(cfg, s, es[..|es| - 1]), es[|es| - 1])
  }

  lemma RunSnoc(cfg: Config, s: State, es: seq<Event>, e: Event)
    ensures Run(cfg, s, es + [e]) == Next(cfg, Run(cfg, s, es), e)
  {
    assert (es + [e])[..|es + [e]| - 1] == es;
  }

  /** A run may be cut anywhere. */
  lemma {:induction false} RunAppend(cfg: Config, s: State, before: seq<Event>, after: seq<Event>)
    ensures Run(cfg, s, before + after) == Run(cfg, Run(cfg, s, before), after)
  {
    if after == [] {
      assert before + after == before;
    } else {
      RunAppend(cfg, s, before, after[..|after| - 1]);
      RunLast(cfg, s, before, after);
    }
  }

  lemma RunLast(cfg: Config, s: State, before: seq<Event>, after: seq<Event>)
    requires after != []
    ensures Run(cfg, s, before + after) == Next(cfg, Run(cfg, s, before + after[..|after| - 1]), after[|after| - 1])
  {
    assert (before + after)[..|before + after| - 1] == before + after[..|after| - 1];
  }
}
