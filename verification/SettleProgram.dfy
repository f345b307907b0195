/** settlePayment in its own shape: one awaited command after another, with try, catch and finally, while every other
    caller, the key expiries and the chain go on between any two commands. What it returns is what the protocol of
    module SettlePayment says, so the theorems of module SettleTheorems are about this program. */
module SettleProgram {
  import opened Prelude
  import opened Registry
  import opened SettlePayment
  import opened SettleAnswers
  import Chain

  /** What happens around one await: the events of everybody else before it, and how its command ends. */
  datatype Turn = Turn(others: seq<Event>, reply: Reply, choice: Choice)

  type Schedule = nat -> Turn

  predicate BySomeoneElse(e: Event, c: CallerId) {
    match e
    case Begin(d, _, _) => d != c
    case Act(d, _, _) => d != c
    case Crash(d) => d != c
    case _ => true
  }

  lemma OthersLeavePc(cfg: Config, reqs: Requests, s: State, e: Event, c: CallerId)
    requires BySomeoneElse(e, c)
    ensures var t := Next(cfg, reqs, s, e);
            (c in t.callers <==> c in s.callers) && (c in s.callers ==> t.callers[c] == s.callers[c])
  {
  }

  class Facilitator {
    const cfg: Config
    const reqs: Requests
    var locks: set<RequestId>
    var rows: seq<Settlement>
    var receipts: map<RequestId, Receipt>
    var chain: Chain.State
    var callers: map<CallerId, Pc>
    var lost: set<nat>
    var sent: map<Chain.TxHash, CallerId>
    var heard: set<Chain.TxHash>

    constructor (cfg: Config, reqs: Requests)
      ensures View() == Init && this.cfg == cfg && this.reqs == reqs && Valid()
    {
      this.cfg, this.reqs := cfg, reqs;
      locks, rows, receipts, chain, callers, lost, sent, heard := {}, [], map[], Chain.Genesis, map[], {}, map[], {};
    }

    function View(): State
      reads this
    {
      State(locks, rows, receipts, chain, callers, lost, sent, heard)
    }

    method Store(s: State)
      modifies this
      ensures View() == s
    {
      locks, rows, receipts, chain := s.locks, s.rows, s.receipts, s.chain;
      callers, lost, sent, heard := s.callers, s.lost, s.sent, s.heard;
    }

    /** Everybody else's events before the next await of `c`. */
    method Others(c: CallerId, es: seq<Event>, ghost s0: State, ghost before: seq<Event>)
      returns (ghost trace: seq<Event>)
      requires View() == Run(cfg, reqs, s0, before)
      modifies this
      ensures View() == Run(cfg, reqs, s0, trace)
      ensures (c in callers) == (c in old(callers)) && (c in callers ==> callers[c] == old(callers[c]))
    {
      trace := before;
      for k := 0 to |es|
        invariant View() == Run(cfg, reqs, s0, trace)
        invariant (c in callers) == (c in old(callers)) && (c in callers ==> callers[c] == old(callers[c]))
      {
        if BySomeoneElse(es[k], c) {
          RunSnoc(cfg, reqs, s0, trace, es[k]);
          OthersLeavePc(cfg, reqs, View(), es[k], c);
          Store(Next(cfg, reqs, View(), es[k]));
          trace := trace + [es[k]];
        }
      }
    }

    // -------------------------------------------------------------- the awaited commands

    /** prisma.paymentRequest.findUnique with its accepted verifications. */
    method FindRequest(c: CallerId, t: Turn) returns (answer: Answer<Option<PaymentRequest>>, ghost e: Event)
      requires c in callers && callers[c].Loading?
      modifies this`callers
      ensures e == Act(c, t.reply, t.choice) && View() == Next(cfg, reqs, old(View()), e)
      ensures answer == if !t.reply.Delivered? then Thrown
                        else Ok(if old(callers[c]).r in reqs then Some(reqs[old(callers[c]).r]) else None)
    {
      e := Act(c, t.reply, t.choice);
      var pc := callers[c];
      answer := if !t.reply.Delivered? then Thrown else Ok(if pc.r in reqs then Some(reqs[pc.r]) else None);
      callers := callers[c := if t.reply.Delivered? then Resume(cfg, reqs, View(), pc, t.choice) else Catch(cfg, pc)];
    }

    /** prisma.paymentSettlement.findFirst for a confirmed row; which one is the database's choice. */
    method FindConfirmed(c: CallerId, t: Turn) returns (answer: Answer<Option<nat>>, ghost e: Event)
      requires c in callers && callers[c].Checking?
      modifies this`callers
      ensures e.Act? && e.c == c && View() == Next(cfg, reqs, old(View()), e)
      ensures answer.Thrown? ==> callers[c] == Catch(cfg, old(callers[c]))
      ensures answer.Ok? && answer.value.Some? ==>
                var i := answer.value.value;
                ConfirmedRow(View(), old(callers[c]).r, i)
                && callers[c] == Done(old(callers[c]).r, Settled(i, rows[i].txHash, ReceiptIdOf(View(), i), true))
      ensures answer.Ok? && answer.value.None? ==>
                callers[c] == Locking(old(callers[c]).r, old(callers[c]).referral)
                && forall i :: !ConfirmedRow(View(), old(callers[c]).r, i)
    {
      var pc := callers[c];
      var s := View();
      var pick := t.choice.pick;
      if !ConfirmedRow(s, pc.r, pick) {
        pick := 0;
        while pick < |rows| && !ConfirmedRow(s, pc.r, pick)
          invariant forall i :: 0 <= i < pick ==> !ConfirmedRow(s, pc.r, i)
        {
          pick := pick + 1;
        }
      }
      e := Act(c, t.reply, t.choice.(pick := pick));
      answer := if !t.reply.Delivered? then Thrown else Ok(if ConfirmedRow(s, pc.r, pick) then Some(pick) else None);
      callers := callers[c := if t.reply.Delivered? then Resume(cfg, reqs, s, pc, t.choice.(pick := pick))
            else Catch(cfg, pc)];
      assert forall i :: ConfirmedRow(View(), pc.r, i) <==> ConfirmedRow(s, pc.r, i);
    }

    /** SET settle_lock:r NX. */
    method SetLock(c: CallerId, t: Turn) returns (answer: Answer<bool>, ghost e: Event)
      requires c in callers && callers[c].Locking?
      modifies this`callers, this`locks
      ensures e == Act(c, t.reply, t.choice) && View() == Next(cfg, reqs, old(View()), e)
      ensures answer == if t.reply.Delivered? then Ok(old(callers[c]).r !in old(locks)) else Thrown
      ensures c in callers
      ensures var pc := old(callers[c]);
              callers[c] == match answer
                            case Thrown => Done(pc.r, Threw(StoreError))
                            case Ok(true) => Creating(pc.r, pc.referral)
                            case Ok(false) => Done(pc.r, InProgress)
    {
      e := Act(c, t.reply, t.choice);
      var pc := callers[c];
      answer := if t.reply.Delivered? then Ok(pc.r !in locks) else Thrown;
      callers := callers[c := if t.reply.Delivered? then Resume(cfg, reqs, View(), pc, t.choice) else Catch(cfg, pc)];
      if !t.reply.Dropped? { locks := locks + {pc.r}; }
    }

    /** prisma.paymentSettlement.create with status pending; the answer is the new row's id. */
    method CreatePending(c: CallerId, t: Turn) returns (answer: Answer<nat>, ghost e: Event)
      requires c in callers && callers[c].Creating?
      modifies this`callers, this`rows
      ensures e == Act(c, t.reply, t.choice) && View() == Next(cfg, reqs, old(View()), e)
      ensures answer == if t.reply.Delivered? then Ok(|old(rows)|) else Thrown
      ensures c in callers
      ensures var r := old(callers[c]).r;
              callers[c] == match answer
                            case Thrown => Done(r, Threw(StoreError))
                            case Ok(i) => if Submittable(cfg, reqs, r) then Attempt(cfg, r, i, 0) else Failing(r, i)
    {
      e := Act(c, t.reply, t.choice);
      var pc := callers[c];
      answer := if t.reply.Delivered? then Ok(|rows|) else Thrown;
      callers := callers[c := if t.reply.Delivered? then Resume(cfg, reqs, View(), pc, t.choice) else Catch(cfg, pc)];
      if !t.reply.Dropped? { rows := rows + [Settlement(pc.r, Pending, None, 0, 0, pc.referral, t.choice.at)]; }
    }

    /** walletClient.writeContract: the answer is the transaction hash. */
    method WriteContract(c: CallerId, call: Chain.Call, t: Turn) returns (answer: Answer<Chain.TxHash>, ghost e: Event)
      requires c in callers && callers[c].Submitting?
      requires Submittable(cfg, reqs, callers[c].r) && call == CallFor(cfg, reqs[callers[c].r])
      modifies this`callers, this`chain, this`sent
      ensures e == Act(c, t.reply, t.choice) && View() == Next(cfg, reqs, old(View()), e)
      ensures answer == if t.reply.Delivered? then Ok(|old(chain).txs|) else Thrown
      ensures c in callers
      ensures var pc := old(callers[c]);
              callers[c] == match answer
                            case Thrown => Attempt(cfg, pc.r, pc.row, pc.url + 1)
                            case Ok(tx) => Waiting(pc.r, pc.row, pc.url, tx)
    {
      e := Act(c, t.reply, t.choice);
      var pc := callers[c];
      answer := if t.reply.Delivered? then Ok(|chain.txs|) else Thrown;
      callers := callers[c := if t.reply.Delivered? then Resume(cfg, reqs, View(), pc, t.choice) else Catch(cfg, pc)];
      if !t.reply.Dropped? {
        sent := sent[|chain.txs| := c];
        chain := Chain.Broadcast(chain, call);
      }
    }

    /** publicClient.waitForTransactionReceipt: true for success, false for reverted, thrown on time-out. */
    method WaitForReceipt(c: CallerId, tx: Chain.TxHash, t: Turn) returns (answer: Answer<bool>, ghost e: Event)
      requires c in callers && callers[c].Waiting? && callers[c].tx == tx
      modifies this`callers, this`heard
      ensures e.Act? && e.c == c && View() == Next(cfg, reqs, old(View()), e)
      ensures answer.Ok? ==>
                tx < |chain.txs| && !chain.txs[tx].status.Mempool? && answer.value == chain.txs[tx].status.Success?
      ensures callers[c] == if answer.Ok? && answer.value then Confirming(old(callers[c]).r, old(callers[c]).row, tx)
                            else Attempt(cfg, old(callers[c]).r, old(callers[c]).row, old(callers[c]).url + 1)
    {
      var pc := callers[c];
      var mined := tx < |chain.txs| && !chain.txs[tx].status.Mempool?;
      var reply := if mined then t.reply else Dropped;
      e := Act(c, reply, t.choice);
      answer := if reply.Delivered? then Ok(chain.txs[tx].status.Success?) else Thrown;
      if answer == Ok(false) { heard := heard + {tx}; }
      callers := callers[c := if reply.Delivered? then Resume(cfg, reqs, View(), pc, t.choice) else Catch(cfg, pc)];
    }

    /** prisma.$transaction: confirm the row and create its receipt, or neither. */
    method ConfirmWithReceipt(c: CallerId, t: Turn) returns (answer: Answer<nat>, ghost e: Event)
      requires c in callers && callers[c].Confirming? && callers[c].r in reqs
      modifies this`callers, this`rows, this`receipts, this`lost
      ensures e == Act(c, t.reply, t.choice) && View() == Next(cfg, reqs, old(View()), e)
      ensures answer == if t.reply.Delivered?
                && CanConfirm(old(View()), old(callers[c]).r, old(callers[c]).row, old(callers[c]).tx, t.choice.freshId)
                        then Ok(t.choice.freshId) else Thrown
    {
      e := Act(c, t.reply, t.choice);
      var pc := callers[c];
      var ok := CanConfirm(View(), pc.r, pc.row, pc.tx, t.choice.freshId);
      answer := if t.reply.Delivered? && ok then Ok(t.choice.freshId) else Thrown;
      var pc' := if t.reply.Delivered? then Resume(cfg, reqs, View(), pc, t.choice) else Catch(cfg, pc);
      lost := lost + LostBy(View(), pc, t.reply, t.choice);
      if ok && !t.reply.Dropped? {
        rows := rows[pc.row := Confirm(cfg, reqs[pc.r], rows[pc.row], pc.tx)];
        receipts := receipts[pc.r := Receipt(t.choice.freshId, pc.row, pc.tx)];
      }
      callers := callers[c := pc'];
    }

    /** prisma.paymentSettlement.update to failed. */
    method MarkFailed(c: CallerId, t: Turn) returns (answer: Answer<()>, ghost e: Event)
      requires c in callers && callers[c].Failing?
      modifies this`callers, this`rows
      ensures e == Act(c, t.reply, t.choice) && View() == Next(cfg, reqs, old(View()), e)
      ensures answer == if t.reply.Delivered? then Ok(()) else Thrown
    {
      e := Act(c, t.reply, t.choice);
      var pc := callers[c];
      answer := if t.reply.Delivered? then Ok(()) else Thrown;
      if !t.reply.Dropped? && pc.row < |rows| { rows := rows[pc.row := rows[pc.row].(status := Failed)]; }
      callers := callers[c := if t.reply.Delivered? then Unlocking(pc.r) else Catch(cfg, pc)];
    }

    /** DEL settle_lock:r. */
    method DeleteLock(c: CallerId, t: Turn) returns (answer: Answer<()>, ghost e: Event)
      requires c in callers && (callers[c].Unlocking? || callers[c].Finally?)
      modifies this`callers, this`locks
      ensures e == Act(c, t.reply, t.choice) && View() == Next(cfg, reqs, old(View()), e)
      ensures answer == if t.reply.Delivered? then Ok(()) else Thrown
    {
      e := Act(c, t.reply, t.choice);
      var pc := callers[c];
      answer := if t.reply.Delivered? then Ok(()) else Thrown;
      if !t.reply.Dropped? { locks := locks - {pc.r}; }
      callers := callers[c := if t.reply.Delivered? then Resume(cfg, reqs, View(), pc, t.choice) else Catch(cfg, pc)];
    }

    // -------------------------------------------------------------- the program

    /** The wait for the block of one broadcast; a reverted transaction throws. */
    method AwaitBlock(c: CallerId, tx: Chain.TxHash, t: Turn, ghost s0: State, ghost before: seq<Event>)
      returns (succeeded: bool, ghost trace: seq<Event>)
      requires View() == Run(cfg, reqs, s0, before) && c in callers && callers[c].Waiting? && callers[c].tx == tx
      modifies this
      ensures View() == Run(cfg, reqs, s0, trace) && c in callers
      ensures var pc := old(callers[c]);
              callers[c] == if succeeded then Confirming(pc.r, pc.row, tx) else Attempt(cfg, pc.r, pc.row, pc.url + 1)
    {
      trace := Others(c, t.others, s0, before);
      var mined, e := WaitForReceipt(c, tx, t);
      RunSnoc(cfg, reqs, s0, trace, e);
      trace, succeeded := trace + [e], mined.Ok? && mined.value;
    }

    /** One RPC endpoint of submitOnChain: broadcast, then wait for the block. */
    method TryEndpoint(c: CallerId, call: Chain.Call, sched: Schedule, at: nat, ghost s0: State,
          ghost before: seq<Event>)
      returns (answer: Answer<Chain.TxHash>, next: nat, ghost trace: seq<Event>)
      requires View() == Run(cfg, reqs, s0, before) && c in callers && callers[c].Submitting?
      requires Submittable(cfg, reqs, callers[c].r) && call == CallFor(cfg, reqs[callers[c].r])
      modifies this
      ensures View() == Run(cfg, reqs, s0, trace) && c in callers
      ensures var pc := old(callers[c]);
              callers[c] == match answer
                            case Ok(tx) => Confirming(pc.r, pc.row, tx)
                            case Thrown => Attempt(cfg, pc.r, pc.row, pc.url + 1)
    {
      answer := Thrown;
      trace := Others(c, sched(at).others, s0, before);
      var sent, e := WriteContract(c, call, sched(at));
      RunSnoc(cfg, reqs, s0, trace, e);
      trace, next := trace + [e], at + 1;
      if sent.Thrown? { return; }
      var mined;
      mined, trace := AwaitBlock(c, sent.value, sched(next), s0, trace);
      next := next + 1;
      if mined { answer := sent; }
    }

    /** submitOnChain: each RPC endpoint in turn until one transaction succeeds. */
    method SubmitOnChain(c: CallerId, call: Chain.Call, sched: Schedule, at: nat, ghost s0: State,
          ghost before: seq<Event>)
      returns (answer: Answer<Chain.TxHash>, next: nat, ghost trace: seq<Event>)
      requires View() == Run(cfg, reqs, s0, before)
      requires c in callers && Submittable(cfg, reqs, callers[c].r) && call == CallFor(cfg, reqs[callers[c].r])
      requires callers[c].Submitting? || callers[c].Failing?
      requires callers[c] == Attempt(cfg, callers[c].r, callers[c].row, 0)
      modifies this
      ensures View() == Run(cfg, reqs, s0, trace) && c in callers
      ensures callers[c] == match answer
                            case Ok(tx) => Confirming(old(callers[c]).r, old(callers[c]).row, tx)
                            case Thrown => Failing(old(callers[c]).r, old(callers[c]).row)
    {
      ghost var pc := callers[c];
      trace, next, answer := before, at, Thrown;
      var url := 0;
      while url < cfg.rpcUrls
        invariant url <= cfg.rpcUrls && View() == Run(cfg, reqs, s0, trace)
        invariant c in callers && callers[c] == Attempt(cfg, pc.r, pc.row, url)
        invariant answer.Thrown?
      {
        answer, next, trace := TryEndpoint(c, call, sched, next, s0, trace);
        if answer.Ok? { return; }
        url := url + 1;
      }
    }

    /** The catch block: mark the row failed, delete the lock, throw settlement_failed. */
    method CatchBlock(c: CallerId, sched: Schedule, at: nat, ghost s0: State, ghost before: seq<Event>)
      returns (thrown: Outcome, next: nat, ghost trace: seq<Event>)
      requires View() == Run(cfg, reqs, s0, before)
      requires c in callers && callers[c].Failing?
      modifies this
      ensures View() == Run(cfg, reqs, s0, trace)
      ensures c in callers && callers[c] == Finally(old(callers[c]).r, thrown) && thrown.Threw?
    {
      ghost var e;
      trace := Others(c, sched(at).others, s0, before);
      var marked;
      marked, e := MarkFailed(c, sched(at));
      RunSnoc(cfg, reqs, s0, trace, e);
      trace, next := trace + [e], at + 1;
      if marked.Thrown? {
        return Threw(StoreError), next, trace;
      }
      trace := Others(c, sched(next).others, s0, trace);
      var deleted;
      deleted, e := DeleteLock(c, sched(next));
      RunSnoc(cfg, reqs, s0, trace, e);
      trace, next := trace + [e], next + 1;
      thrown := if deleted.Thrown? then Threw(StoreError) else Threw(SettlementFailed);
    }

    /** The try block: submit, then confirm with a receipt. A failed transaction or submission lands in the catch
        block. */
    method TryBlock(c: CallerId, row: nat, sched: Schedule, at: nat, ghost s0: State, ghost before: seq<Event>)
      returns (result: Outcome, next: nat, ghost trace: seq<Event>)
      requires View() == Run(cfg, reqs, s0, before)
      requires c in callers && (callers[c].Submitting? || callers[c].Failing?) && callers[c].row == row
      requires var r := callers[c].r;
               callers[c] == if Submittable(cfg, reqs, r) then Attempt(cfg, r, row, 0) else Failing(r, row)
      requires callers[c].r in reqs && |reqs[callers[c].r].accepted| > 0
      requires Inv(cfg, reqs, s0) && c !in s0.callers
      modifies this
      ensures View() == Run(cfg, reqs, s0, trace)
      ensures c in callers && callers[c] == Finally(old(callers[c]).r, result)
      ensures AnswersTo(result, Told(cfg, reqs, s0, trace, c))
      ensures result.Settled? <==> EverWroteReceipt(cfg, reqs, s0, trace, c)
    {
      result, next, trace := SubmitAndConfirm(c, row, sched, at, s0, before);
      FateRun(cfg, reqs, s0, trace, c);
      ToldOfReceipt(cfg, reqs, s0, trace, c);
    }

    method SubmitAndConfirm(c: CallerId, row: nat, sched: Schedule, at: nat, ghost s0: State,
          ghost before: seq<Event>)
      returns (result: Outcome, next: nat, ghost trace: seq<Event>)
      requires View() == Run(cfg, reqs, s0, before)
      requires c in callers && (callers[c].Submitting? || callers[c].Failing?) && callers[c].row == row
      requires var r := callers[c].r;
               callers[c] == if Submittable(cfg, reqs, r) then Attempt(cfg, r, row, 0) else Failing(r, row)
      requires callers[c].r in reqs && |reqs[callers[c].r].accepted| > 0
      modifies this
      ensures View() == Run(cfg, reqs, s0, trace)
      ensures c in callers && callers[c] == Finally(old(callers[c]).r, result)
      ensures result.Settled? ==> !result.idempotent
    {
      var r := callers[c].r;
      trace, next := before, at;
      if Submittable(cfg, reqs, r) {
        var submitted;
        submitted, next, trace := SubmitOnChain(c, CallFor(cfg, reqs[r]), sched, next, s0, trace);
        if submitted.Ok? {
          ghost var e;
          trace := Others(c, sched(next).others, s0, trace);
          var confirmed;
          confirmed, e := ConfirmWithReceipt(c, sched(next));
          RunSnoc(cfg, reqs, s0, trace, e);
          trace, next := trace + [e], next + 1;
          if confirmed.Ok? {
            return Settled(row, Some(submitted.value), Some(confirmed.value), false), next, trace;
          }
        }
      }
      result, next, trace := CatchBlock(c, sched, next, s0, trace);
    }

    /** Steps 1 to 3: load the request, require a verification, answer from an existing settlement. */
    method Prologue(c: CallerId, r: RequestId, referral: Option<string>, sched: Schedule, ghost s0: State)
      returns (early: Option<Outcome>, ghost trace: seq<Event>)
      requires c !in callers && s0 == View()
      modifies this
      ensures View() == Run(cfg, reqs, s0, trace) && c in callers
      ensures callers[c] == match early case Some(o) => Done(r, o) case None => Locking(r, referral)
      ensures early.Some? ==> !early.value.Crashed?
      ensures early.None? ==> r in reqs && |reqs[r].accepted| > 0
    {
      ghost var e := Begin(c, r, referral);
      assert View() == Run(cfg, reqs, s0, []);
      RunSnoc(cfg, reqs, s0, [], e);
      callers := callers[c := Loading(r, referral)];
      trace := Others(c, sched(0).others, s0, [] + [e]);
      var request;
      request, e := FindRequest(c, sched(0));
      RunSnoc(cfg, reqs, s0, trace, e);
      trace := trace + [e];
      if request.Thrown? { return Some(Threw(StoreError)), trace; }
      if request.value.None? || |request.value.value.accepted| == 0 { return Some(Threw(VerificationRequired)), trace; }

      trace := Others(c, sched(1).others, s0, trace);
      var existing;
      existing, e := FindConfirmed(c, sched(1));
      RunSnoc(cfg, reqs, s0, trace, e);
      trace := trace + [e];
      match existing
      case Thrown => early := Some(Threw(StoreError));
      case Ok(Some(i)) => early := Some(Settled(i, rows[i].txHash, ReceiptIdOf(View(), i), true));
      case Ok(None) => early := None;
    }

    /** Steps 4 and 5: take the lock and persist the pending row. */
    method Acquire(c: CallerId, sched: Schedule, ghost s0: State, ghost before: seq<Event>)
      returns (row: Option<nat>, early: Outcome, ghost trace: seq<Event>)
      requires View() == Run(cfg, reqs, s0, before) && c in callers && callers[c].Locking?
      modifies this
      ensures View() == Run(cfg, reqs, s0, trace) && c in callers
      ensures var r := old(callers[c]).r;
              callers[c] == match row
                            case None => Done(r, early)
                            case Some(i) => if Submittable(cfg, reqs, r) then Attempt(cfg, r, i, 0) else Failing(r, i)
      ensures !early.Crashed?
    {
      ghost var e;
      row, early := None, Threw(StoreError);
      trace := Others(c, sched(2).others, s0, before);
      var locked;
      locked, e := SetLock(c, sched(2));
      RunSnoc(cfg, reqs, s0, trace, e);
      trace := trace + [e];
      if locked.Thrown? { return; }
      if !locked.value { early := InProgress; return; }

      trace := Others(c, sched(3).others, s0, trace);
      var created;
      created, e := CreatePending(c, sched(3));
      RunSnoc(cfg, reqs, s0, trace, e);
      trace := trace + [e];
      if created.Ok? { row := Some(created.value); }
    }

    /** The finally block: delete the lock whatever happened; an error of this DEL is swallowed. */
    method FinallyBlock(c: CallerId, t: Turn, ghost s0: State, ghost before: seq<Event>)
      returns (ghost trace: seq<Event>)
      requires View() == Run(cfg, reqs, s0, before) && c in callers && callers[c].Finally?
      modifies this
      ensures View() == Run(cfg, reqs, s0, trace)
      ensures c in callers && callers[c] == Done(old(callers[c]).r, old(callers[c]).result)
    {
      trace := Others(c, t.others, s0, before);
      var _, e := DeleteLock(c, t);
      RunSnoc(cfg, reqs, s0, trace, e);
      trace := trace + [e];
    }

    method Execute(c: CallerId, r: RequestId, referral: Option<string>, sched: Schedule)
      returns (result: Outcome, ghost trace: seq<Event>)
      requires c !in callers && Valid()
      modifies this
      ensures View() == Run(cfg, reqs, old(View()), trace)
      ensures c in callers && callers[c] == Done(r, result) && !result.Crashed?
    {
      ghost var s0 := View();
      var early, row, next;
      early, trace := Prologue(c, r, referral, sched, s0);
      if early.Some? { return early.value, trace; }
      row, result, trace := Acquire(c, sched, s0, trace);
      if row.None? { return; }
      result, next, trace := TryBlock(c, row.value, sched, 4, s0, trace);
      trace := FinallyBlock(c, sched(next), s0, trace);
    }

    /** The stores and the callers are as some run of the protocol leaves them. */
    ghost predicate Valid()
      reads this
    {
      Inv(cfg, reqs, View())
    }

    /** settlePayment. Whatever the others do between its awaits, and however its commands end, the stores end as one
        run of the protocol leaves them, and a successful answer is the request's receipt: the confirmed row's id, and
        the hash of a transfer that succeeded on chain with exactly this request's arguments. What it answers is what
        the run told it; a fresh settlement if and only if its own confirming transaction wrote the receipt. */
    method SettlePayment(c: CallerId, r: RequestId, referral: Option<string>, sched: Schedule)
      returns (result: Outcome, ghost trace: seq<Event>)
      requires Valid() && c !in callers
      modifies this
      ensures Valid()
      ensures View() == Run(cfg, reqs, old(View()), trace) && c in callers && callers[c] == Done(r, result)
      ensures result.Settled? ==>
                && r in receipts && Submittable(cfg, reqs, r)
                && result.settlement == receipts[r].settlement && result.receiptId == Some(receipts[r].id)
                && result.txHash == Some(receipts[r].txHash)
                && Chain.Succeeded(chain, receipts[r].txHash)
                && chain.txs[receipts[r].txHash].call == CallFor(cfg, reqs[r])
      ensures AnswersTo(result, Told(cfg, reqs, old(View()), trace, c))
      ensures result.Settled? && !result.idempotent <==> EverWroteReceipt(cfg, reqs, old(View()), trace, c)
    {
      ghost var s0 := View();
      result, trace := Execute(c, r, referral, sched);
      RunKeeps(cfg, reqs, s0, trace);
      FreshAnswerExactly(cfg, reqs, s0, trace, c);
      AnswersExactly(cfg, reqs, s0, trace, c);
      assert PcOk(cfg, reqs, View(), callers[c]);
    }
  }
}
