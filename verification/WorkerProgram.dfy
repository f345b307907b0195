/** The confirmation worker in its own shape: one attempt polls the RPC endpoints in turn and persists the outcome; the
    queue repeats it up to ATTEMPTS times and then lets the failed handler give the job up. */
module WorkerProgram {
  import opened Prelude
  import opened SettleService
  import opened SettleServiceProgram
  import opened SettleServiceTheorems
  import WorkerTheorems

  predicate BySomeoneElseThan(e: Event, w: CallerId) {
    match e
    case WorkerActs(v, _, _) => v != w
    case _ => true
  }

  lemma OthersLeaveWorker(cfg: Config, s: State, e: Event, w: CallerId)
    requires BySomeoneElseThan(e, w) && w in s.workers
    ensures w in Next(cfg, s, e).workers && Next(cfg, s, e).workers[w] == s.workers[w]
  {
  }

  /** A job's start and the run `rest` of its attempts, put together. */
  lemma JobIsRun(cfg: Config, s: State, rest: seq<Event>, w: CallerId, job: Job)
    requires Receipted(s) && OwnersOk(s) && w !in s.workers && RowFor(s, job.request, job.row)
    requires var t := Run(cfg, Next(cfg, s, JobStarts(w, job)), rest); w in t.workers && t.workers[w] == Finished(job)
    ensures var s1 := Next(cfg, s, JobStarts(w, job));
            && Run(cfg, s, [JobStarts(w, job)] + rest) == Run(cfg, s1, rest)
            && Receipted(Run(cfg, s1, rest)) && OwnersOk(Run(cfg, s1, rest))
            && (WorkerTheorems.Undisturbed(cfg, s1, rest, w, job.row) ==>
                  WorkerTheorems.Decided(Run(cfg, s1, rest), job))
  {
    var start := JobStarts(w, job);
    var s1 := Next(cfg, s, start);
    OwnersStep(cfg, s, start);
    ReceiptedStep(cfg, s, start);
    ReceiptedFrom(cfg, s1, rest);
    if WorkerTheorems.Undisturbed(cfg, s1, rest, w, job.row) {
      WorkerTheorems.JobEndsDecided(cfg, s1, rest, w, job);
    }
    RunSnoc(cfg, s, [], start);
    assert [] + [start] == [start];
    RunAppend(cfg, s, [start], rest);
  }

  class SettlementWorker {
    const store: SettleStore

    constructor (store: SettleStore)
      ensures this.store == store
    {
      this.store := store;
    }

    method Others(w: CallerId, es: seq<Event>, ghost s0: State, ghost before: seq<Event>)
      returns (ghost trace: seq<Event>)
      requires store.View() == Run(store.cfg, s0, before) && w in store.workers
      modifies store
      ensures store.View() == Run(store.cfg, s0, trace) && w in store.workers
                && store.workers[w] == old(store.workers[w])
    {
      trace := before;
      for k := 0 to |es|
        invariant store.View() == Run(store.cfg, s0, trace)
        invariant w in store.workers && store.workers[w] == old(store.workers[w])
      {
        if BySomeoneElseThan(es[k], w) {
          RunSnoc(store.cfg, s0, trace, es[k]);
          OthersLeaveWorker(store.cfg, store.View(), es[k], w);
          store.Store(Next(store.cfg, store.View(), es[k]));
          trace := trace + [es[k]];
        }
      }
    }

    // -------------------------------------------------------------- the awaited commands

    /** db.paymentSettlement.findUnique: is the settlement confirmed or failed already? */
    method IsDecided(w: CallerId, t: Turn) returns (answer: Answer<bool>)
      requires w in store.workers && store.workers[w].Reading?
      modifies store`workers
      ensures store.View() == Next(store.cfg, old(store.View()), WorkerActs(w, t.reply, t.choice)) && w in store.workers
      ensures var pc := old(store.workers[w]);
              store.workers[w] == match answer
                                  case Thrown => Retry(pc.job, pc.attempt)
                                  case Ok(true) => Finished(pc.job)
                                  case Ok(false) => Polling(pc.job, pc.attempt)
    {
      var s, pc := store.View(), store.workers[w];
      var decided := pc.job.row < |store.rows| && !store.rows[pc.job.row].status.Processing?;
      answer := if t.reply.Delivered? then Ok(decided) else Thrown;
      store.workers := store.workers[w := if t.reply.Delivered? then WorkerResume(s, pc, t.choice)
            else WorkerCatch(pc)];
    }

    /** waitForTransactionReceipt on each client in turn: the first receipt any of them delivers, or none; `k` clients
        failed before it. */
    method Listen(w: CallerId, clients: seq<Turn>, ghost s0: State, ghost before: seq<Event>)
      returns (receipt: Poll, k: nat, ghost trace: seq<Event>)
      requires store.View() == Run(store.cfg, s0, before) && w in store.workers
      modifies store
      ensures store.View() == Run(store.cfg, s0, trace) && w in store.workers
                && store.workers[w] == old(store.workers[w])
      ensures FirstHeard(clients, k, receipt)
    {
      ghost var pc := store.workers[w];
      receipt, k, trace := Silent, 0, before;
      while k < |clients|
        invariant k <= |clients| && store.View() == Run(store.cfg, s0, trace)
        invariant w in store.workers && store.workers[w] == pc
        invariant receipt.Silent? && AllSilent(clients, k)
      {
        trace := Others(w, clients[k].others, s0, trace);
        receipt := Heard(clients[k]);
        if !receipt.Silent? { break; }
        k := k + 1;
      }
    }

    static predicate AllSilent(clients: seq<Turn>, k: nat) {
      forall i :: 0 <= i < k <= |clients| ==> Heard(clients[i]).Silent?
    }

    /** `receipt` is the answer of client `k`, the first to give one, or nobody gave one. */
    static predicate FirstHeard(clients: seq<Turn>, k: nat, receipt: Poll) {
      && k <= |clients|
      && AllSilent(clients, k)
      && if k == |clients| then receipt.Silent? else !receipt.Silent? && receipt == Heard(clients[k])
    }

    /** The polling part of an attempt. */
    method PollClients(w: CallerId, clients: seq<Turn>, ghost s0: State, ghost before: seq<Event>)
      returns (receipt: Poll, k: nat, ghost trace: seq<Event>)
      requires store.View() == Run(store.cfg, s0, before) && w in store.workers && store.workers[w].Polling?
      modifies store
      ensures store.View() == Run(store.cfg, s0, trace) && w in store.workers
      ensures var pc := old(store.workers[w]);
              store.workers[w] == match receipt
                                  case Success => Persisting(pc.job, pc.attempt)
                                  case Reverted => Reverting(pc.job, pc.attempt)
                                  case Silent => Retry(pc.job, pc.attempt)
      ensures FirstHeard(clients, k, receipt)
    {
      receipt, k, trace := Listen(w, clients, s0, before);
      var e := Note(w, receipt);
      RunSnoc(store.cfg, s0, trace, e);
      trace := trace + [e];
    }

    /** What the loop found decides how the attempt goes on. */
    method Note(w: CallerId, receipt: Poll) returns (e: Event)
      requires w in store.workers && store.workers[w].Polling?
      modifies store`workers
      ensures store.View() == Next(store.cfg, old(store.View()), e) && w in store.workers
      ensures var pc := old(store.workers[w]);
              store.workers[w] == match receipt
                                  case Success => Persisting(pc.job, pc.attempt)
                                  case Reverted => Reverting(pc.job, pc.attempt)
                                  case Silent => Retry(pc.job, pc.attempt)
    {
      var x := Choice(0, 0, 0, true, 0, receipt);
      e := WorkerActs(w, Delivered, x);
      store.workers := store.workers[w := WorkerResume(store.View(), store.workers[w], x)];
    }

    /** What one client's wait yields: a receipt, or an error or time-out. */
    static function Heard(t: Turn): Poll {
      if t.reply.Delivered? then t.choice.poll else Silent
    }

    /** db.paymentSettlement.update to failed: after a reverted receipt, and by the failed handler. */
    method MarkFailed(w: CallerId, t: Turn)
      requires w in store.workers && (store.workers[w].Reverting? || store.workers[w].GivingUp?)
      modifies store`workers, store`rows
      ensures store.View() == Next(store.cfg, old(store.View()), WorkerActs(w, t.reply, t.choice)) && w in store.workers
      ensures var pc := old(store.workers[w]);
              store.workers[w] == if pc.Reverting? then Retry(pc.job, pc.attempt) else Finished(pc.job)
    {
      var s, pc := store.View(), store.workers[w];
      var row := pc.job.row;
      if !t.reply.Dropped? && row < |store.rows| {
        store.rows := store.rows[row := store.rows[row].(status := Failed)];
      }
      store.workers := store.workers[w := if t.reply.Delivered? then WorkerResume(s, pc, t.choice)
            else WorkerCatch(pc)];
    }

    /** db.$transaction: confirm the row whatever its status, and create the receipt unless there is one. */
    method PersistConfirmed(w: CallerId, t: Turn) returns (answer: Answer<()>)
      requires w in store.workers && store.workers[w].Persisting?
      modifies store`workers, store`rows, store`receipts
      ensures store.View() == Next(store.cfg, old(store.View()), WorkerActs(w, t.reply, t.choice)) && w in store.workers
      ensures var pc := old(store.workers[w]);
              store.workers[w] == if answer.Ok? then DeletingLock(pc.job) else Retry(pc.job, pc.attempt)
      ensures answer.Ok? ==>
                var job := old(store.workers[w]).job;
                && job.row < |store.rows| && store.rows[job.row].status.Confirmed?
                && store.rows[job.row].details.Some? && store.rows[job.row].details.value.txHash == job.tx
                && job.request in store.receipts
                && store.receipts[job.request] == (if job.request in old(store.receipts)
                                                   then old(store.receipts)[job.request]
                                                   else Receipt(t.choice.id, job.row))
    {
      var s, pc, x := store.View(), store.workers[w], t.choice;
      var job := pc.job;
      var ok := CanPersist(s, job, x.id);
      answer := if ok && t.reply.Delivered? then Ok(()) else Thrown;
      if ok && !t.reply.Dropped? {
        store.rows := store.rows[job.row := Confirm(store.cfg, store.rows[job.row], job.tx, x.at)];
        if job.request !in store.receipts {
          store.receipts := store.receipts[job.request := Receipt(x.id, job.row)];
        }
      }
      store.workers := store.workers[w := if t.reply.Delivered? then WorkerResume(s, pc, x) else WorkerCatch(pc)];
    }

    /** DEL settle:lock:r; an error is swallowed. */
    method DeleteLock(w: CallerId, t: Turn)
      requires w in store.workers && store.workers[w].DeletingLock?
      modifies store`workers, store`locks
      ensures store.View() == Next(store.cfg, old(store.View()), WorkerActs(w, t.reply, t.choice)) && w in store.workers
      ensures store.workers[w] == Finished(old(store.workers[w]).job)
    {
      var pc := store.workers[w];
      if !t.reply.Dropped? { store.locks := store.locks - {pc.job.request}; }
      store.workers := store.workers[w := Finished(pc.job)];
    }

    // -------------------------------------------------------------- the program

    /** The outcome of one attempt once the receipt is there: persist and unlock, or mark failed and throw. */
    method Conclude(w: CallerId, receipt: Poll, sched: Schedule, at: nat, ghost s0: State, ghost before: seq<Event>)
      returns (ok: bool, ghost trace: seq<Event>)
      requires store.View() == Run(store.cfg, s0, before) && w in store.workers
      requires match receipt
               case Success => store.workers[w].Persisting?
               case Reverted => store.workers[w].Reverting?
               case Silent => false
      modifies store
      ensures store.View() == Run(store.cfg, s0, trace) && w in store.workers
      ensures var pc := old(store.workers[w]);
              store.workers[w] == if ok then Finished(pc.job) else Retry(pc.job, pc.attempt)
      ensures ok ==> receipt.Success?
    {
      trace := Others(w, sched(at).others, s0, before);
      RunSnoc(store.cfg, s0, trace, WorkerActs(w, sched(at).reply, sched(at).choice));
      if receipt.Reverted? {
        MarkFailed(w, sched(at));
        return false, trace + [WorkerActs(w, sched(at).reply, sched(at).choice)];
      }
      var persisted := PersistConfirmed(w, sched(at));
      trace := trace + [WorkerActs(w, sched(at).reply, sched(at).choice)];
      if persisted.Thrown? { return false, trace; }
      trace := Others(w, sched(at + 1).others, s0, trace);
      RunSnoc(store.cfg, s0, trace, WorkerActs(w, sched(at + 1).reply, sched(at + 1).choice));
      DeleteLock(w, sched(at + 1));
      trace := trace + [WorkerActs(w, sched(at + 1).reply, sched(at + 1).choice)];
      ok := true;
    }

    /** confirmSettlement: one attempt of the job; false when it throws. */
    method ConfirmSettlement(w: CallerId, clients: nat, sched: Schedule, at: nat, ghost s0: State,
          ghost before: seq<Event>)
      returns (ok: bool, ghost trace: seq<Event>)
      requires store.View() == Run(store.cfg, s0, before) && w in store.workers && store.workers[w].Reading?
      modifies store
      ensures store.View() == Run(store.cfg, s0, trace) && w in store.workers
      ensures var pc := old(store.workers[w]);
              store.workers[w] == if ok then Finished(pc.job) else Retry(pc.job, pc.attempt)
    {
      trace := Others(w, sched(at).others, s0, before);
      RunSnoc(store.cfg, s0, trace, WorkerActs(w, sched(at).reply, sched(at).choice));
      var decided := IsDecided(w, sched(at));
      trace := trace + [WorkerActs(w, sched(at).reply, sched(at).choice)];
      if decided.Thrown? { return false, trace; }
      if decided.value { return true, trace; }
      var receipt, k;
      receipt, k, trace := PollClients(w, seq(clients, i requires 0 <= i < clients => sched(at + 1 + i)), s0, trace);
      if receipt.Silent? { return false, trace; }
      ok, trace := Conclude(w, receipt, sched, at + 1 + clients, s0, trace);
    }

    /** The failed handler's write after the last attempt. */
    method GiveUp(w: CallerId, t: Turn, ghost s0: State, ghost before: seq<Event>) returns (ghost trace: seq<Event>)
      requires store.View() == Run(store.cfg, s0, before) && w in store.workers && store.workers[w].GivingUp?
      modifies store
      ensures store.View() == Run(store.cfg, s0, trace) && w in store.workers
      ensures store.workers[w] == Finished(old(store.workers[w]).job)
    {
      trace := Others(w, t.others, s0, before);
      RunSnoc(store.cfg, s0, trace, WorkerActs(w, t.reply, t.choice));
      MarkFailed(w, t);
      trace := trace + [WorkerActs(w, t.reply, t.choice)];
    }

    /** The queue's part: up to ATTEMPTS attempts, then the failed handler. */
    method Attempts(w: CallerId, clients: nat, sched: Schedule, ghost s0: State, ghost before: seq<Event>)
      returns (ghost trace: seq<Event>)
      requires store.View() == Run(store.cfg, s0, before) && w in store.workers
      requires store.workers[w] == Reading(store.workers[w].job, 1)
      modifies store
      ensures store.View() == Run(store.cfg, s0, trace) && w in store.workers
      ensures store.workers[w] == Finished(old(store.workers[w]).job)
    {
      ghost var job := store.workers[w].job;
      trace := before;
      var attempt: nat, at: nat := 1, 0;
      while attempt <= ATTEMPTS
        invariant 1 <= attempt <= ATTEMPTS + 1 && store.View() == Run(store.cfg, s0, trace)
        invariant w in store.workers
        invariant store.workers[w] == if attempt <= ATTEMPTS then Reading(job, attempt) else GivingUp(job)
      {
        var completed;
        completed, trace := ConfirmSettlement(w, clients, sched, at, s0, trace);
        if completed { return; }
        attempt, at := attempt + 1, at + clients + 3;
      }
      trace := GiveUp(w, sched(at), s0, trace);
    }

    /** One job from the queue. Whatever goes on in between and however its commands end, it ends finished, its
        effects are those of a run of the machine, and confirmed rows stay receipted; and when nobody else writes its
        row and the failed handler's write, if it comes to that, lands, the settlement ends confirmed with a receipt
        or failed. */
    method RunJob(w: CallerId, job: Job, clients: nat, sched: Schedule) returns (ghost trace: seq<Event>)
      requires store.Valid() && w !in store.workers && RowFor(store.View(), job.request, job.row)
      modifies store
      ensures store.Valid() && w in store.workers && store.workers[w] == Finished(job)
      ensures trace != [] && trace[0] == JobStarts(w, job) && store.View() == Run(store.cfg, old(store.View()), trace)
      ensures var s1 := Next(store.cfg, old(store.View()), trace[0]);
              WorkerTheorems.Undisturbed(store.cfg, s1, trace[1..], w, job.row) ==>
                    WorkerTheorems.Decided(store.View(), job)
    {
      ghost var s0 := store.View();
      store.workers := store.workers[w := Reading(job, 1)];
      ghost var s1 := store.View();
      assert s1 == Next(store.cfg, s0, JobStarts(w, job)) == Run(store.cfg, s1, []);
      trace := Attempts(w, clients, sched, s1, []);
      JobIsRun(store.cfg, s0, trace, w, job);
      trace := [JobStarts(w, job)] + trace;
    }
  }
}
