/** runSettle in its own shape, while other calls, workers, crashes and lock expiries come in between its awaits. What
    it returns, and what it leaves in the stores, is a run of the machine in module SettleService. */
module SettleServiceProgram {
  import opened Prelude
  import opened SettleService
  import opened SettleServiceTheorems
  import Replies = SettleServiceReplies
  import Answers = SettleServiceAnswers

  /** Everybody else's events before one await, how its command ends, and what the environment chooses. */
  datatype Turn = Turn(others: seq<Event>, reply: Reply, choice: Choice)

  type Schedule = nat -> Turn

  predicate BySomeoneElse(e: Event, c: CallerId) {
    match e
    case Begin(d, _, _) => d != c
    case Act(d, _, _) => d != c
    case Crash(d) => d != c
    case _ => true
  }

  lemma OthersLeavePc(cfg: Config, s: State, e: Event, c: CallerId)
    requires BySomeoneElse(e, c)
    ensures var t := Next(cfg, s, e);
            (c in t.callers <==> c in s.callers) && (c in s.callers ==> t.callers[c] == s.callers[c])
  {
  }

  class SettleStore {
    const cfg: Config
    var locks: set<RequestId>
    var rows: seq<Row>
    var receipts: map<RequestId, Receipt>
    var callers: map<CallerId, Pc>
    var workers: map<CallerId, WorkerPc>
    var submits: multiset<RequestId>

    constructor (cfg: Config)
      ensures this.cfg == cfg && View() == Init && Valid()
    {
      this.cfg := cfg;
      locks, rows, receipts, callers, workers, submits := {}, [], map[], map[], map[], multiset{};
    }

    function View(): State
      reads this
    {
      State(locks, rows, receipts, callers, workers, submits)
    }

    method Store(s: State)
      modifies this
      ensures View() == s
    {
      locks, rows, receipts, callers, workers, submits := s.locks, s.rows, s.receipts, s.callers, s.workers, s.submits;
    }

    method Others(c: CallerId, es: seq<Event>, ghost s0: State, ghost before: seq<Event>)
      returns (ghost trace: seq<Event>)
      requires View() == Run(cfg, s0, before) && c in callers
      modifies this
      ensures View() == Run(cfg, s0, trace) && c in callers && callers[c] == old(callers[c])
    {
      trace := before;
      for k := 0 to |es|
        invariant View() == Run(cfg, s0, trace) && c in callers && callers[c] == old(callers[c])
      {
        if BySomeoneElse(es[k], c) {
          RunSnoc(cfg, s0, trace, es[k]);
          OthersLeavePc(cfg, View(), es[k], c);
          Store(Next(cfg, View(), es[k]));
          trace := trace + [es[k]];
        }
      }
    }

    // -------------------------------------------------------------- the awaited commands

    /** The caller resumes or catches; a command's own effect is written by the method that awaits it. */
    method Return(c: CallerId, t: Turn, s: State)
      requires c in callers && c in s.callers && callers == s.callers
      modifies this`callers
      ensures callers == s.callers[c := if t.reply.Delivered? then Resume(cfg, s, s.callers[c], t.choice)
                else Catch(s.callers[c])]
    {
      callers := callers[c := if t.reply.Delivered? then Resume(cfg, s, callers[c], t.choice) else Catch(callers[c])];
    }

    /** db.paymentVerification.findFirst: is this verification of this request accepted? */
    method FindVerification(c: CallerId, t: Turn) returns (answer: Answer<bool>)
      requires c in callers && callers[c].Loading?
      modifies this`callers
      ensures View() == Next(cfg, old(View()), Act(c, t.reply, t.choice))
      ensures answer == if t.reply.Delivered?
                then Ok((old(callers[c]).verification, old(callers[c]).r) in cfg.accepted) else Thrown
    {
      answer := if t.reply.Delivered? then Ok((callers[c].verification, callers[c].r) in cfg.accepted) else Thrown;
      Return(c, t, View());
    }

    /** db.paymentSettlement.findFirst for the request, whatever its status; which row is the database's choice. */
    method FindExisting(c: CallerId, t: Turn) returns (answer: Answer<Option<nat>>, ghost e: Event)
      requires c in callers && callers[c].Checking?
      modifies this`callers
      ensures e.Act? && e.c == c && View() == Next(cfg, old(View()), e)
      ensures answer.Thrown? ==> callers[c] == Done(old(callers[c]).r, Threw)
      ensures answer.Ok? && answer.value.Some? ==>
                RowFor(View(), old(callers[c]).r, answer.value.value)
                && callers[c] == Done(old(callers[c]).r, Existing(View(), answer.value.value))
      ensures answer.Ok? && answer.value.None? ==>
                callers[c] == Locking(old(callers[c]).r) && forall i :: !RowFor(View(), old(callers[c]).r, i)
    {
      var s := View();
      var r, pick := callers[c].r, t.choice.pick;
      if !RowFor(s, r, pick) {
        pick := 0;
        while pick < |rows| && !RowFor(s, r, pick)
          invariant forall i :: 0 <= i < pick ==> !RowFor(s, r, i)
        {
          pick := pick + 1;
        }
      }
      e := Act(c, t.reply, t.choice.(pick := pick));
      answer := if !t.reply.Delivered? then Thrown else Ok(if RowFor(s, r, pick) then Some(pick) else None);
      callers := callers[c := if t.reply.Delivered? then Resume(cfg, s, callers[c], t.choice.(pick := pick))
            else Catch(callers[c])];
      assert forall i :: RowFor(View(), r, i) <==> RowFor(s, r, i);
    }

    /** SET settle:lock:r EX 300 NX. */
    method SetLock(c: CallerId, t: Turn) returns (answer: Answer<bool>)
      requires c in callers && callers[c].Locking?
      modifies this`callers, this`locks
      ensures View() == Next(cfg, old(View()), Act(c, t.reply, t.choice))
      ensures answer == if t.reply.Delivered? then Ok(old(callers[c]).r !in old(locks)) else Thrown
      ensures c in callers
      ensures callers[c] == match answer
                            case Thrown => Done(old(callers[c]).r, Threw)
                            case Ok(true) => Creating(old(callers[c]).r)
                            case Ok(false) => Done(old(callers[c]).r, Rejected(SettlementPending))
    {
      var s, r := View(), callers[c].r;
      answer := if t.reply.Delivered? then Ok(r !in locks) else Thrown;
      if !t.reply.Dropped? { locks := locks + {r}; }
      Return(c, t, s);
    }

    /** db.paymentSettlement.create with status processing; the answer is the new row's id. */
    method CreateProcessing(c: CallerId, t: Turn) returns (answer: Answer<nat>)
      requires c in callers && callers[c].Creating?
      modifies this`callers, this`rows
      ensures View() == Next(cfg, old(View()), Act(c, t.reply, t.choice))
      ensures answer == if t.reply.Delivered? then Ok(|old(rows)|) else Thrown
      ensures c in callers
      ensures callers[c] == if answer.Thrown? then Done(old(callers[c]).r, Threw)
                            else if t.choice.configured then Submitting(old(callers[c]).r, |old(rows)|)
                            else Failing(old(callers[c]).r, |old(rows)|)
    {
      var s, r := View(), callers[c].r;
      answer := if t.reply.Delivered? then Ok(|rows|) else Thrown;
      if !t.reply.Dropped? { rows := rows + [Row(r, Processing, None)]; }
      Return(c, t, s);
    }

    /** submitOnChain: a transaction hash, or an exception. */
    method SubmitOnChain(c: CallerId, t: Turn) returns (answer: Answer<TxHash>)
      requires c in callers && callers[c].Submitting?
      modifies this`callers, this`submits
      ensures View() == Next(cfg, old(View()), Act(c, t.reply, t.choice))
      ensures answer == if t.reply.Delivered? then Ok(t.choice.tx) else Thrown
    {
      var s, r := View(), callers[c].r;
      submits := submits + multiset{r};
      answer := if t.reply.Delivered? then Ok(t.choice.tx) else Thrown;
      Return(c, t, s);
    }

    /** db.$transaction: confirm the row and create its receipt, or neither. */
    method ConfirmWithReceipt(c: CallerId, t: Turn) returns (answer: Answer<Response>)
      requires c in callers && callers[c].Confirming?
      modifies this`callers, this`rows, this`receipts
      ensures View() == Next(cfg, old(View()), Act(c, t.reply, t.choice))
      ensures answer.Ok? ==> callers[c] == Unlocking(old(callers[c]).r, old(callers[c]).row, answer.value)
      ensures answer.Thrown? ==> callers[c] == Failing(old(callers[c]).r, old(callers[c]).row)
      ensures answer.Ok? ==>
                var pc := old(callers[c]);
                && pc.row < |rows| && rows[pc.row].status.Confirmed? && pc.r !in old(receipts) && pc.r in receipts
                && receipts[pc.r] == Receipt(t.choice.id, pc.row)
                && answer.value == Settled(pc.row, rows[pc.row].details, Some(receipts[pc.r].id))
    {
      var s, pc, x := View(), callers[c], t.choice;
      answer := Thrown;
      if CanConfirm(s, pc.r, pc.row, pc.tx, x.id) {
        var confirmed := Confirm(cfg, rows[pc.row], pc.tx, x.at);
        if t.reply.Delivered? { answer := Ok(Settled(pc.row, confirmed.details, Some(x.id))); }
        if !t.reply.Dropped? {
          rows := rows[pc.row := confirmed];
          receipts := receipts[pc.r := Receipt(x.id, pc.row)];
        }
      }
      Return(c, t, s);
    }

    /** DEL settle:lock:r. */
    method DeleteLock(c: CallerId, t: Turn) returns (answer: Answer<()>)
      requires c in callers && (callers[c].Unlocking? || callers[c].LastUnlock?)
      modifies this`callers, this`locks
      ensures View() == Next(cfg, old(View()), Act(c, t.reply, t.choice))
      ensures answer == if t.reply.Delivered? then Ok(()) else Thrown
      ensures c in callers
      ensures var pc := old(callers[c]);
              callers[c] == if pc.LastUnlock? then Done(pc.r, Rejected(SettlementFailed))
                            else if answer.Ok? then Done(pc.r, pc.response) else Failing(pc.r, pc.row)
    {
      var s, r := View(), callers[c].r;
      answer := if t.reply.Delivered? then Ok(()) else Thrown;
      if !t.reply.Dropped? { locks := locks - {r}; }
      Return(c, t, s);
    }

    /** db.paymentSettlement.update to failed; an error is swallowed. */
    method MarkFailed(c: CallerId, t: Turn)
      requires c in callers && callers[c].Failing?
      modifies this`callers, this`rows
      ensures View() == Next(cfg, old(View()), Act(c, t.reply, t.choice))
      ensures c in callers && callers[c] == LastUnlock(old(callers[c]).r)
    {
      var s, row := View(), callers[c].row;
      if !t.reply.Dropped? && row < |rows| { rows := rows[row := rows[row].(status := Failed)]; }
      Return(c, t, s);
    }

    // -------------------------------------------------------------- the program

    /** The catch block: mark the row failed, delete the lock, whatever either of them answers. */
    method CatchBlock(c: CallerId, sched: Schedule, at: nat, ghost s0: State, ghost before: seq<Event>)
      returns (response: Response, ghost trace: seq<Event>)
      requires View() == Run(cfg, s0, before) && c in callers && callers[c].Failing?
      modifies this
      ensures View() == Run(cfg, s0, trace) && c in callers && callers[c] == Done(old(callers[c]).r, response)
      ensures response == Rejected(SettlementFailed)
    {
      trace := Others(c, sched(at).others, s0, before);
      RunSnoc(cfg, s0, trace, Act(c, sched(at).reply, sched(at).choice));
      MarkFailed(c, sched(at));
      trace := trace + [Act(c, sched(at).reply, sched(at).choice)];
      trace := Others(c, sched(at + 1).others, s0, trace);
      RunSnoc(cfg, s0, trace, Act(c, sched(at + 1).reply, sched(at + 1).choice));
      var _ := DeleteLock(c, sched(at + 1));
      trace := trace + [Act(c, sched(at + 1).reply, sched(at + 1).choice)];
      response := Rejected(SettlementFailed);
    }

    /** The confirming half of the try block: the transaction, then the DEL, both of which may land in the catch
        block. */
    method ConfirmAndUnlock(c: CallerId, sched: Schedule, at: nat, ghost s0: State, ghost before: seq<Event>)
      returns (done: Option<Response>, ghost trace: seq<Event>)
      requires View() == Run(cfg, s0, before) && c in callers && callers[c].Confirming?
      modifies this
      ensures View() == Run(cfg, s0, trace) && c in callers
      ensures var pc := old(callers[c]);
              callers[c] == match done case Some(response) => Done(pc.r, response) case None => Failing(pc.r, pc.row)
      ensures done.Some? ==> done.value.Settled? && done.value.settlement == old(callers[c]).row
    {
      done := None;
      trace := Others(c, sched(at).others, s0, before);
      RunSnoc(cfg, s0, trace, Act(c, sched(at).reply, sched(at).choice));
      var confirmed := ConfirmWithReceipt(c, sched(at));
      trace := trace + [Act(c, sched(at).reply, sched(at).choice)];
      if confirmed.Thrown? { return; }
      trace := Others(c, sched(at + 1).others, s0, trace);
      RunSnoc(cfg, s0, trace, Act(c, sched(at + 1).reply, sched(at + 1).choice));
      var deleted := DeleteLock(c, sched(at + 1));
      trace := trace + [Act(c, sched(at + 1).reply, sched(at + 1).choice)];
      if deleted.Ok? { done := Some(confirmed.value); }
    }

    method TryBlock(c: CallerId, configured: bool, sched: Schedule, ghost s0: State, ghost before: seq<Event>)
      returns (response: Response, ghost trace: seq<Event>)
      requires View() == Run(cfg, s0, before) && c in callers
      requires if configured then callers[c].Submitting? else callers[c].Failing?
      modifies this
      ensures View() == Run(cfg, s0, trace) && c in callers && callers[c] == Done(old(callers[c]).r, response)
      ensures response.Settled? ==> response.settlement == old(callers[c]).row
      ensures response.Settled? || response == Rejected(SettlementFailed)
    {
      trace := before;
      if configured {
        trace := Others(c, sched(4).others, s0, trace);
        RunSnoc(cfg, s0, trace, Act(c, sched(4).reply, sched(4).choice));
        var submitted := SubmitOnChain(c, sched(4));
        trace := trace + [Act(c, sched(4).reply, sched(4).choice)];
        if submitted.Ok? {
          var done;
          done, trace := ConfirmAndUnlock(c, sched, 5, s0, trace);
          if done.Some? { return done.value, trace; }
        }
      }
      response, trace := CatchBlock(c, sched, 7, s0, trace);
    }

    /** Step 1: the accepted verification. */
    method Admit(c: CallerId, r: RequestId, verification: string, sched: Schedule, ghost s0: State)
      returns (early: Option<Response>, ghost trace: seq<Event>)
      requires c !in callers && s0 == View()
      modifies this
      ensures View() == Run(cfg, s0, trace) && c in callers
      ensures callers[c] == match early case Some(response) => Done(r, response) case None => Checking(r)
      ensures early.Some? ==> !early.value.Crashed?
      ensures early.None? ==> (verification, r) in cfg.accepted
    {
      assert s0 == Run(cfg, s0, []);
      RunSnoc(cfg, s0, [], Begin(c, r, verification));
      callers := callers[c := Loading(r, verification)];
      trace := Others(c, sched(0).others, s0, [] + [Begin(c, r, verification)]);
      RunSnoc(cfg, s0, trace, Act(c, sched(0).reply, sched(0).choice));
      var accepted := FindVerification(c, sched(0));
      trace := trace + [Act(c, sched(0).reply, sched(0).choice)];
      if accepted.Thrown? { return Some(Threw), trace; }
      early := if accepted.value then None else Some(Rejected(VerificationNotFound));
    }

    /** Steps 1 and 2: the accepted verification, and the idempotent replies. */
    method Prologue(c: CallerId, r: RequestId, verification: string, sched: Schedule, ghost s0: State)
      returns (early: Option<Response>, ghost trace: seq<Event>)
      requires c !in callers && s0 == View()
      modifies this
      ensures View() == Run(cfg, s0, trace) && c in callers
      ensures callers[c] == match early case Some(response) => Done(r, response) case None => Locking(r)
      ensures early.Some? ==> !early.value.Crashed?
      ensures early.None? ==> (verification, r) in cfg.accepted
    {
      early, trace := Admit(c, r, verification, sched, s0);
      if early.Some? { return; }
      trace := Others(c, sched(1).others, s0, trace);
      var existing, e := FindExisting(c, sched(1));
      RunSnoc(cfg, s0, trace, e);
      trace := trace + [e];
      match existing
      case Thrown => early := Some(Threw);
      case Ok(Some(i)) => early := Some(Existing(View(), i));
      case Ok(None) => early := None;
    }

    /** Steps 3 and 4: the lock and the processing row; both awaits are outside the try block, so they may throw. */
    method Acquire(c: CallerId, sched: Schedule, ghost s0: State, ghost before: seq<Event>)
      returns (early: Option<Response>, ghost trace: seq<Event>)
      requires View() == Run(cfg, s0, before) && c in callers && callers[c].Locking?
      modifies this
      ensures View() == Run(cfg, s0, trace) && c in callers && callers[c].r == old(callers[c]).r
      ensures early.Some? ==> callers[c] == Done(old(callers[c]).r, early.value)
      ensures early.Some? ==> !early.value.Settled? && !early.value.Crashed?
      ensures early.None? ==> if sched(3).choice.configured then callers[c].Submitting? else callers[c].Failing?
    {
      trace := Others(c, sched(2).others, s0, before);
      RunSnoc(cfg, s0, trace, Act(c, sched(2).reply, sched(2).choice));
      var locked := SetLock(c, sched(2));
      trace := trace + [Act(c, sched(2).reply, sched(2).choice)];
      if locked.Thrown? { return Some(Threw), trace; }
      if !locked.value { return Some(Rejected(SettlementPending)), trace; }

      trace := Others(c, sched(3).others, s0, trace);
      RunSnoc(cfg, s0, trace, Act(c, sched(3).reply, sched(3).choice));
      var created := CreateProcessing(c, sched(3));
      trace := trace + [Act(c, sched(3).reply, sched(3).choice)];
      early := if created.Thrown? then Some(Threw) else None;
    }

    method Execute(c: CallerId, r: RequestId, verification: string, sched: Schedule)
      returns (response: Response, ghost trace: seq<Event>)
      requires c !in callers
      modifies this
      ensures View() == Run(cfg, old(View()), trace) && c in callers && callers[c] == Done(r, response)
      ensures !response.Crashed?
    {
      ghost var s0 := View();
      var early;
      early, trace := Prologue(c, r, verification, sched, s0);
      if early.Some? { return early.value, trace; }
      early, trace := Acquire(c, sched, s0, trace);
      if early.Some? { return early.value, trace; }
      response, trace := TryBlock(c, sched(3).choice.configured, sched, s0, trace);
    }

    /** Every confirmed row is receipted, and every caller and worker holds a row of its own request. */
    ghost predicate Valid()
      reads this
    {
      Receipted(View()) && OwnersOk(View())
    }

    /** runSettle: its answer and its effects are those of one run of the machine, so what modules
        SettleServiceTheorems and SettleServiceReplies prove of runs holds of this program. Without confirmation jobs a
        confirmed answer is the request's receipt and the details of its row. */
    method RunSettle(c: CallerId, r: RequestId, verification: string, sched: Schedule)
      returns (response: Response, ghost trace: seq<Event>)
      requires Valid() && c !in callers
      modifies this
      ensures Valid()
      ensures View() == Run(cfg, old(View()), trace) && c in callers && callers[c] == Done(r, response)
      ensures Replies.Inv(old(View())) && Replies.NoJobs(trace) ==>
                Replies.Inv(View()) && Replies.ResponseOk(View(), r, response)
      ensures response.Threw? <==> Replies.EverThrew(cfg, old(View()), trace, c)
      ensures Answers.AnswersTo(response, Answers.Told(cfg, old(View()), trace, c))
    {
      ghost var s0 := View();
      response, trace := Execute(c, r, verification, sched);
      Answers.AnswersExactly(cfg, s0, trace, c);
      ReceiptedFrom(cfg, s0, trace);
      Replies.ThrowsExactly(cfg, s0, trace, c);
      if Replies.Inv(s0) && Replies.NoJobs(trace) {
        Replies.RunKeeps(cfg, s0, trace);
        assert Replies.PcOk(View(), callers[c]);
      }
    }
  }
}
