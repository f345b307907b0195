/** Runs of runSettle and the worker that break what sequential, undisturbed use keeps: a confirmation undone, a request
    submitted twice, answers that differ. */
module SettleServiceWitnesses {
  import opened Prelude
  import opened SettleService
  import opened SettleServiceTheorems
  import opened WorkerTheorems

  const Any := Choice(0, 0, 0, true, 0, Success)

  function Answered(c: CallerId): Event { Act(c, Delivered, Any) }

  /** The worker's next await is answered; a poll hears success. */
  function Works(w: CallerId): Event { WorkerActs(w, Delivered, Any) }

  /** The worker's next await throws without effect. */
  function WorkThrows(w: CallerId): Event { WorkerActs(w, Dropped, Any) }

  /** Calls begin and their awaits are answered: nothing expires, nobody crashes, no job runs. */
  predicate Smooth(es: seq<Event>) {
    forall i :: 0 <= i < |es| ==> es[i].Begin? || (es[i].Act? && es[i].reply.Delivered?)
  }

  lemma Go(cfg: Config, es: seq<Event>, s: State, e: Event) returns (fs: seq<Event>, t: State)
    requires s == Run(cfg, Init, es)
    ensures fs == es + [e] && t == Run(cfg, Init, fs) && t == Next(cfg, s, e)
  {
    fs, t := es + [e], Next(cfg, s, e);
    RunSnoc(cfg, Init, es, e);
  }

  // ---------------------------------------------------------------- one call alone

  /** One call alone has passed the check for an existing settlement. */
  lemma Passes(cfg: Config, r: RequestId, v: string) returns (es: seq<Event>, s: State)
    requires (v, r) in cfg.accepted
    ensures s == Run(cfg, Init, es) && Smooth(es) && s == Init.(callers := map[1 := Locking(r)])
  {
    es, s := Go(cfg, [], Init, Begin(1, r, v));
    es, s := Go(cfg, es, s, Answered(1));
    es, s := Go(cfg, es, s, Answered(1));
  }

  /** ... has taken the lock and created its row. */
  lemma Submits(cfg: Config, r: RequestId, v: string) returns (es: seq<Event>, s: State)
    requires (v, r) in cfg.accepted
    ensures s == Run(cfg, Init, es) && Smooth(es)
    ensures s == State({r}, [Row(r, Processing, None)], map[], map[1 := Submitting(r, 0)], map[], multiset{})
  {
    es, s := Passes(cfg, r, v);
    es, s := Go(cfg, es, s, Answered(1));
    es, s := Go(cfg, es, s, Answered(1));
  }

  /** ... has submitted. */
  lemma Returns(cfg: Config, r: RequestId, v: string) returns (es: seq<Event>, s: State)
    requires (v, r) in cfg.accepted
    ensures s == Run(cfg, Init, es) && Smooth(es)
    ensures s == State({r}, [Row(r, Processing, None)], map[], map[1 := Confirming(r, 0, 0)], map[], multiset{r})
  {
    es, s := Submits(cfg, r, v);
    es, s := Go(cfg, es, s, Answered(1));
  }

  /** The row as the confirming transaction leaves it. */
  function ConfirmedRow(cfg: Config, r: RequestId): Row {
    Row(r, Confirmed, Some(Details(0, cfg.fees(r), 0)))
  }

  function Answer(cfg: Config, r: RequestId): Response {
    Settled(0, ConfirmedRow(cfg, r).details, Some(0))
  }

  lemma ConfirmsNext(cfg: Config, s: State, r: RequestId)
    requires s.callers == map[1 := Confirming(r, 0, 0)] && s.rows == [Row(r, Processing, None)] && s.receipts == map[]
    ensures Next(cfg, s, Answered(1)) ==
              s.(rows := [ConfirmedRow(cfg, r)], receipts := map[r := Receipt(0, 0)],
                 callers := map[1 := Unlocking(r, 0, Answer(cfg, r))])
  {
  }

  lemma UnlocksNext(cfg: Config, s: State, r: RequestId, reply: Reply)
    requires s.callers == map[1 := Unlocking(r, 0, Answer(cfg, r))] && s.locks == {r}
    ensures Next(cfg, s, Act(1, reply, Any)) ==
              s.(locks := if reply.Dropped? then {r} else {},
                 callers := map[1 := if reply.Delivered? then Done(r, Answer(cfg, r)) else Failing(r, 0)])
  {
    assert {r} - {r} == {};
  }

  /** ... and has confirmed its row with a receipt; the DEL is next. */
  lemma Confirms(cfg: Config, r: RequestId, v: string) returns (es: seq<Event>, s: State)
    requires (v, r) in cfg.accepted
    ensures s == Run(cfg, Init, es) && Smooth(es)
    ensures s == State({r}, [ConfirmedRow(cfg, r)], map[r := Receipt(0, 0)],
                       map[1 := Unlocking(r, 0, Answer(cfg, r))], map[], multiset{r})
  {
    es, s := Returns(cfg, r, v);
    ConfirmsNext(cfg, s, r);
    es, s := Go(cfg, es, s, Answered(1));
  }

  /** ... and has answered. */
  lemma Answers(cfg: Config, r: RequestId, v: string) returns (es: seq<Event>, s: State)
    requires (v, r) in cfg.accepted
    ensures s == Run(cfg, Init, es) && Smooth(es)
    ensures s == State({}, [ConfirmedRow(cfg, r)], map[r := Receipt(0, 0)], map[1 := Done(r, Answer(cfg, r))], map[],
                       multiset{r})
  {
    es, s := Confirms(cfg, r, v);
    UnlocksNext(cfg, s, r, Delivered);
    es, s := Go(cfg, es, s, Answered(1));
  }

  // ---------------------------------------------------------------- the DEL after the confirmation throws

  /** For every accepted verification: everything is answered, the commit included, until the DEL after the
      confirmation, step `i`, throws, whether or not it deleted; the call answers settlement_failed, and its
      confirmed, receipted settlement ends failed. */
  lemma FailedDeleteUndoes(cfg: Config, r: RequestId, v: string, reply: Reply) returns (es: seq<Event>, i: nat)
    requires (v, r) in cfg.accepted && !reply.Delivered?
    ensures i < |es| && es == es[..i] + [Act(1, reply, Any)] + [Answered(1)] + [Answered(1)] && Smooth(es[..i])
    ensures var u := Run(cfg, Init, es[..i]);
            u.callers == map[1 := Unlocking(r, 0, Answer(cfg, r))] && u.rows == [ConfirmedRow(cfg, r)]
    ensures var s := Run(cfg, Init, es);
            && s.callers == map[1 := Done(r, Rejected(SettlementFailed))]
            && s.rows == [ConfirmedRow(cfg, r).(status := Failed)] && s.receipts == map[r := Receipt(0, 0)]
  {
    var before, u := Confirms(cfg, r, v);
    var t;
    UnlocksNext(cfg, u, r, reply);
    es, t := Go(cfg, before, u, Act(1, reply, Any));
    MarksFailedNext(cfg, t, r);
    es, t := Go(cfg, es, t, Answered(1));
    LeavesNext(cfg, t, r);
    es, t := Go(cfg, es, t, Answered(1));
    i := |before|;
    assert es[..i] == before;
  }

  lemma MarksFailedNext(cfg: Config, s: State, r: RequestId)
    requires s.callers == map[1 := Failing(r, 0)] && s.rows == [ConfirmedRow(cfg, r)]
    ensures Next(cfg, s, Answered(1)) ==
              s.(rows := [ConfirmedRow(cfg, r).(status := Failed)], callers := map[1 := LastUnlock(r)])
  {
  }

  lemma LeavesNext(cfg: Config, s: State, r: RequestId)
    requires s.callers == map[1 := LastUnlock(r)]
    ensures Next(cfg, s, Answered(1)) ==
              s.(locks := s.locks - {r}, callers := map[1 := Done(r, Rejected(SettlementFailed))])
  {
  }

  // ---------------------------------------------------------------- a re-run job overwrites a confirmed row

  function TheJob(r: RequestId): Job { Job(0, 0, r) }

  /** The worker after `n` reads that threw. */
  function Tried(r: RequestId, n: nat): WorkerPc {
    if n < ATTEMPTS then Reading(TheJob(r), n + 1) else GivingUp(TheJob(r))
  }

  lemma ThrowsNext(cfg: Config, s: State, r: RequestId, n: nat)
    requires s.workers == map[7 := Tried(r, n)] && n < ATTEMPTS
    ensures Next(cfg, s, WorkThrows(7)) == s.(workers := map[7 := Tried(r, n + 1)])
  {
  }

  lemma OneMoreThrows(cfg: Config, s: State, es: seq<Event>, r: RequestId, n: nat)
    requires Run(cfg, s, es) == s.(workers := map[7 := Tried(r, n)]) && ThrownReads(cfg, s, es, 7) == n && n < ATTEMPTS
    ensures Run(cfg, s, es + [WorkThrows(7)]) == s.(workers := map[7 := Tried(r, n + 1)])
    ensures ThrownReads(cfg, s, es + [WorkThrows(7)], 7) == n + 1
  {
    ThrowsNext(cfg, s.(workers := map[7 := Tried(r, n)]), r, n);
    RunSnoc(cfg, s, es, WorkThrows(7));
    assert (es + [WorkThrows(7)])[..|es + [WorkThrows(7)]| - 1] == es;
  }

  /** `n` reads throw, one after the other. */
  lemma ReadsThrow(cfg: Config, s: State, r: RequestId, n: nat) returns (es: seq<Event>)
    requires s.workers == map[7 := Tried(r, 0)] && n <= ATTEMPTS
    ensures |es| == n && forall i :: 0 <= i < n ==> es[i] == WorkThrows(7)
    ensures Run(cfg, s, es) == s.(workers := map[7 := Tried(r, n)]) && ThrownReads(cfg, s, es, 7) == n
  {
    es := [];
    for k := 0 to n
      invariant |es| == k && forall i :: 0 <= i < k ==> es[i] == WorkThrows(7)
      invariant Run(cfg, s, es) == s.(workers := map[7 := Tried(r, k)]) && ThrownReads(cfg, s, es, 7) == k
    {
      OneMoreThrows(cfg, s, es, r, k);
      es := es + [WorkThrows(7)];
    }
  }

  lemma GivesUpNext(cfg: Config, s: State, r: RequestId)
    requires s.workers == map[7 := GivingUp(TheJob(r))] && s.rows == [ConfirmedRow(cfg, r)]
    ensures Next(cfg, s, Works(7)) ==
              s.(rows := [ConfirmedRow(cfg, r).(status := Failed)], workers := map[7 := Finished(TheJob(r))])
  {
  }

  /** The job's whole run: five reads throw and the failed handler's write lands. */
  lemma RerunFails(cfg: Config, s: State, r: RequestId) returns (rerun: seq<Event>)
    requires s.workers == map[7 := Tried(r, 0)] && s.rows == [ConfirmedRow(cfg, r)]
    ensures Run(cfg, s, rerun) ==
              s.(rows := [ConfirmedRow(cfg, r).(status := Failed)], workers := map[7 := Finished(TheJob(r))])
    ensures forall i :: 0 <= i < |rerun| ==> ByWorker(rerun[i], 7)
    ensures ThrownReads(cfg, s, rerun, 7) == ATTEMPTS && LastWriteLanded(cfg, s, rerun, 7)
  {
    var tried := ReadsThrow(cfg, s, r, ATTEMPTS);
    var u := s.(workers := map[7 := GivingUp(TheJob(r))]);
    rerun := tried + [Works(7)];
    GivesUpNext(cfg, u, r);
    RunSnoc(cfg, s, tried, Works(7));
    assert rerun[..|rerun| - 1] == tried;
  }

  /** For every accepted verification: a call settles and answers confirmed, everything being answered; then a job for
      its settlement starts, all five of its reads throw, and the failed handler marks the confirmed settlement
      failed. */
  lemma RerunOverwrites(cfg: Config, r: RequestId, v: string) returns (es: seq<Event>, rerun: seq<Event>)
    requires (v, r) in cfg.accepted
    ensures Smooth(es) && forall i :: 0 <= i < |rerun| ==> ByWorker(rerun[i], 7)
    ensures var u := Run(cfg, Init, es);
            u.callers == map[1 := Done(r, Answer(cfg, r))] && u.rows == [ConfirmedRow(cfg, r)] && u.workers == map[]
    ensures var s := Next(cfg, Run(cfg, Init, es), JobStarts(7, TheJob(r)));
            s.workers == map[7 := Reading(TheJob(r), 1)] && ThrownReads(cfg, s, rerun, 7) == ATTEMPTS
    ensures var t := Run(cfg, Init, es + [JobStarts(7, TheJob(r))] + rerun);
            && t.callers == map[1 := Done(r, Answer(cfg, r))] && t.receipts == map[r := Receipt(0, 0)]
            && t.rows == [ConfirmedRow(cfg, r).(status := Failed)]
  {
    var u, s, fs;
    es, u := Answers(cfg, r, v);
    fs, s := Go(cfg, es, u, JobStarts(7, TheJob(r)));
    rerun := RerunFails(cfg, s, r);
    RunAppend(cfg, Init, fs, rerun);
  }

  // ---------------------------------------------------------------- jobs that work

  /** The worker's next poll hears of a reverted transaction. */
  function HearsRevert(w: CallerId): Event { WorkerActs(w, Delivered, Any.(poll := Reverted)) }

  /** In any state in which no other row has its hash and no other receipt the id generated for it: a job on a
      processing row, whose four awaits are answered and whose transaction succeeded, confirms its row with its own
      hash, writes the receipt unless there is one, deletes the lock, and is finished. */
  lemma JobConfirms(cfg: Config, s: State, w: CallerId, job: Job, n: nat)
    requires w in s.workers && s.workers[w] == Reading(job, n) && RowFor(s, job.request, job.row)
    requires s.rows[job.row].status.Processing?
    requires forall i :: 0 <= i < |s.rows| && i != job.row && s.rows[i].details.Some? ==>
               s.rows[i].details.value.txHash != job.tx
    requires job.request in s.receipts || forall q :: q in s.receipts ==> s.receipts[q].id != 0
    ensures Run(cfg, s, [Works(w)] + [Works(w)] + [Works(w)] + [Works(w)]) ==
              s.(locks := s.locks - {job.request},
                 rows := s.rows[job.row :=
                       Row(job.request, Confirmed, Some(Details(job.tx, cfg.fees(job.request), 0)))],
                 receipts := if job.request in s.receipts then s.receipts
                       else s.receipts[job.request := Receipt(0, job.row)],
                 workers := s.workers[w := Finished(job)])
  {
    var polling := s.(workers := s.workers[w := Polling(job, n)]);
    var persisting := s.(workers := s.workers[w := Persisting(job, n)]);
    RunSnoc(cfg, s, [], Works(w));
    assert [] + [Works(w)] == [Works(w)];
    assert Next(cfg, s, Works(w)) == polling;
    RunSnoc(cfg, s, [Works(w)], Works(w));
    assert Next(cfg, polling, Works(w)).workers == persisting.workers;
    RunSnoc(cfg, s, [Works(w)] + [Works(w)], Works(w));
    PersistsNext(cfg, persisting, w, job, n);
    RunSnoc(cfg, s, [Works(w)] + [Works(w)] + [Works(w)], Works(w));
    assert s.workers[w := DeletingLock(job)][w := Finished(job)] == s.workers[w := Finished(job)];
  }

  lemma PersistsNext(cfg: Config, s: State, w: CallerId, job: Job, n: nat)
    requires w in s.workers && s.workers[w] == Persisting(job, n) && RowFor(s, job.request, job.row)
    requires CanPersist(s, job, Any.id)
    ensures var t := Next(cfg, s, Works(w));
            && t == s.(rows := t.rows, receipts := t.receipts, workers := s.workers[w := DeletingLock(job)])
            && t.rows == s.rows[job.row := Row(job.request, Confirmed,
                                               Some(Details(job.tx, cfg.fees(job.request), 0)))]
            && t.receipts == if job.request in s.receipts then s.receipts
                             else s.receipts[job.request := Receipt(0, job.row)]
  {
  }

  /** A job on a processing row whose transaction reverted marks the row failed, and its next attempt ends it. */
  lemma JobMarksReverted(cfg: Config, s: State, w: CallerId, job: Job, n: nat)
    requires w in s.workers && s.workers[w] == Reading(job, n) && n < ATTEMPTS && RowFor(s, job.request, job.row)
    requires s.rows[job.row].status.Processing?
    ensures Run(cfg, s, [Works(w)] + [HearsRevert(w)] + [Works(w)] + [Works(w)]) ==
              s.(rows := s.rows[job.row := s.rows[job.row].(status := Failed)],
                 workers := s.workers[w := Finished(job)])
  {
    var polling := s.(workers := s.workers[w := Polling(job, n)]);
    var reverting := s.(workers := s.workers[w := Reverting(job, n)]);
    var again := s.(rows := s.rows[job.row := s.rows[job.row].(status := Failed)],
                    workers := s.workers[w := Reading(job, n + 1)]);
    RunSnoc(cfg, s, [], Works(w));
    assert [] + [Works(w)] == [Works(w)];
    assert Next(cfg, s, Works(w)) == polling;
    RunSnoc(cfg, s, [Works(w)], HearsRevert(w));
    assert Next(cfg, polling, HearsRevert(w)).workers == reverting.workers;
    RunSnoc(cfg, s, [Works(w)] + [HearsRevert(w)], Works(w));
    assert Next(cfg, reverting, Works(w)).workers == again.workers;
    RunSnoc(cfg, s, [Works(w)] + [HearsRevert(w)] + [Works(w)], Works(w));
    assert again.workers[w := Finished(job)] == s.workers[w := Finished(job)];
  }

  // ---------------------------------------------------------------- a job overtaken by the call it confirms for

  /** While a call has submitted and not confirmed, a job on its row has thrown four reads and read Processing with the
      fifth. */
  lemma LastAttemptPolls(cfg: Config, r: RequestId, v: string) returns (es: seq<Event>, s: State)
    requires (v, r) in cfg.accepted
    ensures s == Run(cfg, Init, es)
    ensures s == State({r}, [Row(r, Processing, None)], map[], map[1 := Confirming(r, 0, 0)],
                       map[7 := Polling(TheJob(r), ATTEMPTS)], multiset{r})
  {
    var t, u;
    es, s := Returns(cfg, r, v);
    es, t := Go(cfg, es, s, JobStarts(7, TheJob(r)));
    var tried := ReadsThrow(cfg, t, r, ATTEMPTS - 1);
    RunAppend(cfg, Init, es, tried);
    u := t.(workers := map[7 := Tried(r, ATTEMPTS - 1)]);
    ReadsNext(cfg, u, r);
    es, s := Go(cfg, es + tried, u, Works(7));
  }

  lemma ReadsNext(cfg: Config, s: State, r: RequestId)
    requires s.workers == map[7 := Reading(TheJob(r), ATTEMPTS)] && s.rows == [Row(r, Processing, None)]
    ensures Next(cfg, s, Works(7)) == s.(workers := map[7 := Polling(TheJob(r), ATTEMPTS)])
  {
  }

  function PollTimesOut(): Event { WorkerActs(7, Delivered, Any.(poll := Silent)) }

  lemma TimesOutNext(cfg: Config, s: State, r: RequestId)
    requires s.workers == map[7 := Polling(TheJob(r), ATTEMPTS)]
    ensures Next(cfg, s, PollTimesOut()) == s.(workers := map[7 := GivingUp(TheJob(r))])
  {
  }

  /** For every accepted verification: a job read Processing on its last attempt; the call then confirms the
      settlement and answers; the job's poll times out, and the failed handler marks the confirmed, answered
      settlement failed. */
  lemma LastAttemptOverwrites(cfg: Config, r: RequestId, v: string) returns (es: seq<Event>)
    requires (v, r) in cfg.accepted
    ensures var u := Run(cfg, Init, es);
            && u.callers == map[1 := Done(r, Answer(cfg, r))] && u.rows == [ConfirmedRow(cfg, r)]
            && u.workers == map[7 := Polling(TheJob(r), ATTEMPTS)]
    ensures var t := Run(cfg, Init, es + [PollTimesOut()] + [Works(7)]);
            && t.callers == map[1 := Done(r, Answer(cfg, r))] && t.receipts == map[r := Receipt(0, 0)]
            && t.rows == [ConfirmedRow(cfg, r).(status := Failed)]
  {
    var s, fs;
    es, s := LastAttemptPolls(cfg, r, v);
    ConfirmsNext(cfg, s, r);
    es, s := Go(cfg, es, s, Answered(1));
    UnlocksNext(cfg, s, r, Delivered);
    es, s := Go(cfg, es, s, Answered(1));
    TimesOutNext(cfg, s, r);
    fs, s := Go(cfg, es, s, PollTimesOut());
    GivesUpNext(cfg, s, r);
    fs, s := Go(cfg, fs, s, Works(7));
  }

  /** A job enqueued with another transaction hash. */
  function OtherJob(r: RequestId): Job { Job(0, 9, r) }

  function OtherAnswer(cfg: Config, r: RequestId): Response {
    Settled(0, Some(Details(9, cfg.fees(r), 0)), Some(0))
  }

  lemma OtherJobPersists(cfg: Config, s: State, r: RequestId)
    requires s.rows == [ConfirmedRow(cfg, r)] && s.receipts == map[r := Receipt(0, 0)]
    requires s.workers == map[7 := Persisting(OtherJob(r), 1)]
    ensures Next(cfg, s, Works(7)) ==
              s.(rows := [Row(r, Confirmed, Some(Details(9, cfg.fees(r), 0)))],
                 workers := map[7 := DeletingLock(OtherJob(r))])
  {
  }

  lemma OtherJobNext(cfg: Config, s: State, r: RequestId)
    requires s.workers == map[] && s.rows == [Row(r, Processing, None)]
    ensures Next(cfg, s, JobStarts(7, OtherJob(r))) == s.(workers := map[7 := Reading(OtherJob(r), 1)])
  {
  }

  lemma OtherJobReads(cfg: Config, s: State, r: RequestId)
    requires s.workers == map[7 := Reading(OtherJob(r), 1)] && s.rows == [Row(r, Processing, None)]
    ensures Next(cfg, s, Works(7)) == s.(workers := map[7 := Polling(OtherJob(r), 1)])
  {
  }

  lemma OtherJobHears(cfg: Config, s: State, r: RequestId)
    requires s.workers == map[7 := Polling(OtherJob(r), 1)]
    ensures Next(cfg, s, Works(7)) == s.(workers := Persists(r))
  {
  }

  function Persists(r: RequestId): map<CallerId, WorkerPc> { map[7 := Persisting(OtherJob(r), 1)] }

  /** That job on the processing row hears that its transaction succeeded. */
  lemma OtherJobPolls(cfg: Config, es: seq<Event>, s: State, r: RequestId) returns (fs: seq<Event>, t: State)
    requires s == Run(cfg, Init, es) && s.workers == map[] && s.rows == [Row(r, Processing, None)]
    ensures t == Run(cfg, Init, fs) && t == s.(workers := Persists(r))
    ensures Undisturbed(es) ==> Undisturbed(fs)
  {
    OtherJobNext(cfg, s, r);
    fs, t := Go(cfg, es, s, JobStarts(7, OtherJob(r)));
    OtherJobReads(cfg, t, r);
    fs, t := Go(cfg, fs, t, Works(7));
    OtherJobHears(cfg, t, r);
    fs, t := Go(cfg, fs, t, Works(7));
  }

  lemma SecondChecksNext(cfg: Config, s: State, r: RequestId, v: string)
    requires (v, r) in cfg.accepted && s.callers == map[1 := Done(r, Answer(cfg, r)), 2 := Loading(r, v)]
    ensures Next(cfg, s, Answered(2)) == s.(callers := map[1 := Done(r, Answer(cfg, r)), 2 := Checking(r)])
  {
  }

  lemma SecondHearsNext(cfg: Config, s: State, r: RequestId)
    requires s.callers == map[1 := Done(r, Answer(cfg, r)), 2 := Checking(r)]
    requires s.rows == [Row(r, Confirmed, Some(Details(9, cfg.fees(r), 0)))] && s.receipts == map[r := Receipt(0, 0)]
    ensures Next(cfg, s, Answered(2)) ==
              s.(callers := map[1 := Done(r, Answer(cfg, r)), 2 := Done(r, OtherAnswer(cfg, r))])
  {
    assert RowFor(s, r, 0);
  }

  lemma SecondAsks(cfg: Config, es: seq<Event>, s: State, r: RequestId, v: string)
    returns (fs: seq<Event>, t: State)
    requires s == Run(cfg, Init, es) && (v, r) in cfg.accepted && s.callers == map[1 := Done(r, Answer(cfg, r))]
    requires s.rows == [Row(r, Confirmed, Some(Details(9, cfg.fees(r), 0)))] && s.receipts == map[r := Receipt(0, 0)]
    ensures t == Run(cfg, Init, fs)
    ensures t.callers == map[1 := Done(r, Answer(cfg, r)), 2 := Done(r, OtherAnswer(cfg, r))]
  {
    fs, t := Go(cfg, es, s, Begin(2, r, v));
    assert t == s.(callers := map[1 := Done(r, Answer(cfg, r)), 2 := Loading(r, v)]);
    SecondChecksNext(cfg, t, r, v);
    fs, t := Go(cfg, fs, t, Answered(2));
    SecondHearsNext(cfg, t, r);
    fs, t := Go(cfg, fs, t, Answered(2));
  }

  /** Agreement needs the absence of jobs: a job with another hash, overtaken by the call, confirms the confirmed row
      once more, and the next call answers with the new hash. */
  lemma JobChangesTheAnswer(cfg: Config, r: RequestId, v: string) returns (es: seq<Event>)
    requires (v, r) in cfg.accepted
    ensures Run(cfg, Init, es).callers == map[1 := Done(r, Answer(cfg, r)), 2 := Done(r, OtherAnswer(cfg, r))]
    ensures Answer(cfg, r) != OtherAnswer(cfg, r)
  {
    var s;
    es, s := Returns(cfg, r, v);
    es, s := OtherJobPolls(cfg, es, s, r);
    ConfirmsNext(cfg, s, r);
    es, s := Go(cfg, es, s, Answered(1));
    UnlocksNext(cfg, s, r, Delivered);
    es, s := Go(cfg, es, s, Answered(1));
    OtherJobPersists(cfg, s, r);
    es, s := Go(cfg, es, s, Works(7));
    es, s := SecondAsks(cfg, es, s, r, v);
  }

  // ---------------------------------------------------------------- overlapping calls submit twice

  /** Two calls, and nothing else: no key expires, nobody crashes, no job runs. */
  predicate TwoCalls(es: seq<Event>) {
    forall i :: 0 <= i < |es| ==> (es[i].Begin? || es[i].Act?) && (es[i].c == 1 || es[i].c == 2)
  }

  /** No lock expires and nobody crashes. */
  predicate Undisturbed(es: seq<Event>) {
    forall i :: 0 <= i < |es| ==> !es[i].LockExpires? && !es[i].Crash?
  }

  /** `fs` goes on where `es` ends, with awaits of the two calls. */
  predicate OnlyActs(es: seq<Event>, fs: seq<Event>) {
    es <= fs && forall i :: |es| <= i < |fs| ==> fs[i].Act? && (fs[i].c == 1 || fs[i].c == 2)
  }

  lemma ActsKeep(es: seq<Event>, fs: seq<Event>)
    requires OnlyActs(es, fs)
    ensures TwoCalls(es) ==> TwoCalls(fs)
    ensures Undisturbed(es) ==> Undisturbed(fs)
  {
  }

  function Both(r: RequestId, locks: set<RequestId>, rows: seq<Row>, first: Pc, second: Pc,
        submits: multiset<RequestId>, workers: map<CallerId, WorkerPc>)
    : State
  {
    State(locks, rows, map[], map[1 := first, 2 := second], workers, submits)
  }

  lemma BothPassTheCheck(cfg: Config, r: RequestId, v: string) returns (es: seq<Event>, s: State)
    requires (v, r) in cfg.accepted
    ensures s == Run(cfg, Init, es) && TwoCalls(es)
    ensures s == Both(r, {}, [], Locking(r), Locking(r), multiset{}, map[])
  {
    es, s := Go(cfg, [], Init, Begin(1, r, v));
    es, s := Go(cfg, es, s, Begin(2, r, v));
    es, s := Go(cfg, es, s, Answered(1));
    es, s := Go(cfg, es, s, Answered(2));
    assert s == Init.(callers := map[1 := Checking(r), 2 := Checking(r)]);
    es, s := Go(cfg, es, s, Answered(1));
    es, s := Go(cfg, es, s, Answered(2));
  }

  lemma FirstLocksNext(cfg: Config, r: RequestId)
    ensures Next(cfg, Both(r, {}, [], Locking(r), Locking(r), multiset{}, map[]), Answered(1)) ==
              Both(r, {r}, [], Creating(r), Locking(r), multiset{}, map[])
  {
  }

  lemma FirstCreatesNext(cfg: Config, r: RequestId)
    ensures Next(cfg, Both(r, {r}, [], Creating(r), Locking(r), multiset{}, map[]), Answered(1)) ==
              Both(r, {r}, [Row(r, Processing, None)], Submitting(r, 0), Locking(r), multiset{}, map[])
  {
  }

  lemma FirstSubmits(cfg: Config, r: RequestId, v: string) returns (es: seq<Event>, s: State)
    requires (v, r) in cfg.accepted
    ensures s == Run(cfg, Init, es) && TwoCalls(es)
    ensures s == Both(r, {r}, [Row(r, Processing, None)], Submitting(r, 0), Locking(r), multiset{}, map[])
  {
    es, s := BothPassTheCheck(cfg, r, v);
    FirstLocksNext(cfg, r);
    es, s := Go(cfg, es, s, Answered(1));
    FirstCreatesNext(cfg, r);
    es, s := Go(cfg, es, s, Answered(1));
  }

  lemma SubmissionThrowsNext(cfg: Config, r: RequestId, ws: map<CallerId, WorkerPc>)
    ensures Next(cfg, Both(r, {r}, [Row(r, Processing, None)], Submitting(r, 0), Locking(r), multiset{}, ws),
                 Act(1, Dropped, Any)) ==
              Both(r, {r}, [Row(r, Processing, None)], Failing(r, 0), Locking(r), multiset{r}, ws)
  {
  }

  lemma FirstFailsNext(cfg: Config, r: RequestId, ws: map<CallerId, WorkerPc>)
    ensures Next(cfg, Both(r, {r}, [Row(r, Processing, None)], Failing(r, 0), Locking(r), multiset{r}, ws),
                 Answered(1)) ==
              Both(r, {r}, [Row(r, Failed, None)], LastUnlock(r), Locking(r), multiset{r}, ws)
  {
  }

  lemma FirstLeavesNext(cfg: Config, r: RequestId, ws: map<CallerId, WorkerPc>)
    ensures Next(cfg, Both(r, {r}, [Row(r, Failed, None)], LastUnlock(r), Locking(r), multiset{r}, ws), Answered(1)) ==
              OneLeft(r, {}, [Row(r, Failed, None)], Locking(r), multiset{r}, ws)
  {
    assert {r} - {r} == {};
  }

  /** The submission of the first call throws, and the call fails and leaves. */
  lemma FirstLeaves(cfg: Config, r: RequestId, es: seq<Event>, s: State, ws: map<CallerId, WorkerPc>)
    returns (fs: seq<Event>, t: State)
    requires s == Run(cfg, Init, es)
    requires s == Both(r, {r}, [Row(r, Processing, None)], Submitting(r, 0), Locking(r), multiset{}, ws)
    ensures t == Run(cfg, Init, fs) && OnlyActs(es, fs)
    ensures t == OneLeft(r, {}, [Row(r, Failed, None)], Locking(r), multiset{r}, ws)
  {
    SubmissionThrowsNext(cfg, r, ws);
    fs, t := Go(cfg, es, s, Act(1, Dropped, Any));
    FirstFailsNext(cfg, r, ws);
    fs, t := Go(cfg, fs, t, Answered(1));
    FirstLeavesNext(cfg, r, ws);
    fs, t := Go(cfg, fs, t, Answered(1));
  }

  /** The state once the first call has failed and left. */
  function OneLeft(r: RequestId, locks: set<RequestId>, rows: seq<Row>, second: Pc,
        submits: multiset<RequestId>, workers: map<CallerId, WorkerPc>): State {
    Both(r, locks, rows, Done(r, Rejected(SettlementFailed)), second, submits, workers)
  }

  lemma SecondLocksNext(cfg: Config, r: RequestId, ws: map<CallerId, WorkerPc>)
    ensures Next(cfg, OneLeft(r, {}, [Row(r, Failed, None)], Locking(r), multiset{r}, ws), Answered(2)) ==
              OneLeft(r, {r}, [Row(r, Failed, None)], Creating(r), multiset{r}, ws)
  {
  }

  lemma SecondCreatesNext(cfg: Config, r: RequestId, ws: map<CallerId, WorkerPc>)
    ensures var u := OneLeft(r, {r}, [Row(r, Failed, None)], Creating(r), multiset{r}, ws);
            && CreatesAgain(u, Answered(2), r)
            && Next(cfg, u, Answered(2)) ==
                 OneLeft(r, {r}, [Row(r, Failed, None), Row(r, Processing, None)], Submitting(r, 1), multiset{r}, ws)
  {
    assert RowFor(OneLeft(r, {r}, [Row(r, Failed, None)], Creating(r), multiset{r}, ws), r, 0);
  }

  lemma SecondSubmitsNext(cfg: Config, r: RequestId, ws: map<CallerId, WorkerPc>)
    ensures Next(cfg, OneLeft(r, {r}, [Row(r, Failed, None), Row(r, Processing, None)], Submitting(r, 1), multiset{r},
                              ws),
                 Answered(2)) ==
              OneLeft(r, {r}, [Row(r, Failed, None), Row(r, Processing, None)], Confirming(r, 1, 0), multiset{r, r},
                      ws)
  {
  }

  /** The second call takes the lock, creates again with step `i`, and submits. */
  lemma SecondSubmits(cfg: Config, r: RequestId, es: seq<Event>, s: State, ws: map<CallerId, WorkerPc>)
    returns (fs: seq<Event>, t: State, i: nat)
    requires s == Run(cfg, Init, es)
    requires s == OneLeft(r, {}, [Row(r, Failed, None)], Locking(r), multiset{r}, ws)
    ensures t == Run(cfg, Init, fs) && OnlyActs(es, fs)
    ensures i < |fs| && CreatesAgain(Run(cfg, Init, fs[..i]), fs[i], r)
    ensures t == OneLeft(r, {r}, [Row(r, Failed, None), Row(r, Processing, None)], Confirming(r, 1, 0),
                         multiset{r, r}, ws)
  {
    var before, u;
    SecondLocksNext(cfg, r, ws);
    before, u := Go(cfg, es, s, Answered(2));
    i := |before|;
    SecondCreatesNext(cfg, r, ws);
    fs, t := Go(cfg, before, u, Answered(2));
    SecondSubmitsNext(cfg, r, ws);
    fs, t := Go(cfg, fs, t, Answered(2));
    assert fs[..i] == before;
  }

  /** For every accepted verification there is a run of two overlapping calls and nothing else, no expiry, crash or
      job, in which both pass the check before either has a row, the first fails and leaves, and the second, step `i`,
      creates again and enters submitOnChain for the second time. */
  lemma OverlapSubmitsTwice(cfg: Config, r: RequestId, v: string) returns (es: seq<Event>, i: nat)
    requires (v, r) in cfg.accepted
    ensures TwoCalls(es) && i < |es| && CreatesAgain(Run(cfg, Init, es[..i]), es[i], r)
    ensures Run(cfg, Init, es).submits[r] == 2
  {
    var before, left, s, t;
    before, s := FirstSubmits(cfg, r, v);
    left, t := FirstLeaves(cfg, r, before, s, map[]);
    ActsKeep(before, left);
    es, t, i := SecondSubmits(cfg, r, left, t, map[]);
    ActsKeep(left, es);
  }

  // ---------------------------------------------------------------- two confirmed rows, one receipt

  /** While two calls overlap, a job on the row of the first hears that its transaction succeeded. */
  lemma FirstIsPolled(cfg: Config, r: RequestId, v: string) returns (es: seq<Event>, s: State)
    requires (v, r) in cfg.accepted
    ensures s == Run(cfg, Init, es) && Undisturbed(es)
    ensures s == Both(r, {r}, [Row(r, Processing, None)], Submitting(r, 0), Locking(r), multiset{}, Persists(r))
  {
    es, s := FirstSubmits(cfg, r, v);
    es, s := OtherJobPolls(cfg, es, s, r);
  }

  lemma SecondConfirmsNext(cfg: Config, r: RequestId, s: State)
    requires s == OneLeft(r, {r}, [Row(r, Failed, None), Row(r, Processing, None)], Confirming(r, 1, 0),
                          multiset{r, r}, Persists(r))
    ensures var t := Next(cfg, s, Answered(2));
            && t.rows == [Row(r, Failed, None), ConfirmedRow(cfg, r)] && t.receipts == map[r := Receipt(0, 1)]
            && t.workers == Persists(r)
  {
  }

  /** The first call fails; the second confirms a row of its own. */
  lemma SecondConfirms(cfg: Config, r: RequestId, v: string) returns (es: seq<Event>, s: State)
    requires (v, r) in cfg.accepted
    ensures s == Run(cfg, Init, es) && Undisturbed(es)
    ensures s.rows == [Row(r, Failed, None), ConfirmedRow(cfg, r)] && s.receipts == map[r := Receipt(0, 1)]
    ensures s.workers == Persists(r)
  {
    var before, left, submitted, t, u, i;
    before, s := FirstIsPolled(cfg, r, v);
    left, t := FirstLeaves(cfg, r, before, s, Persists(r));
    ActsKeep(before, left);
    submitted, u, i := SecondSubmits(cfg, r, left, t, Persists(r));
    ActsKeep(left, submitted);
    SecondConfirmsNext(cfg, r, u);
    es, s := Go(cfg, submitted, u, Answered(2));
  }

  lemma FirstIsPersisted(cfg: Config, r: RequestId, s: State)
    requires s.rows == [Row(r, Failed, None), ConfirmedRow(cfg, r)] && s.receipts == map[r := Receipt(0, 1)]
    requires s.workers == Persists(r)
    ensures ConfirmsAgain(s, Works(7), r)
    ensures var t := Next(cfg, s, Works(7));
            && t.rows == [Row(r, Confirmed, Some(Details(9, cfg.fees(r), 0))), ConfirmedRow(cfg, r)]
            && t.receipts == map[r := Receipt(0, 1)]
  {
    assert ConfirmedFor(s, r, 1);
  }

  /** For every accepted verification there is a run without expiry or crash in which a job hears the first row's
      transaction succeed, the first call fails, the second call confirms a second row with its receipt, and the job's
      transaction, the last step, confirms the first row as well: two confirmed rows, one receipt. */
  lemma JobConfirmsSecondRow(cfg: Config, r: RequestId, v: string) returns (es: seq<Event>)
    requires (v, r) in cfg.accepted
    ensures es != [] && Undisturbed(es) && ConfirmsAgain(Run(cfg, Init, es[..|es| - 1]), es[|es| - 1], r)
    ensures var s := Run(cfg, Init, es);
            && s.rows == [Row(r, Confirmed, Some(Details(9, cfg.fees(r), 0))), ConfirmedRow(cfg, r)]
            && s.receipts == map[r := Receipt(0, 1)]
  {
    var before, u := SecondConfirms(cfg, r, v);
    var s;
    FirstIsPersisted(cfg, r, u);
    es, s := Go(cfg, before, u, Works(7));
    assert es[..|es| - 1] == before;
  }

  // ---------------------------------------------------------------- runSettle throws

  /** For every request and verification the first read alone can make runSettle throw. */
  lemma FirstReadThrows(cfg: Config, r: RequestId, v: string)
    ensures Run(cfg, Init, [Begin(1, r, v)] + [Act(1, Dropped, Any)]).callers == map[1 := Done(r, Threw)]
  {
    var es, s := Go(cfg, [], Init, Begin(1, r, v));
    assert es == [Begin(1, r, v)];
    es, s := Go(cfg, es, s, Act(1, Dropped, Any));
  }
}
