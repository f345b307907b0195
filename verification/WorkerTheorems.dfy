/** What becomes of one confirmation job whose row nobody else writes. */
module WorkerTheorems {
  import opened Prelude
  import opened SettleService
  import opened SettleServiceTheorems

  /** Nobody but worker `w` can write the row of its job. */
  ghost predicate Alone(s: State, w: CallerId, row: nat) {
    && row < |s.rows|
    && (forall c :: c in s.callers ==> OwnRow(s.callers[c]) != Some(row))
    && (forall v :: v in s.workers && v != w ==> s.workers[v].Finished? || s.workers[v].job.row != row)
  }

  /** No second job is enqueued for the row. */
  predicate NoRival(e: Event, row: nat) {
    e.JobStarts? ==> e.job.row != row
  }

  predicate ByWorker(e: Event, w: CallerId) {
    e.WorkerActs? && e.w == w
  }

  lemma AloneStep(cfg: Config, s: State, e: Event, w: CallerId, row: nat)
    requires Alone(s, w, row) && NoRival(e, row) && w in s.workers
    ensures Alone(Next(cfg, s, e), w, row)
    ensures w in Next(cfg, s, e).workers && Next(cfg, s, e).workers[w].job == s.workers[w].job
  {
    NextMoves(cfg, s, e);
    NextGrows(cfg, s, e);
    OthersJobs(cfg, s, e);
    var c := CallerOf(e);
    if c.Some? && c.value in s.callers { MovedOwns(cfg, s, s.callers[c.value], e); }
  }

  lemma OneJob(cfg: Config, s: State, e: Event, v: CallerId)
    requires v in Next(cfg, s, e).workers
    ensures var job := Next(cfg, s, e).workers[v].job;
            if v in s.workers then job == s.workers[v].job else e.JobStarts? && job == e.job
    ensures v in s.workers && s.workers[v].Finished? ==> Next(cfg, s, e).workers[v].Finished?
  {
    match e
    case WorkerActs(w, _, x) => if w in s.workers { KeepsJob(cfg, s, s.workers[w], x); }
    case Act(c, _, x) => if c in s.callers { CallersKeepWorkers(cfg, s, s.callers[c], x); }
    case _ =>
  }

  lemma KeepsJob(cfg: Config, s: State, pc: WorkerPc, x: Choice)
    ensures WorkerResume(s, pc, x).job == pc.job && WorkerCatch(pc).job == pc.job
    ensures pc.Finished? ==> WorkerResume(s, pc, x).Finished? && WorkerCatch(pc).Finished?
    ensures WorkerEffect(cfg, s, pc, x).workers == s.workers
  {
  }

  lemma CallersKeepWorkers(cfg: Config, s: State, pc: Pc, x: Choice)
    ensures Effect(cfg, s, pc, x).workers == s.workers
  {
  }

  /** Jobs are never exchanged, and a finished worker stays finished. */
  lemma OthersJobs(cfg: Config, s: State, e: Event)
    ensures var t := Next(cfg, s, e);
            forall v :: v in t.workers ==>
              if v in s.workers
              then t.workers[v].job == s.workers[v].job && (s.workers[v].Finished? ==> t.workers[v].Finished?)
              else e.JobStarts? && t.workers[v].job == e.job
    ensures forall v :: v in s.workers ==> v in Next(cfg, s, e).workers
  {
    WorkersStay(cfg, s, e);
    forall v | v in Next(cfg, s, e).workers
      ensures var t := Next(cfg, s, e);
              if v in s.workers
              then t.workers[v].job == s.workers[v].job && (s.workers[v].Finished? ==> t.workers[v].Finished?)
              else e.JobStarts? && t.workers[v].job == e.job
    {
      OneJob(cfg, s, e, v);
    }
  }

  lemma WorkersStay(cfg: Config, s: State, e: Event)
    ensures s.workers.Keys <= Next(cfg, s, e).workers.Keys
  {
  }

  /** Everybody else leaves the row and the worker alone. */
  lemma OthersLeaveRow(cfg: Config, s: State, e: Event, w: CallerId, row: nat)
    requires Alone(s, w, row) && w in s.workers && !ByWorker(e, w)
    ensures row < |Next(cfg, s, e).rows| && Next(cfg, s, e).rows[row] == s.rows[row]
    ensures w in Next(cfg, s, e).workers && Next(cfg, s, e).workers[w] == s.workers[w]
  {
    match e
    case Act(c, _, x) => if c in s.callers { CallerLeavesRow(cfg, s, s.callers[c], x, row); }
    case WorkerActs(v, _, x) => if v in s.workers { WorkerLeavesRow(cfg, s, s.workers[v], x, row); }
    case _ =>
  }

  lemma CallerLeavesRow(cfg: Config, s: State, pc: Pc, x: Choice, row: nat)
    requires row < |s.rows| && OwnRow(pc) != Some(row)
    ensures var t := Effect(cfg, s, pc, x); row < |t.rows| && t.rows[row] == s.rows[row] && t.workers == s.workers
  {
  }

  lemma WorkerLeavesRow(cfg: Config, s: State, pc: WorkerPc, x: Choice, row: nat)
    requires row < |s.rows| && (pc.Finished? || pc.job.row != row)
    ensures var t := WorkerEffect(cfg, s, pc, x); row < |t.rows| && t.rows[row] == s.rows[row] && t.workers == s.workers
  {
  }

  /** Where the worker stands with its job's row. */
  ghost predicate JobOk(s: State, pc: WorkerPc) {
    var row := pc.job.row;
    row < |s.rows| &&
    match pc
    case DeletingLock(_) => s.rows[row].status.Confirmed?
    case Finished(_) => !s.rows[row].status.Processing?
    case _ => true
  }

  lemma OwnStep(cfg: Config, s: State, e: Event, w: CallerId)
    requires ByWorker(e, w) && w in s.workers && JobOk(s, s.workers[w])
    requires s.workers[w].GivingUp? ==> !e.reply.Dropped?
    ensures JobOk(Next(cfg, s, e), Next(cfg, s, e).workers[w])
  {
  }

  /** The last-resort write of the failed handler, when it comes to that, takes effect. */
  ghost predicate FinalWriteLands(cfg: Config, s: State, es: seq<Event>, w: CallerId) {
    forall i :: 0 <= i < |es| && ByWorker(es[i], w) && es[i].reply.Dropped? ==>
      var u := Run(cfg, s, es[..i]); w in u.workers ==> !u.workers[w].GivingUp?
  }

  lemma {:induction false} JobRun(cfg: Config, s: State, es: seq<Event>, w: CallerId)
    requires w in s.workers && Alone(s, w, s.workers[w].job.row) && JobOk(s, s.workers[w])
    requires forall i :: 0 <= i < |es| ==> NoRival(es[i], s.workers[w].job.row)
    requires FinalWriteLands(cfg, s, es, w)
    ensures var t := Run(cfg, s, es);
            w in t.workers && t.workers[w].job == s.workers[w].job && Alone(t, w, s.workers[w].job.row)
                  && JobOk(t, t.workers[w])
  {
    if es != [] {
      var init, e := es[..|es| - 1], es[|es| - 1];
      forall i | 0 <= i < |init| && ByWorker(init[i], w) && init[i].reply.Dropped?
        ensures var u := Run(cfg, s, init[..i]); w in u.workers ==> !u.workers[w].GivingUp?
      {
        assert init[..i] == es[..i] && init[i] == es[i];
      }
      JobRun(cfg, s, init, w);
      var u := Run(cfg, s, init);
      assert es[..|es| - 1] == init;
      AloneStep(cfg, u, e, w, s.workers[w].job.row);
      if ByWorker(e, w) { OwnStep(cfg, u, e, w); } else { OthersLeaveRow(cfg, u, e, w, s.workers[w].job.row); }
    }
  }

  /** Nobody else writes or enqueues the job's row, and the failed handler's write, if it comes to that, lands. */
  ghost predicate Undisturbed(cfg: Config, s: State, es: seq<Event>, w: CallerId, row: nat) {
    Alone(s, w, row) && (forall i :: 0 <= i < |es| ==> NoRival(es[i], row)) && FinalWriteLands(cfg, s, es, w)
  }

  /** The settlement of the job is confirmed and receipted, or failed. */
  ghost predicate Decided(s: State, job: Job) {
    RowFor(s, job.request, job.row)
    && (s.rows[job.row].status.Failed? || (s.rows[job.row].status.Confirmed? && job.request in s.receipts))
  }

  /** Whatever polls fail, revert or time out and whatever else goes on, a finished job leaves its settlement confirmed
      with a receipt or failed, if nobody else writes its row and the failed handler's own write lands. */
  lemma JobEndsDecided(cfg: Config, s: State, es: seq<Event>, w: CallerId, job: Job)
    requires Receipted(s) && OwnersOk(s) && w in s.workers && s.workers[w] == Reading(job, 1)
    requires Undisturbed(cfg, s, es, w, job.row)
    ensures var t := Run(cfg, s, es); w in t.workers && (t.workers[w].Finished? ==> Decided(t, job))
  {
    JobRun(cfg, s, es, w);
    ReceiptedFrom(cfg, s, es);
    var t := Run(cfg, s, es);
    assert RowFor(t, t.workers[w].job.request, t.workers[w].job.row);
  }

  // ---------------------------------------------------------------- re-running a decided job

  /** The worker of a re-run job has read nothing yet, or is done, or gave up after `ATTEMPTS` thrown reads. */
  predicate Rerunning(pc: WorkerPc) {
    pc.Reading? || pc.Finished? || pc.GivingUp?
  }

  /** Running a job again on a decided settlement polls nothing and writes nothing, unless every one of its reads
      throws and the failed handler then overwrites a confirmed row: one own step changes the row if and only if the
      worker has given up, its write lands, and the row was confirmed. */
  lemma RerunStep(cfg: Config, s: State, e: Event, w: CallerId)
    requires w in s.workers && Rerunning(s.workers[w]) && s.workers[w].job.row < |s.rows| && ByWorker(e, w)
    requires !s.rows[s.workers[w].job.row].status.Processing?
    ensures var t := Next(cfg, s, e); var pc := s.workers[w]; var row := pc.job.row;
            && Rerunning(t.workers[w]) && t.receipts == s.receipts && t.locks == s.locks && |t.rows| == |s.rows|
            && (forall i :: 0 <= i < |s.rows| && i != row ==> t.rows[i] == s.rows[i])
            && (t.rows[row] != s.rows[row] <==> pc.GivingUp? && !e.reply.Dropped? && s.rows[row].status.Confirmed?)
            && (t.workers[w].GivingUp? && !pc.GivingUp? <==>
                  pc.Reading? && pc.attempt >= ATTEMPTS && !e.reply.Delivered?)
  {
  }

  /** How many of the worker's reads threw. */
  function ThrownReads(cfg: Config, s: State, es: seq<Event>, w: CallerId): nat {
    if es == [] then 0
    else
      var init, e := es[..|es| - 1], es[|es| - 1];
      ThrownReads(cfg, s, init, w) + if ReadThrows(Run(cfg, s, init), e, w) then 1 else 0
  }

  predicate ReadThrows(s: State, e: Event, w: CallerId) {
    ByWorker(e, w) && w in s.workers && s.workers[w].Reading? && !e.reply.Delivered?
  }

  /** The failed handler's write took effect. */
  function LastWriteLanded(cfg: Config, s: State, es: seq<Event>, w: CallerId): bool {
    es != [] &&
    var init, e := es[..|es| - 1], es[|es| - 1];
    LastWriteLanded(cfg, s, init, w) || WritesFailed(Run(cfg, s, init), e, w)
  }

  predicate WritesFailed(s: State, e: Event, w: CallerId) {
    ByWorker(e, w) && w in s.workers && s.workers[w].GivingUp? && !e.reply.Dropped?
  }

  /** Where a re-run job stands after `thrown` thrown reads. */
  predicate RerunAt(pc: WorkerPc, job: Job, thrown: nat, wrote: bool) {
    pc.job == job &&
    match pc
    case Reading(_, n) => n == 1 + thrown && n <= ATTEMPTS && !wrote
    case GivingUp(_) => thrown == ATTEMPTS && !wrote
    case Finished(_) => thrown <= ATTEMPTS && (wrote ==> thrown == ATTEMPTS)
    case _ => false
  }

  lemma OwnRerun(cfg: Config, s: State, e: Event, w: CallerId, job: Job, thrown: nat, wrote: bool)
    requires ByWorker(e, w) && w in s.workers && RerunAt(s.workers[w], job, thrown, wrote)
    requires job.row < |s.rows| && !s.rows[job.row].status.Processing?
    ensures var t := Next(cfg, s, e);
            && w in t.workers && job.row < |t.rows|
            && RerunAt(t.workers[w], job, thrown + if ReadThrows(s, e, w) then 1 else 0, wrote || WritesFailed(s, e, w))
            && t.rows[job.row] == if WritesFailed(s, e, w) then s.rows[job.row].(status := Failed) else s.rows[job.row]
  {
  }

  /** One re-run job over a whole run: the reads that threw are counted by its attempts, and its row is as it was, or
      failed if the failed handler's write landed. */
  lemma {:induction false} RerunRun(cfg: Config, s: State, es: seq<Event>, w: CallerId, job: Job)
    requires w in s.workers && s.workers[w] == Reading(job, 1) && Alone(s, w, job.row)
    requires !s.rows[job.row].status.Processing? && forall i :: 0 <= i < |es| ==> NoRival(es[i], job.row)
    ensures var t := Run(cfg, s, es); var wrote := LastWriteLanded(cfg, s, es, w);
            && w in t.workers && Alone(t, w, job.row)
            && RerunAt(t.workers[w], job, ThrownReads(cfg, s, es, w), wrote)
            && t.rows[job.row] == if wrote then s.rows[job.row].(status := Failed) else s.rows[job.row]
  {
    if es != [] {
      var init, e := es[..|es| - 1], es[|es| - 1];
      RerunRun(cfg, s, init, w, job);
      var u := Run(cfg, s, init);
      AloneStep(cfg, u, e, w, job.row);
      if ByWorker(e, w) {
        OwnRerun(cfg, u, e, w, job, ThrownReads(cfg, s, init, w), LastWriteLanded(cfg, s, init, w));
      } else {
        OthersLeaveRow(cfg, u, e, w, job.row);
      }
    }
  }

  /** Re-running a job on a decided settlement that nobody else writes: once it has ended, the row is unchanged if and
      only if not all five reads threw, or the failed handler's write had no effect, or the row was failed already. */
  lemma RerunExactly(cfg: Config, s: State, es: seq<Event>, w: CallerId, job: Job)
    requires w in s.workers && s.workers[w] == Reading(job, 1) && Alone(s, w, job.row)
    requires !s.rows[job.row].status.Processing? && forall i :: 0 <= i < |es| ==> NoRival(es[i], job.row)
    requires w in Run(cfg, s, es).workers && Run(cfg, s, es).workers[w].Finished?
    ensures var t := Run(cfg, s, es);
            job.row < |t.rows| &&
            (t.rows[job.row] == s.rows[job.row] <==>
              ThrownReads(cfg, s, es, w) < 5 || !LastWriteLanded(cfg, s, es, w)
                    || s.rows[job.row].status.Failed?)
  {
    RerunRun(cfg, s, es, w, job);
  }

  /** Whatever its reads answer, a re-run job changes no other row, no receipt and no lock in any of its steps. */
  lemma RerunTouchesNothingElse(cfg: Config, s: State, es: seq<Event>, w: CallerId, job: Job, i: nat)
    requires w in s.workers && s.workers[w] == Reading(job, 1) && Alone(s, w, job.row)
    requires !s.rows[job.row].status.Processing? && forall k :: 0 <= k < |es| ==> NoRival(es[k], job.row)
    requires i < |es| && ByWorker(es[i], w)
    ensures var u := Run(cfg, s, es[..i]); var t := Next(cfg, u, es[i]);
            && t.receipts == u.receipts && t.locks == u.locks && |t.rows| == |u.rows|
            && forall k :: 0 <= k < |u.rows| && k != job.row ==> t.rows[k] == u.rows[k]
  {
    RerunRun(cfg, s, es[..i], w, job);
    RerunStep(cfg, Run(cfg, s, es[..i]), es[i], w);
  }

  // ---------------------------------------------------------------- bounded attempts

  /** The number of the attempt a worker is making, 0 once it makes none. */
  function AttemptOf(pc: WorkerPc): nat {
    match pc
    case Reading(_, n) => n
    case Polling(_, n) => n
    case Reverting(_, n) => n
    case Persisting(_, n) => n
    case _ => 0
  }

  lemma AttemptStep(s: State, pc: WorkerPc, x: Choice)
    requires AttemptOf(pc) <= ATTEMPTS
    ensures AttemptOf(WorkerResume(s, pc, x)) <= ATTEMPTS && AttemptOf(WorkerCatch(pc)) <= ATTEMPTS
    ensures AttemptOf(pc) <= AttemptOf(WorkerResume(s, pc, x)) || AttemptOf(WorkerResume(s, pc, x)) == 0
    ensures WorkerResume(s, pc, x).GivingUp? && !pc.GivingUp? ==> AttemptOf(pc) == ATTEMPTS
    ensures WorkerCatch(pc).GivingUp? && !pc.GivingUp? ==> AttemptOf(pc) == ATTEMPTS
  {
  }

  ghost predicate AttemptsOk(s: State) {
    forall w :: w in s.workers ==> AttemptOf(s.workers[w]) <= 5
  }

  lemma AttemptsKept(cfg: Config, s: State, e: Event)
    requires AttemptsOk(s)
    ensures AttemptsOk(Next(cfg, s, e))
  {
    var t := Next(cfg, s, e);
    forall w | w in t.workers ensures AttemptOf(t.workers[w]) <= 5 {
      if ByWorker(e, w) && w in s.workers { AttemptStep(s, s.workers[w], e.x); }
    }
  }

  /** No job is attempted more than ATTEMPTS times, in any run. */
  lemma {:induction false} AttemptsBounded(cfg: Config, es: seq<Event>)
    ensures AttemptsOk(Run(cfg, Init, es))
  {
    if es != [] {
      AttemptsBounded(cfg, es[..|es| - 1]);
      AttemptsKept(cfg, Run(cfg, Init, es[..|es| - 1]), es[|es| - 1]);
    }
  }
}
