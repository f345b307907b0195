/** What runSettle and the confirmation worker guarantee together and alone. */
module SettleServiceTheorems {
  import opened Prelude
  import opened SettleService

  // ---------------------------------------------------------------- who moves, and which rows

  /** The row a caller has created. */
  function OwnRow(pc: Pc): Option<nat> {
    match pc
    case Submitting(_, row) => Some(row)
    case Confirming(_, row, _) => Some(row)
    case Unlocking(_, row, _) => Some(row)
    case Failing(_, row) => Some(row)
    case _ => None
  }

  function Moved(cfg: Config, s: State, pc: Pc, e: Event): Pc {
    match e
    case Act(_, reply, x) => if reply.Delivered? then Resume(cfg, s, pc, x) else Catch(pc)
    case Crash(_) => if pc.Done? then pc else Done(pc.r, Crashed)
    case _ => pc
  }

  /** The caller an event names, if it names one. */
  function CallerOf(e: Event): Option<CallerId> {
    match e
    case Begin(c, _, _) => Some(c)
    case Act(c, _, _) => Some(c)
    case Crash(c) => Some(c)
    case _ => None
  }

  lemma NextMoves(cfg: Config, s: State, e: Event)
    ensures var t := Next(cfg, s, e);
            && (forall d :: d in s.callers ==> d in t.callers)
            && (forall d :: d in t.callers && d !in s.callers ==>
                  e.Begin? && d == e.c && t.callers[d] == Loading(e.r, e.verification))
            && (forall d :: d in s.callers && CallerOf(e) != Some(d) ==> t.callers[d] == s.callers[d])
            && (CallerOf(e).Some? && CallerOf(e).value in s.callers ==>
                  t.callers[CallerOf(e).value] == Moved(cfg, s, s.callers[CallerOf(e).value], e))
  {
  }

  /** The request of a row never changes, rows and receipts are never removed, and a receipt is never rewritten. */
  ghost predicate Grows(s: State, t: State) {
    && |s.rows| <= |t.rows|
    && (forall i :: 0 <= i < |s.rows| ==> t.rows[i].request == s.rows[i].request)
    && (forall r :: r in s.receipts ==> r in t.receipts && t.receipts[r] == s.receipts[r])
  }

  lemma ActGrows(cfg: Config, s: State, pc: Pc, x: Choice)
    ensures Grows(s, Effect(cfg, s, pc, x))
  {
  }

  lemma WorkerGrows(cfg: Config, s: State, pc: WorkerPc, x: Choice)
    ensures Grows(s, WorkerEffect(cfg, s, pc, x))
  {
  }

  lemma NextGrows(cfg: Config, s: State, e: Event)
    ensures Grows(s, Next(cfg, s, e))
  {
    match e
    case Act(c, _, x) => if c in s.callers { ActGrows(cfg, s, s.callers[c], x); }
    case WorkerActs(w, _, x) => if w in s.workers { WorkerGrows(cfg, s, s.workers[w], x); }
    case _ =>
  }

  lemma NextJobs(cfg: Config, s: State, e: Event)
    ensures forall w :: w in Next(cfg, s, e).workers ==>
              var job := Next(cfg, s, e).workers[w].job;
              if w in s.workers then job == s.workers[w].job else RowFor(s, job.request, job.row)
  {
  }

  lemma CreatedRow(cfg: Config, s: State, e: Event)
    requires e.Act? && e.c in s.callers && s.callers[e.c].Creating? && e.reply.Delivered?
    ensures RowFor(Next(cfg, s, e), s.callers[e.c].r, |s.rows|)
  {
  }

  // ---------------------------------------------------------------- one receipt for every confirmation

  ghost predicate Receipted(s: State) {
    forall i :: 0 <= i < |s.rows| && s.rows[i].status.Confirmed? ==> s.rows[i].request in s.receipts
  }

  ghost predicate OwnersOk(s: State) {
    && (forall c :: c in s.callers && OwnRow(s.callers[c]).Some? ==>
          RowFor(s, s.callers[c].r, OwnRow(s.callers[c]).value))
    && (forall w :: w in s.workers ==> RowFor(s, s.workers[w].job.request, s.workers[w].job.row))
  }

  lemma MovedOwns(cfg: Config, s: State, pc: Pc, e: Event)
    ensures var pc' := Moved(cfg, s, pc, e);
            pc'.r == pc.r && (OwnRow(pc').Some? && OwnRow(pc') != OwnRow(pc) ==>
                                pc.Creating? && e.Act? && e.reply.Delivered? && OwnRow(pc') == Some(|s.rows|))
  {
  }

  lemma OwnersStep(cfg: Config, s: State, e: Event)
    requires OwnersOk(s)
    ensures OwnersOk(Next(cfg, s, e))
  {
    var t := Next(cfg, s, e);
    NextMoves(cfg, s, e);
    NextGrows(cfg, s, e);
    NextJobs(cfg, s, e);
    forall c | c in t.callers && OwnRow(t.callers[c]).Some?
      ensures RowFor(t, t.callers[c].r, OwnRow(t.callers[c]).value) {
      if c in s.callers && CallerOf(e) == Some(c) {
        MovedOwns(cfg, s, s.callers[c], e);
        if OwnRow(t.callers[c]) != OwnRow(s.callers[c]) { CreatedRow(cfg, s, e); }
      }
    }
  }

  lemma EffectReceipted(cfg: Config, s: State, pc: Pc, x: Choice)
    requires Receipted(s) && (OwnRow(pc).Some? ==> RowFor(s, pc.r, OwnRow(pc).value))
    ensures Receipted(Effect(cfg, s, pc, x))
  {
  }

  lemma WorkerReceipted(cfg: Config, s: State, pc: WorkerPc, x: Choice)
    requires Receipted(s) && RowFor(s, pc.job.request, pc.job.row)
    ensures Receipted(WorkerEffect(cfg, s, pc, x))
  {
  }

  lemma ReceiptedStep(cfg: Config, s: State, e: Event)
    requires OwnersOk(s) && Receipted(s)
    ensures Receipted(Next(cfg, s, e))
  {
    match e
    case Act(c, reply, x) => if c in s.callers { EffectReceipted(cfg, s, s.callers[c], x); }
    case WorkerActs(w, reply, x) => if w in s.workers { WorkerReceipted(cfg, s, s.workers[w], x); }
    case _ =>
  }

  lemma {:induction false} ReceiptedFrom(cfg: Config, s: State, es: seq<Event>)
    requires Receipted(s) && OwnersOk(s)
    ensures Receipted(Run(cfg, s, es)) && OwnersOk(Run(cfg, s, es))
  {
    if es != [] {
      var init := es[..|es| - 1];
      ReceiptedFrom(cfg, s, init);
      OwnersStep(cfg, Run(cfg, s, init), es[|es| - 1]);
      ReceiptedStep(cfg, Run(cfg, s, init), es[|es| - 1]);
    }
  }

  /** In any interleaving of settle runs, confirmation attempts, crashes, expiries and faults, every confirmed
      settlement's request has a receipt (RunGrows: it is written once and never changed). */
  lemma EveryConfirmationReceipted(cfg: Config, es: seq<Event>)
    ensures Receipted(Run(cfg, Init, es)) && OwnersOk(Run(cfg, Init, es))
  {
    ReceiptedFrom(cfg, Init, es);
  }

  lemma {:induction false} RunGrows(cfg: Config, s: State, es: seq<Event>)
    ensures Grows(s, Run(cfg, s, es))
  {
    if es != [] {
      RunGrows(cfg, s, es[..|es| - 1]);
      NextGrows(cfg, Run(cfg, s, es[..|es| - 1]), es[|es| - 1]);
    }
  }

  // ---------------------------------------------------------------- what a receipt says

  /** Every receipt names a row of its own request, and no two share an id. */
  ghost predicate ReceiptsOk(s: State) {
    && (forall r :: r in s.receipts ==> RowFor(s, r, s.receipts[r].settlement))
    && (forall q, r :: q in s.receipts && r in s.receipts && q != r ==> s.receipts[q].id != s.receipts[r].id)
  }

  /** The receipt that step `e` writes for request `r`: with the id generated for it, naming the row the step confirms,
      which is the caller's own or the one of the worker's job. */
  ghost predicate Writes(s: State, t: State, e: Event, r: RequestId) {
    && r in t.receipts && RowFor(t, r, t.receipts[r].settlement)
    && t.rows[t.receipts[r].settlement].status.Confirmed? && !ConfirmedFor(s, r, t.receipts[r].settlement)
    && match e
       case Act(c, reply, x) =>
         && c in s.callers && !reply.Dropped? && s.callers[c].Confirming? && s.callers[c].r == r
         && t.receipts[r] == Receipt(x.id, s.callers[c].row)
       case WorkerActs(w, reply, x) =>
         && w in s.workers && !reply.Dropped? && s.workers[w].Persisting? && s.workers[w].job.request == r
         && t.receipts[r] == Receipt(x.id, s.workers[w].job.row)
       case _ => false
  }

  lemma CallerWrites(cfg: Config, s: State, c: CallerId, reply: Reply, x: Choice, r: RequestId)
    requires OwnersOk(s) && Receipted(s) && c in s.callers
    ensures var e := Act(c, reply, x); var t := Next(cfg, s, e);
            && (forall q :: q in t.receipts && q !in s.receipts ==> IdFree(s, t.receipts[q].id) && q == s.callers[c].r)
            && (r !in s.receipts && r in t.receipts ==> Writes(s, t, e, r))
  {
    var pc := s.callers[c];
    if pc.Confirming? { assert RowFor(s, pc.r, OwnRow(pc).value); }
  }

  lemma WorkerWrites(cfg: Config, s: State, w: CallerId, reply: Reply, x: Choice, r: RequestId)
    requires OwnersOk(s) && Receipted(s) && w in s.workers
    ensures var e := WorkerActs(w, reply, x); var t := Next(cfg, s, e);
            && (forall q :: q in t.receipts && q !in s.receipts ==>
                  IdFree(s, t.receipts[q].id) && q == s.workers[w].job.request)
            && (r !in s.receipts && r in t.receipts ==> Writes(s, t, e, r))
  {
    assert RowFor(s, s.workers[w].job.request, s.workers[w].job.row);
  }

  /** Whoever writes a receipt, a caller or a worker, writes it for the row it confirms in that step. */
  lemma ReceiptWritten(cfg: Config, s: State, e: Event, r: RequestId)
    requires OwnersOk(s) && Receipted(s) && r !in s.receipts && r in Next(cfg, s, e).receipts
    ensures Writes(s, Next(cfg, s, e), e, r) && IdFree(s, Next(cfg, s, e).receipts[r].id)
  {
    match e
    case Act(c, reply, x) => if c in s.callers { CallerWrites(cfg, s, c, reply, x, r); }
    case WorkerActs(w, reply, x) => if w in s.workers { WorkerWrites(cfg, s, w, reply, x, r); }
    case _ =>
  }

  lemma OneReceiptAtATime(cfg: Config, s: State, e: Event, q: RequestId, r: RequestId)
    requires OwnersOk(s) && Receipted(s)
    requires q !in s.receipts && q in Next(cfg, s, e).receipts && r !in s.receipts && r in Next(cfg, s, e).receipts
    ensures q == r
  {
    ReceiptWritten(cfg, s, e, q);
    ReceiptWritten(cfg, s, e, r);
  }

  lemma ReceiptsStep(cfg: Config, s: State, e: Event)
    requires OwnersOk(s) && Receipted(s) && ReceiptsOk(s)
    ensures ReceiptsOk(Next(cfg, s, e))
  {
    var t := Next(cfg, s, e);
    NextGrows(cfg, s, e);
    forall r | r in t.receipts ensures RowFor(t, r, t.receipts[r].settlement) {
      if r !in s.receipts { ReceiptWritten(cfg, s, e, r); }
    }
    forall q, r | q in t.receipts && r in t.receipts && q != r ensures t.receipts[q].id != t.receipts[r].id {
      if q !in s.receipts { ReceiptWritten(cfg, s, e, q); }
      if r !in s.receipts { ReceiptWritten(cfg, s, e, r); }
      if q !in s.receipts && r !in s.receipts { OneReceiptAtATime(cfg, s, e, q, r); }
    }
  }

  /** In every run, jobs included, every receipt names a row of its own request, and receipt ids are unique. */
  lemma {:induction false} RunReceipts(cfg: Config, s: State, es: seq<Event>)
    requires OwnersOk(s) && Receipted(s) && ReceiptsOk(s)
    ensures ReceiptsOk(Run(cfg, s, es))
  {
    if es != [] {
      RunReceipts(cfg, s, es[..|es| - 1]);
      ReceiptedFrom(cfg, s, es[..|es| - 1]);
      ReceiptsStep(cfg, Run(cfg, s, es[..|es| - 1]), es[|es| - 1]);
    }
  }

  /** No transaction hash stands in two rows. */
  ghost predicate HashesUnique(s: State) {
    forall i, j :: 0 <= i < j < |s.rows| && s.rows[i].details.Some? && s.rows[j].details.Some? ==>
      s.rows[i].details.value.txHash != s.rows[j].details.value.txHash
  }

  lemma CallerHashes(cfg: Config, s: State, pc: Pc, x: Choice)
    requires HashesUnique(s)
    ensures HashesUnique(Effect(cfg, s, pc, x))
  {
  }

  lemma WorkerHashes(cfg: Config, s: State, pc: WorkerPc, x: Choice)
    requires HashesUnique(s)
    ensures HashesUnique(WorkerEffect(cfg, s, pc, x))
  {
  }

  /** In every run, jobs included, no two settlements ever carry one transaction hash. */
  lemma {:induction false} OneHashOneRow(cfg: Config, es: seq<Event>)
    ensures HashesUnique(Run(cfg, Init, es))
  {
    if es != [] {
      var s, e := Run(cfg, Init, es[..|es| - 1]), es[|es| - 1];
      OneHashOneRow(cfg, es[..|es| - 1]);
      match e
      case Act(c, _, x) => if c in s.callers { CallerHashes(cfg, s, s.callers[c], x); }
      case WorkerActs(w, _, x) => if w in s.workers { WorkerHashes(cfg, s, s.workers[w], x); }
      case _ =>
    }
  }

  /** Every confirmed answer, given or on its way, carries its request's receipt. */
  ghost predicate AnswersReceipted(s: State) {
    forall c :: c in s.callers ==> AnswerReceipted(s, s.callers[c])
  }

  predicate AnswerReceipted(s: State, pc: Pc) {
    (pc.Unlocking? || pc.Done?) && pc.response.Settled? ==>
      pc.r in s.receipts && pc.response.receiptId == Some(s.receipts[pc.r].id)
  }

  lemma MovedReceipted(cfg: Config, s: State, pc: Pc, e: Event)
    requires Receipted(s) && AnswerReceipted(s, pc) && e.Act?
    ensures AnswerReceipted(if e.reply.Dropped? then s else Effect(cfg, s, pc, e.x), Moved(cfg, s, pc, e))
  {
  }

  lemma ReceiptStays(s: State, t: State, pc: Pc)
    requires AnswerReceipted(s, pc) && Grows(s, t)
    ensures AnswerReceipted(t, pc)
  {
  }

  lemma NextReceipts(cfg: Config, s: State, e: Event)
    requires e.Act? && e.c in s.callers
    ensures Next(cfg, s, e).receipts == (if e.reply.Dropped? then s else Effect(cfg, s, s.callers[e.c], e.x)).receipts
  {
  }

  lemma AnswersStep(cfg: Config, s: State, e: Event)
    requires Receipted(s) && AnswersReceipted(s)
    ensures AnswersReceipted(Next(cfg, s, e))
  {
    var t := Next(cfg, s, e);
    NextMoves(cfg, s, e);
    NextGrows(cfg, s, e);
    forall c | c in t.callers ensures AnswerReceipted(t, t.callers[c]) {
      if c in s.callers {
        ReceiptStays(s, t, s.callers[c]);
        if e.Act? && e.c == c {
          MovedReceipted(cfg, s, s.callers[c], e);
          NextReceipts(cfg, s, e);
        }
      }
    }
  }

  lemma {:induction false} RunAnswers(cfg: Config, es: seq<Event>)
    ensures AnswersReceipted(Run(cfg, Init, es))
  {
    if es != [] {
      RunAnswers(cfg, es[..|es| - 1]);
      EveryConfirmationReceipted(cfg, es[..|es| - 1]);
      AnswersStep(cfg, Run(cfg, Init, es[..|es| - 1]), es[|es| - 1]);
    }
  }

  /** Whatever jobs, expiries, crashes and faults there are, any two confirmed answers for one request carry the same
      receipt. */
  lemma OneReceiptAnswered(cfg: Config, es: seq<Event>, c: CallerId, d: CallerId)
    requires var s := Run(cfg, Init, es);
             && c in s.callers && d in s.callers && s.callers[c].Done? && s.callers[d].Done?
             && s.callers[c].r == s.callers[d].r && s.callers[c].response.Settled? && s.callers[d].response.Settled?
    ensures var s := Run(cfg, Init, es);
            && s.callers[c].r in s.receipts && s.callers[c].response.receiptId == s.callers[d].response.receiptId
            && s.callers[c].response.receiptId == Some(s.receipts[s.callers[c].r].id)
  {
    RunAnswers(cfg, es);
    assert AnswerReceipted(Run(cfg, Init, es), Run(cfg, Init, es).callers[c]);
    assert AnswerReceipted(Run(cfg, Init, es), Run(cfg, Init, es).callers[d]);
  }

  // ---------------------------------------------------------------- what changes a confirmed row

  /** The row carries another hash, other fees or another time than a worker is about to write. */
  predicate OtherDetails(cfg: Config, row: Row, tx: TxHash, at: nat) {
    match row.details
    case None => true
    case Some(d) => d.txHash != tx || d.fees != cfg.fees(row.request) || d.confirmedAt != at
  }

  /** A command that takes effect and touches row `i`: its creator's failure path, a worker whose receipt reverted or
      that gives up, or a worker that confirms the row with other details. */
  predicate Rewrites(cfg: Config, s: State, e: Event, i: nat)
    requires i < |s.rows|
  {
    match e
    case Act(c, reply, _) => c in s.callers && !reply.Dropped? && s.callers[c].Failing? && s.callers[c].row == i
    case WorkerActs(w, reply, x) =>
      w in s.workers && !reply.Dropped? && s.workers[w].job.row == i
      && (match s.workers[w]
          case Reverting(_, _) => true
          case GivingUp(_) => true
          case Persisting(job, _) => CanPersist(s, job, x.id) && OtherDetails(cfg, s.rows[i], job.tx, x.at)
          case _ => false)
    case _ => false
  }

  /** With jobs or without, in every state a run reaches (EveryConfirmationReceipted), a confirmed row changes in one
      step if and only if that step is one of these four. */
  lemma ConfirmedRowChangesExactly(cfg: Config, s: State, e: Event, i: nat)
    requires Receipted(s) && OwnersOk(s) && i < |s.rows| && s.rows[i].status.Confirmed?
    ensures i < |Next(cfg, s, e).rows|
    ensures Next(cfg, s, e).rows[i] != s.rows[i] <==> Rewrites(cfg, s, e, i)
  {
    match e
    case Act(c, _, x) =>
      if c in s.callers {
        if OwnRow(s.callers[c]).Some? { assert RowFor(s, s.callers[c].r, OwnRow(s.callers[c]).value); }
        CallerRewrites(cfg, s, s.callers[c], x, i);
      }
    case WorkerActs(w, _, x) => if w in s.workers { WorkerRewrites(cfg, s, s.workers[w], x, i); }
    case _ =>
  }

  lemma CallerRewrites(cfg: Config, s: State, pc: Pc, x: Choice, i: nat)
    requires Receipted(s) && i < |s.rows| && s.rows[i].status.Confirmed?
    requires OwnRow(pc).Some? ==> RowFor(s, pc.r, OwnRow(pc).value)
    ensures i < |Effect(cfg, s, pc, x).rows|
    ensures Effect(cfg, s, pc, x).rows[i] != s.rows[i] <==> pc.Failing? && pc.row == i
  {
  }

  lemma WorkerRewrites(cfg: Config, s: State, pc: WorkerPc, x: Choice, i: nat)
    requires i < |s.rows| && s.rows[i].status.Confirmed?
    ensures i < |WorkerEffect(cfg, s, pc, x).rows|
    ensures WorkerEffect(cfg, s, pc, x).rows[i] != s.rows[i] <==>
              && pc.job.row == i
              && (pc.Reverting? || pc.GivingUp?
                  || (pc.Persisting? && CanPersist(s, pc.job, x.id)
                      && OtherDetails(cfg, s.rows[i], pc.job.tx, x.at)))
  {
  }

  // ---------------------------------------------------------------- how many confirmed rows

  predicate ConfirmedFor(s: State, r: RequestId, i: nat) {
    RowFor(s, r, i) && s.rows[i].status.Confirmed?
  }

  ghost predicate OneConfirmedOf(s: State, r: RequestId) {
    forall i, j :: ConfirmedFor(s, r, i) && ConfirmedFor(s, r, j) ==> i == j
  }

  /** A worker's transaction takes effect on a row of a request that has another row confirmed already. */
  ghost predicate ConfirmsAgain(s: State, e: Event, r: RequestId) {
    && e.WorkerActs? && e.w in s.workers && s.workers[e.w].Persisting? && !e.reply.Dropped?
    && s.workers[e.w].job.request == r && CanPersist(s, s.workers[e.w].job, e.x.id)
    && exists i :: ConfirmedFor(s, r, i) && i != s.workers[e.w].job.row
  }

  /** Row `i` becomes confirmed only by its creator, whose request has no receipt yet, or by a worker on that row. */
  lemma NewlyConfirmed(cfg: Config, s: State, e: Event, r: RequestId, i: nat)
    requires OwnersOk(s) && ConfirmedFor(Next(cfg, s, e), r, i) && !ConfirmedFor(s, r, i)
    ensures || (r !in s.receipts && e.Act? && e.c in s.callers && OwnRow(s.callers[e.c]) == Some(i))
            || (e.WorkerActs? && e.w in s.workers && s.workers[e.w].Persisting? && !e.reply.Dropped?
                && s.workers[e.w].job.request == r && s.workers[e.w].job.row == i
                && CanPersist(s, s.workers[e.w].job, e.x.id))
  {
    match e
    case Act(c, _, x) =>
      if c in s.callers {
        if OwnRow(s.callers[c]).Some? { assert RowFor(s, s.callers[c].r, OwnRow(s.callers[c]).value); }
        CallerConfirms(cfg, s, s.callers[c], x, r, i);
      }
    case WorkerActs(w, _, x) => if w in s.workers { WorkerConfirms(cfg, s, s.workers[w], x, r, i); }
    case _ =>
  }

  lemma CallerConfirms(cfg: Config, s: State, pc: Pc, x: Choice, r: RequestId, i: nat)
    requires OwnRow(pc).Some? ==> RowFor(s, pc.r, OwnRow(pc).value)
    ensures ConfirmedFor(Effect(cfg, s, pc, x), r, i) && !ConfirmedFor(s, r, i) ==>
              r !in s.receipts && OwnRow(pc) == Some(i)
  {
  }

  lemma WorkerConfirms(cfg: Config, s: State, pc: WorkerPc, x: Choice, r: RequestId, i: nat)
    requires RowFor(s, pc.job.request, pc.job.row)
    ensures ConfirmedFor(WorkerEffect(cfg, s, pc, x), r, i) && !ConfirmedFor(s, r, i) ==>
              pc.Persisting? && pc.job.request == r && pc.job.row == i && CanPersist(s, pc.job, x.id)
  {
  }

  lemma ConfirmsNoOther(cfg: Config, s: State, e: Event, r: RequestId, i: nat, j: nat)
    requires OwnersOk(s) && Receipted(s) && OneConfirmedOf(s, r) && !ConfirmsAgain(s, e, r)
    requires ConfirmedFor(Next(cfg, s, e), r, i) && ConfirmedFor(Next(cfg, s, e), r, j) && !ConfirmedFor(s, r, i)
    ensures i == j
  {
    NewlyConfirmed(cfg, s, e, r, i);
    if !ConfirmedFor(s, r, j) { NewlyConfirmed(cfg, s, e, r, j); }
  }

  lemma AgainConfirms(cfg: Config, s: State, e: Event, r: RequestId)
    requires OwnersOk(s) && ConfirmsAgain(s, e, r)
    ensures !OneConfirmedOf(Next(cfg, s, e), r)
  {
    var t, row := Next(cfg, s, e), s.workers[e.w].job.row;
    var i :| ConfirmedFor(s, r, i) && i != row;
    assert RowFor(s, r, row);
    assert ConfirmedFor(t, r, i) && ConfirmedFor(t, r, row);
  }

  /** With jobs or without, a request gets a second confirmed row in one step if and only if a worker persists its job
      while another row of the request is confirmed. */
  lemma SecondConfirmedExactly(cfg: Config, s: State, e: Event, r: RequestId)
    requires OwnersOk(s) && Receipted(s) && OneConfirmedOf(s, r)
    ensures OneConfirmedOf(Next(cfg, s, e), r) <==> !ConfirmsAgain(s, e, r)
  {
    if ConfirmsAgain(s, e, r) {
      AgainConfirms(cfg, s, e, r);
    } else {
      var t := Next(cfg, s, e);
      forall i, j | ConfirmedFor(t, r, i) && ConfirmedFor(t, r, j) ensures i == j {
        if !ConfirmedFor(s, r, i) {
          ConfirmsNoOther(cfg, s, e, r, i, j);
        } else if !ConfirmedFor(s, r, j) {
          ConfirmsNoOther(cfg, s, e, r, j, i);
        }
      }
    }
  }

  /** Some step of the run confirmed again. */
  ghost predicate EverConfirmedAgain(cfg: Config, es: seq<Event>, r: RequestId) {
    es != []
    && (EverConfirmedAgain(cfg, es[..|es| - 1], r) || ConfirmsAgain(Run(cfg, Init, es[..|es| - 1]), es[|es| - 1], r))
  }

  /** At every moment of the run the request has at most one confirmed row. */
  ghost predicate AlwaysOneConfirmed(cfg: Config, es: seq<Event>, r: RequestId) {
    OneConfirmedOf(Run(cfg, Init, es), r) && (es != [] ==> AlwaysOneConfirmed(cfg, es[..|es| - 1], r))
  }

  /** Over whole runs: a request has at most one confirmed row throughout if and only if no worker ever persisted while
      another row of it was confirmed. */
  lemma {:induction false} OneConfirmedExactly(cfg: Config, es: seq<Event>, r: RequestId)
    ensures AlwaysOneConfirmed(cfg, es, r) <==> !EverConfirmedAgain(cfg, es, r)
  {
    if es != [] {
      var init := es[..|es| - 1];
      OneConfirmedExactly(cfg, init, r);
      EveryConfirmationReceipted(cfg, init);
      if AlwaysOneConfirmed(cfg, init, r) {
        assert OneConfirmedOf(Run(cfg, Init, init), r);
        SecondConfirmedExactly(cfg, Run(cfg, Init, init), es[|es| - 1], r);
      }
    }
  }

  // ---------------------------------------------------------------- mutual exclusion

  /** Between its successful SET NX and its DEL. */
  predicate Inside(pc: Pc) {
    pc.Creating? || pc.Submitting? || pc.Confirming? || pc.Unlocking? || pc.Failing? || pc.LastUnlock?
  }

  ghost predicate Mutex(s: State) {
    && (forall c :: c in s.callers && Inside(s.callers[c]) ==> s.callers[c].r in s.locks)
    && (forall c, d :: c in s.callers && d in s.callers && c != d && Inside(s.callers[c]) && Inside(s.callers[d]) ==>
          s.callers[c].r != s.callers[d].r)
  }

  ghost predicate Held(s: State, r: RequestId) {
    exists d :: d in s.callers && Inside(s.callers[d]) && s.callers[d].r == r
  }

  /** The lock goes while somebody holds it: it expires, a worker deletes it, or its holder's DEL after the confirmation
      deletes it and is not acknowledged, which sends the holder into the catch block. */
  ghost predicate TakesLock(s: State, e: Event) {
    match e
    case LockExpires(r) => Held(s, r)
    case WorkerActs(w, reply, _) =>
      w in s.workers && s.workers[w].DeletingLock? && !reply.Dropped? && Held(s, s.workers[w].job.request)
    case Act(c, reply, _) => c in s.callers && s.callers[c].Unlocking? && reply.ReplyLost?
    case _ => false
  }

  lemma MovedInside(cfg: Config, s: State, pc: Pc, e: Event)
    ensures var pc' := Moved(cfg, s, pc, e);
            && (Inside(pc') && !Inside(pc) ==> pc.Locking? && e.Act? && e.reply.Delivered? && pc.r !in s.locks)
            && pc'.r == pc.r
  {
  }

  /** What a step does to the lock keys. */
  lemma LocksStep(cfg: Config, s: State, e: Event)
    ensures Next(cfg, s, e).locks ==
              match e
              case LockExpires(r) => s.locks - {r}
              case WorkerActs(w, reply, _) =>
                if w in s.workers && s.workers[w].DeletingLock? && !reply.Dropped?
                then s.locks - {s.workers[w].job.request}
                else s.locks
              case Act(c, reply, _) =>
                if c !in s.callers || reply.Dropped? then s.locks
                else if s.callers[c].Locking? then s.locks + {s.callers[c].r}
                else if s.callers[c].Unlocking? || s.callers[c].LastUnlock? then s.locks - {s.callers[c].r}
                else s.locks
              case _ => s.locks
  {
  }

  /** Whoever is inside after a step still has the lock, or has just taken it. */
  lemma InsideHasLock(cfg: Config, s: State, e: Event, d: CallerId)
    requires Mutex(s) && !TakesLock(s, e) && d in Next(cfg, s, e).callers && Inside(Next(cfg, s, e).callers[d])
    ensures Next(cfg, s, e).callers[d].r in Next(cfg, s, e).locks
  {
    NextMoves(cfg, s, e);
    LocksStep(cfg, s, e);
    if d in s.callers {
      if CallerOf(e) == Some(d) { MovedInside(cfg, s, s.callers[d], e); }
      if Inside(s.callers[d]) { assert Held(s, s.callers[d].r); }
    }
  }

  lemma KeepsLock(cfg: Config, s: State, e: Event)
    requires Mutex(s) && !TakesLock(s, e)
    ensures Mutex(Next(cfg, s, e))
  {
    var t := Next(cfg, s, e);
    forall d | d in t.callers && Inside(t.callers[d]) ensures t.callers[d].r in t.locks { InsideHasLock(cfg, s, e, d); }
    NextMoves(cfg, s, e);
    var c := CallerOf(e);
    if c.Some? && c.value in s.callers { MovedInside(cfg, s, s.callers[c.value], e); }
  }

  lemma TakingBreaks(cfg: Config, s: State, e: Event)
    requires TakesLock(s, e)
    ensures !Mutex(Next(cfg, s, e))
  {
    var t := Next(cfg, s, e);
    NextMoves(cfg, s, e);
    LocksStep(cfg, s, e);
    if e.Act? {
      assert Inside(t.callers[e.c]) && t.callers[e.c].r !in t.locks;
    } else {
      var r := if e.LockExpires? then e.r else s.workers[e.w].job.request;
      var d :| d in s.callers && Inside(s.callers[d]) && s.callers[d].r == r;
      assert t.callers[d] == s.callers[d] && r !in t.locks;
    }
  }

  /** A step of anybody, worker, clock or caller, breaks mutual exclusion if and only if it takes the lock from a
      runSettle that holds it. */
  lemma MutexExactly(cfg: Config, s: State, e: Event)
    requires Mutex(s)
    ensures Mutex(Next(cfg, s, e)) <==> !TakesLock(s, e)
  {
    if TakesLock(s, e) { TakingBreaks(cfg, s, e); } else { KeepsLock(cfg, s, e); }
  }

  /** Mutual exclusion: as long as no lock is taken from its holder, at most one runSettle per request is between its
      SET NX and its DEL, over all interleavings with workers, crashes, expiries and failure exits. */
  lemma {:induction false} MutualExclusion(cfg: Config, es: seq<Event>)
    requires forall i :: 0 <= i < |es| ==> !TakesLock(Run(cfg, Init, es[..i]), es[i])
    ensures Mutex(Run(cfg, Init, es))
  {
    if es != [] {
      var init := es[..|es| - 1];
      forall i | 0 <= i < |init| ensures !TakesLock(Run(cfg, Init, init[..i]), init[i]) { assert init[..i] == es[..i]; }
      MutualExclusion(cfg, init);
      MutexExactly(cfg, Run(cfg, Init, init), es[|es| - 1]);
    }
  }

  // ---------------------------------------------------------------- single shot

  /** A call begins only when every earlier one has returned or crashed. */
  predicate OneAtATime(s: State, e: Event) {
    e.Begin? ==> forall c :: c in s.callers ==> s.callers[c].Done?
  }

  ghost predicate NoRowFor(s: State, r: RequestId) {
    forall i :: !RowFor(s, r, i)
  }

  /** What the running call has still ahead of it. */
  ghost predicate FreshFor(s: State, pc: Pc) {
    match pc
    case Locking(r) => s.submits[r] == 0 && NoRowFor(s, r)
    case Creating(r) => s.submits[r] == 0 && NoRowFor(s, r)
    case Submitting(r, row) => s.submits[r] == 0 && RowFor(s, r, row)
    case _ => true
  }

  ghost predicate OneActive(s: State) {
    forall c, d :: c in s.callers && d in s.callers && !s.callers[c].Done? && !s.callers[d].Done? ==> c == d
  }

  ghost predicate OneRowEach(s: State) {
    forall i, j :: 0 <= i < j < |s.rows| ==> s.rows[i].request != s.rows[j].request
  }

  ghost predicate OneSubmitEach(s: State) {
    forall r :: s.submits[r] <= 1 && (s.submits[r] == 1 ==> !NoRowFor(s, r))
  }

  ghost predicate SingleShot(s: State) {
    && OneActive(s) && OneRowEach(s) && OneSubmitEach(s)
    && (forall c :: c in s.callers ==> FreshFor(s, s.callers[c]))
  }

  /** What a step does to the history and to the set of rows, under one running call. */
  lemma RowsAndSubmits(cfg: Config, s: State, e: Event)
    ensures var t := Next(cfg, s, e);
            && (e.Act? && e.c in s.callers && s.callers[e.c].Submitting? ==>
                  t.submits == s.submits + multiset{s.callers[e.c].r} && |t.rows| == |s.rows|)
            && (e.Act? && e.c in s.callers && s.callers[e.c].Creating? && !e.reply.Dropped? ==>
                  t.submits == s.submits && t.rows == s.rows + [Row(s.callers[e.c].r, Processing, None)])
            && (!(e.Act? && e.c in s.callers
                  && (s.callers[e.c].Submitting? || (s.callers[e.c].Creating? && !e.reply.Dropped?))) ==>
                  t.submits == s.submits && |t.rows| == |s.rows|)
  {
  }

  lemma MovedFresh(cfg: Config, s: State, pc: Pc, e: Event)
    requires FreshFor(s, pc) && OneSubmitEach(s) && e.Act?
    ensures var pc' := Moved(cfg, s, pc, e);
            && (pc'.Locking? || pc'.Creating? ==> s.submits[pc'.r] == 0 && NoRowFor(s, pc'.r))
            && (pc'.Locking? || pc'.Creating? || pc'.Submitting? ==> !pc.Submitting?)
            && (pc'.Locking? || pc'.Creating? ==> !pc.Creating?)
            && (pc'.Submitting? ==> pc.Creating? && e.reply.Delivered? && pc'.row == |s.rows| && s.submits[pc'.r] == 0)
  {
  }

  /** Steps of anybody but the running call add neither rows nor submissions. */
  lemma StillFresh(s: State, t: State, pc: Pc)
    requires FreshFor(s, pc) && t.submits == s.submits && |t.rows| == |s.rows| && Grows(s, t)
    ensures FreshFor(t, pc)
  {
    assert forall r, i :: RowFor(t, r, i) <==> RowFor(s, r, i);
  }

  lemma FreshStep(cfg: Config, s: State, e: Event)
    requires SingleShot(s)
    ensures forall c :: c in Next(cfg, s, e).callers ==> FreshFor(Next(cfg, s, e), Next(cfg, s, e).callers[c])
  {
    var t := Next(cfg, s, e);
    NextMoves(cfg, s, e);
    NextGrows(cfg, s, e);
    RowsAndSubmits(cfg, s, e);
    forall c | c in t.callers ensures FreshFor(t, t.callers[c]) {
      if e.Act? && e.c in s.callers && c == e.c {
        MovedFresh(cfg, s, s.callers[c], e);
        if t.callers[c].Submitting? {
          CreatedRow(cfg, s, e);
        } else if t.callers[c].Locking? || t.callers[c].Creating? {
          assert forall r, i :: RowFor(t, r, i) <==> RowFor(s, r, i);
        }
      } else if c in s.callers && !t.callers[c].Done? {
        StillFresh(s, t, s.callers[c]);
      }
    }
  }

  lemma RowsStep(cfg: Config, s: State, e: Event)
    requires SingleShot(s)
    ensures OneRowEach(Next(cfg, s, e)) && OneSubmitEach(Next(cfg, s, e))
  {
    var t := Next(cfg, s, e);
    NextGrows(cfg, s, e);
    RowsAndSubmits(cfg, s, e);
    forall r ensures t.submits[r] <= 1 && (t.submits[r] == 1 ==> !NoRowFor(t, r)) {
      if !NoRowFor(s, r) {
        var i :| RowFor(s, r, i);
        assert RowFor(t, r, i);
      }
      if t.submits[r] != s.submits[r] {
        var pc := s.callers[e.c];
        assert FreshFor(s, pc);
        assert RowFor(s, r, pc.row);
      }
    }
    if e.Act? && e.c in s.callers && s.callers[e.c].Creating? && !e.reply.Dropped? {
      assert FreshFor(s, s.callers[e.c]);
      forall i | 0 <= i < |s.rows| ensures s.rows[i].request != s.callers[e.c].r {
        assert !RowFor(s, s.callers[e.c].r, i);
      }
    }
  }

  lemma SingleShotStep(cfg: Config, s: State, e: Event)
    requires SingleShot(s) && OneAtATime(s, e)
    ensures SingleShot(Next(cfg, s, e))
  {
    FreshStep(cfg, s, e);
    RowsStep(cfg, s, e);
    NextMoves(cfg, s, e);
  }

  ghost predicate Sequential(cfg: Config, s: State, es: seq<Event>) {
    forall i :: 0 <= i < |es| ==> OneAtATime(Run(cfg, s, es[..i]), es[i])
  }

  lemma SequentialPrefix(cfg: Config, s: State, es: seq<Event>)
    requires Sequential(cfg, s, es) && es != []
    ensures Sequential(cfg, s, es[..|es| - 1])
    ensures OneAtATime(Run(cfg, s, es[..|es| - 1]), es[|es| - 1])
  {
    var init := es[..|es| - 1];
    forall i | 0 <= i < |init| ensures OneAtATime(Run(cfg, s, init[..i]), init[i]) { assert init[..i] == es[..i]; }
  }

  /** Single shot: over every sequence of non-overlapping runSettle calls, some cut short by crashes, with locks
      expiring and workers running as they please, submitOnChain is entered at most once per request. */
  lemma {:induction false} SubmitsAtMostOnce(cfg: Config, s: State, es: seq<Event>)
    requires SingleShot(s) && Sequential(cfg, s, es)
    ensures SingleShot(Run(cfg, s, es))
  {
    if es != [] {
      SequentialPrefix(cfg, s, es);
      SubmitsAtMostOnce(cfg, s, es[..|es| - 1]);
      SingleShotStep(cfg, Run(cfg, s, es[..|es| - 1]), es[|es| - 1]);
    }
  }

  lemma SubmitsOnceFromStart(cfg: Config, es: seq<Event>, r: RequestId)
    requires Sequential(cfg, Init, es)
    ensures Run(cfg, Init, es).submits[r] <= 1
  {
    SubmitsAtMostOnce(cfg, Init, es);
  }

  // ---------------------------------------------------------------- overlap: what exactly must not happen

  /** A caller that holds the lock creates a row although its request already has one: the check for an existing
      settlement precedes the lock and is not repeated under it (src/application/settle.service.ts:63 and :96). */
  ghost predicate CreatesAgain(s: State, e: Event, r: RequestId) {
    && e.Act? && e.c in s.callers && s.callers[e.c] == Creating(r) && !e.reply.Dropped?
    && !NoRowFor(s, r)
  }

  ghost predicate OneRowOf(s: State, r: RequestId) {
    forall i, j :: RowFor(s, r, i) && RowFor(s, r, j) ==> i == j
  }

  lemma RowsOfStep(cfg: Config, s: State, e: Event, r: RequestId, i: nat)
    ensures var t := Next(cfg, s, e);
            RowFor(t, r, i) <==>
              RowFor(s, r, i)
              || (i == |s.rows| && e.Act? && e.c in s.callers && s.callers[e.c] == Creating(r) && !e.reply.Dropped?)
  {
    NextGrows(cfg, s, e);
    RowsAndSubmits(cfg, s, e);
  }

  /** A request gets its second row in one step if and only if that step creates again. */
  lemma SecondRowExactly(cfg: Config, s: State, e: Event, r: RequestId)
    requires OneRowOf(s, r)
    ensures OneRowOf(Next(cfg, s, e), r) <==> !CreatesAgain(s, e, r)
  {
    var t := Next(cfg, s, e);
    var creates := e.Act? && e.c in s.callers && s.callers[e.c] == Creating(r) && !e.reply.Dropped?;
    forall i: nat ensures RowFor(t, r, i) <==> RowFor(s, r, i) || (i == |s.rows| && creates) {
      RowsOfStep(cfg, s, e, r, i);
    }
    if CreatesAgain(s, e, r) {
      var i :| RowFor(s, r, i);
      assert RowFor(t, r, i) && RowFor(t, r, |s.rows|);
    }
  }

  lemma SecondRowStays(cfg: Config, s: State, e: Event, r: RequestId)
    requires !OneRowOf(s, r)
    ensures !OneRowOf(Next(cfg, s, e), r)
  {
    NextGrows(cfg, s, e);
    var i, j :| RowFor(s, r, i) && RowFor(s, r, j) && i != j;
    assert RowFor(Next(cfg, s, e), r, i) && RowFor(Next(cfg, s, e), r, j);
  }

  /** Some step of the run created again. */
  ghost predicate EverCreatedAgain(cfg: Config, es: seq<Event>, r: RequestId) {
    es != []
    && (EverCreatedAgain(cfg, es[..|es| - 1], r) || CreatesAgain(Run(cfg, Init, es[..|es| - 1]), es[|es| - 1], r))
  }

  /** Over whole runs: a request has at most one settlement row if and only if no step created again. */
  lemma {:induction false} OneRowExactly(cfg: Config, es: seq<Event>, r: RequestId)
    ensures OneRowOf(Run(cfg, Init, es), r) <==> !EverCreatedAgain(cfg, es, r)
  {
    if es != [] {
      var init, e := es[..|es| - 1], es[|es| - 1];
      OneRowExactly(cfg, init, r);
      if OneRowOf(Run(cfg, Init, init), r) {
        SecondRowExactly(cfg, Run(cfg, Init, init), e, r);
      } else {
        SecondRowStays(cfg, Run(cfg, Init, init), e, r);
      }
    }
  }

  /** Two callers about to submit have created different rows. */
  ghost predicate SubmittersDistinct(s: State) {
    forall c, d ::
      c in s.callers && d in s.callers && c != d && s.callers[c].Submitting? && s.callers[d].Submitting? ==>
        s.callers[c].row != s.callers[d].row
  }

  /** While a request has one row, that row has not been submitted as long as its creator is still about to submit. */
  ghost predicate SubmitsOk(s: State, r: RequestId) {
    && OneRowOf(s, r)
    && s.submits[r] <= 1 && (NoRowFor(s, r) ==> s.submits[r] == 0)
    && (forall c :: c in s.callers && s.callers[c].Submitting? && s.callers[c].r == r ==>
          RowFor(s, r, s.callers[c].row) && s.submits[r] == 0)
    && SubmittersDistinct(s)
    && (forall c :: c in s.callers && s.callers[c].Submitting? ==> s.callers[c].row < |s.rows|)
  }

  /** The only way to be about to submit is to have just created a row. */
  lemma MovedSubmitting(cfg: Config, s: State, pc: Pc, e: Event)
    ensures var pc' := Moved(cfg, s, pc, e);
            pc'.r == pc.r && (pc'.Submitting? ==>
              (pc' == pc && !e.Act?) || (e.Act? && e.reply.Delivered? && pc.Creating? && pc'.row == |s.rows|))
  {
  }

  /** Where the callers that are about to submit come from. */
  lemma SubmittersStep(cfg: Config, s: State, e: Event, c: CallerId)
    requires c in Next(cfg, s, e).callers && Next(cfg, s, e).callers[c].Submitting?
    ensures c in s.callers && Next(cfg, s, e).callers[c].r == s.callers[c].r
    ensures if e.Act? && e.c == c
            then e.reply.Delivered? && s.callers[c].Creating? && Next(cfg, s, e).callers[c].row == |s.rows|
            else Next(cfg, s, e).callers[c] == s.callers[c]
  {
    NextMoves(cfg, s, e);
    if c in s.callers { MovedSubmitting(cfg, s, s.callers[c], e); }
  }

  lemma DistinctSubmitters(cfg: Config, s: State, e: Event, c: CallerId, d: CallerId)
    requires SubmittersDistinct(s)
    requires forall a :: a in s.callers && s.callers[a].Submitting? ==> s.callers[a].row < |s.rows|
    requires var t := Next(cfg, s, e);
             c in t.callers && d in t.callers && c != d && t.callers[c].Submitting? && t.callers[d].Submitting?
    ensures Next(cfg, s, e).callers[c].row != Next(cfg, s, e).callers[d].row
  {
    SubmittersStep(cfg, s, e, c);
    SubmittersStep(cfg, s, e, d);
  }

  /** What one step adds to the submissions of one request. */
  lemma SubmitsOfStep(cfg: Config, s: State, e: Event, r: RequestId)
    ensures Next(cfg, s, e).submits[r] ==
              s.submits[r]
              + if e.Act? && e.c in s.callers && s.callers[e.c].Submitting? && s.callers[e.c].r == r then 1 else 0
    ensures |s.rows| <= |Next(cfg, s, e).rows|
  {
    RowsAndSubmits(cfg, s, e);
    NextGrows(cfg, s, e);
  }

  lemma OneSubmitterOf(s: State, r: RequestId, c: CallerId, d: CallerId)
    requires SubmitsOk(s, r) && c in s.callers && d in s.callers && s.callers[c].Submitting? && s.callers[d].Submitting?
    requires s.callers[c].r == r && s.callers[d].r == r
    ensures c == d
  {
    assert RowFor(s, r, s.callers[c].row) && RowFor(s, r, s.callers[d].row);
  }

  lemma SubmitterKept(cfg: Config, s: State, e: Event, r: RequestId, c: CallerId)
    requires SubmitsOk(s, r) && !CreatesAgain(s, e, r)
    requires var t := Next(cfg, s, e); c in t.callers && t.callers[c].Submitting? && t.callers[c].r == r
    ensures var t := Next(cfg, s, e); RowFor(t, r, t.callers[c].row) && t.submits[r] == 0
  {
    SubmittersStep(cfg, s, e, c);
    SubmitsOfStep(cfg, s, e, r);
    RowsOfStep(cfg, s, e, r, Next(cfg, s, e).callers[c].row);
    if !(e.Act? && e.c == c) && e.Act? && e.c in s.callers && s.callers[e.c].Submitting? && s.callers[e.c].r == r {
      OneSubmitterOf(s, r, c, e.c);
    }
  }

  lemma SubmitsStep(cfg: Config, s: State, e: Event, r: RequestId)
    requires SubmitsOk(s, r) && !CreatesAgain(s, e, r)
    ensures SubmitsOk(Next(cfg, s, e), r)
  {
    var t := Next(cfg, s, e);
    SecondRowExactly(cfg, s, e, r);
    SubmitsOfStep(cfg, s, e, r);
    forall c | c in t.callers && t.callers[c].Submitting? && t.callers[c].r == r
      ensures RowFor(t, r, t.callers[c].row) && t.submits[r] == 0
    {
      SubmitterKept(cfg, s, e, r, c);
    }
    forall c, d | c in t.callers && d in t.callers && c != d && t.callers[c].Submitting? && t.callers[d].Submitting?
      ensures t.callers[c].row != t.callers[d].row
    {
      DistinctSubmitters(cfg, s, e, c, d);
    }
    forall c | c in t.callers && t.callers[c].Submitting? ensures t.callers[c].row < |t.rows| {
      SubmittersStep(cfg, s, e, c);
      if e.Act? && e.c == c { CreatedRow(cfg, s, e); }
    }
    if !NoRowFor(s, r) {
      var i :| RowFor(s, r, i);
      RowsOfStep(cfg, s, e, r, i);
    }
  }

  /** Single shot under overlap: over all interleavings in which no caller creates a row for a request that has one,
      submitOnChain is entered at most once for that request, and it has at most one row. */
  lemma {:induction false} SubmitsOnceUnlessCreatedAgain(cfg: Config, es: seq<Event>, r: RequestId)
    requires !EverCreatedAgain(cfg, es, r)
    ensures SubmitsOk(Run(cfg, Init, es), r)
  {
    if es != [] {
      var init, e := es[..|es| - 1], es[|es| - 1];
      SubmitsOnceUnlessCreatedAgain(cfg, init, r);
      SubmitsStep(cfg, Run(cfg, Init, init), e, r);
    }
  }
}
