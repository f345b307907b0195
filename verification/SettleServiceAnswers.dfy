/** What runSettle answers, over all runs, jobs included: exactly what the call has heard; and what later calls hear
    of a settlement that nobody works on any more. */
module SettleServiceAnswers {
  import opened Prelude
  import opened SettleService
  import opened SettleServiceTheorems
  import Replies = SettleServiceReplies

  // ---------------------------------------------------------------- an answer is what the call was told

  /** What an await may tell a call that decides its answer. */
  datatype Heard =
    | Nothing
    | NoVerification
    | FoundConfirmed(answer: Response)
    | FoundFailed
    | FoundProcessing
    | LockTaken
    | Committed(answer: Response)
    | FailureHandled
    | StoreFault

  /** The row the read for an existing settlement found, as it stands in the tables. */
  function FoundIn(s: State, r: RequestId, i: nat): Heard
    requires RowFor(s, r, i)
  {
    if s.rows[i].status == Failed then FoundFailed
    else if s.rows[i].status == Processing then FoundProcessing
    else FoundConfirmed(Settled(i, s.rows[i].details, if r in s.receipts then Some(s.receipts[r].id) else None))
  }

  /** What step `e` from `s` to `t` tells call `c`. Its own confirmation is known by the receipt that was not there
      before, and is told as that receipt and the row it names. */
  function HeardIn(cfg: Config, s: State, t: State, e: Event, c: CallerId): Heard {
    if !(e.Act? && e.c == c && c in s.callers) then Nothing
    else
      var pc := s.callers[c];
      if pc.LastUnlock? then FailureHandled
      else if !e.reply.Delivered? then
        if pc.Loading? || pc.Checking? || pc.Locking? || pc.Creating? then StoreFault else Nothing
      else if pc.r !in s.receipts && pc.r in t.receipts && t.receipts[pc.r].settlement < |t.rows| then
        var receipt := t.receipts[pc.r];
        Committed(Settled(receipt.settlement, t.rows[receipt.settlement].details, Some(receipt.id)))
      else
        match pc
        case Loading(r, v) => if (v, r) in cfg.accepted then Nothing else NoVerification
        case Checking(r) => if RowFor(s, r, e.x.pick) then FoundIn(s, r, e.x.pick) else Nothing
        case Locking(r) => if r in s.locks then LockTaken else Nothing
        case _ => Nothing
  }

  /** The last thing the run told call `c`. */
  ghost function Told(cfg: Config, s: State, es: seq<Event>, c: CallerId): Heard {
    if es == [] then Nothing
    else
      var init, e := es[..|es| - 1], es[|es| - 1];
      var u := Run(cfg, s, init);
      var h := HeardIn(cfg, u, Next(cfg, u, e), e, c);
      if h.Nothing? then Told(cfg, s, init, c) else h
  }

  predicate AnswersTo(o: Response, heard: Heard) {
    match heard
    case Nothing => false
    case NoVerification => o == Rejected(VerificationNotFound)
    case FoundConfirmed(answer) => o == answer
    case FoundFailed => o == Rejected(SettlementFailed)
    case FoundProcessing => o == Rejected(SettlementPending)
    case LockTaken => o == Rejected(SettlementPending)
    case Committed(answer) => o == answer
    case FailureHandled => o == Rejected(SettlementFailed)
    case StoreFault => o == Threw
  }

  ghost predicate Fits(pc: Pc, heard: Heard) {
    match pc
    case Unlocking(_, _, o) => heard == Committed(o)
    case Failing(_, _) => heard.Nothing? || heard.Committed?
    case LastUnlock(_) => heard.Nothing? || heard.Committed?
    case Done(_, o) => o.Crashed? || AnswersTo(o, heard)
    case _ => heard.Nothing?
  }

  ghost predicate Fated(s: State, c: CallerId, heard: Heard) {
    if c in s.callers then Fits(s.callers[c], heard) else heard.Nothing?
  }

  /** Only a confirming transaction that commits writes a receipt, and it names the caller's row. */
  lemma ReceiptsOf(cfg: Config, s: State, c: CallerId, reply: Reply, x: Choice)
    requires c in s.callers
    ensures var pc := s.callers[c]; var t := ActStep(cfg, s, c, reply, x);
            && (pc.r !in s.receipts && pc.r in t.receipts <==>
                  pc.Confirming? && !reply.Dropped? && CanConfirm(s, pc.r, pc.row, pc.tx, x.id))
            && (pc.Confirming? && !reply.Dropped? && CanConfirm(s, pc.r, pc.row, pc.tx, x.id) ==>
                  t.receipts[pc.r] == Receipt(x.id, pc.row) && pc.row < |t.rows|
                  && t.rows[pc.row].details == Some(Details(pc.tx, cfg.fees(s.rows[pc.row].request), x.at)))
  {
  }

  lemma OwnFate(cfg: Config, s: State, c: CallerId, reply: Reply, x: Choice, heard: Heard)
    requires c in s.callers && Fits(s.callers[c], heard)
    ensures var t := ActStep(cfg, s, c, reply, x);
            var h := HeardIn(cfg, s, t, Act(c, reply, x), c);
            Fits(t.callers[c], if h.Nothing? then heard else h)
  {
    ReceiptsOf(cfg, s, c, reply, x);
  }

  lemma FateStep(cfg: Config, s: State, e: Event, c: CallerId, heard: Heard)
    requires Fated(s, c, heard)
    ensures var t := Next(cfg, s, e); var h := HeardIn(cfg, s, t, e, c);
            Fated(t, c, if h.Nothing? then heard else h)
  {
    NextMoves(cfg, s, e);
    if e.Act? && e.c == c && c in s.callers { OwnFate(cfg, s, c, e.reply, e.x, heard); }
  }

  lemma {:induction false} FateRun(cfg: Config, s: State, es: seq<Event>, c: CallerId)
    requires c !in s.callers
    ensures Fated(Run(cfg, s, es), c, Told(cfg, s, es, c))
  {
    if es != [] {
      var init, e := es[..|es| - 1], es[|es| - 1];
      FateRun(cfg, s, init, c);
      FateStep(cfg, Run(cfg, s, init), e, c, Told(cfg, s, init, c));
    }
  }

  /** Over all runs, the answer of a call that did not crash is the one that belongs to the last thing it was told: a
      confirmed row found, or its own receipt written, with all their fields; settlement_failed for a failed row and
      after the catch block; settlement_pending for a processing row and for a lock that is taken. */
  lemma AnswersExactly(cfg: Config, s: State, es: seq<Event>, c: CallerId)
    requires c !in s.callers
    requires var t := Run(cfg, s, es); c in t.callers && t.callers[c].Done? && !t.callers[c].response.Crashed?
    ensures AnswersTo(Run(cfg, s, es).callers[c].response, Told(cfg, s, es, c))
  {
    FateRun(cfg, s, es, c);
  }

  // ---------------------------------------------------------------- what is submitted, and what comes of it

  /** The creation of the row is answered, and the asset is configured. */
  predicate FindsAsset(s: State, e: Event, c: CallerId) {
    e.Act? && e.c == c && e.reply.Delivered? && c in s.callers && s.callers[c].Creating? && e.x.configured
  }

  /** Call `c` enters submitOnChain. */
  predicate Enters(s: State, e: Event, c: CallerId) {
    e.Act? && e.c == c && c in s.callers && s.callers[c].Submitting?
  }

  ghost predicate EverFoundAsset(cfg: Config, s: State, es: seq<Event>, c: CallerId) {
    es != []
    && (EverFoundAsset(cfg, s, es[..|es| - 1], c) || FindsAsset(Run(cfg, s, es[..|es| - 1]), es[|es| - 1], c))
  }

  ghost predicate EverEntered(cfg: Config, s: State, es: seq<Event>, c: CallerId) {
    es != []
    && (EverEntered(cfg, s, es[..|es| - 1], c) || Enters(Run(cfg, s, es[..|es| - 1]), es[|es| - 1], c))
  }

  /** The hash submitOnChain returned to call `c`. */
  ghost function Returned(cfg: Config, s: State, es: seq<Event>, c: CallerId): Option<TxHash> {
    if es == [] then None
    else
      var init, e := es[..|es| - 1], es[|es| - 1];
      if Enters(Run(cfg, s, init), e, c) && e.reply.Delivered? then Some(e.x.tx) else Returned(cfg, s, init, c)
  }

  predicate CarriesHash(o: Response, returned: Option<TxHash>) {
    o.Settled? && o.details.Some? && returned == Some(o.details.value.txHash)
  }

  ghost predicate Course(pc: Pc, found: bool, entered: bool, returned: Option<TxHash>) {
    match pc
    case Submitting(_, _) => found && !entered && returned.None?
    case Confirming(_, _, tx) => found && entered && returned == Some(tx)
    case Unlocking(_, _, o) => found && entered && CarriesHash(o, returned)
    case Failing(_, _) => found == entered
    case LastUnlock(_) => found == entered
    case Done(_, o) => o.Crashed? || (found == entered && (o.Settled? && entered ==> CarriesHash(o, returned)))
    case _ => !found && !entered && returned.None?
  }

  ghost predicate CourseOk(s: State, c: CallerId, found: bool, entered: bool, returned: Option<TxHash>) {
    if c in s.callers then Course(s.callers[c], found, entered, returned) else !found && !entered && returned.None?
  }

  lemma OwnCourse(cfg: Config, s: State, c: CallerId, reply: Reply, x: Choice, found: bool, entered: bool,
                  returned: Option<TxHash>)
    requires c in s.callers && Course(s.callers[c], found, entered, returned)
    ensures var e := Act(c, reply, x);
            Course(Moved(cfg, s, s.callers[c], e), found || FindsAsset(s, e, c), entered || Enters(s, e, c),
                   if Enters(s, e, c) && reply.Delivered? then Some(x.tx) else returned)
  {
  }

  lemma CourseStep(cfg: Config, s: State, e: Event, c: CallerId, found: bool, entered: bool, returned: Option<TxHash>)
    requires CourseOk(s, c, found, entered, returned)
    ensures CourseOk(Next(cfg, s, e), c, found || FindsAsset(s, e, c), entered || Enters(s, e, c),
                     if Enters(s, e, c) && e.reply.Delivered? then Some(e.x.tx) else returned)
  {
    NextMoves(cfg, s, e);
    if e.Act? && e.c == c && c in s.callers { OwnCourse(cfg, s, c, e.reply, e.x, found, entered, returned); }
  }

  lemma {:induction false} CourseRun(cfg: Config, s: State, es: seq<Event>, c: CallerId)
    requires c !in s.callers
    ensures CourseOk(Run(cfg, s, es), c, EverFoundAsset(cfg, s, es, c), EverEntered(cfg, s, es, c),
                     Returned(cfg, s, es, c))
  {
    if es != [] {
      var init := es[..|es| - 1];
      CourseRun(cfg, s, init, c);
      CourseStep(cfg, Run(cfg, s, init), es[|es| - 1], c, EverFoundAsset(cfg, s, init, c),
                 EverEntered(cfg, s, init, c), Returned(cfg, s, init, c));
    }
  }

  /** Over all runs: a call that ends without crashing has entered submitOnChain if and only if it created its row and
      found the asset configured; and a settlement it then answers carries the hash that submitOnChain returned to it.
      */
  lemma SubmissionExactly(cfg: Config, s: State, es: seq<Event>, c: CallerId)
    requires c !in s.callers
    requires var t := Run(cfg, s, es); c in t.callers && t.callers[c].Done? && !t.callers[c].response.Crashed?
    ensures var o := Run(cfg, s, es).callers[c].response;
            && (EverEntered(cfg, s, es, c) <==> EverFoundAsset(cfg, s, es, c))
            && (EverEntered(cfg, s, es, c) && o.Settled? ==> CarriesHash(o, Returned(cfg, s, es, c)))
  {
    CourseRun(cfg, s, es, c);
  }

  // ---------------------------------------------------------------- the row that is found decides

  lemma {:induction false} DoneStays(cfg: Config, s: State, es: seq<Event>, c: CallerId)
    requires c in s.callers && s.callers[c].Done?
    ensures c in Run(cfg, s, es).callers && Run(cfg, s, es).callers[c] == s.callers[c]
  {
    if es != [] {
      DoneStays(cfg, s, es[..|es| - 1], c);
      NextMoves(cfg, Run(cfg, s, es[..|es| - 1]), es[|es| - 1]);
    }
  }

  /** The settlement read of call `c` is answered with row `i`. */
  predicate Finds(s: State, e: Event, c: CallerId, i: nat) {
    && e.Act? && e.c == c && e.reply.Delivered? && e.x.pick == i
    && c in s.callers && s.callers[c].Checking? && RowFor(s, s.callers[c].r, i)
  }

  /** In every run: a call whose read finds a row ends there, with settlement_failed if and only if the row is failed,
      settlement_pending if and only if it is processing, and the settlement if and only if it is confirmed. */
  lemma FoundRowDecides(cfg: Config, s: State, e: Event, es: seq<Event>, c: CallerId, i: nat)
    requires Finds(s, e, c, i)
    ensures var t := Run(cfg, Next(cfg, s, e), es); c in t.callers && t.callers[c].Done?
    ensures var o := Run(cfg, Next(cfg, s, e), es).callers[c].response;
            && (o == Rejected(SettlementFailed) <==> s.rows[i].status == Failed)
            && (o == Rejected(SettlementPending) <==> s.rows[i].status == Processing)
            && (o.Settled? <==> s.rows[i].status == Confirmed)
            && (o.Settled? ==> o.settlement == i && o.details == s.rows[i].details)
            && (o.Settled? && s.callers[c].r in s.receipts ==> o.receiptId == Some(s.receipts[s.callers[c].r].id))
  {
    DoneStays(cfg, Next(cfg, s, e), es, c);
  }

  // ---------------------------------------------------------------- a settlement nobody works on any more

  ghost predicate Unowned(s: State, i: nat) {
    forall c :: c in s.callers ==> OwnRow(s.callers[c]) != Some(i)
  }

  /** The answer that fits the row's status. */
  predicate AnswersRow(o: Response, i: nat, row: Row) {
    match row.status
    case Failed => o == Rejected(SettlementFailed)
    case Processing => o == Rejected(SettlementPending)
    case Confirmed => o.Settled? && o.settlement == i && o.details == row.details
  }

  /** What a later call about the row's request may still be doing, and all it can ever answer. */
  predicate Defers(pc: Pc, i: nat, row: Row) {
    match pc
    case Loading(_, _) => true
    case Checking(_) => true
    case Done(_, o) => AnswersRow(o, i, row) || o.Threw? || o.Crashed? || o == Rejected(VerificationNotFound)
    case _ => false
  }

  ghost predicate LaterDefer(before: set<CallerId>, s: State, r: RequestId, i: nat, row: Row) {
    forall d :: d in s.callers && d !in before && s.callers[d].r == r ==> Defers(s.callers[d], i, row)
  }

  lemma UnownedStays(cfg: Config, s: State, e: Event, i: nat)
    requires Replies.Inv(s) && !e.JobStarts? && i < |s.rows| && Unowned(s, i)
    ensures var t := Next(cfg, s, e); i < |t.rows| && t.rows[i] == s.rows[i] && Unowned(t, i)
  {
    NextMoves(cfg, s, e);
    var c := CallerOf(e);
    if c.Some? && c.value in s.callers {
      MovedOwns(cfg, s, s.callers[c.value], e);
      if e.Act? {
        assert Replies.PcOk(s, s.callers[e.c]);
        Replies.EffectFrame(cfg, s, s.callers[e.c], e.x);
      }
    }
  }

  lemma MovedDefers(cfg: Config, s: State, pc: Pc, e: Event, i: nat)
    requires OneRowEach(s) && RowFor(s, pc.r, i) && Defers(pc, i, s.rows[i])
    ensures Defers(Moved(cfg, s, pc, e), i, s.rows[i])
  {
    if pc.Checking? && e.Act? && RowFor(s, pc.r, e.x.pick) { assert e.x.pick == i; }
  }

  /** Nobody about to submit has the request of an unowned row. */
  lemma NobodySubmits(s: State, r: RequestId, i: nat, c: CallerId)
    requires Replies.Inv(s) && SingleShot(s) && RowFor(s, r, i) && Unowned(s, i)
    requires c in s.callers && s.callers[c].r == r
    ensures !s.callers[c].Locking? && !s.callers[c].Creating? && !s.callers[c].Submitting?
  {
    assert FreshFor(s, s.callers[c]);
    assert Replies.PcOk(s, s.callers[c]);
  }

  lemma SubmitsStay(cfg: Config, s: State, e: Event, r: RequestId, i: nat)
    requires Replies.Inv(s) && SingleShot(s) && RowFor(s, r, i) && Unowned(s, i)
    ensures Next(cfg, s, e).submits[r] == s.submits[r]
  {
    SubmitsOfStep(cfg, s, e, r);
    if e.Act? && e.c in s.callers && s.callers[e.c].r == r { NobodySubmits(s, r, i, e.c); }
  }

  lemma DefersStep(cfg: Config, s: State, e: Event, before: set<CallerId>, r: RequestId, i: nat)
    requires OneRowEach(s) && RowFor(s, r, i) && LaterDefer(before, s, r, i, s.rows[i])
    ensures LaterDefer(before, Next(cfg, s, e), r, i, s.rows[i])
  {
    var t := Next(cfg, s, e);
    NextMoves(cfg, s, e);
    forall d | d in t.callers && d !in before && t.callers[d].r == r ensures Defers(t.callers[d], i, s.rows[i]) {
      if d in s.callers && CallerOf(e) == Some(d) {
        MovedInside(cfg, s, s.callers[d], e);
        MovedDefers(cfg, s, s.callers[d], e, i);
      }
    }
  }

  lemma {:induction false} DefersRun(cfg: Config, s: State, es: seq<Event>, r: RequestId, i: nat)
    requires Replies.SequentialInv(s) && Replies.NoJobs(es) && Sequential(cfg, s, es)
    requires RowFor(s, r, i) && Unowned(s, i)
    ensures var t := Run(cfg, s, es);
            && Replies.SequentialInv(t) && RowFor(t, r, i) && t.rows[i] == s.rows[i] && Unowned(t, i)
            && t.submits[r] == s.submits[r] && LaterDefer(s.callers.Keys, t, r, i, s.rows[i])
  {
    Replies.SequentialRun(cfg, s, es);
    if es != [] {
      var init, e := es[..|es| - 1], es[|es| - 1];
      SequentialPrefix(cfg, s, es);
      DefersRun(cfg, s, init, r, i);
      var u := Run(cfg, s, init);
      UnownedStays(cfg, u, e, i);
      SubmitsStay(cfg, u, e, r, i);
      DefersStep(cfg, u, e, s.callers.Keys, r, i);
    }
  }

  lemma FailedIsUnowned(s: State, i: nat)
    requires Replies.Inv(s) && i < |s.rows| && s.rows[i].status.Failed?
    ensures Unowned(s, i)
  {
    forall c | c in s.callers ensures OwnRow(s.callers[c]) != Some(i) { assert Replies.PcOk(s, s.callers[c]); }
  }

  /** In sequential use, once nobody works on a request's settlement any more, it stays as it is, and every call about
      the request that begins later and is not cut short answers by its status: settlement_pending for ever when its
      call crashed and left it processing; and none submits. */
  lemma LaterCallsAnswerTheStatus(cfg: Config, before: seq<Event>, es: seq<Event>, r: RequestId, i: nat)
    requires Replies.NoJobs(before) && Sequential(cfg, Init, before)
    requires Replies.NoJobs(es) && Sequential(cfg, Run(cfg, Init, before), es)
    requires RowFor(Run(cfg, Init, before), r, i) && Unowned(Run(cfg, Init, before), i)
    ensures var s := Run(cfg, Init, before); var t := Run(cfg, s, es);
            && i < |t.rows| && t.rows[i] == s.rows[i] && t.submits[r] == s.submits[r]
            && LaterDefer(s.callers.Keys, t, r, i, s.rows[i])
  {
    Replies.SequentialRun(cfg, Init, before);
    DefersRun(cfg, Run(cfg, Init, before), es, r, i);
  }

  /** So after a failed settlement every later call that is not cut short answers settlement_failed, and none submits.
      */
  lemma LaterCallsRepeatTheFailure(cfg: Config, before: seq<Event>, es: seq<Event>, r: RequestId, i: nat, d: CallerId)
    requires Replies.NoJobs(before) && Sequential(cfg, Init, before)
    requires Replies.NoJobs(es) && Sequential(cfg, Run(cfg, Init, before), es)
    requires var s := Run(cfg, Init, before); RowFor(s, r, i) && s.rows[i].status.Failed? && d !in s.callers
    requires var t := Run(cfg, Run(cfg, Init, before), es);
             d in t.callers && t.callers[d].r == r && t.callers[d].Done?
    ensures var s := Run(cfg, Init, before); var t := Run(cfg, s, es); var o := t.callers[d].response;
            && (o == Rejected(SettlementFailed) || o.Threw? || o.Crashed? || o == Rejected(VerificationNotFound))
            && t.submits[r] == s.submits[r] && i < |t.rows| && t.rows[i].status.Failed?
  {
    Replies.SequentialRun(cfg, Init, before);
    FailedIsUnowned(Run(cfg, Init, before), i);
    LaterCallsAnswerTheStatus(cfg, before, es, r, i);
  }
}
