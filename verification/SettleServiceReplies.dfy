/** The answers runSettle gives while no confirmation job runs: agreement in every interleaving, stable replies in
    sequential use, and exactly when a confirmed settlement is undone. */
module SettleServiceReplies {
  import opened Prelude
  import opened SettleService
  import opened SettleServiceTheorems

  // ---------------------------------------------------------------- rows, receipts and answers belong together

  ghost predicate RowOk(s: State, i: nat)
    requires i < |s.rows|
  {
    var row := s.rows[i];
    && (row.status.Processing? ==> row.details.None?)
    && (row.status.Confirmed? ==> row.details.Some?)
    && (row.details.Some? ==> row.request in s.receipts && s.receipts[row.request].settlement == i)
  }

  ghost predicate ResponseOk(s: State, r: RequestId, o: Response) {
    o.Settled? ==>
      && o.receiptId.Some? && r in s.receipts && s.receipts[r] == Receipt(o.receiptId.value, o.settlement)
      && RowFor(s, r, o.settlement) && o.details.Some? && s.rows[o.settlement].details == o.details
  }

  ghost predicate PcOk(s: State, pc: Pc) {
    match pc
    case Submitting(r, row) => RowFor(s, r, row) && s.rows[row].status.Processing?
    case Confirming(r, row, _) => RowFor(s, r, row) && s.rows[row].status.Processing?
    case Unlocking(r, row, o) =>
      RowFor(s, r, row) && s.rows[row].status.Confirmed? && o.Settled? && o.settlement == row && ResponseOk(s, r, o)
    case Failing(r, row) => RowFor(s, r, row) && !s.rows[row].status.Failed?
    case Done(r, o) => ResponseOk(s, r, o)
    case _ => true
  }

  ghost predicate Inv(s: State) {
    s.workers == map[] && RowsOk(s) && PcsOk(s) && OwnersDistinct(s)
  }

  /** What one caller's step leaves to everybody else: only row `own` changes, and written details stay. */
  ghost predicate Frame(s: State, t: State, own: Option<nat>) {
    && Grows(s, t)
    && (forall i :: 0 <= i < |s.rows| && own != Some(i) ==> t.rows[i] == s.rows[i])
    && (forall i :: 0 <= i < |s.rows| && s.rows[i].details.Some? ==> t.rows[i].details == s.rows[i].details)
  }

  lemma EffectFrame(cfg: Config, s: State, pc: Pc, x: Choice)
    requires PcOk(s, pc) && (forall i :: 0 <= i < |s.rows| ==> RowOk(s, i))
    ensures Frame(s, Effect(cfg, s, pc, x), OwnRow(pc))
  {
    if pc.Confirming? { assert RowOk(s, pc.row); }
  }

  lemma PcFrame(s: State, t: State, own: Option<nat>, pc: Pc)
    requires PcOk(s, pc) && Frame(s, t, own) && (OwnRow(pc).None? || OwnRow(pc) != own)
    ensures PcOk(t, pc)
  {
  }

  lemma EffectRows(cfg: Config, s: State, pc: Pc, x: Choice)
    requires PcOk(s, pc) && (forall i :: 0 <= i < |s.rows| ==> RowOk(s, i))
    ensures var t := Effect(cfg, s, pc, x); forall i :: 0 <= i < |t.rows| ==> RowOk(t, i)
  {
    var t := Effect(cfg, s, pc, x);
    forall i | 0 <= i < |t.rows| ensures RowOk(t, i) {
      if i < |s.rows| { assert RowOk(s, i); }
    }
  }

  /** An idempotent reply repeats what the receipt and the row say. */
  lemma ExistingOk(s: State, r: RequestId, i: nat)
    requires RowFor(s, r, i) && RowOk(s, i)
    ensures ResponseOk(s, r, Existing(s, i))
  {
  }

  /** The caller's own next program counter fits the state its command leaves. */
  lemma MovedOk(cfg: Config, s: State, pc: Pc, e: Event)
    requires PcOk(s, pc) && e.Act? && (forall i :: 0 <= i < |s.rows| ==> RowOk(s, i))
    ensures PcOk(if e.reply.Dropped? then s else Effect(cfg, s, pc, e.x), Moved(cfg, s, pc, e))
  {
    if pc.Checking? && RowFor(s, pc.r, e.x.pick) { ExistingOk(s, pc.r, e.x.pick); }
  }

  lemma SameStores(s: State, t: State, pc: Pc)
    requires PcOk(s, pc) && t.rows == s.rows && t.receipts == s.receipts
    ensures PcOk(t, pc)
  {
  }

  ghost predicate RowsOk(s: State) {
    forall i :: 0 <= i < |s.rows| ==> RowOk(s, i)
  }

  ghost predicate OwnersDistinct(s: State) {
    forall c, d :: c in s.callers && d in s.callers && c != d && OwnRow(s.callers[c]).Some? ==>
      OwnRow(s.callers[c]) != OwnRow(s.callers[d])
  }

  ghost predicate PcsOk(s: State) {
    forall c :: c in s.callers ==> PcOk(s, s.callers[c])
  }

  lemma ActKeepsPcs(cfg: Config, s: State, e: Event)
    requires RowsOk(s) && PcsOk(s) && OwnersDistinct(s) && e.Act? && e.c in s.callers
    ensures PcsOk(Next(cfg, s, e))
  {
    var t := Next(cfg, s, e);
    var pc := s.callers[e.c];
    var u := if e.reply.Dropped? then s else Effect(cfg, s, pc, e.x);
    EffectFrame(cfg, s, pc, e.x);
    MovedOk(cfg, s, pc, e);
    NextMoves(cfg, s, e);
    forall c | c in t.callers ensures PcOk(t, t.callers[c]) {
      if c == e.c { SameStores(u, t, t.callers[c]); } else { PcFrame(s, t, OwnRow(pc), s.callers[c]); }
    }
  }

  lemma ActKeepsOwners(cfg: Config, s: State, e: Event)
    requires PcsOk(s) && OwnersDistinct(s) && e.Act? && e.c in s.callers
    ensures OwnersDistinct(Next(cfg, s, e))
  {
    MovedOwns(cfg, s, s.callers[e.c], e);
    NextMoves(cfg, s, e);
    forall c | c in s.callers && OwnRow(s.callers[c]).Some? ensures OwnRow(s.callers[c]).value < |s.rows| {
      assert PcOk(s, s.callers[c]);
    }
  }

  lemma ActKeepsRows(cfg: Config, s: State, e: Event)
    requires RowsOk(s) && PcsOk(s) && e.Act? && e.c in s.callers
    ensures RowsOk(Next(cfg, s, e))
  {
    var t := Next(cfg, s, e);
    var u := if e.reply.Dropped? then s else Effect(cfg, s, s.callers[e.c], e.x);
    EffectRows(cfg, s, s.callers[e.c], e.x);
    forall i | 0 <= i < |t.rows| ensures RowOk(t, i) { assert RowOk(u, i); }
  }

  lemma ActKeeps(cfg: Config, s: State, e: Event)
    requires Inv(s) && e.Act? && e.c in s.callers
    ensures Inv(Next(cfg, s, e))
  {
    ActKeepsRows(cfg, s, e);
    ActKeepsPcs(cfg, s, e);
    ActKeepsOwners(cfg, s, e);
  }

  lemma NextKeeps(cfg: Config, s: State, e: Event)
    requires Inv(s) && !e.JobStarts?
    ensures Inv(Next(cfg, s, e))
  {
    if e.Act? && e.c in s.callers {
      ActKeeps(cfg, s, e);
    } else {
      var t := Next(cfg, s, e);
      NextMoves(cfg, s, e);
      forall i | 0 <= i < |t.rows| ensures RowOk(t, i) { assert RowOk(s, i); }
      forall c | c in t.callers ensures PcOk(t, t.callers[c]) {
        if c in s.callers && t.callers[c] == s.callers[c] { SameStores(s, t, s.callers[c]); }
      }
    }
  }

  ghost predicate NoJobs(es: seq<Event>) {
    forall i :: 0 <= i < |es| ==> !es[i].JobStarts?
  }

  lemma {:induction false} RunKeeps(cfg: Config, s: State, es: seq<Event>)
    requires Inv(s) && NoJobs(es)
    ensures Inv(Run(cfg, s, es))
  {
    if es != [] {
      RunKeeps(cfg, s, es[..|es| - 1]);
      NextKeeps(cfg, Run(cfg, s, es[..|es| - 1]), es[|es| - 1]);
    }
  }

  /** Agreement: over all interleavings, crashes, faults and lock expiries, any two confirmed answers for one request
      carry the same settlement, transaction hash, fees, confirmation time and receipt. */
  lemma Agreement(cfg: Config, es: seq<Event>, c: CallerId, d: CallerId)
    requires NoJobs(es)
    ensures var s := Run(cfg, Init, es);
            c in s.callers && d in s.callers && s.callers[c].Done? && s.callers[d].Done?
            && s.callers[c].r == s.callers[d].r && s.callers[c].response.Settled? && s.callers[d].response.Settled?
            ==> s.callers[c].response == s.callers[d].response
  {
    RunKeeps(cfg, Init, es);
    SameAnswers(Run(cfg, Init, es), c, d);
  }

  lemma SameAnswers(s: State, c: CallerId, d: CallerId)
    requires Inv(s)
    ensures c in s.callers && d in s.callers && s.callers[c].Done? && s.callers[d].Done?
            && s.callers[c].r == s.callers[d].r && s.callers[c].response.Settled? && s.callers[d].response.Settled?
            ==> s.callers[c].response == s.callers[d].response
  {
    if c in s.callers && d in s.callers {
      assert PcOk(s, s.callers[c]) && PcOk(s, s.callers[d]);
    }
  }

  // ---------------------------------------------------------------- when a confirmation is undone

  /** A confirmed row changes in one step exactly when its own creator runs the failure path on it. */
  lemma UndoStep(cfg: Config, s: State, e: Event, i: nat)
    requires Inv(s) && !e.JobStarts? && i < |s.rows| && s.rows[i].status.Confirmed?
    ensures var t := Next(cfg, s, e);
            i < |t.rows| && (t.rows[i] != s.rows[i] <==>
              e.Act? && e.c in s.callers && !e.reply.Dropped? && s.callers[e.c].Failing? && s.callers[e.c].row == i)
  {
    if e.Act? && e.c in s.callers { assert PcOk(s, s.callers[e.c]); }
  }

  /** And a caller enters the failure path with a confirmed row exactly when the lock DEL after the confirmation threw
      (src/application/settle.service.ts:195 lies inside the try block) or the confirming commit went unheard. */
  lemma FailurePathOnConfirmed(cfg: Config, s: State, e: Event)
    requires Inv(s) && e.Act? && e.c in s.callers && !s.callers[e.c].Failing?
    ensures var t := Next(cfg, s, e); var pc := s.callers[e.c]; var pc' := t.callers[e.c];
            (pc'.Failing? && pc'.row < |t.rows| && t.rows[pc'.row].status.Confirmed?) <==>
              ((pc.Unlocking? && !e.reply.Delivered? && s.rows[pc.row].status.Confirmed?)
               || (pc.Confirming? && e.reply.ReplyLost? && CanConfirm(s, pc.r, pc.row, pc.tx, e.x.id)))
  {
    assert PcOk(s, s.callers[e.c]);
  }

  // ---------------------------------------------------------------- stable replies in sequential use

  /** In sequential use nobody can reach the row of an answer that was given. */
  ghost predicate Settledness(s: State) {
    && (forall c :: c in s.callers && s.callers[c].Done? && s.callers[c].response.Settled? ==>
          s.callers[c].response.settlement < |s.rows| && s.rows[s.callers[c].response.settlement].status.Confirmed?)
    && (forall c, d :: c in s.callers && d in s.callers && s.callers[c].Done? && s.callers[c].response.Settled? ==>
          OwnRow(s.callers[d]) != Some(s.callers[c].response.settlement))
  }

  ghost predicate SequentialInv(s: State) {
    Inv(s) && SingleShot(s) && Settledness(s)
  }

  lemma RowStatusStep(cfg: Config, s: State, e: Event, i: nat)
    requires Inv(s) && !e.JobStarts? && i < |s.rows| && s.rows[i].status.Confirmed?
    requires forall c :: c in s.callers ==> OwnRow(s.callers[c]) != Some(i) || s.callers[c].Unlocking?
    ensures var t := Next(cfg, s, e); i < |t.rows| && t.rows[i] == s.rows[i]
  {
    UndoStep(cfg, s, e, i);
  }

  lemma MovedSettled(cfg: Config, s: State, pc: Pc, e: Event)
    requires PcOk(s, pc) && e.Act? && !pc.Done?
    ensures var pc' := Moved(cfg, s, pc, e); var t := Next(cfg, s, e);
            && (pc'.Done? && pc'.response.Settled? ==>
                  (pc.Unlocking? && pc'.response.settlement == pc.row)
                  || (pc.Checking? && RowFor(s, pc.r, pc'.response.settlement)
                        && s.rows[pc'.response.settlement].status.Confirmed?))
            && (pc'.Unlocking? ==> pc.Confirming? && e.reply.Delivered? && pc'.row == pc.row)
            && (pc'.Unlocking? && pc.Confirming? ==> CanConfirm(s, pc.r, pc.row, pc.tx, e.x.id))
  {
  }

  /** Answers already given keep their confirmed row. */
  lemma GivenAnswersStay(cfg: Config, s: State, e: Event, c: CallerId)
    requires SequentialInv(s) && !e.JobStarts?
    requires c in s.callers && s.callers[c].Done? && s.callers[c].response.Settled?
    ensures var t := Next(cfg, s, e); var i := s.callers[c].response.settlement;
            i < |t.rows| && t.rows[i].status.Confirmed? && t.callers[c] == s.callers[c]
            && forall d :: d in t.callers ==> OwnRow(t.callers[d]) != Some(i)
  {
    var i := s.callers[c].response.settlement;
    RowStatusStep(cfg, s, e, i);
    NextMoves(cfg, s, e);
    if CallerOf(e).Some? && CallerOf(e).value in s.callers { MovedOwns(cfg, s, s.callers[CallerOf(e).value], e); }
  }

  /** A fresh answer names a confirmed row, and nobody is left running. */
  lemma NewAnswerIsConfirmed(cfg: Config, s: State, e: Event)
    requires SequentialInv(s) && e.Act? && e.c in s.callers && !s.callers[e.c].Done?
    requires Next(cfg, s, e).callers[e.c].Done? && Next(cfg, s, e).callers[e.c].response.Settled?
    ensures var t := Next(cfg, s, e); var i := t.callers[e.c].response.settlement;
            i < |t.rows| && t.rows[i].status.Confirmed?
            && forall d :: d in t.callers ==> OwnRow(t.callers[d]).None?
  {
    assert PcOk(s, s.callers[e.c]);
    MovedSettled(cfg, s, s.callers[e.c], e);
    NextMoves(cfg, s, e);
    forall d | d in s.callers && d != e.c ensures s.callers[d].Done? {}
  }

  lemma SettlednessStep(cfg: Config, s: State, e: Event)
    requires SequentialInv(s) && !e.JobStarts?
    ensures Settledness(Next(cfg, s, e))
  {
    var t := Next(cfg, s, e);
    NextMoves(cfg, s, e);
    forall c | c in t.callers && t.callers[c].Done? && t.callers[c].response.Settled?
      ensures var i := t.callers[c].response.settlement;
              i < |t.rows| && t.rows[i].status.Confirmed? && forall d :: d in t.callers ==>
                    OwnRow(t.callers[d]) != Some(i)
    {
      if c in s.callers {
        if s.callers[c].Done? { GivenAnswersStay(cfg, s, e, c); } else if e.Act? { NewAnswerIsConfirmed(cfg, s, e); }
      }
    }
  }

  lemma {:induction false} SequentialRun(cfg: Config, s: State, es: seq<Event>)
    requires SequentialInv(s) && NoJobs(es) && Sequential(cfg, s, es)
    ensures SequentialInv(Run(cfg, s, es))
  {
    if es != [] {
      var init := es[..|es| - 1];
      SequentialPrefix(cfg, s, es);
      SequentialRun(cfg, s, init);
      NextKeeps(cfg, Run(cfg, s, init), es[|es| - 1]);
      SingleShotStep(cfg, Run(cfg, s, init), es[|es| - 1]);
      SettlednessStep(cfg, Run(cfg, s, init), es[|es| - 1]);
    }
  }

  /** What a later call about a settled request may still be doing, and all it can ever answer. */
  predicate Repeats(pc: Pc, answer: Response) {
    match pc
    case Loading(_, _) => true
    case Checking(_) => true
    case Done(_, o) => o == answer || o.Threw? || o.Crashed? || o == Rejected(VerificationNotFound)
    case _ => false
  }

  ghost predicate LaterRepeat(before: set<CallerId>, r: RequestId, answer: Response, s: State) {
    forall d :: d in s.callers && d !in before && s.callers[d].r == r ==> Repeats(s.callers[d], answer)
  }

  lemma MovedRepeats(cfg: Config, s: State, pc: Pc, e: Event, c: CallerId)
    requires SequentialInv(s) && c in s.callers && s.callers[c].Done? && s.callers[c].response.Settled?
    requires pc.r == s.callers[c].r && Repeats(pc, s.callers[c].response)
    ensures Repeats(Moved(cfg, s, pc, e), s.callers[c].response)
  {
    var answer := s.callers[c].response;
    assert PcOk(s, s.callers[c]);
    assert RowFor(s, pc.r, answer.settlement);
    if pc.Checking? && e.Act? && RowFor(s, pc.r, e.x.pick) {
      assert e.x.pick == answer.settlement;
      assert Existing(s, e.x.pick) == answer;
    }
  }

  lemma {:induction false} RepeatRun(cfg: Config, s: State, es: seq<Event>, c: CallerId)
    requires SequentialInv(s) && NoJobs(es) && Sequential(cfg, s, es)
    requires c in s.callers && s.callers[c].Done? && s.callers[c].response.Settled?
    ensures c in Run(cfg, s, es).callers && Run(cfg, s, es).callers[c] == s.callers[c]
    ensures LaterRepeat(s.callers.Keys, s.callers[c].r, s.callers[c].response, Run(cfg, s, es))
  {
    if es != [] {
      var init, e := es[..|es| - 1], es[|es| - 1];
      SequentialPrefix(cfg, s, es);
      RepeatRun(cfg, s, init, c);
      SequentialRun(cfg, s, init);
      var u := Run(cfg, s, init);
      NextMoves(cfg, u, e);
      forall d | d in Next(cfg, u, e).callers && d !in s.callers && Next(cfg, u, e).callers[d].r == s.callers[c].r
        ensures Repeats(Next(cfg, u, e).callers[d], s.callers[c].response)
      {
        if d in u.callers {
          if CallerOf(e) == Some(d) { MovedInside(cfg, u, u.callers[d], e); MovedRepeats(cfg, u, u.callers[d], e, c); }
        }
      }
    }
  }

  /** Stable replies: in sequential use, once a call has answered confirmed for a request, every call about it that
      begins later and is not cut short by an exception or a crash gives that same answer: settlement id, transaction
      hash, fees, confirmation time and receipt. */
  lemma LaterCallsRepeatTheAnswer(cfg: Config, before: seq<Event>, es: seq<Event>, c: CallerId)
    requires NoJobs(before) && Sequential(cfg, Init, before)
    requires NoJobs(es) && Sequential(cfg, Run(cfg, Init, before), es)
    requires var s := Run(cfg, Init, before); c in s.callers && s.callers[c].Done? && s.callers[c].response.Settled?
    ensures var s := Run(cfg, Init, before);
            LaterRepeat(s.callers.Keys, s.callers[c].r, s.callers[c].response, Run(cfg, s, es))
  {
    SequentialRun(cfg, Init, before);
    RepeatRun(cfg, Run(cfg, Init, before), es, c);
  }

  // ---------------------------------------------------------------- exactly when runSettle throws

  /** An await of call `c` before the try block fails: the read of the verification, the read of the settlement, SET NX,
      or the creation of the processing row. */
  predicate ThrowsOutside(s: State, e: Event, c: CallerId) {
    && e.Act? && e.c == c && c in s.callers && !e.reply.Delivered?
    && (s.callers[c].Loading? || s.callers[c].Checking? || s.callers[c].Locking? || s.callers[c].Creating?)
  }

  /** `threw` is what has become of call `c`: it threw if and only if it ended that way. */
  ghost predicate Fated(s: State, c: CallerId, threw: bool) {
    c in s.callers ==>
      && (threw <==> s.callers[c].Done? && s.callers[c].response.Threw?)
      && (s.callers[c].Unlocking? ==> s.callers[c].response.Settled?)
  }

  lemma MovedFate(cfg: Config, s: State, e: Event, c: CallerId)
    requires c in s.callers && CallerOf(e) == Some(c) && !e.Begin?
    requires s.callers[c].Unlocking? ==> s.callers[c].response.Settled?
    ensures var pc := s.callers[c]; var pc' := Moved(cfg, s, pc, e);
            && (pc'.Done? && pc'.response.Threw? <==> (pc.Done? && pc.response.Threw?) || ThrowsOutside(s, e, c))
            && (pc'.Unlocking? ==> pc'.response.Settled?)
  {
  }

  lemma FateStep(cfg: Config, s: State, e: Event, c: CallerId, threw: bool)
    requires Fated(s, c, threw) && (c !in s.callers ==> !threw)
    ensures Fated(Next(cfg, s, e), c, threw || ThrowsOutside(s, e, c))
    ensures c !in Next(cfg, s, e).callers ==> !threw && !ThrowsOutside(s, e, c)
  {
    NextMoves(cfg, s, e);
    if c in s.callers && CallerOf(e) == Some(c) && !e.Begin? { MovedFate(cfg, s, e, c); }
  }

  ghost predicate EverThrew(cfg: Config, s: State, es: seq<Event>, c: CallerId) {
    es != []
    && (EverThrew(cfg, s, es[..|es| - 1], c) || ThrowsOutside(Run(cfg, s, es[..|es| - 1]), es[|es| - 1], c))
  }

  /** runSettle throws, although its comment says it never does, exactly when one of those four awaits fails: for every
      call, in every run. */
  lemma {:induction false} ThrowsExactly(cfg: Config, s: State, es: seq<Event>, c: CallerId)
    requires c !in s.callers
    ensures Fated(Run(cfg, s, es), c, EverThrew(cfg, s, es, c))
    ensures c !in Run(cfg, s, es).callers ==> !EverThrew(cfg, s, es, c)
  {
    if es != [] {
      var init, e := es[..|es| - 1], es[|es| - 1];
      ThrowsExactly(cfg, s, init, c);
      FateStep(cfg, Run(cfg, s, init), e, c, EverThrew(cfg, s, init, c));
    }
  }
}
