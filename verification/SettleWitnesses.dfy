/** Stretches of runs of settlePayment: what one caller's awaits do, one after the other, in an arbitrary state in which
    nobody else moves. The runs of modules SettleFailures and SettleLocks are put together from them. */
module SettleWitnesses {
  import opened Prelude
  import opened Registry
  import opened SettlePayment
  import Chain

  const Any := Choice(0, 0, 0)

  /** The next await of `c` is answered. */
  function Answered(c: CallerId): Event { Act(c, Delivered, Any) }

  /** The next await of `c` throws without effect. */
  function Refused(c: CallerId): Event { Act(c, Dropped, Any) }

  /** The next await of `c` takes effect, and throws. */
  function Unheard(c: CallerId): Event { Act(c, ReplyLost, Any) }

  /** Nothing fails: a call begins, an await is answered, a block comes, time passes. */
  predicate Fine(e: Event) {
    e.Begin? || e.Mined? || e.Tick? || (e.Act? && e.reply.Delivered?)
  }

  predicate Smooth(es: seq<Event>) {
    forall i :: 0 <= i < |es| ==> Fine(es[i])
  }

  /** `fs` goes on where `es` ends, and nothing fails any more: no key expires, nobody crashes, no stranger takes
      part. */
  predicate GoesOn(es: seq<Event>, fs: seq<Event>) {
    es <= fs && forall i :: |es| <= i < |fs| ==> Fine(fs[i])
  }

  // ---------------------------------------------------------------- one await

  lemma Loads(cfg: Config, reqs: Requests, s: State, c: CallerId, r: RequestId)
    requires c in s.callers && s.callers[c] == Loading(r, None) && Submittable(cfg, reqs, r)
    ensures Next(cfg, reqs, s, Answered(c)) == s.(callers := s.callers[c := Checking(r, None)])
  {
  }

  ghost predicate NoneConfirmed(rows: seq<Settlement>, r: RequestId) {
    forall i :: 0 <= i < |rows| ==> !(rows[i].request == r && rows[i].status.Confirmed?)
  }

  lemma Checks(cfg: Config, reqs: Requests, s: State, c: CallerId, r: RequestId)
    requires c in s.callers && s.callers[c] == Checking(r, None) && NoneConfirmed(s.rows, r)
    ensures Next(cfg, reqs, s, Answered(c)) == s.(callers := s.callers[c := Locking(r, None)])
  {
  }

  lemma Locks(cfg: Config, reqs: Requests, s: State, c: CallerId, r: RequestId)
    requires c in s.callers && s.callers[c] == Locking(r, None) && r !in s.locks
    ensures Next(cfg, reqs, s, Answered(c)) ==
              s.(locks := s.locks + {r}, callers := s.callers[c := Creating(r, None)])
  {
  }

  function PendingRow(r: RequestId): Settlement {
    Settlement(r, Pending, None, 0, 0, None, 0)
  }

  lemma Creates(cfg: Config, reqs: Requests, s: State, c: CallerId, r: RequestId)
    requires c in s.callers && s.callers[c] == Creating(r, None) && Submittable(cfg, reqs, r) && cfg.rpcUrls >= 1
    ensures Next(cfg, reqs, s, Answered(c)) ==
              s.(rows := s.rows + [PendingRow(r)], callers := s.callers[c := Submitting(r, |s.rows|, 0)])
  {
  }

  /** The state once `c` has broadcast for `r`. */
  function Sends(cfg: Config, reqs: Requests, s: State, c: CallerId, r: RequestId): State
    requires Submittable(cfg, reqs, r)
  {
    s.(chain := Chain.Broadcast(s.chain, CallFor(cfg, reqs[r])), sent := s.sent[|s.chain.txs| := c])
  }

  lemma HearsHash(cfg: Config, reqs: Requests, s: State, c: CallerId, r: RequestId, row: nat, url: nat)
    requires c in s.callers && s.callers[c] == Submitting(r, row, url) && Submittable(cfg, reqs, r)
    ensures Next(cfg, reqs, s, Answered(c)) ==
              Sends(cfg, reqs, s, c, r).(callers := s.callers[c := Waiting(r, row, url, |s.chain.txs|)])
  {
  }

  lemma LosesHash(cfg: Config, reqs: Requests, s: State, c: CallerId, r: RequestId, row: nat, url: nat)
    requires c in s.callers && s.callers[c] == Submitting(r, row, url) && Submittable(cfg, reqs, r)
    ensures Next(cfg, reqs, s, Unheard(c)) ==
              Sends(cfg, reqs, s, c, r).(callers := s.callers[c := Attempt(cfg, r, row, url + 1)])
  {
  }

  lemma RefusesSubmission(cfg: Config, reqs: Requests, s: State, c: CallerId, r: RequestId, row: nat, url: nat)
    requires c in s.callers && s.callers[c] == Submitting(r, row, url)
    ensures Next(cfg, reqs, s, Refused(c)) == s.(callers := s.callers[c := Attempt(cfg, r, row, url + 1)])
  {
  }

  lemma StopsWaiting(cfg: Config, reqs: Requests, s: State, c: CallerId)
    requires c in s.callers && s.callers[c].Waiting?
    ensures var pc := s.callers[c];
            Next(cfg, reqs, s, Refused(c)) == s.(callers := s.callers[c := Attempt(cfg, pc.r, pc.row, pc.url + 1)])
  {
  }

  lemma HearsSuccess(cfg: Config, reqs: Requests, s: State, c: CallerId)
    requires c in s.callers && s.callers[c].Waiting? && Chain.Succeeded(s.chain, s.callers[c].tx)
    ensures var pc := s.callers[c];
            Next(cfg, reqs, s, Answered(c)) == s.(callers := s.callers[c := Confirming(pc.r, pc.row, pc.tx)])
  {
    assert Next(cfg, reqs, s, Answered(c)).heard == s.heard;
  }

  /** The confirming transaction does not commit: dropped, or answered and refused by a unique constraint. */
  lemma ConfirmFails(cfg: Config, reqs: Requests, s: State, c: CallerId, reply: Reply)
    requires c in s.callers && s.callers[c].Confirming?
    requires var pc := s.callers[c];
             reply.Dropped? || (reply.Delivered? && !CanConfirm(s, pc.r, pc.row, pc.tx, Any.freshId))
    ensures Next(cfg, reqs, s, Act(c, reply, Any)) ==
              s.(callers := s.callers[c := Failing(s.callers[c].r, s.callers[c].row)])
  {
    var t := Next(cfg, reqs, s, Act(c, reply, Any));
    assert t.sent == s.sent && t.heard == s.heard && t.lost == s.lost;
  }

  lemma MarksFailed(cfg: Config, reqs: Requests, s: State, c: CallerId, r: RequestId, row: nat)
    requires c in s.callers && s.callers[c] == Failing(r, row) && row < |s.rows|
    ensures Next(cfg, reqs, s, Answered(c)) ==
              s.(rows := s.rows[row := s.rows[row].(status := Failed)], callers := s.callers[c := Unlocking(r)])
  {
  }

  lemma Unlocks(cfg: Config, reqs: Requests, s: State, c: CallerId, r: RequestId)
    requires c in s.callers && s.callers[c] == Unlocking(r)
    ensures Next(cfg, reqs, s, Answered(c)) ==
              s.(locks := s.locks - {r}, callers := s.callers[c := Finally(r, Threw(SettlementFailed))])
  {
  }

  lemma DeletesAgain(cfg: Config, reqs: Requests, s: State, c: CallerId, r: RequestId)
    requires c in s.callers && s.callers[c] == Finally(r, Threw(SettlementFailed))
    ensures Next(cfg, reqs, s, Answered(c)) ==
              s.(locks := s.locks - {r}, callers := s.callers[c := Done(r, Threw(SettlementFailed))])
  {
  }

  // ---------------------------------------------------------------- one event more

  lemma Go(cfg: Config, reqs: Requests, es: seq<Event>, s: State, e: Event) returns (fs: seq<Event>, t: State)
    requires s == Run(cfg, reqs, Init, es)
    ensures fs == es + [e] && t == Run(cfg, reqs, Init, fs) && t == Next(cfg, reqs, s, e)
  {
    fs, t := es + [e], Next(cfg, reqs, s, e);
    RunSnoc(cfg, reqs, Init, es, e);
  }

  // ---------------------------------------------------------------- up to the lock, the row and the broadcast

  /** A new caller walks up to the free lock and takes it. */
  lemma Enters(cfg: Config, reqs: Requests, es: seq<Event>, s: State, c: CallerId, r: RequestId)
    returns (fs: seq<Event>, t: State)
    requires s == Run(cfg, reqs, Init, es)
    requires Submittable(cfg, reqs, r) && c !in s.callers && r !in s.locks && NoneConfirmed(s.rows, r)
    ensures t == Run(cfg, reqs, Init, fs) && GoesOn(es, fs)
    ensures t == s.(locks := s.locks + {r}, callers := s.callers[c := Creating(r, None)])
  {
    fs, t := Go(cfg, reqs, es, s, Begin(c, r, None));
    Loads(cfg, reqs, t, c, r);
    fs, t := Go(cfg, reqs, fs, t, Answered(c));
    Checks(cfg, reqs, t, c, r);
    fs, t := Go(cfg, reqs, fs, t, Answered(c));
    Locks(cfg, reqs, t, c, r);
    fs, t := Go(cfg, reqs, fs, t, Answered(c));
    assert t.callers == s.callers[c := Creating(r, None)];
  }

  /** ... creates its row and comes to its first broadcast. */
  lemma Submits(cfg: Config, reqs: Requests, es: seq<Event>, s: State, c: CallerId, r: RequestId)
    returns (fs: seq<Event>, t: State)
    requires s == Run(cfg, reqs, Init, es) && cfg.rpcUrls >= 1
    requires Submittable(cfg, reqs, r) && c !in s.callers && r !in s.locks && NoneConfirmed(s.rows, r)
    ensures t == Run(cfg, reqs, Init, fs) && GoesOn(es, fs)
    ensures t == s.(locks := s.locks + {r}, rows := s.rows + [PendingRow(r)],
                    callers := s.callers[c := Submitting(r, |s.rows|, 0)])
  {
    fs, t := Enters(cfg, reqs, es, s, c, r);
    Creates(cfg, reqs, t, c, r);
    fs, t := Go(cfg, reqs, fs, t, Answered(c));
    assert t.callers == s.callers[c := Submitting(r, |s.rows|, 0)];
  }

  /** ... hears its hash and comes to wait for the block. */
  lemma Waits(cfg: Config, reqs: Requests, es: seq<Event>, s: State, c: CallerId, r: RequestId)
    returns (fs: seq<Event>, t: State)
    requires s == Run(cfg, reqs, Init, es) && cfg.rpcUrls >= 1
    requires Submittable(cfg, reqs, r) && c !in s.callers && r !in s.locks && NoneConfirmed(s.rows, r)
    ensures t == Run(cfg, reqs, Init, fs) && GoesOn(es, fs)
    ensures t == s.(locks := s.locks + {r}, rows := s.rows + [PendingRow(r)],
                    chain := Chain.Broadcast(s.chain, CallFor(cfg, reqs[r])),
                    callers := s.callers[c := Waiting(r, |s.rows|, 0, |s.chain.txs|)],
                    sent := s.sent[|s.chain.txs| := c])
  {
    fs, t := Submits(cfg, reqs, es, s, c, r);
    fs, t := Hears(cfg, reqs, fs, t, c, r, |s.rows|);
    assert t.callers == s.callers[c := Waiting(r, |s.rows|, 0, |s.chain.txs|)];
  }

  lemma Hears(cfg: Config, reqs: Requests, es: seq<Event>, s: State, c: CallerId, r: RequestId, row: nat)
    returns (fs: seq<Event>, t: State)
    requires s == Run(cfg, reqs, Init, es) && Submittable(cfg, reqs, r)
    requires c in s.callers && s.callers[c] == Submitting(r, row, 0)
    ensures t == Run(cfg, reqs, Init, fs) && GoesOn(es, fs)
    ensures t == s.(chain := Chain.Broadcast(s.chain, CallFor(cfg, reqs[r])),
                    callers := s.callers[c := Waiting(r, row, 0, |s.chain.txs|)], sent := s.sent[|s.chain.txs| := c])
  {
    HearsHash(cfg, reqs, s, c, r, row, 0);
    fs, t := Go(cfg, reqs, es, s, Answered(c));
  }

  /** Every remaining endpoint refuses the submission. */
  lemma {:induction false} RefusesRest(cfg: Config, reqs: Requests, es: seq<Event>, s: State, c: CallerId, r: RequestId,
                                       row: nat, url: nat)
    returns (fs: seq<Event>, t: State)
    requires s == Run(cfg, reqs, Init, es)
    requires url <= cfg.rpcUrls && c in s.callers && s.callers[c] == Attempt(cfg, r, row, url)
    ensures t == Run(cfg, reqs, Init, fs) && es <= fs && |fs| == |es| + (cfg.rpcUrls - url)
    ensures forall i :: |es| <= i < |fs| ==> fs[i] == Refused(c)
    ensures t == s.(callers := s.callers[c := Failing(r, row)])
    decreases cfg.rpcUrls - url
  {
    fs, t := es, s;
    if url < cfg.rpcUrls {
      RefusesSubmission(cfg, reqs, s, c, r, row, url);
      fs, t := Go(cfg, reqs, es, s, Refused(c));
      fs, t := RefusesRest(cfg, reqs, fs, t, c, r, row, url + 1);
    }
    assert t.callers == s.callers[c := Failing(r, row)];
  }

  // ---------------------------------------------------------------- the failure path

  /** From the catch block to the finally block, which deletes the lock again. */
  lemma UnlocksOnce(cfg: Config, reqs: Requests, es: seq<Event>, s: State, c: CallerId, r: RequestId, row: nat)
    returns (fs: seq<Event>, t: State)
    requires s == Run(cfg, reqs, Init, es)
    requires c in s.callers && s.callers[c] == Failing(r, row) && row < |s.rows|
    ensures t == Run(cfg, reqs, Init, fs) && GoesOn(es, fs)
    ensures t == s.(rows := s.rows[row := s.rows[row].(status := Failed)], locks := s.locks - {r},
                    callers := s.callers[c := Finally(r, Threw(SettlementFailed))])
  {
    MarksFailed(cfg, reqs, s, c, r, row);
    fs, t := Go(cfg, reqs, es, s, Answered(c));
    Unlocks(cfg, reqs, t, c, r);
    fs, t := Go(cfg, reqs, fs, t, Answered(c));
    assert t.callers == s.callers[c := Finally(r, Threw(SettlementFailed))];
  }

  /** ... and to the answer settlement_failed. */
  lemma FailsOut(cfg: Config, reqs: Requests, es: seq<Event>, s: State, c: CallerId, r: RequestId, row: nat)
    returns (fs: seq<Event>, t: State)
    requires s == Run(cfg, reqs, Init, es)
    requires c in s.callers && s.callers[c] == Failing(r, row) && row < |s.rows|
    ensures t == Run(cfg, reqs, Init, fs) && GoesOn(es, fs)
    ensures t == s.(rows := s.rows[row := s.rows[row].(status := Failed)], locks := s.locks - {r},
                    callers := s.callers[c := Done(r, Threw(SettlementFailed))])
  {
    fs, t := UnlocksOnce(cfg, reqs, es, s, c, r, row);
    DeletesAgain(cfg, reqs, t, c, r);
    fs, t := Go(cfg, reqs, fs, t, Answered(c));
    assert s.locks - {r} - {r} == s.locks - {r};
    assert t.callers == s.callers[c := Done(r, Threw(SettlementFailed))];
  }

  // ---------------------------------------------------------------- a payment heard of

  /** The request's authorization can still be spent: some moment of its window is left and its key is unused. */
  predicate Open(cfg: Config, reqs: Requests, chain: Chain.State, r: RequestId)
    requires Submittable(cfg, reqs, r)
  {
    var call := CallFor(cfg, reqs[r]);
    chain.now < call.auth.validBefore && 1 < call.auth.validBefore && Chain.KeyOf(call) !in chain.used
  }

  /** Transaction `h` is a success with exactly this request's arguments. */
  predicate Paid(cfg: Config, reqs: Requests, chain: Chain.State, r: RequestId, h: Chain.TxHash)
    requires Submittable(cfg, reqs, r)
  {
    Chain.Succeeded(chain, h) && chain.txs[h].call == CallFor(cfg, reqs[r])
  }

  /** The chain after the first block past time 0 that holds transaction `h`. */
  function AfterBlock(chain: Chain.State, h: Chain.TxHash): Chain.State {
    Chain.Mine(Chain.Tick(chain, 1), h, true)
  }

  lemma BlockArrives(cfg: Config, reqs: Requests, es: seq<Event>, s: State, h: Chain.TxHash)
    returns (fs: seq<Event>, t: State)
    requires s == Run(cfg, reqs, Init, es)
    ensures t == Run(cfg, reqs, Init, fs) && GoesOn(es, fs) && t == s.(chain := AfterBlock(s.chain, h))
  {
    fs, t := Go(cfg, reqs, es, s, Tick(1));
    fs, t := Go(cfg, reqs, fs, t, Mined(h, true));
  }

  lemma OpenPays(cfg: Config, reqs: Requests, chain: Chain.State, r: RequestId, h: Chain.TxHash)
    requires Submittable(cfg, reqs, r) && Open(cfg, reqs, chain, r)
    requires h < |chain.txs| && chain.txs[h] == Chain.Tx(CallFor(cfg, reqs[r]), Chain.Mempool)
    ensures var after := AfterBlock(chain, h);
            && Paid(cfg, reqs, after, r, h) && after.used == chain.used[Chain.KeyOf(CallFor(cfg, reqs[r])) := h]
            && after.now == (if chain.now < 1 then 1 else chain.now) && |after.txs| == |chain.txs|
  {
  }

  /** A new caller broadcasts and hears of the success of its transaction. */
  lemma Pays(cfg: Config, reqs: Requests, es: seq<Event>, s: State, c: CallerId, r: RequestId)
    returns (fs: seq<Event>, t: State)
    requires s == Run(cfg, reqs, Init, es) && cfg.rpcUrls >= 1
    requires Submittable(cfg, reqs, r) && c !in s.callers && r !in s.locks && NoneConfirmed(s.rows, r)
    requires Open(cfg, reqs, s.chain, r)
    ensures t == Run(cfg, reqs, Init, fs) && GoesOn(es, fs) && Paid(cfg, reqs, t.chain, r, |s.chain.txs|)
    ensures t == s.(locks := s.locks + {r}, rows := s.rows + [PendingRow(r)], chain := t.chain,
                    callers := s.callers[c := Confirming(r, |s.rows|, |s.chain.txs|)],
                    sent := s.sent[|s.chain.txs| := c])
    ensures t.chain.used == s.chain.used[Chain.KeyOf(CallFor(cfg, reqs[r])) := |s.chain.txs|]
    ensures t.chain.now == (if s.chain.now < 1 then 1 else s.chain.now) && |t.chain.txs| == |s.chain.txs| + 1
  {
    var h := |s.chain.txs|;
    var u;
    fs, u := Waits(cfg, reqs, es, s, c, r);
    OpenPays(cfg, reqs, u.chain, r, h);
    fs, t := BlockArrives(cfg, reqs, fs, u, h);
    HearsSuccess(cfg, reqs, t, c);
    fs, t := Go(cfg, reqs, fs, t, Answered(c));
    assert t.callers == s.callers[c := Confirming(r, |s.rows|, h)];
  }

  lemma InitOpen(cfg: Config, reqs: Requests, r: RequestId)
    requires Submittable(cfg, reqs, r) && reqs[r].expiresAtMs >= 2_000
    ensures Open(cfg, reqs, Init.chain, r)
  {
  }
}
