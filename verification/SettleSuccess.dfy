/** The runs of settlePayment in which everything works, after any number of endpoints that refuse. */
module SettleSuccess {
  import opened Prelude
  import opened Registry
  import opened SettlePayment
  import opened SettleWitnesses
  import Chain
  import FeeEngine

  /** The first `k` endpoints refuse the submission. */
  lemma {:induction false} RefusesFirst(cfg: Config, reqs: Requests, es: seq<Event>, s: State, c: CallerId,
                                        r: RequestId, row: nat, k: nat)
    returns (fs: seq<Event>, t: State)
    requires s == Run(cfg, reqs, Init, es)
    requires k < cfg.rpcUrls && c in s.callers && s.callers[c] == Submitting(r, row, 0)
    ensures t == Run(cfg, reqs, Init, fs) && es <= fs && |fs| == |es| + k
    ensures forall i :: |es| <= i < |fs| ==> fs[i] == Refused(c)
    ensures t == s.(callers := s.callers[c := Submitting(r, row, k)])
    decreases k
  {
    fs, t := es, s;
    if k > 0 {
      fs, t := RefusesFirst(cfg, reqs, es, s, c, r, row, k - 1);
      RefusesSubmission(cfg, reqs, t, c, r, row, k - 1);
      fs, t := Go(cfg, reqs, fs, t, Refused(c));
    }
    assert t.callers == s.callers[c := Submitting(r, row, k)];
  }

  /** The row as the confirming transaction leaves it. */
  function PaidRow(cfg: Config, reqs: Requests, r: RequestId, tx: Chain.TxHash): Settlement
    requires r in reqs
  {
    Settlement(r, Confirmed, Some(tx), FeeEngine.Share(reqs[r].amount, cfg.platformFeeBps), 0, None, 0)
  }

  lemma ConfirmsNext(cfg: Config, reqs: Requests, s: State, r: RequestId, tx: Chain.TxHash)
    requires r in reqs && s.callers == map[1 := Confirming(r, 0, tx)]
    requires s.rows == [PendingRow(r)] && s.receipts == map[]
    ensures Next(cfg, reqs, s, Answered(1)) ==
              s.(rows := [PaidRow(cfg, reqs, r, tx)], receipts := map[r := Receipt(0, 0, tx)],
                 callers := map[1 := Finally(r, Settled(0, Some(tx), Some(0), false))])
  {
    var t := Next(cfg, reqs, s, Answered(1));
    assert t.lost == s.lost && t.sent == s.sent && t.heard == s.heard;
  }

  lemma LeavesNext(cfg: Config, reqs: Requests, s: State, r: RequestId, o: Outcome)
    requires s.callers == map[1 := Finally(r, o)] && s.locks == {r}
    ensures Next(cfg, reqs, s, Answered(1)) == s.(locks := {}, callers := map[1 := Done(r, o)])
  {
    assert {r} - {r} == {};
  }

  /** The lone call at its first broadcast. */
  lemma LoneSubmits(cfg: Config, reqs: Requests, r: RequestId, k: nat) returns (es: seq<Event>, s: State, n: nat)
    requires Submittable(cfg, reqs, r) && k < cfg.rpcUrls
    ensures s == Run(cfg, reqs, Init, es) && n + k == |es| && Smooth(es[..n])
    ensures forall i :: n <= i < |es| ==> es[i] == Refused(1)
    ensures s == Init.(locks := {r}, rows := [PendingRow(r)], callers := map[1 := Submitting(r, 0, k)])
  {
    var before, u := Submits(cfg, reqs, [], Init, 1, r);
    n := |before|;
    es, s := RefusesFirst(cfg, reqs, before, u, 1, r, 0, k);
    assert es[..n] == before;
  }

  /** The lone call waits for the block of its broadcast. */
  ghost predicate LoneWaiting(cfg: Config, reqs: Requests, s: State, r: RequestId, k: nat)
    requires Submittable(cfg, reqs, r)
  {
    && s.chain == Chain.Broadcast(Chain.Genesis, CallFor(cfg, reqs[r])) && s.callers == map[1 := Waiting(r, 0, k, 0)]
    && s.rows == [PendingRow(r)] && s.receipts == map[] && s.locks == {r}
  }

  lemma LoneHears(cfg: Config, reqs: Requests, es: seq<Event>, s: State, r: RequestId, k: nat)
    returns (fs: seq<Event>, t: State)
    requires Submittable(cfg, reqs, r) && s == Run(cfg, reqs, Init, es)
    requires s == Init.(locks := {r}, rows := [PendingRow(r)], callers := map[1 := Submitting(r, 0, k)])
    ensures t == Run(cfg, reqs, Init, fs) && GoesOn(es, fs) && LoneWaiting(cfg, reqs, t, r, k)
  {
    HearsHash(cfg, reqs, s, 1, r, 0, k);
    fs, t := Go(cfg, reqs, es, s, Answered(1));
  }

  ghost predicate LonePaid(cfg: Config, reqs: Requests, s: State, r: RequestId, pc: Pc)
    requires Submittable(cfg, reqs, r)
  {
    && Paid(cfg, reqs, s.chain, r, 0) && s.callers == map[1 := pc]
    && s.rows == [PendingRow(r)] && s.receipts == map[] && s.locks == {r}
  }

  /** Its block arrives ... */
  lemma LoneMined(cfg: Config, reqs: Requests, es: seq<Event>, s: State, r: RequestId, k: nat)
    returns (fs: seq<Event>, t: State)
    requires Submittable(cfg, reqs, r) && reqs[r].expiresAtMs >= 2_000
    requires s == Run(cfg, reqs, Init, es) && LoneWaiting(cfg, reqs, s, r, k)
    ensures t == Run(cfg, reqs, Init, fs) && GoesOn(es, fs) && LonePaid(cfg, reqs, t, r, Waiting(r, 0, k, 0))
  {
    OpenPays(cfg, reqs, s.chain, r, 0);
    fs, t := BlockArrives(cfg, reqs, es, s, 0);
  }

  /** ... and it comes to confirm. */
  lemma LoneConfirms(cfg: Config, reqs: Requests, es: seq<Event>, s: State, r: RequestId, k: nat)
    returns (fs: seq<Event>, t: State)
    requires Submittable(cfg, reqs, r)
    requires s == Run(cfg, reqs, Init, es) && LonePaid(cfg, reqs, s, r, Waiting(r, 0, k, 0))
    ensures t == Run(cfg, reqs, Init, fs) && GoesOn(es, fs) && LonePaid(cfg, reqs, t, r, Confirming(r, 0, 0))
  {
    HearsSuccess(cfg, reqs, s, 1);
    fs, t := Go(cfg, reqs, es, s, Answered(1));
  }

  /** For every submittable request whose deadline lies at least two seconds past time 0, and every endpoint `k`: in the
      run of one call in which the first `k` endpoints refuse and everything else is answered, the call answers with a
      fresh settlement: its row confirmed and charged, the receipt, the transfer behind it, and the lock gone. */
  lemma FailoverSettles(cfg: Config, reqs: Requests, r: RequestId, k: nat) returns (es: seq<Event>, n: nat)
    requires Submittable(cfg, reqs, r) && k < cfg.rpcUrls && reqs[r].expiresAtMs >= 2_000
    ensures n + k <= |es| && Smooth(es[..n]) && (forall i :: n <= i < n + k ==> es[i] == Refused(1))
    ensures forall i :: n + k <= i < |es| ==> Fine(es[i])
    ensures var s := Run(cfg, reqs, Init, es);
            && s.callers == map[1 := Done(r, Settled(0, Some(0), Some(0), false))]
            && s.rows == [PaidRow(cfg, reqs, r, 0)] && s.receipts == map[r := Receipt(0, 0, 0)]
            && s.locks == {} && Paid(cfg, reqs, s.chain, r, 0)
  {
    var before, fs, s;
    before, s, n := LoneSubmits(cfg, reqs, r, k);
    fs, s := LoneHears(cfg, reqs, before, s, r, k);
    fs, s := LoneMined(cfg, reqs, fs, s, r, k);
    fs, s := LoneConfirms(cfg, reqs, fs, s, r, k);
    ConfirmsNext(cfg, reqs, s, r, 0);
    es, s := Go(cfg, reqs, fs, s, Answered(1));
    LeavesNext(cfg, reqs, s, r, Settled(0, Some(0), Some(0), false));
    es, s := Go(cfg, reqs, es, s, Answered(1));
    assert es[..n] == before[..n];
  }

  /** With no endpoint refusing: the run in which every await is answered. */
  lemma SoloSettles(cfg: Config, reqs: Requests, r: RequestId) returns (es: seq<Event>)
    requires Submittable(cfg, reqs, r) && cfg.rpcUrls >= 1 && reqs[r].expiresAtMs >= 2_000
    ensures Smooth(es)
    ensures Run(cfg, reqs, Init, es).callers == map[1 := Done(r, Settled(0, Some(0), Some(0), false))]
  {
    var n;
    es, n := FailoverSettles(cfg, reqs, r, 0);
    forall i | 0 <= i < |es| ensures Fine(es[i]) { assert i < n ==> es[i] == es[..n][i]; }
  }
}
