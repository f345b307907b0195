/** verifyPayment, settlePayment and the chain together: what a confirmed settlement owes to the proof that was
    checked. */
module EndToEnd {
  import opened Prelude
  import opened Hex
  import opened Registry
  import Chain
  import V = VerifyPayment
  import S = SettlePayment

  datatype Config = Config(verify: V.Config, settle: S.Config)

  /** One deployment: both endpoints read the same registry. */
  ghost predicate OneRegistry(cfg: Config) {
    cfg.settle.networks == cfg.verify.networks
  }

  /** The settle side reads the request rows that the verify side writes. */
  datatype State = State(v: V.State, s: S.State)

  const Init := State(V.Init, S.Init)

  datatype Event = Verify(v: V.Event) | Settle(s: S.Event)

  function Next(cfg: Config, st: State, e: Event): State {
    match e
    case Verify(ev) => st.(v := V.Next(cfg.verify, st.v, ev))
    case Settle(es) => st.(s := S.Next(cfg.settle, st.v.requests, st.s, es))
  }

  function Run(cfg: Config, st: State, es: seq<Event>): State {
    if es == [] then st else Next(cfg, Run(cfg, st, es[..|es| - 1]), es[|es| - 1])
  }

  ghost predicate Reachable(cfg: Config, st: State) {
    exists es :: st == Run(cfg, Init, es)
  }

  ghost predicate Inv(cfg: Config, st: State) {
    V.Inv(cfg.verify, st.v) && S.Inv(cfg.settle, st.v.requests, st.s)
  }

  /** New payment requests disturb no settlement in progress. */
  lemma SettleSurvivesNewRequests(cfg: S.Config, before: Requests, after: Requests, s: S.State)
    requires S.Inv(cfg, before, s) && Grows(before, after)
    ensures S.Inv(cfg, after, s)
  {
    forall r | r in s.receipts ensures S.ReceiptOk(cfg, after, s, r) { assert S.ReceiptOk(cfg, before, s, r); }
    forall c | c in s.callers
      ensures S.PcOk(cfg, after, s, s.callers[c]) { assert S.PcOk(cfg, before, s, s.callers[c]); }
  }

  lemma NextKeeps(cfg: Config, st: State, e: Event)
    requires Inv(cfg, st)
    ensures Inv(cfg, Next(cfg, st, e))
  {
    match e
    case Verify(ev) =>
      V.NextKeeps(cfg.verify, st.v, ev);
      SettleSurvivesNewRequests(cfg.settle, st.v.requests, V.Next(cfg.verify, st.v, ev).requests, st.s);
    case Settle(es) => S.NextKeeps(cfg.settle, st.v.requests, st.s, es);
  }

  lemma {:induction false} RunKeeps(cfg: Config, es: seq<Event>)
    ensures Inv(cfg, Run(cfg, Init, es))
  {
    if es != [] {
      RunKeeps(cfg, es[..|es| - 1]);
      NextKeeps(cfg, Run(cfg, Init, es[..|es| - 1]), es[|es| - 1]);
    }
  }

  // ---------------------------------------------------------------- from proof to transfer

  /** The authorization a payer signed, as the token contract reads it. */
  function OnChain(a: Authorization): Chain.Authorization {
    Chain.Authorization(ToBytes(a.from), ToBytes(a.to), a.value, a.validAfter, a.validBefore, ToBytes(a.nonce))
  }

  /** `call` carries the checked proof: same payer, payee, amount, deadline, nonce, token and signature bytes, paid to
      the requested recipient and worth at least the required amount. The start of validity is always sent as 0. */
  ghost predicate Carries(cfg: Config, call: Chain.Call, p: V.Proof) {
    var b := p.body;
    var found := Resolve(cfg.verify.networks, b.network, b.asset);
    && V.Checked(cfg.verify, p)
    && found.Asset? && call.asset == ToBytes(found.asset.contractAddress)
    && call.auth == OnChain(b.auth).(validAfter := 0)
    && call.auth.to == ToBytes(b.recipient) && call.auth.value >= b.requiredAmount
    && call.sig == Chain.SplitSignature(b.signature)
    && call.sig.v.Some? && call.sig.r + call.sig.s + [call.sig.v.value] == ToBytes(b.signature)
  }

  /** What settlePayment submits for the record of a checked proof carries that proof. */
  lemma RecordCarries(cfg: Config, p: V.Proof)
    requires OneRegistry(cfg) && V.Checked(cfg.verify, p)
    ensures S.Resolvable(cfg.settle, V.RecordOf(p.body))
    ensures Carries(cfg, S.CallFor(cfg.settle, V.RecordOf(p.body)), p)
  {
    var b := p.body;
    Chain.SplitSignatureRoundTrip(b.signature);
    Chain.SplitSignatureIgnoresCase(b.signature);
    SameLowerSameBytes(b.auth.to, b.recipient);
    assert b.auth.validBefore * 1_000 / 1_000 == b.auth.validBefore;
  }

  /** End-to-end soundness: in every reachable state a confirmed settlement's transaction succeeded on chain and
      carried a checked proof, the one its payment request records; and it carried exactly the authorization that was
      signed if and only if the signed validAfter is 0. */
  lemma ConfirmedCarriesCheckedProof(cfg: Config, st: State, i: nat)
    requires OneRegistry(cfg) && Reachable(cfg, st)
    requires i < |st.s.rows| && st.s.rows[i].status.Confirmed?
    ensures var r := st.s.rows[i].request;
            && r in st.v.origin && st.s.rows[i].txHash.Some?
            && Chain.Succeeded(st.s.chain, st.s.rows[i].txHash.value)
            && var call := st.s.chain.txs[st.s.rows[i].txHash.value].call; var p := st.v.origin[r].proof;
               && Carries(cfg, call, p)
               && (call.auth == OnChain(p.body.auth) <==> p.body.auth.validAfter == 0)
  {
    var es :| st == Run(cfg, Init, es);
    RunKeeps(cfg, es);
    assert S.RowOk(st.s, i);
    var r := st.s.rows[i].request;
    assert S.ReceiptOk(cfg.settle, st.v.requests, st.s, r);
    assert V.RequestOk(st.v, r);
    RecordCarries(cfg, st.v.origin[r].proof);
  }

  /** Two confirmed settlements never rest on one signature or one nonce text, and spend different authorizations. */
  lemma ConfirmedProofsDiffer(cfg: Config, st: State, i: nat, j: nat)
    requires Reachable(cfg, st) && i < |st.s.rows| && j < |st.s.rows| && i != j
    requires st.s.rows[i].status.Confirmed? && st.s.rows[j].status.Confirmed?
    ensures var q := st.s.rows[i].request; var r := st.s.rows[j].request;
            && q in st.v.origin && r in st.v.origin && q != r
            && V.SigOf(st.v.origin[q].proof.body) != V.SigOf(st.v.origin[r].proof.body)
            && st.v.origin[q].proof.body.auth.nonce != st.v.origin[r].proof.body.auth.nonce
    ensures var g := st.s.rows[i].txHash; var h := st.s.rows[j].txHash;
            && g.Some? && h.Some? && Chain.Succeeded(st.s.chain, g.value) && Chain.Succeeded(st.s.chain, h.value)
            && Chain.KeyOf(st.s.chain.txs[g.value].call) != Chain.KeyOf(st.s.chain.txs[h.value].call)
  {
    var es :| st == Run(cfg, Init, es);
    RunKeeps(cfg, es);
    assert S.RowOk(st.s, i) && S.RowOk(st.s, j);
    var q, r := st.s.rows[i].request, st.s.rows[j].request;
    assert S.ReceiptOk(cfg.settle, st.v.requests, st.s, q) && S.ReceiptOk(cfg.settle, st.v.requests, st.s, r);
    assert V.RequestOk(st.v, q) && V.RequestOk(st.v, r);
  }
}
