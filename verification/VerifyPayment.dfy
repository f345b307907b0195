/** verifyPayment (src/application/verify-payment.ts): checks, two Redis claims one after the other, signature recovery,
    one persisting transaction, and rollback of the claims on every failure. Any number of calls run at once; every
    await may be delivered, dropped, or take effect without its reply; calls may crash and keys may expire. */
module VerifyPayment {
  import opened Prelude
  import opened Hex
  import opened Registry

  /** A request body and the clock reading its checks used (seconds). */
  datatype Proof = Proof(body: Body, at: nat)

  /** EIP-712 recovery, None when it throws; `networks` is the registry. */
  datatype Config = Config(networks: Networks, recover: (Network, AssetConfig, Authorization, string) -> Option<string>)

  datatype Code =
    | InvalidPayload | UnsupportedNetwork | UnsupportedAsset | ExpiredPayment
    | DuplicatePayment | InvalidSignature | InternalError

  // ---------------------------------------------------------------- the checks before any await

  predicate HexField(s: string, digits: nat) {
    |s| == digits + 2 && s[..2] == "0x" && IsHex(s[2..])
  }

  /** The Zod schema's conditions on the fields that matter here (src/protocol/x402-parser.ts:5-28). */
  predicate SchemaOk(b: Body) {
    && HexField(b.auth.from, 40) && HexField(b.auth.to, 40) && HexField(b.recipient, 40)
    && HexField(b.auth.nonce, 64) && HexField(b.signature, 130)
    && b.auth.validBefore > 0 && b.network != "" && b.asset != ""
  }

  function Precheck(cfg: Config, p: Proof): Option<Code> {
    var b := p.body;
    if !SchemaOk(b) then Some(InvalidPayload)
    else
      match Resolve(cfg.networks, b.network, b.asset)
      case UnsupportedNetwork => Some(Code.UnsupportedNetwork)
      case UnsupportedAsset => Some(Code.UnsupportedAsset)
      case Asset(_, _) =>
        if b.auth.validBefore <= p.at then Some(ExpiredPayment)
        else if Lower(b.auth.to) != Lower(b.recipient) then Some(InvalidPayload)
        else if b.auth.value < b.requiredAmount then Some(InvalidPayload)
        else None
  }

  predicate SignedByPayer(cfg: Config, b: Body) {
    var found := Resolve(cfg.networks, b.network, b.asset);
    found.Asset? &&
    var signer := cfg.recover(found.network, found.asset, b.auth, b.signature);
    signer.Some? && Lower(signer.value) == Lower(b.auth.from)
  }

  // ---------------------------------------------------------------- the stores

  function NonceOf(b: Body): Key { NonceKey(Lower(b.auth.nonce)) }

  /** computeSignatureHash is the lower-cased signature text itself (src/crypto/signature-verifier.ts:69-71). */
  function SigOf(b: Body): Key { SigKey(Lower(b.signature)) }

  /** The largest time a JavaScript Date can hold; persisting a later expiry throws. */
  const DATE_MAX_MS: nat := 8_640_000_000_000_000

  /** The two rows the persisting transaction writes. */
  function RecordOf(b: Body): PaymentRequest {
    PaymentRequest(b.auth.to, b.auth.from, b.network, b.asset, b.auth.value, b.auth.validBefore * 1_000,
                   [Verification(b.auth.nonce, Lower(b.signature))])
  }

  type CallerId = nat

  /** Where a row came from (history). */
  datatype Origin = Origin(proof: Proof, caller: CallerId)

  /** `held` and `committed` are history: keys never released, and rows written although the call threw. */
  datatype Result =
    | Accepted(request: RequestId)
    | Rejected(code: Code, committed: Option<RequestId>)
    | Aborted(held: set<Key>, committed: Option<RequestId>)   // crashed, or a Redis command threw

  datatype Pc =
    | ClaimingNonce(p: Proof)
    | ClaimingSig(p: Proof)
    | ReleasingNonce(p: Proof)
    | Recovering(p: Proof)
    | Persisting(p: Proof)
    | RollingNonce(p: Proof, code: Code, committed: Option<RequestId>)
    | RollingSig(p: Proof, code: Code, committed: Option<RequestId>)
    | Done(p: Proof, result: Result)

  /** `keys` are the live Redis keys; the caller each maps to, the one whose SET NX created it, is history.
      The two indexes are the unique constraints of payment_verifications. */
  datatype State = State(
    keys: map<Key, CallerId>,
    requests: Requests,
    nonceIndex: map<string, RequestId>,
    sigIndex: map<string, RequestId>,
    origin: map<RequestId, Origin>,
    callers: map<CallerId, Pc>)

  const Init: State := State(map[], map[], map[], map[], map[], map[])

  datatype Event =
    | Begin(c: CallerId, p: Proof)
    | Act(c: CallerId, reply: Reply, id: RequestId)
    | Crash(c: CallerId)
    | KeyExpires(k: Key)

  // ---------------------------------------------------------------- one await

  function SetNx(keys: map<Key, CallerId>, k: Key, c: CallerId): map<Key, CallerId> {
    if k in keys then keys else keys[k := c]
  }

  /** Unique constraints on the request id, the nonce and the signature hash, and a representable expiry. */
  predicate CanPersist(s: State, b: Body, id: RequestId) {
    && id !in s.requests
    && b.auth.nonce !in s.nonceIndex
    && Lower(b.signature) !in s.sigIndex
    && b.auth.validBefore * 1_000 <= DATE_MAX_MS
  }

  /** The persisting transaction. */
  function Persist(s: State, o: Origin, id: RequestId): State {
    var b := o.proof.body;
    s.(requests := s.requests[id := RecordOf(b)], origin := s.origin[id := o],
       nonceIndex := s.nonceIndex[b.auth.nonce := id], sigIndex := s.sigIndex[Lower(b.signature) := id])
  }

  function Effect(s: State, c: CallerId, pc: Pc, id: RequestId): State {
    var b := pc.p.body;
    match pc
    case ClaimingNonce(_) => s.(keys := SetNx(s.keys, NonceOf(b), c))
    case ClaimingSig(_) => s.(keys := SetNx(s.keys, SigOf(b), c))
    case ReleasingNonce(_) => s.(keys := s.keys - {NonceOf(b)})
    case Persisting(p) =>
      if CanPersist(s, b, id) then Persist(s, Origin(p, c), id) else s
    case RollingNonce(_, _, _) => s.(keys := s.keys - {NonceOf(b)})
    case RollingSig(_, _, _) => s.(keys := s.keys - {SigOf(b)})
    case _ => s
  }

  function Resume(cfg: Config, s: State, pc: Pc, id: RequestId): Pc {
    var b := pc.p.body;
    match pc
    case ClaimingNonce(p) => if NonceOf(b) in s.keys then Done(p, Rejected(DuplicatePayment, None)) else ClaimingSig(p)
    case ClaimingSig(p) => if SigOf(b) in s.keys then ReleasingNonce(p) else Recovering(p)
    case ReleasingNonce(p) => Done(p, Rejected(DuplicatePayment, None))
    case Recovering(p) => if SignedByPayer(cfg, b) then Persisting(p) else RollingNonce(p, InvalidSignature, None)
    case Persisting(p) =>
      if CanPersist(s, b, id) then Done(p, Accepted(id)) else RollingNonce(p, InternalError, None)
    case RollingNonce(p, code, committed) => RollingSig(p, code, committed)
    case RollingSig(p, code, committed) => Done(p, Rejected(code, committed))
    case Done(_, _) => pc
  }

  /** The await threw. Only recovery and persistence are inside a try block; a throwing Redis command ends the call. */
  function Catch(s: State, pc: Pc, reply: Reply, id: RequestId): Pc {
    match pc
    case Recovering(p) => RollingNonce(p, InvalidSignature, None)
    case Persisting(p) =>
      RollingNonce(p, InternalError, if reply.ReplyLost? && CanPersist(s, p.body, id) then Some(id) else None)
    case Done(_, _) => pc
    case _ => Done(pc.p, Aborted(if reply.Dropped? then Held(pc) else HeldAfter(s, pc), Committed(pc)))
  }

  /** The keys a call has claimed and not released. */
  function Held(pc: Pc): set<Key> {
    var b := pc.p.body;
    match pc
    case ClaimingNonce(_) => {}
    case ClaimingSig(_) => {NonceOf(b)}
    case ReleasingNonce(_) => {NonceOf(b)}
    case Recovering(_) => {NonceOf(b), SigOf(b)}
    case Persisting(_) => {NonceOf(b), SigOf(b)}
    case RollingNonce(_, _, _) => {NonceOf(b), SigOf(b)}
    case RollingSig(_, _, _) => {SigOf(b)}
    case Done(_, Accepted(_)) => {NonceOf(b), SigOf(b)}
    case Done(_, Rejected(_, _)) => {}
    case Done(_, Aborted(held, _)) => held
  }

  /** The request a call has written, heard of or not. */
  function Committed(pc: Pc): Option<RequestId> {
    match pc
    case RollingNonce(_, _, committed) => committed
    case RollingSig(_, _, committed) => committed
    case Done(_, Accepted(id)) => Some(id)
    case Done(_, Rejected(_, committed)) => committed
    case Done(_, Aborted(_, committed)) => committed
    case _ => None
  }

  /** What it holds once its next Redis command has taken effect. */
  function HeldAfter(s: State, pc: Pc): set<Key> {
    var b := pc.p.body;
    match pc
    case ClaimingNonce(_) => if NonceOf(b) in s.keys then {} else {NonceOf(b)}
    case ClaimingSig(_) => {NonceOf(b)} + if SigOf(b) in s.keys then {} else {SigOf(b)}
    case ReleasingNonce(_) => {}
    case RollingNonce(_, _, _) => {SigOf(b)}
    case RollingSig(_, _, _) => {}
    case _ => Held(pc)
  }

  function ActStep(cfg: Config, s: State, c: CallerId, reply: Reply, id: RequestId): State
    requires c in s.callers
  {
    var pc := s.callers[c];
    var s' := if reply.Dropped? then s else Effect(s, c, pc, id);
    s'.(callers := s.callers[c := if reply.Delivered? then Resume(cfg, s, pc, id) else Catch(s, pc, reply, id)])
  }

  function Start(cfg: Config, p: Proof): Pc {
    match Precheck(cfg, p)
    case Some(code) => Done(p, Rejected(code, None))
    case None => ClaimingNonce(p)
  }

  function Next(cfg: Config, s: State, e: Event): State {
    match e
    case Begin(c, p) => if c in s.callers then s else s.(callers := s.callers[c := Start(cfg, p)])
    case Act(c, reply, id) => if c in s.callers then ActStep(cfg, s, c, reply, id) else s
    case Crash(c) =>
      if c in s.callers && !s.callers[c].Done?
      then s.(callers := s.callers[c := Done(s.callers[c].p, Aborted(Held(s.callers[c]), Committed(s.callers[c])))])
      else s
    case KeyExpires(k) => s.(keys := s.keys - {k})
  }

  function Run(cfg: Config, s: State, es: seq<Event>): State {
    if es == [] then s else Next(cfg, Run(cfg, s, es[..|es| - 1]), es[|es| - 1])
  }

  lemma RunSnoc(cfg: Config, s: State, es: seq<Event>, e: Event)
    ensures Run(cfg, s, es + [e]) == Next(cfg, Run(cfg, s, es), e)
  {
    assert (es + [e])[..|es + [e]| - 1] == es;
  }

  // ---------------------------------------------------------------- what was checked, whatever happens to Redis

  /** Everything verifyPayment establishes before it accepts. */
  ghost predicate Checked(cfg: Config, p: Proof) {
    Precheck(cfg, p).None? && SignedByPayer(cfg, p.body) && p.body.auth.validBefore * 1_000 <= DATE_MAX_MS
  }

  /** What a call in progress has already passed. */
  ghost predicate PcChecked(cfg: Config, pc: Pc) {
    match pc
    case Done(_, _) => true
    case Persisting(p) => Precheck(cfg, p).None? && SignedByPayer(cfg, p.body)
    case _ => Precheck(cfg, pc.p).None?
  }

  ghost predicate ChecksOk(cfg: Config, s: State) {
    && (forall r :: r in s.origin ==> Checked(cfg, s.origin[r].proof))
    && (forall c :: c in s.callers ==> PcChecked(cfg, s.callers[c]))
  }

  /** A stored request is the record of its proof and is found under its own nonce and signature. */
  ghost predicate RequestOk(s: State, r: RequestId)
    requires r in s.requests && r in s.origin
  {
    var b := s.origin[r].proof.body;
    && s.requests[r] == RecordOf(b)
    && b.auth.nonce in s.nonceIndex && s.nonceIndex[b.auth.nonce] == r
    && Lower(b.signature) in s.sigIndex && s.sigIndex[Lower(b.signature)] == r
  }

  ghost predicate TablesOk(s: State) {
    && s.origin.Keys == s.requests.Keys
    && (forall r :: r in s.requests ==> RequestOk(s, r))
  }

  /** Rows and calls that committed correspond one for one. */
  ghost predicate ResultsOk(s: State) {
    && (forall c :: c in s.callers && Committed(s.callers[c]).Some? ==>
          Committed(s.callers[c]).value in s.origin
          && s.origin[Committed(s.callers[c]).value] == Origin(s.callers[c].p, c))
    && (forall r :: r in s.origin ==>
          s.origin[r].caller in s.callers && Committed(s.callers[s.origin[r].caller]) == Some(r))
  }

  ghost predicate Inv(cfg: Config, s: State) {
    TablesOk(s) && ChecksOk(cfg, s) && ResultsOk(s)
  }

  lemma PersistKeepsTables(s: State, o: Origin, id: RequestId)
    requires TablesOk(s) && CanPersist(s, o.proof.body, id)
    ensures TablesOk(Persist(s, o, id))
  {
    var t := Persist(s, o, id);
    forall r | r in t.requests ensures RequestOk(t, r) {
      if r != id { assert RequestOk(s, r); }
    }
  }

  predicate SameTables(s: State, t: State) {
    t.requests == s.requests && t.origin == s.origin && t.nonceIndex == s.nonceIndex && t.sigIndex == s.sigIndex
  }

  lemma SameTablesOk(s: State, t: State)
    requires TablesOk(s) && SameTables(s, t)
    ensures TablesOk(t)
  {
    forall r | r in t.requests ensures RequestOk(t, r) { assert RequestOk(s, r); }
  }

  lemma EffectTables(s: State, c: CallerId, pc: Pc, id: RequestId)
    ensures var t := Effect(s, c, pc, id);
            if pc.Persisting? && CanPersist(s, pc.p.body, id) then t == Persist(s, Origin(pc.p, c), id)
                  else SameTables(s, t)
  {
  }

  /** Only the persisting await writes the tables, and it writes the record of the caller's own proof. */
  lemma NextTables(cfg: Config, s: State, e: Event)
    ensures var t := Next(cfg, s, e);
            if e.Act? && Commits(s, e, e.c) then SameTables(Persist(s, Origin(s.callers[e.c].p, e.c), e.id), t)
            else SameTables(s, t)
  {
    match e
    case Begin(c, p) => assert SameTables(s, Next(cfg, s, e));
    case Act(c, reply, id) => if c in s.callers { EffectTables(s, c, s.callers[c], id); }
    case _ =>
  }

  lemma NextKeepsTables(cfg: Config, s: State, e: Event)
    requires TablesOk(s)
    ensures TablesOk(Next(cfg, s, e)) && Grows(s.requests, Next(cfg, s, e).requests)
  {
    NextTables(cfg, s, e);
    var t := Next(cfg, s, e);
    if SameTables(s, t) {
      SameTablesOk(s, t);
    } else {
      var o := Origin(s.callers[e.c].p, e.c);
      PersistKeepsTables(s, o, e.id);
      SameTablesOk(Persist(s, o, e.id), t);
    }
  }

  lemma StepChecked(cfg: Config, s: State, pc: Pc, reply: Reply, id: RequestId)
    requires PcChecked(cfg, pc)
    ensures PcChecked(cfg, Resume(cfg, s, pc, id)) && PcChecked(cfg, Catch(s, pc, reply, id))
  {
  }

  lemma NextKeepsChecks(cfg: Config, s: State, e: Event)
    requires ChecksOk(cfg, s)
    ensures ChecksOk(cfg, Next(cfg, s, e))
  {
    NextTables(cfg, s, e);
    if e.Act? && e.c in s.callers { StepChecked(cfg, s, s.callers[e.c], e.reply, e.id); }
  }

  lemma StepResult(cfg: Config, s: State, pc: Pc, reply: Reply, id: RequestId)
    ensures var pc' := if reply.Delivered? then Resume(cfg, s, pc, id) else Catch(s, pc, reply, id);
            pc'.p == pc.p &&
            Committed(pc') == if pc.Persisting? && !reply.Dropped? && CanPersist(s, pc.p.body, id) then Some(id)
                  else Committed(pc)
  {
  }

  /** A step moves at most one caller; a caller commits exactly when its persisting transaction does. */
  lemma NextCommits(cfg: Config, s: State, e: Event, c: CallerId)
    requires c in Next(cfg, s, e).callers
    ensures var pc' := Next(cfg, s, e).callers[c];
            if c !in s.callers then Committed(pc').None?
            else pc'.p == s.callers[c].p
                 && Committed(pc') == if Commits(s, e, c) then Some(e.id) else Committed(s.callers[c])
  {
    NextCaller(cfg, s, e, c);
    if c !in s.callers {
      StartCommitsNothing(cfg, e.p);
    } else if e.Act? && e.c == c {
      StepResult(cfg, s, s.callers[c], e.reply, e.id);
    }
  }

  /** Where a caller is after a step. */
  lemma NextCaller(cfg: Config, s: State, e: Event, c: CallerId)
    requires c in Next(cfg, s, e).callers
    ensures var pc' := Next(cfg, s, e).callers[c];
            if c !in s.callers then e.Begin? && pc' == Start(cfg, e.p)
            else
              var pc := s.callers[c];
              if e.Act? && e.c == c then
                pc' == if e.reply.Delivered? then Resume(cfg, s, pc, e.id) else Catch(s, pc, e.reply, e.id)
              else pc' == pc || pc' == Done(pc.p, Aborted(Held(pc), Committed(pc)))
  {
  }

  lemma StartCommitsNothing(cfg: Config, p: Proof)
    ensures Committed(Start(cfg, p)).None?
  {
  }

  /** `e` commits the persisting transaction of `c`. */
  predicate Commits(s: State, e: Event, c: CallerId) {
    && e.Act? && e.c == c && c in s.callers && s.callers[c].Persisting? && !e.reply.Dropped?
    && CanPersist(s, s.callers[c].p.body, e.id)
  }

  lemma NextKeepsResults(cfg: Config, s: State, e: Event)
    requires ResultsOk(s) && s.origin.Keys == s.requests.Keys
    ensures ResultsOk(Next(cfg, s, e))
  {
    var t := Next(cfg, s, e);
    NextTables(cfg, s, e);
    forall c | c in t.callers && Committed(t.callers[c]).Some?
      ensures Committed(t.callers[c]).value in t.origin
                && t.origin[Committed(t.callers[c]).value] == Origin(t.callers[c].p, c)
    {
      NextCommits(cfg, s, e, c);
    }
    forall r | r in t.origin
      ensures t.origin[r].caller in t.callers && Committed(t.callers[t.origin[r].caller]) == Some(r) {
      NextCommits(cfg, s, e, t.origin[r].caller);
    }
  }

  lemma NextKeeps(cfg: Config, s: State, e: Event)
    requires Inv(cfg, s)
    ensures Inv(cfg, Next(cfg, s, e)) && Grows(s.requests, Next(cfg, s, e).requests)
  {
    NextKeepsTables(cfg, s, e);
    NextKeepsChecks(cfg, s, e);
    NextKeepsResults(cfg, s, e);
  }

  lemma {:induction false} RunKeeps(cfg: Config, s: State, es: seq<Event>)
    requires Inv(cfg, s)
    ensures Inv(cfg, Run(cfg, s, es)) && Grows(s.requests, Run(cfg, s, es).requests)
  {
    if es != [] {
      RunKeeps(cfg, s, es[..|es| - 1]);
      NextKeeps(cfg, Run(cfg, s, es[..|es| - 1]), es[|es| - 1]);
    }
  }

  // ---------------------------------------------------------------- exact key accounting

  /** The live keys are exactly the held ones, each held by the one caller that created it. */
  ghost predicate KeysExact(s: State) {
    && (forall k :: k in s.keys ==> s.keys[k] in s.callers && k in Held(s.callers[s.keys[k]]))
    && (forall c, k :: c in s.callers && k in Held(s.callers[c]) ==> k in s.keys && s.keys[k] == c)
  }

  /** One call's claims change hands with the store and nobody else notices. */
  lemma HandOver(s: State, t: State, c: CallerId, pc: Pc)
    requires KeysExact(s) && t.callers == s.callers[c := pc]
    requires forall k :: k in Held(pc) ==> k in t.keys && t.keys[k] == c && (k in s.keys ==> s.keys[k] == c)
    requires forall k :: k in t.keys && k !in Held(pc) ==> k in s.keys && t.keys[k] == s.keys[k] && s.keys[k] != c
    requires forall k :: k in s.keys && s.keys[k] != c ==> k in t.keys
    ensures KeysExact(t)
  {
  }

  /** After an await a call holds what its command left it, whether or not it heard the reply. */
  lemma HeldStep(cfg: Config, s: State, pc: Pc, reply: Reply, id: RequestId)
    ensures Held(if reply.Delivered? then Resume(cfg, s, pc, id) else Catch(s, pc, reply, id))
         == if reply.Dropped? then Held(pc) else HeldAfter(s, pc)
  {
  }

  /** A command changes only keys of its caller: the claimed ones appear, the released ones go. */
  lemma EffectKeys(s: State, c: CallerId, pc: Pc, id: RequestId)
    requires forall k :: k in Held(pc) ==> k in s.keys && s.keys[k] == c
    ensures var keys := Effect(s, c, pc, id).keys; var held := HeldAfter(s, pc);
            && (forall k :: k in held ==> k in keys && keys[k] == c && (k in s.keys ==> k in Held(pc)))
            && (forall k :: k in keys && k !in held ==> k in s.keys && keys[k] == s.keys[k] && k !in Held(pc))
            && (forall k :: k in s.keys && k !in Held(pc) ==> k in keys)
  {
    var b := pc.p.body;
    assert NonceOf(b) != SigOf(b);
  }

  lemma ActKeysExact(cfg: Config, s: State, c: CallerId, reply: Reply, id: RequestId)
    requires KeysExact(s) && c in s.callers
    ensures KeysExact(ActStep(cfg, s, c, reply, id))
  {
    var t := ActStep(cfg, s, c, reply, id);
    HeldStep(cfg, s, s.callers[c], reply, id);
    EffectKeys(s, c, s.callers[c], id);
    HandOver(s, t, c, t.callers[c]);
  }

  /** A caller whose program counter moves without touching its keys. */
  lemma MovePc(s: State, c: CallerId, pc: Pc)
    requires KeysExact(s) && Held(pc) == if c in s.callers then Held(s.callers[c]) else {}
    ensures KeysExact(s.(callers := s.callers[c := pc]))
  {
    HandOver(s, s.(callers := s.callers[c := pc]), c, pc);
  }

  lemma NextKeysExact(cfg: Config, s: State, e: Event)
    requires KeysExact(s) && !e.KeyExpires?
    ensures KeysExact(Next(cfg, s, e))
  {
    match e
    case Begin(c, p) => if c !in s.callers { MovePc(s, c, Start(cfg, p)); }
    case Act(c, reply, id) => if c in s.callers { ActKeysExact(cfg, s, c, reply, id); }
    case Crash(c) =>
      if c in s.callers && !s.callers[c].Done? {
        MovePc(s, c, Done(s.callers[c].p, Aborted(Held(s.callers[c]), Committed(s.callers[c]))));
      }
  }
}
