/** runVerify (src/application/verify.service.ts) over its two replay layers (src/protocol/anti-replay.ts): both Redis
    keys claimed in parallel, then the durable PostgreSQL check, then the signature, then the verification row.
    Any number of calls run at once; every command may be delivered, dropped, or take effect without its reply. */
module VerifyService {
  import opened Prelude
  import opened Hex
  import opened Registry

  /** `valid` is EIP-3009 signature verification, `hash` is SHA-256 of the signature text. */
  datatype Config = Config(networks: Networks, valid: Body -> bool, hash: string -> string)

  /** One call: its request id, its body, the hash of its signature and the clock reading of its checks. */
  datatype Call = Call(request: RequestId, body: Body, sig: string, at: nat)

  datatype Code =
    | InvalidPayload | UnsupportedNetwork | UnsupportedAsset | ExpiredPayment
    | NonceUsed | SignatureUsed | InvalidSignature | InternalError

  /** Steps 1 to 5; an unparsable payload is None. */
  function Precheck(cfg: Config, body: Option<Body>, now: nat): Option<Code> {
    match body
    case None => Some(InvalidPayload)
    case Some(b) =>
      match Resolve(cfg.networks, b.network, Upper(b.asset))
      case UnsupportedNetwork => Some(Code.UnsupportedNetwork)
      case UnsupportedAsset => Some(Code.UnsupportedAsset)
      case Asset(_, _) =>
        if b.auth.validBefore <= now then Some(ExpiredPayment)
        else if b.auth.validAfter > now then Some(InvalidPayload)
        else if Lower(b.auth.to) != Lower(b.recipient) then Some(InvalidPayload)
        else if b.auth.value < b.requiredAmount then Some(InvalidPayload)
        else None
  }

  function NonceOf(q: Call): Key { NonceKey(q.body.auth.nonce) }
  function SigOf(q: Call): Key { SigKey(q.sig) }

  type CallerId = nat

  /** One row of payment_verifications; its nonce and its signature hash are unique. `caller` is history. */
  datatype Row = Row(accepted: bool, request: RequestId, nonce: string, sig: string, caller: CallerId)

  /** The reply to one SET NX: it set the key, the key was taken, or it threw, having set the key or not. */
  datatype Claim = Won | Lost | Failed(wasSet: bool)

  /** The reply to one DEL: done, or it threw, and the key is still standing or not. */
  datatype Deletion = Deleted | Undeleted(standing: bool)

  /** What follows once both keys are released. */
  datatype After = Answer(code: Code) | RecordRejection

  datatype Result =
    | Accepted(row: nat)
    | Rejected(code: Code, kept: set<Key>)   // `kept` is history: keys it set and never releases
    | Aborted(kept: set<Key>)                // it threw
    | Crashed(kept: set<Key>)

  datatype Pc =
    | Claiming(q: Call, nonce: Option<Claim>, sig: Option<Claim>)
    | UndoingNonce(q: Call)
    | Checking(q: Call)
    | Verifying(q: Call)
    | Upserting(q: Call, accepted: bool)
    | Recording(q: Call, accepted: bool)
    | Releasing(q: Call, after: After, nonceDel: Option<Deletion>, sigDel: Option<Deletion>)
    | Done(q: Call, result: Result)

  datatype State = State(
    keys: map<Key, CallerId>,
    requests: set<RequestId>,
    rows: seq<Row>,
    nonceIndex: map<string, nat>,
    sigIndex: map<string, nat>,
    callers: map<CallerId, Pc>)

  const Init := State(map[], {}, [], map[], map[], map[])

  datatype Event =
    | Begin(c: CallerId, request: RequestId, body: Option<Body>, now: nat)
    | NonceCommand(c: CallerId, reply: Reply)
    | SigCommand(c: CallerId, reply: Reply)
    | Act(c: CallerId, reply: Reply, sigRow: bool)   // which of two matching rows the durable check is shown
    | Crash(c: CallerId)
    | KeyExpires(k: Key)

  // ---------------------------------------------------------------- claiming and releasing, two keys in parallel

  function ClaimReply(keys: map<Key, CallerId>, k: Key, reply: Reply): Claim {
    match reply
    case Delivered => if k in keys then Lost else Won
    case Dropped => Failed(false)
    case ReplyLost => Failed(k !in keys)
  }

  function SetNx(keys: map<Key, CallerId>, k: Key, c: CallerId, reply: Reply): map<Key, CallerId> {
    if k in keys || reply.Dropped? then keys else keys[k := c]
  }

  /** Promise.all over the two SETs has settled. */
  function AfterClaims(q: Call, nonce: Claim, sig: Claim): Pc {
    if nonce.Failed? || sig.Failed? then Done(q, Aborted(HeldBy(q, Some(nonce), Some(sig))))
    else if nonce.Lost? then Done(q, Rejected(NonceUsed, HeldBy(q, Some(nonce), Some(sig))))
    else if sig.Lost? then UndoingNonce(q)
    else Checking(q)
  }

  /** The keys set by the SETs answered so far. */
  function HeldBy(q: Call, nonce: Option<Claim>, sig: Option<Claim>): set<Key> {
    (if nonce.Some? && (nonce.value.Won? || nonce.value == Failed(true)) then {NonceOf(q)} else {})
    + (if sig.Some? && (sig.value.Won? || sig.value == Failed(true)) then {SigOf(q)} else {})
  }

  function DelReply(reply: Reply): Deletion {
    match reply
    case Delivered => Deleted
    case Dropped => Undeleted(true)
    case ReplyLost => Undeleted(false)
  }

  /** The keys the DELs answered so far have left standing. */
  function Unreleased(q: Call, nonce: Option<Deletion>, sig: Option<Deletion>): set<Key> {
    (if nonce.None? || nonce.value == Undeleted(true) then {NonceOf(q)} else {})
    + (if sig.None? || sig.value == Undeleted(true) then {SigOf(q)} else {})
  }

  function AfterReleases(q: Call, after: After, nonce: Deletion, sig: Deletion): Pc {
    if nonce.Undeleted? || sig.Undeleted? then Done(q, Aborted(Unreleased(q, Some(nonce), Some(sig))))
    else
      match after
      case Answer(code) => Done(q, Rejected(code, {}))
      case RecordRejection => Upserting(q, false)
  }

  function ClaimStep(q: Call, nonce: Option<Claim>, sig: Option<Claim>): Pc {
    if nonce.Some? && sig.Some? then AfterClaims(q, nonce.value, sig.value) else Claiming(q, nonce, sig)
  }

  function ReleaseStep(q: Call, after: After, nonce: Option<Deletion>, sig: Option<Deletion>): Pc {
    if nonce.Some? && sig.Some? then AfterReleases(q, after, nonce.value, sig.value)
    else Releasing(q, after, nonce, sig)
  }

  function NonceCommandStep(s: State, c: CallerId, reply: Reply): State
    requires c in s.callers
  {
    match s.callers[c]
    case Claiming(q, None, sig) =>
      s.(keys := SetNx(s.keys, NonceOf(q), c, reply),
         callers := s.callers[c := ClaimStep(q, Some(ClaimReply(s.keys, NonceOf(q), reply)), sig)])
    case Releasing(q, after, None, sig) =>
      s.(keys := if reply.Dropped? then s.keys else s.keys - {NonceOf(q)},
         callers := s.callers[c := ReleaseStep(q, after, Some(DelReply(reply)), sig)])
    case _ => s
  }

  function SigCommandStep(s: State, c: CallerId, reply: Reply): State
    requires c in s.callers
  {
    match s.callers[c]
    case Claiming(q, nonce, None) =>
      s.(keys := SetNx(s.keys, SigOf(q), c, reply),
         callers := s.callers[c := ClaimStep(q, nonce, Some(ClaimReply(s.keys, SigOf(q), reply)))])
    case Releasing(q, after, nonce, None) =>
      s.(keys := if reply.Dropped? then s.keys else s.keys - {SigOf(q)},
         callers := s.callers[c := ReleaseStep(q, after, nonce, Some(DelReply(reply)))])
    case _ => s
  }

  // ---------------------------------------------------------------- the other awaits

  /** The unique constraint a row for this call would violate, if any. */
  function Replay(s: State, q: Call): Option<Code> {
    if q.body.auth.nonce in s.nonceIndex then Some(NonceUsed)
    else if q.sig in s.sigIndex then Some(SignatureUsed)
    else None
  }

  /** checkReplayPostgres: any row with the nonce or the signature hash; when they are two rows, findFirst may return
      the one with the signature only. */
  function ReplayAnswer(s: State, q: Call, sigRow: bool): Option<Code> {
    var n := q.body.auth.nonce;
    if sigRow && q.sig in s.sigIndex && (n in s.nonceIndex ==> s.nonceIndex[n] != s.sigIndex[q.sig])
    then Some(SignatureUsed) else Replay(s, q)
  }

  function Insert(s: State, c: CallerId, q: Call, accepted: bool): State {
    s.(rows := s.rows + [Row(accepted, q.request, q.body.auth.nonce, q.sig, c)],
       nonceIndex := s.nonceIndex[q.body.auth.nonce := |s.rows|],
       sigIndex := s.sigIndex[q.sig := |s.rows|])
  }

  function Release(q: Call, after: After): Pc { Releasing(q, after, None, None) }

  function Effect(s: State, c: CallerId, pc: Pc): State {
    match pc
    case UndoingNonce(q) => s.(keys := s.keys - {NonceOf(q)})
    case Upserting(q, _) => s.(requests := s.requests + {q.request})
    case Recording(q, accepted) => if Replay(s, q).None? then Insert(s, c, q, accepted) else s
    case _ => s
  }

  function Resume(cfg: Config, s: State, pc: Pc, sigRow: bool): Pc {
    match pc
    case UndoingNonce(q) => Done(q, Rejected(SignatureUsed, {}))
    case Checking(q) =>
      (match ReplayAnswer(s, q, sigRow) case Some(code) => Release(q, Answer(code)) case None => Verifying(q))
    case Verifying(q) => if cfg.valid(q.body) then Upserting(q, true) else Release(q, RecordRejection)
    case Upserting(q, accepted) => Recording(q, accepted)
    case Recording(q, true) =>
      if Replay(s, q).None? then Done(q, Accepted(|s.rows|)) else Release(q, Answer(InternalError))
    case Recording(q, false) =>
      if Replay(s, q).None? then Done(q, Rejected(InvalidSignature, {})) else Done(q, Aborted({}))
    case _ => pc
  }

  /** The await threw: only persisting an acceptance is inside a try block. */
  function Catch(pc: Pc, reply: Reply): Pc {
    match pc
    case UndoingNonce(q) => Done(q, Aborted(if reply.Dropped? then {NonceOf(q)} else {}))
    case Checking(q) => Done(q, Aborted({NonceOf(q), SigOf(q)}))
    case Verifying(q) => Done(q, Aborted({NonceOf(q), SigOf(q)}))
    case Upserting(q, true) => Release(q, Answer(InternalError))
    case Recording(q, true) => Release(q, Answer(InternalError))
    case Upserting(q, false) => Done(q, Aborted({}))
    case Recording(q, false) => Done(q, Aborted({}))
    case _ => pc
  }

  function ActStep(cfg: Config, s: State, c: CallerId, reply: Reply, sigRow: bool): State
    requires c in s.callers
  {
    var pc := s.callers[c];
    var s' := if reply.Dropped? then s else Effect(s, c, pc);
    s'.(callers := s.callers[c := if reply.Delivered? then Resume(cfg, s, pc, sigRow) else Catch(pc, reply)])
  }

  const NoBody := Body("", "", 0, "", "", Authorization("", "", 0, 0, 0, ""))

  function Start(cfg: Config, request: RequestId, body: Option<Body>, now: nat): Pc {
    match Precheck(cfg, body, now)
    case Some(code) => Done(Call(request, body.GetOr(NoBody), "", now), Rejected(code, {}))
    case None => Claiming(Call(request, body.value, cfg.hash(body.value.signature), now), None, None)
  }

  function Next(cfg: Config, s: State, e: Event): State {
    match e
    case Begin(c, request, body, now) =>
      if c in s.callers then s else s.(callers := s.callers[c := Start(cfg, request, body, now)])
    case NonceCommand(c, reply) => if c in s.callers then NonceCommandStep(s, c, reply) else s
    case SigCommand(c, reply) => if c in s.callers then SigCommandStep(s, c, reply) else s
    case Act(c, reply, sigRow) => if c in s.callers then ActStep(cfg, s, c, reply, sigRow) else s
    case Crash(c) =>
      if c in s.callers && !s.callers[c].Done?
      then s.(callers := s.callers[c := Done(s.callers[c].q, Crashed(Held(s.callers[c])))]) else s
    case KeyExpires(k) => s.(keys := s.keys - {k})
  }

  /** The keys a call has set and not deleted. */
  function Held(pc: Pc): set<Key> {
    match pc
    case Claiming(q, nonce, sig) => HeldBy(q, nonce, sig)
    case UndoingNonce(q) => {NonceOf(q)}
    case Checking(q) => {NonceOf(q), SigOf(q)}
    case Verifying(q) => {NonceOf(q), SigOf(q)}
    case Upserting(q, accepted) => if accepted then {NonceOf(q), SigOf(q)} else {}
    case Recording(q, accepted) => if accepted then {NonceOf(q), SigOf(q)} else {}
    case Releasing(q, _, nonce, sig) => Unreleased(q, nonce, sig)
    case Done(q, Accepted(_)) => {NonceOf(q), SigOf(q)}
    case Done(_, Rejected(_, kept)) => kept
    case Done(_, Aborted(kept)) => kept
    case Done(_, Crashed(kept)) => kept
  }

  function Run(cfg: Config, s: State, es: seq<Event>): State {
    if es == [] then s else Next(cfg, Run(cfg, s, es[..|es| - 1]), es[|es| - 1])
  }

  lemma RunSnoc(cfg: Config, s: State, es: seq<Event>, e: Event)
    ensures Run(cfg, s, es + [e]) == Next(cfg, Run(cfg, s, es), e)
  {
    assert (es + [e])[..|es + [e]| - 1] == es;
  }
}
