/** What verifyPayment answers: which proofs it turns away at once, what a call is told in every run, and that a good
    proof is accepted. The conditions are written out on the body. */
module VerifyAnswers {
  import opened Prelude
  import opened Hex
  import opened Registry
  import opened VerifyPayment

  // ---------------------------------------------------------------- the checks, written out

  /** `0x` and exactly `digits` hexadecimal digits. */
  predicate HexText(s: string, digits: nat) {
    && |s| == 2 + digits && s[0] == '0' && s[1] == 'x'
    && forall i :: 2 <= i < |s| ==> '0' <= s[i] <= '9' || 'a' <= s[i] <= 'f' || 'A' <= s[i] <= 'F'
  }

  /** The body has the shape of an x402 payload: 20-byte addresses, a 32-byte nonce, a 65-byte signature. */
  predicate WellFormed(b: Body) {
    && HexText(b.auth.from, 40) && HexText(b.auth.to, 40) && HexText(b.recipient, 40)
    && HexText(b.auth.nonce, 64) && HexText(b.signature, 130)
    && b.auth.validBefore >= 1 && |b.network| >= 1 && |b.asset| >= 1
  }

  predicate NetworkKnown(cfg: Config, b: Body) {
    b.network in cfg.networks
  }

  predicate AssetKnown(cfg: Config, b: Body) {
    NetworkKnown(cfg, b) && b.asset in cfg.networks[b.network].assets
  }

  predicate Unexpired(p: Proof) {
    p.at < p.body.auth.validBefore
  }

  /** Paid to the recipient asked for, up to the case of the address, and at least what was asked. */
  predicate PaysWhatWasAsked(b: Body) {
    Lower(b.auth.to) == Lower(b.recipient) && b.requiredAmount <= b.auth.value
  }

  /** When exactly a proof is turned away before the first await, and with which code. */
  predicate TurnedAwayWith(cfg: Config, p: Proof, code: Code) {
    var b := p.body;
    match code
    case InvalidPayload => !WellFormed(b) || (AssetKnown(cfg, b) && Unexpired(p) && !PaysWhatWasAsked(b))
    case UnsupportedNetwork => WellFormed(b) && !NetworkKnown(cfg, b)
    case UnsupportedAsset => WellFormed(b) && NetworkKnown(cfg, b) && !AssetKnown(cfg, b)
    case ExpiredPayment => WellFormed(b) && AssetKnown(cfg, b) && !Unexpired(p)
    case _ => false
  }

  predicate LetIn(cfg: Config, p: Proof) {
    WellFormed(p.body) && AssetKnown(cfg, p.body) && Unexpired(p) && PaysWhatWasAsked(p.body)
  }

  lemma HexFieldIsHexText(s: string, digits: nat)
    ensures HexField(s, digits) <==> HexText(s, digits)
  {
    if |s| == digits + 2 {
      HexDigits(s[2..]);
      assert s[..2] == "0x" <==> s[0] == '0' && s[1] == 'x';
      assert forall i :: 2 <= i < |s| ==> s[i] == s[2..][i - 2];
      assert forall i :: 0 <= i < |s[2..]| ==> s[2..][i] == s[i + 2];
    }
  }

  lemma HexDigits(s: string)
    ensures IsHex(s) <==> forall i :: 0 <= i < |s| ==>
              '0' <= s[i] <= '9' || 'a' <= s[i] <= 'f' || 'A' <= s[i] <= 'F'
  {
  }

  lemma SchemaIsWellFormed(b: Body)
    ensures SchemaOk(b) <==> WellFormed(b)
  {
    HexFieldIsHexText(b.auth.from, 40);
    HexFieldIsHexText(b.auth.to, 40);
    HexFieldIsHexText(b.recipient, 40);
    HexFieldIsHexText(b.auth.nonce, 64);
    HexFieldIsHexText(b.signature, 130);
  }

  lemma ChecksDecide(cfg: Config, p: Proof, wellFormed: bool)
    requires wellFormed == SchemaOk(p.body)
    ensures var b := p.body;
            Precheck(cfg, p) ==
              (if !wellFormed then Some(InvalidPayload)
               else if !NetworkKnown(cfg, b) then Some(Code.UnsupportedNetwork)
               else if !AssetKnown(cfg, b) then Some(Code.UnsupportedAsset)
               else if !Unexpired(p) then Some(ExpiredPayment)
               else if !PaysWhatWasAsked(b) then Some(InvalidPayload)
               else None)
  {
  }

  lemma PrecheckExactly(cfg: Config, p: Proof, code: Code)
    ensures Precheck(cfg, p) == Some(code) <==> TurnedAwayWith(cfg, p, code)
    ensures Precheck(cfg, p) == None <==> LetIn(cfg, p)
  {
    var wellFormed := WellFormed(p.body);
    SchemaIsWellFormed(p.body);
    ChecksDecide(cfg, p, wellFormed);
  }

  lemma BeginNext(cfg: Config, s: State, c: CallerId, p: Proof)
    requires c !in s.callers
    ensures Next(cfg, s, Begin(c, p)) ==
              s.(callers := s.callers[c := match Precheck(cfg, p) case Some(code) => Done(p, Rejected(code, None))
                                                                  case None => ClaimingNonce(p)])
  {
  }

  /** Every code has its condition and every condition its code; a proof that meets none of them goes on to its first
      claim. */
  lemma TurnedAwayExactly(cfg: Config, s: State, c: CallerId, p: Proof, code: Code)
    requires c !in s.callers
    ensures var t := Next(cfg, s, Begin(c, p));
            && c in t.callers
            && (t.callers[c] == Done(p, Rejected(code, None)) <==> TurnedAwayWith(cfg, p, code))
            && (t.callers[c] == ClaimingNonce(p) <==> LetIn(cfg, p))
            && (t.callers[c].ClaimingNonce? || (t.callers[c].Done? && t.callers[c].result.Rejected?))
  {
    BeginNext(cfg, s, c, p);
    PrecheckExactly(cfg, p, code);
  }

  // ---------------------------------------------------------------- a good proof is accepted

  /** The signer recovered from the signature is the payer, up to the case of the address. */
  predicate SignerIsPayer(cfg: Config, b: Body)
    requires AssetKnown(cfg, b)
  {
    var network := cfg.networks[b.network];
    var signer := cfg.recover(network, network.assets[b.asset], b.auth, b.signature);
    signer.Some? && Lower(signer.value) == Lower(b.auth.from)
  }

  /** Neither key is claimed, and no row has the id, the nonce or the signature. */
  predicate Unused(s: State, b: Body, id: RequestId) {
    && NonceKey(Lower(b.auth.nonce)) !in s.keys && SigKey(Lower(b.signature)) !in s.keys
    && id !in s.requests && b.auth.nonce !in s.nonceIndex && Lower(b.signature) !in s.sigIndex
  }

  /** Call `c` holds both keys. */
  function Claimed(s: State, c: CallerId, p: Proof): State {
    s.(keys := s.keys[NonceKey(Lower(p.body.auth.nonce)) := c][SigKey(Lower(p.body.signature)) := c],
       callers := s.callers[c := Recovering(p)])
  }

  /** ... and its record is stored under `id`, its nonce and its signature. */
  function Stored(s: State, c: CallerId, p: Proof, id: RequestId): State {
    var b := p.body;
    Claimed(s, c, p).(
    requests := s.requests[id := PaymentRequest(b.auth.to, b.auth.from, b.network, b.asset, b.auth.value,
                                                b.auth.validBefore * 1_000,
                                                [Verification(b.auth.nonce, Lower(b.signature))])],
    nonceIndex := s.nonceIndex[b.auth.nonce := id],
    sigIndex := s.sigIndex[Lower(b.signature) := id],
    origin := s.origin[id := Origin(p, c)],
    callers := s.callers[c := Done(p, Accepted(id))])
  }

  lemma ClaimsNext(cfg: Config, s: State, c: CallerId, p: Proof, id: RequestId)
    requires Unused(s, p.body, id)
    ensures var t := s.(callers := s.callers[c := ClaimingNonce(p)]);
            Next(cfg, Next(cfg, t, Act(c, Delivered, id)), Act(c, Delivered, id)) == Claimed(s, c, p)
  {
    var t := Next(cfg, s.(callers := s.callers[c := ClaimingNonce(p)]), Act(c, Delivered, id));
    assert s.callers[c := ClaimingNonce(p)][c := ClaimingSig(p)] == s.callers[c := ClaimingSig(p)];
    assert t == s.(keys := s.keys[NonceKey(Lower(p.body.auth.nonce)) := c], callers := s.callers[c := ClaimingSig(p)]);
    assert t.callers[c := Recovering(p)] == s.callers[c := Recovering(p)];
  }

  lemma RecoversNext(cfg: Config, s: State, c: CallerId, p: Proof, id: RequestId)
    requires AssetKnown(cfg, p.body) && SignerIsPayer(cfg, p.body)
    ensures Next(cfg, Claimed(s, c, p), Act(c, Delivered, id)) ==
              Claimed(s, c, p).(callers := s.callers[c := Persisting(p)])
  {
    assert s.callers[c := Recovering(p)][c := Persisting(p)] == s.callers[c := Persisting(p)];
  }

  lemma PersistsNext(cfg: Config, s: State, c: CallerId, p: Proof, id: RequestId)
    requires Unused(s, p.body, id) && p.body.auth.validBefore * 1_000 <= 8_640_000_000_000_000
    ensures Next(cfg, Claimed(s, c, p).(callers := s.callers[c := Persisting(p)]), Act(c, Delivered, id)) ==
              Stored(s, c, p, id)
  {
    assert s.callers[c := Persisting(p)][c := Done(p, Accepted(id))] == s.callers[c := Done(p, Accepted(id))];
  }

  lemma FourAwaits(cfg: Config, s: State, c: CallerId, p: Proof, id: RequestId)
    ensures var step := Act(c, Delivered, id);
            Run(cfg, s, [Begin(c, p)] + [step] + [step] + [step] + [step]) ==
              Next(cfg, Next(cfg, Next(cfg, Next(cfg, Next(cfg, s, Begin(c, p)), step), step), step), step)
  {
    var step := Act(c, Delivered, id);
    var one: seq<Event> := [Begin(c, p)];
    assert [] + one == one;
    RunSnoc(cfg, s, [], Begin(c, p));
    RunSnoc(cfg, s, one, step);
    RunSnoc(cfg, s, one + [step], step);
    RunSnoc(cfg, s, one + [step] + [step], step);
    RunSnoc(cfg, s, one + [step] + [step] + [step], step);
  }

  /** The proof passes every check, its signer is the payer, and a date can hold its expiry. */
  predicate Good(cfg: Config, p: Proof) {
    var b := p.body;
    && WellFormed(b) && AssetKnown(cfg, b) && p.at < b.auth.validBefore
    && Lower(b.auth.to) == Lower(b.recipient) && b.auth.value >= b.requiredAmount
    && SignerIsPayer(cfg, b) && b.auth.validBefore * 1_000 <= 8_640_000_000_000_000
  }

  lemma GoodBegins(cfg: Config, s: State, c: CallerId, p: Proof)
    requires c !in s.callers && Good(cfg, p)
    ensures Next(cfg, s, Begin(c, p)) == s.(callers := s.callers[c := ClaimingNonce(p)])
  {
    PrecheckExactly(cfg, p, InvalidPayload);
  }

  /** In every state: a well-formed, unexpired proof that pays what was asked, at the exact price too, on a configured
      asset, signed by the payer, with an expiry a date can hold, whose keys, nonce, signature and id are unused, is
      accepted when its four awaits are answered; its record is stored and its two keys stay claimed. */
  lemma GoodProofIsAccepted(cfg: Config, s: State, c: CallerId, p: Proof, id: RequestId)
    requires c !in s.callers && Unused(s, p.body, id) && Good(cfg, p)
    ensures var step := Act(c, Delivered, id);
            Run(cfg, s, [Begin(c, p)] + [step] + [step] + [step] + [step]) == Stored(s, c, p, id)
  {
    FourAwaits(cfg, s, c, p, id);
    GoodBegins(cfg, s, c, p);
    ClaimsNext(cfg, s, c, p, id);
    RecoversNext(cfg, s, c, p, id);
    PersistsNext(cfg, s, c, p, id);
  }

  // ---------------------------------------------------------------- an answer is what the call was told

  /** What an event may tell a call that decides its answer. */
  datatype Heard =
    | Nothing
    | TurnedAway
    | KeyTaken
    | NotThePayer
    | NotStored
    | OwnRow(id: RequestId)
    | CutShort

  /** What step `e` from `s` to `t` tells call `c`: its own row is known by the id that was not there before. */
  function HeardIn(cfg: Config, s: State, t: State, e: Event, c: CallerId): Heard {
    match e
    case Begin(d, p) => if d == c && c !in s.callers && !LetIn(cfg, p) then TurnedAway else Nothing
    case Crash(d) => if d == c && c in s.callers && !s.callers[c].Done? then CutShort else Nothing
    case KeyExpires(_) => Nothing
    case Act(d, reply, id) =>
      if d != c || c !in s.callers then Nothing
      else
        var b := s.callers[c].p.body;
        match s.callers[c]
        case ClaimingNonce(_) =>
          if !reply.Delivered? then CutShort
          else if NonceKey(Lower(b.auth.nonce)) in s.keys then KeyTaken else Nothing
        case ClaimingSig(_) =>
          if !reply.Delivered? then CutShort
          else if SigKey(Lower(b.signature)) in s.keys then KeyTaken else Nothing
        case Recovering(_) =>
          if reply.Delivered? && AssetKnown(cfg, b) && SignerIsPayer(cfg, b) then Nothing else NotThePayer
        case Persisting(_) =>
          if reply.Delivered? && id !in s.requests && id in t.requests then OwnRow(id) else NotStored
        case Done(_, _) => Nothing
        case _ => if reply.Delivered? then Nothing else CutShort
  }

  /** The last thing the run told call `c`. */
  ghost function Told(cfg: Config, s: State, es: seq<Event>, c: CallerId): Heard {
    if es == [] then Nothing
    else
      var init, e := es[..|es| - 1], es[|es| - 1];
      var u := Run(cfg, s, init);
      var h := HeardIn(cfg, u, Next(cfg, u, e), e, c);
      if h.Nothing? then Told(cfg, s, init, c) else h
  }

  ghost predicate AnswersTo(cfg: Config, p: Proof, o: Result, heard: Heard) {
    match heard
    case Nothing => false
    case TurnedAway => o.Rejected? && o.committed.None? && TurnedAwayWith(cfg, p, o.code)
    case KeyTaken => o == Rejected(DuplicatePayment, None)
    case NotThePayer => o == Rejected(InvalidSignature, None)
    case NotStored => o.Rejected? && o.code == InternalError
    case OwnRow(id) => o == Accepted(id)
    case CutShort => o.Aborted?
  }

  ghost predicate Fits(cfg: Config, pc: Pc, heard: Heard) {
    match pc
    case ReleasingNonce(_) => heard.KeyTaken?
    case RollingNonce(_, code, committed) => Rolls(code, committed, heard)
    case RollingSig(_, code, committed) => Rolls(code, committed, heard)
    case Done(p, o) => AnswersTo(cfg, p, o, heard)
    case _ => heard.Nothing?
  }

  predicate Rolls(code: Code, committed: Option<RequestId>, heard: Heard) {
    (code == InvalidSignature && committed.None? && heard.NotThePayer?) || (code == InternalError && heard.NotStored?)
  }

  ghost predicate Fated(cfg: Config, s: State, c: CallerId, heard: Heard) {
    if c in s.callers then Fits(cfg, s.callers[c], heard) else heard.Nothing?
  }

  lemma SignedIsSigner(cfg: Config, b: Body)
    ensures SignedByPayer(cfg, b) <==> AssetKnown(cfg, b) && SignerIsPayer(cfg, b)
  {
  }

  lemma StoresOwnRow(cfg: Config, s: State, c: CallerId, reply: Reply, id: RequestId)
    requires c in s.callers && s.callers[c].Persisting?
    ensures id !in s.requests && id in ActStep(cfg, s, c, reply, id).requests <==>
              !reply.Dropped? && CanPersist(s, s.callers[c].p.body, id)
  {
  }

  lemma OwnFate(cfg: Config, s: State, c: CallerId, reply: Reply, id: RequestId, heard: Heard)
    requires c in s.callers && Fits(cfg, s.callers[c], heard)
    ensures var t := ActStep(cfg, s, c, reply, id);
            var h := HeardIn(cfg, s, t, Act(c, reply, id), c);
            Fits(cfg, t.callers[c], if h.Nothing? then heard else h)
  {
    SignedIsSigner(cfg, s.callers[c].p.body);
    if s.callers[c].Persisting? { StoresOwnRow(cfg, s, c, reply, id); }
  }

  lemma FateStep(cfg: Config, s: State, e: Event, c: CallerId, heard: Heard)
    requires Fated(cfg, s, c, heard)
    ensures var t := Next(cfg, s, e); var h := HeardIn(cfg, s, t, e, c);
            Fated(cfg, t, c, if h.Nothing? then heard else h)
  {
    if e.Act? && e.c == c && c in s.callers {
      OwnFate(cfg, s, c, e.reply, e.id, heard);
    } else if e.Begin? && e.c == c && c !in s.callers {
      BeginFate(cfg, s, c, e.p);
    } else {
      OthersFate(cfg, s, e, c, heard);
    }
  }

  lemma OthersFate(cfg: Config, s: State, e: Event, c: CallerId, heard: Heard)
    requires Fated(cfg, s, c, heard) && !(e.Act? && e.c == c && c in s.callers)
    requires !(e.Begin? && e.c == c && c !in s.callers)
    ensures var t := Next(cfg, s, e); var h := HeardIn(cfg, s, t, e, c);
            Fated(cfg, t, c, if h.Nothing? then heard else h)
  {
    if c in Next(cfg, s, e).callers { NextCaller(cfg, s, e, c); }
  }

  lemma BeginFate(cfg: Config, s: State, c: CallerId, p: Proof)
    requires c !in s.callers
    ensures var t := Next(cfg, s, Begin(c, p)); Fated(cfg, t, c, HeardIn(cfg, s, t, Begin(c, p), c))
  {
    BeginNext(cfg, s, c, p);
    var found := Precheck(cfg, p);
    PrecheckExactly(cfg, p, if found.Some? then found.value else InvalidPayload);
  }

  lemma {:induction false} FateRun(cfg: Config, s: State, es: seq<Event>, c: CallerId)
    requires c !in s.callers
    ensures Fated(cfg, Run(cfg, s, es), c, Told(cfg, s, es, c))
  {
    if es != [] {
      var init, e := es[..|es| - 1], es[|es| - 1];
      FateRun(cfg, s, init, c);
      FateStep(cfg, Run(cfg, s, init), e, c, Told(cfg, s, init, c));
    }
  }

  /** Over all runs, a finished call's result is the one that belongs to the last thing it was told: accepted if and
      only if an answered await of its own stored its row, duplicate_payment for a claimed key, invalid_signature for
      another signer, internal_error for a row that was not stored, a throw or crash cuts it short. */
  lemma AnswersExactly(cfg: Config, s: State, es: seq<Event>, c: CallerId)
    requires c !in s.callers
    requires var t := Run(cfg, s, es); c in t.callers && t.callers[c].Done?
    ensures var pc := Run(cfg, s, es).callers[c]; AnswersTo(cfg, pc.p, pc.result, Told(cfg, s, es, c))
  {
    FateRun(cfg, s, es, c);
  }
}
