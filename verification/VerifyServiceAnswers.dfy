/** What runVerify stores and answers: its tables in every reachable state, which bodies it turns away at once, what a
    call is told in every run, and that a good body is accepted. The conditions are written out on the body. */
module VerifyServiceAnswers {
  import opened Prelude
  import opened Hex
  import opened Registry
  import opened VerifyService
  import opened VerifyServiceTheorems

  // ---------------------------------------------------------------- the tables

  /** The unique indexes hold exactly the values of the rows. */
  ghost predicate IndexesOk(s: State) {
    && (forall n :: n in s.nonceIndex ==> s.nonceIndex[n] < |s.rows| && s.rows[s.nonceIndex[n]].nonce == n)
    && (forall g :: g in s.sigIndex ==> s.sigIndex[g] < |s.rows| && s.rows[s.sigIndex[g]].sig == g)
  }

  /** The payment request of every row, accepted or rejected, is stored; and of every call about to write one. */
  ghost predicate RequestsOk(s: State) {
    && (forall i :: 0 <= i < |s.rows| ==> s.rows[i].request in s.requests)
    && (forall c :: c in s.callers && s.callers[c].Recording? ==> s.callers[c].q.request in s.requests)
  }

  /** Every row is what its call writes. */
  ghost predicate RowsOwned(s: State) {
    forall i :: 0 <= i < |s.rows| ==>
      s.rows[i].caller in s.callers && WrittenFor(s.rows[i], s.callers[s.rows[i].caller].q)
  }

  predicate WrittenFor(row: Row, q: Call) {
    row.request == q.request && row.nonce == q.body.auth.nonce && row.sig == q.sig
  }

  /** A call that answered invalid_signature has recorded its rejection. */
  ghost predicate RejectionRecorded(s: State, c: CallerId, pc: Pc) {
    pc.Done? && pc.result.Rejected? && pc.result.code == InvalidSignature ==>
      exists i :: 0 <= i < |s.rows| && s.rows[i] == Row(false, pc.q.request, pc.q.body.auth.nonce, pc.q.sig, c)
  }

  ghost predicate RejectionsRecorded(s: State) {
    forall c :: c in s.callers ==> RejectionRecorded(s, c, s.callers[c])
  }

  ghost predicate StoresOk(s: State) {
    IndexesOk(s) && RequestsOk(s) && RowsOwned(s) && RejectionsRecorded(s)
  }

  lemma NextRequests(cfg: Config, s: State, e: Event)
    ensures Next(cfg, s, e).requests ==
              s.requests + if e.Act? && e.c in s.callers && s.callers[e.c].Upserting? && !e.reply.Dropped?
                           then {s.callers[e.c].q.request} else {}
  {
  }

  lemma InsertIndexes(s: State, c: CallerId, q: Call, accepted: bool)
    requires IndexesOk(s) && Replay(s, q).None?
    ensures IndexesOk(Insert(s, c, q, accepted))
  {
  }

  lemma NextIndexes(cfg: Config, s: State, e: Event)
    requires IndexesOk(s)
    ensures IndexesOk(Next(cfg, s, e))
  {
    NextTables(cfg, s, e);
    var t := Next(cfg, s, e);
    if !(t.rows == s.rows && t.nonceIndex == s.nonceIndex && t.sigIndex == s.sigIndex) {
      var pc := s.callers[e.c];
      InsertIndexes(s, e.c, pc.q, pc.accepted);
      assert IndexesOk(Insert(s, e.c, pc.q, pc.accepted));
    }
  }

  /** Rows are appended by recording calls, one at a time, and each row is the recording call's. */
  lemma NextRows(cfg: Config, s: State, e: Event)
    ensures var t := Next(cfg, s, e);
            || t.rows == s.rows
            || (e.Act? && e.c in s.callers && s.callers[e.c].Recording?
                && var pc := s.callers[e.c];
                   t.rows == s.rows + [Row(pc.accepted, pc.q.request, pc.q.body.auth.nonce, pc.q.sig, e.c)])
  {
    NextTables(cfg, s, e);
  }

  lemma MovedRecording(cfg: Config, s: State, pc: Pc, e: Event)
    requires !pc.Recording? && Moved(cfg, s, pc, e).Recording?
    ensures pc.Upserting? && e.Act? && e.reply.Delivered?
  {
  }

  lemma RequestsStep(cfg: Config, s: State, e: Event)
    requires RequestsOk(s)
    ensures RequestsOk(Next(cfg, s, e))
  {
    var t := Next(cfg, s, e);
    NextRequests(cfg, s, e);
    NextRows(cfg, s, e);
    NextMoves(cfg, s, e);
    forall c | c in t.callers && t.callers[c].Recording? ensures t.callers[c].q.request in t.requests {
      if c in s.callers && !s.callers[c].Recording? {
        MovedRecording(cfg, s, s.callers[c], e);
        MovedQ(cfg, s, s.callers[c], e);
      } else if c in s.callers && !e.KeyExpires? && e.c == c {
        MovedQ(cfg, s, s.callers[c], e);
      }
    }
  }

  lemma SameCall(cfg: Config, s: State, e: Event, c: CallerId)
    requires c in s.callers
    ensures c in Next(cfg, s, e).callers && Next(cfg, s, e).callers[c].q == s.callers[c].q
  {
    NextMoves(cfg, s, e);
    MovedQ(cfg, s, s.callers[c], e);
  }

  lemma RowsOwnedStep(cfg: Config, s: State, e: Event)
    requires RowsOwned(s)
    ensures RowsOwned(Next(cfg, s, e))
  {
    var t := Next(cfg, s, e);
    NextRows(cfg, s, e);
    forall i | 0 <= i < |t.rows|
      ensures t.rows[i].caller in t.callers && WrittenFor(t.rows[i], t.callers[t.rows[i].caller].q)
    {
      SameCall(cfg, s, e, t.rows[i].caller);
    }
  }

  /** The answer invalid_signature is given in the step that records the rejection. */
  lemma MovedInvalid(cfg: Config, s: State, pc: Pc, e: Event)
    requires var pc' := Moved(cfg, s, pc, e);
             pc'.Done? && pc'.result.Rejected? && pc'.result.code == InvalidSignature
    requires pc.Releasing? ==> pc.after != Answer(InvalidSignature)
    ensures Moved(cfg, s, pc, e) == pc
            || (pc.Recording? && !pc.accepted && e.Act? && e.reply.Delivered? && Replay(s, pc.q).None?)
  {
  }

  /** Nobody releases its keys in order to answer invalid_signature: the rejection is recorded first. */
  ghost predicate RecordsFirst(s: State) {
    forall c :: c in s.callers && s.callers[c].Releasing? ==> s.callers[c].after != Answer(InvalidSignature)
  }

  lemma RecordsFirstStep(cfg: Config, s: State, e: Event)
    requires RecordsFirst(s)
    ensures RecordsFirst(Next(cfg, s, e))
  {
    NextMoves(cfg, s, e);
    var t := Next(cfg, s, e);
    forall c | c in t.callers && t.callers[c].Releasing? ensures t.callers[c].after != Answer(InvalidSignature) {
      if c in s.callers && !e.KeyExpires? && e.c == c { MovedReleasing(cfg, s, s.callers[c], e); }
    }
  }

  lemma MovedReleasing(cfg: Config, s: State, pc: Pc, e: Event)
    requires pc.Releasing? ==> pc.after != Answer(InvalidSignature)
    ensures var pc' := Moved(cfg, s, pc, e); pc'.Releasing? ==> pc'.after != Answer(InvalidSignature)
  {
  }

  lemma RecordedNow(cfg: Config, s: State, e: Event)
    requires e.Act? && e.c in s.callers && s.callers[e.c].Recording? && !s.callers[e.c].accepted
    requires e.reply.Delivered? && Replay(s, s.callers[e.c].q).None?
    ensures var t := Next(cfg, s, e); var q := s.callers[e.c].q;
            |t.rows| == |s.rows| + 1 && t.rows[|s.rows|] == Row(false, q.request, q.body.auth.nonce, q.sig, e.c)
  {
  }

  lemma StartNotInvalid(cfg: Config, request: RequestId, body: Option<Body>, now: nat)
    ensures var pc := Start(cfg, request, body, now);
            pc.Done? ==> pc.result.Rejected? && pc.result.code != InvalidSignature
  {
  }

  lemma OneRecorded(cfg: Config, s: State, e: Event, c: CallerId)
    requires RecordsFirst(s) && RejectionsRecorded(s) && c in Next(cfg, s, e).callers
    ensures RejectionRecorded(Next(cfg, s, e), c, Next(cfg, s, e).callers[c])
  {
    var t := Next(cfg, s, e);
    var pc' := t.callers[c];
    NextMoves(cfg, s, e);
    NextRows(cfg, s, e);
    if pc'.Done? && pc'.result.Rejected? && pc'.result.code == InvalidSignature {
      if c !in s.callers {
        StartNotInvalid(cfg, e.request, e.body, e.now);
      } else if t.callers[c] == s.callers[c] {
        assert RejectionRecorded(s, c, s.callers[c]);
        var i :| 0 <= i < |s.rows| && s.rows[i] == Row(false, pc'.q.request, pc'.q.body.auth.nonce, pc'.q.sig, c);
        assert t.rows[i] == s.rows[i];
      } else {
        MovedInvalid(cfg, s, s.callers[c], e);
        RecordedNow(cfg, s, e);
        SameCall(cfg, s, e, c);
      }
    }
  }

  lemma StoresStep(cfg: Config, s: State, e: Event)
    requires StoresOk(s) && RecordsFirst(s)
    ensures StoresOk(Next(cfg, s, e)) && RecordsFirst(Next(cfg, s, e)) && s.requests <= Next(cfg, s, e).requests
  {
    NextIndexes(cfg, s, e);
    NextRequests(cfg, s, e);
    RequestsStep(cfg, s, e);
    RowsOwnedStep(cfg, s, e);
    RecordsFirstStep(cfg, s, e);
    forall c | c in Next(cfg, s, e).callers
      ensures RejectionRecorded(Next(cfg, s, e), c, Next(cfg, s, e).callers[c]) { OneRecorded(cfg, s, e, c); }
  }

  /** In every run: the payment request of every verification row is stored and stays, every row is its own call's, the
      indexes are exact, and every answer invalid_signature has its rejected row. */
  lemma {:induction false} RunStores(cfg: Config, s: State, es: seq<Event>)
    requires StoresOk(s) && RecordsFirst(s)
    ensures StoresOk(Run(cfg, s, es)) && RecordsFirst(Run(cfg, s, es)) && s.requests <= Run(cfg, s, es).requests
  {
    if es != [] {
      RunStores(cfg, s, es[..|es| - 1]);
      StoresStep(cfg, Run(cfg, s, es[..|es| - 1]), es[|es| - 1]);
    }
  }

  // ---------------------------------------------------------------- the checks, written out

  predicate NetworkKnown(cfg: Config, b: Body) {
    b.network in cfg.networks
  }

  /** The asset is configured under its upper-case symbol. */
  predicate AssetKnown(cfg: Config, b: Body) {
    NetworkKnown(cfg, b) && Upper(b.asset) in cfg.networks[b.network].assets
  }

  predicate Unexpired(b: Body, now: nat) {
    now < b.auth.validBefore
  }

  /** Valid already, paid to the recipient asked for up to case, and at least what was asked. */
  predicate PaysWhatWasAsked(b: Body, now: nat) {
    b.auth.validAfter <= now && Lower(b.auth.to) == Lower(b.recipient) && b.requiredAmount <= b.auth.value
  }

  /** When exactly a body is turned away before the first await, and with which code. */
  predicate TurnedAwayWith(cfg: Config, body: Option<Body>, now: nat, code: Code) {
    match code
    case InvalidPayload =>
      body.None? || (AssetKnown(cfg, body.value) && Unexpired(body.value, now) && !PaysWhatWasAsked(body.value, now))
    case UnsupportedNetwork => body.Some? && !NetworkKnown(cfg, body.value)
    case UnsupportedAsset => body.Some? && NetworkKnown(cfg, body.value) && !AssetKnown(cfg, body.value)
    case ExpiredPayment => body.Some? && AssetKnown(cfg, body.value) && !Unexpired(body.value, now)
    case _ => false
  }

  predicate LetIn(cfg: Config, body: Option<Body>, now: nat) {
    && body.Some? && AssetKnown(cfg, body.value)
    && Unexpired(body.value, now) && PaysWhatWasAsked(body.value, now)
  }

  lemma PrecheckExactly(cfg: Config, body: Option<Body>, now: nat, code: Code)
    ensures Precheck(cfg, body, now) == Some(code) <==> TurnedAwayWith(cfg, body, now, code)
    ensures Precheck(cfg, body, now) == None <==> LetIn(cfg, body, now)
  {
  }

  lemma BeginNext(cfg: Config, s: State, c: CallerId, request: RequestId, body: Option<Body>, now: nat)
    requires c !in s.callers
    ensures var t := Next(cfg, s, Begin(c, request, body, now));
            && t == s.(callers := t.callers) && c in t.callers
            && match Precheck(cfg, body, now)
               case Some(code) => t.callers[c].Done? && t.callers[c].result == Rejected(code, {})
               case None =>
                 var q := Call(request, body.value, cfg.hash(body.value.signature), now);
                 t.callers == s.callers[c := Claiming(q, None, None)]
  {
  }

  /** Every code has its condition and every condition its code; a body that meets none of them goes on to its claim. */
  lemma TurnedAwayExactly(cfg: Config, s: State, c: CallerId, request: RequestId, body: Option<Body>, now: nat,
                          code: Code)
    requires c !in s.callers
    ensures var t := Next(cfg, s, Begin(c, request, body, now));
            && c in t.callers
            && (t.callers[c].Done? && t.callers[c].result == Rejected(code, {}) <==>
                  TurnedAwayWith(cfg, body, now, code))
            && (t.callers[c].Claiming? <==> LetIn(cfg, body, now))
            && (t.callers[c].Claiming? || (t.callers[c].Done? && t.callers[c].result.Rejected?))
  {
    BeginNext(cfg, s, c, request, body, now);
    PrecheckExactly(cfg, body, now, code);
  }

  // ---------------------------------------------------------------- a good body is accepted

  predicate Good(cfg: Config, b: Body, now: nat) {
    && AssetKnown(cfg, b) && b.auth.validAfter <= now < b.auth.validBefore
    && Lower(b.auth.to) == Lower(b.recipient) && b.auth.value >= b.requiredAmount && cfg.valid(b)
  }

  /** Neither key is claimed, and no row has the nonce or the signature hash. */
  predicate Unused(cfg: Config, s: State, b: Body) {
    && NonceKey(b.auth.nonce) !in s.keys && SigKey(cfg.hash(b.signature)) !in s.keys
    && b.auth.nonce !in s.nonceIndex && cfg.hash(b.signature) !in s.sigIndex
  }

  /** Call `c` holds both keys and goes on at `pc`. */
  function Holding(cfg: Config, s: State, c: CallerId, b: Body, pc: Pc): State {
    s.(keys := s.keys[NonceKey(b.auth.nonce) := c][SigKey(cfg.hash(b.signature)) := c], callers := s.callers[c := pc])
  }

  function Stored(cfg: Config, s: State, c: CallerId, q: Call): State {
    Holding(cfg, s, c, q.body, Done(q, Accepted(|s.rows|))).(
    requests := s.requests + {q.request},
    rows := s.rows + [Row(true, q.request, q.body.auth.nonce, cfg.hash(q.body.signature), c)],
    nonceIndex := s.nonceIndex[q.body.auth.nonce := |s.rows|],
    sigIndex := s.sigIndex[cfg.hash(q.body.signature) := |s.rows|])
  }

  lemma GoodBegins(cfg: Config, s: State, c: CallerId, q: Call)
    requires c !in s.callers && Good(cfg, q.body, q.at) && q.sig == cfg.hash(q.body.signature)
    ensures Next(cfg, s, Begin(c, q.request, Some(q.body), q.at)) ==
              s.(callers := s.callers[c := Claiming(q, None, None)])
  {
    PrecheckExactly(cfg, Some(q.body), q.at, InvalidPayload);
    BeginNext(cfg, s, c, q.request, Some(q.body), q.at);
  }

  lemma ClaimsBoth(cfg: Config, s: State, c: CallerId, q: Call)
    requires Unused(cfg, s, q.body) && q.sig == cfg.hash(q.body.signature)
    ensures var t := s.(callers := s.callers[c := Claiming(q, None, None)]);
            Next(cfg, Next(cfg, t, NonceCommand(c, Delivered)), SigCommand(c, Delivered)) ==
              Holding(cfg, s, c, q.body, Checking(q))
  {
    var t := s.(callers := s.callers[c := Claiming(q, None, None)]);
    NonceFirst(cfg, t, c, q);
    assert t.callers[c := Checking(q)] == s.callers[c := Checking(q)];
  }

  lemma ChecksNext(cfg: Config, s: State, c: CallerId, q: Call)
    requires Unused(cfg, s, q.body) && q.sig == cfg.hash(q.body.signature)
    ensures Next(cfg, Holding(cfg, s, c, q.body, Checking(q)), Act(c, Delivered, false)) ==
              Holding(cfg, s, c, q.body, Verifying(q))
  {
    assert s.callers[c := Checking(q)][c := Verifying(q)] == s.callers[c := Verifying(q)];
  }

  lemma VerifiesNext(cfg: Config, s: State, c: CallerId, q: Call)
    requires cfg.valid(q.body)
    ensures Next(cfg, Holding(cfg, s, c, q.body, Verifying(q)), Act(c, Delivered, false)) ==
              Holding(cfg, s, c, q.body, Upserting(q, true))
  {
    assert s.callers[c := Verifying(q)][c := Upserting(q, true)] == s.callers[c := Upserting(q, true)];
  }

  lemma UpsertsNext(cfg: Config, s: State, c: CallerId, q: Call)
    ensures Next(cfg, Holding(cfg, s, c, q.body, Upserting(q, true)), Act(c, Delivered, false)) ==
              Holding(cfg, s, c, q.body, Recording(q, true)).(requests := s.requests + {q.request})
  {
    assert s.callers[c := Upserting(q, true)][c := Recording(q, true)] == s.callers[c := Recording(q, true)];
  }

  lemma RecordsNext(cfg: Config, s: State, c: CallerId, q: Call)
    requires Unused(cfg, s, q.body) && q.sig == cfg.hash(q.body.signature)
    ensures Next(cfg, Holding(cfg, s, c, q.body, Recording(q, true)).(requests := s.requests + {q.request}),
                 Act(c, Delivered, false)) == Stored(cfg, s, c, q)
  {
    var t := Holding(cfg, s, c, q.body, Recording(q, true));
    assert t.callers[c := Done(q, Accepted(|s.rows|))] == s.callers[c := Done(q, Accepted(|s.rows|))];
  }

  /** The call's seven events, each answered. */
  function Unhindered(c: CallerId, q: Call): seq<Event> {
    var step := Act(c, Delivered, false);
    [Begin(c, q.request, Some(q.body), q.at)] + [NonceCommand(c, Delivered)] + [SigCommand(c, Delivered)]
    + [step] + [step] + [step] + [step]
  }

  lemma SevenEvents(cfg: Config, s: State, c: CallerId, q: Call)
    ensures var step := Act(c, Delivered, false);
            Run(cfg, s, Unhindered(c, q)) ==
              Next(cfg, Next(cfg, Next(cfg, Next(cfg, Next(cfg, Next(cfg,
                   Next(cfg, s, Begin(c, q.request, Some(q.body), q.at)),
                   NonceCommand(c, Delivered)), SigCommand(c, Delivered)), step), step), step), step)
  {
    var step := Act(c, Delivered, false);
    var one: seq<Event> := [Begin(c, q.request, Some(q.body), q.at)];
    var two := one + [NonceCommand(c, Delivered)];
    var three := two + [SigCommand(c, Delivered)];
    assert [] + one == one;
    RunSnoc(cfg, s, [], Begin(c, q.request, Some(q.body), q.at));
    RunSnoc(cfg, s, one, NonceCommand(c, Delivered));
    RunSnoc(cfg, s, two, SigCommand(c, Delivered));
    RunSnoc(cfg, s, three, step);
    RunSnoc(cfg, s, three + [step], step);
    RunSnoc(cfg, s, three + [step] + [step], step);
    RunSnoc(cfg, s, three + [step] + [step] + [step], step);
  }

  /** In every state: a body on a configured asset, inside its validity window, paid to the recipient asked for, of at
      least the amount asked for, the exact amount too, with a valid signature, whose keys, nonce and signature hash are
      unused, is accepted when every await is answered: request and accepted row are stored, and both keys stay. */
  lemma GoodBodyIsAccepted(cfg: Config, s: State, c: CallerId, q: Call)
    requires c !in s.callers && q.sig == cfg.hash(q.body.signature)
    requires Good(cfg, q.body, q.at) && Unused(cfg, s, q.body)
    ensures Run(cfg, s, Unhindered(c, q)) == Stored(cfg, s, c, q)
  {
    SevenEvents(cfg, s, c, q);
    GoodBegins(cfg, s, c, q);
    ClaimsBoth(cfg, s, c, q);
    ChecksNext(cfg, s, c, q);
    VerifiesNext(cfg, s, c, q);
    UpsertsNext(cfg, s, c, q);
    RecordsNext(cfg, s, c, q);
  }

  // ---------------------------------------------------------------- an answer is what the call was told

  /** What an event may tell a call that decides its answer. */
  datatype Heard =
    | Nothing
    | TurnedAway(body: Option<Body>, now: nat)
    | NonceTaken
    | SignatureTaken
    | FoundRow(row: Row)
    | BadSignature
    | NotStored
    | OwnRow(i: nat)
    | AwaitFailed
    | CutShort

  /** The pair of SETs has been answered. */
  function PairHeard(answered: bool, nonceTaken: bool, sigTaken: bool): Heard {
    if !answered then AwaitFailed else if nonceTaken then NonceTaken else if sigTaken then SignatureTaken else Nothing
  }

  /** The row the durable check is shown: one with the nonce or the signature hash, if there is one. */
  function Shown(s: State, q: Call, sigRow: bool): Option<nat> {
    if sigRow && q.sig in s.sigIndex then Some(s.sigIndex[q.sig])
    else if q.body.auth.nonce in s.nonceIndex then Some(s.nonceIndex[q.body.auth.nonce])
    else if q.sig in s.sigIndex then Some(s.sigIndex[q.sig])
    else None
  }

  /** What the await of call `c` tells it; its own row is known by the table's having grown. */
  function ActHeard(cfg: Config, s: State, t: State, pc: Pc, reply: Reply, sigRow: bool): Heard {
    match pc
    case UndoingNonce(_) => if reply.Delivered? then Nothing else AwaitFailed
    case Checking(q) =>
      if !reply.Delivered? then AwaitFailed
      else
        var i := Shown(s, q, sigRow);
        if i.Some? && i.value < |s.rows| then FoundRow(s.rows[i.value]) else Nothing
    case Verifying(q) => if !reply.Delivered? then AwaitFailed else if cfg.valid(q.body) then Nothing else BadSignature
    case Upserting(_, accepted) => if reply.Delivered? then Nothing else if accepted then NotStored else AwaitFailed
    case Recording(_, accepted) =>
      if reply.Delivered? && |t.rows| > |s.rows| then if accepted then OwnRow(|s.rows|) else Nothing
      else if accepted then NotStored else AwaitFailed
    case _ => Nothing
  }

  function HeardIn(cfg: Config, s: State, t: State, e: Event, c: CallerId): Heard {
    match e
    case Begin(d, _, body, now) =>
      if d == c && c !in s.callers && !LetIn(cfg, body, now) then TurnedAway(body, now) else Nothing
    case Crash(d) => if d == c && c in s.callers && !s.callers[c].Done? then CutShort else Nothing
    case KeyExpires(_) => Nothing
    case NonceCommand(d, reply) =>
      if d != c || c !in s.callers then Nothing
      else
        (match s.callers[c]
         case Claiming(q, None, Some(sig)) =>
           PairHeard(reply.Delivered? && !sig.Failed?, NonceKey(q.body.auth.nonce) in s.keys, sig.Lost?)
         case Releasing(_, _, None, Some(sig)) => if reply.Delivered? && sig.Deleted? then Nothing else AwaitFailed
         case _ => Nothing)
    case SigCommand(d, reply) =>
      if d != c || c !in s.callers then Nothing
      else
        (match s.callers[c]
         case Claiming(q, Some(nonce), None) =>
           PairHeard(reply.Delivered? && !nonce.Failed?, nonce.Lost?, SigKey(q.sig) in s.keys)
         case Releasing(_, _, Some(nonce), None) => if reply.Delivered? && nonce.Deleted? then Nothing else AwaitFailed
         case _ => Nothing)
    case Act(d, reply, sigRow) =>
      if d != c || c !in s.callers then Nothing else ActHeard(cfg, s, t, s.callers[c], reply, sigRow)
  }

  /** The last thing the run told call `c`. */
  ghost function Told(cfg: Config, s: State, es: seq<Event>, c: CallerId): Heard {
    if es == [] then Nothing
    else
      var init, e := es[..|es| - 1], es[|es| - 1];
      var u := Run(cfg, s, init);
      var h := HeardIn(cfg, u, Next(cfg, u, e), e, c);
      if h.Nothing? then Told(cfg, s, init, c) else h
  }

  ghost predicate AnswersTo(cfg: Config, q: Call, o: Result, heard: Heard) {
    match heard
    case Nothing => false
    case TurnedAway(body, now) => o.Rejected? && TurnedAwayWith(cfg, body, now, o.code)
    case NonceTaken => o.Rejected? && o.code == NonceUsed
    case SignatureTaken => o.Rejected? && o.code == SignatureUsed
    case FoundRow(row) => o.Rejected? && o.code == if row.nonce == q.body.auth.nonce then NonceUsed else SignatureUsed
    case BadSignature => o.Rejected? && o.code == InvalidSignature
    case NotStored => o.Rejected? && o.code == InternalError
    case OwnRow(i) => o == Accepted(i)
    case AwaitFailed => o.Aborted?
    case CutShort => o.Crashed?
  }

  ghost predicate Fits(cfg: Config, pc: Pc, heard: Heard) {
    match pc
    case Claiming(_, _, _) => heard.Nothing?
    case UndoingNonce(_) => heard.SignatureTaken?
    case Upserting(_, accepted) => if accepted then heard.Nothing? else heard.BadSignature?
    case Recording(_, accepted) => if accepted then heard.Nothing? else heard.BadSignature?
    case Releasing(_, RecordRejection, _, _) => heard.BadSignature?
    case Releasing(q, Answer(code), _, _) =>
      && (heard.FoundRow? || heard.NotStored?)
      && AnswersTo(cfg, q, Rejected(code, {}), heard)
    case Done(q, o) => AnswersTo(cfg, q, o, heard)
    case _ => heard.Nothing?
  }

  ghost predicate Fated(cfg: Config, s: State, c: CallerId, heard: Heard) {
    if c in s.callers then Unsettled(s.callers[c]) && Fits(cfg, s.callers[c], heard) else heard.Nothing?
  }

  lemma ClaimsNonce(cfg: Config, s: State, c: CallerId, reply: Reply, heard: Heard)
    requires c in s.callers && Fated(cfg, s, c, heard) && s.callers[c].Claiming?
    ensures var e := NonceCommand(c, reply); var t := Next(cfg, s, e); var h := HeardIn(cfg, s, t, e, c);
            Fated(cfg, t, c, if h.Nothing? then heard else h)
  {
  }

  lemma ReleasesNonce(cfg: Config, s: State, c: CallerId, reply: Reply, heard: Heard)
    requires c in s.callers && Fated(cfg, s, c, heard) && !s.callers[c].Claiming?
    ensures var e := NonceCommand(c, reply); var t := Next(cfg, s, e); var h := HeardIn(cfg, s, t, e, c);
            Fated(cfg, t, c, if h.Nothing? then heard else h)
  {
  }

  lemma ClaimsSig(cfg: Config, s: State, c: CallerId, reply: Reply, heard: Heard)
    requires c in s.callers && Fated(cfg, s, c, heard) && s.callers[c].Claiming?
    ensures var e := SigCommand(c, reply); var t := Next(cfg, s, e); var h := HeardIn(cfg, s, t, e, c);
            Fated(cfg, t, c, if h.Nothing? then heard else h)
  {
  }

  lemma ReleasesSig(cfg: Config, s: State, c: CallerId, reply: Reply, heard: Heard)
    requires c in s.callers && Fated(cfg, s, c, heard) && !s.callers[c].Claiming?
    ensures var e := SigCommand(c, reply); var t := Next(cfg, s, e); var h := HeardIn(cfg, s, t, e, c);
            Fated(cfg, t, c, if h.Nothing? then heard else h)
  {
  }

  /** The durable check answers with the reason of the row it is shown. */
  lemma ReplayIsShown(s: State, q: Call, sigRow: bool)
    requires TablesOk(s) && IndexesOk(s)
    ensures ReplayAnswer(s, q, sigRow) ==
              match Shown(s, q, sigRow)
              case None => None
              case Some(i) => Some(if i < |s.rows| && s.rows[i].nonce == q.body.auth.nonce then NonceUsed
                                   else SignatureUsed)
    ensures Shown(s, q, sigRow).Some? ==> Shown(s, q, sigRow).value < |s.rows|
  {
    var i := Shown(s, q, sigRow);
    if i.Some? { assert RowOk(s, i.value); }
  }

  lemma RowsGrow(cfg: Config, s: State, c: CallerId, reply: Reply, sigRow: bool)
    requires c in s.callers && s.callers[c].Recording?
    ensures |ActStep(cfg, s, c, reply, sigRow).rows| > |s.rows| <==>
              !reply.Dropped? && Replay(s, s.callers[c].q).None?
  {
  }

  lemma ChecksFate(cfg: Config, s: State, c: CallerId, reply: Reply, sigRow: bool, heard: Heard)
    requires TablesOk(s) && IndexesOk(s) && c in s.callers && Fated(cfg, s, c, heard)
    requires !s.callers[c].Upserting? && !s.callers[c].Recording?
    ensures var t := ActStep(cfg, s, c, reply, sigRow); var h := ActHeard(cfg, s, t, s.callers[c], reply, sigRow);
            Fated(cfg, t, c, if h.Nothing? then heard else h)
  {
    if s.callers[c].Checking? { ReplayIsShown(s, s.callers[c].q, sigRow); }
  }

  lemma PersistsFate(cfg: Config, s: State, c: CallerId, reply: Reply, sigRow: bool, heard: Heard)
    requires c in s.callers && Fated(cfg, s, c, heard) && (s.callers[c].Upserting? || s.callers[c].Recording?)
    ensures var t := ActStep(cfg, s, c, reply, sigRow); var h := ActHeard(cfg, s, t, s.callers[c], reply, sigRow);
            Fated(cfg, t, c, if h.Nothing? then heard else h)
  {
    if s.callers[c].Recording? { RowsGrow(cfg, s, c, reply, sigRow); }
  }

  lemma ActFate(cfg: Config, s: State, c: CallerId, reply: Reply, sigRow: bool, heard: Heard)
    requires TablesOk(s) && IndexesOk(s) && c in s.callers && Fated(cfg, s, c, heard)
    ensures var t := ActStep(cfg, s, c, reply, sigRow); var h := ActHeard(cfg, s, t, s.callers[c], reply, sigRow);
            Fated(cfg, t, c, if h.Nothing? then heard else h)
  {
    if s.callers[c].Upserting? || s.callers[c].Recording? {
      PersistsFate(cfg, s, c, reply, sigRow, heard);
    } else {
      ChecksFate(cfg, s, c, reply, sigRow, heard);
    }
  }

  lemma BeginFate(cfg: Config, s: State, c: CallerId, request: RequestId, body: Option<Body>, now: nat)
    requires c !in s.callers
    ensures var e := Begin(c, request, body, now); var t := Next(cfg, s, e);
            Fated(cfg, t, c, HeardIn(cfg, s, t, e, c))
  {
    BeginNext(cfg, s, c, request, body, now);
    var found := Precheck(cfg, body, now);
    PrecheckExactly(cfg, body, now, if found.Some? then found.value else InvalidPayload);
  }

  lemma OthersFate(cfg: Config, s: State, e: Event, c: CallerId, heard: Heard)
    requires Fated(cfg, s, c, heard) && (e.KeyExpires? || e.c != c || e.Crash? || (e.Begin? && c in s.callers))
    ensures var t := Next(cfg, s, e); var h := HeardIn(cfg, s, t, e, c);
            Fated(cfg, t, c, if h.Nothing? then heard else h)
  {
    NextMoves(cfg, s, e);
  }

  lemma FateStep(cfg: Config, s: State, e: Event, c: CallerId, heard: Heard)
    requires TablesOk(s) && IndexesOk(s) && Fated(cfg, s, c, heard)
    ensures var t := Next(cfg, s, e); var h := HeardIn(cfg, s, t, e, c);
            Fated(cfg, t, c, if h.Nothing? then heard else h)
  {
    if e.KeyExpires? || e.c != c || e.Crash? || (e.Begin? && c in s.callers) {
      OthersFate(cfg, s, e, c, heard);
    } else if c in s.callers {
      match e
      case NonceCommand(_, reply) =>
        if s.callers[c].Claiming? { ClaimsNonce(cfg, s, c, reply, heard); }
              else { ReleasesNonce(cfg, s, c, reply, heard); }
      case SigCommand(_, reply) =>
        if s.callers[c].Claiming? { ClaimsSig(cfg, s, c, reply, heard); } else { ReleasesSig(cfg, s, c, reply, heard); }
      case Act(_, reply, sigRow) => ActFate(cfg, s, c, reply, sigRow, heard);
    } else if e.Begin? {
      BeginFate(cfg, s, c, e.request, e.body, e.now);
    }
  }

  lemma {:induction false} FateRun(cfg: Config, s: State, es: seq<Event>, c: CallerId)
    requires Inv(cfg, s) && StoresOk(s) && RecordsFirst(s) && c !in s.callers
    ensures Fated(cfg, Run(cfg, s, es), c, Told(cfg, s, es, c))
  {
    if es != [] {
      var init, e := es[..|es| - 1], es[|es| - 1];
      FateRun(cfg, s, init, c);
      RunKeeps(cfg, s, init);
      RunStores(cfg, s, init);
      FateStep(cfg, Run(cfg, s, init), e, c, Told(cfg, s, init, c));
    }
  }

  /** Over all runs, a finished call's result is the one that belongs to the last thing it was told: accepted if and
      only if an answered await of its own added its row; nonce_used or signature_used for the key that was taken, the
      nonce first, or for what the row found has in common with it; invalid_signature, internal_error, a throw or a
      crash. */
  lemma AnswersExactly(cfg: Config, s: State, es: seq<Event>, c: CallerId)
    requires Inv(cfg, s) && StoresOk(s) && RecordsFirst(s) && c !in s.callers
    requires var t := Run(cfg, s, es); c in t.callers && t.callers[c].Done?
    ensures var pc := Run(cfg, s, es).callers[c]; AnswersTo(cfg, pc.q, pc.result, Told(cfg, s, es, c))
  {
    FateRun(cfg, s, es, c);
  }
}
