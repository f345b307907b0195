/** What runVerify guarantees: claims are owned, and the durable layer holds even when Redis forgets. */
module VerifyServiceTheorems {
  import opened Prelude
  import opened Hex
  import opened Registry
  import opened VerifyService

  ghost predicate Reachable(cfg: Config, s: State) {
    exists es :: s == Run(cfg, Init, es)
  }

  // ---------------------------------------------------------------- the durable layer

  ghost predicate RowOk(s: State, i: nat)
    requires i < |s.rows|
  {
    var row := s.rows[i];
    && row.nonce in s.nonceIndex && s.nonceIndex[row.nonce] == i
    && row.sig in s.sigIndex && s.sigIndex[row.sig] == i
  }

  ghost predicate TablesOk(s: State) {
    forall i :: 0 <= i < |s.rows| ==> RowOk(s, i)
  }

  /** What a call in progress has passed. */
  ghost predicate Passed(cfg: Config, pc: Pc) {
    var q := pc.q;
    match pc
    case Done(_, Accepted(_)) => Admissible(cfg, q) && cfg.valid(q.body)
    case Done(_, _) => true
    case Upserting(_, true) => Admissible(cfg, q) && cfg.valid(q.body)
    case Recording(_, true) => Admissible(cfg, q) && cfg.valid(q.body)
    case _ => Admissible(cfg, q)
  }

  ghost predicate Admissible(cfg: Config, q: Call) {
    Precheck(cfg, Some(q.body), q.at).None? && q.sig == cfg.hash(q.body.signature)
  }

  ghost predicate AcceptedRow(s: State, c: CallerId, pc: Pc) {
    pc.Done? && pc.result.Accepted? ==>
      pc.result.row < |s.rows|
      && s.rows[pc.result.row] == Row(true, pc.q.request, pc.q.body.auth.nonce, pc.q.sig, c)
  }

  ghost predicate Inv(cfg: Config, s: State) {
    && TablesOk(s)
    && (forall c :: c in s.callers ==> Passed(cfg, s.callers[c]))
    && (forall c :: c in s.callers ==> AcceptedRow(s, c, s.callers[c]))
  }

  /** Only recording writes the table, and only when neither value is taken. */
  lemma NextTables(cfg: Config, s: State, e: Event)
    ensures var t := Next(cfg, s, e);
            (t.rows == s.rows && t.nonceIndex == s.nonceIndex && t.sigIndex == s.sigIndex)
            || (e.Act? && e.c in s.callers && s.callers[e.c].Recording? && Replay(s, s.callers[e.c].q).None?
                && var u := Insert(s, e.c, s.callers[e.c].q, s.callers[e.c].accepted);
                   t.rows == u.rows && t.nonceIndex == u.nonceIndex && t.sigIndex == u.sigIndex)
  {
  }

  lemma InsertKeeps(s: State, c: CallerId, q: Call, accepted: bool)
    requires TablesOk(s) && Replay(s, q).None?
    ensures TablesOk(Insert(s, c, q, accepted))
  {
    var t := Insert(s, c, q, accepted);
    forall i | 0 <= i < |t.rows| ensures RowOk(t, i) {
      if i < |s.rows| { assert RowOk(s, i); }
    }
  }

  lemma NextKeepsTables(cfg: Config, s: State, e: Event)
    requires TablesOk(s)
    ensures TablesOk(Next(cfg, s, e)) && s.rows <= Next(cfg, s, e).rows
  {
    NextTables(cfg, s, e);
    var t := Next(cfg, s, e);
    if t.rows == s.rows && t.nonceIndex == s.nonceIndex && t.sigIndex == s.sigIndex {
      forall i | 0 <= i < |t.rows| ensures RowOk(t, i) { assert RowOk(s, i); }
    } else {
      var pc := s.callers[e.c];
      InsertKeeps(s, e.c, pc.q, pc.accepted);
      forall i | 0 <= i < |t.rows| ensures RowOk(t, i) { assert RowOk(Insert(s, e.c, pc.q, pc.accepted), i); }
    }
  }

  /** One caller's next program counter. */
  function Moved(cfg: Config, s: State, pc: Pc, e: Event): Pc {
    match e
    case NonceCommand(_, reply) =>
      (match pc
       case Claiming(q, None, sig) => ClaimStep(q, Some(ClaimReply(s.keys, NonceOf(q), reply)), sig)
       case Releasing(q, after, None, sig) => ReleaseStep(q, after, Some(DelReply(reply)), sig)
       case _ => pc)
    case SigCommand(_, reply) =>
      (match pc
       case Claiming(q, nonce, None) => ClaimStep(q, nonce, Some(ClaimReply(s.keys, SigOf(q), reply)))
       case Releasing(q, after, nonce, None) => ReleaseStep(q, after, nonce, Some(DelReply(reply)))
       case _ => pc)
    case Act(_, reply, sigRow) => if reply.Delivered? then Resume(cfg, s, pc, sigRow) else Catch(pc, reply)
    case Crash(_) => if pc.Done? then pc else Done(pc.q, Crashed(Held(pc)))
    case _ => pc
  }

  /** Each event moves at most the caller it names. */
  lemma NextMoves(cfg: Config, s: State, e: Event)
    ensures var t := Next(cfg, s, e);
            && (forall d :: d in s.callers ==> d in t.callers)
            && (forall d :: d in t.callers && d !in s.callers ==>
                  e.Begin? && d == e.c && t.callers[d] == Start(cfg, e.request, e.body, e.now))
            && (forall d :: d in s.callers && (e.KeyExpires? || d != e.c) ==> t.callers[d] == s.callers[d])
            && (!e.KeyExpires? && e.c in s.callers ==> t.callers[e.c] == Moved(cfg, s, s.callers[e.c], e))
  {
  }

  lemma MovedPassed(cfg: Config, s: State, pc: Pc, e: Event)
    requires Passed(cfg, pc)
    ensures Passed(cfg, Moved(cfg, s, pc, e)) && Moved(cfg, s, pc, e).q == pc.q
  {
  }

  lemma MovedAccepted(cfg: Config, s: State, pc: Pc, e: Event)
    requires !(pc.Done? && pc.result.Accepted?)
    ensures var pc' := Moved(cfg, s, pc, e);
            pc'.Done? && pc'.result.Accepted? ==>
              e.Act? && e.reply.Delivered? && pc.Recording? && pc.accepted && Replay(s, pc.q).None?
              && pc' == Done(pc.q, Accepted(|s.rows|))
  {
  }

  lemma NextKeepsPassed(cfg: Config, s: State, e: Event)
    requires forall c :: c in s.callers ==> Passed(cfg, s.callers[c])
    ensures forall c :: c in Next(cfg, s, e).callers ==> Passed(cfg, Next(cfg, s, e).callers[c])
  {
    NextMoves(cfg, s, e);
    if !e.KeyExpires? && e.c in s.callers { MovedPassed(cfg, s, s.callers[e.c], e); }
  }

  lemma NextKeepsAccepted(cfg: Config, s: State, e: Event)
    requires forall c :: c in s.callers ==> AcceptedRow(s, c, s.callers[c])
    ensures forall c :: c in Next(cfg, s, e).callers ==> AcceptedRow(Next(cfg, s, e), c, Next(cfg, s, e).callers[c])
  {
    var t := Next(cfg, s, e);
    NextMoves(cfg, s, e);
    NextTables(cfg, s, e);
    forall c | c in t.callers ensures AcceptedRow(t, c, t.callers[c]) {
      if c in s.callers {
        assert AcceptedRow(s, c, s.callers[c]);
        if !(s.callers[c].Done? && s.callers[c].result.Accepted?) { MovedAccepted(cfg, s, s.callers[c], e); }
      }
    }
  }

  lemma {:induction false} RunKeeps(cfg: Config, s: State, es: seq<Event>)
    requires Inv(cfg, s)
    ensures Inv(cfg, Run(cfg, s, es)) && s.rows <= Run(cfg, s, es).rows
  {
    if es != [] {
      var init := es[..|es| - 1];
      RunKeeps(cfg, s, init);
      NextKeepsTables(cfg, Run(cfg, s, init), es[|es| - 1]);
      NextKeepsPassed(cfg, Run(cfg, s, init), es[|es| - 1]);
      NextKeepsAccepted(cfg, Run(cfg, s, init), es[|es| - 1]);
    }
  }

  /** At most one accepted response ever exists per nonce and per signature hash, and an accepted response passed every
      check; whatever keys expire, however often Redis is flushed and whichever callers crash. */
  lemma AcceptedOnce(cfg: Config, s: State, c: CallerId, d: CallerId)
    requires Reachable(cfg, s) && c in s.callers && d in s.callers
    requires s.callers[c].Done? && s.callers[c].result.Accepted? && s.callers[d].Done? && s.callers[d].result.Accepted?
    ensures Admissible(cfg, s.callers[c].q) && cfg.valid(s.callers[c].q.body)
    ensures c != d ==> s.callers[c].q.body.auth.nonce != s.callers[d].q.body.auth.nonce
                       && s.callers[c].q.sig != s.callers[d].q.sig
  {
    var es :| s == Run(cfg, Init, es);
    RunKeeps(cfg, Init, es);
    assert Passed(cfg, s.callers[c]);
    assert AcceptedRow(s, c, s.callers[c]) && AcceptedRow(s, d, s.callers[d]);
    assert RowOk(s, s.callers[c].result.row) && RowOk(s, s.callers[d].result.row);
  }

  /** An accepted response was given for a valid signature on an authorization within its validity window, paid to the
      requested recipient, worth at least the required amount, on a supported network and asset. */
  lemma AcceptedIsChecked(cfg: Config, s: State, c: CallerId)
    requires Reachable(cfg, s) && c in s.callers && s.callers[c].Done? && s.callers[c].result.Accepted?
    ensures var q := s.callers[c].q; var b := q.body;
            && cfg.valid(b) && q.sig == cfg.hash(b.signature)
            && b.auth.validAfter <= q.at < b.auth.validBefore
            && Lower(b.auth.to) == Lower(b.recipient) && b.auth.value >= b.requiredAmount
            && Resolve(cfg.networks, b.network, Upper(b.asset)).Asset?
  {
    AcceptedOnce(cfg, s, c, c);
  }

  // ---------------------------------------------------------------- later calls stop before the signature check

  /** The call has not been let past the durable check, and never will be. */
  predicate Stopped(pc: Pc) {
    match pc
    case Claiming(_, _, _) => true
    case UndoingNonce(_) => true
    case Checking(_) => true
    case Releasing(_, Answer(code), _, _) => code.NonceUsed? || code.SignatureUsed?
    case Done(_, Rejected(code, _)) => !code.InvalidSignature? && !code.InternalError?
    case Done(_, Aborted(_)) => true
    case Done(_, Crashed(_)) => true
    case _ => false
  }

  ghost predicate Uses(q: Call, row: Row) {
    q.body.auth.nonce == row.nonce || q.sig == row.sig
  }

  ghost predicate LateOnesStopped(before: set<CallerId>, row: Row, s: State) {
    forall c :: c in s.callers && c !in before && Uses(s.callers[c].q, row) ==> Stopped(s.callers[c])
  }

  lemma MovedStopped(cfg: Config, s: State, pc: Pc, e: Event, i: nat)
    requires Stopped(pc) && i < |s.rows| && RowOk(s, i) && Uses(pc.q, s.rows[i])
    ensures Stopped(Moved(cfg, s, pc, e))
  {
    assert Replay(s, pc.q).Some?;
  }

  lemma LateStep(cfg: Config, s: State, e: Event, before: set<CallerId>, i: nat)
    requires i < |s.rows| && RowOk(s, i) && LateOnesStopped(before, s.rows[i], s)
    ensures LateOnesStopped(before, s.rows[i], Next(cfg, s, e))
  {
    var t := Next(cfg, s, e);
    NextMoves(cfg, s, e);
    forall c | c in t.callers && c !in before && Uses(t.callers[c].q, s.rows[i]) ensures Stopped(t.callers[c]) {
      if c in s.callers && t.callers[c] != s.callers[c] {
        MovedQ(cfg, s, s.callers[c], e);
        MovedStopped(cfg, s, s.callers[c], e, i);
      }
    }
  }

  lemma MovedQ(cfg: Config, s: State, pc: Pc, e: Event)
    ensures Moved(cfg, s, pc, e).q == pc.q
  {
  }

  lemma {:induction false} LateRun(cfg: Config, s: State, es: seq<Event>, i: nat)
    requires Inv(cfg, s) && i < |s.rows|
    ensures i < |Run(cfg, s, es).rows| && Run(cfg, s, es).rows[i] == s.rows[i]
    ensures LateOnesStopped(s.callers.Keys, s.rows[i], Run(cfg, s, es))
  {
    RunKeeps(cfg, s, es);
    if es != [] {
      var init := es[..|es| - 1];
      LateRun(cfg, s, init, i);
      RunKeeps(cfg, s, init);
      assert RowOk(Run(cfg, s, init), i);
      LateStep(cfg, Run(cfg, s, init), es[|es| - 1], s.callers.Keys, i);
    }
  }

  /** The durable layer covers the fast one: once a row (accepted or rejected) holds a nonce or a signature hash, every
      call begun after that with either value ends before the signature check, in every continuation of the run. */
  lemma LaterCallsNeverReachTheSignature(cfg: Config, s: State, es: seq<Event>, i: nat)
    requires Reachable(cfg, s) && i < |s.rows|
    ensures LateOnesStopped(s.callers.Keys, s.rows[i], Run(cfg, s, es))
  {
    var before :| s == Run(cfg, Init, before);
    RunKeeps(cfg, Init, before);
    LateRun(cfg, s, es, i);
  }

  // ---------------------------------------------------------------- claim ownership

  /** The live keys are exactly the held ones, each held by the one call that set it. */
  ghost predicate KeysExact(s: State) {
    && (forall k :: k in s.keys ==> s.keys[k] in s.callers && k in Held(s.callers[s.keys[k]]))
    && (forall c, k :: c in s.callers && k in Held(s.callers[c]) ==> k in s.keys && s.keys[k] == c)
  }

  lemma HandOver(s: State, t: State, c: CallerId, pc: Pc)
    requires KeysExact(s) && t.callers == s.callers[c := pc]
    requires forall k :: k in Held(pc) ==> k in t.keys && t.keys[k] == c && (k in s.keys ==> s.keys[k] == c)
    requires forall k :: k in t.keys && k !in Held(pc) ==> k in s.keys && t.keys[k] == s.keys[k] && s.keys[k] != c
    requires forall k :: k in s.keys && s.keys[k] != c ==> k in t.keys
    ensures KeysExact(t)
  {
  }

  /** What a command does to the keys, against what its call holds before and after. */
  ghost predicate OwnKeysOnly(s: State, t: State, c: CallerId, pc: Pc, pc': Pc) {
    && (forall k :: k in Held(pc') ==> k in t.keys && t.keys[k] == c && (k in s.keys ==> k in Held(pc)))
    && (forall k :: k in t.keys && k !in Held(pc') ==> k in s.keys && t.keys[k] == s.keys[k] && k !in Held(pc))
    && (forall k :: k in s.keys && k !in Held(pc) ==> k in t.keys)
  }

  /** Settling Promise.all changes nothing about what is held: the answers alone decide. */
  lemma ClaimsHeld(q: Call, nonce: Option<Claim>, sig: Option<Claim>)
    ensures Held(ClaimStep(q, nonce, sig)) == HeldBy(q, nonce, sig)
  {
  }

  lemma ReleasesHeld(q: Call, after: After, nonce: Option<Deletion>, sig: Option<Deletion>)
    ensures Held(ReleaseStep(q, after, nonce, sig)) == Unreleased(q, nonce, sig)
  {
  }

  /** One SET NX of a key `k` that the caller did not hold. */
  lemma SetKeepsOwn(s: State, t: State, c: CallerId, pc: Pc, pc': Pc, k: Key, reply: Reply)
    requires forall j :: j in Held(pc) ==> j in s.keys && s.keys[j] == c
    requires k !in Held(pc) && t.keys == SetNx(s.keys, k, c, reply)
    requires Held(pc') == Held(pc) + if k !in s.keys && !reply.Dropped? then {k} else {}
    ensures OwnKeysOnly(s, t, c, pc, pc')
  {
  }

  /** One DEL of a key `k` that the caller holds. */
  lemma DelKeepsOwn(s: State, t: State, c: CallerId, pc: Pc, pc': Pc, k: Key, reply: Reply)
    requires forall j :: j in Held(pc) ==> j in s.keys && s.keys[j] == c
    requires k in Held(pc) && t.keys == if reply.Dropped? then s.keys else s.keys - {k}
    requires Held(pc') == if reply.Dropped? then Held(pc) else Held(pc) - {k}
    ensures OwnKeysOnly(s, t, c, pc, pc')
  {
  }

  lemma NonceCommandKeys(s: State, c: CallerId, reply: Reply)
    requires c in s.callers
    requires forall k :: k in Held(s.callers[c]) ==> k in s.keys && s.keys[k] == c
    ensures var t := NonceCommandStep(s, c, reply); OwnKeysOnly(s, t, c, s.callers[c], t.callers[c])
  {
    var t := NonceCommandStep(s, c, reply);
    match s.callers[c]
    case Claiming(q, None, sig) =>
      ClaimsHeld(q, Some(ClaimReply(s.keys, NonceOf(q), reply)), sig);
      SetKeepsOwn(s, t, c, s.callers[c], t.callers[c], NonceOf(q), reply);
    case Releasing(q, after, None, sig) =>
      ReleasesHeld(q, after, Some(DelReply(reply)), sig);
      DelKeepsOwn(s, t, c, s.callers[c], t.callers[c], NonceOf(q), reply);
    case _ =>
  }

  lemma SigCommandKeys(s: State, c: CallerId, reply: Reply)
    requires c in s.callers
    requires forall k :: k in Held(s.callers[c]) ==> k in s.keys && s.keys[k] == c
    ensures var t := SigCommandStep(s, c, reply); OwnKeysOnly(s, t, c, s.callers[c], t.callers[c])
  {
    var t := SigCommandStep(s, c, reply);
    match s.callers[c]
    case Claiming(q, nonce, None) =>
      ClaimsHeld(q, nonce, Some(ClaimReply(s.keys, SigOf(q), reply)));
      SetKeepsOwn(s, t, c, s.callers[c], t.callers[c], SigOf(q), reply);
    case Releasing(q, after, nonce, None) =>
      ReleasesHeld(q, after, nonce, Some(DelReply(reply)));
      DelKeepsOwn(s, t, c, s.callers[c], t.callers[c], SigOf(q), reply);
    case _ =>
  }

  lemma ActHeld(cfg: Config, s: State, pc: Pc, reply: Reply, sigRow: bool)
    ensures var pc' := if reply.Delivered? then Resume(cfg, s, pc, sigRow) else Catch(pc, reply);
            Held(pc') == if pc.UndoingNonce? && !reply.Dropped? then {} else Held(pc)
  {
  }

  lemma ActKeys(cfg: Config, s: State, c: CallerId, reply: Reply, sigRow: bool)
    requires c in s.callers
    requires forall k :: k in Held(s.callers[c]) ==> k in s.keys && s.keys[k] == c
    ensures var t := ActStep(cfg, s, c, reply, sigRow); OwnKeysOnly(s, t, c, s.callers[c], t.callers[c])
  {
    ActHeld(cfg, s, s.callers[c], reply, sigRow);
    var t := ActStep(cfg, s, c, reply, sigRow);
    if s.callers[c].UndoingNonce? {
      DelKeepsOwn(s, t, c, s.callers[c], t.callers[c], NonceOf(s.callers[c].q), reply);
    } else {
      assert t.keys == s.keys;
    }
  }

  lemma StepKeysExact(s: State, t: State, c: CallerId)
    requires KeysExact(s) && c in s.callers && c in t.callers && t.callers == s.callers[c := t.callers[c]]
    requires OwnKeysOnly(s, t, c, s.callers[c], t.callers[c])
    ensures KeysExact(t)
  {
    HandOver(s, t, c, t.callers[c]);
  }

  lemma MovePc(s: State, c: CallerId, pc: Pc)
    requires KeysExact(s) && Held(pc) == if c in s.callers then Held(s.callers[c]) else {}
    ensures KeysExact(s.(callers := s.callers[c := pc]))
  {
    HandOver(s, s.(callers := s.callers[c := pc]), c, pc);
  }

  /** Every key event of a running call touches only keys of its own. */
  lemma CommandKeys(cfg: Config, s: State, e: Event)
    requires KeysExact(s) && !e.KeyExpires? && e.c in s.callers
    requires e.NonceCommand? || e.SigCommand? || e.Act?
    ensures OwnKeysOnly(s, Next(cfg, s, e), e.c, s.callers[e.c], Next(cfg, s, e).callers[e.c])
  {
    match e
    case NonceCommand(c, reply) => NonceCommandKeys(s, c, reply);
    case SigCommand(c, reply) => SigCommandKeys(s, c, reply);
    case Act(c, reply, sigRow) => ActKeys(cfg, s, c, reply, sigRow);
  }

  lemma NextKeysExact(cfg: Config, s: State, e: Event)
    requires KeysExact(s) && !e.KeyExpires?
    ensures KeysExact(Next(cfg, s, e))
  {
    match e
    case Begin(c, request, body, now) => if c !in s.callers { MovePc(s, c, Start(cfg, request, body, now)); }
    case Crash(c) =>
      if c in s.callers && !s.callers[c].Done? { MovePc(s, c, Done(s.callers[c].q, Crashed(Held(s.callers[c])))); }
    case NonceCommand(c, _) => if c in s.callers { CommandKeys(cfg, s, e); StepKeysExact(s, Next(cfg, s, e), c); }
    case SigCommand(c, _) => if c in s.callers { CommandKeys(cfg, s, e); StepKeysExact(s, Next(cfg, s, e), c); }
    case Act(c, _, _) => if c in s.callers { CommandKeys(cfg, s, e); StepKeysExact(s, Next(cfg, s, e), c); }
  }

  /** Only the call that set a key deletes it. */
  lemma OnlyOwnerDeletes(cfg: Config, s: State, e: Event, k: Key)
    requires KeysExact(s) && !e.KeyExpires? && k in s.keys && k !in Next(cfg, s, e).keys
    ensures s.keys[k] == e.c && k in Held(s.callers[e.c])
  {
    if e.c in s.callers && !e.Begin? && !e.Crash? { CommandKeys(cfg, s, e); }
  }

  ghost predicate NoExpiry(es: seq<Event>) {
    forall i :: 0 <= i < |es| ==> !es[i].KeyExpires?
  }

  lemma {:induction false} RunKeysExact(cfg: Config, es: seq<Event>)
    requires NoExpiry(es)
    ensures KeysExact(Run(cfg, Init, es))
  {
    if es != [] {
      RunKeysExact(cfg, es[..|es| - 1]);
      NextKeysExact(cfg, Run(cfg, Init, es[..|es| - 1]), es[|es| - 1]);
    }
  }

  /** The call has claimed both keys and has not begun to release them. */
  predicate InClaim(pc: Pc) {
    pc.Checking? || pc.Verifying? || (pc.Upserting? && pc.accepted) || (pc.Recording? && pc.accepted)
  }

  /** Claim ownership: without expiry, two calls that have claimed and not begun release share neither nonce nor
      signature hash, and every live key belongs to exactly one call. */
  lemma ClaimOwnership(cfg: Config, es: seq<Event>, c: CallerId, d: CallerId)
    requires NoExpiry(es)
    ensures var s := Run(cfg, Init, es);
            && (c in s.callers && d in s.callers && c != d && InClaim(s.callers[c]) && InClaim(s.callers[d]) ==>
                  s.callers[c].q.body.auth.nonce != s.callers[d].q.body.auth.nonce
                        && s.callers[c].q.sig != s.callers[d].q.sig)
            && (forall k :: k in s.keys ==> exists o :: o in s.callers && k in Held(s.callers[o]))
  {
    RunKeysExact(cfg, es);
    Exclusive(Run(cfg, Init, es), c, d);
  }

  lemma Exclusive(s: State, c: CallerId, d: CallerId)
    requires KeysExact(s)
    ensures c in s.callers && d in s.callers && c != d && InClaim(s.callers[c]) && InClaim(s.callers[d]) ==>
              s.callers[c].q.body.auth.nonce != s.callers[d].q.body.auth.nonce
                    && s.callers[c].q.sig != s.callers[d].q.sig
    ensures forall k :: k in s.keys ==> exists o :: o in s.callers && k in Held(s.callers[o])
  {
    if c in s.callers && InClaim(s.callers[c]) { InClaimHolds(s, c); }
    if d in s.callers && InClaim(s.callers[d]) { InClaimHolds(s, d); }
  }

  lemma InClaimHolds(s: State, c: CallerId)
    requires KeysExact(s) && c in s.callers && InClaim(s.callers[c])
    ensures var q := s.callers[c].q;
            NonceOf(q) in s.keys && s.keys[NonceOf(q)] == c && SigOf(q) in s.keys && s.keys[SigOf(q)] == c
  {
    assert NonceOf(s.callers[c].q) in Held(s.callers[c]) && SigOf(s.callers[c].q) in Held(s.callers[c]);
  }

  // ---------------------------------------------------------------- the claim that is never released

  /** Both SETs of `c` have been served, whichever was first. */
  function Claimed(s: State, c: CallerId, q: Call): State
    requires c in s.callers
  {
    var keys := if NonceOf(q) in s.keys then s.keys else s.keys[NonceOf(q) := c];
    var pc :=
      if NonceOf(q) in s.keys then Done(q, Rejected(NonceUsed, if SigOf(q) in s.keys then {} else {SigOf(q)}))
      else if SigOf(q) in s.keys then UndoingNonce(q)
      else Checking(q);
    s.(keys := if SigOf(q) in s.keys then keys else keys[SigOf(q) := c], callers := s.callers[c := pc])
  }

  lemma ClaimedPc(s: State, q: Call)
    ensures AfterClaims(q, ClaimReply(s.keys, NonceOf(q), Delivered), ClaimReply(s.keys, SigOf(q), Delivered)) ==
              if NonceOf(q) in s.keys then Done(q, Rejected(NonceUsed, if SigOf(q) in s.keys then {} else {SigOf(q)}))
              else if SigOf(q) in s.keys then UndoingNonce(q)
              else Checking(q)
  {
    assert HeldBy(q, Some(Lost), Some(Won)) == {SigOf(q)} && HeldBy(q, Some(Lost), Some(Lost)) == {};
  }

  lemma NonceFirst(cfg: Config, s: State, c: CallerId, q: Call)
    requires c in s.callers && s.callers[c] == Claiming(q, None, None)
    ensures Next(cfg, Next(cfg, s, NonceCommand(c, Delivered)), SigCommand(c, Delivered)) == Claimed(s, c, q)
  {
    ClaimedPc(s, q);
    assert NonceOf(q) != SigOf(q);
    var t := Next(cfg, Next(cfg, s, NonceCommand(c, Delivered)), SigCommand(c, Delivered));
    assert t.callers == Claimed(s, c, q).callers;
  }

  lemma SigFirst(cfg: Config, s: State, c: CallerId, q: Call)
    requires c in s.callers && s.callers[c] == Claiming(q, None, None)
    ensures Next(cfg, Next(cfg, s, SigCommand(c, Delivered)), NonceCommand(c, Delivered)) == Claimed(s, c, q)
  {
    ClaimedPc(s, q);
    assert NonceOf(q) != SigOf(q);
    var t := Next(cfg, Next(cfg, s, SigCommand(c, Delivered)), NonceCommand(c, Delivered));
    assert t.callers == Claimed(s, c, q).callers;
    assert t.keys == Claimed(s, c, q).keys;
  }

  /** claimNonceRedis as a whole: its two parallel SETs may run in either order with the same outcome. The nonce decides
      first, then the signature; and a call that loses the nonce but wins the signature ends without deleting the
      signature key it has just set (src/protocol/anti-replay.ts:84). */
  lemma ClaimOutcome(cfg: Config, s: State, c: CallerId, q: Call)
    requires c in s.callers && s.callers[c] == Claiming(q, None, None)
    ensures var n := NonceCommand(c, Delivered); var g := SigCommand(c, Delivered);
            var t := Next(cfg, Next(cfg, s, n), g);
            && t == Next(cfg, Next(cfg, s, g), n)
            && t.callers[c] == (if NonceOf(q) in s.keys then
                                  Done(q, Rejected(NonceUsed, if SigOf(q) in s.keys then {} else {SigOf(q)}))
                                else if SigOf(q) in s.keys then UndoingNonce(q)
                                else Checking(q))
            && (SigOf(q) !in s.keys ==> SigOf(q) in t.keys && t.keys[SigOf(q)] == c)
  {
    NonceFirst(cfg, s, c, q);
    SigFirst(cfg, s, c, q);
  }

  // ---------------------------------------------------------------- what a finished call leaves in Redis

  /** The durable check or the signature check of call `c` throws. Neither is inside a try block
      (src/application/verify.service.ts:104 and :112). */
  predicate CheckThrows(s: State, e: Event, c: CallerId) {
    && e.Act? && e.c == c && c in s.callers && !e.reply.Delivered?
    && (s.callers[c].Checking? || s.callers[c].Verifying?)
  }

  /** The second answer arrives of two SETs that found the nonce taken and the signature free. */
  predicate LosesNonceRace(s: State, e: Event, c: CallerId) {
    c in s.callers && s.callers[c].Claiming? &&
    match e
    case NonceCommand(d, _) =>
      d == c && s.callers[c].nonce.None? && s.callers[c].sig == Some(Won) && NonceOf(s.callers[c].q) in s.keys
    case SigCommand(d, _) =>
      d == c && s.callers[c].sig.None? && s.callers[c].nonce == Some(Lost) && SigOf(s.callers[c].q) !in s.keys
    case _ => false
  }

  ghost predicate EverCheckThrew(cfg: Config, es: seq<Event>, c: CallerId) {
    es != []
    && (EverCheckThrew(cfg, es[..|es| - 1], c) || CheckThrows(Run(cfg, Init, es[..|es| - 1]), es[|es| - 1], c))
  }

  ghost predicate EverLostNonceRace(cfg: Config, es: seq<Event>, c: CallerId) {
    es != []
    && (EverLostNonceRace(cfg, es[..|es| - 1], c)
        || LosesNonceRace(Run(cfg, Init, es[..|es| - 1]), es[|es| - 1], c))
  }

  /** No key expires, call `c` does not crash, and its Redis commands are answered; whatever else fails, in the call
      or outside it. */
  predicate RedisServes(s: State, e: Event, c: CallerId) {
    match e
    case Begin(_, _, _, _) => true
    case NonceCommand(d, reply) => d == c ==> reply.Delivered?
    case SigCommand(d, reply) => d == c ==> reply.Delivered?
    case Act(d, reply, _) => d == c && c in s.callers && s.callers[c].UndoingNonce? ==> reply.Delivered?
    case Crash(d) => d != c
    case KeyExpires(_) => false
  }

  ghost predicate RedisServed(cfg: Config, es: seq<Event>, c: CallerId) {
    forall i :: 0 <= i < |es| ==> RedisServes(Run(cfg, Init, es[..i]), es[i], c)
  }

  /** What call `pc` records as kept, if a check of it threw or it lost the nonce race. */
  ghost predicate Keeps(pc: Pc, threw: bool, lost: bool) {
    match pc
    case Claiming(_, nonce, sig) =>
      !threw && !lost && (nonce.Some? ==> !nonce.value.Failed?) && (sig.Some? ==> !sig.value.Failed?)
    case Releasing(_, _, nonce, sig) =>
      !threw && !lost && (nonce.Some? ==> nonce.value.Deleted?) && (sig.Some? ==> sig.value.Deleted?)
    case Done(q, Rejected(code, kept)) =>
      !threw && kept == (if lost then {SigOf(q)} else {}) && (lost ==> code == NonceUsed)
    case Done(q, Aborted(kept)) => !lost && kept == if threw then {NonceOf(q), SigOf(q)} else {}
    case Done(_, Crashed(_)) => false
    case _ => !threw && !lost
  }

  lemma MovedKeeps(cfg: Config, s: State, e: Event, c: CallerId, threw: bool, lost: bool)
    requires c in s.callers && Keeps(s.callers[c], threw, lost) && RedisServes(s, e, c) && Unsettled(s.callers[c])
    requires !e.KeyExpires? && e.c == c && !e.Begin?
    ensures Keeps(Moved(cfg, s, s.callers[c], e), threw || CheckThrows(s, e, c), lost || LosesNonceRace(s, e, c))
    ensures Unsettled(Moved(cfg, s, s.callers[c], e))
  {
  }

  ghost predicate Kept(s: State, c: CallerId, threw: bool, lost: bool) {
    if c in s.callers then Unsettled(s.callers[c]) && Keeps(s.callers[c], threw, lost) else !threw && !lost
  }

  lemma StartKeeps(cfg: Config, request: RequestId, body: Option<Body>, now: nat)
    ensures var pc := Start(cfg, request, body, now); Unsettled(pc) && Keeps(pc, false, false)
  {
  }

  lemma KeptStep(cfg: Config, s: State, e: Event, c: CallerId, threw: bool, lost: bool)
    requires Kept(s, c, threw, lost) && RedisServes(s, e, c)
    ensures Kept(Next(cfg, s, e), c, threw || CheckThrows(s, e, c), lost || LosesNonceRace(s, e, c))
  {
    NextMoves(cfg, s, e);
    if e.c == c {
      if c in s.callers && !e.Begin? { MovedKeeps(cfg, s, e, c, threw, lost); }
      if e.Begin? { StartKeeps(cfg, e.request, e.body, e.now); }
    }
  }

  lemma {:induction false} KeptRun(cfg: Config, es: seq<Event>, c: CallerId)
    requires RedisServed(cfg, es, c)
    ensures Kept(Run(cfg, Init, es), c, EverCheckThrew(cfg, es, c), EverLostNonceRace(cfg, es, c))
    ensures NoExpiry(es)
  {
    if es != [] {
      var init, e := es[..|es| - 1], es[|es| - 1];
      forall i | 0 <= i < |init| ensures RedisServes(Run(cfg, Init, init[..i]), init[i], c) {
        assert init[..i] == es[..i];
      }
      KeptRun(cfg, init, c);
      KeptStep(cfg, Run(cfg, Init, init), e, c, EverCheckThrew(cfg, init, c), EverLostNonceRace(cfg, init, c));
    }
  }

  lemma OwnedExactly(s: State, c: CallerId, k: Key)
    requires KeysExact(s) && c in s.callers
    ensures k in s.keys && s.keys[k] == c <==> k in Held(s.callers[c])
  {
  }

  lemma FinishedHold(pc: Pc, threw: bool, lost: bool)
    requires Keeps(pc, threw, lost) && pc.Done? && !pc.result.Accepted?
    ensures Held(pc) == if threw then {NonceOf(pc.q), SigOf(pc.q)} else if lost then {SigOf(pc.q)} else {}
    ensures lost <==> pc.result == Rejected(NonceUsed, {SigOf(pc.q)})
  {
  }

  /** When Redis serves a call, exactly two things make it end unaccepted with keys of its own still in Redis: a check
      outside the try block threw, and both keys stay; or it lost the nonce and won the signature, and the signature
      key stays. */
  lemma FinishedCallsLeave(cfg: Config, es: seq<Event>, s: State, c: CallerId, k: Key)
    requires RedisServed(cfg, es, c)
    requires s == Run(cfg, Init, es) && c in s.callers && s.callers[c].Done? && !s.callers[c].result.Accepted?
    ensures var q := s.callers[c].q;
            k in s.keys && s.keys[k] == c <==>
              || (EverCheckThrew(cfg, es, c) && k in {NonceOf(q), SigOf(q)})
              || (EverLostNonceRace(cfg, es, c) && k == SigOf(q))
  {
    KeptRun(cfg, es, c);
    RunKeysExact(cfg, es);
    OwnedExactly(s, c, k);
    FinishedHold(s.callers[c], EverCheckThrew(cfg, es, c), EverLostNonceRace(cfg, es, c));
  }

  /** So such a call has given up all its keys if and only if neither happened, which its answer tells: it lost the race
      exactly when it is nonce_used with the signature key kept. */
  lemma FinishedCallsRelease(cfg: Config, es: seq<Event>, s: State, c: CallerId)
    requires RedisServed(cfg, es, c)
    requires s == Run(cfg, Init, es) && c in s.callers && s.callers[c].Done? && !s.callers[c].result.Accepted?
    ensures (exists k :: k in s.keys && s.keys[k] == c) <==>
              EverCheckThrew(cfg, es, c) || EverLostNonceRace(cfg, es, c)
    ensures var q := s.callers[c].q;
            EverLostNonceRace(cfg, es, c) <==> s.callers[c].result == Rejected(NonceUsed, {SigOf(q)})
  {
    KeptRun(cfg, es, c);
    FinishedHold(s.callers[c], EverCheckThrew(cfg, es, c), EverLostNonceRace(cfg, es, c));
    FinishedCallsLeave(cfg, es, s, c, SigOf(s.callers[c].q));
    if k :| k in s.keys && s.keys[k] == c { FinishedCallsLeave(cfg, es, s, c, k); }
  }

  lemma BeginsNext(cfg: Config, request: RequestId, body: Body, now: nat)
    requires Precheck(cfg, Some(body), now).None?
    ensures var q := Call(request, body, cfg.hash(body.signature), now);
            Next(cfg, Init, Begin(1, request, Some(body), now)) == Init.(callers := map[1 := Claiming(q, None, None)])
  {
  }

  lemma ClaimsNext(cfg: Config, s: State, q: Call)
    requires s == Init.(callers := map[1 := Claiming(q, None, None)])
    ensures Next(cfg, Next(cfg, s, NonceCommand(1, Delivered)), SigCommand(1, Delivered)) ==
              Init.(keys := map[NonceOf(q) := 1, SigOf(q) := 1], callers := map[1 := Checking(q)])
  {
    NonceFirst(cfg, s, 1, q);
  }

  /** Both SETs of a first call are answered. */
  lemma FirstClaims(cfg: Config, request: RequestId, body: Body, now: nat) returns (es: seq<Event>, s: State)
    requires Precheck(cfg, Some(body), now).None?
    ensures es == [Begin(1, request, Some(body), now), NonceCommand(1, Delivered), SigCommand(1, Delivered)]
    ensures var q := Call(request, body, cfg.hash(body.signature), now);
            && s == Run(cfg, Init, es)
            && s == Init.(keys := map[NonceOf(q) := 1, SigOf(q) := 1], callers := map[1 := Checking(q)])
  {
    var begin := Begin(1, request, Some(body), now);
    var first: seq<Event> := [begin];
    var second := first + [NonceCommand(1, Delivered)];
    es := second + [SigCommand(1, Delivered)];
    assert [] + first == first;
    RunSnoc(cfg, Init, [], begin);
    RunSnoc(cfg, Init, first, NonceCommand(1, Delivered));
    RunSnoc(cfg, Init, second, SigCommand(1, Delivered));
    BeginsNext(cfg, request, body, now);
    ClaimsNext(cfg, Run(cfg, Init, first), Call(request, body, cfg.hash(body.signature), now));
    s := Run(cfg, Init, es);
  }

  /** The second leak is real: for every body that passes the checks, the durable check, or after it the signature
      check, throws with every Redis command answered, and both keys stay without a row. */
  lemma ThrownCheckLeaves(cfg: Config, request: RequestId, body: Body, now: nat, reply: Reply, signature: bool)
    returns (es: seq<Event>)
    requires Precheck(cfg, Some(body), now).None? && !reply.Delivered?
    ensures es == [Begin(1, request, Some(body), now), NonceCommand(1, Delivered), SigCommand(1, Delivered)]
                  + (if signature then [Act(1, Delivered, false)] else []) + [Act(1, reply, false)]
    ensures var s, q := Run(cfg, Init, es), Call(request, body, cfg.hash(body.signature), now);
            && s.callers == map[1 := Done(q, Aborted({NonceOf(q), SigOf(q)}))] && s.rows == []
            && s.keys == map[NonceOf(q) := 1, SigOf(q) := 1]
  {
    var s;
    es, s := FirstClaims(cfg, request, body, now);
    var checked := es + if signature then [Act(1, Delivered, false)] else [];
    if signature {
      RunSnoc(cfg, Init, es, Act(1, Delivered, false));
    } else {
      assert checked == es;
    }
    RunSnoc(cfg, Init, checked, Act(1, reply, false));
    es := checked + [Act(1, reply, false)];
  }

  // ---------------------------------------------------------------- exactly when runVerify throws

  /** An await of call `c` that no catch block of runVerify covers fails: either SET, either DEL, the DEL that undoes
      the nonce, the durable check, the signature check, or the upsert or create of a rejected row, which a unique
      constraint may also refuse. */
  predicate ThrowsOutside(s: State, e: Event, c: CallerId) {
    c in s.callers &&
    match e
    case NonceCommand(d, reply) =>
      d == c && !reply.Delivered?
      && ((s.callers[c].Claiming? && s.callers[c].nonce.None?)
            || (s.callers[c].Releasing? && s.callers[c].nonceDel.None?))
    case SigCommand(d, reply) =>
      d == c && !reply.Delivered?
      && ((s.callers[c].Claiming? && s.callers[c].sig.None?) || (s.callers[c].Releasing? && s.callers[c].sigDel.None?))
    case Act(d, reply, _) =>
      d == c &&
      (match s.callers[c]
       case UndoingNonce(_) => !reply.Delivered?
       case Checking(_) => !reply.Delivered?
       case Verifying(_) => !reply.Delivered?
       case Upserting(_, accepted) => !accepted && !reply.Delivered?
       case Recording(q, accepted) => !accepted && (!reply.Delivered? || Replay(s, q).Some?)
       case _ => false)
    case _ => false
  }

  /** The call has thrown, or will once the other of its two parallel commands is answered. */
  predicate Doomed(pc: Pc) {
    match pc
    case Claiming(_, nonce, sig) => (nonce.Some? && nonce.value.Failed?) || (sig.Some? && sig.value.Failed?)
    case Releasing(_, _, nonce, sig) => (nonce.Some? && nonce.value.Undeleted?) || (sig.Some? && sig.value.Undeleted?)
    case Done(_, result) => result.Aborted?
    case _ => false
  }

  /** Both answers of a parallel pair are never left standing side by side. */
  predicate Unsettled(pc: Pc) {
    match pc
    case Claiming(_, nonce, sig) => nonce.None? || sig.None?
    case Releasing(_, _, nonce, sig) => nonce.None? || sig.None?
    case _ => true
  }

  lemma MovedDoomed(cfg: Config, s: State, e: Event, c: CallerId)
    requires c in s.callers && Unsettled(s.callers[c]) && !e.KeyExpires? && e.c == c && !e.Begin? && !e.Crash?
    ensures var pc' := Moved(cfg, s, s.callers[c], e);
            Unsettled(pc') && (Doomed(pc') <==> Doomed(s.callers[c]) || ThrowsOutside(s, e, c))
  {
  }

  lemma StartNotDoomed(cfg: Config, request: RequestId, body: Option<Body>, now: nat)
    ensures var pc := Start(cfg, request, body, now); Unsettled(pc) && !Doomed(pc)
  {
  }

  /** What one step does to the fate of call `c`. */
  ghost predicate Fated(s: State, c: CallerId, threw: bool) {
    c in s.callers ==>
      && Unsettled(s.callers[c])
      && (Doomed(s.callers[c]) ==> threw)
      && (threw ==> Doomed(s.callers[c]) || (s.callers[c].Done? && s.callers[c].result.Crashed?))
  }

  lemma FateStep(cfg: Config, s: State, e: Event, c: CallerId, threw: bool)
    requires Fated(s, c, threw) && (c !in s.callers ==> !threw)
    ensures Fated(Next(cfg, s, e), c, threw || ThrowsOutside(s, e, c))
    ensures c !in Next(cfg, s, e).callers ==> !threw && !ThrowsOutside(s, e, c)
  {
    NextMoves(cfg, s, e);
    if c in s.callers {
      if !e.KeyExpires? && e.c == c && !e.Begin? && !e.Crash? { MovedDoomed(cfg, s, e, c); }
    } else if e.Begin? && e.c == c {
      StartNotDoomed(cfg, e.request, e.body, e.now);
    }
  }

  /** Some await of the call outside the try block failed. */
  ghost predicate EverThrew(cfg: Config, s: State, es: seq<Event>, c: CallerId) {
    es != []
    && (EverThrew(cfg, s, es[..|es| - 1], c) || ThrowsOutside(Run(cfg, s, es[..|es| - 1]), es[|es| - 1], c))
  }

  lemma {:induction false} FateRun(cfg: Config, s: State, es: seq<Event>, c: CallerId)
    requires c !in s.callers
    ensures Fated(Run(cfg, s, es), c, EverThrew(cfg, s, es, c))
    ensures c !in Run(cfg, s, es).callers ==> !EverThrew(cfg, s, es, c)
  {
    if es != [] {
      var init, e := es[..|es| - 1], es[|es| - 1];
      FateRun(cfg, s, init, c);
      FateStep(cfg, Run(cfg, s, init), e, c, EverThrew(cfg, s, init, c));
    }
  }

  /** runVerify throws, although its comment says it never does, exactly when one of the listed awaits fails: for every
      call that finished without crashing, in every run. */
  lemma ThrowsExactly(cfg: Config, s: State, es: seq<Event>, c: CallerId)
    requires c !in s.callers
    requires var t := Run(cfg, s, es); c in t.callers && t.callers[c].Done? && !t.callers[c].result.Crashed?
    ensures Run(cfg, s, es).callers[c].result.Aborted? <==> EverThrew(cfg, s, es, c)
  {
    FateRun(cfg, s, es, c);
  }

  /** For every body that passes the checks, runVerify throws when its first two commands do. */
  lemma ClaimThrows(cfg: Config, request: RequestId, body: Body, now: nat) returns (es: seq<Event>)
    requires Precheck(cfg, Some(body), now).None?
    ensures Run(cfg, Init, es).callers.Keys == {1}
    ensures Run(cfg, Init, es).callers[1].Done? && Run(cfg, Init, es).callers[1].result.Aborted?
  {
    var begin := Begin(1, request, Some(body), now);
    var q := Call(request, body, cfg.hash(body.signature), now);
    es := [] + [begin];
    RunSnoc(cfg, Init, [], begin);
    assert Run(cfg, Init, es) == Init.(callers := map[1 := Claiming(q, None, None)]);
    RunSnoc(cfg, Init, es, NonceCommand(1, Dropped));
    es := es + [NonceCommand(1, Dropped)];
    assert Run(cfg, Init, es) == Init.(callers := map[1 := Claiming(q, Some(Failed(false)), None)]);
    RunSnoc(cfg, Init, es, SigCommand(1, Dropped));
    es := es + [SigCommand(1, Dropped)];
  }
}
