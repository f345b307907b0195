/** What verifyPayment guarantees about replay, about its Redis keys and about its rows. */
module VerifyTheorems {
  import opened Prelude
  import opened Hex
  import opened Registry
  import opened VerifyPayment

  ghost predicate Reachable(cfg: Config, s: State) {
    exists es :: s == Run(cfg, Init, es)
  }

  lemma ReachableInv(cfg: Config, s: State)
    requires Reachable(cfg, s)
    ensures Inv(cfg, s)
  {
    var es :| s == Run(cfg, Init, es);
    RunKeeps(cfg, Init, es);
  }

  // ---------------------------------------------------------------- replay

  /** Two calls are never both accepted for one nonce or one signature, whatever expires, crashes or is lost. */
  lemma AcceptedOnce(cfg: Config, s: State, c: CallerId, d: CallerId)
    requires Reachable(cfg, s) && c in s.callers && d in s.callers && c != d
    requires s.callers[c].Done? && s.callers[c].result.Accepted?
    requires s.callers[d].Done? && s.callers[d].result.Accepted?
    ensures s.callers[c].p.body.auth.nonce != s.callers[d].p.body.auth.nonce
    ensures SigOf(s.callers[c].p.body) != SigOf(s.callers[d].p.body)
  {
    ReachableInv(cfg, s);
    AcceptedRow(s, c);
    AcceptedRow(s, d);
  }

  /** The row of an accepted call is its own and stands under its nonce and its signature. */
  lemma AcceptedRow(s: State, c: CallerId)
    requires TablesOk(s) && ResultsOk(s) && c in s.callers && s.callers[c].Done? && s.callers[c].result.Accepted?
    ensures var r := s.callers[c].result.request; var p := s.callers[c].p;
            && r in s.requests && s.requests[r] == RecordOf(p.body) && s.origin[r] == Origin(p, c)
            && p.body.auth.nonce in s.nonceIndex && s.nonceIndex[p.body.auth.nonce] == r
            && Lower(p.body.signature) in s.sigIndex && s.sigIndex[Lower(p.body.signature)] == r
  {
    assert Committed(s.callers[c]).Some?;
    assert RequestOk(s, s.callers[c].result.request);
  }

  /** An accepted proof passed every check, and its request row is its record. */
  lemma AcceptedIsChecked(cfg: Config, s: State, c: CallerId)
    requires Reachable(cfg, s) && c in s.callers && s.callers[c].Done? && s.callers[c].result.Accepted?
    ensures var p := s.callers[c].p; var r := s.callers[c].result.request;
            && r in s.requests && s.requests[r] == RecordOf(p.body)
            && Checked(cfg, p) && p.at < p.body.auth.validBefore
            && Lower(p.body.auth.to) == Lower(p.body.recipient) && p.body.auth.value >= p.body.requiredAmount
  {
    ReachableInv(cfg, s);
    AcceptedRow(s, c);
  }

  // ---------------------------------------------------------------- keys

  ghost predicate NoExpiry(es: seq<Event>) {
    forall i :: 0 <= i < |es| ==> !es[i].KeyExpires?
  }

  lemma {:induction false} RunKeysExact(cfg: Config, es: seq<Event>)
    requires NoExpiry(es)
    ensures KeysExact(Run(cfg, Init, es))
  {
    if es != [] {
      RunKeysExact(cfg, es[..|es| - 1]);
      NextKeysExact(cfg, Run(cfg, Init, es[..|es| - 1]), es[|es| - 1]);
    }
  }

  /** Exact key accounting: without expiry the live keys are exactly the ones held by some call, every key is held by
      one call only, and so a finished call's keys are the two of an accepted proof, none after a rejection, and
      after an abort the ones it had not released. */
  lemma ExactKeyAccounting(cfg: Config, es: seq<Event>, k: Key)
    requires NoExpiry(es)
    ensures var s := Run(cfg, Init, es);
            && (k in s.keys <==> exists c :: c in s.callers && k in Held(s.callers[c]))
            && (forall c, d ::
                  c in s.callers && d in s.callers && k in Held(s.callers[c]) && k in Held(s.callers[d]) ==> c == d)
  {
    RunKeysExact(cfg, es);
    KeyHolders(Run(cfg, Init, es), k);
  }

  lemma KeyHolders(s: State, k: Key)
    requires KeysExact(s)
    ensures k in s.keys <==> exists c :: c in s.callers && k in Held(s.callers[c])
    ensures forall c, d :: c in s.callers && d in s.callers && k in Held(s.callers[c]) && k in Held(s.callers[d]) ==>
              c == d
  {
    if k in s.keys { assert k in Held(s.callers[s.keys[k]]); }
  }

  /** What a call owns in the stores, read off its outcome. */
  lemma Leavings(s: State, c: CallerId)
    requires KeysExact(s) && ResultsOk(s) && c in s.callers
    ensures forall k :: k in s.keys && s.keys[k] == c <==> k in Held(s.callers[c])
    ensures (exists r :: r in s.origin && s.origin[r].caller == c) <==> Committed(s.callers[c]).Some?
  {
  }

  lemma NextKeys(cfg: Config, s: State, e: Event)
    requires !e.KeyExpires?
    ensures var keys := Next(cfg, s, e).keys;
            keys == s.keys || (e.Act? && e.c in s.callers && keys == Effect(s, e.c, s.callers[e.c], e.id).keys)
  {
  }

  lemma EffectDeletesOwn(s: State, c: CallerId, pc: Pc, id: RequestId, k: Key)
    requires KeysExact(s) && c in s.callers && pc == s.callers[c]
    requires k in s.keys && k !in Effect(s, c, pc, id).keys
    ensures s.keys[k] == c
  {
    EffectKeys(s, c, pc, id);
    assert k in Held(pc);
  }

  /** Only the call that created a key ever deletes it. */
  lemma OnlyOwnerDeletes(cfg: Config, s: State, e: Event, k: Key)
    requires KeysExact(s) && !e.KeyExpires?
    requires k in s.keys && k !in Next(cfg, s, e).keys
    ensures e.Act? && s.keys[k] == e.c
  {
    NextKeys(cfg, s, e);
    EffectDeletesOwn(s, e.c, s.callers[e.c], e.id, k);
  }

  // ---------------------------------------------------------------- what a call leaves behind

  /** In every run without expiry: what a finished call leaves behind is exactly what its outcome records. A throw
      leaves keys only after an abort that held some, and rows only when its commit went unacknowledged. */
  lemma WhatAThrowLeaves(cfg: Config, es: seq<Event>, c: CallerId)
    requires NoExpiry(es)
    ensures var s := Run(cfg, Init, es);
            c in s.callers && s.callers[c].Done? ==>
              && (forall k :: k in s.keys && s.keys[k] == c <==> k in Held(s.callers[c]))
              && ((exists r :: r in s.origin && s.origin[r].caller == c) <==> Committed(s.callers[c]).Some?)
  {
    RunKeysExact(cfg, es);
    RunKeeps(cfg, Init, es);
    if c in Run(cfg, Init, es).callers { Leavings(Run(cfg, Init, es), c); }
  }

  /** The keys call `c` leaves for good when step `e` ends it in state `s`: by its last await and that await's reply. */
  function LeftBehind(s: State, e: Event, pc: Pc): set<Key> {
    var nonce, sig := NonceOf(pc.p.body), SigOf(pc.p.body);
    match pc
    case ClaimingNonce(_) => if e.Act? && e.reply.ReplyLost? && nonce !in s.keys then {nonce} else {}
    case ClaimingSig(_) => if e.Act? && e.reply.ReplyLost? && sig !in s.keys then {nonce, sig} else {nonce}
    case ReleasingNonce(_) => if e.Act? && !e.reply.Dropped? then {} else {nonce}
    case Recovering(_) => {nonce, sig}
    case Persisting(_) => {nonce, sig}
    case RollingNonce(_, _, _) => if e.Act? && e.reply.ReplyLost? then {sig} else {nonce, sig}
    case RollingSig(_, _, _) => if e.Act? && !e.reply.Dropped? then {} else {sig}
    case Done(_, _) => {}
  }

  /** Step `e` finishes call `c`. */
  predicate Ends(cfg: Config, s: State, e: Event, c: CallerId) {
    var t := Next(cfg, s, e);
    c in t.callers && t.callers[c].Done? && (c in s.callers ==> !s.callers[c].Done?)
  }

  /** What it leaves: nothing when the checks before the first await already refuse it. */
  function Left(s: State, e: Event, c: CallerId): set<Key> {
    if c in s.callers then LeftBehind(s, e, s.callers[c]) else {}
  }

  lemma EndHeld(cfg: Config, s: State, e: Event, c: CallerId)
    requires Ends(cfg, s, e, c)
    ensures Held(Next(cfg, s, e).callers[c]) == Left(s, e, c)
  {
    if c in s.callers {
      if e.Act? { EndByAct(cfg, s, c, e.reply, e.id); }
    } else {
      StartHoldsNothing(cfg, e.p);
    }
  }

  lemma StartHoldsNothing(cfg: Config, p: Proof)
    ensures Held(Start(cfg, p)) == {}
  {
  }

  lemma EndByAct(cfg: Config, s: State, c: CallerId, reply: Reply, id: RequestId)
    requires c in s.callers && !s.callers[c].Done? && ActStep(cfg, s, c, reply, id).callers[c].Done?
    ensures Held(ActStep(cfg, s, c, reply, id).callers[c]) == LeftBehind(s, Act(c, reply, id), s.callers[c])
  {
    HeldStep(cfg, s, s.callers[c], reply, id);
  }

  lemma DoneStays(cfg: Config, s: State, e: Event, c: CallerId)
    requires c in s.callers && s.callers[c].Done?
    ensures c in Next(cfg, s, e).callers && Next(cfg, s, e).callers[c] == s.callers[c]
  {
  }

  lemma {:induction false} DoneStaysRun(cfg: Config, es: seq<Event>, c: CallerId, n: nat)
    requires n <= |es| && var s := Run(cfg, Init, es[..n]); c in s.callers && s.callers[c].Done?
    ensures var t := Run(cfg, Init, es); c in t.callers && t.callers[c] == Run(cfg, Init, es[..n]).callers[c]
  {
    if n < |es| {
      var init := es[..|es| - 1];
      assert init[..n] == es[..n];
      DoneStaysRun(cfg, init, c, n);
      DoneStays(cfg, Run(cfg, Init, init), es[|es| - 1], c);
    } else {
      assert es[..n] == es;
    }
  }

  /** Exactly what a finished call leaves in Redis, over every run without expiry: the keys that its last await and that
      await's reply say, whatever else it and everybody else did. */
  lemma LeavesExactly(cfg: Config, es: seq<Event>, c: CallerId, i: nat)
    requires NoExpiry(es) && i < |es| && Ends(cfg, Run(cfg, Init, es[..i]), es[i], c)
    ensures var t := Run(cfg, Init, es);
            forall k :: k in t.keys && t.keys[k] == c <==> k in Left(Run(cfg, Init, es[..i]), es[i], c)
  {
    var s := Run(cfg, Init, es[..i]);
    assert es[..i + 1] == es[..i] + [es[i]];
    RunSnoc(cfg, Init, es[..i], es[i]);
    DoneStaysRun(cfg, es, c, i + 1);
    EndHeld(cfg, s, es[i], c);
    WhatAThrowLeaves(cfg, es, c);
  }

  /** Every finished call was finished by some step. */
  lemma {:induction false} SomethingEnded(cfg: Config, es: seq<Event>, c: CallerId) returns (i: nat)
    requires var t := Run(cfg, Init, es); c in t.callers && t.callers[c].Done?
    ensures i < |es| && Ends(cfg, Run(cfg, Init, es[..i]), es[i], c)
  {
    var init := es[..|es| - 1];
    var s := Run(cfg, Init, init);
    if c in s.callers && s.callers[c].Done? {
      i := SomethingEnded(cfg, init, c);
      assert init[..i] == es[..i];
    } else {
      i := |es| - 1;
    }
  }

  /** Some step committed the persisting transaction of call `c`. */
  ghost predicate EverCommitted(cfg: Config, es: seq<Event>, c: CallerId) {
    es != []
    && (EverCommitted(cfg, es[..|es| - 1], c) || Commits(Run(cfg, Init, es[..|es| - 1]), es[|es| - 1], c))
  }

  lemma {:induction false} CommittedExactly(cfg: Config, es: seq<Event>, c: CallerId)
    ensures var t := Run(cfg, Init, es);
            (c in t.callers && Committed(t.callers[c]).Some?) <==> EverCommitted(cfg, es, c)
  {
    if es != [] {
      var init, e := es[..|es| - 1], es[|es| - 1];
      CommittedExactly(cfg, init, c);
      CommitStep(cfg, Run(cfg, Init, init), e, c);
    }
  }

  lemma CommitStep(cfg: Config, s: State, e: Event, c: CallerId)
    ensures var t := Next(cfg, s, e);
            (c in t.callers && Committed(t.callers[c]).Some?) <==>
              (c in s.callers && Committed(s.callers[c]).Some?) || Commits(s, e, c)
  {
    if c in Next(cfg, s, e).callers { NextCommits(cfg, s, e, c); }
  }

  /** Exactly when a call leaves a row: when its persisting transaction took effect, heard of or not, in every run. */
  lemma LeavesRowExactly(cfg: Config, es: seq<Event>, c: CallerId)
    ensures (exists r :: r in Run(cfg, Init, es).origin && Run(cfg, Init, es).origin[r].caller == c) <==>
              EverCommitted(cfg, es, c)
  {
    RunKeeps(cfg, Init, es);
    CommittedExactly(cfg, es, c);
  }

  // ---------------------------------------------------------------- when releases succeed

  /** A DEL of a rollback is answered, and the call does not crash. */
  ghost predicate ReleasesSucceed(cfg: Config, es: seq<Event>) {
    forall i :: 0 <= i < |es| ==> !es[i].Crash? && ReleaseAnswered(Run(cfg, Init, es[..i]), es[i])
  }

  predicate ReleaseAnswered(s: State, e: Event) {
    e.Act? && e.c in s.callers
          && (s.callers[e.c].ReleasingNonce? || s.callers[e.c].RollingNonce? || s.callers[e.c].RollingSig?)
    ==> e.reply.Delivered?
  }

  /** A claim throws after it, or the claim before it, has set a key: claimNonce and claimSignatureHash stand outside
      every try block (src/application/verify-payment.ts:121 and :130). */
  predicate ClaimLeaks(s: State, e: Event, c: CallerId) {
    && e.Act? && e.c == c && c in s.callers && !e.reply.Delivered?
    && (s.callers[c].ClaimingSig?
        || (s.callers[c].ClaimingNonce? && e.reply.ReplyLost? && NonceOf(s.callers[c].p.body) !in s.keys))
  }

  lemma EndLeaves(cfg: Config, s: State, e: Event, c: CallerId)
    requires Ends(cfg, s, e, c) && !e.Crash? && ReleaseAnswered(s, e)
    ensures Left(s, e, c) != {} <==> ClaimLeaks(s, e, c) || Next(cfg, s, e).callers[c].result.Accepted?
  {
    if c in s.callers {
      var pc := s.callers[c];
      assert NonceOf(pc.p.body) in {NonceOf(pc.p.body)} && NonceOf(pc.p.body) in {NonceOf(pc.p.body), SigOf(pc.p.body)};
    }
  }

  /** Restore on failure, exactly: without expiry or crash, and when every release is answered, a finished call leaves a
      key if and only if it was accepted or one of its two claims threw with a key set; rows are LeavesRowExactly. */
  lemma FailureLeavesExactly(cfg: Config, es: seq<Event>, c: CallerId, i: nat)
    requires NoExpiry(es) && ReleasesSucceed(cfg, es)
    requires i < |es| && Ends(cfg, Run(cfg, Init, es[..i]), es[i], c)
    ensures var t := Run(cfg, Init, es);
            && c in t.callers && t.callers[c].Done?
            && ((exists k :: k in t.keys && t.keys[k] == c) <==>
                  t.callers[c].result.Accepted? || ClaimLeaks(Run(cfg, Init, es[..i]), es[i], c))
  {
    assert es[..i + 1] == es[..i] + [es[i]];
    RunSnoc(cfg, Init, es[..i], es[i]);
    DoneStaysRun(cfg, es, c, i + 1);
    LeavesExactly(cfg, es, c, i);
    EndLeaves(cfg, Run(cfg, Init, es[..i]), es[i], c);
    OwnsSome(Run(cfg, Init, es), c, Left(Run(cfg, Init, es[..i]), es[i], c));
  }

  lemma OwnsSome(t: State, c: CallerId, left: set<Key>)
    requires forall k :: k in t.keys && t.keys[k] == c <==> k in left
    ensures (exists k :: k in t.keys && t.keys[k] == c) <==> left != {}
  {
    if left != {} {
      var k :| k in left;
      assert k in t.keys && t.keys[k] == c;
    }
  }

  /** The run in which claimSignatureHash throws without effect and nothing else happens. */
  function ThrownClaim(p: Proof, id: RequestId): seq<Event> {
    [Begin(1, p)] + [Act(1, Delivered, id)] + [Act(1, Dropped, id)]
  }

  /** The leak is real for every proof that passes the checks: in that run nothing crashes or expires, every release is
      answered (there is none), its last step is a claim that leaks, and the nonce key stays without a row. */
  lemma ThrownClaimLeaves(cfg: Config, p: Proof, id: RequestId)
    requires Precheck(cfg, p).None?
    ensures var es := ThrownClaim(p, id);
            && NoExpiry(es) && ReleasesSucceed(cfg, es)
            && Ends(cfg, Run(cfg, Init, es[..2]), es[2], 1) && ClaimLeaks(Run(cfg, Init, es[..2]), es[2], 1)
    ensures var s := Run(cfg, Init, ThrownClaim(p, id));
            s.keys == map[NonceOf(p.body) := 1] && s.requests == map[]
  {
    var one: seq<Event> := [Begin(1, p)];
    var two := one + [Act(1, Delivered, id)];
    var es := ThrownClaim(p, id);
    assert [] + one == one;
    RunSnoc(cfg, Init, [], Begin(1, p));
    assert Run(cfg, Init, one) == Init.(callers := map[1 := ClaimingNonce(p)]);
    RunSnoc(cfg, Init, one, Act(1, Delivered, id));
    assert Run(cfg, Init, two) == Init.(keys := map[NonceOf(p.body) := 1], callers := map[1 := ClaimingSig(p)]);
    RunSnoc(cfg, Init, two, Act(1, Dropped, id));
    assert es[..2] == two && es[..1] == one && es[..0] == [];
    forall i | 0 <= i < |es| ensures !es[i].Crash? && ReleaseAnswered(Run(cfg, Init, es[..i]), es[i]) {
      if i == 0 { assert ReleaseAnswered(Run(cfg, Init, es[..0]), es[0]); }
      else if i == 1 { assert ReleaseAnswered(Run(cfg, Init, es[..1]), es[1]); }
      else { assert ReleaseAnswered(Run(cfg, Init, es[..2]), es[2]); }
    }
  }
}
