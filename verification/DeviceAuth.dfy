/** The device authorization grant (src/http/routes/device-auth.route.ts; RFC 8628, sections 3.1 to 3.5): three
    handlers over the map of pending devices. No handler awaits anything while it looks at the map: each is a step. */
module DeviceAuth {
  import opened Prelude

  const LIFETIME_MS: nat := 600_000

  /** One pending device. `born` and `approvedAt` (the steps that authorized and activated it) are history. */
  datatype Entry = Entry(device: string, user: string, expiresAt: nat, approved: bool, born: nat, approvedAt: nat)

  /** An access token handed out (history): for which device and user code, and by which steps. */
  datatype Grant = Grant(device: string, user: string, born: nat, approvedAt: nat, issued: nat)

  /** `entries` is the Map in insertion order; `step` counts the events so far. */
  datatype State = State(now: nat, entries: seq<Entry>, grants: seq<Grant>, step: nat)

  const Init := State(0, [], [], 0)

  datatype Event =
    | Authorize(device: string, user: string)
    | Poll(device: string)
    | Activate(user: string)
    | Tick(to: nat)

  datatype Reply = Issued | InvalidGrant | ExpiredToken | AuthorizationPending

  /** The position of a device code, or the number of entries. */
  function Find(entries: seq<Entry>, device: string): (i: nat)
    ensures i <= |entries|
    ensures i < |entries| ==> entries[i].device == device
    ensures forall j :: 0 <= j < i ==> entries[j].device != device
  {
    if entries == [] then 0
    else if entries[0].device == device then 0
    else 1 + Find(entries[1..], device)
  }

  /** The first position of a user code, or the number of entries. */
  function FindUser(entries: seq<Entry>, user: string): (i: nat)
    ensures i <= |entries|
    ensures i < |entries| ==> entries[i].user == user
    ensures forall j :: 0 <= j < i ==> entries[j].user != user
  {
    if entries == [] then 0
    else if entries[0].user == user then 0
    else 1 + FindUser(entries[1..], user)
  }

  function Without(entries: seq<Entry>, i: nat): seq<Entry>
    requires i < |entries|
  {
    entries[..i] + entries[i + 1..]
  }

  /** Map.set: a known device code keeps its place. */
  function Put(entries: seq<Entry>, e: Entry): seq<Entry> {
    var i := Find(entries, e.device);
    if i < |entries| then entries[i := e] else entries + [e]
  }

  function AuthorizeStep(s: State, device: string, user: string): State {
    s.(entries := Put(s.entries, Entry(device, user, s.now + LIFETIME_MS, false, s.step, 0)), step := s.step + 1)
  }

  function AnswerTo(s: State, device: string): Reply {
    var i := Find(s.entries, device);
    if i == |s.entries| then InvalidGrant
    else if s.now > s.entries[i].expiresAt then ExpiredToken
    else if !s.entries[i].approved then AuthorizationPending
    else Issued
  }

  function PollStep(s: State, device: string): State {
    var i := Find(s.entries, device);
    match AnswerTo(s, device)
    case InvalidGrant => s.(step := s.step + 1)
    case AuthorizationPending => s.(step := s.step + 1)
    case ExpiredToken => s.(entries := Without(s.entries, i), step := s.step + 1)
    case Issued =>
      var e := s.entries[i];
      s.(entries := Without(s.entries, i), grants := s.grants + [Grant(device, e.user, e.born, e.approvedAt, s.step)],
         step := s.step + 1)
  }

  predicate Activates(s: State, user: string) {
    var i := FindUser(s.entries, user);
    i < |s.entries| && s.now <= s.entries[i].expiresAt
  }

  function ActivateStep(s: State, user: string): State {
    var i := FindUser(s.entries, user);
    s.(entries := if Activates(s, user) then s.entries[i := s.entries[i].(approved := true, approvedAt := s.step)]
          else s.entries,
       step := s.step + 1)
  }

  function Next(s: State, e: Event): State {
    match e
    case Authorize(device, user) => AuthorizeStep(s, device, user)
    case Poll(device) => PollStep(s, device)
    case Activate(user) => ActivateStep(s, user)
    case Tick(to) => s.(now := if to < s.now then s.now else to, step := s.step + 1)
  }

  function Run(es: seq<Event>): State {
    if es == [] then Init else Next(Run(es[..|es| - 1]), es[|es| - 1])
  }

  // ---------------------------------------------------------------- where every token comes from

  /** Step `born` authorized this device code and user code. */
  ghost predicate BornBy(es: seq<Event>, born: nat, device: string, user: string) {
    born < |es| && es[born] == Authorize(device, user)
  }

  /** Step `at` activated the user code, no earlier than its device was authorized and not after it expired. */
  ghost predicate ActivatedBy(es: seq<Event>, born: nat, at: nat, user: string) {
    born < at < |es| && es[at] == Activate(user) && Run(es[..at]).now <= Run(es[..born]).now + 600_000
  }

  ghost predicate EntryOk(es: seq<Event>, e: Entry) {
    && BornBy(es, e.born, e.device, e.user)
    && e.expiresAt == Run(es[..e.born]).now + 600_000
    && (e.approved ==> ActivatedBy(es, e.born, e.approvedAt, e.user))
  }

  /** A token was asked for by its device code, after an unexpired activation of the user code paired with it, and
      not after the pair expired, ten minutes after it was handed out. */
  ghost predicate GrantOk(es: seq<Event>, g: Grant) {
    && BornBy(es, g.born, g.device, g.user)
    && ActivatedBy(es, g.born, g.approvedAt, g.user)
    && g.approvedAt < g.issued < |es| && es[g.issued] == Poll(g.device)
    && Run(es[..g.issued]).now <= Run(es[..g.born]).now + 600_000
  }

  /** No authorization is behind two tokens, nor behind a token and a pending device; device codes are unique keys. */
  ghost predicate OneEach(s: State) {
    && (forall i, j :: 0 <= i < j < |s.entries| ==>
          s.entries[i].device != s.entries[j].device && s.entries[i].born != s.entries[j].born)
    && (forall i, j :: 0 <= i < j < |s.grants| ==> s.grants[i].born != s.grants[j].born)
    && (forall i, j :: 0 <= i < |s.grants| && 0 <= j < |s.entries| ==> s.grants[i].born != s.entries[j].born)
  }

  /** No activation is behind two tokens, nor behind a token and an approved device. */
  ghost predicate OneApprovalEach(s: State) {
    && (forall i, j :: 0 <= i < j < |s.entries| && s.entries[i].approved && s.entries[j].approved ==>
          s.entries[i].approvedAt != s.entries[j].approvedAt)
    && (forall i, j :: 0 <= i < j < |s.grants| ==> s.grants[i].approvedAt != s.grants[j].approvedAt)
    && (forall i, j :: 0 <= i < |s.grants| && 0 <= j < |s.entries| && s.entries[j].approved ==>
          s.grants[i].approvedAt != s.entries[j].approvedAt)
  }

  ghost predicate Inv(es: seq<Event>) {
    var s := Run(es);
    && s.step == |es|
    && (forall i :: 0 <= i < |s.entries| ==> EntryOk(es, s.entries[i]))
    && (forall i :: 0 <= i < |s.grants| ==> GrantOk(es, s.grants[i]))
    && OneEach(s) && OneApprovalEach(s)
  }

  lemma ActivatedGrows(es: seq<Event>, more: seq<Event>, born: nat, at: nat, user: string)
    requires es <= more && ActivatedBy(es, born, at, user)
    ensures ActivatedBy(more, born, at, user)
  {
    assert more[..at] == es[..at] && more[..born] == es[..born];
  }

  lemma EntryGrows(es: seq<Event>, more: seq<Event>, e: Entry)
    requires es <= more && EntryOk(es, e)
    ensures EntryOk(more, e)
  {
    assert more[..e.born] == es[..e.born];
    if e.approved { ActivatedGrows(es, more, e.born, e.approvedAt, e.user); }
  }

  lemma GrantGrows(es: seq<Event>, more: seq<Event>, g: Grant)
    requires es <= more && GrantOk(es, g)
    ensures GrantOk(more, g)
  {
    assert more[..g.born] == es[..g.born] && more[..g.issued] == es[..g.issued];
    ActivatedGrows(es, more, g.born, g.approvedAt, g.user);
  }

  lemma Snoc(es: seq<Event>, e: Event)
    ensures Run(es + [e]) == Next(Run(es), e) && (es + [e])[..|es|] == es && es <= es + [e]
  {
    assert (es + [e])[..|es + [e]| - 1] == es;
  }

  lemma NewEntryOk(es: seq<Event>, device: string, user: string)
    requires Inv(es)
    ensures var s := Run(es);
            EntryOk(es + [Authorize(device, user)], Entry(device, user, s.now + LIFETIME_MS, false, s.step, 0))
  {
    Snoc(es, Authorize(device, user));
  }

  lemma ActivatedEntryOk(es: seq<Event>, user: string)
    requires Inv(es) && Activates(Run(es), user)
    ensures var s := Run(es);
            EntryOk(es + [Activate(user)],
                  s.entries[FindUser(s.entries, user)].(approved := true, approvedAt := s.step))
  {
    var s := Run(es);
    Snoc(es, Activate(user));
    var e := s.entries[FindUser(s.entries, user)];
    assert EntryOk(es, e);
    EntryGrows(es, es + [Activate(user)], e);
    assert (es + [Activate(user)])[..e.born] == es[..e.born];
  }

  lemma NewGrantOk(es: seq<Event>, device: string)
    requires Inv(es) && AnswerTo(Run(es), device).Issued?
    ensures var s := Run(es); var e := s.entries[Find(s.entries, device)];
            GrantOk(es + [Poll(device)], Grant(device, e.user, e.born, e.approvedAt, s.step))
  {
    var s := Run(es);
    var e := s.entries[Find(s.entries, device)];
    Snoc(es, Poll(device));
    assert EntryOk(es, e);
    ActivatedGrows(es, es + [Poll(device)], e.born, e.approvedAt, e.user);
    assert (es + [Poll(device)])[..e.born] == es[..e.born];
  }

  lemma EntriesStep(es: seq<Event>, e: Event)
    requires Inv(es)
    ensures var t := Next(Run(es), e); forall i :: 0 <= i < |t.entries| ==> EntryOk(es + [e], t.entries[i])
  {
    var s, t := Run(es), Next(Run(es), e);
    forall i | 0 <= i < |t.entries| ensures EntryOk(es + [e], t.entries[i]) {
      OneEntryStep(es, e, i);
    }
  }

  /** Where an entry after a step comes from: an entry before, a new authorization, or an activation. */
  lemma Origins(s: State, e: Event, i: nat) returns (k: nat)
    requires i < |Next(s, e).entries|
    ensures var after := Next(s, e).entries[i];
            || (k < |s.entries| && after == s.entries[k])
            || (e.Authorize? && after == Entry(e.device, e.user, s.now + LIFETIME_MS, false, s.step, 0))
            || (e.Activate? && Activates(s, e.user)
                && after == s.entries[FindUser(s.entries, e.user)].(approved := true, approvedAt := s.step))
  {
    k := i;
    if e.Poll? && |Next(s, e).entries| < |s.entries| {
      var gone := Find(s.entries, e.device);
      WithoutAt(s.entries, gone, i);
      k := if i < gone then i else i + 1;
    }
  }

  lemma OneEntryStep(es: seq<Event>, e: Event, i: nat)
    requires Inv(es) && i < |Next(Run(es), e).entries|
    ensures EntryOk(es + [e], Next(Run(es), e).entries[i])
  {
    var s := Run(es);
    var k := Origins(s, e, i);
    Snoc(es, e);
    if k < |s.entries| && Next(s, e).entries[i] == s.entries[k] {
      assert EntryOk(es, s.entries[k]);
      EntryGrows(es, es + [e], s.entries[k]);
    } else if e.Authorize? {
      NewEntryOk(es, e.device, e.user);
    } else {
      ActivatedEntryOk(es, e.user);
    }
  }

  lemma GrantsStep(es: seq<Event>, e: Event)
    requires Inv(es)
    ensures var t := Next(Run(es), e); forall i :: 0 <= i < |t.grants| ==> GrantOk(es + [e], t.grants[i])
  {
    var s, t := Run(es), Next(Run(es), e);
    Snoc(es, e);
    forall k | 0 <= k < |s.grants| ensures GrantOk(es + [e], s.grants[k]) { GrantGrows(es, es + [e], s.grants[k]); }
    if e.Poll? && AnswerTo(s, e.device).Issued? { NewGrantOk(es, e.device); }
  }

  /** Everything so far was born before now. */
  ghost predicate BornBefore(s: State) {
    && (forall i :: 0 <= i < |s.entries| ==> s.entries[i].born < s.step)
    && (forall i :: 0 <= i < |s.grants| ==> s.grants[i].born < s.step)
  }

  lemma PutKeeps(s: State, e: Entry)
    requires OneEach(s) && BornBefore(s) && e.born == s.step
    ensures OneEach(s.(entries := Put(s.entries, e)))
  {
  }

  lemma WithoutAt(entries: seq<Entry>, i: nat, k: nat)
    requires i < |entries| && k + 1 < |entries|
    ensures Without(entries, i)[k] == entries[if k < i then k else k + 1]
  {
  }

  lemma RemovalKeeps(s: State, i: nat, grants: seq<Grant>)
    requires OneEach(s) && i < |s.entries|
    requires grants == s.grants
               || (|grants| == |s.grants| + 1 && s.grants <= grants && grants[|s.grants|].born == s.entries[i].born)
    ensures OneEach(s.(entries := Without(s.entries, i), grants := grants))
  {
    var t := s.(entries := Without(s.entries, i), grants := grants);
    forall k | 0 <= k < |t.entries|
      ensures t.entries[k] == s.entries[if k < i then k else k + 1] { WithoutAt(s.entries, i, k); }
  }

  lemma PollKeeps(s: State, device: string)
    requires OneEach(s)
    ensures OneEach(PollStep(s, device))
  {
    var reply := AnswerTo(s, device);
    if reply.ExpiredToken? || reply.Issued? {
      RemovalKeeps(s, Find(s.entries, device), PollStep(s, device).grants);
    }
  }

  lemma ActivateKeeps(s: State, user: string)
    requires OneEach(s)
    ensures OneEach(ActivateStep(s, user))
  {
  }

  lemma OneEachStep(s: State, e: Event)
    requires OneEach(s) && BornBefore(s)
    ensures OneEach(Next(s, e))
  {
    match e
    case Authorize(device, user) => PutKeeps(s, Entry(device, user, s.now + LIFETIME_MS, false, s.step, 0));
    case Poll(device) => PollKeeps(s, device);
    case Activate(user) => ActivateKeeps(s, user);
    case Tick(_) =>
  }

  /** Everything so far was approved before now. */
  ghost predicate ApprovedBefore(s: State) {
    && (forall i :: 0 <= i < |s.entries| && s.entries[i].approved ==> s.entries[i].approvedAt < s.step)
    && (forall i :: 0 <= i < |s.grants| ==> s.grants[i].approvedAt < s.step)
  }

  lemma PollKeepsApprovals(s: State, device: string)
    requires OneApprovalEach(s)
    ensures OneApprovalEach(PollStep(s, device))
  {
    var i, t := Find(s.entries, device), PollStep(s, device);
    if |t.entries| < |s.entries| {
      forall k | 0 <= k < |t.entries|
        ensures t.entries[k] == s.entries[if k < i then k else k + 1] { WithoutAt(s.entries, i, k); }
    }
  }

  lemma OneApprovalStep(s: State, e: Event)
    requires OneApprovalEach(s) && ApprovedBefore(s)
    ensures OneApprovalEach(Next(s, e))
  {
    if e.Poll? { PollKeepsApprovals(s, e.device); }
  }

  lemma InvBefore(es: seq<Event>)
    requires Inv(es)
    ensures BornBefore(Run(es)) && ApprovedBefore(Run(es))
  {
    var s := Run(es);
    forall i | 0 <= i < |s.entries|
      ensures s.entries[i].born < s.step && (s.entries[i].approved ==> s.entries[i].approvedAt < s.step)
    {
      assert EntryOk(es, s.entries[i]);
    }
    forall i | 0 <= i < |s.grants| ensures s.grants[i].born < s.step && s.grants[i].approvedAt < s.step {
      assert GrantOk(es, s.grants[i]);
    }
  }

  lemma StepKeeps(es: seq<Event>, e: Event)
    requires Inv(es)
    ensures Inv(es + [e])
  {
    Snoc(es, e);
    EntriesStep(es, e);
    GrantsStep(es, e);
    InvBefore(es);
    OneEachStep(Run(es), e);
    OneApprovalStep(Run(es), e);
    assert Next(Run(es), e).step == |es| + 1;
  }

  lemma {:induction false} RunKeeps(es: seq<Event>)
    ensures Inv(es)
  {
    if es != [] {
      RunKeeps(es[..|es| - 1]);
      StepKeeps(es[..|es| - 1], es[|es| - 1]);
      assert es[..|es| - 1] + [es[|es| - 1]] == es;
    }
  }

  // ---------------------------------------------------------------- the theorems

  /** Every token answers a poll that follows an unexpired activation of its user code and is itself in time. */
  lemma TokensAreEarned(es: seq<Event>, i: nat)
    requires i < |Run(es).grants|
    ensures GrantOk(es, Run(es).grants[i])
  {
    RunKeeps(es);
  }

  /** A device code gets at most one token per authorization: different tokens stem from different ones. */
  lemma OneTokenPerAuthorization(es: seq<Event>, i: nat, j: nat)
    requires i < j < |Run(es).grants|
    ensures Run(es).grants[i].born != Run(es).grants[j].born
  {
    RunKeeps(es);
  }

  /** A user enters a code once and one token at most comes of it, however many devices share the code: different tokens
      stem from different activations. */
  lemma OneTokenPerActivation(es: seq<Event>, i: nat, j: nat)
    requires i < j < |Run(es).grants|
    ensures var g, h := Run(es).grants[i], Run(es).grants[j];
            && g.approvedAt != h.approvedAt
            && ActivatedBy(es, g.born, g.approvedAt, g.user) && ActivatedBy(es, h.born, h.approvedAt, h.user)
  {
    RunKeeps(es);
    assert GrantOk(es, Run(es).grants[i]) && GrantOk(es, Run(es).grants[j]);
  }

  predicate Authorizes(e: Event, device: string) {
    e.Authorize? && e.device == device
  }

  /** A device code handed out once yields at most one token, over any run. */
  lemma FreshCodeOneToken(es: seq<Event>, device: string, i: nat, j: nat)
    requires forall a, b ::
               0 <= a < |es| && 0 <= b < |es| && Authorizes(es[a], device) && Authorizes(es[b], device) ==> a == b
    requires i < |Run(es).grants| && j < |Run(es).grants|
    requires Run(es).grants[i].device == device && Run(es).grants[j].device == device
    ensures i == j
  {
    RunKeeps(es);
    assert GrantOk(es, Run(es).grants[i]) && GrantOk(es, Run(es).grants[j]);
  }

  // ---------------------------------------------------------------- what a poll answers

  predicate Pending(s: State, device: string, i: nat) {
    i < |s.entries| && s.entries[i].device == device
  }

  /** In every state a run reaches: a poll is answered invalid_grant exactly when its device code is not pending; for a
      pending one expired_token exactly when it has expired, authorization_pending exactly when it has not and is not
      approved, and with a token exactly when it has not and is approved. */
  lemma PollAnswersExactly(es: seq<Event>, s: State, device: string)
    requires s == Run(es)
    ensures AnswerTo(s, device) == InvalidGrant <==> forall i: nat :: !Pending(s, device, i)
    ensures forall i: nat :: Pending(s, device, i) ==> AnswersEntry(AnswerTo(s, device), s.entries[i], s.now)
  {
    RunKeeps(es);
    FoundIsPending(s, device);
  }

  /** The reply is the one that fits this entry, and no other's. */
  predicate AnswersEntry(reply: Reply, e: Entry, now: nat) {
    && (reply == ExpiredToken <==> e.expiresAt < now)
    && (reply == AuthorizationPending <==> now <= e.expiresAt && !e.approved)
    && (reply == Issued <==> now <= e.expiresAt && e.approved)
  }

  lemma FoundIsPending(s: State, device: string)
    requires OneEach(s)
    ensures var k := Find(s.entries, device);
            (k < |s.entries| ==> Pending(s, device, k)) && forall i: nat :: Pending(s, device, i) ==> i == k
  {
  }

  /** The pair that step `born` handed out is still pending. */
  ghost predicate StillPending(s: State, born: nat) {
    exists i :: 0 <= i < |s.entries| && s.entries[i].born == born
  }

  /** A step takes a pending device away if and only if it is a poll of this device that is answered expired_token or
      with a token, or the device code is handed out anew. */
  lemma LeavesExactly(s: State, e: Event, i: nat)
    requires OneEach(s) && BornBefore(s) && i < |s.entries|
    ensures var d := s.entries[i].device;
            StillPending(Next(s, e), s.entries[i].born) <==>
              !(e.Authorize? && e.device == d)
              && !(e == Poll(d) && (s.entries[i].expiresAt < s.now || s.entries[i].approved))
  {
    var t, d := Next(s, e), s.entries[i].device;
    match e
    case Authorize(device, _) => if device != d { assert t.entries[i] == s.entries[i]; }
    case Activate(_) => assert t.entries[i].born == s.entries[i].born;
    case Tick(_) => assert t.entries[i] == s.entries[i];
    case Poll(device) => PollLeaves(s, device, i);
  }

  lemma PollLeaves(s: State, device: string, i: nat)
    requires OneEach(s) && i < |s.entries|
    ensures StillPending(PollStep(s, device), s.entries[i].born) <==>
              !(device == s.entries[i].device && (s.entries[i].expiresAt < s.now || s.entries[i].approved))
  {
    var k, t := Find(s.entries, device), PollStep(s, device);
    if |t.entries| == |s.entries| {
      assert t.entries[i].born == s.entries[i].born;
    } else {
      forall j | 0 <= j < |t.entries| ensures t.entries[j] == s.entries[if j < k then j else j + 1] {
        WithoutAt(s.entries, k, j);
      }
      if i != k { assert t.entries[if i < k then i else i - 1] == s.entries[i]; }
    }
  }

  /** A token is handed out, and recorded, exactly by a poll that is answered with one. */
  lemma OneGrantPerAnswer(s: State, e: Event)
    ensures var t := Next(s, e);
            if e.Poll? && AnswerTo(s, e.device) == Issued
            then |t.grants| == |s.grants| + 1 && s.grants <= t.grants && t.grants[|s.grants|].device == e.device
            else t.grants == s.grants
    ensures s.now <= Next(s, e).now
  {
  }

  // ---------------------------------------------------------------- an approved device gets its token

  ghost predicate Approved(s: State, device: string, until: nat) {
    exists i :: 0 <= i < |s.entries| && s.entries[i].device == device && s.entries[i].approved
          && s.entries[i].expiresAt == until
  }

  predicate Concerns(e: Event, device: string) {
    match e
    case Authorize(d, _) => d == device
    case Poll(d) => d == device
    case _ => false
  }

  lemma WithoutKeeps(entries: seq<Entry>, i: nat, k: nat)
    requires i < |entries| && k < |entries| && k != i
    ensures entries[k] in Without(entries, i)
  {
    assert entries[k] == Without(entries, i)[if k < i then k else k - 1];
  }

  lemma ApprovedStep(s: State, e: Event, device: string, until: nat)
    requires Approved(s, device, until) && !Concerns(e, device)
    ensures Approved(Next(s, e), device, until)
  {
    var k :| 0 <= k < |s.entries| && s.entries[k].device == device && s.entries[k].approved
          && s.entries[k].expiresAt == until;
    var t := Next(s, e);
    match e
    case Poll(d) =>
      var i := Find(s.entries, d);
      if i < |s.entries| { WithoutKeeps(s.entries, i, k); }
    case Authorize(d, u) => assert t.entries[k] == s.entries[k];
    case Activate(u) => assert t.entries[k].approved && t.entries[k].device == device
          && t.entries[k].expiresAt == until;
    case Tick(_) => assert t.entries[k] == s.entries[k];
  }

  /** Once activated, a device that polls in time gets its token, whatever the other devices and users did meanwhile,
      and its code is spent. */
  lemma ApprovedDeviceServed(s: State, device: string, until: nat)
    requires Approved(s, device, until) && OneEach(s) && s.now <= until
    ensures AnswerTo(s, device).Issued?
    ensures AnswerTo(Next(s, Poll(device)), device).InvalidGrant?
  {
    var i := Find(s.entries, device);
    var k :| 0 <= k < |s.entries| && s.entries[k].device == device && s.entries[k].approved
          && s.entries[k].expiresAt == until;
    assert i == k;
    var t := Next(s, Poll(device));
    forall j | 0 <= j < |t.entries| ensures t.entries[j].device != device {
      assert t.entries[j] == s.entries[if j < i then j else j + 1];
    }
  }

  /** Position `k` is the first with its user code. */
  ghost predicate FirstWithCode(entries: seq<Entry>, k: nat) {
    k < |entries| && forall j :: 0 <= j < k ==> entries[j].user != entries[k].user
  }

  /** An activation approves a pending device if and only if its user code is the one entered, it has not expired, and
      no earlier device, expired or not, has the same code; no other device's approval changes. */
  lemma ActivatesExactly(s: State, user: string, k: nat)
    requires k < |s.entries|
    ensures var t := Next(s, Activate(user));
            && |t.entries| == |s.entries|
            && (t.entries[k].approved <==>
                  s.entries[k].approved
                  || (s.entries[k].user == user && s.now <= s.entries[k].expiresAt && FirstWithCode(s.entries, k)))
  {
    var i := FindUser(s.entries, user);
    if FirstWithCode(s.entries, k) && s.entries[k].user == user { assert i == k; }
  }

  /** So an earlier device with the same code shadows a live one: here an expired one, until it is polled away. */
  lemma ExpiredCodeShadows(user: string)
    ensures var s := Run([Authorize("a", user), Tick(LIFETIME_MS + 1), Authorize("b", user)]);
            && |s.entries| == 2 && s.entries[1].device == "b" && s.entries[1].user == user
                  && s.now <= s.entries[1].expiresAt
            && !Activates(s, user)
            && Activates(Next(s, Poll("a")), user)
  {
    var a, b := Entry("a", user, LIFETIME_MS, false, 0, 0), Entry("b", user, 2 * LIFETIME_MS + 1, false, 2, 0);
    var first: seq<Event> := [Authorize("a", user)];
    assert Run([]) == Init && first == [] + first;
    Snoc([], first[0]);
    assert Run(first) == State(0, [a], [], 1);
    Snoc(first, Tick(LIFETIME_MS + 1));
    var second := first + [Tick(LIFETIME_MS + 1)];
    assert Run(second) == State(LIFETIME_MS + 1, [a], [], 2);
    Snoc(second, Authorize("b", user));
    var third := second + [Authorize("b", user)];
    assert third == [Authorize("a", user), Tick(LIFETIME_MS + 1), Authorize("b", user)];
    assert Run(third) == State(LIFETIME_MS + 1, [a, b], [], 3);
    assert Without([a, b], 0) == [b];
  }

  // ---------------------------------------------------------------- the handlers

  class DeviceFlow {
    var now: nat
    var entries: seq<Entry>
    var grants: seq<Grant>
    var step: nat

    constructor ()
      ensures View() == Init
    {
      now, entries, grants, step := 0, [], [], 0;
    }

    function View(): State
      reads this
    {
      State(now, entries, grants, step)
    }

    /** POST /device/authorize with freshly generated codes. */
    method PostAuthorize(device: string, user: string)
      modifies this
      ensures View() == Next(old(View()), Authorize(device, user))
    {
      var added := Entry(device, user, now + LIFETIME_MS, false, step, 0);
      var i := 0;
      while i < |entries| && entries[i].device != device
        invariant i <= |entries| && forall j :: 0 <= j < i ==> entries[j].device != device
      {
        i := i + 1;
      }
      if i < |entries| { entries := entries[i := added]; } else { entries := entries + [added]; }
      step := step + 1;
    }

    method Get(device: string) returns (i: nat)
      ensures i == Find(entries, device)
    {
      i := 0;
      while i < |entries| && entries[i].device != device
        invariant i <= |entries| && forall j :: 0 <= j < i ==> entries[j].device != device
      {
        i := i + 1;
      }
    }

    /** POST /device/token: the errors of section 3.5 of RFC 8628 in the order the code checks them. */
    method PostToken(device: string) returns (reply: Reply)
      modifies this
      ensures View() == Next(old(View()), Poll(device)) && reply == AnswerTo(old(View()), device)
    {
      var i := Get(device);
      step := step + 1;
      if i == |entries| { return InvalidGrant; }
      var pending := entries[i];
      if now > pending.expiresAt {
        entries := Without(entries, i);
        return ExpiredToken;
      }
      if !pending.approved { return AuthorizationPending; }
      grants := grants + [Grant(device, pending.user, pending.born, pending.approvedAt, step - 1)];
      entries := Without(entries, i);
      reply := Issued;
    }

    /** POST /device/activate: the first pending device with this user code, if it has not expired. */
    method PostActivate(user: string) returns (ok: bool)
      modifies this
      ensures View() == Next(old(View()), Activate(user)) && ok == Activates(old(View()), user)
    {
      var i := 0;
      while i < |entries| && entries[i].user != user
        invariant i <= |entries| && forall j :: 0 <= j < i ==> entries[j].user != user
      {
        i := i + 1;
      }
      step := step + 1;
      if i == |entries| || now > entries[i].expiresAt { return false; }
      entries := entries[i := entries[i].(approved := true, approvedAt := step - 1)];
      ok := true;
    }
  }
}
