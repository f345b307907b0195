/** The token contract as the facilitator sees it: EIP-3009 transferWithAuthorization over a public mempool
    (the Specification section of EIP-3009; src/settlement/on-chain.ts for how it is called). */
module Chain {
  import opened Prelude
  import opened Hex

  datatype Authorization = Authorization(
    from: Bytes, to: Bytes, value: nat, validAfter: nat, validBefore: nat, nonce: Bytes)

  /** `v` is None when the signature text is too short to hold byte 64. */
  datatype Signature = Signature(v: Option<Byte>, r: Bytes, s: Bytes)

  datatype Call = Call(asset: Bytes, auth: Authorization, sig: Signature)

  datatype TxStatus = Mempool | Success | Reverted

  datatype Tx = Tx(call: Call, status: TxStatus)

  /** An authorization is spent per token contract, holder and nonce. */
  datatype AuthKey = AuthKey(asset: Bytes, from: Bytes, nonce: Bytes)

  /** Transactions are named by their position: a hash identifies one broadcast. */
  type TxHash = nat

  /** `used` is authorizationState; the value it stores (the transaction that spent the key) is history only. */
  datatype State = State(now: nat, used: map<AuthKey, TxHash>, txs: seq<Tx>)

  const Genesis: State := State(0, map[], [])

  function KeyOf(call: Call): AuthKey {
    AuthKey(call.asset, call.auth.from, call.auth.nonce)
  }

  function Broadcast(s: State, call: Call): State {
    s.(txs := s.txs + [Tx(call, Mempool)])
  }

  /** EIP-3009's requirements: inside the validity window and not used before. `accepted` stands for everything
      else the contract decides (signature recovery, balance, pausing). */
  predicate Executable(s: State, call: Call, accepted: bool) {
    accepted && call.auth.validAfter < s.now < call.auth.validBefore && KeyOf(call) !in s.used
  }

  function Mine(s: State, h: TxHash, accepted: bool): State {
    if h < |s.txs| && s.txs[h].status.Mempool? then
      if Executable(s, s.txs[h].call, accepted) then
        s.(used := s.used[KeyOf(s.txs[h].call) := h], txs := s.txs[h := s.txs[h].(status := Success)])
      else
        s.(txs := s.txs[h := s.txs[h].(status := Reverted)])
    else s
  }

  function Tick(s: State, t: nat): State {
    if t < s.now then s else s.(now := t)
  }

  predicate Succeeded(s: State, h: int) {
    0 <= h < |s.txs| && s.txs[h].status.Success?
  }

  /** An authorization moves money at most once, and `used` records exactly the ones that did. */
  ghost predicate Inv(s: State) {
    && (forall h :: Succeeded(s, h) ==> KeyOf(s.txs[h].call) in s.used && s.used[KeyOf(s.txs[h].call)] == h)
    && (forall k :: k in s.used ==> Succeeded(s, s.used[k]) && KeyOf(s.txs[s.used[k]].call) == k)
  }

  /** EIP-3009's promise: one holder's nonce moves that token at most once. */
  lemma AuthorizationSpentOnce(s: State, g: TxHash, h: TxHash)
    requires Inv(s) && Succeeded(s, g) && Succeeded(s, h)
    requires KeyOf(s.txs[g].call) == KeyOf(s.txs[h].call)
    ensures g == h
  {
    assert s.used[KeyOf(s.txs[g].call)] == g;
  }

  /** What later chain states keep: broadcasts are never forgotten and a mined status is final. */
  ghost predicate Extends(s: State, t: State) {
    && |s.txs| <= |t.txs|
    && (forall h {:trigger t.txs[h]} {:trigger s.txs[h]} :: 0 <= h < |s.txs| ==>
          t.txs[h].call == s.txs[h].call && (s.txs[h].status.Mempool? || t.txs[h].status == s.txs[h].status))
  }

  lemma BroadcastKeeps(s: State, call: Call)
    requires Inv(s)
    ensures Inv(Broadcast(s, call)) && Extends(s, Broadcast(s, call))
  {
    var t := Broadcast(s, call);
    assert forall h :: Succeeded(t, h) <==> Succeeded(s, h);
  }

  lemma MineKeeps(s: State, h: TxHash, accepted: bool)
    requires Inv(s)
    ensures Inv(Mine(s, h, accepted)) && Extends(s, Mine(s, h, accepted))
  {
    var t := Mine(s, h, accepted);
    assert forall g :: Succeeded(t, g) && g != h ==> Succeeded(s, g);
    assert forall g :: Succeeded(s, g) ==> Succeeded(t, g);
  }

  /** Some transfer of this token by this holder under this nonce has succeeded. */
  ghost predicate AlreadySpent(s: State, call: Call) {
    exists g :: Succeeded(s, g) && s.txs[g].call.asset == call.asset
                && s.txs[g].call.auth.from == call.auth.from && s.txs[g].call.auth.nonce == call.auth.nonce
  }

  lemma SpentExactly(s: State, call: Call)
    requires Inv(s)
    ensures KeyOf(call) in s.used <==> AlreadySpent(s, call)
  {
    if KeyOf(call) in s.used {
      var g := s.used[KeyOf(call)];
      assert Succeeded(s, g) && KeyOf(s.txs[g].call) == KeyOf(call);
      assert KeyOf(call).asset == call.asset && KeyOf(call).from == call.auth.from
               && KeyOf(call).nonce == call.auth.nonce;
    }
    if g :| Succeeded(s, g) && s.txs[g].call.asset == call.asset
            && s.txs[g].call.auth.from == call.auth.from && s.txs[g].call.auth.nonce == call.auth.nonce {
      assert KeyOf(s.txs[g].call) == KeyOf(call);
    }
  }

  /** A block decides every transaction it takes from the mempool: it succeeds if and only if the contract accepts it,
      strictly inside its validity window, and no transfer of the same token by the same holder under the same nonce has
      succeeded before; otherwise it reverts. Nothing else changes. */
  lemma MinesExactly(s: State, h: TxHash, accepted: bool)
    requires Inv(s) && h < |s.txs| && s.txs[h].status.Mempool?
    ensures var t := Mine(s, h, accepted); var auth := s.txs[h].call.auth;
            && t.now == s.now && |t.txs| == |s.txs| && (forall g :: 0 <= g < |s.txs| && g != h ==> t.txs[g] == s.txs[g])
            && t.txs[h].call == s.txs[h].call
            && t.txs[h].status == if accepted && auth.validAfter < s.now && s.now < auth.validBefore
                                     && !AlreadySpent(s, s.txs[h].call) then Success else Reverted
  {
    SpentExactly(s, s.txs[h].call);
  }

  // ---------------------------------------------------------------- money moved

  /** Total value moved by successful transfers. */
  function Moved(txs: seq<Tx>): nat {
    if txs == [] then 0
    else
      var last := txs[|txs| - 1];
      Moved(txs[..|txs| - 1]) + if last.status.Success? then last.call.auth.value else 0
  }

  /** Striking one successful transfer out of the log removes exactly its value. */
  lemma {:induction false} MovedWithout(txs: seq<Tx>, h: TxHash)
    requires h < |txs| && txs[h].status.Success?
    ensures Moved(txs) == Moved(txs[h := txs[h].(status := Reverted)]) + txs[h].call.auth.value
  {
    var n := |txs| - 1;
    var struck := txs[h := txs[h].(status := Reverted)];
    if h == n {
      assert struck[..n] == txs[..n];
    } else {
      MovedWithout(txs[..n], h);
      assert struck[..n] == txs[..n][h := txs[h].(status := Reverted)];
    }
  }

  /** The log as if nobody's transactions but those in `own` had succeeded. */
  function Only(txs: seq<Tx>, own: set<TxHash>): (only: seq<Tx>)
    ensures |only| == |txs|
  {
    seq(|txs|, h requires 0 <= h < |txs| => if h in own then txs[h] else txs[h].(status := Reverted))
  }

  /** ... which moved at most what everybody's together moved. */
  lemma {:induction false} OnlyMovesLess(txs: seq<Tx>, own: set<TxHash>)
    ensures Moved(Only(txs, own)) <= Moved(txs)
  {
    if txs != [] {
      var n := |txs| - 1;
      OnlyMovesLess(txs[..n], own);
      assert Only(txs, own)[..n] == Only(txs[..n], own);
    }
  }

  // ---------------------------------------------------------------- the relayer's view of a signature

  /** splitSignature (src/settlement/on-chain.ts:37-43). */
  function SplitSignature(text: string): Signature {
    var b := ToBytes(text);
    Signature(
      if |b| > 64 then Some(b[64]) else None,
      b[..Min(32, |b|)],
      b[Min(32, |b|)..Min(64, |b|)])
  }

  function Min(a: nat, b: nat): nat { if a <= b then a else b }

  /** A 65-byte signature survives the split: r, s and v are its bytes, in that order. */
  lemma SplitSignatureRoundTrip(text: string)
    requires |text| == 132 && IsHex(text[2..])
    ensures var sig := SplitSignature(text);
            sig.v.Some? && |sig.r| == 32 && |sig.s| == 32 && sig.r + sig.s + [sig.v.value] == ToBytes(text)
  {
    DecodeLength(text[2..]);
    Thirds(ToBytes(text));
  }

  lemma Thirds(b: Bytes)
    requires |b| == 65
    ensures b[..32] + b[32..64] + [b[64]] == b
  {
  }

  /** Storing the signature lower-cased does not change what is submitted. */
  lemma SplitSignatureIgnoresCase(text: string)
    requires |text| == 132 && IsHex(text[2..])
    ensures SplitSignature(Lower(text)) == SplitSignature(text)
  {
    ToBytesIgnoresCase(text);
  }
}
