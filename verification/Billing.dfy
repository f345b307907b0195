/** Referral statistics and monthly volume (src/settlement/referral-service.ts): folds over confirmed settlements,
    and what they owe to the settle protocol and to the chain. */
module Billing {
  import opened Prelude
  import opened Registry
  import opened SettlePayment
  import SettleTheorems
  import SettleFailures
  import FeeEngine
  import Chain

  /** The `where` clause of a query over settlements joined with their requests. */
  type Where = Settlement -> bool

  /** findMany: the rows a filter keeps, in table order. */
  function FindMany(rows: seq<Settlement>, where: Where): seq<Settlement> {
    if rows == [] then []
    else
      var last := rows[|rows| - 1];
      FindMany(rows[..|rows| - 1], where) + if where(last) then [last] else []
  }

  function AmountOf(reqs: Requests, row: Settlement): nat {
    if row.request in reqs then reqs[row.request].amount else 0
  }

  function Amounts(reqs: Requests, rows: seq<Settlement>): (xs: seq<nat>)
    ensures |xs| == |rows|
  {
    seq(|rows|, i requires 0 <= i < |rows| => AmountOf(reqs, rows[i]))
  }

  function Fees(rows: seq<Settlement>): (xs: seq<nat>)
    ensures |xs| == |rows|
  {
    seq(|rows|, i requires 0 <= i < |rows| => rows[i].feeAmount)
  }

  function DeveloperShares(rows: seq<Settlement>): (xs: seq<nat>)
    ensures |xs| == |rows|
  {
    seq(|rows|, i requires 0 <= i < |rows| => rows[i].developerShare)
  }

  datatype ReferralStats = ReferralStats(
    totalSettlements: nat, totalGrossVolume: nat, totalPlatformFee: nat, totalDeveloperShare: nat)

  function StatsOf(reqs: Requests, found: seq<Settlement>): ReferralStats {
    ReferralStats(|found|, FeeEngine.Sum(Amounts(reqs, found)), FeeEngine.Sum(Fees(found)),
          FeeEngine.Sum(DeveloperShares(found)))
  }

  function ByCode(code: string): Where {
    (row: Settlement) => row.status.Confirmed? && row.referral == Some(code)
  }

  function GetReferralStats(reqs: Requests, rows: seq<Settlement>, code: string): ReferralStats {
    StatsOf(reqs, FindMany(rows, ByCode(code)))
  }

  function InMonth(reqs: Requests, seller: string, from: nat, to: nat): Where {
    (row: Settlement) => row.status.Confirmed? && from <= row.createdAt < to
           && row.request in reqs && reqs[row.request].seller == seller
  }

  function GetMonthlyVolume(reqs: Requests, rows: seq<Settlement>, seller: string, from: nat, to: nat): nat {
    FeeEngine.Sum(Amounts(reqs, FindMany(rows, InMonth(reqs, seller, from, to))))
  }

  // ---------------------------------------------------------------- filtering

  /** A filtered table holds exactly the matching rows. */
  lemma {:induction false} FindManyMembers(rows: seq<Settlement>, where: Where, row: Settlement)
    ensures row in FindMany(rows, where) <==> row in rows && where(row)
  {
    if rows != [] {
      var init := rows[..|rows| - 1];
      FindManyMembers(init, where, row);
      assert row in rows <==> row in init || row == rows[|rows| - 1];
    }
  }

  lemma AmountsSnoc(reqs: Requests, rows: seq<Settlement>, row: Settlement)
    ensures FeeEngine.Sum(Amounts(reqs, rows + [row])) == FeeEngine.Sum(Amounts(reqs, rows)) + AmountOf(reqs, row)
  {
    var all := Amounts(reqs, rows + [row]);
    assert all[..|rows|] == Amounts(reqs, rows);
  }

  lemma FeesSnoc(rows: seq<Settlement>, row: Settlement)
    ensures FeeEngine.Sum(Fees(rows + [row])) == FeeEngine.Sum(Fees(rows)) + row.feeAmount
    ensures FeeEngine.Sum(DeveloperShares(rows + [row])) == FeeEngine.Sum(DeveloperShares(rows)) + row.developerShare
  {
    assert Fees(rows + [row])[..|rows|] == Fees(rows);
    assert DeveloperShares(rows + [row])[..|rows|] == DeveloperShares(rows);
  }

  /** The amount of a row's request. */
  ghost predicate AmountIs(reqs: Requests, row: Settlement, amount: nat) {
    if row.request in reqs then amount == reqs[row.request].amount else amount == 0
  }

  /** The statistics of a code count exactly the confirmed settlements that carry it: one row more in the table adds one
      settlement, its request's amount, its fee and its developer share, if it is confirmed and carries the code, and
      changes nothing otherwise, whatever other codes there are. The empty table has none. */
  lemma StatsCountExactly(reqs: Requests, rows: seq<Settlement>, row: Settlement, code: string, amount: nat)
    requires AmountIs(reqs, row, amount)
    ensures GetReferralStats(reqs, [], code) == ReferralStats(0, 0, 0, 0)
    ensures var before, after := GetReferralStats(reqs, rows, code), GetReferralStats(reqs, rows + [row], code);
            after == if row.status == Confirmed && row.referral == Some(code)
                     then ReferralStats(before.totalSettlements + 1, before.totalGrossVolume + amount,
                                        before.totalPlatformFee + row.feeAmount,
                                        before.totalDeveloperShare + row.developerShare)
                     else before
  {
    var found := FindMany(rows, ByCode(code));
    assert (rows + [row])[..|rows|] == rows;
    AmountsSnoc(reqs, found, row);
    FeesSnoc(found, row);
    assert found + [] == found;
  }

  /** The monthly volume of a seller counts exactly the confirmed settlements of its requests created in the span. */
  lemma VolumeCountsExactly(reqs: Requests, rows: seq<Settlement>, row: Settlement, seller: string, from: nat, to: nat)
    ensures GetMonthlyVolume(reqs, [], seller, from, to) == 0
    ensures GetMonthlyVolume(reqs, rows + [row], seller, from, to)
         == GetMonthlyVolume(reqs, rows, seller, from, to)
            + if row.status == Confirmed && row.request in reqs && reqs[row.request].seller == seller
                 && from <= row.createdAt && row.createdAt < to
              then reqs[row.request].amount else 0
  {
    assert (rows + [row])[..|rows|] == rows;
    VolumeSnoc(reqs, rows + [row], seller, from, to);
  }

  // ---------------------------------------------------------------- conservation

  /** Every confirmed row points at a successful transfer of its amount, and no two rows at the same one. */
  ghost predicate Backed(reqs: Requests, rows: seq<Settlement>, txs: seq<Chain.Tx>) {
    && TxHashesUnique(rows)
    && forall i :: 0 <= i < |rows| && rows[i].status.Confirmed? ==>
         rows[i].txHash.Some? && rows[i].txHash.value < |txs|
         && txs[rows[i].txHash.value].status.Success?
         && txs[rows[i].txHash.value].call.auth.value == AmountOf(reqs, rows[i])
  }

  /** Any selection of confirmed rows adds up to at most what moved on chain: each row strikes out its own transfer. */
  lemma {:induction false} SelectedAtMostMoved(reqs: Requests, rows: seq<Settlement>, txs: seq<Chain.Tx>, where: Where)
    requires Backed(reqs, rows, txs)
    requires forall row :: where(row) ==> row.status.Confirmed?
    ensures FeeEngine.Sum(Amounts(reqs, FindMany(rows, where))) <= Chain.Moved(txs)
    decreases |rows|
  {
    if rows != [] {
      var n := |rows| - 1;
      var last := rows[n];
      if where(last) {
        var h := last.txHash.value;
        var struck := txs[h := txs[h].(status := Chain.Reverted)];
        Chain.MovedWithout(txs, h);
        SelectedAtMostMoved(reqs, rows[..n], struck, where);
        AmountsSnoc(reqs, FindMany(rows[..n], where), last);
      } else {
        SelectedAtMostMoved(reqs, rows[..n], txs, where);
        assert FindMany(rows, where) == FindMany(rows[..n], where);
      }
    }
  }

  /** The chain's log with the transfers that settle calls broadcast, and nobody else's. */
  function OwnTransfers(s: State): seq<Chain.Tx> {
    Chain.Only(s.chain.txs, s.sent.Keys)
  }

  lemma InvBacked(cfg: Config, reqs: Requests, s: State)
    requires Inv(cfg, reqs, s) && SettleFailures.HistoryOk(cfg, reqs, s)
    ensures Backed(reqs, s.rows, OwnTransfers(s))
  {
    forall i | 0 <= i < |s.rows| && s.rows[i].status.Confirmed?
      ensures s.rows[i].txHash.Some? && s.rows[i].txHash.value in s.sent
      ensures Chain.Succeeded(s.chain, s.rows[i].txHash.value)
              && s.chain.txs[s.rows[i].txHash.value].call.auth.value == AmountOf(reqs, s.rows[i])
    {
      assert RowOk(s, i);
      assert ReceiptOk(cfg, reqs, s, s.rows[i].request);
    }
  }

  /** Conservation of money: whatever one sums over confirmed settlements (a referral code, a seller's month, all of
      them), in every reachable state the gross volume is at most the value moved by transfers that settle calls
      broadcast, and so at most what moved on chain. */
  lemma ConservationOfMoney(cfg: Config, reqs: Requests, s: State, where: Where)
    requires SettleTheorems.Reachable(cfg, reqs, s)
    requires forall row :: where(row) ==> row.status.Confirmed?
    ensures FeeEngine.Sum(Amounts(reqs, FindMany(s.rows, where))) <= Chain.Moved(OwnTransfers(s))
    ensures Chain.Moved(OwnTransfers(s)) <= Chain.Moved(s.chain.txs)
  {
    SettleFailures.ReachableHistory(cfg, reqs, s);
    InvBacked(cfg, reqs, s);
    SelectedAtMostMoved(reqs, s.rows, OwnTransfers(s), where);
    Chain.OnlyMovesLess(s.chain.txs, s.sent.Keys);
  }

  // ---------------------------------------------------------------- totals by referral code

  /** All found rows carry the fees their request was charged. */
  ghost predicate Charged(cfg: Config, reqs: Requests, rows: seq<Settlement>) {
    forall i :: 0 <= i < |rows| ==>
      rows[i].request in reqs && FeesCharged(cfg, reqs[rows[i].request], rows[i])
  }

  lemma FoundAreCharged(cfg: Config, reqs: Requests, s: State, where: Where)
    requires Inv(cfg, reqs, s)
    requires forall row :: where(row) ==> row.status.Confirmed?
    ensures Charged(cfg, reqs, FindMany(s.rows, where))
  {
    var found := FindMany(s.rows, where);
    forall k | 0 <= k < |found|
      ensures found[k].request in reqs && FeesCharged(cfg, reqs[found[k].request], found[k])
    {
      FindManyMembers(s.rows, where, found[k]);
      var i :| 0 <= i < |s.rows| && s.rows[i] == found[k];
      assert RowOk(s, i);
      assert ReceiptOk(cfg, reqs, s, s.rows[i].request);
    }
  }

  lemma {:induction false} TotalsNest(cfg: Config, reqs: Requests, rows: seq<Settlement>)
    requires FeeEngine.RatesInRange(FeeConfigOf(cfg)) && Charged(cfg, reqs, rows)
    ensures var t := StatsOf(reqs, rows); t.totalDeveloperShare <= t.totalPlatformFee <= t.totalGrossVolume
    decreases |rows|
  {
    if rows != [] {
      var n := |rows| - 1;
      TotalsNest(cfg, reqs, rows[..n]);
      var req := reqs[rows[n].request];
      FeeEngine.ComputeIsBounded(FeeConfigOf(cfg), req.amount, req.seller, rows[n].referral, 0, 0);
      assert FeesCharged(cfg, req, rows[n]);
      assert Amounts(reqs, rows)[..n] == Amounts(reqs, rows[..n]);
      assert Fees(rows)[..n] == Fees(rows[..n]);
      assert DeveloperShares(rows)[..n] == DeveloperShares(rows[..n]);
    }
  }

  /** settlePayment configures neither a free tier nor premium tiers, so every settlement pays the one platform rate. */
  lemma FeesAtOneRate(cfg: Config, reqs: Requests, rows: seq<Settlement>)
    requires Charged(cfg, reqs, rows)
    ensures Fees(rows) == FeeEngine.Shares(Amounts(reqs, rows), cfg.platformFeeBps)
  {
    forall i | 0 <= i < |rows|
      ensures rows[i].feeAmount == FeeEngine.Share(AmountOf(reqs, rows[i]), cfg.platformFeeBps)
    {
      assert FeesCharged(cfg, reqs[rows[i].request], rows[i]);
    }
  }

  /** Referral statistics of every reachable state: developer share within fee within gross within what the settle
      calls' own transfers moved, and for n >= 1 settlements the summed fee is at most n - 1 units below the fee on
      the summed gross. */
  lemma ReferralTotals(cfg: Config, reqs: Requests, s: State, code: string)
    requires SettleTheorems.Reachable(cfg, reqs, s)
    requires cfg.platformFeeBps <= FeeEngine.BPS_DENOMINATOR && cfg.developerShareBps <= FeeEngine.BPS_DENOMINATOR
    ensures var t := GetReferralStats(reqs, s.rows, code);
            && t.totalDeveloperShare <= t.totalPlatformFee <= t.totalGrossVolume <= Chain.Moved(OwnTransfers(s))
            && (t.totalSettlements >= 1 ==>
                  var whole := FeeEngine.Share(t.totalGrossVolume, cfg.platformFeeBps);
                  0 <= whole - t.totalPlatformFee <= t.totalSettlements - 1)
  {
    SettleTheorems.ReachableInv(cfg, reqs, s);
    var found := FindMany(s.rows, ByCode(code));
    FoundAreCharged(cfg, reqs, s, ByCode(code));
    TotalsNest(cfg, reqs, found);
    ConservationOfMoney(cfg, reqs, s, ByCode(code));
    FeesAtOneRate(cfg, reqs, found);
    if |found| >= 1 { FeeEngine.AggregateRounding(Amounts(reqs, found), cfg.platformFeeBps); }
  }

  // ---------------------------------------------------------------- months

  /** Adjacent months share no settlement and lose none: their volumes add up to the volume of the whole span. */
  lemma {:induction false} MonthsPartition(reqs: Requests, rows: seq<Settlement>, seller: string, from: nat, mid: nat,
        to: nat)
    requires from <= mid <= to
    ensures GetMonthlyVolume(reqs, rows, seller, from, to)
         == GetMonthlyVolume(reqs, rows, seller, from, mid) + GetMonthlyVolume(reqs, rows, seller, mid, to)
    decreases |rows|
  {
    if rows != [] {
      var n := |rows| - 1;
      MonthsPartition(reqs, rows[..n], seller, from, mid, to);
      VolumeSnoc(reqs, rows, seller, from, to);
      VolumeSnoc(reqs, rows, seller, from, mid);
      VolumeSnoc(reqs, rows, seller, mid, to);
    }
  }

  lemma VolumeSnoc(reqs: Requests, rows: seq<Settlement>, seller: string, from: nat, to: nat)
    requires rows != []
    ensures var last := rows[|rows| - 1];
            GetMonthlyVolume(reqs, rows, seller, from, to)
            == GetMonthlyVolume(reqs, rows[..|rows| - 1], seller, from, to)
               + if InMonth(reqs, seller, from, to)(last) then AmountOf(reqs, last) else 0
  {
    var n := |rows| - 1;
    var found := FindMany(rows[..n], InMonth(reqs, seller, from, to));
    AmountsSnoc(reqs, found, rows[n]);
    assert found + [] == found;
  }
}
