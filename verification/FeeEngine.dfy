/** Platform fee, developer share and free tier of one settlement (src/settlement/fee-engine.ts). */
module FeeEngine {
  import opened Prelude
  import opened Hex

  const BPS_DENOMINATOR: nat := 10_000

  /** A seller's own rate; it never applies again once `expiresAt` has been reached. */
  datatype PremiumTier = PremiumTier(seller: string, feeBps: nat, expiresAt: Option<int>)

  datatype FeeConfig = FeeConfig(
    platformFeeBps: nat,
    developerShareBps: nat,
    freeTierMonthlyUnits: nat,
    premiumTiers: seq<PremiumTier>)

  datatype Breakdown = Breakdown(
    gross: nat,
    platformFee: nat,
    developerShare: nat,
    netToSeller: int,
    effectiveFeeBps: nat,
    freeTierApplied: bool)

  /** Every rate in the configuration is a fraction of at most one. */
  predicate RatesInRange(cfg: FeeConfig) {
    && cfg.platformFeeBps <= BPS_DENOMINATOR
    && cfg.developerShareBps <= BPS_DENOMINATOR
    && forall i :: 0 <= i < |cfg.premiumTiers| ==> cfg.premiumTiers[i].feeBps <= BPS_DENOMINATOR
  }

  predicate TierApplies(t: PremiumTier, seller: string, now: int) {
    Lower(t.seller) == Lower(seller) && (t.expiresAt.None? || t.expiresAt.value > now)
  }

  function FindTier(tiers: seq<PremiumTier>, seller: string, now: int): Option<PremiumTier> {
    if tiers == [] then None
    else if TierApplies(tiers[0], seller, now) then Some(tiers[0])
    else FindTier(tiers[1..], seller, now)
  }

  function ResolveFeeBps(cfg: FeeConfig, seller: string, now: int): nat {
    match FindTier(cfg.premiumTiers, seller, now)
    case Some(tier) => tier.feeBps
    case None => cfg.platformFeeBps
  }

  /** amount * bps / 10000, rounded down. */
  function Share(amount: nat, bps: nat): nat {
    amount * bps / BPS_DENOMINATOR
  }

  /** JavaScript truthiness of `referralCode`: null and the empty string are both "no referral". */
  predicate HasReferral(referral: Option<string>) {
    referral.Some? && referral.value != ""
  }

  function Compute(cfg: FeeConfig, gross: nat, seller: string, referral: Option<string>,
                   monthlyVolume: nat, now: int): Breakdown
  {
    if cfg.freeTierMonthlyUnits > 0 && monthlyVolume < cfg.freeTierMonthlyUnits then
      Breakdown(gross, 0, 0, gross, 0, true)
    else
      var bps := ResolveFeeBps(cfg, seller, now);
      var fee := Share(gross, bps);
      var dev := if HasReferral(referral) then Share(fee, cfg.developerShareBps) else 0;
      Breakdown(gross, fee, dev, gross - fee, bps, false)
  }

  // ---------------------------------------------------------------- rate lookup

  /** The first tier that applies decides the rate; the platform rate holds exactly when none applies. */
  lemma {:induction false} FindTierIsFirst(tiers: seq<PremiumTier>, seller: string, now: int)
    ensures FindTier(tiers, seller, now).None? <==>
            forall i :: 0 <= i < |tiers| ==> !TierApplies(tiers[i], seller, now)
    ensures FindTier(tiers, seller, now).Some? ==>
              exists i :: 0 <= i < |tiers| && FindTier(tiers, seller, now).value == tiers[i]
                          && TierApplies(tiers[i], seller, now)
                          && forall j :: 0 <= j < i ==> !TierApplies(tiers[j], seller, now)
  {
    if tiers != [] && !TierApplies(tiers[0], seller, now) {
      FindTierIsFirst(tiers[1..], seller, now);
      assert forall i :: 1 <= i < |tiers| ==> tiers[i] == tiers[1..][i - 1];
      if FindTier(tiers[1..], seller, now).Some? {
        var k :| 0 <= k < |tiers[1..]| && FindTier(tiers[1..], seller, now).value == tiers[1..][k]
                 && TierApplies(tiers[1..][k], seller, now)
                 && forall j :: 0 <= j < k ==> !TierApplies(tiers[1..][j], seller, now);
        assert tiers[k + 1] == tiers[1..][k];
      }
    }
  }

  /** `rate` is the rate of the first tier that is the seller's, up to the case of the address, and has not expired; or
      the platform's rate, when there is no such tier. */
  ghost predicate RateIs(cfg: FeeConfig, seller: string, now: int, rate: nat) {
    if exists i :: 0 <= i < |cfg.premiumTiers| && Lower(cfg.premiumTiers[i].seller) == Lower(seller)
                   && (cfg.premiumTiers[i].expiresAt.Some? ==> now < cfg.premiumTiers[i].expiresAt.value)
    then
      exists i :: 0 <= i < |cfg.premiumTiers| && rate == cfg.premiumTiers[i].feeBps
                  && Lower(cfg.premiumTiers[i].seller) == Lower(seller)
                  && (cfg.premiumTiers[i].expiresAt.Some? ==> now < cfg.premiumTiers[i].expiresAt.value)
                  && forall j :: 0 <= j < i && Lower(cfg.premiumTiers[j].seller) == Lower(seller) ==>
                       cfg.premiumTiers[j].expiresAt.Some? && cfg.premiumTiers[j].expiresAt.value <= now
    else rate == cfg.platformFeeBps
  }

  lemma ResolvedRate(cfg: FeeConfig, seller: string, now: int)
    ensures RateIs(cfg, seller, now, ResolveFeeBps(cfg, seller, now))
  {
    var tiers := cfg.premiumTiers;
    FindTierIsFirst(tiers, seller, now);
    if FindTier(tiers, seller, now).Some? {
      var i :| 0 <= i < |tiers| && FindTier(tiers, seller, now).value == tiers[i] && TierApplies(tiers[i], seller, now)
               && forall j :: 0 <= j < i ==> !TierApplies(tiers[j], seller, now);
      assert Lower(tiers[i].seller) == Lower(seller);
    } else {
      assert forall i :: 0 <= i < |tiers| ==> !TierApplies(tiers[i], seller, now);
    }
  }

  /** `part` is `bps` ten-thousandths of `whole`, rounded down. */
  predicate RoundedDown(whole: nat, bps: nat, part: nat) {
    part * 10_000 <= whole * bps < (part + 1) * 10_000
  }

  lemma ShareRounds(amount: nat, bps: nat)
    ensures RoundedDown(amount, bps, Share(amount, bps))
  {
  }

  /** What compute charges, for every input: nothing while a free tier is configured and the month's volume has not
      reached it; otherwise the first applicable tier's rate or the platform's, rounded down, of which the developer of
      a non-empty referral code gets the configured share, rounded down again. */
  lemma ChargesExactly(cfg: FeeConfig, gross: nat, seller: string, referral: Option<string>, volume: nat, now: int)
    ensures var b := Compute(cfg, gross, seller, referral, volume, now);
            && b.gross == gross && b.netToSeller == gross - b.platformFee
            && (b.freeTierApplied <==> 0 < cfg.freeTierMonthlyUnits && volume < cfg.freeTierMonthlyUnits)
            && (b.freeTierApplied ==> b.platformFee == 0 && b.developerShare == 0 && b.effectiveFeeBps == 0)
            && (!b.freeTierApplied ==>
                  && RateIs(cfg, seller, now, b.effectiveFeeBps)
                  && RoundedDown(gross, b.effectiveFeeBps, b.platformFee)
                  && if referral.Some? && |referral.value| > 0
                     then RoundedDown(b.platformFee, cfg.developerShareBps, b.developerShare)
                     else b.developerShare == 0)
  {
    ResolvedRate(cfg, seller, now);
    var rate := ResolveFeeBps(cfg, seller, now);
    ShareRounds(gross, rate);
    ShareRounds(Share(gross, rate), cfg.developerShareBps);
  }

  // ---------------------------------------------------------------- one settlement

  lemma ShareBounded(amount: nat, bps: nat)
    requires bps <= BPS_DENOMINATOR
    ensures Share(amount, bps) <= amount
  {
    assert amount * bps <= amount * BPS_DENOMINATOR;
  }

  /** Nobody earns more than the layer above: developer share <= fee <= gross, and fee plus net is gross. */
  lemma ComputeIsBounded(cfg: FeeConfig, gross: nat, seller: string, referral: Option<string>, volume: nat, now: int)
    requires RatesInRange(cfg)
    ensures var b := Compute(cfg, gross, seller, referral, volume, now);
            b.developerShare <= b.platformFee <= gross && b.platformFee + b.netToSeller == gross
  {
    FindTierIsFirst(cfg.premiumTiers, seller, now);
    var bps := ResolveFeeBps(cfg, seller, now);
    assert bps <= BPS_DENOMINATOR;
    ShareBounded(gross, bps);
    ShareBounded(Share(gross, bps), cfg.developerShareBps);
  }

  lemma DivParts(n: nat, d: nat) returns (q: nat, rem: nat)
    requires d > 0
    ensures q == n / d && n == q * d + rem && rem < d
  {
    q, rem := n / d, n % d;
  }

  lemma ProductBelow(x: nat, m: nat, d: nat)
    requires x < d && m <= d
    ensures 0 <= x * m <= (d - 1) * d
  {
    assert x * m <= x * d;
    assert x * d <= (d - 1) * d;
  }

  lemma Distribute(a: nat, b: nat, m: nat)
    ensures (a + b) * m == a * m + b * m
  {
  }

  lemma SwapFactors(a: nat, d: nat, m: nat)
    ensures (a * d) * m == (a * m) * d
  {
  }

  lemma RegroupFloors(q: nat, rem: nat, qq: nat, rr: nat, m: nat, d: nat)
    requires q * m == qq * d + rr && rem < d && rr < d && m <= d
    ensures qq * (d * d) <= (q * d + rem) * m < (qq + 2) * (d * d)
  {
    Distribute(q * d, rem, m);
    SwapFactors(q, d, m);
    Distribute(qq * d, rr, d);
    assert (qq * d) * d == qq * (d * d);
    ProductBelow(rr, d, d);
    ProductBelow(rem, m, d);
    Distribute(qq, 2, d * d);
    Distribute(d - 1, 1, d);
  }

  /** The developer share is floored twice; against one floor of the exact product it is short by at most one unit. */
  lemma NestedFloor(gross: nat, feeBps: nat, devBps: nat)
    requires devBps <= BPS_DENOMINATOR
    ensures var single := gross * feeBps * devBps / (BPS_DENOMINATOR * BPS_DENOMINATOR);
            single - 1 <= Share(Share(gross, feeBps), devBps) <= single
  {
    var d := BPS_DENOMINATOR;
    var q, rem := DivParts(gross * feeBps, d);
    var qq, rr := DivParts(q * devBps, d);
    RegroupFloors(q, rem, qq, rr, devBps, d);
    DivBetween(gross * feeBps * devBps, d * d, qq);
  }

  lemma DivBetween(n: nat, d: nat, q: nat)
    requires d > 0 && q * d <= n < (q + 2) * d
    ensures q <= n / d <= q + 1
  {
    var k := n / d;
    assert k * d <= n < (k + 1) * d;
    assert k < q ==> (k + 1) * d <= q * d;
    assert k > q + 1 ==> (q + 2) * d <= k * d;
  }

  /** With a referral and outside the free tier the developer earns its fraction of the fee's fraction of the payment,
      to within the one unit lost to flooring twice; otherwise nothing. */
  lemma DeveloperShareOf(cfg: FeeConfig, gross: nat, seller: string, referral: Option<string>, volume: nat, now: int)
    requires RatesInRange(cfg)
    ensures var b := Compute(cfg, gross, seller, referral, volume, now);
            var product := gross * ResolveFeeBps(cfg, seller, now) * cfg.developerShareBps;
            var exact := product / (BPS_DENOMINATOR * BPS_DENOMINATOR);
            var earns := HasReferral(referral) && (cfg.freeTierMonthlyUnits == 0 || volume >= cfg.freeTierMonthlyUnits);
            if earns then exact - 1 <= b.developerShare <= exact else b.developerShare == 0
  {
    NestedFloor(gross, ResolveFeeBps(cfg, seller, now), cfg.developerShareBps);
  }

  // ---------------------------------------------------------------- many settlements at one rate

  function Sum(xs: seq<nat>): nat {
    if xs == [] then 0 else Sum(xs[..|xs| - 1]) + xs[|xs| - 1]
  }

  function Shares(xs: seq<nat>, bps: nat): (ys: seq<nat>)
    ensures |ys| == |xs|
  {
    seq(|xs|, i requires 0 <= i < |xs| => Share(xs[i], bps))
  }

  /** Flooring is superadditive and loses less than one unit per addition. */
  lemma ShareOfSum(a: nat, b: nat, bps: nat)
    ensures Share(a, bps) + Share(b, bps) <= Share(a + b, bps) <= Share(a, bps) + Share(b, bps) + 1
  {
    var d := BPS_DENOMINATOR;
    assert (a + b) * bps == a * bps + b * bps;
    var qa, qb := Share(a, bps), Share(b, bps);
    assert qa * d <= a * bps < qa * d + d;
    assert qb * d <= b * bps < qb * d + d;
    assert (qa + qb) * d == qa * d + qb * d;
    DivBetween((a + b) * bps, d, qa + qb);
  }

  /** Charging n payments one by one costs at most n - 1 units less than charging their total. */
  lemma {:induction false} AggregateRounding(amounts: seq<nat>, bps: nat)
    requires |amounts| >= 1
    ensures 0 <= Share(Sum(amounts), bps) - Sum(Shares(amounts, bps)) <= |amounts| - 1
  {
    var n := |amounts|;
    var init := amounts[..n - 1];
    assert Shares(amounts, bps)[..n - 1] == Shares(init, bps);
    if n == 1 {
      assert Sum(init) == 0 && Sum(Shares(init, bps)) == 0;
    } else {
      AggregateRounding(init, bps);
      ShareOfSum(Sum(init), amounts[n - 1], bps);
    }
  }

  function Units(n: nat): (xs: seq<nat>)
    ensures |xs| == n
  {
    seq(n, _ => 1)
  }

  lemma {:induction false} SumOfUnits(n: nat)
    ensures Sum(Units(n)) == n
    ensures Sum(Shares(Units(n), 9_999)) == 0
  {
    if n > 0 {
      assert Units(n)[..n - 1] == Units(n - 1);
      assert Shares(Units(n), 9_999)[..n - 1] == Shares(Units(n - 1), 9_999);
      SumOfUnits(n - 1);
    }
  }

  /** The bound n - 1 is reached: one-unit payments at 9999 bps are free singly and cost n - 1 together. */
  lemma AggregateRoundingIsTight(n: nat)
    requires 1 <= n <= BPS_DENOMINATOR
    ensures Share(Sum(Units(n)), 9_999) - Sum(Shares(Units(n), 9_999)) == n - 1
  {
    SumOfUnits(n);
    assert n * 9_999 == (n - 1) * 10_000 + (10_000 - n);
  }

  // ---------------------------------------------------------------- the free tier over one month

  datatype Payment = Payment(gross: nat, referral: Option<string>, at: int)

  function Gross(ps: seq<Payment>): nat {
    if ps == [] then 0 else Gross(ps[..|ps| - 1]) + ps[|ps| - 1].gross
  }

  /** The k-th payment of a seller's month, priced with the volume already settled. */
  function Priced(cfg: FeeConfig, seller: string, ps: seq<Payment>, k: nat): Breakdown
    requires k < |ps|
  {
    Compute(cfg, ps[k].gross, seller, ps[k].referral, Gross(ps[..k]), ps[k].at)
  }

  lemma {:induction false} GrossMonotone(ps: seq<Payment>, j: nat, k: nat)
    requires j <= k <= |ps|
    ensures Gross(ps[..j]) <= Gross(ps[..k])
    decreases k
  {
    if j < k {
      assert ps[..k][..k - 1] == ps[..k - 1];
      GrossMonotone(ps, j, k - 1);
    }
  }

  /** Number of free payments: the length of the free prefix. */
  function FreePrefix(cfg: FeeConfig, seller: string, ps: seq<Payment>): (n: nat)
    ensures n <= |ps|
  {
    if ps == [] then 0
    else
      var rest := ps[..|ps| - 1];
      var n := FreePrefix(cfg, seller, rest);
      if n == |rest| && Priced(cfg, seller, ps, |rest|).freeTierApplied then n + 1 else n
  }

  /** Free payments are exactly a prefix of the month. */
  lemma {:induction false} FreeIsPrefix(cfg: FeeConfig, seller: string, ps: seq<Payment>)
    ensures forall k :: 0 <= k < |ps| ==>
              (Priced(cfg, seller, ps, k).freeTierApplied <==> k < FreePrefix(cfg, seller, ps))
  {
    if ps != [] {
      var last := |ps| - 1;
      var rest := ps[..last];
      FreeIsPrefix(cfg, seller, rest);
      var n := FreePrefix(cfg, seller, rest);
      forall k | 0 <= k < last
        ensures Priced(cfg, seller, ps, k) == Priced(cfg, seller, rest, k)
      {
        assert rest[..k] == ps[..k];
      }
      if n < last {
        assert !Priced(cfg, seller, rest, n).freeTierApplied;
        assert !Priced(cfg, seller, ps, n).freeTierApplied;
        GrossMonotone(ps, n, last);
      }
    }
  }

  /** The free allowance is overshot by less than the payment that crosses it; later payments are charged in full. */
  lemma FreeTierOverMonth(cfg: FeeConfig, seller: string, ps: seq<Payment>)
    requires RatesInRange(cfg)
    ensures var n := FreePrefix(cfg, seller, ps);
            && (n > 0 ==> Gross(ps[..n]) < cfg.freeTierMonthlyUnits + ps[n - 1].gross)
            && (n < |ps| ==> cfg.freeTierMonthlyUnits <= Gross(ps[..n]))
            && (forall k :: 0 <= k < |ps| ==>
                  var b := Priced(cfg, seller, ps, k);
                  && b.platformFee + b.netToSeller == ps[k].gross
                  && b.platformFee == (if k < n then 0 else Share(ps[k].gross, ResolveFeeBps(cfg, seller, ps[k].at))))
  {
    var n := FreePrefix(cfg, seller, ps);
    FreeIsPrefix(cfg, seller, ps);
    if n > 0 {
      assert Priced(cfg, seller, ps, n - 1).freeTierApplied;
      assert ps[..n][..n - 1] == ps[..n - 1];
    }
    if n < |ps| { assert !Priced(cfg, seller, ps, n).freeTierApplied; }
    forall k | 0 <= k < |ps|
      ensures Priced(cfg, seller, ps, k).platformFee + Priced(cfg, seller, ps, k).netToSeller == ps[k].gross
    {
      ComputeIsBounded(cfg, ps[k].gross, seller, ps[k].referral, Gross(ps[..k]), ps[k].at);
    }
  }
}
