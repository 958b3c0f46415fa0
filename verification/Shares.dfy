/** Share accounting of vaults and facilities (`crates/shares/src/lib.rs`):
    conversions with virtual shares, and a performance fee above a high-water mark. */
module Shares {

  import opened Math
  import opened Sums

  type Address = nat

  const VIRTUAL: nat := 1_000_000

  /** An issuer's balances, their supply and the high-water mark. */
  datatype Ledger = Ledger(balances: map<Address, int>, supply: nat, mark: nat)

  /** NAV, supply and mark as `accrue` would leave them, and what it would mint. */
  datatype Snapshot = Snapshot(nav: nat, supply: nat, feeShares: nat, mark: nat)

  /** What `share_price` and every conversion divide: assets and shares, each with
      its virtual part. */
  function A(nav: nat): (r: nat) ensures r > 0 { nav + 1 }
  function T(supply: nat): (r: nat) ensures r > 0 { supply + VIRTUAL }

  function SharePrice(nav: nat, supply: nat): nat { Floor(A(nav), ONE, T(supply)) }

  /** The fee due on the gain above the mark, in assets; nothing unless NAV can bear it. */
  function FeeDue(nav: nat, supply: nat, mark: nat, bps: nat): (fee: nat)
    requires bps <= BPS
    ensures fee <= nav
  {
    var now := SharePrice(nav, supply);
    if now > mark && bps > 0 && supply > 0 then
      var fee := Floor(Floor(now - mark, T(supply), ONE), bps, BPS);
      if fee <= nav then fee else 0
    else 0
  }

  function FeeShares(nav: nat, supply: nat, mark: nat, bps: nat): nat
    requires bps <= BPS
  {
    var fee := FeeDue(nav, supply, mark, bps);
    if fee > 0 then Floor(fee, T(supply), nav + 1 - fee) else 0
  }

  function Snap(nav: nat, supply: nat, mark: nat, bps: nat): Snapshot
    requires bps <= BPS
  {
    var s := supply + FeeShares(nav, supply, mark, bps);
    Snapshot(nav, s, FeeShares(nav, supply, mark, bps), if SharePrice(nav, supply) > mark then SharePrice(nav, s) else mark)
  }

  function ToShares(s: Snapshot, assets: nat, up: bool): nat
  {
    if up then Ceil(assets, T(s.supply), A(s.nav)) else Floor(assets, T(s.supply), A(s.nav))
  }

  function ToAssets(s: Snapshot, shares: nat, up: bool): nat
  {
    if up then Ceil(shares, A(s.nav), T(s.supply)) else Floor(shares, A(s.nav), T(s.supply))
  }

  // ---- the fee

  /** Fee shares are worth at most the fee, and more than the fee less one share;
      the fee is at most `bps` of the whole pool's gain above the mark. */
  lemma FeeBounded(nav: nat, supply: nat, mark: nat, bps: nat)
    requires bps <= BPS
    ensures FeeShares(nav, supply, mark, bps) * A(nav) <= FeeDue(nav, supply, mark, bps) * T(Snap(nav, supply, mark, bps).supply)
    ensures (FeeShares(nav, supply, mark, bps) + 1) * A(nav) > FeeDue(nav, supply, mark, bps) * T(Snap(nav, supply, mark, bps).supply)
    ensures ToAssets(Snap(nav, supply, mark, bps), FeeShares(nav, supply, mark, bps), false) <= FeeDue(nav, supply, mark, bps)
    ensures FeeDue(nav, supply, mark, bps) > 0 ==>
              FeeDue(nav, supply, mark, bps) * BPS * ONE <= bps * (A(nav) * ONE - mark * T(supply))
  {
    var fee, k := FeeDue(nav, supply, mark, bps), FeeShares(nav, supply, mark, bps);
    if fee > 0 {
      FeeOfGain(nav, supply, mark, bps);
      FeeWorth(fee, T(supply), A(nav));
    }
    WorthFloor(k, A(nav), T(supply + k), fee);
  }

  /** Above the mark, the fee falls short of `bps` of the gain by rounding only: two
      units at most, unless NAV cannot bear it. */
  lemma FeeNotShort(nav: nat, supply: nat, mark: nat, bps: nat)
    requires 0 < bps <= BPS && supply > 0 && SharePrice(nav, supply) > mark
    requires Floor(Floor(SharePrice(nav, supply) - mark, T(supply), ONE), bps, BPS) <= nav
    ensures (FeeDue(nav, supply, mark, bps) + 2) * BPS * ONE > bps * ((SharePrice(nav, supply) - mark) * T(supply))
  {
    var whole := (SharePrice(nav, supply) - mark) * T(supply);
    TwoFloors(Floor(SharePrice(nav, supply) - mark, T(supply), ONE), whole, FeeDue(nav, supply, mark, bps), bps);
  }

  /** Two floors in a row, the second by a fraction of at most one. */
  lemma TwoFloors(gain: nat, whole: nat, fee: nat, bps: nat)
    requires whole < (gain + 1) * ONE && gain * bps < (fee + 1) * BPS && bps <= BPS
    ensures (fee + 2) * BPS * ONE > bps * whole
  {
    MulMono(whole, (gain + 1) * ONE, bps);
    MulMono(gain * bps + bps, (fee + 2) * BPS, ONE);
    assert whole * bps == bps * whole;
    assert (gain + 1) * ONE * bps == (gain * bps + bps) * ONE;
    assert gain * bps + bps < (fee + 2) * BPS;
  }

  lemma WorthFloor(shares: nat, a: nat, t: nat, fee: nat)
    requires t > 0 && shares * a <= fee * t
    ensures Floor(shares, a, t) <= fee
  {
    CancelFactor(Floor(shares, a, t), fee, t);
  }

  /** Shares minted for a fee are worth no more than the fee once they exist. */
  lemma FeeWorth(fee: nat, t: nat, a: nat)
    requires fee < a
    ensures Floor(fee, t, a - fee) * a <= fee * (t + Floor(fee, t, a - fee)) < (Floor(fee, t, a - fee) + 1) * a
  {
    var k := Floor(fee, t, a - fee);
    assert k * a == k * (a - fee) + k * fee;
    assert (k + 1) * a == (k + 1) * (a - fee) + k * fee + fee;
    assert fee * (t + k) == fee * t + fee * k;
  }

  lemma FeeOfGain(nav: nat, supply: nat, mark: nat, bps: nat)
    requires bps <= BPS && FeeDue(nav, supply, mark, bps) > 0
    ensures var fee := FeeDue(nav, supply, mark, bps);
            && fee * BPS * ONE <= bps * (A(nav) * ONE - mark * T(supply))
            && fee * ONE <= A(nav) * ONE - mark * T(supply)
  {
    var now := SharePrice(nav, supply);
    var gain := Floor(now - mark, T(supply), ONE);
    var fee := FeeDue(nav, supply, mark, bps);
    var room := A(nav) * ONE - mark * T(supply);
    assert gain * ONE <= room by { assert (now - mark) * T(supply) == now * T(supply) - mark * T(supply); }
    assert fee * BPS <= gain * bps;
    FloorAtMost(gain, bps, BPS);
    MulMono(fee, gain, ONE);
    MulMono(fee * BPS, gain * bps, ONE);
    MulMono(gain * ONE, room, bps);
    assert gain * bps * ONE == gain * ONE * bps;
    assert room * bps == bps * room;
  }

  /** The mark is met by a pool whose share price reaches it. */
  ghost predicate Above(nav: nat, supply: nat, mark: nat) { mark * T(supply) <= A(nav) * ONE }

  lemma AboveIsPrice(nav: nat, supply: nat, mark: nat)
    ensures Above(nav, supply, mark) <==> SharePrice(nav, supply) >= mark
  {
    if mark * T(supply) <= A(nav) * ONE { FloorMax(mark, A(nav), ONE, T(supply)); }
    if SharePrice(nav, supply) >= mark { MulMono(mark, SharePrice(nav, supply), T(supply)); }
  }

  lemma CancelFactor(x: int, y: int, t: nat)
    requires t > 0 && x * t <= y * t
    ensures x <= y
  {
    assert (y + 1) * t == y * t + t;
    Bracket(x, y, t);
  }

  /** Shares and assets per share after minting for a fee. */
  lemma Diluted(fee: nat, t: nat, a: nat)
    requires fee < a
    ensures (t + Floor(fee, t, a - fee)) * (a - fee) <= t * a
  {
    var k := Floor(fee, t, a - fee);
    assert (t + k) * (a - fee) == t * (a - fee) + k * (a - fee);
    assert t * (a - fee) == t * a - t * fee;
    assert t * fee == fee * t;
  }

  /** Diluting by the fee's shares leaves the price at or above the mark. */
  lemma DilutedAbove(fee: nat, t: nat, a: nat, mark: nat)
    requires fee < a && t > 0 && fee * ONE <= a * ONE - mark * t
    ensures mark * (t + Floor(fee, t, a - fee)) <= a * ONE
  {
    var n := t + Floor(fee, t, a - fee);
    Diluted(fee, t, a);
    assert mark * t <= (a - fee) * ONE;
    CrossAbove(mark, n, t, a, a - fee);
  }

  /** `mark/ONE <= b/t` and `n*b <= t*a` give `mark/ONE <= a/n`. */
  lemma CrossAbove(mark: nat, n: nat, t: nat, a: nat, b: nat)
    requires t > 0 && mark * t <= b * ONE && n * b <= t * a
    ensures mark * n <= a * ONE
  {
    MulMono(mark * t, b * ONE, n);
    MulMono(n * b, t * a, ONE);
    assert (mark * t) * n == (mark * n) * t;
    assert (b * ONE) * n == (n * b) * ONE;
    assert (t * a) * ONE == (a * ONE) * t;
    CancelFactor(mark * n, a * ONE, t);
  }

  /** The high-water mark never falls, at any fee up to all of the gain, and the
      diluted price still reaches the new one. */
  lemma MarkNeverFalls(nav: nat, supply: nat, mark: nat, bps: nat)
    requires bps <= BPS
    ensures Snap(nav, supply, mark, bps).mark >= mark
    ensures SharePrice(nav, supply) >= mark ==> SharePrice(nav, Snap(nav, supply, mark, bps).supply) >= Snap(nav, supply, mark, bps).mark
  {
    var fee, s := FeeDue(nav, supply, mark, bps), Snap(nav, supply, mark, bps);
    if SharePrice(nav, supply) > mark {
      if fee > 0 {
        FeeOfGain(nav, supply, mark, bps);
        DilutedAbove(fee, T(supply), A(nav), mark);
        assert Above(nav, s.supply, mark);
      } else {
        AboveIsPrice(nav, supply, mark);
      }
      AboveIsPrice(nav, s.supply, mark);
    }
  }

  /** At an unchanged NAV there is nothing more to accrue. */
  lemma AccrueOnce(nav: nat, supply: nat, mark: nat, bps: nat, again: nat)
    requires bps <= BPS && again <= BPS
    ensures var s := Snap(nav, supply, mark, bps);
            Snap(nav, s.supply, s.mark, again) == s.(feeShares := 0)
  {}

  // ---- entering and leaving

  /** Assets per share, virtual parts included, have not fallen. */
  ghost predicate NoWorse(nav: nat, supply: nat, nav': nat, supply': nat) { A(nav') * T(supply) >= A(nav) * T(supply') }

  lemma EnterNoWorse(nav: nat, supply: nat, assets: nat, minted: nat)
    requires minted * A(nav) <= assets * T(supply)
    ensures NoWorse(nav, supply, nav + assets, supply + minted)
  {
    assert A(nav + assets) * T(supply) == A(nav) * T(supply) + assets * T(supply);
    assert A(nav) * T(supply + minted) == A(nav) * T(supply) + A(nav) * minted;
  }

  lemma LeaveNoWorse(nav: nat, supply: nat, assets: nat, burned: nat)
    requires assets <= nav && burned <= supply && assets * T(supply) <= burned * A(nav)
    ensures NoWorse(nav, supply, nav - assets, supply - burned)
  {
    assert A(nav - assets) * T(supply) == A(nav) * T(supply) - assets * T(supply);
    assert A(nav) * T(supply - burned) == A(nav) * T(supply) - A(nav) * burned;
  }

  /** No exit takes more than the pool has. */
  lemma ExitWithinNav(nav: nat, supply: nat, assets: nat, burned: nat)
    requires burned <= supply && assets * T(supply) <= burned * A(nav)
    ensures assets <= nav
  {
    MulMono(burned, supply, A(nav));
    assert assets * T(supply) < (nav + 1) * T(supply) by {
      assert (nav + 1) * T(supply) == A(nav) * supply + A(nav) * VIRTUAL;
      assert supply * A(nav) == A(nav) * supply;
    }
    Bracket(assets, nav, T(supply));
  }

  /** Every conversion rounds in the issuer's favour. */
  lemma ConversionsFavourTheIssuer(s: Snapshot, x: nat)
    ensures ToShares(s, x, false) * A(s.nav) <= x * T(s.supply) <= ToShares(s, x, true) * A(s.nav)
    ensures ToAssets(s, x, false) * T(s.supply) <= x * A(s.nav) <= ToAssets(s, x, true) * T(s.supply)
  {}

  lemma NoWorseTrans(n0: nat, s0: nat, n1: nat, s1: nat, n2: nat, s2: nat)
    requires NoWorse(n0, s0, n1, s1) && NoWorse(n1, s1, n2, s2)
    ensures NoWorse(n0, s0, n2, s2)
  {
    var a0, t0, a1, t1, a2, t2 := A(n0), T(s0), A(n1), T(s1), A(n2), T(s2);
    MulMono(a0 * t1, a1 * t0, t2);
    MulMono(a1 * t2, a2 * t1, t0);
    assert (a1 * t2) * t0 == (a1 * t0) * t2;
    assert (a0 * t1) * t2 == (a0 * t2) * t1 && (a2 * t1) * t0 == (a2 * t0) * t1;
    CancelFactor(a0 * t2, a2 * t0, t1);
  }

  /** A pool no worse than one above the mark is above it. */
  lemma NoWorseAbove(nav: nat, supply: nat, nav': nat, supply': nat, mark: nat)
    requires NoWorse(nav, supply, nav', supply') && Above(nav, supply, mark)
    ensures Above(nav', supply', mark)
  {
    var a, t, a', t' := A(nav), T(supply), A(nav'), T(supply');
    MulMono(mark * t, a * ONE, t');
    MulMono(a * t', a' * t, ONE);
    assert (a * ONE) * t' == (a * t') * ONE && (a' * t) * ONE == (a' * ONE) * t && (mark * t) * t' == (mark * t') * t;
    CancelFactor(mark * t', a' * ONE, t);
  }

  /** The same supply buys no fewer assets. */
  lemma NoWorseSameSupply(nav: nat, nav': nat, supply: nat)
    requires NoWorse(nav, supply, nav', supply)
    ensures nav' >= nav
  {
    CancelFactor(A(nav), A(nav'), T(supply));
  }

  /** `m/(t+m)` of `a + x` against `x`, when `m*a` is just below `x*t`. */
  lemma RoundTripGap(x: nat, m: nat, out: nat, a: nat, t: nat)
    requires t > 0 && m * a <= x * t < m * a + a
    requires out * (t + m) <= m * (a + x) < (out + 1) * (t + m)
    ensures out <= x && (x - out - 1) * (t + m) < a
  {
    assert m * (a + x) == m * a + m * x;
    assert x * (t + m) == x * t + m * x;
    CancelFactor(out, x, t + m);
    assert (x - out - 1) * (t + m) == x * (t + m) - (out + 1) * (t + m);
  }

  /** Depositing and redeeming at once gains nothing and loses less than one
      share's price plus one unit. */
  lemma RoundTripLoss(nav: nat, supply: nat, assets: nat)
    ensures var minted := Floor(assets, T(supply), A(nav));
            var out := Floor(minted, A(nav + assets), T(supply + minted));
            out <= assets && (assets - out - 1) * T(supply + minted) < A(nav)
  {
    var m := Floor(assets, T(supply), A(nav));
    var out := Floor(m, A(nav + assets), T(supply + m));
    assert (m + 1) * A(nav) == m * A(nav) + A(nav);
    RoundTripGap(assets, m, out, A(nav), T(supply));
  }

  /** An owner's assets cost no more shares than the owner has. */
  lemma WithdrawAffordable(s: Snapshot, shares: nat, assets: nat)
    requires assets <= ToAssets(s, shares, false)
    ensures ToShares(s, assets, true) <= shares
  {
    MulMono(assets, ToAssets(s, shares, false), T(s.supply));
    CeilMin(shares, assets, T(s.supply), A(s.nav));
  }
}
