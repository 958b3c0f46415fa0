/** What holders of a settled redemption batch are paid
    (`contracts/redemption_vault/src/lib.rs`, `claim`): pro rata to what is left,
    rounded down, while any holder may also burn tokens for nothing. */
module Claims {

  import opened Math

  /** What a settled batch has left, and its claim token's supply. */
  datatype Pot = Pot(cash: nat, rwa: nat, supply: nat)

  datatype Op = Claim(shares: nat) | Burn(shares: nat)

  predicate Allowed(p: Pot, op: Op) { op.shares <= p.supply && (op.Claim? ==> op.shares > 0) }

  function Portion(shares: nat, left: nat, supply: nat): (paid: nat)
    requires 0 < shares <= supply
    ensures paid <= left
    ensures shares == supply ==> paid == left
  {
    FloorWhole(left, supply);
    assert shares * left == left * shares && Floor(shares, left, supply) == Floor(left, shares, supply) by {
      FloorUnique(Floor(shares, left, supply), left, shares, supply);
    }
    FloorAtMost(left, shares, supply);
    Floor(shares, left, supply)
  }

  /** Operations the token or the vault refuses change nothing. */
  function After(p: Pot, op: Op): Pot
  {
    if !Allowed(p, op) then p
    else match op
      case Claim(s) => Pot(p.cash - Portion(s, p.cash, p.supply), p.rwa - Portion(s, p.rwa, p.supply), p.supply - s)
      case Burn(s) => p.(supply := p.supply - s)
  }

  function Run(p: Pot, ops: seq<Op>): Pot
  {
    if ops == [] then p else After(Run(p, ops[..|ops| - 1]), ops[|ops| - 1])
  }

  /** `a/b >= c/d` and `c/d >= e/f` give `a/b >= e/f`. */
  lemma RatioTrans(a: nat, b: nat, c: nat, d: nat, e: nat, f: nat)
    requires a * d >= c * b && c * f >= e * d && d > 0
    ensures a * f >= e * b
  {
    assert (a * f) * d >= (e * b) * d by {
      MulMono(c * b, a * d, f);
      MulMono(e * d, c * f, b);
      assert (a * d) * f == (a * f) * d && (c * b) * f == (c * f) * b && (e * d) * b == (e * b) * d;
    }
    assert (a * f + 1) * d == (a * f) * d + d;
    Bracket(e * b, a * f, d);
  }

  /** Paying a floored share never lowers what a token is worth. */
  lemma PortionRatio(shares: nat, left: nat, supply: nat)
    requires 0 < shares <= supply
    ensures (left - Portion(shares, left, supply)) * supply >= left * (supply - shares)
  {
    var q := Portion(shares, left, supply);
    assert (left - q) * supply == left * supply - q * supply;
    assert left * (supply - shares) == left * supply - left * shares;
    assert shares * left == left * shares;
  }

  ghost predicate WorthAtLeast(p: Pot, q: Pot)
  {
    p.cash * q.supply >= q.cash * p.supply && p.rwa * q.supply >= q.rwa * p.supply
  }

  lemma StepWorth(p: Pot, op: Op)
    ensures WorthAtLeast(After(p, op), p)
  {
    if Allowed(p, op) {
      match op
      case Claim(s) =>
        PortionRatio(s, p.cash, p.supply);
        PortionRatio(s, p.rwa, p.supply);
      case Burn(s) =>
        MulMono(p.supply - s, p.supply, p.cash);
        MulMono(p.supply - s, p.supply, p.rwa);
    }
  }

  lemma {:induction false} RunWorth(p: Pot, ops: seq<Op>)
    ensures WorthAtLeast(Run(p, ops), p)
    ensures Run(p, ops).supply <= p.supply
  {
    if ops != [] {
      var q := Run(p, ops[..|ops| - 1]);
      RunWorth(p, ops[..|ops| - 1]);
      StepWorth(q, ops[|ops| - 1]);
      if q.supply > 0 {
        var r := Run(p, ops);
        RatioTrans(r.cash, r.supply, q.cash, q.supply, p.cash, p.supply);
        RatioTrans(r.rwa, r.supply, q.rwa, q.supply, p.rwa, p.supply);
      }
    }
  }

  lemma PortionMono(shares: nat, left: nat, supply: nat, left0: nat, supply0: nat)
    requires 0 < shares <= supply && supply0 > 0 && left * supply0 >= left0 * supply
    ensures Portion(shares, left, supply) >= Floor(shares, left0, supply0)
  {
    var f := Floor(shares, left0, supply0);
    assert f * supply <= shares * left by {
      // f/shares <= left0/supply0 <= left/supply
      assert left0 * shares >= f * supply0;
      RatioTrans(left, supply, left0, supply0, f, shares);
      assert left * shares == shares * left;
    }
    FloorMax(f, shares, left, supply);
  }

  /** However claims are ordered and split, and whoever burns, each claim pays at
      least its share of the pot as it was settled, rounded down. */
  lemma ClaimPaysSettlementShare(p: Pot, ops: seq<Op>, shares: nat)
    requires 0 < shares <= Run(p, ops).supply && p.supply > 0
    ensures Portion(shares, Run(p, ops).cash, Run(p, ops).supply) >= Floor(shares, p.cash, p.supply)
    ensures Portion(shares, Run(p, ops).rwa, Run(p, ops).supply) >= Floor(shares, p.rwa, p.supply)
  {
    RunWorth(p, ops);
    var q := Run(p, ops);
    PortionMono(shares, q.cash, q.supply, p.cash, p.supply);
    PortionMono(shares, q.rwa, q.supply, p.rwa, p.supply);
  }

  /** The shares a run claims, when every operation is an allowed claim. */
  function Claimed(ops: seq<Op>): nat { if ops == [] then 0 else Claimed(ops[..|ops| - 1]) + ops[|ops| - 1].shares }

  ghost predicate AllClaims(p: Pot, ops: seq<Op>)
  {
    forall i :: 0 <= i < |ops| ==> ops[i].Claim? && Allowed(Run(p, ops[..i]), ops[i])
  }

  lemma {:induction false} ClaimsSupply(p: Pot, ops: seq<Op>)
    requires AllClaims(p, ops)
    ensures Run(p, ops).supply + Claimed(ops) == p.supply
    ensures Run(p, ops).cash <= p.cash && Run(p, ops).rwa <= p.rwa
  {
    if ops != [] {
      var front := ops[..|ops| - 1];
      forall i | 0 <= i < |front|
        ensures front[i].Claim? && Allowed(Run(p, front[..i]), front[i])
      {
        assert front[..i] == ops[..i];
      }
      ClaimsSupply(p, front);
    }
  }

  lemma TotalBound(left0: nat, left: nat, s0: nat, claimed: nat)
    requires s0 > 0 && claimed <= s0 && left <= left0 && left * s0 >= left0 * (s0 - claimed)
    ensures left0 - left <= Floor(claimed, left0, s0)
  {
    assert (left0 - left) * s0 == left0 * s0 - left * s0;
    assert left0 * (s0 - claimed) == left0 * s0 - left0 * claimed;
    assert left0 * claimed == claimed * left0;
    FloorMax(left0 - left, claimed, left0, s0);
  }

  lemma SplitWithin(p: Pot, q: Pot, claimed: nat)
    requires 0 < claimed && q.supply + claimed == p.supply && q.cash <= p.cash && q.rwa <= p.rwa
    requires q.cash * p.supply >= p.cash * q.supply && q.rwa * p.supply >= p.rwa * q.supply
    ensures p.cash - q.cash <= Portion(claimed, p.cash, p.supply) && p.rwa - q.rwa <= Portion(claimed, p.rwa, p.supply)
  {
    TotalBound(p.cash, q.cash, p.supply, claimed);
    TotalBound(p.rwa, q.rwa, p.supply, claimed);
  }

  /** Splitting a claim never pays more than claiming it all at once. */
  lemma SplittingNeverPaysMore(p: Pot, ops: seq<Op>)
    requires AllClaims(p, ops) && ops != []
    ensures 0 < Claimed(ops) <= p.supply
    ensures p.cash - Run(p, ops).cash <= Portion(Claimed(ops), p.cash, p.supply)
    ensures p.rwa - Run(p, ops).rwa <= Portion(Claimed(ops), p.rwa, p.supply)
  {
    ClaimsSupply(p, ops);
    RunWorth(p, ops);
    assert ops[|ops| - 1].shares > 0;
    SplitWithin(p, Run(p, ops), Claimed(ops));
  }

  /** The claim that burns the last token leaves nothing behind. */
  lemma LastClaimEmpties(p: Pot, ops: seq<Op>)
    requires Run(p, ops).supply > 0
    ensures After(Run(p, ops), Claim(Run(p, ops).supply)) == Pot(0, 0, 0)
  {}
}
