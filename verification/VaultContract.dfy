/** The vault as the object it is: share balances, supply and mark in its storage,
    loops over its venues, each entry point proved to be the step `Vault` says. */
module VaultContract {

  import opened Math
  import opened Shares
  import opened Vault

  class LendingVault {
    const me: Address
    var curator: Address
    var bps: nat
    var cap: nat
    var frozen: set<Address>
    // shares
    var balances: map<Address, int>
    var supply: nat
    var mark: nat
    // the asset token's ledger and the venues
    var cash: map<Address, int>
    var venues: seq<Venue>

    function Now(): State
      reads this
    {
      State(me, curator, bps, cap, cash, venues, Ledger(balances, supply, mark), frozen)
    }

    constructor (me: Address, curator: Address, bps: nat, cap: nat)
      requires bps <= BPS
      ensures Init(Now())
    {
      this.me, this.curator, this.bps, this.cap := me, curator, bps, cap;
      frozen, balances, supply, mark := {}, map[], 0, SharePrice(0, 0);
      cash, venues := map[], [];
    }

    method Rollback(v: State)
      requires v.me == me
      modifies this
      ensures Now() == v
    {
      curator, bps, cap, frozen := v.curator, v.bps, v.cap, v.frozen;
      balances, supply, mark := v.ledger.balances, v.ledger.supply, v.ledger.mark;
      cash, venues := v.cash, v.venues;
    }

    method TotalAssets() returns (total: int)
      ensures total == Gross(Now())
    {
      total := Get(cash, me);
      for i := 0 to |venues|
        invariant total == Idle(Now()) + AssetsOf(venues[..i])
      {
        total := total + venues[i].assets;
        assert venues[..i + 1][..i] == venues[..i];
      }
      assert venues[..|venues|] == venues;
    }

    method PayableNow() returns (total: int)
      ensures total == Liquidity(Now())
    {
      total := Get(cash, me);
      for i := 0 to |venues|
        invariant total == Idle(Now()) + LimitsOf(venues[..i])
      {
        total := total + venues[i].limit;
        LimitsSplit(venues, i);
      }
      assert venues[..|venues|] == venues;
    }

    method MintTo(to: Address, amount: nat)
      modifies this`balances, this`supply
      ensures Now() == old(Now()).(ledger := Minted(old(Now()).ledger, to, amount))
    {
      balances := balances[to := Get(balances, to) + amount];
      supply := supply + amount;
    }

    method BurnFrom(owner: Address, amount: int) returns (ok: bool)
      modifies this`balances, this`supply
      ensures match Burned(old(Now()), owner, amount)
              case None => !ok && Now() == old(Now())
              case Some(w) => ok && Now() == w
    {
      if amount < 0 || owner in frozen || Get(balances, owner) < amount || supply < amount { return false; }
      balances := balances[owner := Get(balances, owner) - amount];
      supply := supply - amount;
      ok := true;
    }

    /** Mints the fee due, moves the mark; nothing when NAV has no price. */
    method AccrueNow() returns (snap: Option<Snapshot>)
      modifies this`balances, this`supply, this`mark
      ensures snap.Some? <==> Priced(old(Now()))
      ensures snap.Some? ==> snap.value == SnapOf(old(Now())) && Now() == Accrued(old(Now()))
      ensures snap.None? ==> Now() == old(Now())
    {
      var nav := TotalAssets();
      if nav < 0 || bps > BPS { return None; }
      var s := Snap(nav, supply, mark, bps);
      MintTo(curator, s.feeShares);
      mark := s.mark;
      snap := Some(s);
    }

    method TransferAsset(from: Address, to: Address, amount: int)
      modifies this`cash
      ensures Now() == old(Now()).(cash := Move(old(cash), from, to, amount))
    {
      cash := cash[from := Get(cash, from) - amount];
      cash := cash[to := Get(cash, to) + amount];
    }

    /** Draws on venues in order while idle is short, stopping when it is not. */
    method SendOut(to: Address, assets: int) returns (ok: bool)
      modifies this`cash, this`venues
      ensures match Send(old(Now()), to, assets)
              case None => !ok
              case Some(w) => ok && Now() == w
    {
      ghost var idle := Get(cash, me);
      var idleNow := Get(cash, me);
      var i := 0;
      while i < |venues| && assets - idleNow > 0
        invariant i <= |venues| == |old(venues)| && cash == old(cash)
        invariant Draw(idle, old(venues), assets, i) == Drawn(idleNow, venues)
      {
        DrawUntouched(idle, old(venues), assets, i);
        var take := Min(assets - idleNow, venues[i].limit);
        if take > 0 {
          venues := venues[i := Venue(venues[i].assets - take, venues[i].limit - take)];
          idleNow := idleNow + take;
        }
        i := i + 1;
      }
      EnoughStops(idle, old(venues), assets, i);
      if idleNow < assets { return false; }
      cash := cash[me := idleNow];
      TransferAsset(me, to, assets);
      ok := true;
    }

    method Leave(owner: Address, receiver: Address, burned: int, assets: int) returns (ok: bool)
      modifies this
      ensures match Exit(old(Now()), owner, receiver, burned, assets)
              case None => !ok
              case Some(w) => ok && Now() == w
    {
      if burned <= 0 || assets <= 0 { return false; }
      ok := BurnFrom(owner, burned);
      if ok { ok := SendOut(receiver, assets); }
    }

    method DepositAssets(assets: int, receiver: Address, from: Address) returns (ok: bool)
      modifies this
      ensures ok <==> Deposit(old(Now()), assets, receiver, from).Some?
      ensures Now() == After(old(Now()), DoDeposit(assets, receiver, from))
    {
      var saved := Now();
      if assets <= 0 || Get(cash, from) < assets || from == me { return false; }
      var snap := AccrueNow();
      if snap.None? { return false; }
      var minted := ToShares(snap.value, assets, false);
      if (cap > 0 && snap.value.nav + assets > cap) || minted <= 0 {
        Rollback(saved);
        return false;
      }
      TransferAsset(from, me, assets);
      MintTo(receiver, minted);
      ok := true;
    }

    method MintExact(shares: int, receiver: Address, from: Address) returns (ok: bool)
      modifies this
      ensures ok <==> MintShares(old(Now()), shares, receiver, from).Some?
      ensures Now() == After(old(Now()), DoMint(shares, receiver, from))
    {
      var saved := Now();
      if shares <= 0 || from == me { return false; }
      var snap := AccrueNow();
      if snap.None? { return false; }
      var assets := ToAssets(snap.value, shares, true);
      if assets <= 0 || (cap > 0 && snap.value.nav + assets > cap) || Get(cash, from) < assets {
        Rollback(saved);
        return false;
      }
      TransferAsset(from, me, assets);
      MintTo(receiver, shares);
      ok := true;
    }

    method WithdrawAssets(assets: int, receiver: Address, owner: Address) returns (ok: bool)
      modifies this
      ensures ok <==> Withdraw(old(Now()), assets, receiver, owner).Some?
      ensures Now() == After(old(Now()), DoWithdraw(assets, receiver, owner))
    {
      var saved := Now();
      if assets < 0 { return false; }
      var snap := AccrueNow();
      if snap.None? { return false; }
      ok := Leave(owner, receiver, ToShares(snap.value, assets, true), assets);
      if !ok { Rollback(saved); }
    }

    method RedeemShares(shares: int, receiver: Address, owner: Address) returns (ok: bool)
      modifies this
      ensures ok <==> Redeem(old(Now()), shares, receiver, owner).Some?
      ensures Now() == After(old(Now()), DoRedeem(shares, receiver, owner))
    {
      var saved := Now();
      if shares < 0 { return false; }
      var snap := AccrueNow();
      if snap.None? { return false; }
      ok := Leave(owner, receiver, shares, ToAssets(snap.value, shares, false));
      if !ok { Rollback(saved); }
    }

    method TransferShares(from: Address, to: Address, amount: int, seized: bool) returns (ok: bool)
      modifies this`balances
      ensures ok <==> MoveShares(old(Now()), from, to, amount, seized).Some?
      ensures Now() == After(old(Now()), DoMove(from, to, amount, seized))
    {
      if amount < 0 || (seized && amount == 0) || Get(balances, from) < amount { return false; }
      if !seized && (from in frozen || to in frozen) { return false; }
      balances := balances[from := Get(balances, from) - amount];
      balances := balances[to := Get(balances, to) + amount];
      ok := true;
    }

    method LimitFor(owner: Address) returns (limit: int)
      requires Priced(Now()) && Get(balances, owner) >= 0
      ensures limit == MaxWithdraw(Now(), owner)
    {
      var nav := TotalAssets();
      var payable := PayableNow();
      limit := Min(ToAssets(Snap(nav, supply, mark, bps), Get(balances, owner), false), payable);
    }
  }

  /** Once idle reaches the target the rest of the venues are left alone. */
  lemma {:induction false} EnoughStops(idle: int, venues: seq<Venue>, assets: int, n: nat)
    requires n <= |venues| && (n == |venues| || Draw(idle, venues, assets, n).idle >= assets)
    ensures Draw(idle, venues, assets, |venues|) == Draw(idle, venues, assets, n)
    decreases |venues| - n
  {
    if n < |venues| { EnoughStops(idle, venues, assets, n + 1); }
  }
}
