/** A vault over lending venues (`contracts/vault/src/lib.rs`), as functions from
    state to state; `None` is a call that panics. A venue is the two numbers it
    reports, and pays what it is asked up to its limit. */
module Vault {

  import opened Math
  import opened Sums
  import opened Shares

  const MAX_VENUES: nat := 8

  datatype Venue = Venue(assets: int, limit: nat)

  /** `cash` is the asset token's ledger. */
  datatype State = State(
    me: Address, curator: Address, bps: nat, cap: nat,
    cash: map<Address, int>, venues: seq<Venue>, ledger: Ledger, frozen: set<Address>)

  function Move(m: map<Address, int>, from: Address, to: Address, amount: int): map<Address, int>
  {
    var m1 := m[from := Get(m, from) - amount];
    m1[to := Get(m1, to) + amount]
  }

  function Idle(v: State): int { Get(v.cash, v.me) }

  function AssetsOf(venues: seq<Venue>): int
  {
    if venues == [] then 0 else AssetsOf(venues[..|venues| - 1]) + venues[|venues| - 1].assets
  }

  function LimitsOf(venues: seq<Venue>): nat
  {
    if venues == [] then 0 else LimitsOf(venues[..|venues| - 1]) + venues[|venues| - 1].limit
  }

  /** NAV: idle plus what the venues hold. */
  function Gross(v: State): int { Idle(v) + AssetsOf(v.venues) }

  /** Payable right now. */
  function Liquidity(v: State): int { Idle(v) + LimitsOf(v.venues) }

  predicate Priced(v: State) { Gross(v) >= 0 && v.bps <= BPS }

  function SnapOf(v: State): Snapshot
    requires Priced(v)
  {
    Snap(Gross(v), v.ledger.supply, v.ledger.mark, v.bps)
  }

  function BalanceOf(v: State, who: Address): int { Get(v.ledger.balances, who) }

  function Minted(l: Ledger, to: Address, amount: nat): Ledger
  {
    l.(balances := l.balances[to := Get(l.balances, to) + amount], supply := l.supply + amount)
  }

  /** `accrue_now`: supply and mark become the snapshot's. */
  function Accrued(v: State): State
    requires Priced(v)
  {
    v.(ledger := Minted(v.ledger, v.curator, SnapOf(v).feeShares).(mark := SnapOf(v).mark))
  }

  /** `burn`: only an unfrozen holder's own shares. */
  function Burned(v: State, owner: Address, amount: int): Option<State>
  {
    if amount < 0 || owner in v.frozen || BalanceOf(v, owner) < amount || v.ledger.supply < amount then None
    else
      Some(v.(ledger := v.ledger.(balances := v.ledger.balances[owner := BalanceOf(v, owner) - amount],
                                  supply := v.ledger.supply - amount)))
  }

  // ---- paying out

  datatype Drawn = Drawn(idle: int, venues: seq<Venue>)

  /** One venue asked for what is still short, up to its limit. */
  function TakeFrom(d: Drawn, i: nat, assets: int): (r: Drawn)
    requires i < |d.venues|
    ensures |r.venues| == |d.venues|
  {
    var take := Min(assets - d.idle, d.venues[i].limit);
    if take <= 0 then d
    else Drawn(d.idle + take, d.venues[i := Venue(d.venues[i].assets - take, d.venues[i].limit - take)])
  }

  /** What drawing for `assets` takes from the first `n` venues, in order. */
  function Draw(idle: int, venues: seq<Venue>, assets: int, n: nat): (d: Drawn)
    requires n <= |venues|
    ensures |d.venues| == |venues|
  {
    if n == 0 then Drawn(idle, venues) else TakeFrom(Draw(idle, venues, assets, n - 1), n - 1, assets)
  }

  function Send(v: State, to: Address, assets: int): Option<State>
  {
    var d := Draw(Idle(v), v.venues, assets, |v.venues|);
    if d.idle < assets then None
    else Some(v.(cash := Move(v.cash[v.me := d.idle], v.me, to, assets), venues := d.venues))
  }

  function Exit(v: State, owner: Address, receiver: Address, burned: int, assets: int): Option<State>
  {
    if burned <= 0 || assets <= 0 then None
    else match Burned(v, owner, burned)
      case None => None
      case Some(w) => Send(w, receiver, assets)
  }

  // ---- entry points

  predicate CapAllows(v: State, assets: int) { v.cap > 0 ==> Gross(v) + assets <= v.cap }

  function Deposit(v: State, assets: int, receiver: Address, from: Address): Option<State>
  {
    if !Priced(v) || assets <= 0 || !CapAllows(v, assets) || Get(v.cash, from) < assets || from == v.me then None
    else
      var w := Accrued(v);
      var minted := ToShares(SnapOf(v), assets, false);
      if minted <= 0 then None
      else Some(w.(cash := Move(w.cash, from, w.me, assets), ledger := Minted(w.ledger, receiver, minted)))
  }

  function MintShares(v: State, shares: int, receiver: Address, from: Address): Option<State>
  {
    if !Priced(v) || shares <= 0 then None
    else
      var assets := ToAssets(SnapOf(v), shares, true);
      if assets <= 0 || !CapAllows(v, assets) || Get(v.cash, from) < assets || from == v.me then None
      else
        var w := Accrued(v);
        Some(w.(cash := Move(w.cash, from, w.me, assets), ledger := Minted(w.ledger, receiver, shares)))
  }

  function Withdraw(v: State, assets: int, receiver: Address, owner: Address): Option<State>
  {
    if !Priced(v) || assets < 0 then None
    else Exit(Accrued(v), owner, receiver, ToShares(SnapOf(v), assets, true), assets)
  }

  function Redeem(v: State, shares: int, receiver: Address, owner: Address): Option<State>
  {
    if !Priced(v) || shares < 0 then None
    else Exit(Accrued(v), owner, receiver, shares, ToAssets(SnapOf(v), shares, false))
  }

  /** Shares moved between holders; the manager may move a frozen holder's. */
  function MoveShares(v: State, from: Address, to: Address, amount: int, seized: bool): Option<State>
  {
    if amount < 0 || (seized && amount == 0) || BalanceOf(v, from) < amount then None
    else if !seized && (from in v.frozen || to in v.frozen) then None
    else Some(v.(ledger := v.ledger.(balances := Move(v.ledger.balances, from, to, amount))))
  }

  function Allocate(v: State, i: nat, amount: int): Option<State>
  {
    if !Priced(v) || i >= |v.venues| || amount <= 0 || amount > Idle(v) then None
    else
      var w := Accrued(v);
      Some(w.(cash := w.cash[w.me := Idle(w) - amount],
              venues := w.venues[i := Venue(w.venues[i].assets + amount, w.venues[i].limit + amount)]))
  }

  function Deallocate(v: State, i: nat, amount: int): Option<State>
  {
    if !Priced(v) || i >= |v.venues| || amount < 0 || amount > v.venues[i].limit then None
    else
      var w := Accrued(v);
      Some(w.(cash := w.cash[w.me := Idle(w) + amount],
              venues := w.venues[i := Venue(w.venues[i].assets - amount, w.venues[i].limit - amount)]))
  }

  /** A new venue is deployed empty. */
  function AddVenue(v: State): Option<State>
  {
    if |v.venues| >= MAX_VENUES then None else Some(v.(venues := v.venues + [Venue(0, 0)]))
  }

  /** Only an empty one is dropped. */
  function DropVenue(v: State, i: nat): Option<State>
  {
    if i >= |v.venues| || v.venues[i].assets > 0 then None
    else Some(v.(venues := v.venues[..i] + v.venues[i + 1..]))
  }

  function MaxWithdraw(v: State, owner: Address): int
    requires Priced(v) && BalanceOf(v, owner) >= 0
  {
    Min(ToAssets(SnapOf(v), BalanceOf(v, owner), false), Liquidity(v))
  }

  function MaxRedeem(v: State, owner: Address): int
    requires Priced(v) && Liquidity(v) >= 0
  {
    Min(BalanceOf(v, owner), ToShares(SnapOf(v), Liquidity(v), false))
  }

  // ---- a run

  datatype Step =
    | DoDeposit(assets: int, receiver: Address, from: Address)
    | DoMint(shares: int, receiver: Address, from: Address)
    | DoWithdraw(assets: int, receiver: Address, owner: Address)
    | DoRedeem(shares: int, receiver: Address, owner: Address)
    | DoBurn(owner: Address, shares: int)
    | DoMove(holder: Address, to: Address, shares: int, seized: bool)
    | DoAccrue
    | DoAllocate(venue: nat, amount: int)
    | DoDeallocate(venue: nat, amount: int)
    | DoSetFee(bps: nat)
    | DoSetCap(cap: nat)
    | DoAddVenue
    | DoDropVenue(venue: nat)
    | DoOrder(order: seq<Venue>)
    | DoFreeze(who: set<Address>)
    | DoYield(venue: nat, gain: nat, limit: nat)
    | DoPay(payer: Address, to: Address, sum: nat)

  /** Governance that accrues no fee first. */
  predicate Governs(step: Step)
  {
    step.DoSetCap? || step.DoAddVenue? || step.DoDropVenue? || step.DoOrder? || step.DoFreeze?
  }

  /** The state an entry point acts on, its fee accrued if it accrues. */
  function Acting(v: State, step: Step): State
    requires Priced(v)
  {
    if step.DoBurn? || step.DoMove? || Governs(step) || step.DoYield? || step.DoPay? then v else Accrued(v)
  }

  function Next(v: State, step: Step): Option<State>
  {
    match step
    case DoDeposit(assets, receiver, from) => Deposit(v, assets, receiver, from)
    case DoMint(shares, receiver, from) => MintShares(v, shares, receiver, from)
    case DoWithdraw(assets, receiver, owner) => Withdraw(v, assets, receiver, owner)
    case DoRedeem(shares, receiver, owner) => Redeem(v, shares, receiver, owner)
    case DoBurn(owner, shares) => Burned(v, owner, shares)
    case DoMove(from, to, shares, seized) => MoveShares(v, from, to, shares, seized)
    case DoAccrue => if Priced(v) then Some(Accrued(v)) else None
    case DoAllocate(i, amount) => Allocate(v, i, amount)
    case DoDeallocate(i, amount) => Deallocate(v, i, amount)
    case DoSetFee(bps) => if Priced(v) && bps <= BPS then Some(Accrued(v).(bps := bps)) else None
    case DoSetCap(cap) => Some(v.(cap := cap))
    case DoAddVenue => AddVenue(v)
    case DoDropVenue(i) => DropVenue(v, i)
    case DoOrder(order) => if multiset(order) == multiset(v.venues) then Some(v.(venues := order)) else None
    case DoFreeze(who) => Some(v.(frozen := who))
    case DoYield(i, gain, limit) =>
      if i < |v.venues| then Some(v.(venues := v.venues[i := Venue(v.venues[i].assets + gain, limit)])) else None
    case DoPay(from, to, sum) =>
      if from != v.me && Get(v.cash, from) >= sum then Some(v.(cash := Move(v.cash, from, to, sum))) else None
  }

  function After(v: State, step: Step): State
  {
    match Next(v, step) case Some(w) => w case None => v
  }

  function Run(v: State, steps: seq<Step>): State
  {
    if steps == [] then v else After(Run(v, steps[..|steps| - 1]), steps[|steps| - 1])
  }

  // ---- drawing on venues

  lemma AssetsPut(venues: seq<Venue>, i: nat, x: Venue)
    requires i < |venues|
    ensures AssetsOf(venues[i := x]) == AssetsOf(venues) + x.assets - venues[i].assets
    ensures LimitsOf(venues[i := x]) == LimitsOf(venues) + x.limit - venues[i].limit
  {
    var n := |venues| - 1;
    if i < n {
      assert venues[i := x][..n] == venues[..n][i := x];
      AssetsPut(venues[..n], i, x);
    } else {
      assert venues[i := x][..n] == venues[..n];
    }
  }

  lemma {:induction false} AssetsDrop(venues: seq<Venue>, i: nat)
    requires i < |venues|
    ensures AssetsOf(venues[..i] + venues[i + 1..]) == AssetsOf(venues) - venues[i].assets
  {
    var n := |venues| - 1;
    if i == n {
      assert venues[..i] + venues[i + 1..] == venues[..n];
    } else {
      var left := venues[..i] + venues[i + 1..];
      assert left[..n - 1] == venues[..n][..i] + venues[..n][i + 1..];
      AssetsDrop(venues[..n], i);
    }
  }

  lemma BagDrop(venues: seq<Venue>, i: nat)
    requires i < |venues|
    ensures multiset(venues[..i] + venues[i + 1..]) == multiset(venues) - multiset{venues[i]}
  {
    assert venues == venues[..i] + [venues[i]] + venues[i + 1..];
  }

  /** The order of venues is nothing to what they hold. */
  lemma {:induction false} AssetsOrder(a: seq<Venue>, b: seq<Venue>)
    requires multiset(a) == multiset(b)
    ensures AssetsOf(a) == AssetsOf(b)
    decreases |a|
  {
    if a == [] {
      assert |multiset(b)| == 0;
    } else {
      var n := |a| - 1;
      assert a[n] in multiset(b);
      var j :| 0 <= j < |b| && b[j] == a[n];
      BagDrop(a, n);
      BagDrop(b, j);
      assert a[..n] + a[n + 1..] == a[..n];
      AssetsOrder(a[..n], b[..j] + b[j + 1..]);
      AssetsDrop(b, j);
    }
  }

  lemma LimitsSplit(venues: seq<Venue>, n: nat)
    requires n < |venues|
    ensures LimitsOf(venues[..n + 1]) == LimitsOf(venues[..n]) + venues[n].limit
  {
    assert venues[..n + 1][..n] == venues[..n];
  }

  /** A venue is touched only after every earlier one is drawn to its limit, and
      gives up as much of its limit as of its assets. */
  lemma {:induction false} DrawsInOrder(idle: int, venues: seq<Venue>, assets: int, n: nat)
    requires n <= |venues|
    ensures var d := Draw(idle, venues, assets, n);
            && (forall i, j :: 0 <= i < j < |venues| && d.venues[j] != venues[j] ==> d.venues[i].limit == 0)
            && (forall i :: 0 <= i < |venues| ==> venues[i].assets - d.venues[i].assets == venues[i].limit - d.venues[i].limit)
            && (d.idle < assets ==> forall i :: 0 <= i < n ==> d.venues[i].limit == 0)
            && forall i :: n <= i < |venues| ==> d.venues[i] == venues[i]
  {
    if n > 0 {
      DrawsInOrder(idle, venues, assets, n - 1);
    }
  }

  /** What a vault and its venues hold between them, and can pay. */
  function Held(d: Drawn): int { d.idle + AssetsOf(d.venues) }
  function Payable(d: Drawn): int { d.idle + LimitsOf(d.venues) }

  /** What the vault gains, the venues lose. */
  lemma TakeConserves(d: Drawn, i: nat, assets: int)
    requires i < |d.venues|
    ensures Held(TakeFrom(d, i, assets)) == Held(d) && Payable(TakeFrom(d, i, assets)) == Payable(d)
  {
    var take := Min(assets - d.idle, d.venues[i].limit);
    if take > 0 {
      AssetsPut(d.venues, i, Venue(d.venues[i].assets - take, d.venues[i].limit - take));
    }
  }

  lemma {:induction false} DrawConserves(idle: int, venues: seq<Venue>, assets: int, n: nat)
    requires n <= |venues|
    ensures Held(Draw(idle, venues, assets, n)) == Held(Drawn(idle, venues))
    ensures Payable(Draw(idle, venues, assets, n)) == Payable(Drawn(idle, venues))
  {
    if n > 0 {
      DrawConserves(idle, venues, assets, n - 1);
      TakeConserves(Draw(idle, venues, assets, n - 1), n - 1, assets);
    }
  }

  /** The first `n` venues give exactly what is short of `assets`, or all they can. */
  lemma {:induction false} DrawsTheShortfall(idle: int, venues: seq<Venue>, assets: int, n: nat)
    requires n <= |venues|
    ensures Draw(idle, venues, assets, n).idle == Max(idle, Min(assets, idle + LimitsOf(venues[..n])))
  {
    if n > 0 {
      DrawsTheShortfall(idle, venues, assets, n - 1);
      DrawUntouched(idle, venues, assets, n - 1);
      LimitsSplit(venues, n - 1);
    }
  }

  lemma DrawUntouched(idle: int, venues: seq<Venue>, assets: int, n: nat)
    requires n < |venues|
    ensures Draw(idle, venues, assets, n).venues[n] == venues[n]
  {
    DrawsInOrder(idle, venues, assets, n);
  }

  /** Sending succeeds exactly when it is payable, and costs NAV exactly `assets`
      unless the vault pays itself. */
  lemma SendExact(v: State, to: Address, assets: int)
    requires assets > 0
    ensures Send(v, to, assets).Some? <==> assets <= Liquidity(v)
    ensures Send(v, to, assets).Some? ==>
              Gross(Send(v, to, assets).value) == Gross(v) - (if to == v.me then 0 else assets)
  {
    var n := |v.venues|;
    assert v.venues[..n] == v.venues;
    DrawsTheShortfall(Idle(v), v.venues, assets, n);
    DrawConserves(Idle(v), v.venues, assets, n);
  }

  // ---- what every step keeps

  ghost function Share(): (Address, int) -> int { (a: Address, n: int) => n }

  /** Shares are never negative and add up to the supply. */
  ghost predicate LedgerOk(l: Ledger)
  {
    (forall a :: a in l.balances ==> l.balances[a] >= 0) && Sum(l.balances, Share()) == l.supply
  }

  lemma LedgerAdd(l: Ledger, who: Address, amount: int, supply: nat, mark: nat)
    requires LedgerOk(l) && Get(l.balances, who) + amount >= 0 && supply == l.supply + amount
    ensures LedgerOk(Ledger(l.balances[who := Get(l.balances, who) + amount], supply, mark))
  {
    SumPut(l.balances, Share(), who, Get(l.balances, who) + amount);
  }

  lemma HeldWithinSupply(l: Ledger, who: Address)
    requires LedgerOk(l)
    ensures 0 <= Get(l.balances, who) <= l.supply
  {
    SumBounds(l.balances, Share());
    if who in l.balances { assert Share()(who, l.balances[who]) == l.balances[who]; }
  }

  lemma LedgerMove(l: Ledger, from: Address, to: Address, amount: int)
    requires LedgerOk(l) && 0 <= amount <= Get(l.balances, from)
    ensures LedgerOk(l.(balances := Move(l.balances, from, to, amount)))
  {
    HeldWithinSupply(l, from);
    var m := l.(balances := l.balances[from := Get(l.balances, from) - amount], supply := l.supply - amount);
    LedgerAdd(l, from, -amount, m.supply, m.mark);
    HeldWithinSupply(m, to);
    LedgerAdd(m, to, amount, l.supply, l.mark);
  }

  lemma AccruedLedger(v: State)
    requires Priced(v) && LedgerOk(v.ledger)
    ensures LedgerOk(Accrued(v).ledger)
    ensures BalanceOf(Accrued(v), v.curator) == BalanceOf(v, v.curator) + SnapOf(v).feeShares
    ensures forall a :: a != v.curator ==> BalanceOf(Accrued(v), a) == BalanceOf(v, a)
  {
    HeldWithinSupply(v.ledger, v.curator);
    LedgerAdd(v.ledger, v.curator, SnapOf(v).feeShares, SnapOf(v).supply, SnapOf(v).mark);
  }

  lemma BurnedLedger(v: State, w: State, owner: Address, amount: int)
    requires LedgerOk(v.ledger) && Burned(v, owner, amount) == Some(w)
    ensures LedgerOk(w.ledger)
  {
    LedgerAdd(v.ledger, owner, -amount, w.ledger.supply, w.ledger.mark);
  }

  lemma ExitShape(v: State, w: State, owner: Address, receiver: Address, burned: int, assets: int)
    requires Exit(v, owner, receiver, burned, assets) == Some(w)
    ensures burned > 0 && assets > 0 && Burned(v, owner, burned).Some? && w.ledger == Burned(v, owner, burned).value.ledger
    ensures Gross(w) == Gross(v) - (if receiver == v.me then 0 else assets)
    ensures w == v.(cash := w.cash, venues := w.venues, ledger := w.ledger)
  {
    SendExact(Burned(v, owner, burned).value, receiver, assets);
  }

  lemma ExitLedger(v: State, w: State, owner: Address, receiver: Address, burned: int, assets: int)
    requires LedgerOk(v.ledger) && Exit(v, owner, receiver, burned, assets) == Some(w)
    ensures LedgerOk(w.ledger)
  {
    ExitShape(v, w, owner, receiver, burned, assets);
    BurnedLedger(v, Burned(v, owner, burned).value, owner, burned);
  }

  lemma LedgerKept(v: State, step: Step, w: State)
    requires LedgerOk(v.ledger) && Next(v, step) == Some(w)
    ensures LedgerOk(w.ledger)
  {
    if Priced(v) { AccruedLedger(v); }
    match step
    case DoDeposit(assets, receiver, from) =>
      HeldWithinSupply(Accrued(v).ledger, receiver);
      LedgerAdd(Accrued(v).ledger, receiver, ToShares(SnapOf(v), assets, false), w.ledger.supply, w.ledger.mark);
    case DoMint(shares, receiver, from) =>
      HeldWithinSupply(Accrued(v).ledger, receiver);
      LedgerAdd(Accrued(v).ledger, receiver, shares, w.ledger.supply, w.ledger.mark);
    case DoWithdraw(assets, receiver, owner) =>
      ExitLedger(Accrued(v), w, owner, receiver, ToShares(SnapOf(v), assets, true), assets);
    case DoRedeem(shares, receiver, owner) =>
      ExitLedger(Accrued(v), w, owner, receiver, shares, ToAssets(SnapOf(v), shares, false));
    case DoBurn(owner, shares) => BurnedLedger(v, w, owner, shares);
    case DoMove(from, to, shares, seized) => LedgerMove(v.ledger, from, to, shares);
    case _ =>
  }

  /** NAV is never negative, shares add up, and the share price, fee and all, has
      not fallen below the high-water mark. */
  ghost predicate Inv(v: State)
  {
    Priced(v) && LedgerOk(v.ledger) && Above(Gross(v), v.ledger.supply, v.ledger.mark)
  }

  /** From an accrued state, what an entry point does next leaves the mark alone
      and assets per share no lower. */
  ghost predicate Fair(v: State, w: State)
  {
    Gross(v) >= 0 && Gross(w) >= 0 && w.ledger.mark == v.ledger.mark && NoWorse(Gross(v), v.ledger.supply, Gross(w), w.ledger.supply)
  }

  lemma AccruedGross(v: State)
    requires Priced(v)
    ensures Gross(Accrued(v)) == Gross(v) && Accrued(v).bps == v.bps
    ensures Accrued(v).ledger.supply == SnapOf(v).supply && Accrued(v).ledger.mark == SnapOf(v).mark && SnapOf(v).nav == Gross(v)
  {}

  lemma AccruedInv(v: State)
    requires Inv(v)
    ensures Inv(Accrued(v)) && Accrued(v).ledger.mark >= v.ledger.mark
  {
    AccruedGross(v);
    AccruedLedger(v);
    AboveIsPrice(Gross(v), v.ledger.supply, v.ledger.mark);
    MarkNeverFalls(Gross(v), v.ledger.supply, v.ledger.mark, v.bps);
    AboveIsPrice(Gross(v), SnapOf(v).supply, SnapOf(v).mark);
  }

  lemma MoveGross(v: State, from: Address, to: Address, amount: int)
    ensures Gross(v.(cash := Move(v.cash, from, to, amount)))
         == Gross(v) - (if from == v.me then amount else 0) + (if to == v.me then amount else 0)
  {}

  lemma DepositFair(v: State, w: State, assets: int, receiver: Address, from: Address)
    requires Inv(v) && Deposit(v, assets, receiver, from) == Some(w)
    ensures Fair(Accrued(v), w)
  {
    AccruedGross(v);
    MoveGross(Accrued(v), from, v.me, assets);
    var minted := ToShares(SnapOf(v), assets, false);
    ConversionsFavourTheIssuer(SnapOf(v), assets);
    EnterNoWorse(Gross(v), SnapOf(v).supply, assets, minted);
  }

  lemma MintFair(v: State, w: State, shares: int, receiver: Address, from: Address)
    requires Inv(v) && MintShares(v, shares, receiver, from) == Some(w)
    ensures Fair(Accrued(v), w)
  {
    AccruedGross(v);
    var assets := ToAssets(SnapOf(v), shares, true);
    MoveGross(Accrued(v), from, v.me, assets);
    ConversionsFavourTheIssuer(SnapOf(v), shares);
    EnterNoWorse(Gross(v), SnapOf(v).supply, assets, shares);
  }

  lemma ExitFair(v: State, w: State, owner: Address, receiver: Address, burned: int, assets: int)
    requires Priced(v) && Exit(v, owner, receiver, burned, assets) == Some(w)
    requires assets * T(v.ledger.supply) <= burned * A(Gross(v))
    ensures Fair(v, w)
  {
    ExitShape(v, w, owner, receiver, burned, assets);
    ExitWithinNav(Gross(v), v.ledger.supply, assets, burned);
    LeaveNoWorse(Gross(v), v.ledger.supply, assets, burned);
    if receiver == v.me {
      MulMono(A(Gross(v) - assets), A(Gross(v)), T(v.ledger.supply));
    }
  }

  lemma WithdrawFair(v: State, w: State, assets: int, receiver: Address, owner: Address)
    requires Inv(v) && Withdraw(v, assets, receiver, owner) == Some(w)
    ensures Fair(Accrued(v), w)
  {
    AccruedGross(v);
    ConversionsFavourTheIssuer(SnapOf(v), assets);
    ExitFair(Accrued(v), w, owner, receiver, ToShares(SnapOf(v), assets, true), assets);
  }

  lemma RedeemFair(v: State, w: State, shares: int, receiver: Address, owner: Address)
    requires Inv(v) && Redeem(v, shares, receiver, owner) == Some(w)
    ensures Fair(Accrued(v), w)
  {
    AccruedGross(v);
    ConversionsFavourTheIssuer(SnapOf(v), shares);
    ExitFair(Accrued(v), w, owner, receiver, shares, ToAssets(SnapOf(v), shares, false));
  }

  lemma BurnFair(v: State, w: State, owner: Address, shares: int)
    requires Inv(v) && Burned(v, owner, shares) == Some(w)
    ensures Fair(v, w)
  {
    MulMono(T(w.ledger.supply), T(v.ledger.supply), A(Gross(v)));
  }

  lemma RaiseFair(v: State, w: State)
    requires Inv(v) && w.ledger.supply == v.ledger.supply && w.ledger.mark == v.ledger.mark && Gross(w) >= Gross(v)
    ensures Fair(v, w)
  {
    MulMono(A(Gross(v)), A(Gross(w)), T(v.ledger.supply));
  }

  lemma PutVenueGross(v: State, i: nat, x: Venue, cash: map<Address, int>)
    requires i < |v.venues|
    ensures Gross(v.(cash := cash, venues := v.venues[i := x])) == Gross(v) + Get(cash, v.me) - Idle(v) + x.assets - v.venues[i].assets
  {
    AssetsPut(v.venues, i, x);
  }

  lemma AllocateGross(v: State, w: State, i: nat, amount: int)
    requires Priced(v) && Allocate(v, i, amount) == Some(w)
    ensures Gross(w) == Gross(Accrued(v)) && w.ledger == Accrued(v).ledger
  {
    var u := Accrued(v);
    PutVenueGross(u, i, Venue(u.venues[i].assets + amount, u.venues[i].limit + amount), w.cash);
  }

  lemma DeallocateGross(v: State, w: State, i: nat, amount: int)
    requires Priced(v) && Deallocate(v, i, amount) == Some(w)
    ensures Gross(w) == Gross(Accrued(v)) && w.ledger == Accrued(v).ledger
  {
    var u := Accrued(v);
    PutVenueGross(u, i, Venue(u.venues[i].assets - amount, u.venues[i].limit - amount), w.cash);
  }

  /** Governance never lowers what the vault holds. */
  lemma GovernRaises(v: State, step: Step, w: State)
    requires Governs(step) && Next(v, step) == Some(w)
    ensures Gross(w) >= Gross(v) && w.ledger == v.ledger && w.bps == v.bps
  {
    match step
    case DoAddVenue => assert w.venues[..|v.venues|] == v.venues;
    case DoDropVenue(i) => AssetsDrop(v.venues, i);
    case DoOrder(order) => AssetsOrder(order, v.venues);
    case _ =>
  }

  /** Allocating, taking back, governance, yield and payments only move or add assets. */
  lemma MoneyRaises(v: State, step: Step, w: State)
    requires Inv(v) && Next(v, step) == Some(w)
    requires step.DoMove? || step.DoAccrue? || step.DoAllocate? || step.DoDeallocate? || step.DoSetFee? || Governs(step)
             || step.DoYield? || step.DoPay?
    ensures Gross(w) >= Gross(Acting(v, step)) && w.ledger.supply == Acting(v, step).ledger.supply
    ensures w.ledger.mark == Acting(v, step).ledger.mark
  {
    match step
    case DoAllocate(i, amount) => AllocateGross(v, w, i, amount);
    case DoDeallocate(i, amount) => DeallocateGross(v, w, i, amount);
    case DoYield(i, gain, limit) => PutVenueGross(v, i, Venue(v.venues[i].assets + gain, limit), v.cash);
    case DoPay(from, to, sum) => MoveGross(v, from, to, sum);
    case _ =>
      if Governs(step) { GovernRaises(v, step, w); }
  }

  lemma StepFair(v: State, step: Step, w: State)
    requires Inv(v) && Next(v, step) == Some(w)
    ensures Fair(Acting(v, step), w)
  {
    match step
    case DoDeposit(assets, receiver, from) => DepositFair(v, w, assets, receiver, from);
    case DoMint(shares, receiver, from) => MintFair(v, w, shares, receiver, from);
    case DoWithdraw(assets, receiver, owner) => WithdrawFair(v, w, assets, receiver, owner);
    case DoRedeem(shares, receiver, owner) => RedeemFair(v, w, shares, receiver, owner);
    case DoBurn(owner, shares) => BurnFair(v, w, owner, shares);
    case _ =>
      AccruedInv(v);
      MoneyRaises(v, step, w);
      RaiseFair(Acting(v, step), w);
  }

  lemma StepBps(v: State, step: Step, w: State)
    requires v.bps <= BPS && Next(v, step) == Some(w)
    ensures w.bps <= BPS && (!step.DoSetFee? ==> w.bps == v.bps)
  {
    match step
    case DoWithdraw(assets, receiver, owner) => ExitShape(Accrued(v), w, owner, receiver, ToShares(SnapOf(v), assets, true), assets);
    case DoRedeem(shares, receiver, owner) => ExitShape(Accrued(v), w, owner, receiver, shares, ToAssets(SnapOf(v), shares, false));
    case _ =>
  }

  lemma StepKeeps(v: State, step: Step)
    requires Inv(v)
    ensures Inv(After(v, step)) && After(v, step).ledger.mark >= v.ledger.mark
  {
    if Next(v, step).Some? {
      var w := Next(v, step).value;
      var u := Acting(v, step);
      AccruedInv(v);
      StepFair(v, step, w);
      LedgerKept(v, step, w);
      StepBps(v, step, w);
      NoWorseAbove(Gross(u), u.ledger.supply, Gross(w), w.ledger.supply, u.ledger.mark);
    }
  }

  /** In every run of deposits, exits, burns, transfers, accruals, allocations, changes
      of fee, cap and venues, and venue yield, the floored share price stays at or above the
      high-water mark, the mark never falls, and shares add up to the supply. */
  lemma {:induction false} RunKeeps(v: State, steps: seq<Step>)
    requires Inv(v)
    ensures Inv(Run(v, steps)) && Run(v, steps).ledger.mark >= v.ledger.mark
    ensures SharePrice(Gross(Run(v, steps)), Run(v, steps).ledger.supply) >= Run(v, steps).ledger.mark
    decreases |steps|
  {
    if steps != [] {
      RunKeeps(v, steps[..|steps| - 1]);
      StepKeeps(Run(v, steps[..|steps| - 1]), steps[|steps| - 1]);
    }
    var w := Run(v, steps);
    AboveIsPrice(Gross(w), w.ledger.supply, w.ledger.mark);
  }

  /** A vault as it is constructed: no venues, no assets, no shares, the mark at the
      opening price. */
  ghost predicate Init(v: State)
  {
    && v.bps <= BPS && v.venues == [] && Idle(v) == 0 && v.ledger == Ledger(map[], 0, SharePrice(0, 0))
  }

  lemma InitInv(v: State)
    requires Init(v)
    ensures Inv(v)
  {
    AboveIsPrice(0, 0, SharePrice(0, 0));
  }

  /** In every reachable state: assets are not negative, shares are not negative and
      add up to the supply, and the floored share price is at or above the mark, the
      mark at or above the opening price. */
  lemma RunSafe(v: State, steps: seq<Step>) returns (end: State)
    requires Init(v)
    ensures end == Run(v, steps) && Inv(end) && Gross(end) >= 0
    ensures end.ledger.supply == Sum(end.ledger.balances, Share()) && forall a: Address :: BalanceOf(end, a) >= 0
    ensures SharePrice(Gross(end), end.ledger.supply) >= end.ledger.mark >= SharePrice(0, 0)
  {
    InitInv(v);
    RunKeeps(v, steps);
    end := Run(v, steps);
  }

  // ---- without a fee

  ghost predicate NoFee(steps: seq<Step>) { forall i :: 0 <= i < |steps| ==> (steps[i].DoSetFee? ==> steps[i].bps == 0) }

  lemma StepNoFee(v: State, step: Step)
    requires Inv(v) && v.bps == 0 && (step.DoSetFee? ==> step.bps == 0)
    ensures Gross(After(v, step)) >= 0 && After(v, step).bps == 0
    ensures NoWorse(Gross(v), v.ledger.supply, Gross(After(v, step)), After(v, step).ledger.supply)
  {
    if Next(v, step).Some? {
      AccruedGross(v);
      StepFair(v, step, Next(v, step).value);
      StepBps(v, step, Next(v, step).value);
    }
  }

  /** With no fee, assets per share never fall, so a run back to the same supply
      leaves no fewer assets. */
  lemma {:induction false} RunNoFee(v: State, steps: seq<Step>)
    requires Inv(v) && v.bps == 0 && NoFee(steps)
    ensures Inv(Run(v, steps)) && Run(v, steps).bps == 0
    ensures NoWorse(Gross(v), v.ledger.supply, Gross(Run(v, steps)), Run(v, steps).ledger.supply)
    ensures Run(v, steps).ledger.supply == v.ledger.supply ==> Gross(Run(v, steps)) >= Gross(v)
    decreases |steps|
  {
    var w := Run(v, steps);
    if steps != [] {
      var u := Run(v, steps[..|steps| - 1]);
      RunNoFee(v, steps[..|steps| - 1]);
      StepKeeps(u, steps[|steps| - 1]);
      StepNoFee(u, steps[|steps| - 1]);
      NoWorseTrans(Gross(v), v.ledger.supply, Gross(u), u.ledger.supply, Gross(w), w.ledger.supply);
    }
    if w.ledger.supply == v.ledger.supply { NoWorseSameSupply(Gross(v), Gross(w), v.ledger.supply); }
  }

  // ---- limits are honoured

  /** A withdrawal succeeds exactly when it is positive, payable, and worth no more
      than the owner's shares once the fee is accrued. That is `max_withdraw` for
      every owner but a curator with a fee due, to whom more is open; and within
      `max_withdraw` nobody burns more than they held before. */
  lemma MaxWithdrawExact(v: State, assets: int, receiver: Address, owner: Address)
    requires Inv(v) && owner !in v.frozen && Idle(v) >= 0
    ensures 0 <= BalanceOf(v, owner) <= BalanceOf(Accrued(v), owner)
    ensures Withdraw(v, assets, receiver, owner).Some? <==>
            0 < assets <= Min(ToAssets(SnapOf(v), BalanceOf(Accrued(v), owner), false), Liquidity(v))
    ensures 0 < assets <= MaxWithdraw(v, owner) ==> Withdraw(v, assets, receiver, owner).Some?
    ensures (owner != v.curator || SnapOf(v).feeShares == 0) ==>
              (Withdraw(v, assets, receiver, owner).Some? <==> 0 < assets <= MaxWithdraw(v, owner))
    ensures 0 < assets <= MaxWithdraw(v, owner) ==> 0 < ToShares(SnapOf(v), assets, true) <= BalanceOf(v, owner)
  {
    HeldWithinSupply(v.ledger, owner);
    AccruedLedger(v);
    AccruedGross(v);
    HeldWithinSupply(Accrued(v).ledger, owner);
    if assets > 0 {
      Affordable(SnapOf(v), BalanceOf(v, owner), assets);
      Affordable(SnapOf(v), BalanceOf(Accrued(v), owner), assets);
      FloorMono(BalanceOf(v, owner), BalanceOf(Accrued(v), owner), A(Gross(v)), T(SnapOf(v).supply));
      ExitExact(Accrued(v), owner, receiver, ToShares(SnapOf(v), assets, true), assets);
    }
  }

  lemma ExitExact(v: State, owner: Address, receiver: Address, burned: int, assets: int)
    requires LedgerOk(v.ledger) && owner !in v.frozen && burned > 0 && assets > 0
    ensures Exit(v, owner, receiver, burned, assets).Some? <==> burned <= BalanceOf(v, owner) && assets <= Liquidity(v)
  {
    HeldWithinSupply(v.ledger, owner);
    if burned <= BalanceOf(v, owner) { SendExact(Burned(v, owner, burned).value, receiver, assets); }
  }

  /** Rounding up the cost and down the worth agree on what is affordable. */
  lemma Affordable(s: Snapshot, shares: nat, assets: nat)
    requires assets > 0
    ensures assets <= ToAssets(s, shares, false) <==> ToShares(s, assets, true) <= shares
    ensures ToShares(s, assets, true) > 0
  {
    if assets <= ToAssets(s, shares, false) { WithdrawAffordable(s, shares, assets); }
    if ToShares(s, assets, true) <= shares {
      MulMono(ToShares(s, assets, true), shares, A(s.nav));
      FloorMax(assets, shares, A(s.nav), T(s.supply));
    }
    MulMono(1, assets, T(s.supply));
  }

  /** A withdrawal of up to `max_withdraw` draws exactly the shortfall from the
      venues, in order. */
  lemma WithdrawDraws(v: State, w: State, assets: int, receiver: Address, owner: Address)
    requires Inv(v) && Withdraw(v, assets, receiver, owner) == Some(w)
    ensures |w.venues| == |v.venues|
    ensures AssetsOf(v.venues) - AssetsOf(w.venues) == Max(0, assets - Idle(v))
    ensures forall i, j :: 0 <= i < j < |v.venues| && w.venues[j] != v.venues[j] ==> w.venues[i].limit == 0
    ensures forall i :: 0 <= i < |v.venues| ==> v.venues[i].assets - w.venues[i].assets == v.venues[i].limit - w.venues[i].limit
  {
    var n := |v.venues|;
    assert v.venues[..n] == v.venues;
    DrawsTheShortfall(Idle(v), v.venues, assets, n);
    DrawsInOrder(Idle(v), v.venues, assets, n);
    DrawConserves(Idle(v), v.venues, assets, n);
  }

  /** `max_redeem` is honoured too, save for shares worth less than one unit, which
      cannot be redeemed at all. */
  lemma MaxRedeemHonoured(v: State, shares: int, receiver: Address, owner: Address)
    requires Inv(v) && owner !in v.frozen && Idle(v) >= 0 && 0 < shares <= MaxRedeem(v, owner)
    ensures Redeem(v, shares, receiver, owner).Some? <==> shares * A(Gross(v)) >= T(SnapOf(v).supply)
  {
    AccruedLedger(v);
    AccruedGross(v);
    HeldWithinSupply(Accrued(v).ledger, owner);
    var s := SnapOf(v);
    var assets := ToAssets(s, shares, false);
    RedeemWithinLiquidity(s, shares, Liquidity(v));
    if assets > 0 { SendExact(Burned(Accrued(v), owner, shares).value, receiver, assets); }
  }

  lemma RedeemWithinLiquidity(s: Snapshot, shares: nat, liquid: nat)
    requires shares <= ToShares(s, liquid, false)
    ensures ToAssets(s, shares, false) <= liquid
    ensures ToAssets(s, shares, false) > 0 <==> shares * A(s.nav) >= T(s.supply)
  {
    MulMono(shares, ToShares(s, liquid, false), A(s.nav));
    CancelFactor(ToAssets(s, shares, false), liquid, T(s.supply));
    if shares * A(s.nav) >= T(s.supply) { FloorMax(1, shares, A(s.nav), T(s.supply)); }
    if ToAssets(s, shares, false) > 0 { MulMono(1, ToAssets(s, shares, false), T(s.supply)); }
  }

  /** With no fee, depositing and redeeming at once returns no more than went in,
      and less than one share's price and one unit below it. */
  lemma DepositThenRedeem(v: State, w: State, z: State, assets: int, who: Address)
    requires Inv(v) && v.bps == 0 && Deposit(v, assets, who, who) == Some(w)
    requires Redeem(w, ToShares(SnapOf(v), assets, false), who, who) == Some(z)
    ensures Get(z.cash, who) <= Get(v.cash, who)
    ensures (Get(v.cash, who) - Get(z.cash, who) - 1) * T(w.ledger.supply) < A(Gross(v))
  {
    var minted := ToShares(SnapOf(v), assets, false);
    AccruedGross(v);
    DepositFair(v, w, assets, who, who);
    MoveGross(Accrued(v), who, v.me, assets);
    AccruedGross(w);
    RoundTripLoss(Gross(v), v.ledger.supply, assets);
    var out := ToAssets(SnapOf(w), minted, false);
    ExitCash(Accrued(w), z, who, who, minted, out);
  }

  lemma ExitCash(v: State, w: State, owner: Address, receiver: Address, burned: int, assets: int)
    requires Exit(v, owner, receiver, burned, assets) == Some(w) && receiver != v.me
    ensures Get(w.cash, receiver) == Get(v.cash, receiver) + assets
  {}
}
