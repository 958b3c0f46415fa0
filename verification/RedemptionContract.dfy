/** The redemption vault as the object it is: batches and totals read, mutated and
    stored back by every entry point, each proved to be the step `Redemption` says. */
module RedemptionContract {

  import opened Math
  import opened Redemption
  import Claims

  class RedemptionVault {
    const me: Address
    var accounts: seq<Address>
    var settings: Settings
    var paused: bool
    var batches: map<nat, Batch>
    var totals: Totals
    var openId: Option<nat>
    var next: nat
    var busy: map<Address, nat>
    // the ledgers of the RWA, the stable and the claim tokens
    var rwa: map<Address, int>
    var stable: map<Address, int>
    var ct: map<Held, int>
    var supply: map<nat, int>

    function Now(): State
      reads this
    {
      State(me, accounts, settings, paused, Book(batches, totals, openId, next, busy), rwa, stable, Tokens(ct, supply))
    }

    constructor (me: Address, account: Address, settings: Settings)
      requires settings.Valid() && account != me
      ensures Init(Now()) && accounts == [account] && this.settings == settings && !paused
    {
      this.me, this.accounts, this.settings, this.paused := me, [account], settings, false;
      batches, totals, openId, next, busy := map[], Totals(0, 0, 0, 0), None, 1, map[];
      rwa, stable, ct, supply := map[], map[], map[], map[];
    }

    /** A panic rolls everything back. */
    method Rollback(v: State)
      requires v.me == me
      modifies this
      ensures Now() == v
    {
      accounts, settings, paused := v.accounts, v.settings, v.paused;
      batches, totals, openId, next, busy := v.book.batches, v.book.totals, v.book.openId, v.book.next, v.book.busy;
      rwa, stable, ct, supply := v.rwa, v.stable, v.tok.ct, v.tok.supply;
    }

    method SendRwa(from: Address, to: Address, amount: int)
      modifies this`rwa
      ensures Now() == old(Now()).(rwa := Move(old(rwa), from, to, amount))
    {
      rwa := rwa[from := Get(rwa, from) - amount];
      rwa := rwa[to := Get(rwa, to) + amount];
    }

    method SendStable(from: Address, to: Address, amount: int)
      modifies this`stable
      ensures Now() == old(Now()).(stable := Move(old(stable), from, to, amount))
    {
      stable := stable[from := Get(stable, from) - amount];
      stable := stable[to := Get(stable, to) + amount];
    }

    /** Mints claim tokens, or burns them when `amount` is negative. */
    method MintCt(id: nat, who: Address, amount: int)
      requires id in supply
      modifies this`ct, this`supply
      ensures Now() == old(Now()).(tok := Add(old(Now()).tok, id, who, amount))
    {
      ct := ct[Held(id, who) := Get(ct, Held(id, who)) + amount];
      supply := supply[id := supply[id] + amount];
    }

    /** Stores a batch; `tally` stores the totals. */
    method Put(id: nat, b: Batch, t: Totals)
      modifies this`batches, this`totals
      ensures Now() == old(Now()).(book := old(Now()).book.(batches := old(batches)[id := b], totals := t))
    {
      batches := batches[id := b];
      totals := t;
    }

    method Open() returns (id: nat)
      modifies this`batches, this`openId, this`next, this`supply
      ensures Now() == OpenBatch(old(Now())) && openId == Some(id)
    {
      if openId.Some? { return openId.value; }
      id := next;
      batches := batches[id := Fresh];
      openId := Some(id);
      next := next + 1;
      supply := supply[id := 0];
    }

    method Request(owner: Address, units: int, controller: Address) returns (ok: bool)
      modifies this
      ensures ok <==> RequestRedeem(old(Now()), owner, units, controller).Some?
      ensures Now() == After(old(Now()), DoRequest(owner, units, controller))
    {
      if paused || units <= 0 || controller == me || owner == me || owner in accounts || Get(rwa, owner) < units { return false; }
      if openId.Some? && (openId.value !in batches || openId.value !in supply) { return false; }
      SendRwa(owner, me, units);
      var id := Open();
      var b := batches[id];
      Put(id, b.(units := b.units + units), totals.(pooled := totals.pooled + units));
      MintCt(id, controller, units);
      ok := true;
    }

    method CancelRequest(owner: Address, id: nat, amount: int, receiver: Address) returns (ok: bool)
      modifies this
      ensures ok <==> Cancel(old(Now()), owner, id, amount, receiver).Some?
      ensures Now() == After(old(Now()), DoCancel(owner, id, amount, receiver))
    {
      if id !in batches || id !in supply || batches[id].status != Status.Open { return false; }
      var b := batches[id];
      if amount <= 0 || amount > b.units || amount > Get(ct, Held(id, owner)) { return false; }
      MintCt(id, owner, -amount);
      Put(id, b.(units := b.units - amount), totals.(pooled := totals.pooled - amount));
      SendRwa(me, receiver, amount);
      ok := true;
    }

    method ClaimShares(owner: Address, id: nat, shares: int, receiver: Address) returns (ok: bool)
      modifies this
      ensures ok <==> Claim(old(Now()), owner, id, shares, receiver).Some?
      ensures Now() == After(old(Now()), DoClaim(owner, id, shares, receiver))
    {
      if id !in batches || id !in supply || batches[id].status != Settled || shares <= 0 { return false; }
      var b, total := batches[id], supply[id];
      if total < shares || Get(ct, Held(id, owner)) < shares || b.remaining < 0 || b.unsent < 0 { return false; }
      var assets, units := Claims.Portion(shares, b.remaining, total), Claims.Portion(shares, b.unsent, total);
      MintCt(id, owner, -shares);
      Put(id, b.(remaining := b.remaining - assets, unsent := b.unsent - units),
          totals.(proceeds := totals.proceeds - assets, rwa := totals.rwa - units));
      SendStable(me, receiver, assets);
      SendRwa(me, receiver, units);
      ok := true;
    }

    /** Each call runs only if it is verified; the first that is not panics. */
    method RunEach(calls: seq<Call>) returns (ok: bool)
      modifies this`rwa, this`stable
      ensures match RunCalls(Ledgers(old(rwa), old(stable)), calls)
              case None => !ok
              case Some(l) => ok && Now() == old(Now()).(rwa := l.rwa, stable := l.stable)
    {
      for i := 0 to |calls|
        invariant RunCalls(Ledgers(old(rwa), old(stable)), calls[..i]) == Some(Ledgers(rwa, stable))
      {
        var c := calls[i];
        assert calls[..i + 1][..|calls[..i + 1]| - 1] == calls[..i];
        if !c.verified {
          RefusedStops(Ledgers(old(rwa), old(stable)), calls, i + 1);
          return false;
        }
        rwa := Apply(rwa, c.rwa);
        stable := Apply(stable, c.stable);
      }
      assert calls[..|calls|] == calls;
      ok := true;
    }

    /** `send_from`: succeeds when the account's RWA is down by `amount`. */
    method SendFrom(account: Address, amount: int, calls: seq<Call>) returns (ok: bool)
      modifies this`rwa, this`stable
      ensures match RunCalls(Ledgers(old(rwa), old(stable)), calls)
              case None => !ok
              case Some(l) =>
                && (ok <==> Get(old(rwa), account) - Get(l.rwa, account) == amount)
                && (ok ==> Now() == old(Now()).(rwa := l.rwa, stable := l.stable))
    {
      var before := Get(rwa, account);
      ok := RunEach(calls);
      ok := ok && before - Get(rwa, account) == amount;
    }

    method SetBusy(account: Address, id: nat)
      modifies this`busy
      ensures Now() == old(Now()).(book := old(Now()).book.(busy := old(busy)[account := id]))
    {
      busy := busy[account := id];
    }

    method Free(account: Address)
      modifies this`busy
      ensures Now() == old(Now()).(book := old(Now()).book.(busy := old(busy) - {account}))
    {
      busy := busy - {account};
    }

    method Pooled(delta: int)
      modifies this`totals
      ensures Now() == old(Now()).(book := old(Now()).book.(totals := old(totals).(pooled := old(totals).pooled + delta)))
    {
      totals := totals.(pooled := totals.pooled + delta);
    }

    /** The first account no batch is busy with. */
    method FindFree() returns (free: Option<Address>)
      ensures free == FreeAccount(accounts, busy)
      ensures free.Some? ==> free.value in accounts && free.value !in busy
      ensures free.None? ==> forall a :: a in accounts ==> a in busy
    {
      for i := 0 to |accounts|
        invariant FreeAccount(accounts, busy) == FreeAccount(accounts[i..], busy)
        invariant forall k :: 0 <= k < i ==> accounts[k] in busy
      {
        if accounts[i] !in busy { return Some(accounts[i]); }
        assert accounts[i..][1..] == accounts[i + 1..];
      }
      free := None;
    }

    /** `mark_sent`, on a batch whose record is `b`. */
    method Mark(id: nat, b: Batch, nav: nat) returns (ok: bool)
      modifies this`batches, this`openId, this`totals
      ensures match MarkSent(old(Now()), id, b, nav)
              case None => !ok && Now() == old(Now())
              case Some(w) => ok && Now() == w
    {
      if b.units <= 0 { return false; }
      var sent := b.(status := Sent, navStart := nav);
      if settings.strikeAtSend {
        if nav == 0 { return false; }
        sent := sent.(strike := nav);
      }
      if openId == Some(id) { openId := None; }
      totals := totals.(sent := totals.sent + 1);
      batches := batches[id := sent];
      ok := true;
    }

    method RedeemOpen(id: nat, calls: seq<Call>, nav: nat) returns (ok: bool)
      requires id in batches && batches[id].status == Status.Open
      modifies this
      ensures match RedeemBatch(old(Now()), id, calls, nav)
              case None => !ok
              case Some(w) => ok && Now() == w
    {
      var b := batches[id];
      var free := FindFree();
      if settings.mode != Auto || free.None? || Get(rwa, me) < b.units { return false; }
      var account := free.value;
      SendRwa(me, account, b.units);
      ok := SendFrom(account, b.units, calls);
      if !ok { return; }
      SetBusy(account, id);
      Pooled(-b.units);
      if Get(rwa, me) < totals.pooled + totals.rwa { return false; }
      ok := Mark(id, b.(account := Some(account)), nav);
    }

    method ResendOne(id: nat, calls: seq<Call>) returns (ok: bool)
      requires id in batches && batches[id].status == Sent
      modifies this
      ensures match Resend(old(Now()), id, old(batches)[id], calls)
              case None => !ok
              case Some(w) => ok && Now() == w
    {
      var b := batches[id];
      if b.unsent == 0 || b.account.None? { return false; }
      ok := SendFrom(b.account.value, b.unsent, calls);
      if !ok { return; }
      batches := batches[id := b.(unsent := 0)];
    }

    method Redeem(id: nat, calls: seq<Call>, nav: nat) returns (ok: bool)
      modifies this
      ensures ok <==> RedeemBatch(old(Now()), id, calls, nav).Some?
      ensures Now() == After(old(Now()), DoRedeem(id, calls, nav))
    {
      if id !in batches || batches[id].status == Settled { return false; }
      var saved := Now();
      if batches[id].status == Sent { ok := ResendOne(id, calls); } else { ok := RedeemOpen(id, calls, nav); }
      if !ok { Rollback(saved); }
    }

    /** `finish`, on a batch whose record is `b`. */
    method Close(id: nat, b: Batch, proceeds: int, nav: nat) returns (ok: bool)
      modifies this`batches, this`totals, this`stable
      ensures match Finish(old(Now()), id, b, proceeds, nav)
              case None => !ok && Now() == old(Now())
              case Some(w) => ok && Now() == w
    {
      if proceeds < 0 { return false; }
      var fee := Floor(proceeds, settings.feeBps, BPS);
      totals := totals.(proceeds := totals.proceeds + proceeds - fee, rwa := totals.rwa + b.unsent, sent := totals.sent - 1);
      batches := batches[id := b.(status := Settled, proceeds := proceeds, fee := fee, remaining := proceeds - fee, navEnd := nav)];
      if settings.feeRecipient.Some? && fee > 0 { SendStable(me, settings.feeRecipient.value, fee); }
      ok := true;
    }

    method Collect(id: nat, calls: seq<Call>, minProceeds: int, nav: nat) returns (ok: bool)
      requires id in batches && batches[id].status == Sent && batches[id].account.Some?
      modifies this
      ensures match Settle(old(Now()), id, calls, minProceeds, nav)
              case None => !ok
              case Some(w) => ok && Now() == w
    {
      var b := batches[id];
      var account := b.account.value;
      var rwaBefore, stableBefore := Get(rwa, me) + b.unsent, Get(stable, me);
      ok := RunEach(calls);
      if !ok { return; }
      SendStable(account, me, Get(stable, account));
      if b.unsent != 0 {
        if Get(rwa, account) < b.unsent { return false; }
        SendRwa(account, me, b.unsent);
      }
      Free(account);
      var proceeds := Get(stable, me) - stableBefore;
      if Get(rwa, me) != rwaBefore || proceeds < minProceeds { return false; }
      ok := Close(id, b, proceeds, nav);
    }

    method SettleAuto(id: nat, calls: seq<Call>, minProceeds: int, nav: nat) returns (ok: bool)
      modifies this
      ensures ok <==> Settle(old(Now()), id, calls, minProceeds, nav).Some?
      ensures Now() == After(old(Now()), DoSettle(id, calls, minProceeds, nav))
    {
      if id !in batches || batches[id].status != Sent || batches[id].account.None? { return false; }
      var saved := Now();
      ok := Collect(id, calls, minProceeds, nav);
      if !ok { Rollback(saved); }
    }

    method TakeBack(id: nat, calls: seq<Call>, returned: int) returns (ok: bool)
      requires id in batches && batches[id].status == Sent && batches[id].account.Some?
      modifies this
      ensures match Reopen(old(Now()), id, calls, returned)
              case None => !ok
              case Some(w) => ok && Now() == w
    {
      var b := batches[id];
      var account := b.account.value;
      var unsent := b.unsent + returned;
      if returned <= 0 || unsent > b.units { return false; }
      ok := RunEach(calls);
      if !ok || Get(rwa, account) < unsent { return false; }
      b := b.(unsent := unsent);
      if unsent == b.units {
        SendRwa(account, me, Get(rwa, account));
        Free(account);
        totals := totals.(pooled := totals.pooled + b.units, sent := totals.sent - 1);
        b := b.(status := Status.Open, account := None, unsent := 0, strike := 0);
      }
      batches := batches[id := b];
    }

    method ReopenBatch(id: nat, calls: seq<Call>, returned: int) returns (ok: bool)
      modifies this
      ensures ok <==> Reopen(old(Now()), id, calls, returned).Some?
      ensures Now() == After(old(Now()), DoReopen(id, calls, returned))
    {
      if id !in batches || batches[id].status != Sent || batches[id].account.None? { return false; }
      var saved := Now();
      ok := TakeBack(id, calls, returned);
      if !ok { Rollback(saved); }
    }

    method Withdraw(id: nat, to: Address, nav: nat) returns (ok: bool)
      modifies this
      ensures ok <==> WithdrawBatch(old(Now()), id, to, nav).Some?
      ensures Now() == After(old(Now()), DoWithdraw(id, to, nav))
    {
      if settings.mode != Manual || to !in settings.destinations || id !in batches { return false; }
      var b := batches[id];
      if b.status != Status.Open || Get(rwa, me) < b.units { return false; }
      var saved := Now();
      SendRwa(me, to, b.units);
      Pooled(-b.units);
      ok := Mark(id, b, nav);
      if !ok { Rollback(saved); }
    }

    method SettleByHand(operator: Address, id: nat, proceeds: int, returned: int, nav: nat) returns (ok: bool)
      modifies this
      ensures ok <==> SettleManual(old(Now()), operator, id, proceeds, returned, nav).Some?
      ensures Now() == After(old(Now()), DoSettleManual(operator, id, proceeds, returned, nav))
    {
      if id !in batches || batches[id].status != Sent || batches[id].account.Some? { return false; }
      if operator == me || operator in accounts { return false; }
      var b := batches[id];
      if proceeds < 0 || returned < 0 || returned > b.units || (b.strike == 0 && nav == 0) || b.strike < 0 { return false; }
      if settings.floorBps > BPS { return false; }
      var worth := Ceil(b.units - returned, Price(b, nav), ONE);
      if proceeds < Ceil(worth, BPS - settings.floorBps, BPS) { return false; }
      if Get(stable, operator) < proceeds || Get(rwa, operator) < returned { return false; }
      SendStable(operator, me, proceeds);
      SendRwa(operator, me, returned);
      ok := Close(id, b.(unsent := returned), proceeds, nav);
    }

    method ChangeSettings(s: Settings) returns (ok: bool)
      modifies this`settings
      ensures ok <==> ApplySettings(old(Now()), s).Some?
      ensures Now() == After(old(Now()), DoSettings(s))
    {
      if s.feeBps > MAX_FEE_BPS || (s.feeBps > 0 && s.feeRecipient.None?) || s.floorBps > BPS { return false; }
      var switched := s.mode != settings.mode || s.strikeAtSend != settings.strikeAtSend;
      if switched && totals.sent != 0 { return false; }
      settings := s;
      ok := true;
    }

    method Skim(stableToken: bool, to: Address)
      modifies this`rwa, this`stable
      ensures Now() == After(old(Now()), if stableToken then DoSkimStable(to) else DoSkimRwa(to))
    {
      var amount := Get(if stableToken then stable else rwa, me);
      if stableToken { amount := amount - totals.proceeds; } else { amount := amount - (totals.pooled + totals.rwa); }
      if amount > 0 {
        if stableToken { SendStable(me, to, amount); } else { SendRwa(me, to, amount); }
      }
    }
  }

  /** A refused call stops the whole list. */
  lemma {:induction false} RefusedStops(l: Ledgers, calls: seq<Call>, k: nat)
    requires k <= |calls| && RunCalls(l, calls[..k]).None?
    ensures RunCalls(l, calls).None?
    decreases |calls| - k
  {
    if k == |calls| {
      assert calls[..k] == calls;
    } else {
      assert calls[..k + 1][..k] == calls[..k];
      RefusedStops(l, calls, k + 1);
    }
  }
}
