/** The aggregator as the object it is: nested loops over splits and hops, a budget
    run down by calls, fees credited, each entry point proved to be what `Dex` says. */
module DexContract {

  import opened Math
  import opened Dex

  class DexAggregator {
    const me: Address
    var fees: Fees
    var venues: set<Address>
    var targets: set<Address>
    var paused: bool
    var owed: map<Account, int>
    var total: map<Token, int>
    // the aggregator's balances
    var bal: map<Token, int>

    function Now(): State
      reads this
    {
      State(me, fees, venues, targets, paused, bal, owed, total)
    }

    constructor (me: Address, fees: Fees)
      requires fees.Valid()
      ensures Now() == State(me, fees, {}, {}, false, map[], map[], map[]) && Inv(Now())
    {
      this.me, this.fees, venues, targets, paused := me, fees, {}, {}, false;
      owed, total, bal := map[], map[], map[];
      new;
      InitInv(Now());
    }

    method Rollback(s: State)
      requires s.me == me && s.fees == fees && s.venues == venues && s.targets == targets && s.paused == paused
      modifies this`bal, this`owed, this`total
      ensures Now() == s
    {
      bal, owed, total := s.bal, s.owed, s.total;
    }

    method CreditTo(who: Address, t: Token, amount: int)
      modifies this`owed, this`total
      ensures Now() == Credit(old(Now()), who, t, amount)
    {
      if amount == 0 { return; }
      owed := owed[Account(who, t) := Get(owed, Account(who, t)) + amount];
      total := total[t := Get(total, t) + amount];
    }

    /** Pays a venue and measures what it credits. */
    method TakeHop(tok: Token, amount: int, h: Hop) returns (got: Option<int>)
      modifies this`bal
      ensures match OneHop(Leg(old(bal), amount), tok, h)
              case None => got.None?
              case Some(l) => got == Some(l.amount) && bal == l.bal
    {
      if amount < 0 || Get(bal, tok) < amount { return None; }
      bal := Take(bal, tok, amount);
      var before := Get(bal, h.tokenOut);
      bal := Add(bal, h.gains);
      got := Some(Get(bal, h.tokenOut) - before);
    }

    /** One split: each hop is paid from what the last one was measured to give. */
    method RunSplit(tin: Token, p: Split) returns (amount: Option<int>)
      modifies this`bal
      ensures match RunHops(Leg(old(bal), p.amountIn), tin, p.hops)
              case None => amount.None?
              case Some(l) => amount == Some(l.amount) && Now() == old(Now()).(bal := l.bal)
    {
      ghost var start := Leg(bal, p.amountIn);
      var now, tok := p.amountIn, tin;
      for i := 0 to |p.hops|
        invariant RunHops(start, tin, p.hops[..i]) == Some(Leg(bal, now)) && tok == TokenAt(tin, p.hops[..i])
      {
        HopsNext(start, tin, p.hops, i);
        var got := TakeHop(tok, now, p.hops[i]);
        if got.None? {
          HopsStop(start, tin, p.hops, i + 1);
          return None;
        }
        now, tok := got.value, p.hops[i].tokenOut;
      }
      assert p.hops[..|p.hops|] == p.hops;
      amount := Some(now);
    }

    method RunRoute(tin: Token, route: seq<Split>) returns (gross: Option<int>)
      modifies this`bal
      ensures match Execute(old(bal), tin, route)
              case None => gross.None?
              case Some(l) => gross == Some(l.amount) && Now() == old(Now()).(bal := l.bal)
    {
      var sum := 0;
      for i := 0 to |route|
        invariant Execute(old(bal), tin, route[..i]) == Some(Leg(bal, sum))
      {
        assert route[..i + 1][..i] == route[..i];
        var amount := RunSplit(tin, route[i]);
        if amount.None? {
          SplitsStop(old(bal), tin, route, i + 1);
          return None;
        }
        sum := sum + amount.value;
      }
      assert route[..|route|] == route;
      gross := Some(sum);
    }

    method SpendOf(spends: seq<int>) returns (n: Option<nat>)
      ensures n == Authorised(spends)
    {
      var sum: nat := 0;
      for i := 0 to |spends|
        invariant Authorised(spends[..i]) == Some(sum)
      {
        assert spends[..i + 1][..i] == spends[..i];
        if spends[i] < 0 {
          AuthorisedStop(spends, i + 1);
          return None;
        }
        sum := sum + spends[i];
      }
      assert spends[..|spends|] == spends;
      n := Some(sum);
    }

    method CallEach(tin: Token, tout: Token, amountIn: int, calls: seq<Call>) returns (ok: bool)
      modifies this`bal
      ensures match RunCalls(old(Now()), old(bal), tin, tout, amountIn, calls)
              case None => !ok
              case Some(l) => ok && Now() == old(Now()).(bal := l.bal)
    {
      ghost var s := Now();
      var budget := amountIn;
      for i := 0 to |calls|
        invariant RunCalls(s, old(bal), tin, tout, amountIn, calls[..i]) == Some(Leg(bal, budget))
        invariant targets == s.targets
      {
        var c := calls[i];
        assert calls[..i + 1][..i] == calls[..i];
        var n := SpendOf(c.spends);
        if c.target !in targets || c.target == tin || c.target == tout || n.None? || budget - n.value < 0 {
          CallsStop(s, old(bal), tin, tout, amountIn, calls, i + 1);
          return false;
        }
        budget := budget - n.value;
        bal := Add(bal, c.effect);
      }
      assert calls[..|calls|] == calls;
      ok := true;
    }

    /** Measures what the calls spent and delivered; returns what they did not spend. */
    method RunCalldata(tin: Token, tout: Token, amountIn: int, calls: seq<Call>, refund: Address)
      returns (gross: Option<int>)
      modifies this`bal
      ensures match ExecuteCalls(old(Now()), tin, tout, amountIn, calls, refund)
              case None => gross.None?
              case Some(l) => gross == Some(l.amount) && Now() == old(Now()).(bal := l.bal)
    {
      var inBefore, outBefore := Get(bal, tin), Get(bal, tout);
      var ok := CallEach(tin, tout, amountIn, calls);
      if !ok { return None; }
      var spent := inBefore - Get(bal, tin);
      if spent > amountIn || (spent < amountIn && Get(bal, tin) < amountIn - spent) { return None; }
      if spent < amountIn && refund != me { bal := Take(bal, tin, amountIn - spent); }
      gross := Some(Get(bal, tout) - outBefore);
    }

    method AccrueFor(t: Token, p: FeePair, partner: Option<Partner>)
      modifies this`owed, this`total
      ensures Now() == AccrueFees(old(Now()), t, p, partner)
    {
      var toProtocol := p.protocol;
      if partner.Some? {
        var cut := Cut(fees, p.partner);
        toProtocol := toProtocol + cut;
        CreditTo(partner.value.address, t, p.partner - cut);
      }
      CreditTo(fees.recipient, t, toProtocol);
    }

    method PayOut(tout: Token, gross: int, partner: Option<Partner>, minOut: int, to: Address) returns (ok: bool)
      modifies this`bal, this`owed, this`total
      ensures match Settle(old(Now()), tout, gross, partner, minOut, to)
              case None => !ok && Now() == old(Now())
              case Some(w) => ok && Now() == w
    {
      var p := FeesOn(fees, gross, partner);
      if p.None? { return false; }
      var out := gross - p.value.protocol - p.value.partner;
      if out < minOut || out < 0 || Get(bal, tout) < out { return false; }
      AccrueFor(tout, p.value, partner);
      if to != me { bal := Take(bal, tout, out); }
      ok := true;
    }

    /** Goes the route, either kind. */
    method Go(tin: Token, tout: Token, amountIn: int, r: Route, refund: Address) returns (gross: Option<int>)
      modifies this`bal
      ensures match Travel(old(Now()), tin, tout, amountIn, r, refund)
              case None => gross.None?
              case Some(l) => gross == Some(l.amount) && Now() == old(Now()).(bal := l.bal)
    {
      match r
      case Splits(route) =>
        if RouteOk(Now(), tin, tout, amountIn, route) { gross := RunRoute(tin, route); } else { gross := None; }
      case Calls(calls) => gross := RunCalldata(tin, tout, amountIn, calls, refund);
    }

    method SwapFor(user: Address, d: Desc, r: Route, partner: Option<Partner>, arrived: int) returns (ok: bool)
      modifies this`bal, this`owed, this`total
      ensures ok <==> Swap(old(Now()), user, d, r, partner, arrived).Some?
      ensures Now() == After(old(Now()), DoSwap(user, d, r, partner, arrived))
    {
      if paused || d.tin == d.tout || d.amountIn <= 0 || (r.Calls? && r.calls == []) { return false; }
      if arrived < d.amountIn { return false; }
      var saved := Now();
      bal := Take(bal, d.tin, -arrived);
      var gross := Go(d.tin, d.tout, d.amountIn, r, user);
      ok := gross.Some?;
      if ok { ok := PayOut(d.tout, gross.value, partner, d.minOut, d.to); }
      if !ok { Rollback(saved); }
    }

    method FillForRouter(recipient: Address, tin: Token, tout: Token, amountIn: int, minOut: int, r: Route)
      returns (ok: bool)
      modifies this`bal, this`owed, this`total
      ensures ok <==> RouterFill(old(Now()), recipient, tin, tout, amountIn, minOut, r).Some?
      ensures Now() == After(old(Now()), DoFill(recipient, tin, tout, amountIn, minOut, r))
    {
      if paused || Get(bal, tin) - Get(total, tin) < amountIn { return false; }
      var saved := Now();
      var gross := Go(tin, tout, amountIn, r, recipient);
      ok := gross.Some?;
      if ok { ok := PayOut(tout, gross.value, None, minOut, recipient); }
      if !ok { Rollback(saved); }
    }

    /** Pays out everything owed in one token, `amount` of it. */
    method ClaimToken(who: Address, t: Token) returns (amount: Option<int>)
      modifies this`bal, this`owed, this`total
      ensures match ClaimOne(old(Now()), who, t)
              case None => amount.None?
              case Some(w) => amount == Some(Get(old(owed), Account(who, t))) && Now() == w
    {
      var due := Get(owed, Account(who, t));
      if due > 0 {
        if Get(bal, t) < due { return None; }
        CreditTo(who, t, -due);
        if who != me { bal := Take(bal, t, due); }
      }
      amount := Some(due);
    }

    method ClaimAll(who: Address, tokens: seq<Token>) returns (paid: Option<seq<int>>)
      modifies this`bal, this`owed, this`total
      ensures paid.Some? <==> Claim(old(Now()), who, tokens).Some?
      ensures Now() == After(old(Now()), DoClaim(who, tokens))
      ensures paid.Some? ==> |paid.value| == |tokens|
    {
      var saved := Now();
      var amounts := [];
      for i := 0 to |tokens|
        invariant Claim(saved, who, tokens[..i]) == Some(Now()) && |amounts| == i
      {
        assert tokens[..i + 1][..i] == tokens[..i];
        var amount := ClaimToken(who, tokens[i]);
        if amount.None? {
          ClaimsStop(saved, who, tokens, i + 1);
          Rollback(saved);
          return None;
        }
        amounts := amounts + [amount.value];
      }
      assert tokens[..|tokens|] == tokens;
      paid := Some(amounts);
    }
  }

  // ---- a failure part way fails the whole

  lemma HopsNext(l: Leg, tin: Token, hops: seq<Hop>, i: nat)
    requires i < |hops| && RunHops(l, tin, hops[..i]).Some?
    ensures RunHops(l, tin, hops[..i + 1]) == OneHop(RunHops(l, tin, hops[..i]).value, TokenAt(tin, hops[..i]), hops[i])
    ensures TokenAt(tin, hops[..i + 1]) == hops[i].tokenOut
  {
    assert hops[..i + 1][..i] == hops[..i];
  }

  lemma {:induction false} HopsStop(l: Leg, tin: Token, hops: seq<Hop>, k: nat)
    requires k <= |hops| && RunHops(l, tin, hops[..k]).None?
    ensures RunHops(l, tin, hops).None?
    decreases |hops| - k
  {
    if k == |hops| {
      assert hops[..k] == hops;
    } else {
      assert hops[..k + 1][..k] == hops[..k];
      HopsStop(l, tin, hops, k + 1);
    }
  }

  lemma {:induction false} SplitsStop(bal: map<Token, int>, tin: Token, route: seq<Split>, k: nat)
    requires k <= |route| && Execute(bal, tin, route[..k]).None?
    ensures Execute(bal, tin, route).None?
    decreases |route| - k
  {
    if k == |route| {
      assert route[..k] == route;
    } else {
      assert route[..k + 1][..k] == route[..k];
      SplitsStop(bal, tin, route, k + 1);
    }
  }

  lemma {:induction false} AuthorisedStop(spends: seq<int>, k: nat)
    requires k <= |spends| && Authorised(spends[..k]).None?
    ensures Authorised(spends).None?
    decreases |spends| - k
  {
    if k == |spends| {
      assert spends[..k] == spends;
    } else {
      assert spends[..k + 1][..k] == spends[..k];
      AuthorisedStop(spends, k + 1);
    }
  }

  lemma {:induction false} CallsStop(s: State, bal: map<Token, int>, tin: Token, tout: Token, budget: int,
                                     calls: seq<Call>, k: nat)
    requires k <= |calls| && RunCalls(s, bal, tin, tout, budget, calls[..k]).None?
    ensures RunCalls(s, bal, tin, tout, budget, calls).None?
    decreases |calls| - k
  {
    if k == |calls| {
      assert calls[..k] == calls;
    } else {
      assert calls[..k + 1][..k] == calls[..k];
      CallsStop(s, bal, tin, tout, budget, calls, k + 1);
    }
  }

  lemma {:induction false} ClaimsStop(s: State, who: Address, tokens: seq<Token>, k: nat)
    requires k <= |tokens| && Claim(s, who, tokens[..k]).None?
    ensures Claim(s, who, tokens).None?
    decreases |tokens| - k
  {
    if k == |tokens| {
      assert tokens[..k] == tokens;
    } else {
      assert tokens[..k + 1][..k] == tokens[..k];
      ClaimsStop(s, who, tokens, k + 1);
    }
  }
}
