/** The DEX aggregator's fee ledger (`contracts/aggregators/dex/src/lib.rs`), as
    functions from state to state; `None` is a call that panics. What a venue or a
    called router does is the change it makes to the aggregator's balances. */
module Dex {

  import opened Math
  import opened Sums

  type Address = nat
  type Token = Address

  const MAX_PROTOCOL_FEE_BPS := 100
  const MAX_PARTNER_FEE_BPS := 300
  const MAX_SPLITS := 8
  const MAX_HOPS := 4

  datatype Fees = Fees(recipient: Address, protocolBps: nat, maxPartnerBps: nat, partnerShareBps: nat)
  {
    predicate Valid()
    {
      protocolBps <= MAX_PROTOCOL_FEE_BPS && maxPartnerBps <= MAX_PARTNER_FEE_BPS && partnerShareBps <= BPS
    }
  }

  datatype Partner = Partner(address: Address, feeBps: nat)

  /** `gains` is what the venue's swap does to the aggregator's balances. */
  datatype Hop = Hop(venue: Address, tokenOut: Token, gains: map<Token, int>)

  datatype Split = Split(amountIn: int, hops: seq<Hop>)

  /** `spends` are the amounts of the call's auth entries, negative for one that is
      not a plain transfer of the input; `effect` is what it does to the balances. */
  datatype Call = Call(target: Address, spends: seq<int>, effect: map<Token, int>)

  datatype Account = Account(recipient: Address, token: Token)

  datatype State = State(
    me: Address, fees: Fees, venues: set<Address>, targets: set<Address>, paused: bool,
    bal: map<Token, int>, owed: map<Account, int>, total: map<Token, int>)

  function Free(s: State, t: Token): int { Get(s.bal, t) - Get(s.total, t) }

  function Add(m: map<Token, int>, d: map<Token, int>): map<Token, int>
  {
    map t | t in m.Keys + d.Keys :: Get(m, t) + Get(d, t)
  }

  function Take(m: map<Token, int>, t: Token, amount: int): map<Token, int> { m[t := Get(m, t) - amount] }

  // ---- routes through adapters

  predicate SplitOk(s: State, tout: Token, p: Split)
  {
    && p.amountIn > 0 && 0 < |p.hops| <= MAX_HOPS && p.hops[|p.hops| - 1].tokenOut == tout
    && forall i :: 0 <= i < |p.hops| ==> p.hops[i].venue in s.venues
  }

  function TotalIn(route: seq<Split>): int
  {
    if route == [] then 0 else TotalIn(route[..|route| - 1]) + route[|route| - 1].amountIn
  }

  predicate RouteOk(s: State, tin: Token, tout: Token, amountIn: int, route: seq<Split>)
  {
    && tin != tout && amountIn > 0 && 0 < |route| <= MAX_SPLITS
    && (forall i :: 0 <= i < |route| ==> SplitOk(s, tout, route[i])) && TotalIn(route) == amountIn
  }

  /** The balances so far, and what the last hop (or all splits) delivered. */
  datatype Leg = Leg(bal: map<Token, int>, amount: int)

  function TokenAt(tin: Token, hops: seq<Hop>): Token { if hops == [] then tin else hops[|hops| - 1].tokenOut }

  /** One hop: pays the venue, measures what it credits. */
  function OneHop(l: Leg, tok: Token, h: Hop): Option<Leg>
  {
    if l.amount < 0 || Get(l.bal, tok) < l.amount then None
    else
      var paid := Take(l.bal, tok, l.amount);
      var after := Add(paid, h.gains);
      Some(Leg(after, Get(after, h.tokenOut) - Get(paid, h.tokenOut)))
  }

  function RunHops(l: Leg, tin: Token, hops: seq<Hop>): Option<Leg>
  {
    if hops == [] then Some(l)
    else
      var front := hops[..|hops| - 1];
      match RunHops(l, tin, front)
      case None => None
      case Some(m) => OneHop(m, TokenAt(tin, front), hops[|hops| - 1])
  }

  /** `execute`: every split in turn, their outputs added up. */
  function Execute(bal: map<Token, int>, tin: Token, route: seq<Split>): Option<Leg>
  {
    if route == [] then Some(Leg(bal, 0))
    else
      match Execute(bal, tin, route[..|route| - 1])
      case None => None
      case Some(l) =>
        var p := route[|route| - 1];
        match RunHops(Leg(l.bal, p.amountIn), tin, p.hops)
        case None => None
        case Some(m) => Some(Leg(m.bal, l.amount + m.amount))
  }

  // ---- routes by calldata

  /** Any entry that is not a plain transfer of the input refuses the call. */
  function Authorised(spends: seq<int>): Option<nat>
  {
    if spends == [] then Some(0)
    else
      match Authorised(spends[..|spends| - 1])
      case None => None
      case Some(n) => if spends[|spends| - 1] < 0 then None else Some(n + spends[|spends| - 1])
  }

  /** The balances after the calls, and what is left of the budget. */
  function RunCalls(s: State, bal: map<Token, int>, tin: Token, tout: Token, budget: int, calls: seq<Call>): Option<Leg>
  {
    if calls == [] then Some(Leg(bal, budget))
    else
      match RunCalls(s, bal, tin, tout, budget, calls[..|calls| - 1])
      case None => None
      case Some(l) =>
        var c := calls[|calls| - 1];
        if c.target !in s.targets || c.target == tin || c.target == tout || Authorised(c.spends).None? then None
        else
          var left := l.amount - Authorised(c.spends).value;
          if left < 0 then None else Some(Leg(Add(l.bal, c.effect), left))
  }

  /** `execute_calls`: at most `amountIn` is spent, the rest goes back to `refund`. */
  function ExecuteCalls(s: State, tin: Token, tout: Token, amountIn: int, calls: seq<Call>,
                        refund: Address): Option<Leg>
  {
    match RunCalls(s, s.bal, tin, tout, amountIn, calls)
    case None => None
    case Some(l) =>
      var spent := Get(s.bal, tin) - Get(l.bal, tin);
      if spent > amountIn || (spent < amountIn && Get(l.bal, tin) < amountIn - spent) then None
      else
        var bal := if spent < amountIn && refund != s.me then Take(l.bal, tin, amountIn - spent) else l.bal;
        Some(Leg(bal, Get(bal, tout) - Get(s.bal, tout)))
  }

  // ---- fees

  function Credit(s: State, who: Address, t: Token, amount: int): State
  {
    if amount == 0 then s
    else
      s.(owed := s.owed[Account(who, t) := Get(s.owed, Account(who, t)) + amount], total := s.total[t := Get(s.total, t) + amount])
  }

  datatype FeePair = FeePair(protocol: nat, partner: nat)

  function FeesOn(f: Fees, gross: int, partner: Option<Partner>): Option<FeePair>
  {
    if gross < 0 || (partner.Some? && partner.value.feeBps > f.maxPartnerBps) then None
    else Some(FeePair(Floor(gross, f.protocolBps, BPS), if partner.Some? then Floor(gross, partner.value.feeBps, BPS) else 0))
  }

  /** The protocol's part of a partner's fee. */
  function Cut(f: Fees, fee: nat): (cut: nat)
    ensures f.Valid() ==> cut <= fee
  {
    if f.Valid() then
      FloorAtMost(fee, f.partnerShareBps, BPS);
      Floor(fee, f.partnerShareBps, BPS)
    else Floor(fee, f.partnerShareBps, BPS)
  }

  /** A partner's fee is shared with the protocol. */
  function AccrueFees(s: State, t: Token, p: FeePair, partner: Option<Partner>): State
  {
    if partner.None? then Credit(s, s.fees.recipient, t, p.protocol)
    else
      var cut := Cut(s.fees, p.partner);
      CreditBoth(s, partner.value.address, p.partner - cut, s.fees.recipient, p.protocol + cut, t)
  }

  function CreditBoth(s: State, a: Address, x: int, b: Address, y: int, t: Token): State
  {
    Credit(Credit(s, a, t, x), b, t, y)
  }

  /** `settle`: what a route delivered goes to the fee ledger and the receiver, who
      gets `minOut` or more. */
  function Settle(s: State, tout: Token, gross: int, partner: Option<Partner>, minOut: int, to: Address): Option<State>
  {
    match FeesOn(s.fees, gross, partner)
    case None => None
    case Some(p) =>
      var out := gross - p.protocol - p.partner;
      if out < minOut || out < 0 || Get(s.bal, tout) < out then None
      else
        var w := AccrueFees(s, tout, p, partner);
        Some(if to == s.me then w else w.(bal := Take(w.bal, tout, out)))
  }

  // ---- entry points

  datatype Desc = Desc(tin: Token, tout: Token, amountIn: int, minOut: int, to: Address)

  datatype Route = Splits(route: seq<Split>) | Calls(calls: seq<Call>)

  function Travel(s: State, tin: Token, tout: Token, amountIn: int, r: Route, refund: Address): Option<Leg>
  {
    match r
    case Splits(route) => if RouteOk(s, tin, tout, amountIn, route) then Execute(s.bal, tin, route) else None
    case Calls(calls) => ExecuteCalls(s, tin, tout, amountIn, calls, refund)
  }

  /** `swap` and `swap_calls`: `arrived` is what the user's payment added. */
  function Swap(s: State, user: Address, d: Desc, r: Route, partner: Option<Partner>, arrived: int): Option<State>
  {
    if s.paused || d.tin == d.tout || d.amountIn <= 0 || (r.Calls? && r.calls == []) || arrived < d.amountIn then None
    else
      var s1 := s.(bal := Take(s.bal, d.tin, -arrived));
      match Travel(s1, d.tin, d.tout, d.amountIn, r, user)
      case None => None
      case Some(l) => Settle(s1.(bal := l.bal), d.tout, l.amount, partner, d.minOut, d.to)
  }

  /** `fill`: the router has already paid; nothing owed to anyone may be used. */
  function RouterFill(s: State, recipient: Address, tin: Token, tout: Token, amountIn: int, minOut: int,
                      r: Route): Option<State>
  {
    if s.paused || Free(s, tin) < amountIn then None
    else
      match Travel(s, tin, tout, amountIn, r, recipient)
      case None => None
      case Some(l) => Settle(s.(bal := l.bal), tout, l.amount, None, minOut, recipient)
  }

  function ClaimOne(s: State, who: Address, t: Token): Option<State>
  {
    var amount := Get(s.owed, Account(who, t));
    if amount <= 0 then Some(s)
    else if Get(s.bal, t) < amount then None
    else
      var w := Credit(s, who, t, -amount);
      Some(if who == s.me then w else w.(bal := Take(w.bal, t, amount)))
  }

  function Claim(s: State, who: Address, tokens: seq<Token>): Option<State>
  {
    if tokens == [] then Some(s)
    else
      match Claim(s, who, tokens[..|tokens| - 1])
      case None => None
      case Some(w) => ClaimOne(w, who, tokens[|tokens| - 1])
  }

  datatype Step =
    | DoSwap(user: Address, desc: Desc, route: Route, partner: Option<Partner>, arrived: int)
    | DoFill(recipient: Address, tin: Token, tout: Token, amountIn: int, minOut: int, route: Route)
    | DoClaim(who: Address, tokens: seq<Token>)
    | DoSetFees(fees: Fees)
    | DoLists(venues: set<Address>, targets: set<Address>, paused: bool)
    | DoReceive(token: Token, amount: nat)

  function Next(s: State, step: Step): Option<State>
  {
    match step
    case DoSwap(user, d, r, partner, arrived) => Swap(s, user, d, r, partner, arrived)
    case DoFill(recipient, tin, tout, amountIn, minOut, r) => RouterFill(s, recipient, tin, tout, amountIn, minOut, r)
    case DoClaim(who, tokens) => Claim(s, who, tokens)
    case DoSetFees(fees) => if fees.Valid() then Some(s.(fees := fees)) else None
    case DoLists(venues, targets, paused) => Some(s.(venues := venues, targets := targets, paused := paused))
    case DoReceive(t, amount) => Some(s.(bal := Take(s.bal, t, 0 - amount)))
  }

  function After(s: State, step: Step): State
  {
    match Next(s, step) case Some(w) => w case None => s
  }

  function Run(s: State, steps: seq<Step>): State
  {
    if steps == [] then s else After(Run(s, steps[..|steps| - 1]), steps[|steps| - 1])
  }

  // ---- what a route may do

  /** A venue spends only what it was sent; a called router only the input. */
  ghost predicate FairHops(hops: seq<Hop>)
  {
    forall i, t: Token :: 0 <= i < |hops| ==> Get(hops[i].gains, t) >= 0
  }

  ghost predicate FairRoute(r: Route, tin: Token)
  {
    match r
    case Splits(route) => forall i :: 0 <= i < |route| ==> FairHops(route[i].hops)
    case Calls(calls) => forall i, t: Token :: 0 <= i < |calls| && t != tin ==> Get(calls[i].effect, t) >= 0
  }

  ghost predicate FairStep(step: Step)
  {
    match step
    case DoSwap(_, d, r, _, _) => FairRoute(r, d.tin)
    case DoFill(_, tin, _, _, _, r) => FairRoute(r, tin)
    case _ => true
  }

  /** From one token's balances to another's: `spent` of `tin` at most, `gained` of
      `tout` at least, nothing else drawn on. */
  ghost predicate Spends(m: map<Token, int>, n: map<Token, int>, tin: Token, spent: int, tout: Token, gained: int)
  {
    forall t: Token :: Get(n, t) >= Get(m, t) - (if t == tin then spent else 0) + (if t == tout then gained else 0)
  }

  lemma {:induction false} HopsSpend(l: Leg, m: Leg, tin: Token, hops: seq<Hop>)
    requires RunHops(l, tin, hops) == Some(m) && FairHops(hops) && hops != []
    ensures Spends(l.bal, m.bal, tin, l.amount, TokenAt(tin, hops), m.amount)
    decreases |hops|
  {
    var front, h := hops[..|hops| - 1], hops[|hops| - 1];
    var k := RunHops(l, tin, front).value;
    if front != [] { HopsSpend(l, k, tin, front); }
    HopSpends(k, m, TokenAt(tin, front), hops, |hops| - 1);
    if front != [] { SpendsOn(l.bal, k.bal, m.bal, tin, l.amount, TokenAt(tin, front), k.amount, h.tokenOut, m.amount); }
  }

  lemma HopSpends(k: Leg, m: Leg, tok: Token, hops: seq<Hop>, i: nat)
    requires FairHops(hops) && i < |hops| && OneHop(k, tok, hops[i]) == Some(m)
    ensures Spends(k.bal, m.bal, tok, k.amount, hops[i].tokenOut, m.amount)
  {
    forall t: Token
      ensures Get(m.bal, t) >= Get(k.bal, t) - (if t == tok then k.amount else 0) + (if t == hops[i].tokenOut then m.amount else 0)
    {
      assert Get(hops[i].gains, t) >= 0;
    }
  }

  /** What one leg delivers the next may spend. */
  lemma SpendsOn(a: map<Token, int>, b: map<Token, int>, c: map<Token, int>, tin: Token, x: int, mid: Token, y: int,
                 tout: Token, z: int)
    requires Spends(a, b, tin, x, mid, y) && Spends(b, c, mid, y, tout, z)
    ensures Spends(a, c, tin, x, tout, z)
  {
    forall t: Token
      ensures Get(c, t) >= Get(a, t) - (if t == tin then x else 0) + (if t == tout then z else 0)
    {
      assert Get(b, t) >= Get(a, t) - (if t == tin then x else 0) + (if t == mid then y else 0);
    }
  }

  /** Two legs side by side. */
  lemma SpendsBoth(a: map<Token, int>, b: map<Token, int>, c: map<Token, int>, tin: Token, x: int, x': int,
                   tout: Token, y: int, y': int)
    requires Spends(a, b, tin, x, tout, y) && Spends(b, c, tin, x', tout, y')
    ensures Spends(a, c, tin, x + x', tout, y + y')
  {
    forall t: Token
      ensures Get(c, t) >= Get(a, t) - (if t == tin then x + x' else 0) + (if t == tout then y + y' else 0)
    {
      assert Get(b, t) >= Get(a, t) - (if t == tin then x else 0) + (if t == tout then y else 0);
    }
  }

  ghost predicate AllSplits(s: State, tout: Token, route: seq<Split>)
  {
    forall i :: 0 <= i < |route| ==> SplitOk(s, tout, route[i]) && FairHops(route[i].hops)
  }

  /** A route spends exactly its splits' input and delivers at least what is counted. */
  lemma {:induction false} ExecuteSpends(s: State, bal: map<Token, int>, l: Leg, tin: Token, tout: Token,
                                         route: seq<Split>)
    requires Execute(bal, tin, route) == Some(l) && AllSplits(s, tout, route)
    ensures Spends(bal, l.bal, tin, TotalIn(route), tout, l.amount)
    decreases |route|
  {
    if route != [] {
      var front, p := route[..|route| - 1], route[|route| - 1];
      var k := Execute(bal, tin, front).value;
      var m := RunHops(Leg(k.bal, p.amountIn), tin, p.hops).value;
      ExecuteSpends(s, bal, k, tin, tout, front);
      HopsSpend(Leg(k.bal, p.amountIn), m, tin, p.hops);
      SpendsBoth(bal, k.bal, m.bal, tin, TotalIn(front), p.amountIn, tout, k.amount, m.amount);
    }
  }

  /** Calls leave every token but the input no lower. */
  lemma {:induction false} CallsSpend(s: State, bal: map<Token, int>, l: Leg, tin: Token, tout: Token, budget: int,
                                      calls: seq<Call>)
    requires RunCalls(s, bal, tin, tout, budget, calls) == Some(l)
    requires forall i, t: Token :: 0 <= i < |calls| && t != tin ==> Get(calls[i].effect, t) >= 0
    ensures forall t: Token :: t != tin ==> Get(l.bal, t) >= Get(bal, t)
    decreases |calls|
  {
    if calls != [] {
      var n := |calls| - 1;
      var k := RunCalls(s, bal, tin, tout, budget, calls[..n]).value;
      CallsSpend(s, bal, k, tin, tout, budget, calls[..n]);
      forall t: Token | t != tin
        ensures Get(l.bal, t) >= Get(bal, t)
      {
        assert Get(calls[n].effect, t) >= 0;
      }
    }
  }

  /** Whatever the calls did, the input is down by no more than `amountIn`, unspent
      input returned; and the output is counted as it stands. */
  lemma ExecuteCallsSpends(s: State, l: Leg, tin: Token, tout: Token, amountIn: int, calls: seq<Call>, refund: Address)
    requires ExecuteCalls(s, tin, tout, amountIn, calls, refund) == Some(l)
    requires forall i, t: Token :: 0 <= i < |calls| && t != tin ==> Get(calls[i].effect, t) >= 0
    ensures tin != tout ==> Spends(s.bal, l.bal, tin, amountIn, tout, l.amount)
    ensures tin == tout ==> Spends(s.bal, l.bal, tin, -l.amount, tout, 0) && Get(l.bal, tin) >= Get(s.bal, tin) - amountIn
    ensures refund != s.me ==> Get(l.bal, tin) == Get(s.bal, tin) - amountIn
  {
    var k := RunCalls(s, s.bal, tin, tout, amountIn, calls).value;
    CallsSpend(s, s.bal, k, tin, tout, amountIn, calls);
  }

  /** The output token of a route is down by the input at most, beside what it is
      counted to have delivered. */
  lemma TravelSpends(s: State, l: Leg, tin: Token, tout: Token, amountIn: int, r: Route, refund: Address)
    requires Travel(s, tin, tout, amountIn, r, refund) == Some(l) && FairRoute(r, tin) && (l.amount >= 0 || tin != tout)
    ensures Spends(s.bal, l.bal, tin, Max(amountIn, 0), tout, l.amount)
  {
    match r
    case Splits(route) =>
      assert AllSplits(s, tout, route);
      ExecuteSpends(s, s.bal, l, tin, tout, route);
    case Calls(calls) => ExecuteCallsSpends(s, l, tin, tout, amountIn, calls, refund);
  }

  // ---- the ledger

  function OwedOf(t: Token, k: Account, n: int): int { if k.token == t then n else 0 }

  ghost function OwedIn(t: Token): (Account, int) -> int { (k: Account, n: int) => OwedOf(t, k, n) }

  /** Each token's total is the sum of what every recipient is owed in it. */
  ghost predicate LedgerOk(s: State)
  {
    && (forall k :: k in s.owed ==> s.owed[k] >= 0)
    && forall t: Token :: Sum(s.owed, OwedIn(t)) == Get(s.total, t)
  }

  lemma CreditLedger(s: State, who: Address, t: Token, amount: int)
    requires LedgerOk(s) && Get(s.owed, Account(who, t)) + amount >= 0
    ensures LedgerOk(Credit(s, who, t, amount))
  {
    var w, k := Credit(s, who, t, amount), Account(who, t);
    if amount != 0 {
      forall u: Token
        ensures Sum(w.owed, OwedIn(u)) == Get(w.total, u)
      {
        SumPut(s.owed, OwedIn(u), k, Get(s.owed, k) + amount);
      }
    }
  }

  lemma CreditTotals(s: State, who: Address, t: Token, amount: int)
    ensures var w := Credit(s, who, t, amount);
            && w == s.(owed := w.owed, total := w.total)
            && Get(w.total, t) == Get(s.total, t) + amount && forall u: Token :: u != t ==> Get(w.total, u) == Get(s.total, u)
    ensures forall k :: k != Account(who, t) ==> Get(Credit(s, who, t, amount).owed, k) == Get(s.owed, k)
    ensures Get(Credit(s, who, t, amount).owed, Account(who, t)) == Get(s.owed, Account(who, t)) + amount
  {}

  lemma OwedNonNegative(s: State, k: Account)
    requires LedgerOk(s)
    ensures Get(s.owed, k) >= 0
  {}

  /** A fee pair never takes more than the whole, and is accrued in full. */
  lemma FeesWithin(f: Fees, gross: int, partner: Option<Partner>)
    requires f.Valid() && FeesOn(f, gross, partner).Some?
    ensures var p := FeesOn(f, gross, partner).value;
            && gross >= 0 && p.protocol + p.partner <= gross
            && (p.protocol + p.partner) * BPS <= gross * (MAX_PROTOCOL_FEE_BPS + MAX_PARTNER_FEE_BPS)
  {
    var p := FeesOn(f, gross, partner).value;
    MulMono(f.protocolBps, MAX_PROTOCOL_FEE_BPS, gross);
    if partner.Some? { MulMono(partner.value.feeBps, MAX_PARTNER_FEE_BPS, gross); }
    assert gross * (MAX_PROTOCOL_FEE_BPS + MAX_PARTNER_FEE_BPS) == gross * MAX_PROTOCOL_FEE_BPS + gross * MAX_PARTNER_FEE_BPS;
    assert (p.protocol + p.partner) * BPS == p.protocol * BPS + p.partner * BPS;
    CancelBps(p.protocol + p.partner, gross);
  }

  lemma CancelBps(x: nat, y: nat)
    requires x * BPS <= y * 400
    ensures x <= y
  {}

  lemma AccrueLedger(s: State, w: State, t: Token, p: FeePair, partner: Option<Partner>)
    requires LedgerOk(s) && s.fees.Valid() && (partner.None? ==> p.partner == 0) && w == AccrueFees(s, t, p, partner)
    ensures LedgerOk(w) && w == s.(owed := w.owed, total := w.total)
    ensures Get(w.total, t) == Get(s.total, t) + p.protocol + p.partner
    ensures forall u: Token :: u != t ==> Get(w.total, u) == Get(s.total, u)
  {
    if partner.None? { AccrueAlone(s, t, p); } else { AccrueShared(s, t, p, partner.value); }
  }

  lemma AccrueAlone(s: State, t: Token, p: FeePair)
    requires LedgerOk(s) && s.fees.Valid() && p.partner == 0
    ensures var w := AccrueFees(s, t, p, None);
            && LedgerOk(w) && w == s.(owed := w.owed, total := w.total) && Get(w.total, t) == Get(s.total, t) + p.protocol
            && forall u: Token :: u != t ==> Get(w.total, u) == Get(s.total, u)
  {
    OwedNonNegative(s, Account(s.fees.recipient, t));
    CreditLedger(s, s.fees.recipient, t, p.protocol);
    CreditTotals(s, s.fees.recipient, t, p.protocol);
  }

  /** The partner's fee is shared between it and the protocol, none of it lost. */
  lemma AccrueShared(s: State, t: Token, p: FeePair, partner: Partner)
    requires LedgerOk(s) && s.fees.Valid()
    ensures var w := AccrueFees(s, t, p, Some(partner));
            && LedgerOk(w) && w == s.(owed := w.owed, total := w.total)
            && Get(w.total, t) == Get(s.total, t) + p.protocol + p.partner
            && forall u: Token :: u != t ==> Get(w.total, u) == Get(s.total, u)
  {
    var cut := Cut(s.fees, p.partner);
    assert AccrueFees(s, t, p, Some(partner))
        == CreditBoth(s, partner.address, p.partner - cut, s.fees.recipient, p.protocol + cut, t);
    AccrueParts(s, t, p, partner.address, cut);
  }

  lemma AccrueParts(s: State, t: Token, p: FeePair, partner: Address, cut: nat)
    requires LedgerOk(s) && cut <= p.partner
    ensures var w := CreditBoth(s, partner, p.partner - cut, s.fees.recipient, p.protocol + cut, t);
            && LedgerOk(w) && w == s.(owed := w.owed, total := w.total)
            && Get(w.total, t) == Get(s.total, t) + p.protocol + p.partner
            && forall u: Token :: u != t ==> Get(w.total, u) == Get(s.total, u)
  {
    CreditTwo(s, partner, p.partner - cut, s.fees.recipient, p.protocol + cut, t);
  }

  lemma CreditTwo(s: State, a: Address, x: nat, b: Address, y: nat, t: Token)
    requires LedgerOk(s)
    ensures var w := CreditBoth(s, a, x, b, y, t);
            && LedgerOk(w) && w == s.(owed := w.owed, total := w.total)
            && Get(w.total, t) == Get(s.total, t) + x + y && forall u: Token :: u != t ==> Get(w.total, u) == Get(s.total, u)
  {
    var v := Credit(s, a, t, x);
    OwedNonNegative(s, Account(a, t));
    CreditLedger(s, a, t, x);
    CreditTotals(s, a, t, x);
    OwedNonNegative(v, Account(b, t));
    CreditLedger(v, b, t, y);
    CreditTotals(v, b, t, y);
  }

  lemma SettleLedger(u: State, w: State, t: Token, out: int, own: bool)
    requires LedgerOk(u) && w == if own then u else u.(bal := Take(u.bal, t, out))
    requires out >= 0
    ensures LedgerOk(w) && forall x: Token :: Free(w, x) >= Free(u, x) - (if x == t then out else 0)
  {}

  /** Settling gives out exactly what was delivered: the fees to the ledger, the
      rest to the receiver. */
  lemma SettleExact(s: State, w: State, tout: Token, gross: int, partner: Option<Partner>, minOut: int, to: Address)
    requires LedgerOk(s) && s.fees.Valid() && Settle(s, tout, gross, partner, minOut, to) == Some(w)
    ensures LedgerOk(w) && w.fees == s.fees && gross >= 0
    ensures forall t: Token :: Free(w, t) >= Free(s, t) - (if t == tout then gross else 0)
    ensures to != s.me ==> Get(s.bal, tout) - Get(w.bal, tout) >= minOut
    ensures to != s.me ==> (Get(s.bal, tout) - Get(w.bal, tout)) + (Get(w.total, tout) - Get(s.total, tout)) == gross
  {
    var p := FeesOn(s.fees, gross, partner).value;
    var u := AccrueFees(s, tout, p, partner);
    AccrueLedger(s, u, tout, p, partner);
    SettleLedger(u, w, tout, gross - p.protocol - p.partner, to == s.me);
  }

  ghost predicate Inv(s: State)
  {
    s.fees.Valid() && LedgerOk(s) && forall t: Token :: Free(s, t) >= 0
  }

  /** A swap takes nothing from what was free before it, in any token: it can spend
      only what its user paid, and pay out only what its route delivered. */
  lemma SwapFree(s: State, w: State, user: Address, d: Desc, r: Route, partner: Option<Partner>, arrived: int)
    requires Inv(s) && Swap(s, user, d, r, partner, arrived) == Some(w) && FairRoute(r, d.tin)
    ensures w.fees == s.fees && LedgerOk(w) && forall t: Token :: Free(w, t) >= Free(s, t)
  {
    var s1 := s.(bal := Take(s.bal, d.tin, -arrived));
    var l := Travel(s1, d.tin, d.tout, d.amountIn, r, user).value;
    var s2 := s1.(bal := l.bal);
    TravelSpends(s1, l, d.tin, d.tout, d.amountIn, r, user);
    SettleExact(s2, w, d.tout, l.amount, partner, d.minOut, d.to);
    forall t: Token
      ensures Free(w, t) >= Free(s, t)
    {
      assert Get(l.bal, t) >= Get(s1.bal, t) - (if t == d.tin then d.amountIn else 0) + (if t == d.tout then l.amount else 0);
    }
  }

  /** A router's fill can use no more than what is free of the input. */
  lemma FillFree(s: State, w: State, recipient: Address, tin: Token, tout: Token, amountIn: int, minOut: int, r: Route)
    requires Inv(s) && RouterFill(s, recipient, tin, tout, amountIn, minOut, r) == Some(w) && FairRoute(r, tin)
    ensures w.fees == s.fees && LedgerOk(w)
    ensures forall t: Token :: Free(w, t) >= Free(s, t) - (if t == tin then Max(amountIn, 0) else 0)
    ensures forall t: Token :: Free(w, t) >= 0
  {
    var l := Travel(s, tin, tout, amountIn, r, recipient).value;
    var s2 := s.(bal := l.bal);
    SettleExact(s2, w, tout, l.amount, None, minOut, recipient);
    TravelSpends(s, l, tin, tout, amountIn, r, recipient);
    forall t: Token
      ensures Free(w, t) >= Free(s, t) - (if t == tin then Max(amountIn, 0) else 0)
    {
      assert Get(l.bal, t) >= Get(s.bal, t) - (if t == tin then Max(amountIn, 0) else 0) + (if t == tout then l.amount else 0);
    }
  }

  /** Nothing free was lost, so what was covered still is. */
  lemma FreeInv(s: State, w: State)
    requires Inv(s) && LedgerOk(w) && w.fees.Valid() && forall t: Token :: Free(w, t) >= Free(s, t)
    ensures Inv(w)
  {
    forall t: Token ensures Free(w, t) >= 0 { assert Free(s, t) >= 0; }
  }

  lemma ClaimOneFree(s: State, w: State, who: Address, t: Token)
    requires ClaimOne(s, who, t) == Some(w)
    ensures w.fees == s.fees && w.me == s.me && forall u: Token :: Free(w, u) >= Free(s, u)
    ensures Get(s.owed, Account(who, t)) >= 0 ==> Get(w.owed, Account(who, t)) == 0
    ensures forall k :: k != Account(who, t) ==> Get(w.owed, k) == Get(s.owed, k)
  {
    var amount := Get(s.owed, Account(who, t));
    if amount > 0 { CreditTotals(s, who, t, -amount); }
  }

  lemma ClaimOneKeeps(s: State, w: State, who: Address, t: Token)
    requires Inv(s) && ClaimOne(s, who, t) == Some(w)
    ensures Inv(w)
  {
    var amount := Get(s.owed, Account(who, t));
    if amount > 0 {
      CreditLedger(s, who, t, -amount);
      ClaimOneFree(s, w, who, t);
      FreeInv(s, w);
    }
  }

  /** Whoever is owed fees can always claim them, in any tokens and order. */
  lemma {:induction false} ClaimKeeps(s: State, who: Address, tokens: seq<Token>)
    requires Inv(s)
    ensures Claim(s, who, tokens).Some? && Inv(Claim(s, who, tokens).value)
    ensures forall t: Token :: t in tokens ==> Get(Claim(s, who, tokens).value.owed, Account(who, t)) == 0
    decreases |tokens|
  {
    if tokens != [] {
      var n := |tokens| - 1;
      ClaimKeeps(s, who, tokens[..n]);
      var w := Claim(s, who, tokens[..n]).value;
      OwedCovered(w, who, tokens[n]);
      ClaimOneKeeps(w, ClaimOne(w, who, tokens[n]).value, who, tokens[n]);
      OwedNonNegative(w, Account(who, tokens[n]));
      ClaimOneFree(w, ClaimOne(w, who, tokens[n]).value, who, tokens[n]);
    }
  }

  lemma OwedCovered(s: State, who: Address, t: Token)
    requires Inv(s)
    ensures Get(s.owed, Account(who, t)) <= Get(s.bal, t)
  {
    var k := Account(who, t);
    forall a | a in s.owed ensures OwedIn(t)(a, s.owed[a]) >= 0 {}
    SumBounds(s.owed, OwedIn(t));
    assert Free(s, t) >= 0;
    if k in s.owed { assert OwedIn(t)(k, s.owed[k]) == s.owed[k]; }
  }

  lemma StepKeeps(s: State, step: Step)
    requires Inv(s) && FairStep(step)
    ensures Inv(After(s, step))
  {
    if Next(s, step).Some? {
      var w := Next(s, step).value;
      match step
      case DoSwap(user, d, r, partner, arrived) =>
        SwapFree(s, w, user, d, r, partner, arrived);
        FreeInv(s, w);
      case DoFill(recipient, tin, tout, amountIn, minOut, r) => FillFree(s, w, recipient, tin, tout, amountIn, minOut, r);
      case DoClaim(who, tokens) => ClaimKeeps(s, who, tokens);
      case _ => FreeInv(s, w);
    }
  }

  ghost predicate FairSteps(steps: seq<Step>) { forall i :: 0 <= i < |steps| ==> FairStep(steps[i]) }

  /** In every run of swaps, calldata swaps, router fills, claims and fee changes, a
      token's `total_owed` is the sum of what is owed in it, the balance is at least
      that, and so everyone owed can claim. */
  lemma {:induction false} RunKeeps(s: State, steps: seq<Step>)
    requires Inv(s) && FairSteps(steps)
    ensures Inv(Run(s, steps))
    ensures forall t: Token :: Get(Run(s, steps).bal, t) >= Get(Run(s, steps).total, t) == Sum(Run(s, steps).owed, OwedIn(t))
    ensures forall who, tokens :: Claim(Run(s, steps), who, tokens).Some?
    decreases |steps|
  {
    if steps != [] {
      RunKeeps(s, steps[..|steps| - 1]);
      StepKeeps(Run(s, steps[..|steps| - 1]), steps[|steps| - 1]);
    }
    var w := Run(s, steps);
    forall t: Token
      ensures Get(w.bal, t) >= Get(w.total, t) == Sum(w.owed, OwedIn(t))
    {
      assert Free(w, t) >= 0;
    }
    forall who, tokens ensures Claim(w, who, tokens).Some? { ClaimKeeps(w, who, tokens); }
  }

  lemma InitInv(s: State)
    requires s.fees.Valid() && s.owed == map[] && s.total == map[] && s.bal == map[]
    ensures Inv(s)
  {}
}
