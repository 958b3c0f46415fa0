/** Dutch listings (`contracts/rfq/src/lib.rs`): one seller's escrow at an ask that
    falls to a floor. */
module Dutch {

  import opened Math
  import opened Sums

  type Address = nat
  type Token = Address

  datatype Order = Order(
    makerToken: Token, takerToken: Token, amount: int, start: int, floor: int, feeBps: nat, expiry: nat)

  datatype Listing = Listing(order: Order, seller: Address, created: nat, decay: nat, active: bool)

  /** The contract's own balances are its escrow. */
  datatype State = State(listings: map<nat, Listing>, next: nat, bal: map<Token, int>)

  datatype Env = Env(now: nat, paused: bool, decay: nat, minFee: nat, maxFee: nat, arrived: int, received: int)

  predicate FeeOk(bps: nat, env: Env) { env.minFee <= bps <= env.maxFee }

  predicate ListingOk(o: Order, env: Env)
  {
    && !env.paused && o.makerToken != o.takerToken && (o.expiry != 0 ==> o.expiry > env.now)
    && o.amount > 0 && o.floor > 0 && o.start >= o.floor
    && (env.decay == 0 ==> o.start == o.floor) && FeeOk(o.feeBps, env)
  }

  /** The listing as escrowed: terms in proportion to what actually arrived. */
  function Rescale(o: Order, escrowed: int): Option<Order>
    requires o.amount > 0 && o.start >= o.floor > 0 && escrowed > 0
  {
    if escrowed == o.amount then Some(o)
    else
      var start, floor := Floor(o.start, escrowed, o.amount), Floor(o.floor, escrowed, o.amount);
      if floor <= 0 then None else Some(o.(amount := escrowed, start := start, floor := floor))
  }

  function Create(s: State, seller: Address, o: Order, env: Env): Option<State>
  {
    if !ListingOk(o, env) || env.arrived <= 0 then None
    else
      var escrowed := Min(env.arrived, o.amount);
      match Rescale(o, escrowed)
      case None => None
      case Some(terms) =>
        Some(State(s.listings[s.next := Listing(terms, seller, env.now, env.decay, true)], s.next + 1,
                   s.bal[o.takerToken := Get(s.bal, o.takerToken) + env.arrived]))
  }

  /** The ask: the start, falling evenly to the floor over the decay. */
  function Ask(l: Listing, now: nat): int
    requires l.created <= now && l.order.start >= l.order.floor
  {
    var elapsed := now - l.created;
    if l.decay == 0 || elapsed >= l.decay then l.order.floor
    else l.order.start - Floor(l.order.start - l.order.floor, elapsed, l.decay)
  }

  predicate Live(s: State, id: nat) { id in s.listings && s.listings[id].active }

  /** The escrow leaves the contract and the listing is closed. */
  function Release(s: State, id: nat): State
    requires id in s.listings
  {
    var l := s.listings[id];
    s.(listings := s.listings[id := l.(active := false)],
       bal := s.bal[l.order.takerToken := Get(s.bal, l.order.takerToken) - l.order.amount])
  }

  function Fill(s: State, id: nat, maxMakerAmount: int, env: Env): Option<State>
  {
    if env.paused || !Live(s, id) then None
    else
      var l := s.listings[id];
      if (l.order.expiry != 0 && env.now > l.order.expiry) || !FeeOk(l.order.feeBps, env) then None
      else if l.created > env.now || l.order.start < l.order.floor then None
      else
        var ask := Ask(l, env.now);
        if ask <= 0 || ask > maxMakerAmount || Get(s.bal, l.order.takerToken) < l.order.amount then None
        else if env.received < ask - Floor(ask, l.order.feeBps, BPS) then None
        else Some(Release(s, id))
  }

  function Cancel(s: State, id: nat): Option<State>
  {
    if !Live(s, id) || Get(s.bal, s.listings[id].order.takerToken) < s.listings[id].order.amount then None
    else Some(Release(s, id))
  }

  datatype Step =
    | DoCreate(seller: Address, order: Order, env: Env)
    | DoFill(id: nat, maxMakerAmount: int, env: Env)
    | DoCancel(id: nat)
    | DoReceive(token: Token, amount: nat)

  function Next(s: State, step: Step): Option<State>
  {
    match step
    case DoCreate(seller, order, env) => Create(s, seller, order, env)
    case DoFill(id, max, env) => Fill(s, id, max, env)
    case DoCancel(id) => Cancel(s, id)
    case DoReceive(token, amount) => Some(s.(bal := s.bal[token := Get(s.bal, token) + amount]))
  }

  function After(s: State, step: Step): State
  {
    match Next(s, step) case Some(r) => r case None => s
  }

  function Run(s: State, steps: seq<Step>): State
  {
    if steps == [] then s else After(Run(s, steps[..|steps| - 1]), steps[|steps| - 1])
  }

  // ---- escrow

  function EscrowOf(t: Token, l: Listing): int { if l.active && l.order.takerToken == t then l.order.amount else 0 }

  ghost function EscrowIn(t: Token): (nat, Listing) -> int { (id: nat, l: Listing) => EscrowOf(t, l) }

  ghost predicate Sound(l: Listing) { l.order.amount > 0 && 0 < l.order.floor <= l.order.start }

  /** Every token's balance covers the escrow of the listings still active in it. */
  ghost predicate Inv(s: State)
  {
    && (forall id :: id in s.listings ==> id < s.next && Sound(s.listings[id]))
    && forall t: Token :: Get(s.bal, t) >= Sum(s.listings, EscrowIn(t))
  }

  /** Scaling keeps the curve's shape and never raises the price of a unit. */
  lemma RescaleSound(o: Order, escrowed: int)
    requires o.amount > 0 && o.start >= o.floor > 0 && 0 < escrowed <= o.amount && Rescale(o, escrowed).Some?
    ensures var r := Rescale(o, escrowed).value;
            && r.amount == escrowed && 0 < r.floor <= r.start && r.takerToken == o.takerToken
            && r.start * o.amount <= o.start * r.amount && r.floor * o.amount <= o.floor * r.amount
  {
    if escrowed != o.amount {
      MulMono(o.floor, o.start, escrowed);
      FloorMax(Floor(o.floor, escrowed, o.amount), o.start, escrowed, o.amount);
    }
  }

  lemma CreateInv(s: State, seller: Address, o: Order, env: Env)
    requires Inv(s) && Create(s, seller, o, env).Some?
    ensures Inv(Create(s, seller, o, env).value)
  {
    var r := Create(s, seller, o, env).value;
    RescaleSound(o, Min(env.arrived, o.amount));
    forall t: Token
      ensures Get(r.bal, t) >= Sum(r.listings, EscrowIn(t))
    {
      SumPut(s.listings, EscrowIn(t), s.next, r.listings[s.next]);
    }
  }

  lemma ReleaseInv(s: State, id: nat)
    requires Inv(s) && Live(s, id)
    ensures Inv(Release(s, id))
  {
    var r := Release(s, id);
    forall t: Token
      ensures Get(r.bal, t) >= Sum(r.listings, EscrowIn(t))
    {
      SumPut(s.listings, EscrowIn(t), id, r.listings[id]);
    }
  }

  lemma StepKeeps(s: State, step: Step)
    requires Inv(s)
    ensures Inv(After(s, step))
  {
    match step
    case DoCreate(seller, order, env) => if Next(s, step).Some? { CreateInv(s, seller, order, env); }
    case DoFill(id, max, env) => if Next(s, step).Some? { ReleaseInv(s, id); }
    case DoCancel(id) => if Next(s, step).Some? { ReleaseInv(s, id); }
    case DoReceive(token, amount) =>
  }

  /** In every run the contract can still pay out every active listing, so a seller
      can always cancel. */
  lemma {:induction false} RunKeeps(s: State, steps: seq<Step>)
    requires Inv(s)
    ensures Inv(Run(s, steps))
    ensures forall id :: Live(Run(s, steps), id) ==> Cancel(Run(s, steps), id).Some?
    decreases |steps|
  {
    if steps != [] {
      RunKeeps(s, steps[..|steps| - 1]);
      StepKeeps(Run(s, steps[..|steps| - 1]), steps[|steps| - 1]);
    }
    var r := Run(s, steps);
    forall id | Live(r, id) ensures Cancel(r, id).Some? { CanCancel(r, id); }
  }

  lemma CanCancel(s: State, id: nat)
    requires Inv(s) && Live(s, id)
    ensures Cancel(s, id).Some?
  {
    var t := s.listings[id].order.takerToken;
    SumBounds(s.listings, EscrowIn(t));
    assert EscrowIn(t)(id, s.listings[id]) == s.listings[id].order.amount;
  }

  /** A listing's escrow leaves once: closed, it is never filled or cancelled again. */
  lemma {:induction false} ClosedStaysClosed(s: State, steps: seq<Step>, id: nat)
    requires id in s.listings && !s.listings[id].active && id < s.next
    ensures id in Run(s, steps).listings && !Run(s, steps).listings[id].active && Run(s, steps).next >= s.next
    decreases |steps|
  {
    if steps != [] { ClosedStaysClosed(s, steps[..|steps| - 1], id); }
  }

  /** The ask starts at the start, never rises, and rests on the floor. */
  lemma AskFalls(l: Listing, now: nat, later: nat)
    requires l.created <= now <= later && l.order.start >= l.order.floor
    ensures l.order.floor <= Ask(l, later) <= Ask(l, now) <= l.order.start
    ensures l.decay > 0 ==> Ask(l, l.created) == l.order.start
    ensures now >= l.created + l.decay ==> Ask(l, now) == l.order.floor
  {
    var drop := l.order.start - l.order.floor;
    if l.decay > 0 {
      FloorUnique(0, drop, 0, l.decay);
      if now - l.created < l.decay { FloorAtMost(drop, now - l.created, l.decay); }
      if later - l.created < l.decay {
        FloorAtMost(drop, later - l.created, l.decay);
        MulMono(now - l.created, later - l.created, drop);
        FloorMax(Floor(drop, now - l.created, l.decay), drop, later - l.created, l.decay);
      }
    }
  }
}
