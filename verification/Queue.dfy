/** The withdrawal queue of one facility (`contracts/queue/src/lib.rs`), as
    functions from state to state; `None` is a call that panics. Of the facility,
    the queue sees a share price, what it can pay now, and its own oLP balance. */
module Queue {

  import opened Math
  import opened Sums
  import opened Shares

  /** `liquid` is the base the facility can pay the queue now. */
  datatype Facility = Facility(nav: nat, olp: Ledger, bps: nat, curator: Address, liquid: nat)
  {
    predicate Valid() { bps <= BPS }
    function Snapshot(): Snapshot requires Valid() { Snap(nav, olp.supply, olp.mark, bps) }
    function Balance(who: Address): int { Get(olp.balances, who) }
  }

  datatype Position = Position(owner: Address, receiver: Address, shares: int)

  /** `paid` is base paid to each receiver so far. */
  datatype State = State(
    me: Address, head: nat, tail: nat, pos: map<nat, Position>, fac: Facility, paid: map<Address, int>)

  function MaxWithdraw(f: Facility, who: Address): int
    requires f.Valid()
  {
    if f.Balance(who) < 0 then 0 else Min(ToAssets(f.Snapshot(), f.Balance(who), false), f.liquid)
  }

  function Worth(f: Facility, shares: nat): nat
    requires f.Valid()
  {
    ToAssets(f.Snapshot(), shares, false)
  }

  /** The facility's exit: accrues, burns the shares, pays the assets out of what
      is free to `who`; nothing for nothing is refused. */
  function Exit(f: Facility, who: Address, burned: int, assets: int, free: int): Option<Facility>
    requires f.Valid()
  {
    var s := f.Snapshot();
    var b := f.olp.balances[f.curator := f.Balance(f.curator) + s.feeShares];
    if burned <= 0 || assets <= 0 || assets > free || assets > f.liquid || assets > f.nav then None
    else if Get(b, who) < burned || s.supply < burned then None
    else
      Some(f.(nav := f.nav - assets, liquid := f.liquid - assets,
              olp := Ledger(b[who := Get(b, who) - burned], s.supply - burned, s.mark)))
  }

  /** What is payable to anyone: all of it to the queue, to others only what the
      queue's claim, rounded up, leaves. */
  function Free(f: Facility, queue: Address, who: Address): int
    requires f.Valid() && f.Balance(queue) >= 0
  {
    if who == queue then f.liquid else Max(f.liquid - ToAssets(f.Snapshot(), f.Balance(queue), true), 0)
  }

  /** `redeem` by the queue itself, at the floor. */
  function Redeem(f: Facility, who: Address, shares: int): Option<Facility>
    requires f.Valid()
  {
    if shares <= 0 then None else Exit(f, who, shares, Worth(f, shares), f.liquid)
  }

  /** `withdraw` and `redeem` by anyone else, with the queue's claim reserved. */
  function Withdraw(f: Facility, queue: Address, who: Address, assets: int): Option<Facility>
    requires f.Valid() && f.Balance(queue) >= 0
  {
    if assets < 0 then None else Exit(f, who, ToShares(f.Snapshot(), assets, true), assets, Free(f, queue, who))
  }

  function RedeemFor(f: Facility, queue: Address, who: Address, shares: int): Option<Facility>
    requires f.Valid() && f.Balance(queue) >= 0
  {
    if shares < 0 then None else Exit(f, who, shares, Worth(f, shares), Free(f, queue, who))
  }

  function MoveOlp(f: Facility, from: Address, to: Address, shares: int): Facility
  {
    var b := f.olp.balances[from := f.Balance(from) - shares];
    f.(olp := f.olp.(balances := b[to := Get(b, to) + shares]))
  }

  function Request(q: State, owner: Address, receiver: Address, shares: int): Option<State>
  {
    if shares <= 0 || q.fac.Balance(owner) < shares || owner == q.me then None
    else
      Some(q.(fac := MoveOlp(q.fac, owner, q.me, shares),
              pos := q.pos[q.tail := Position(owner, receiver, shares)], tail := q.tail + 1))
  }

  function Cancel(q: State, id: nat): Option<State>
  {
    if id !in q.pos || q.fac.Balance(q.me) < q.pos[id].shares then None
    else Some(q.(fac := MoveOlp(q.fac, q.me, q.pos[id].owner, q.pos[id].shares), pos := q.pos - {id}))
  }

  /** What the head position redeems with `available` left to pay. */
  function Portion(f: Facility, waiting: nat, available: nat): nat
    requires f.Valid()
  {
    if Worth(f, waiting) <= available then waiting else Min(ToShares(f.Snapshot(), available, false), waiting)
  }

  /** The head position paid for some of its shares; it leaves once none are left. */
  function Serve(q: State, fac: Facility, shares: int, assets: int): State
    requires q.head in q.pos
  {
    var p := q.pos[q.head];
    var rest := p.(shares := p.shares - shares);
    q.(fac := fac, paid := q.paid[p.receiver := Get(q.paid, p.receiver) + assets],
       pos := if rest.shares > 0 then q.pos[q.head := rest] else q.pos - {q.head},
       head := if rest.shares > 0 then q.head else q.head + 1)
  }

  datatype Outcome = Outcome(q: State, available: int, served: nat)

  /** `process` from here: skips gaps, serves the head, and stops when money, the
      allowance or the queue runs out, or the head is only part served. */
  function Process(q: State, available: int, served: nat, max: nat): Option<Outcome>
    decreases q.tail - q.head
  {
    if q.head >= q.tail || served >= max then Some(Outcome(q, available, served))
    else if q.head !in q.pos then Process(q.(head := q.head + 1), available, served, max)
    else if available <= 0 then Some(Outcome(q, available, served))
    else if !q.fac.Valid() || q.pos[q.head].shares < 0 then None
    else
      var shares := Portion(q.fac, q.pos[q.head].shares, available);
      if shares == 0 then Some(Outcome(q, available, served))
      else
        match Redeem(q.fac, q.me, shares)
        case None => None
        case Some(f) =>
          var assets := Worth(q.fac, shares);
          var r := Serve(q, f, shares, assets);
          if r.head == q.head then Some(Outcome(r, available - assets, served + 1))
          else Process(r, available - assets, served + 1, max)
  }

  function ProcessAll(q: State, max: nat): Option<State>
  {
    if !q.fac.Valid() then None
    else match Process(q, MaxWithdraw(q.fac, q.me), 0, max)
      case None => None
      case Some(o) => Some(o.q)
  }

  // ---- a run

  datatype Step =
    | DoRequest(owner: Address, receiver: Address, shares: int)
    | DoCancel(id: nat)
    | DoProcess(max: nat)
    | DoElsewhere(fac: Facility)

  /** What others do at the facility never takes the queue's own oLP. */
  predicate Elsewhere(q: State, f: Facility) { f.Valid() && f.Balance(q.me) >= q.fac.Balance(q.me) }

  function Next(q: State, step: Step): Option<State>
  {
    match step
    case DoRequest(owner, receiver, shares) => Request(q, owner, receiver, shares)
    case DoCancel(id) => Cancel(q, id)
    case DoProcess(max) => ProcessAll(q, max)
    case DoElsewhere(f) => if Elsewhere(q, f) then Some(q.(fac := f)) else None
  }

  function After(q: State, step: Step): State
  {
    match Next(q, step) case Some(r) => r case None => q
  }

  function Run(q: State, steps: seq<Step>): State
  {
    if steps == [] then q else After(Run(q, steps[..|steps| - 1]), steps[|steps| - 1])
  }

  // ---- what every step keeps

  ghost function Waiting(): (nat, Position) -> int { (id: nat, p: Position) => p.shares }

  /** No position lives outside `[head, tail)`, every one waits for something, and
      the queue's oLP covers them all. */
  ghost predicate Inv(q: State)
  {
    && q.head <= q.tail && (forall id :: id in q.pos ==> q.head <= id < q.tail && q.pos[id].shares > 0)
    && q.fac.Valid() && Covered(q)
  }

  ghost predicate Covered(q: State) { Sum(q.pos, Waiting()) <= q.fac.Balance(q.me) }

  lemma RequestInv(q: State, owner: Address, receiver: Address, shares: int)
    requires Inv(q) && Request(q, owner, receiver, shares).Some?
    ensures Inv(Request(q, owner, receiver, shares).value)
  {
    SumPut(q.pos, Waiting(), q.tail, Position(owner, receiver, shares));
  }

  lemma CancelInv(q: State, id: nat)
    requires Inv(q) && Cancel(q, id).Some?
    ensures Inv(Cancel(q, id).value)
  {
    SumRemove(q.pos, Waiting(), id);
  }

  /** A waiting position can always be cancelled for all it has left. */
  lemma CancelAlwaysWorks(q: State, id: nat)
    requires Inv(q) && id in q.pos
    ensures Cancel(q, id).Some?
  {
    SumBounds(q.pos, Waiting());
    assert Waiting()(id, q.pos[id]) <= Sum(q.pos, Waiting());
  }

  lemma ServeInv(q: State, f: Facility, shares: int, assets: int)
    requires Inv(q) && q.head in q.pos && 0 < shares <= q.pos[q.head].shares
    requires f.Valid() && f.Balance(q.me) >= q.fac.Balance(q.me) - shares
    ensures Inv(Serve(q, f, shares, assets))
  {
    var p := q.pos[q.head];
    if p.shares == shares {
      SumRemove(q.pos, Waiting(), q.head);
    } else {
      SumPut(q.pos, Waiting(), q.head, p.(shares := p.shares - shares));
    }
  }

  lemma RedeemShape(f: Facility, who: Address, shares: int, g: Facility)
    requires f.Valid() && Redeem(f, who, shares) == Some(g)
    ensures shares > 0 && g.Valid() && g.Balance(who) >= f.Balance(who) - shares
    ensures g.nav == f.nav - Worth(f, shares) && g.liquid == f.liquid - Worth(f, shares)
    ensures Worth(f, shares) > 0
  {}

  /** Serving never pays out more than is available. */
  lemma PortionAffordable(f: Facility, waiting: nat, available: nat)
    requires f.Valid()
    ensures Portion(f, waiting, available) <= waiting && Worth(f, Portion(f, waiting, available)) <= available
  {
    var s := f.Snapshot();
    if Worth(f, waiting) > available {
      var n := Portion(f, waiting, available);
      MulMono(n, ToShares(s, available, false), A(s.nav));
      CancelFactor(Worth(f, n), available, T(s.supply));
    }
  }

  ghost function Cash(): (Address, int) -> int { (a: Address, n: int) => n }

  /** One turn of the loop that serves the head. */
  predicate Serves(q: State, available: int, served: nat, max: nat)
  {
    && q.head < q.tail && served < max && q.head in q.pos && available > 0 && q.fac.Valid() && q.pos[q.head].shares >= 0
    && Portion(q.fac, q.pos[q.head].shares, available) != 0
  }

  /** The rest of the call after a turn that leaves `r`. */
  function Rest(q: State, r: State, left: int, served: nat, max: nat): Option<Outcome>
  {
    if r.head == q.head then Some(Outcome(r, left, served + 1)) else Process(r, left, served + 1, max)
  }

  /** The turn goes through when the facility redeems the head's portion. */
  lemma Turn(q: State, available: int, served: nat, max: nat) returns (r: State, f: Facility, shares: int, left: int)
    requires Inv(q) && Serves(q, available, served, max)
    requires Redeem(q.fac, q.me, Portion(q.fac, q.pos[q.head].shares, available)).Some?
    ensures 0 < shares <= q.pos[q.head].shares && 0 <= left < available
    ensures Redeem(q.fac, q.me, shares) == Some(f) && Worth(q.fac, shares) == available - left
    ensures r == Serve(q, f, shares, available - left) && Inv(r) && f.nav == q.fac.nav - (available - left)
    ensures forall limit: nat :: served < limit ==> Process(q, available, served, limit) == Rest(q, r, left, served, limit)
  {
    shares := Portion(q.fac, q.pos[q.head].shares, available);
    PortionAffordable(q.fac, q.pos[q.head].shares, available);
    f := Redeem(q.fac, q.me, shares).value;
    var assets := Worth(q.fac, shares);
    RedeemShape(q.fac, q.me, shares, f);
    ServeInv(q, f, shares, assets);
    r, left := Serve(q, f, shares, assets), available - assets;
  }

  lemma {:induction false} ProcessInv(q: State, available: int, served: nat, max: nat)
    requires Inv(q) && Process(q, available, served, max).Some?
    ensures Inv(Process(q, available, served, max).value.q)
    decreases q.tail - q.head
  {
    if Serves(q, available, served, max) {
      var r, f, shares, left := Turn(q, available, served, max);
      if r.head != q.head { ProcessInv(r, left, served + 1, max); }
    } else if q.head < q.tail && served < max && q.head !in q.pos {
      ProcessInv(q.(head := q.head + 1), available, served, max);
    }
  }

  /** One call pays exactly what it takes from `available`, never more than there
      was, and serves no more than `max`. */
  lemma {:induction false} ProcessPays(q: State, available: int, served: nat, max: nat)
    requires Inv(q) && Process(q, available, served, max).Some?
    ensures var o := Process(q, available, served, max).value;
            && Sum(o.q.paid, Cash()) - Sum(q.paid, Cash()) == available - o.available
            && o.available <= available && (available >= 0 ==> o.available >= 0)
            && served <= o.served && (served <= max ==> o.served <= max)
            && o.q.fac.nav + available - o.available == q.fac.nav
    decreases q.tail - q.head
  {
    if Serves(q, available, served, max) {
      var r, f, shares, left := Turn(q, available, served, max);
      SumPut(q.paid, Cash(), q.pos[q.head].receiver, Get(q.paid, q.pos[q.head].receiver) + available - left);
      if r.head != q.head { ProcessPays(r, left, served + 1, max); }
    } else if q.head < q.tail && served < max && q.head !in q.pos {
      ProcessPays(q.(head := q.head + 1), available, served, max);
    }
  }

  /** First come, first served: a position that changes was at the head when it
      did, everything before it is gone, and nothing behind the new head moved. */
  lemma {:induction false} ProcessInOrder(q: State, available: int, served: nat, max: nat)
    requires Inv(q) && Process(q, available, served, max).Some?
    ensures var r := Process(q, available, served, max).value.q;
            && q.head <= r.head <= r.tail == q.tail
            && (forall id :: id in r.pos ==> id in q.pos && r.head <= id && r.pos[id].shares <= q.pos[id].shares)
            && (forall id :: id in q.pos && (id !in r.pos || r.pos[id] != q.pos[id]) ==> id <= r.head)
            && (forall id :: id in q.pos && id >= r.head ==> id in r.pos)
    decreases q.tail - q.head
  {
    if Serves(q, available, served, max) {
      var r, f, shares, left := Turn(q, available, served, max);
      if r.head != q.head { ProcessInOrder(r, left, served + 1, max); }
    } else if q.head < q.tail && served < max && q.head !in q.pos {
      ProcessInOrder(q.(head := q.head + 1), available, served, max);
    }
  }

  /** `process` stops only when the queue is empty, its allowance or its money is
      used up, what is left buys no share, or the head was served in part. */
  lemma {:induction false} ProcessIsMaximal(q: State, available: int, served: nat, max: nat)
    requires Inv(q) && Process(q, available, served, max).Some?
    ensures var o := Process(q, available, served, max).value;
            && (o.q.head >= o.q.tail || o.served >= max || o.q.head in o.q.pos)
            && (!Serves(o.q, o.available, o.served, max)
                || (o.q.head in q.pos && o.q.pos[o.q.head].shares < q.pos[o.q.head].shares))
    decreases q.tail - q.head
  {
    if Serves(q, available, served, max) {
      var r, f, shares, left := Turn(q, available, served, max);
      if r.head != q.head { ProcessIsMaximal(r, left, served + 1, max); }
    } else if q.head < q.tail && served < max && q.head !in q.pos {
      ProcessIsMaximal(q.(head := q.head + 1), available, served, max);
    }
  }

  lemma StepKeeps(q: State, step: Step)
    requires Inv(q)
    ensures Inv(After(q, step)) && q.head <= After(q, step).head
  {
    match step
    case DoRequest(owner, receiver, shares) => if Next(q, step).Some? { RequestInv(q, owner, receiver, shares); }
    case DoCancel(id) => if Next(q, step).Some? { CancelInv(q, id); }
    case DoProcess(max) =>
      if Next(q, step).Some? {
        ProcessInv(q, MaxWithdraw(q.fac, q.me), 0, max);
        ProcessInOrder(q, MaxWithdraw(q.fac, q.me), 0, max);
      }
    case DoElsewhere(f) =>
  }

  /** In every run: positions stay within bounds, and the queue's oLP covers every
      share still waiting, so all of them could be cancelled. */
  lemma {:induction false} RunKeeps(q: State, steps: seq<Step>)
    requires Inv(q)
    ensures Inv(Run(q, steps)) && q.head <= Run(q, steps).head
    ensures forall id :: id in Run(q, steps).pos ==> Cancel(Run(q, steps), id).Some?
    decreases |steps|
  {
    if steps != [] {
      RunKeeps(q, steps[..|steps| - 1]);
      StepKeeps(Run(q, steps[..|steps| - 1]), steps[|steps| - 1]);
    }
    var r := Run(q, steps);
    forall id | id in r.pos ensures Cancel(r, id).Some? { CancelAlwaysWorks(r, id); }
  }

  /** One call of `process` pays out at most the limit it started from, in order. */
  lemma ProcessAllPays(q: State, max: nat)
    requires Inv(q) && ProcessAll(q, max).Some?
    ensures var r := ProcessAll(q, max).value;
            && 0 <= Sum(r.paid, Cash()) - Sum(q.paid, Cash()) <= MaxWithdraw(q.fac, q.me)
            && Sum(r.paid, Cash()) - Sum(q.paid, Cash()) == q.fac.nav - r.fac.nav
            && (forall id :: id in q.pos && (id !in r.pos || r.pos[id] != q.pos[id]) ==>
                  id <= r.head && forall j :: j in r.pos ==> id <= j)
  {
    var available := MaxWithdraw(q.fac, q.me);
    ProcessPays(q, available, 0, max);
    ProcessInOrder(q, available, 0, max);
  }

  // ---- the queue's claim

  /** The most of its claim the queue can lose to the fee on an exit's rounding:
      one unit for each `ONE` of its oLP, or part of one. */
  function Slip(shares: nat): nat { Ceil(shares, 1, ONE) }

  /** An exit that pays no more than its shares are worth, out of what the queue's
      claim leaves, costs the queue at most the slip, at any fee; and nothing when
      no fee falls due after it. */
  lemma ExitSparesQueue(f: Facility, g: Facility, queue: Address, who: Address, burned: int, assets: int)
    requires f.Valid() && f.Balance(queue) >= 0 && who != queue
    requires burned > 0 && assets > 0 && assets * T(f.Snapshot().supply) <= burned * A(f.nav)
    requires Exit(f, who, burned, assets, Free(f, queue, who)) == Some(g)
    ensures g.Valid() && g.Balance(queue) >= f.Balance(queue)
    ensures MaxWithdraw(g, queue) >= MaxWithdraw(f, queue) - Slip(f.Balance(queue))
    ensures g.Snapshot().feeShares == 0 ==> MaxWithdraw(g, queue) >= MaxWithdraw(f, queue)
  {
    var s, t, b := f.Snapshot(), g.Snapshot(), f.Balance(queue);
    LeaveNoWorse(f.nav, s.supply, assets, burned);
    ClaimRounds(s, b);
    WorthMono(t, b, g.Balance(queue));
    if t.feeShares == 0 { WorthNoLess(s, t, b); }
    ExitWorth(s, t, b, f.olp, f.bps, g.olp.supply);
  }

  /** After an exit the queue's shares are worth what they were, or, once a fee has
      been taken above the mark, at least what they are at the mark. */
  lemma ExitWorth(s: Snapshot, t: Snapshot, shares: nat, olp: Ledger, bps: nat, supply: nat)
    requires bps <= BPS && s == Snap(s.nav, olp.supply, olp.mark, bps)
    requires t == Snap(t.nav, supply, s.mark, bps) && NoWorse(s.nav, s.supply, t.nav, supply)
    ensures ToAssets(t, shares, false) >= ToAssets(s, shares, false) - Slip(shares)
  {
    if t.feeShares == 0 {
      WorthNoLess(s, t, shares);
    } else {
      MarkNeverFalls(t.nav, supply, s.mark, bps);
      AboveIsPrice(t.nav, t.supply, s.mark);
      WorthAtMark(s, t, shares);
    }
  }

  /** The mark is within one of the exact price it was taken at. */
  lemma WorthAtMark(s: Snapshot, t: Snapshot, shares: nat)
    requires s.mark >= SharePrice(s.nav, s.supply) && Above(t.nav, t.supply, s.mark)
    ensures ToAssets(t, shares, false) >= ToAssets(s, shares, false) - Slip(shares)
  {
    var n, c, price := ToAssets(s, shares, false), Slip(shares), SharePrice(s.nav, s.supply);
    PricedAbove(n, shares, A(s.nav), T(s.supply), price);
    MulMono(price, s.mark, shares);
    assert (n - c) * ONE <= shares * s.mark by { assert shares * (price + 1) == shares * price + shares; }
    PricedBelow(n - c, shares, A(t.nav), T(t.supply), s.mark);
    FloorMax(n - c, shares, A(t.nav), T(t.supply));
  }

  /** `n <= shares * a / t` and `a / t < (price + 1) / ONE`. */
  lemma PricedAbove(n: nat, shares: nat, a: nat, t: nat, price: nat)
    requires t > 0 && n * t <= shares * a && a * ONE < (price + 1) * t
    ensures n * ONE <= shares * (price + 1)
  {
    MulMono(n * t, shares * a, ONE);
    MulMono(a * ONE, (price + 1) * t, shares);
    assert shares * a * ONE == a * ONE * shares && n * t * ONE == n * ONE * t;
    assert (price + 1) * t * shares == shares * (price + 1) * t;
    CancelFactor(n * ONE, shares * (price + 1), t);
  }

  /** `n <= shares * mark / ONE` and `mark / ONE <= a / t`. */
  lemma PricedBelow(n: int, shares: nat, a: nat, t: nat, mark: nat)
    requires t > 0 && n * ONE <= shares * mark && mark * t <= a * ONE
    ensures n * t <= shares * a
  {
    MulMono(n * ONE, shares * mark, t);
    MulMono(mark * t, a * ONE, shares);
    assert shares * mark * t == mark * t * shares && n * ONE * t == n * t * ONE;
    assert a * ONE * shares == shares * a * ONE;
    CancelFactor(n * t, shares * a, ONE);
  }

  lemma WorthMono(s: Snapshot, fewer: nat, more: nat)
    requires fewer <= more
    ensures ToAssets(s, fewer, false) <= ToAssets(s, more, false)
  {
    FloorMono(fewer, more, A(s.nav), T(s.supply));
  }

  lemma WorthNoLess(s: Snapshot, t: Snapshot, shares: nat)
    requires NoWorse(s.nav, s.supply, t.nav, t.supply)
    ensures ToAssets(t, shares, false) >= ToAssets(s, shares, false)
  {
    var n := ToAssets(s, shares, false);
    MulMono(n * T(s.supply), shares * A(s.nav), T(t.supply));
    MulMono(A(s.nav) * T(t.supply), A(t.nav) * T(s.supply), shares);
    assert shares * A(s.nav) * T(t.supply) == A(s.nav) * T(t.supply) * shares;
    assert A(t.nav) * T(s.supply) * shares == shares * A(t.nav) * T(s.supply);
    assert n * T(s.supply) * T(t.supply) == n * T(t.supply) * T(s.supply);
    CancelFactor(n * T(t.supply), shares * A(t.nav), T(s.supply));
    FloorMax(n, shares, A(t.nav), T(t.supply));
  }

  lemma ClaimRounds(s: Snapshot, shares: nat)
    ensures ToAssets(s, shares, true) >= ToAssets(s, shares, false)
  {
    CancelFactor(ToAssets(s, shares, false), ToAssets(s, shares, true), T(s.supply));
  }

  /** What anyone else's `withdraw` or `redeem` leaves. */
  function OthersExit(f: Facility, queue: Address, who: Address, amount: int, inShares: bool): Option<Facility>
    requires f.Valid() && f.Balance(queue) >= 0
  {
    if inShares then RedeemFor(f, queue, who, amount) else Withdraw(f, queue, who, amount)
  }

  /** The facility's reserve: nobody else's withdrawal or redemption lowers what the
      queue can be paid now by more than the slip, one unit for up to `ONE` of oLP,
      whatever the fee and whoever the curator; with no fee it lowers it by nothing. */
  lemma OthersSpareQueue(f: Facility, g: Facility, queue: Address, who: Address, amount: int, inShares: bool)
    requires f.Valid() && f.Balance(queue) >= 0 && who != queue
    requires OthersExit(f, queue, who, amount, inShares) == Some(g)
    ensures g.Valid() && MaxWithdraw(g, queue) >= MaxWithdraw(f, queue) - Slip(f.Balance(queue))
    ensures f.Balance(queue) <= ONE ==> MaxWithdraw(g, queue) >= MaxWithdraw(f, queue) - 1
    ensures f.bps == 0 || g.Snapshot().feeShares == 0 ==> MaxWithdraw(g, queue) >= MaxWithdraw(f, queue)
  {
    var s := f.Snapshot();
    ConversionsFavourTheIssuer(s, amount);
    if inShares {
      ExitSparesQueue(f, g, queue, who, amount, Worth(f, amount));
    } else {
      ExitSparesQueue(f, g, queue, who, ToShares(s, amount, true), amount);
    }
    if f.Balance(queue) <= ONE { CeilMin(1, f.Balance(queue), 1, ONE); }
  }

  /** What the queue holds once the fee now due is minted. */
  function Held(f: Facility, queue: Address): int
    requires f.Valid()
  {
    f.Balance(queue) + (if queue == f.curator then f.Snapshot().feeShares else 0)
  }

  /** An exit costs the queue nothing exactly when its claim, at what the exit leaves,
      has room for the shares of the fee then due: all of it known before the exit. */
  lemma ReserveExact(f: Facility, g: Facility, queue: Address, who: Address, burned: int, assets: int)
    requires f.Valid() && f.Balance(queue) >= 0 && who != queue && burned > 0 && assets > 0
    requires Exit(f, who, burned, assets, Free(f, queue, who)) == Some(g)
    ensures g.Valid() && assets <= f.nav && burned <= f.Snapshot().supply
    ensures var nav, left := f.nav - assets, f.Snapshot().supply - burned;
            MaxWithdraw(g, queue) >= MaxWithdraw(f, queue) <==>
            MaxWithdraw(f, queue) * (T(left) + FeeShares(nav, left, f.Snapshot().mark, f.bps)) <= Held(f, queue) * A(nav)
  {
    ExitLeaves(f, g, queue, who, burned, assets);
    ReserveFits(f, g, queue, assets);
    WorthAtLeast(g.Snapshot(), Held(f, queue), MaxWithdraw(f, queue));
  }

  lemma ExitLeaves(f: Facility, g: Facility, queue: Address, who: Address, burned: int, assets: int)
    requires f.Valid() && f.Balance(queue) >= 0 && who != queue && burned > 0 && assets > 0
    requires Exit(f, who, burned, assets, Free(f, queue, who)) == Some(g)
    ensures g.Valid() && g.bps == f.bps && g.nav == f.nav - assets && g.liquid == f.liquid - assets
    ensures g.olp.supply == f.Snapshot().supply - burned && g.olp.mark == f.Snapshot().mark
    ensures g.Balance(queue) == Held(f, queue) && assets <= Free(f, queue, who)
  {}

  /** Money is never what limits the queue: its claim, rounded up, was kept back. */
  lemma ReserveFits(f: Facility, g: Facility, queue: Address, assets: int)
    requires f.Valid() && g.Valid() && f.Balance(queue) >= 0 && g.Balance(queue) >= 0 && assets > 0
    requires g.liquid == f.liquid - assets && assets <= f.liquid - ToAssets(f.Snapshot(), f.Balance(queue), true)
    ensures 0 <= MaxWithdraw(f, queue) <= g.liquid
    ensures MaxWithdraw(g, queue) >= MaxWithdraw(f, queue) <==>
            ToAssets(g.Snapshot(), g.Balance(queue), false) >= MaxWithdraw(f, queue)
  {
    ClaimRounds(f.Snapshot(), f.Balance(queue));
  }

  /** Shares are worth `n` exactly when `n` fits in their part of the assets. */
  lemma WorthAtLeast(s: Snapshot, shares: nat, n: nat)
    ensures ToAssets(s, shares, false) >= n <==> n * T(s.supply) <= shares * A(s.nav)
  {
    if n * T(s.supply) <= shares * A(s.nav) { FloorMax(n, shares, A(s.nav), T(s.supply)); }
    if n <= ToAssets(s, shares, false) { MulMono(n, ToAssets(s, shares, false), T(s.supply)); }
  }

  /** The same of anyone else's `withdraw` or `redeem`. */
  lemma OthersSpareExactly(f: Facility, g: Facility, queue: Address, who: Address, amount: int, inShares: bool)
    requires f.Valid() && f.Balance(queue) >= 0 && who != queue
    requires OthersExit(f, queue, who, amount, inShares) == Some(g)
    ensures var s := f.Snapshot();
            var burned := if inShares then amount else ToShares(s, amount, true);
            var assets := if inShares then Worth(f, amount) else amount;
            && 0 < assets <= f.nav && 0 < burned <= s.supply
            && var nav, left := f.nav - assets, s.supply - burned;
               MaxWithdraw(g, queue) >= MaxWithdraw(f, queue) <==>
               MaxWithdraw(f, queue) * (T(left) + FeeShares(nav, left, s.mark, f.bps)) <= Held(f, queue) * A(nav)
  {
    if inShares {
      ReserveExact(f, g, queue, who, amount, Worth(f, amount));
    } else {
      ReserveExact(f, g, queue, who, ToShares(f.Snapshot(), amount, true), amount);
    }
  }

  const TRILLION: nat := 1_000_000_000_000

  /** A facility opened with all but one of `3 * 10^12` units, which minted all but
      the virtual ones of three whole shares, and since then given two units of
      yield. The fee is half the gain; account 2 is the queue. */
  function ThreeShares(): Facility
  {
    var balances := map[1 := 999_999_999_999_200_000, 2 := 599_999_999_999_625_000, 3 := 1_400_000_000_000_175_000];
    Facility(3 * TRILLION + 1, Ledger(balances, 3 * ONE - VIRTUAL, TRILLION), 5_000, 9, 3 * TRILLION + 1)
  }

  /** It is what the first deposit and the yield leave: the mark is the opening
      price, the supply what the deposit minted. */
  lemma ThreeSharesOpened()
    ensures ThreeShares().olp.mark == SharePrice(0, 0)
    ensures ThreeShares().olp.supply == ToShares(Snap(0, 0, SharePrice(0, 0), 5_000), ThreeShares().nav - 2, false)
    ensures Get(ThreeShares().olp.balances, 1) + Get(ThreeShares().olp.balances, 2) + Get(ThreeShares().olp.balances, 3)
         == ThreeShares().olp.supply
  {
    FloorUnique(TRILLION, 1, ONE, VIRTUAL);
    FloorUnique(3 * ONE - VIRTUAL, 3 * TRILLION - 1, VIRTUAL, 1);
  }

  /** The yield is too little to raise the floored price above the mark. */
  lemma ThreeSharesPriced()
    ensures ThreeShares().Snapshot() == Snapshot(3 * TRILLION + 1, 3 * ONE - VIRTUAL, 0, TRILLION)
    ensures Worth(ThreeShares(), 999_999_999_999_200_000) == 999_999_999_999
    ensures Worth(ThreeShares(), 599_999_999_999_625_000) == 600_000_000_000
    ensures ToAssets(ThreeShares().Snapshot(), 599_999_999_999_625_000, true) == 600_000_000_001
  {
    FloorUnique(TRILLION, 3 * TRILLION + 2, ONE, 3 * ONE);
    FloorUnique(999_999_999_999, 999_999_999_999_200_000, 3 * TRILLION + 2, 3 * ONE);
    FloorUnique(600_000_000_000, 599_999_999_999_625_000, 3 * TRILLION + 2, 3 * ONE);
    CeilUnique(600_000_000_001, 599_999_999_999_625_000, 3 * TRILLION + 2, 3 * ONE);
  }

  /** A holder of nearly a whole share redeems it. */
  lemma ShareRedeemed()
    ensures var g := OthersExit(ThreeShares(), 2, 1, 999_999_999_999_200_000, true);
            && g.Some? && g.value.nav == 2 * TRILLION + 2 && g.value.liquid == 2 * TRILLION + 2
            && g.value.bps == 5_000 && g.value.Balance(2) == 599_999_999_999_625_000
            && g.value.olp.supply == 2 * ONE + 800_000 - VIRTUAL && g.value.olp.mark == TRILLION
  {
    ThreeSharesPriced();
  }

  /** Two units of gain, one of fee, and not quite a millionth of a millionth of a
      share minted for it. */
  lemma TwoSharesPriced()
    ensures var s := Snap(2 * TRILLION + 2, 2 * ONE + 800_000 - VIRTUAL, TRILLION, 5_000);
            && s.nav == 2 * TRILLION + 2 && s.supply == 2 * ONE + 1_799_999 - VIRTUAL
            && ToAssets(s, 599_999_999_999_625_000, false) == 599_999_999_999
  {
    FloorUnique(TRILLION + 1, 2 * TRILLION + 3, ONE, 2 * ONE + 800_000);
    FloorUnique(2, 1, 2 * ONE + 800_000, ONE);
    FloorUnique(1, 2, 5_000, BPS);
    FloorUnique(999_999, 1, 2 * ONE + 800_000, 2 * TRILLION + 2);
    FloorUnique(599_999_999_999, 599_999_999_999_625_000, 2 * TRILLION + 3, 2 * ONE + 1_799_999);
  }

  /** With a fee the slip is real: a holder redeems nearly a whole share, the rounding
      left behind lifts the price above the mark, and the fee on that costs the queue
      one unit of the six hundred thousand million it could be paid. */
  lemma FeeTakesAUnit()
    ensures ThreeShares().olp.mark == SharePrice(0, 0) && MaxWithdraw(ThreeShares(), 2) == 600_000_000_000
    ensures ThreeShares().olp.supply == ToShares(Snap(0, 0, SharePrice(0, 0), 5_000), ThreeShares().nav - 2, false)
    ensures var g := OthersExit(ThreeShares(), 2, 1, 999_999_999_999_200_000, true);
            g.Some? && MaxWithdraw(g.value, 2) == 599_999_999_999
  {
    ThreeSharesOpened();
    ThreeSharesPriced();
    ShareRedeemed();
    TwoSharesPriced();
  }

  // ---- what can stop it

  /** A redemption the queue can cover and the facility can pay is refused exactly
      when its shares are worth less than one unit of base. */
  lemma RedeemExact(f: Facility, who: Address, shares: int)
    requires f.Valid() && 0 < shares <= f.Balance(who) <= f.olp.supply && Worth(f, shares) <= f.liquid
    ensures Redeem(f, who, shares).None? <==> shares * A(f.nav) < T(f.Snapshot().supply)
  {
    var s := f.Snapshot();
    var assets := Worth(f, shares);
    if shares * A(f.nav) >= T(s.supply) { FloorMax(1, shares, A(f.nav), T(s.supply)); }
    if assets >= 1 { MulMono(1, assets, T(s.supply)); }
    ExitWithinNav(f.nav, s.supply, assets, shares);
  }

  /** The queue at its first waiting position, whatever was cancelled before it. */
  function Front(q: State): (r: State)
    ensures r == q.(head := r.head) && q.head <= r.head
    ensures r.head < r.tail ==> r.head in r.pos
    decreases q.tail - q.head
  {
    if q.head < q.tail && q.head !in q.pos then Front(q.(head := q.head + 1)) else q
  }

  lemma {:induction false} FrontInv(q: State)
    requires Inv(q)
    ensures Inv(Front(q))
    decreases q.tail - q.head
  {
    if q.head < q.tail && q.head !in q.pos { FrontInv(q.(head := q.head + 1)); }
  }

  /** Gaps cost a call neither money nor allowance. */
  lemma {:induction false} ProcessFront(q: State, available: int, served: nat, max: nat)
    requires served < max
    ensures Process(q, available, served, max) == Process(Front(q), available, served, max)
    decreases q.tail - q.head
  {
    if q.head < q.tail && q.head !in q.pos { ProcessFront(q.(head := q.head + 1), available, served, max); }
  }

  /** What would be redeemed next is worth less than one unit. */
  predicate DustAt(q: State, available: int)
  {
    var r := Front(q);
    && r.head < r.tail && available > 0 && r.fac.Valid() && r.pos[r.head].shares >= 0
    && var n := Portion(r.fac, r.pos[r.head].shares, available);
       0 < n && n * A(r.fac.nav) < T(r.fac.Snapshot().supply)
  }

  /** The facility can back the queue's redemptions: its oLP is part of the supply,
      and what is left to pay is there. */
  predicate Backed(q: State, available: int)
  {
    q.fac.Balance(q.me) <= q.fac.olp.supply && available <= q.fac.liquid
  }

  lemma HeadRedeem(q: State, available: int, served: nat, max: nat)
    requires Inv(q) && Backed(q, available) && Serves(q, available, served, max)
    ensures Redeem(q.fac, q.me, Portion(q.fac, q.pos[q.head].shares, available)).None? <==> DustAt(q, available)
  {
    PortionAffordable(q.fac, q.pos[q.head].shares, available);
    SumBounds(q.pos, Waiting());
    assert Waiting()(q.head, q.pos[q.head]) <= Sum(q.pos, Waiting());
    RedeemExact(q.fac, q.me, Portion(q.fac, q.pos[q.head].shares, available));
  }

  lemma RedeemBacked(f: Facility, who: Address, shares: int, g: Facility)
    requires f.Valid() && Redeem(f, who, shares) == Some(g) && f.Balance(who) <= f.olp.supply
    ensures g.Balance(who) <= g.olp.supply && g.liquid == f.liquid - Worth(f, shares)
  {}

  /** A call with money and allowance left stops at dust. */
  lemma DustStops(q: State, available: int, served: nat, max: nat)
    requires Inv(q) && Backed(q, available) && served < max && DustAt(q, available)
    ensures Process(q, available, served, max).None?
  {
    ProcessFront(q, available, served, max);
    FrontInv(q);
    HeadRedeem(Front(q), available, served, max);
  }

  /** The head is as it was when the call began, not part served by it. */
  predicate Whole(q: State, r: State)
  {
    r.head in r.pos ==> r.head in q.pos && r.pos[r.head] == q.pos[r.head]
  }

  /** After serving up to `m` positions in full the call faces dust. */
  predicate DustAfter(q: State, available: int, served: nat, m: nat)
  {
    match Process(q, available, served, m)
    case None => false
    case Some(o) => o.served == m && Whole(q, o.q) && DustAt(o.q, o.available)
  }

  /** A call that may serve more goes on from where a shorter one stopped, unless
      that was in the middle of a position. */
  lemma {:induction false} Resume(q: State, available: int, served: nat, m: nat, max: nat, o: Outcome)
    requires Inv(q) && Backed(q, available) && m <= max
    requires Process(q, available, served, m) == Some(o) && o.served == m && Whole(q, o.q)
    ensures Inv(o.q) && Backed(o.q, o.available)
    ensures Process(q, available, served, max) == Process(o.q, o.available, m, max)
    decreases q.tail - q.head
  {
    if q.head < q.tail && served < m {
      if q.head !in q.pos {
        Resume(q.(head := q.head + 1), available, served, m, max, o);
      } else {
        var r, f, shares, left := Turn(q, available, served, m);
        RedeemBacked(q.fac, q.me, shares, f);
        if r.head != q.head {
          ProcessInOrder(r, left, served + 1, m);
          Resume(r, left, served + 1, m, max, o);
        }
      }
    }
  }

  /** A call that fails met dust after some number of positions served in full. */
  lemma {:induction false} FailureIsDust(q: State, available: int, served: nat, max: nat) returns (m: nat)
    requires Inv(q) && Backed(q, available) && Process(q, available, served, max).None?
    ensures served <= m < max && DustAfter(q, available, served, m)
    decreases q.tail - q.head
  {
    if q.head !in q.pos {
      m := FailureIsDust(q.(head := q.head + 1), available, served, max);
    } else if Redeem(q.fac, q.me, Portion(q.fac, q.pos[q.head].shares, available)).None? {
      m := served;
      HeadRedeem(q, available, served, max);
    } else {
      var r, f, shares, left := Turn(q, available, served, max);
      RedeemBacked(q.fac, q.me, shares, f);
      m := FailureIsDust(r, left, served + 1, max);
    }
  }

  /** `process` fails exactly when, after serving some `m` positions in full, fewer
      than `max`, it has money left and what that would redeem next is worth less
      than one unit. */
  lemma ProcessFailsExactly(q: State, max: nat)
    requires Inv(q) && q.fac.Balance(q.me) <= q.fac.olp.supply
    ensures ProcessAll(q, max).None? <==> exists m: nat :: m < max && DustAfter(q, MaxWithdraw(q.fac, q.me), 0, m)
  {
    var available := MaxWithdraw(q.fac, q.me);
    if ProcessAll(q, max).None? {
      var m := FailureIsDust(q, available, 0, max);
    }
    if m: nat :| m < max && DustAfter(q, available, 0, m) {
      var o := Process(q, available, 0, m).value;
      Resume(q, available, 0, m, max, o);
      DustStops(o.q, o.available, m, max);
    }
  }

  // ---- a front position worth nothing

  /** `id` is the first position waiting. */
  ghost predicate First(q: State, id: nat) { id in q.pos && forall j :: j in q.pos ==> id <= j }

  /** All of position `id` is worth less than one unit. */
  predicate Worthless(q: State, id: nat)
  {
    id in q.pos && q.fac.Valid() && q.pos[id].shares * A(q.fac.nav) < T(q.fac.Snapshot().supply)
  }

  lemma {:induction false} FrontIsFirst(q: State, id: nat)
    requires Inv(q) && First(q, id)
    ensures Front(q).head == id
    decreases q.tail - q.head
  {
    if q.head !in q.pos { FrontIsFirst(q.(head := q.head + 1), id); }
  }

  /** While the first position is worth less than one unit, every call that has any
      money to pay and may serve anyone fails, however much the facility could pay
      and however many wait behind. */
  lemma WorthlessBlocks(q: State, id: nat, f: Facility, max: nat)
    requires Inv(q) && First(q, id) && f.Valid() && Worthless(q.(fac := f), id)
    requires max > 0 && MaxWithdraw(f, q.me) > 0
    ensures ProcessAll(q.(fac := f), max).None?
  {
    var p := q.(fac := f);
    FrontIsFirst(q, id);
    FrontOf(q, f);
    ProcessFront(p, MaxWithdraw(f, q.me), 0, max);
    NothingWorth(f, q.pos[id].shares);
  }

  lemma {:induction false} FrontOf(q: State, f: Facility)
    ensures Front(q.(fac := f)) == Front(q).(fac := f)
    decreases q.tail - q.head
  {
    if q.head < q.tail && q.head !in q.pos { FrontOf(q.(head := q.head + 1), f); }
  }

  lemma NothingWorth(f: Facility, shares: nat)
    requires f.Valid() && shares * A(f.nav) < T(f.Snapshot().supply)
    ensures Worth(f, shares) == 0
  {
    FloorUnique(0, shares, A(f.nav), T(f.Snapshot().supply));
  }

  /** One step that does not cancel such a position neither serves nor moves it, and
      pays nobody. */
  lemma WorthlessStep(q: State, step: Step, id: nat)
    requires Inv(q) && First(q, id) && Worthless(q, id) && step != DoCancel(id)
    ensures First(After(q, step), id) && After(q, step).pos[id] == q.pos[id] && After(q, step).paid == q.paid
  {
    if step.DoProcess? && step.max > 0 {
      if MaxWithdraw(q.fac, q.me) > 0 {
        assert q.(fac := q.fac) == q;
        WorthlessBlocks(q, id, q.fac, step.max);
      } else {
        FrontIsFirst(q, id);
        ProcessFront(q, MaxWithdraw(q.fac, q.me), 0, step.max);
      }
    }
  }

  /** Over any run in which the first position stays worth less than one unit and is
      not cancelled, it stays where it is and nobody in the queue is paid anything. */
  lemma {:induction false} WorthlessBlocksTheRun(q: State, steps: seq<Step>, id: nat)
    requires Inv(q) && First(q, id) && DoCancel(id) !in steps
    requires forall i :: 0 <= i < |steps| ==> Worthless(Run(q, steps[..i]), id)
    ensures First(Run(q, steps), id) && Run(q, steps).pos[id] == q.pos[id] && Run(q, steps).paid == q.paid
    decreases |steps|
  {
    if steps != [] {
      var front := steps[..|steps| - 1];
      forall i | 0 <= i < |front|
        ensures Worthless(Run(q, front[..i]), id)
      {
        assert front[..i] == steps[..i];
      }
      WorthlessBlocksTheRun(q, front, id);
      RunKeeps(q, front);
      WorthlessStep(Run(q, front), steps[|steps| - 1], id);
    }
  }

  /** Two units deposited at the opening price: one share of the two million waits in
      front, the others behind it. */
  function OneShareFirst(liquid: nat): State
  {
    State(1, 0, 2, map[0 := Position(5, 5, 1), 1 := Position(6, 7, 1_999_999)],
          Facility(2, Ledger(map[1 := 2_000_000], 2_000_000, SharePrice(0, 0)), 0, 9, liquid), map[])
  }

  lemma OneShareInv(liquid: nat)
    ensures Inv(OneShareFirst(liquid)) && First(OneShareFirst(liquid), 0) && Worthless(OneShareFirst(liquid), 0)
  {
    var q := OneShareFirst(liquid);
    var none: map<nat, Position> := map[];
    var one := none[0 := q.pos[0]];
    SumPut(none, Waiting(), 0, q.pos[0]);
    SumPut(one, Waiting(), 1, q.pos[1]);
    assert q.pos == one[1 := q.pos[1]];
  }

  lemma OneShareBlocks(liquid: nat, max: nat)
    requires liquid > 0 && max > 0
    ensures ProcessAll(OneShareFirst(liquid), max).None?
  {
    var q := OneShareFirst(liquid);
    OneShareInv(liquid);
    FloorUnique(2, 2_000_000, 3, 3_000_000);
    WorthlessBlocks(q, 0, q.fac, max);
    assert q.(fac := q.fac) == q;
  }

  /** What cancelling it leaves: the next position at the front. */
  lemma OneShareCancelled() returns (c: State)
    ensures Cancel(OneShareFirst(2), 0) == Some(c) && MaxWithdraw(c.fac, 1) == 1 && c.paid == map[]
    ensures Front(c) == c.(head := 1) && 1 < c.tail && c.me == 1 && c.fac.Valid()
    ensures c.pos == map[1 := Position(6, 7, 1_999_999)] && c.fac.Balance(1) == 1_999_999
    ensures c.fac.nav == 2 && c.fac.liquid == 2 && c.fac.Snapshot().nav == 2 && c.fac.Snapshot().supply == 2_000_000
  {
    c := Cancel(OneShareFirst(2), 0).value;
    FloorUnique(1, 1_999_999, 3, 3_000_000);
    assert Front(c) == Front(c.(head := 1));
  }

  lemma CancelFrees()
    ensures var c := Cancel(OneShareFirst(2), 0);
            c.Some? && ProcessAll(c.value, 1).Some? && Get(ProcessAll(c.value, 1).value.paid, 7) == 1
  {
    var c := OneShareCancelled();
    FloorUnique(1, 1_999_999, 3, 3_000_000);
    ProcessFront(c, 1, 0, 1);
    var r := Serve(Front(c), Redeem(c.fac, 1, 1_999_999).value, 1_999_999, 1);
    assert Process(Front(c), 1, 0, 1) == Process(r, 0, 1, 1);
  }

  /** One share at the front, worth a millionth of a unit: with any money at all every
      call fails; once it is cancelled the next in line is paid. */
  lemma WorthlessWitness(liquid: nat, max: nat)
    requires liquid > 0 && max > 0
    ensures Inv(OneShareFirst(liquid)) && ProcessAll(OneShareFirst(liquid), max).None?
    ensures var c := Cancel(OneShareFirst(2), 0);
            c.Some? && ProcessAll(c.value, 1).Some? && Get(ProcessAll(c.value, 1).value.paid, 7) == 1
  {
    OneShareInv(liquid);
    OneShareBlocks(liquid, max);
    CancelFrees();
  }

  /** Two units deposited at the opening price, then 125 of yield; all the shares wait. */
  function AllWaiting(liquid: nat): State
  {
    State(1, 0, 1, map[0 := Position(5, 6, 2_000_000)],
          Facility(127, Ledger(map[1 := 2_000_000], 2_000_000, SharePrice(0, 0)), 0, 9, liquid), map[])
  }

  lemma AllWaitingInv(liquid: nat)
    ensures Inv(AllWaiting(liquid)) && MaxWithdraw(AllWaiting(liquid).fac, 1) == Min(85, liquid)
    ensures Worth(AllWaiting(liquid).fac, 2_000_000) == 85
  {
    var none: map<nat, Position> := map[];
    SumPut(none, Waiting(), 0, AllWaiting(liquid).pos[0]);
    FloorUnique(85, 2_000_000, 128, 3_000_000);
  }

  lemma OneUnitBlocked()
    ensures ProcessAll(AllWaiting(1), 1).None?
  {
    AllWaitingInv(1);
    FloorUnique(23_437, 1, 3_000_000, 128);
    FloorUnique(0, 23_437, 128, 3_000_000);
    assert Portion(AllWaiting(1).fac, 2_000_000, 1) == 23_437;
  }

  lemma TwoUnitsServed()
    ensures ProcessAll(AllWaiting(2), 1).Some? && Get(ProcessAll(AllWaiting(2), 1).value.paid, 6) == 2
  {
    var q := AllWaiting(2);
    AllWaitingInv(2);
    FloorUnique(46_875, 2, 3_000_000, 128);
    FloorUnique(2, 46_875, 128, 3_000_000);
    assert Portion(q.fac, 2_000_000, 2) == 46_875;
    var r := Serve(q, Redeem(q.fac, 1, 46_875).value, 46_875, 2);
    assert Process(q, 2, 0, 1) == Some(Outcome(r, 0, 1));
  }

  /** When it is the money that makes the portion worthless, a little more unblocks
      the queue: one unit buys a bit less than it is worth; two buy exactly two. */
  lemma MoneyLimitedWitness()
    ensures Inv(AllWaiting(1)) && !Worthless(AllWaiting(1), 0) && ProcessAll(AllWaiting(1), 1).None?
    ensures Inv(AllWaiting(2)) && ProcessAll(AllWaiting(2), 1).Some? && Get(ProcessAll(AllWaiting(2), 1).value.paid, 6) == 2
  {
    AllWaitingInv(1);
    AllWaitingInv(2);
    OneUnitBlocked();
    TwoUnitsServed();
  }

  /** The queue as the object it is. */
  class WithdrawalQueue {
    const me: Address
    var head: nat
    var tail: nat
    var pos: map<nat, Position>
    // the facility, and what it has paid out for the queue
    var fac: Facility
    var paid: map<Address, int>

    function Now(): State
      reads this
    {
      State(me, head, tail, pos, fac, paid)
    }

    constructor (me: Address, fac: Facility)
      requires fac.Valid() && fac.Balance(me) >= 0
      ensures Now() == State(me, 0, 0, map[], fac, map[]) && Inv(Now())
    {
      this.me, this.fac, head, tail, pos, paid := me, fac, 0, 0, map[], map[];
    }

    method Enter(owner: Address, receiver: Address, shares: int) returns (ok: bool)
      modifies this
      ensures ok <==> Request(old(Now()), owner, receiver, shares).Some?
      ensures Now() == After(old(Now()), DoRequest(owner, receiver, shares))
    {
      if shares <= 0 || owner == me || fac.Balance(owner) < shares { return false; }
      fac := MoveOlp(fac, owner, me, shares);
      pos := pos[tail := Position(owner, receiver, shares)];
      tail := tail + 1;
      ok := true;
    }

    method Leave(id: nat) returns (ok: bool)
      modifies this
      ensures ok <==> Cancel(old(Now()), id).Some?
      ensures Now() == After(old(Now()), DoCancel(id))
    {
      if id !in pos || fac.Balance(me) < pos[id].shares { return false; }
      fac := MoveOlp(fac, me, pos[id].owner, pos[id].shares);
      pos := pos - {id};
      ok := true;
    }

    /** Takes `shares` off the head position, which goes once it has none. */
    method TakeHead(f: Facility, shares: int, assets: int) returns (gone: bool)
      requires head in pos
      modifies this
      ensures Now() == Serve(old(Now()), f, shares, assets) && (gone <==> head != old(head))
    {
      var p := pos[head];
      fac := f;
      paid := paid[p.receiver := Get(paid, p.receiver) + assets];
      p := p.(shares := p.shares - shares);
      gone := p.shares <= 0;
      if gone {
        pos := pos - {head};
        head := head + 1;
      } else {
        pos := pos[head := p];
      }
    }

    /** Redeems for the head position what `available` allows: one turn of the loop. */
    method ServeHead(available: int, n: nat, max: nat) returns (left: Option<int>)
      requires Inv(Now()) && Serves(Now(), available, n, max)
      modifies this
      ensures head >= old(head) && tail == old(tail)
      ensures left.None? ==> Process(old(Now()), available, n, max).None?
      ensures left.Some? ==> Inv(Now())
      ensures left.Some? && head == old(head) ==> Process(old(Now()), available, n, max) == Some(Outcome(Now(), left.value, n + 1))
      ensures left.Some? && head != old(head) ==> Process(old(Now()), available, n, max) == Process(Now(), left.value, n + 1, max)
    {
      var shares := Portion(fac, pos[head].shares, available);
      var f := Redeem(fac, me, shares);
      if f.None? { return None; }
      var assets := Worth(fac, shares);
      PortionAffordable(fac, pos[head].shares, available);
      RedeemShape(fac, me, shares, f.value);
      ServeInv(Now(), f.value, shares, assets);
      var gone := TakeHead(f.value, shares, assets);
      left := Some(available - assets);
    }

    /** `process` as a loop over `ServeHead`, undone if any turn fails. */
    method Serving(max: nat) returns (served: Option<nat>)
      requires Inv(Now())
      modifies this
      ensures ProcessAll(old(Now()), max).Some? <==> served.Some?
      ensures Now() == After(old(Now()), DoProcess(max))
      ensures served.Some? ==> served.value <= max
    {
      var saved := Now();
      var available, n := MaxWithdraw(fac, me), 0;
      ghost var goal := Process(Now(), available, 0, max);
      while head < tail && n < max
        invariant Inv(Now()) && n <= max
        invariant Process(Now(), available, n, max) == goal
        decreases tail - head
      {
        if head !in pos {
          head := head + 1;
          continue;
        }
        if !Serves(Now(), available, n, max) { break; }
        var at := head;
        var left := ServeHead(available, n, max);
        if left.None? {
          Rollback(saved);
          return None;
        }
        available, n := left.value, n + 1;
        if head == at { return Some(n); }
      }
      served := Some(n);
    }

    method Rollback(q: State)
      requires q.me == me
      modifies this
      ensures Now() == q
    {
      head, tail, pos, fac, paid := q.head, q.tail, q.pos, q.fac, q.paid;
    }
  }
}
