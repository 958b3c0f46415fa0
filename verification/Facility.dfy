/** A facility trading RWAs against base (`contracts/facility/src/lib.rs`): prices,
    NAV with gain that vests, and redemptions. Vault positions are exact integers;
    prices and horizons are fixed within one call. `None` is a call that panics. */
module Facility {

  import opened Math
  import opened Sums

  /** What one RWA is worth and trades at: `horizon` is the seconds its schedule
      gives now, which a rate multiplies to a discount out of `DENOM`. */
  datatype Rwa = Rwa(
    price: nat, horizon: nat, bidRate: nat, askRate: nat, maxBps: nat, accepted: bool,
    units: nat, booked: Option<nat>)
  {
    /** `validate` and a fresh price. */
    predicate Valid() { price > 0 && horizon > 0 && askRate <= bidRate }
    function Bid(): nat { Max(DENOM - bidRate * horizon, 0) }
    function Ask(): int { DENOM - askRate * horizon }
    /** What the facility's units and its open redemption are carried at. */
    function Value(): nat { Floor(units, price, ONE) + Carried() }
    function Carried(): nat { if booked.Some? then booked.value else 0 }
  }

  datatype Token = Base | Asset(index: nat)

  /** Gain booked up to `last` and still locked then, unlocking evenly until `end`. */
  datatype Locked = Locked(amount: nat, last: nat, end: nat)

  datatype State = State(base: int, rwas: seq<Rwa>, locked: Locked, vest: nat, now: nat, paused: bool)

  // ---- gain that vests

  function LockedAt(l: Locked, now: nat): (n: nat)
    requires l.last <= now
    ensures n <= l.amount
    ensures now >= l.end ==> n == 0
  {
    if now >= l.end || l.amount == 0 then 0
    else
      FloorAtMost(l.amount, l.end - now, l.end - l.last);
      Floor(l.amount, l.end - now, l.end - l.last)
  }

  function Span(current: nat, left: nat, gain: nat, vest: nat): nat
  {
    if current + gain > 0 then Floor(current * left + gain * vest, 1, current + gain) else 0
  }

  function Left(l: Locked, now: nat): nat { if l.end > now then l.end - now else 0 }

  /** `book_gain`: a gain is added to what is locked, and both end together at
      their mean; a loss shrinks what is locked and leaves its end. */
  function BookGain(l: Locked, gain: int, vest: nat, now: nat): Locked
    requires l.last <= now
  {
    var current := LockedAt(l, now);
    if gain >= 0 then Locked(current + gain, now, now + Span(current, Left(l, now), gain, vest))
    else Locked(Max(current + gain, 0), now, l.end)
  }

  /** Locked gain only falls as time passes. */
  lemma LockedFalls(l: Locked, now: nat, later: nat)
    requires l.last <= now <= later
    ensures LockedAt(l, later) <= LockedAt(l, now)
  {
    if later < l.end && l.amount > 0 {
      MulMono(l.end - later, l.end - now, l.amount);
      assert l.amount * (l.end - later) <= l.amount * (l.end - now);
      FloorMax(LockedAt(l, later), l.amount, l.end - now, l.end - l.last);
    }
  }

  /** A weighted sum lies between the total at the lesser and at the greater. */
  lemma Weighted(a: nat, x: nat, b: nat, y: nat)
    ensures Min(x, y) * (a + b) <= a * x + b * y <= Max(x, y) * (a + b)
  {
    var lo, hi := Min(x, y), Max(x, y);
    MulMono(lo, x, a);
    MulMono(lo, y, b);
    MulMono(x, hi, a);
    MulMono(y, hi, b);
    assert lo * (a + b) == lo * a + lo * b && hi * (a + b) == hi * a + hi * b;
    assert a * x == x * a && b * y == y * b;
  }

  /** Merging gives a span between the time left and the vesting time, and within
      one second of their mean weighted by size. */
  lemma SpanBracket(current: nat, left: nat, gain: nat, vest: nat)
    requires current + gain > 0
    ensures var span, total := Span(current, left, gain, vest), current + gain;
            && total * span <= current * left + gain * vest < total * (span + 1)
            && Min(left, vest) <= span <= Max(left, vest)
  {
    var span, total, sum := Span(current, left, gain, vest), current + gain, current * left + gain * vest;
    Weighted(current, left, gain, vest);
    assert span * total <= sum < (span + 1) * total;
    SpanRange(span, total, sum, Min(left, vest), Max(left, vest));
  }

  lemma SpanRange(span: nat, total: nat, sum: nat, lo: nat, hi: nat)
    requires total > 0 && span * total <= sum < (span + 1) * total && lo * total <= sum <= hi * total
    ensures lo <= span <= hi && total * span <= sum < total * (span + 1)
  {
    Bracket(lo, span, total);
    assert (hi + 1) * total == hi * total + total;
    Bracket(span, hi, total);
  }

  /** What is locked the moment a gain is booked is all of it, exactly when the
      merged span is not zero; a vesting time of a second or more ensures that. */
  lemma GainLocks(l: Locked, gain: nat, vest: nat, now: nat)
    requires l.last <= now
    ensures var current := LockedAt(l, now);
            && (LockedAt(BookGain(l, gain, vest, now), now) == current + gain <==>
                current + gain == 0 || current * Left(l, now) + gain * vest >= current + gain)
            && LockedAt(BookGain(l, gain, vest, now), now) in {0, current + gain}
            && (vest >= 1 ==> LockedAt(BookGain(l, gain, vest, now), now) == current + gain)
  {
    var current, left := LockedAt(l, now), Left(l, now);
    var total, span := current + gain, Span(current, left, gain, vest);
    if total > 0 {
      SpanBracket(current, left, gain, vest);
      if vest >= 1 {
        MulMono(1, vest, gain);
        if current > 0 { MulMono(1, left, current); }
      }
      if span >= 1 {
        FloorWhole(total, span);
        MulMono(1, span, total);
      }
    }
  }

  lemma LossLocks(l: Locked, gain: int, vest: nat, now: nat)
    requires l.last <= now && gain < 0
    ensures LockedAt(BookGain(l, gain, vest, now), now) == Max(LockedAt(l, now) + gain, 0)
  {
    if now < l.end { FloorWhole(Max(LockedAt(l, now) + gain, 0), l.end - now); }
  }

  /** With no vesting time a gain is released at once. */
  lemma NoVestReleases()
    ensures LockedAt(BookGain(Locked(0, 0, 0), 5, 0, 10), 10) == 0
  {
    SpanBracket(0, 0, 5, 0);
  }

  // ---- NAV

  function RwaValue(rwas: seq<Rwa>): nat
  {
    if rwas == [] then 0 else RwaValue(rwas[..|rwas| - 1]) + rwas[|rwas| - 1].Value()
  }

  /** Base, RWAs at the oracle and open redemptions, less gain still vesting. */
  function Gross(s: State): int
    requires s.locked.last <= s.now
  {
    s.base + RwaValue(s.rwas) - LockedAt(s.locked, s.now)
  }

  lemma {:induction false} ValuePut(rwas: seq<Rwa>, i: nat, r: Rwa)
    requires i < |rwas|
    ensures RwaValue(rwas[i := r]) == RwaValue(rwas) + r.Value() - rwas[i].Value()
  {
    var n := |rwas| - 1;
    if i < n {
      assert rwas[i := r][..n] == rwas[..n][i := r];
      ValuePut(rwas[..n], i, r);
    } else {
      assert rwas[i := r][..n] == rwas[..n];
    }
  }

  // ---- prices

  /** Selling `q` of an RWA to the facility: its oracle value, and the base paid. */
  function Mark(r: Rwa, q: nat): nat { Floor(q, r.price, ONE) }
  function BidValue(r: Rwa, q: nat): nat { Floor(Mark(r, q), r.Bid(), DENOM) }

  /** How many units `value` of base pays for at the ask. */
  function AskUnits(r: Rwa, value: nat): nat
    requires r.price > 0 && r.Ask() > 0
  {
    Floor(Floor(value, ONE, r.price), DENOM, r.Ask())
  }

  datatype Priced = Priced(out: nat, gain: int)

  predicate Listed(s: State, t: Token)
  {
    t.Base? || (t.index < |s.rwas| && s.rwas[t.index].accepted && s.rwas[t.index].Valid())
  }

  /** What `q` of a token sells for in base at the bid, and (`MarkIn`) at no discount. */
  function ValueIn(s: State, t: Token, q: nat): nat
    requires Listed(s, t)
  {
    if t.Base? then q else BidValue(s.rwas[t.index], q)
  }

  function MarkIn(s: State, t: Token, q: nat): nat
    requires Listed(s, t)
  {
    if t.Base? then q else Mark(s.rwas[t.index], q)
  }

  /** `price_trade`. */
  function PriceTrade(s: State, tin: Token, tout: Token, q: int): Option<Priced>
  {
    if s.paused || q <= 0 || tin == tout || !Listed(s, tin) || !Listed(s, tout) then None
    else
      var value, mark := ValueIn(s, tin, q), MarkIn(s, tin, q);
      if tout.Base? then (if value <= 0 then None else Some(Priced(value, mark - value)))
      else
        var r := s.rwas[tout.index];
        if r.Ask() <= 0 then None
        else
          var units := AskUnits(r, value);
          if units > r.units || units <= 0 then None else Some(Priced(units, mark - Mark(r, units)))
  }

  /** A position in either kind of vault changed by `amount`. */
  function Shift(s: State, t: Token, amount: int): State
    requires t.Asset? ==> t.index < |s.rwas| && s.rwas[t.index].units + amount >= 0
  {
    if t.Base? then s.(base := s.base + amount)
    else s.(rwas := s.rwas[t.index := s.rwas[t.index].(units := s.rwas[t.index].units + amount)])
  }

  function Book(s: State, gain: int): State
    requires s.locked.last <= s.now
  {
    s.(locked := BookGain(s.locked, gain, s.vest, s.now))
  }

  /** Paid in one token, out in another. */
  function Swapped(s: State, tin: Token, tout: Token, q: nat, out: nat): State
    requires tin != tout && Listed(s, tin) && Listed(s, tout)
    requires tout.Asset? ==> out <= s.rwas[tout.index].units
  {
    Shift(Shift(s, tin, q), tout, 0 - out)
  }

  predicate WithinCap(s: State, t: Token, nav: int)
    requires t.Asset? ==> t.index < |s.rwas|
  {
    t.Asset? ==> Mark(s.rwas[t.index], s.rwas[t.index].units) <= Floor(Max(nav, 0), s.rwas[t.index].maxBps, BPS)
  }

  /** `trade`: `free` is the base payable to the recipient. */
  function Trade(s: State, tin: Token, tout: Token, q: int, minOut: int, free: int): Option<State>
  {
    if s.locked.last > s.now || PriceTrade(s, tin, tout, q).None? then None
    else
      var t := PriceTrade(s, tin, tout, q).value;
      if t.out < minOut || (tout.Base? && (t.out > free || t.out > s.base)) then None
      else
        var w := Book(Swapped(s, tin, tout, q, t.out), t.gain);
        if WithinCap(w, tin, Gross(s)) then Some(w) else None
  }

  // ---- redemptions

  /** `book`: units are exchanged for an open redemption worth their mark. */
  function BookRedemption(s: State, i: nat, amount: int): Option<State>
  {
    if i >= |s.rwas| || s.rwas[i].booked.Some? || s.rwas[i].price == 0 || amount <= 0 || amount > s.rwas[i].units then None
    else
      var r := s.rwas[i];
      Some(s.(rwas := s.rwas[i := r.(units := r.units - amount, booked := Some(Mark(r, amount)))]))
  }

  function Closed(s: State, i: nat, received: int): State
    requires i < |s.rwas|
  {
    s.(base := s.base + received, rwas := s.rwas[i := s.rwas[i].(booked := None)])
  }

  /** `settle`: all of the carried value or nothing; a surplus vests. */
  function Settle(s: State, i: nat, proceeds: int): Option<State>
  {
    if s.locked.last > s.now || i >= |s.rwas| || s.rwas[i].booked.None? || proceeds < s.rwas[i].booked.value then None
    else Some(Book(Closed(s, i, proceeds), proceeds - s.rwas[i].booked.value))
  }

  /** `write_down`: an admin takes the loss of what will not come back. */
  function WriteDown(s: State, i: nat, recovered: int): Option<State>
  {
    if s.locked.last > s.now || i >= |s.rwas| || s.rwas[i].booked.None? then None
    else if recovered < 0 || recovered >= s.rwas[i].booked.value then None
    else Some(Book(Closed(s, i, recovered), recovered - s.rwas[i].booked.value))
  }

  // ---- what an instant does to NAV

  lemma FloorDrop(units: nat, less: nat, price: nat)
    requires less <= units
    ensures 0 <= Floor(units, price, ONE) - Floor(units - less, price, ONE) - Floor(less, price, ONE) <= 1
  {
    FloorSplit(units - less, less, price, ONE);
  }

  /** Everything the facility holds, before what is locked. */
  function Assets(s: State): int { s.base + RwaValue(s.rwas) }

  /** Moving a position moves what it is carried at by its mark, give or take one. */
  lemma PaidIn(s: State, t: Token, q: nat)
    requires Listed(s, t)
    ensures 0 <= Assets(Shift(s, t, q)) - Assets(s) - MarkIn(s, t, q) <= 1
  {
    if t.Asset? {
      var r := s.rwas[t.index];
      ValuePut(s.rwas, t.index, r.(units := r.units + q));
      FloorDrop(r.units + q, q, r.price);
    }
  }

  lemma PaidOut(s: State, t: Token, out: nat)
    requires Listed(s, t) && (t.Asset? ==> out <= s.rwas[t.index].units)
    ensures -1 <= Assets(Shift(s, t, 0 - out)) - Assets(s) + MarkIn(s, t, out) <= 0
  {
    if t.Asset? {
      var r := s.rwas[t.index];
      ValuePut(s.rwas, t.index, r.(units := r.units - out));
      FloorDrop(r.units, out, r.price);
    }
  }

  /** A loss is felt only where it exceeds what is locked. */
  function Felt(s: State, gain: int): nat
    requires s.locked.last <= s.now
  {
    Max(-gain - LockedAt(s.locked, s.now), 0)
  }

  /** What booking shows at once: nothing, unless a gain and what was locked before it
      merge into a span of zero, which unlocks all of both. */
  function Released(s: State, gain: int): nat
    requires s.locked.last <= s.now
  {
    var current := LockedAt(s.locked, s.now);
    if gain >= 0 && current * Left(s.locked, s.now) + gain * s.vest < current + gain then current + gain else 0
  }

  lemma BookNav(s: State, gain: int)
    requires s.locked.last <= s.now
    ensures Gross(Book(s, gain)) == Gross(s) - gain - (if gain < 0 then Felt(s, gain) else 0) + Released(s, gain)
    ensures s.vest >= 1 ==> Released(s, gain) == 0
  {
    if gain >= 0 { GainLocks(s.locked, gain, s.vest, s.now); } else { LossLocks(s.locked, gain, s.vest, s.now); }
  }

  lemma SwappedValue(s: State, tin: Token, tout: Token, q: nat, out: nat)
    requires tin != tout && Listed(s, tin) && Listed(s, tout)
    requires tout.Asset? ==> out <= s.rwas[tout.index].units
    ensures -1 <= Assets(Swapped(s, tin, tout, q, out)) - Assets(s) - MarkIn(s, tin, q) + MarkIn(s, tout, out) <= 1
  {
    PaidIn(s, tin, q);
    PaidOut(Shift(s, tin, q), tout, out);
  }

  /** A trade moves NAV at that instant, within one unit of rounding, by what it
      releases less what its loss exceeds the locked gain by; with any vesting time
      it releases nothing, so it never raises NAV by more than the unit. */
  lemma TradeNav(s: State, tin: Token, tout: Token, q: int, minOut: int, free: int)
    requires Trade(s, tin, tout, q, minOut, free).Some?
    ensures var w, gain := Trade(s, tin, tout, q, minOut, free).value, PriceTrade(s, tin, tout, q).value.gain;
            && -1 <= Gross(w) - Gross(s) - Released(s, gain) + Felt(s, gain) <= 1
            && (s.vest >= 1 ==> Released(s, gain) == 0)
  {
    var t := PriceTrade(s, tin, tout, q).value;
    SwappedValue(s, tin, tout, q, t.out);
    BookNav(Swapped(s, tin, tout, q, t.out), t.gain);
  }

  /** Booking a redemption lowers NAV by at most one unit. */
  lemma BookingNav(s: State, i: nat, amount: int)
    requires s.locked.last <= s.now && BookRedemption(s, i, amount).Some?
    ensures -1 <= Gross(BookRedemption(s, i, amount).value) - Gross(s) <= 0
  {
    var r := s.rwas[i];
    ValuePut(s.rwas, i, r.(units := r.units - amount, booked := Some(Mark(r, amount))));
    FloorDrop(r.units, amount, r.price);
  }

  /** Settling a redemption moves NAV by exactly what it releases: with any vesting
      time by nothing, whatever the surplus. */
  lemma SettleNav(s: State, i: nat, proceeds: int)
    requires Settle(s, i, proceeds).Some?
    ensures Gross(Settle(s, i, proceeds).value) == Gross(s) + Released(s, proceeds - s.rwas[i].Carried())
    ensures s.vest >= 1 ==> Gross(Settle(s, i, proceeds).value) == Gross(s)
  {
    ValuePut(s.rwas, i, s.rwas[i].(booked := None));
    BookNav(Closed(s, i, proceeds), proceeds - s.rwas[i].booked.value);
  }

  /** Writing one down costs exactly what its loss exceeds the locked gain by. */
  lemma WriteDownNav(s: State, i: nat, recovered: int)
    requires WriteDown(s, i, recovered).Some?
    ensures Gross(WriteDown(s, i, recovered).value) == Gross(s) - Felt(s, recovered - s.rwas[i].Carried())
  {
    ValuePut(s.rwas, i, s.rwas[i].(booked := None));
    LossLocks(s.locked, recovered - s.rwas[i].booked.value, s.vest, s.now);
  }

  /** NAV at an instant is unmoved by a gain exactly when the span it vests over is
      not zero; with no vesting time and nothing locked, a settlement's whole
      surplus shows at once. */
  lemma SettleNavExact(s: State, i: nat, proceeds: int)
    requires Settle(s, i, proceeds).Some?
    ensures var gain, current := proceeds - s.rwas[i].Carried(), LockedAt(s.locked, s.now);
            Gross(Settle(s, i, proceeds).value) == Gross(s) <==>
            current + gain == 0 || current * Left(s.locked, s.now) + gain * s.vest >= current + gain
  {
    ValuePut(s.rwas, i, s.rwas[i].(booked := None));
    GainLocks(s.locked, proceeds - s.rwas[i].Carried(), s.vest, s.now);
  }

  // ---- trading in circles

  /** What a token amount could fetch at the bid, scaled by `ONE * DENOM`. */
  function Weight(s: State, t: Token): nat
    requires t.Asset? ==> t.index < |s.rwas|
  {
    if t.Base? then ONE * DENOM else s.rwas[t.index].price * s.rwas[t.index].Bid()
  }

  lemma SellBound(r: Rwa, q: nat)
    ensures BidValue(r, q) * (ONE * DENOM) <= q * (r.price * r.Bid())
  {
    var mark := Mark(r, q);
    MulMono(mark * ONE, q * r.price, r.Bid());
    MulMono(BidValue(r, q) * DENOM, mark * r.Bid(), ONE);
    assert mark * r.Bid() * ONE == mark * ONE * r.Bid();
    assert q * r.price * r.Bid() == q * (r.price * r.Bid());
  }

  lemma BuyBound(r: Rwa, value: nat)
    requires r.Valid() && r.Ask() > 0
    ensures AskUnits(r, value) * (r.price * r.Bid()) <= value * (ONE * DENOM)
  {
    var raw, units := Floor(value, ONE, r.price), AskUnits(r, value);
    assert r.Bid() <= r.Ask() by { MulMono(r.askRate, r.bidRate, r.horizon); }
    MulMono(units * r.Ask(), raw * DENOM, r.price);
    MulMono(raw * r.price, value * ONE, DENOM);
    MulMono(r.Bid(), r.Ask(), units * r.price);
    assert units * (r.price * r.Bid()) == r.Bid() * (units * r.price);
    assert r.Ask() * (units * r.price) == units * r.Ask() * r.price;
    assert raw * DENOM * r.price == raw * r.price * DENOM;
  }

  /** Selling pays the bid less two units of rounding at most. */
  lemma SellFair(r: Rwa, q: nat)
    requires r.Bid() <= DENOM
    ensures (BidValue(r, q) + 2) * (ONE * DENOM) > q * (r.price * r.Bid())
  {
    var mark, value := Mark(r, q), BidValue(r, q);
    MulMono(q * r.price, (mark + 1) * ONE, r.Bid());
    assert q * r.price * r.Bid() == q * (r.price * r.Bid());
    assert (mark + 1) * ONE * r.Bid() == (mark * r.Bid() + r.Bid()) * ONE;
    assert mark * r.Bid() + r.Bid() < (value + 2) * DENOM;
    MulMono(mark * r.Bid() + r.Bid() + 1, (value + 2) * DENOM, ONE);
  }

  /** Buying gives all the units `value` pays for at the ask, but for rounding: one
      unit, and what one unit of base mark buys. */
  lemma BuyFair(r: Rwa, value: nat)
    requires r.price > 0 && r.Ask() > 0
    ensures (AskUnits(r, value) + 1) * r.Ask() * r.price + r.price * DENOM > value * (ONE * DENOM)
  {
    var raw, units := Floor(value, ONE, r.price), AskUnits(r, value);
    MulMono(raw * DENOM, (units + 1) * r.Ask(), r.price);
    MulMono(value * ONE + 1, (raw + 1) * r.price, DENOM);
    assert (raw + 1) * r.price * DENOM == raw * DENOM * r.price + r.price * DENOM;
    assert value * ONE * DENOM == value * (ONE * DENOM);
  }

  lemma ZeroBid(r: Rwa, q: nat)
    requires r.price > 0
    ensures r.Bid() == 0 ==> BidValue(r, q) == 0
    ensures r.Bid() > 0 ==> r.price * r.Bid() > 0
  {}

  /** Nothing fetches nothing. */
  lemma ZeroAsk(r: Rwa)
    requires r.price > 0 && r.Ask() > 0
    ensures AskUnits(r, 0) == 0
  {
    FloorUnique(0, 0, ONE, r.price);
    FloorUnique(0, 0, DENOM, r.Ask());
  }

  /** A trade never gives more than it takes, at the bid. */
  lemma TradeBound(s: State, tin: Token, tout: Token, q: int)
    requires PriceTrade(s, tin, tout, q).Some?
    ensures q > 0 && PriceTrade(s, tin, tout, q).value.out * Weight(s, tout) <= q * Weight(s, tin)
    ensures Weight(s, tin) > 0
  {
    var value := ValueIn(s, tin, q);
    var t := PriceTrade(s, tin, tout, q).value;
    if tin.Asset? {
      SellBound(s.rwas[tin.index], q);
      ZeroBid(s.rwas[tin.index], q);
      MulPos(s.rwas[tin.index].price, s.rwas[tin.index].Bid());
    }
    if tout.Asset? {
      ZeroAsk(s.rwas[tout.index]);
      BuyBound(s.rwas[tout.index], value);
    }
  }

  /** A trader, and what it holds; trades it cannot pay for or the facility refuses
      do not happen. */
  datatype Desk = Desk(s: State, hold: map<Token, int>)

  datatype Deal = Deal(tin: Token, tout: Token, q: int, minOut: int, free: int)

  function After(d: Desk, deal: Deal): Desk
  {
    match Trade(d.s, deal.tin, deal.tout, deal.q, deal.minOut, deal.free)
    case None => d
    case Some(w) =>
      if Get(d.hold, deal.tin) < deal.q then d
      else
        var out := PriceTrade(d.s, deal.tin, deal.tout, deal.q).value.out;
        var h := d.hold[deal.tin := Get(d.hold, deal.tin) - deal.q];
        Desk(w, h[deal.tout := Get(h, deal.tout) + out])
  }

  function Run(d: Desk, deals: seq<Deal>): Desk
  {
    if deals == [] then d else After(Run(d, deals[..|deals| - 1]), deals[|deals| - 1])
  }

  /** The weight of any token, nothing for one that is not listed. */
  function WeightOf(s: State, t: Token): nat { if t.Asset? && t.index >= |s.rwas| then 0 else Weight(s, t) }

  ghost function Fetch(s: State): (Token, int) -> int { (t: Token, n: int) => n * WeightOf(s, t) }

  /** Prices and rates are the same; positions may differ. */
  ghost predicate SameTerms(s: State, w: State)
  {
    |w.rwas| == |s.rwas| && forall i :: 0 <= i < |s.rwas| ==>
      w.rwas[i] == s.rwas[i].(units := w.rwas[i].units, booked := w.rwas[i].booked)
  }

  lemma SameWeights(s: State, w: State, t: Token)
    requires SameTerms(s, w)
    ensures WeightOf(s, t) == WeightOf(w, t)
  {}

  lemma AfterTerms(d: Desk, deal: Deal)
    ensures SameTerms(d.s, After(d, deal).s)
  {}

  ghost predicate NoDebt(h: map<Token, int>) { forall t :: t in h ==> h[t] >= 0 }

  /** One deal, priced with the terms of `s`, never raises what a portfolio could fetch. */
  lemma DealFetch(s: State, d: Desk, deal: Deal)
    requires SameTerms(s, d.s) && NoDebt(d.hold)
    ensures Sum(After(d, deal).hold, Fetch(s)) <= Sum(d.hold, Fetch(s)) && NoDebt(After(d, deal).hold)
  {
    if After(d, deal) != d {
      TradeBound(d.s, deal.tin, deal.tout, deal.q);
      SameWeights(s, d.s, deal.tin);
      SameWeights(s, d.s, deal.tout);
      var out := PriceTrade(d.s, deal.tin, deal.tout, deal.q).value.out;
      SwapSum(s, d.hold, deal.tin, deal.tout, deal.q, out);
    }
  }

  lemma Distribute(a: int, b: int, w: int)
    ensures (a + b) * w == a * w + b * w
  {}

  lemma AddSum(s: State, h: map<Token, int>, t: Token, amount: int)
    ensures Sum(h[t := Get(h, t) + amount], Fetch(s)) == Sum(h, Fetch(s)) + amount * WeightOf(s, t)
  {
    SumPut(h, Fetch(s), t, Get(h, t) + amount);
    Distribute(Get(h, t), amount, WeightOf(s, t));
  }

  lemma SwapSum(s: State, h: map<Token, int>, tin: Token, tout: Token, q: int, out: int)
    ensures var h1 := h[tin := Get(h, tin) - q];
            Sum(h1[tout := Get(h1, tout) + out], Fetch(s)) == Sum(h, Fetch(s)) - q * WeightOf(s, tin) + out * WeightOf(s, tout)
  {
    AddSum(s, h, tin, -q);
    AddSum(s, h[tin := Get(h, tin) - q], tout, out);
    assert -q * WeightOf(s, tin) == -(q * WeightOf(s, tin));
  }

  lemma TermsTrans(s: State, u: State, w: State)
    requires SameTerms(s, u) && SameTerms(u, w)
    ensures SameTerms(s, w)
  {}

  lemma {:induction false} RunFetch(d: Desk, deals: seq<Deal>)
    requires NoDebt(d.hold)
    ensures Sum(Run(d, deals).hold, Fetch(d.s)) <= Sum(d.hold, Fetch(d.s))
    ensures NoDebt(Run(d, deals).hold) && SameTerms(d.s, Run(d, deals).s)
    decreases |deals|
  {
    if deals != [] {
      var e, deal := Run(d, deals[..|deals| - 1]), deals[|deals| - 1];
      RunFetch(d, deals[..|deals| - 1]);
      DealFetch(d.s, e, deal);
      AfterTerms(e, deal);
      TermsTrans(d.s, e.s, After(e, deal).s);
    }
  }

  /** A token whose bid is nothing cannot be traded away. */
  lemma {:induction false} RunStuck(d: Desk, deals: seq<Deal>, t: Token)
    requires WeightOf(d.s, t) == 0 && forall k :: k in d.hold ==> d.hold[k] == 0 || k == t
    ensures Run(d, deals) == d
    decreases |deals|
  {
    if deals != [] {
      RunStuck(d, deals[..|deals| - 1], t);
      var deal := deals[|deals| - 1];
      if After(d, deal) != d {
        TradeBound(d.s, deal.tin, deal.tout, deal.q);
        assert false;
      }
    }
  }

  /** At fixed prices and time, whatever is traded, split or routed through base and
      any RWAs, a trader who starts with one token never ends with more of it. */
  lemma CirclesLose(d: Desk, deals: seq<Deal>, t: Token, amount: nat)
    requires d.hold == map[t := amount]
    ensures Get(Run(d, deals).hold, t) <= amount
  {
    var w, h := WeightOf(d.s, t), Run(d, deals).hold;
    if w == 0 {
      RunStuck(d, deals, t);
    } else {
      RunFetch(d, deals);
      SumRemove(d.hold, Fetch(d.s), t);
      assert d.hold - {t} == map[];
      assert Sum(d.hold, Fetch(d.s)) == amount * w;
      forall k | k in h ensures Fetch(d.s)(k, h[k]) >= 0 { MulPos(h[k], WeightOf(d.s, k)); }
      SumBounds(h, Fetch(d.s));
      if t in h {
        assert Fetch(d.s)(t, h[t]) <= amount * w;
        assert (amount + 1) * w == amount * w + w;
        Bracket(h[t], amount, w);
      }
    }
  }

  // ---- locked gain over time

  datatype Event = Pass(seconds: nat) | Gain(gain: int)

  function Happen(s: State, e: Event): State
    requires s.locked.last <= s.now
  {
    match e
    case Pass(n) => s.(now := s.now + n)
    case Gain(g) => Book(s, g)
  }

  function HappenAll(s: State, es: seq<Event>): (w: State)
    requires s.locked.last <= s.now
    ensures w.locked.last <= w.now
  {
    if es == [] then s else Happen(HappenAll(s, es[..|es| - 1]), es[|es| - 1])
  }

  function Gains(es: seq<Event>): nat
  {
    if es == [] then 0 else Gains(es[..|es| - 1]) + (if es[|es| - 1].Gain? then Max(es[|es| - 1].gain, 0) else 0)
  }

  /** Whatever is booked and whenever, what is locked never exceeds the gains booked
      since plus what was locked, and is never below nothing. */
  lemma {:induction false} LockedNeverExceedsGains(s: State, es: seq<Event>)
    requires s.locked.last <= s.now
    ensures LockedAt(HappenAll(s, es).locked, HappenAll(s, es).now) <= LockedAt(s.locked, s.now) + Gains(es)
    decreases |es|
  {
    if es != [] {
      var u := HappenAll(s, es[..|es| - 1]);
      LockedNeverExceedsGains(s, es[..|es| - 1]);
      match es[|es| - 1]
      case Pass(n) => LockedFalls(u.locked, u.now, u.now + n);
      case Gain(g) => if g < 0 { LossLocks(u.locked, g, u.vest, u.now); }
    }
  }
}
