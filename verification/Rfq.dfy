/** Partial fills of signed RFQ and fixed orders (`contracts/rfq/src/lib.rs`), as
    functions from the fill counters to the same; `None` is a call that panics.
    Counters are keyed by the order or request itself, as by an injective hash. */
module Rfq {

  import opened Math

  type Address = nat
  type Token = Address

  datatype Terms = Terms(
    makerToken: Token, takerToken: Token, takerAmount: int, minReceived: int, feeBps: nat,
    taker: Option<Address>, sender: Option<Address>, feeRecipient: Address, expiry: nat, salt: nat)

  datatype Kind = ForRfq | ForFixed

  /** What a taker signs. */
  datatype Request = Want(terms: Terms, maxBpsPerDay: nat, kind: Kind)

  /** What a maker signs. */
  datatype Order =
    | RfqOrder(terms: Terms, maxBpsPerDay: nat, makerBpsPerDay: nat, maxMakerAmount: int, maker: Address)
    | FixedOrder(terms: Terms, makerAmount: int, maker: Address)
  {
    function Request(): Request
    {
      if RfqOrder? then Want(terms, maxBpsPerDay, ForRfq) else Want(terms, 0, ForFixed)
    }

    /** The most the maker pays for the whole order. */
    function Limit(): int { if RfqOrder? then maxMakerAmount else makerAmount }
  }

  datatype Salt = Salt(signer: Address, salt: nat)

  datatype Counters = Counters(filled: map<Order, int>, requested: map<Request, int>, cancelled: set<Salt>)

  /** What the rest of the world supplies to one fill: the clock, the protocol's fee
      bounds, the schedule and price, signatures, what the maker was credited and
      what the taker's balance grew by. */
  datatype Env = Env(
    now: nat, paused: bool, minFee: nat, maxFee: nat, rate: nat, horizon: nat, cap: nat,
    signed: bool, consent: bool, arrived: int, received: int)

  datatype Quote = Quote(makerAmount: nat, fee: nat)

  datatype Filled = Filled(state: Counters, quote: Quote)

  // ---- prices

  /** What `delivered` buys at `rate`, less the maker's discount. */
  function Payout(delivered: nat, rate: nat, discount: nat): nat
    requires discount <= DENOM
  {
    Floor(Floor(delivered, rate, ONE), DENOM - discount, DENOM)
  }

  function FeeOn(makerAmount: nat, bps: nat): nat { Floor(makerAmount, bps, BPS) }

  function QuoteRfq(o: Order, delivered: nat, env: Env): Option<Quote>
    requires o.RfqOrder?
  {
    if o.makerBpsPerDay > env.cap || o.makerBpsPerDay > o.maxBpsPerDay || o.makerBpsPerDay * env.horizon >= DENOM then None
    else
      var m := Payout(delivered, env.rate, o.makerBpsPerDay * env.horizon);
      Some(Quote(m, FeeOn(m, o.terms.feeBps)))
  }

  /** The limit and the floor for a part of an order, pro rata. */
  function CapFor(o: Order, amountIn: nat): nat
    requires o.Limit() >= 0 && o.terms.takerAmount > 0
  {
    Floor(o.Limit(), amountIn, o.terms.takerAmount)
  }

  function FloorFor(o: Order, amountIn: nat): nat
    requires o.terms.minReceived >= 0 && o.terms.takerAmount > 0
  {
    Ceil(o.terms.minReceived, amountIn, o.terms.takerAmount)
  }

  /** What the maker owes for `delivered`, if the quote is allowed and within the cap. */
  function Owed(o: Order, amountIn: nat, delivered: nat, env: Env): Option<Quote>
    requires o.terms.takerAmount > 0
  {
    if o.Limit() < 0 then None
    else if o.FixedOrder? then
      var m := Floor(o.makerAmount, delivered, o.terms.takerAmount);
      Some(Quote(m, FeeOn(m, o.terms.feeBps)))
    else
      match QuoteRfq(o, delivered, env)
      case None => None
      case Some(q) => if q.makerAmount > CapFor(o, amountIn) then None else Some(q)
  }

  // ---- fills

  function Done<K>(m: map<K, int>, k: K): int { Get(m, k) }

  predicate TermsOk(t: Terms, amountIn: int, env: Env)
  {
    && !env.paused && t.makerToken != t.takerToken && amountIn > 0 && t.takerAmount > 0 && t.minReceived > 0
    && env.now < t.expiry && env.minFee <= t.feeBps <= env.maxFee
  }

  /** `validate_common`: who may fill, whose salt is alive, what the request has left. */
  predicate Allowed(s: Counters, o: Order, sender: Address, amountIn: int, env: Env)
  {
    var t := o.terms;
    && TermsOk(t, amountIn, env) && (t.sender.Some? ==> t.sender.value == sender)
    && Salt(o.maker, t.salt) !in s.cancelled
    && (t.taker.Some? ==>
          && Salt(t.taker.value, t.salt) !in s.cancelled
          && (t.taker.value == sender || env.consent)
          && Done(s.requested, o.Request()) + amountIn <= t.takerAmount)
  }

  function Booked(s: Counters, o: Order, amountIn: int): Counters
  {
    Counters(s.filled[o := Done(s.filled, o) + amountIn],
             if o.terms.taker.Some? then s.requested[o.Request() := Done(s.requested, o.Request()) + amountIn] else s.requested,
             s.cancelled)
  }

  /** `fill_rfq_order` and `fill_fixed_order`. */
  function Fill(s: Counters, o: Order, sender: Address, amountIn: int, env: Env): Option<Filled>
  {
    if !Allowed(s, o, sender, amountIn, env) || Done(s.filled, o) + amountIn > o.terms.takerAmount then None
    else if !env.signed || env.arrived <= 0 then None
    else
      match Owed(o, amountIn, Min(env.arrived, amountIn), env)
      case None => None
      case Some(q) =>
        if env.received < FloorFor(o, amountIn) then None else Some(Filled(Booked(s, o, amountIn), q))
  }

  function CancelSalt(s: Counters, signer: Address, salt: nat): Counters
  {
    s.(cancelled := s.cancelled + {Salt(signer, salt)})
  }

  // ---- histories

  /** One attempt to fill, or a salt withdrawn. */
  datatype Event =
    | Try(order: Order, sender: Address, amountIn: int, env: Env)
    | Withdraw(signer: Address, salt: nat)

  /** What one order, or one request, has come to: input, maker's outlay, and what
      the taker was credited. */
  datatype Sums = Sums(input: int, outlay: int, received: int)

  function After(s: Counters, e: Event): Counters
  {
    match e
    case Try(o, sender, amountIn, env) =>
      (match Fill(s, o, sender, amountIn, env) case Some(f) => f.state case None => s)
    case Withdraw(signer, salt) => CancelSalt(s, signer, salt)
  }

  function Run(s: Counters, es: seq<Event>): Counters
  {
    if es == [] then s else After(Run(s, es[..|es| - 1]), es[|es| - 1])
  }

  const Fresh := Counters(map[], map[], {})

  /** What the fills of order `o` in a history add up to. */
  function OrderSums(es: seq<Event>, o: Order): Sums
  {
    if es == [] then Sums(0, 0, 0)
    else
      var t, e, s := OrderSums(es[..|es| - 1], o), es[|es| - 1], Run(Fresh, es[..|es| - 1]);
      if e.Try? && e.order == o && Fill(s, o, e.sender, e.amountIn, e.env).Some? then
        Sums(t.input + e.amountIn, t.outlay + Fill(s, o, e.sender, e.amountIn, e.env).value.quote.makerAmount,
             t.received + e.env.received)
      else t
  }

  /** The input of every fill, by any maker, that answers request `r`. */
  function RequestInput(es: seq<Event>, r: Request): int
  {
    if es == [] then 0
    else
      var t, e, s := RequestInput(es[..|es| - 1], r), es[|es| - 1], Run(Fresh, es[..|es| - 1]);
      if e.Try? && e.order.Request() == r && Fill(s, e.order, e.sender, e.amountIn, e.env).Some? then t + e.amountIn else t
  }

  lemma FloorComm(a: nat, b: nat, d: nat)
    requires d > 0
    ensures Floor(a, b, d) == Floor(b, a, d) && Ceil(a, b, d) == Ceil(b, a, d)
  {
    assert a * b == b * a;
  }

  lemma CapSplit(o: Order, x: nat, y: nat)
    requires o.Limit() >= 0 && o.terms.takerAmount > 0
    ensures CapFor(o, x) + CapFor(o, y) <= CapFor(o, x + y)
    ensures x <= o.terms.takerAmount ==> CapFor(o, x) <= o.Limit()
  {
    var l, d := o.Limit(), o.terms.takerAmount;
    FloorComm(l, x, d);
    FloorComm(l, y, d);
    FloorComm(l, x + y, d);
    FloorSplit(x, y, l, d);
    if x <= d { FloorAtMost(l, x, d); }
  }

  lemma FloorForSplit(o: Order, x: nat, y: nat)
    requires o.terms.minReceived >= 0 && o.terms.takerAmount > 0
    ensures FloorFor(o, x) + FloorFor(o, y) >= FloorFor(o, x + y)
    ensures FloorFor(o, o.terms.takerAmount) == o.terms.minReceived && FloorFor(o, 0) == 0
  {
    var m, d := o.terms.minReceived, o.terms.takerAmount;
    FloorComm(m, x, d);
    FloorComm(m, y, d);
    FloorComm(m, x + y, d);
    FloorComm(m, d, d);
    CeilSplit(x, y, m, d);
    FloorWhole(m, d);
    CeilUnique(0, m, 0, d);
  }

  /** One fill stays within its own share of the order, in outlay and receipts. */
  lemma FillBounds(s: Counters, o: Order, sender: Address, amountIn: int, env: Env)
    requires Fill(s, o, sender, amountIn, env).Some?
    ensures amountIn > 0 && o.terms.takerAmount > 0 && o.Limit() >= 0 && o.terms.minReceived > 0
    ensures Fill(s, o, sender, amountIn, env).value.quote.makerAmount <= CapFor(o, amountIn)
    ensures env.received >= FloorFor(o, amountIn)
    ensures Done(s.filled, o) + amountIn <= o.terms.takerAmount
  {
    if o.FixedOrder? {
      var d := Min(env.arrived, amountIn);
      FloorComm(o.makerAmount, d, o.terms.takerAmount);
      FloorComm(o.makerAmount, amountIn, o.terms.takerAmount);
      FloorMono(d, amountIn, o.makerAmount, o.terms.takerAmount);
    }
  }

  /** A history keeps an order within its bounds. */
  ghost predicate Within(o: Order, t: Sums)
  {
    if t.input == 0 then t == Sums(0, 0, 0)
    else
      && o.terms.takerAmount > 0 && o.Limit() >= 0 && o.terms.minReceived > 0 && 0 < t.input <= o.terms.takerAmount
      && t.outlay <= CapFor(o, t.input) && t.received >= FloorFor(o, t.input)
  }

  lemma WithinAdd(o: Order, t: Sums, input: nat, outlay: nat, received: int)
    requires Within(o, t) && input > 0 && t.input + input <= o.terms.takerAmount && o.Limit() >= 0 && o.terms.minReceived > 0
    requires outlay <= CapFor(o, input) && received >= FloorFor(o, input)
    ensures Within(o, Sums(t.input + input, t.outlay + outlay, t.received + received))
  {
    if t.input > 0 {
      CapSplit(o, t.input, input);
      FloorForSplit(o, t.input, input);
    }
  }

  lemma {:induction false} HistoryWithin(es: seq<Event>, o: Order)
    ensures Within(o, OrderSums(es, o)) && OrderSums(es, o).input == Done(Run(Fresh, es).filled, o)
    decreases |es|
  {
    if es != [] {
      var front, e := es[..|es| - 1], es[|es| - 1];
      var s := Run(Fresh, front);
      HistoryWithin(front, o);
      if e.Try? && Fill(s, e.order, e.sender, e.amountIn, e.env).Some? {
        FillBounds(s, e.order, e.sender, e.amountIn, e.env);
        if e.order == o {
          var t := OrderSums(front, o);
          WithinAdd(o, t, e.amountIn, Fill(s, o, e.sender, e.amountIn, e.env).value.quote.makerAmount, e.env.received);
        }
      }
    }
  }

  /** However an order is filled, in whatever parts, at whatever times and prices:
      its input stays within `takerAmount`, the maker pays no more than its limit,
      pro rata and in all, and the taker gets no less than the floor pro rata, and
      all of it once the order is full. */
  lemma OrderHistory(es: seq<Event>, o: Order)
    ensures var t := OrderSums(es, o);
            && t.input == Done(Run(Fresh, es).filled, o)
            && (t.input > 0 ==>
                  && t.input <= o.terms.takerAmount
                  && t.outlay * o.terms.takerAmount <= o.Limit() * t.input && t.outlay <= o.Limit()
                  && t.received * o.terms.takerAmount >= o.terms.minReceived * t.input)
            && (t.input == o.terms.takerAmount && t.input > 0 ==> t.received >= o.terms.minReceived)
  {
    HistoryWithin(es, o);
    var t := OrderSums(es, o);
    if t.input > 0 {
      CapSplit(o, t.input, 0);
      FloorForSplit(o, t.input, 0);
      MulMono(t.outlay, CapFor(o, t.input), o.terms.takerAmount);
      MulMono(FloorFor(o, t.input), t.received, o.terms.takerAmount);
    }
  }

  /** A named taker's request, filled by any number of makers, is never overfilled. */
  lemma {:induction false} RequestHistory(es: seq<Event>, r: Request)
    requires r.terms.taker.Some?
    ensures RequestInput(es, r) == Done(Run(Fresh, es).requested, r)
    ensures RequestInput(es, r) > 0 ==> RequestInput(es, r) <= r.terms.takerAmount
    ensures RequestInput(es, r) >= 0
    decreases |es|
  {
    if es != [] {
      RequestHistory(es[..|es| - 1], r);
    }
  }

  /** A cancelled salt stays cancelled, and nothing of its signer's is filled again. */
  lemma {:induction false} CancelledStays(s: Counters, es: seq<Event>, o: Order, sender: Address, amountIn: int,
                                          env: Env)
    requires Salt(o.maker, o.terms.salt) in s.cancelled || (o.terms.taker.Some? && Salt(o.terms.taker.value, o.terms.salt) in s.cancelled)
    ensures s.cancelled <= Run(s, es).cancelled && Fill(Run(s, es), o, sender, amountIn, env).None?
    decreases |es|
  {
    if es != [] { CancelledStays(s, es[..|es| - 1], o, sender, amountIn, env); }
  }

  /** A payout is the price less the discount, short by two units of rounding at most. */
  lemma PayoutFair(delivered: nat, rate: nat, discount: nat)
    requires discount <= DENOM
    ensures Payout(delivered, rate, discount) * (ONE * DENOM) <= delivered * rate * (DENOM - discount)
    ensures (Payout(delivered, rate, discount) + 2) * (ONE * DENOM) > delivered * rate * (DENOM - discount)
  {
    var gross, keep, paid := Floor(delivered, rate, ONE), DENOM - discount, Payout(delivered, rate, discount);
    MulMono(paid * DENOM, gross * keep, ONE);
    MulMono(gross * ONE, delivered * rate, keep);
    MulMono(delivered * rate, (gross + 1) * ONE, keep);
    assert gross * keep * ONE == gross * ONE * keep;
    assert (gross + 1) * ONE * keep == (gross * keep + keep) * ONE;
    assert gross * keep + keep < (paid + 2) * DENOM;
    MulMono(gross * keep + keep + 1, (paid + 2) * DENOM, ONE);
  }

  // ---- splitting one fill

  /** What the maker owes for `delivered` at one price: for an RFQ order the rate less
      the discount, for a fixed order its share of the stated amount. */
  function PriceOf(o: Order, delivered: nat, rate: nat, discount: nat): nat
    requires discount <= DENOM && o.Limit() >= 0 && o.terms.takerAmount > 0
  {
    if o.RfqOrder? then Payout(delivered, rate, discount) else Floor(o.makerAmount, delivered, o.terms.takerAmount)
  }

  /** It is what a fill quotes. */
  lemma PriceIsOwed(o: Order, amountIn: nat, delivered: nat, env: Env)
    requires o.terms.takerAmount > 0 && Owed(o, amountIn, delivered, env).Some?
    ensures o.Limit() >= 0 && (o.RfqOrder? ==> o.makerBpsPerDay * env.horizon < DENOM)
    ensures Owed(o, amountIn, delivered, env).value.makerAmount
         == PriceOf(o, delivered, env.rate, if o.RfqOrder? then o.makerBpsPerDay * env.horizon else 0)
  {}

  function Total(parts: seq<nat>): nat
  {
    if parts == [] then 0 else Total(parts[..|parts| - 1]) + parts[|parts| - 1]
  }

  /** What the parts pay out one by one. */
  function Prices(o: Order, parts: seq<nat>, rate: nat, discount: nat): nat
    requires discount <= DENOM && o.Limit() >= 0 && o.terms.takerAmount > 0
  {
    if parts == [] then 0
    else Prices(o, parts[..|parts| - 1], rate, discount) + PriceOf(o, parts[|parts| - 1], rate, discount)
  }

  /** The same, each net of its fee. */
  function Nets(o: Order, parts: seq<nat>, rate: nat, discount: nat): int
    requires discount <= DENOM && o.Limit() >= 0 && o.terms.takerAmount > 0
  {
    if parts == [] then 0
    else Nets(o, parts[..|parts| - 1], rate, discount) + Net(PriceOf(o, parts[|parts| - 1], rate, discount), o.terms.feeBps)
  }

  /** What the fee of each part rounds away, in `1/BPS` of a unit. */
  function Rounded(o: Order, parts: seq<nat>, rate: nat, discount: nat): nat
    requires discount <= DENOM && o.Limit() >= 0 && o.terms.takerAmount > 0
  {
    if parts == [] then 0
    else
      Rounded(o, parts[..|parts| - 1], rate, discount)
      + PriceOf(o, parts[|parts| - 1], rate, discount) * o.terms.feeBps % BPS
  }

  function Net(makerAmount: nat, bps: nat): int { makerAmount - FeeOn(makerAmount, bps) }

  lemma PriceSplit(o: Order, x: nat, y: nat, rate: nat, discount: nat)
    requires discount <= DENOM && o.Limit() >= 0 && o.terms.takerAmount > 0
    ensures PriceOf(o, x, rate, discount) + PriceOf(o, y, rate, discount) <= PriceOf(o, x + y, rate, discount)
  {
    if o.RfqOrder? {
      var gx, gy := Floor(x, rate, ONE), Floor(y, rate, ONE);
      FloorSplit(x, y, rate, ONE);
      FloorSplit(gx, gy, DENOM - discount, DENOM);
      FloorMono(gx + gy, Floor(x + y, rate, ONE), DENOM - discount, DENOM);
    } else {
      FloorComm(o.makerAmount, x, o.terms.takerAmount);
      FloorComm(o.makerAmount, y, o.terms.takerAmount);
      FloorComm(o.makerAmount, x + y, o.terms.takerAmount);
      FloorSplit(x, y, o.makerAmount, o.terms.takerAmount);
    }
  }

  /** At one price, filling in any number of parts, of an RFQ or a fixed order, never
      pays out more than filling once. */
  lemma {:induction false} SplittingNeverPaysMore(o: Order, parts: seq<nat>, rate: nat, discount: nat)
    requires discount <= DENOM && o.Limit() >= 0 && o.terms.takerAmount > 0
    ensures Prices(o, parts, rate, discount) <= PriceOf(o, Total(parts), rate, discount)
    decreases |parts|
  {
    if parts != [] {
      var front := parts[..|parts| - 1];
      SplittingNeverPaysMore(o, front, rate, discount);
      PriceSplit(o, Total(front), parts[|parts| - 1], rate, discount);
    }
  }

  /** A fee and what it rounds away are the whole of its share. */
  lemma FeeRest(makerAmount: nat, bps: nat)
    ensures FeeOn(makerAmount, bps) * BPS + makerAmount * bps % BPS == makerAmount * bps
  {}

  /** The nets of the parts, scaled by `BPS`. */
  lemma {:induction false} NetsScaled(o: Order, parts: seq<nat>, rate: nat, discount: nat)
    requires discount <= DENOM && o.Limit() >= 0 && o.terms.takerAmount > 0
    ensures Nets(o, parts, rate, discount) * BPS
         == Prices(o, parts, rate, discount) * BPS - Prices(o, parts, rate, discount) * o.terms.feeBps + Rounded(o, parts, rate, discount)
    ensures Rounded(o, parts, rate, discount) <= |parts| * (BPS - 1)
    decreases |parts|
  {
    if parts != [] {
      var last := PriceOf(o, parts[|parts| - 1], rate, discount);
      var rest := Prices(o, parts[..|parts| - 1], rate, discount);
      NetsScaled(o, parts[..|parts| - 1], rate, discount);
      NetStep(Nets(o, parts[..|parts| - 1], rate, discount), rest, Rounded(o, parts[..|parts| - 1], rate, discount), last,
              o.terms.feeBps);
    }
  }

  lemma NetStep(nets: int, rest: nat, rounded: nat, last: nat, bps: nat)
    requires nets * BPS == rest * BPS - rest * bps + rounded
    ensures (nets + Net(last, bps)) * BPS
         == (rest + last) * BPS - (rest + last) * bps + (rounded + last * bps % BPS)
    ensures last * bps % BPS <= BPS - 1
  {
    FeeRest(last, bps);
    assert (rest + last) * bps == rest * bps + last * bps;
  }

  /** Net of fees, filling in parts gives the taker more than filling once exactly
      when what the parts' fees round away, and the fee on the `gap` the parts' prices
      leave, make up the gap and a unit more: all known before the fills. */
  lemma SplittingNetExact(o: Order, parts: seq<nat>, rate: nat, discount: nat)
    requires discount <= DENOM && o.Limit() >= 0 && o.terms.takerAmount > 0
    ensures var whole := PriceOf(o, Total(parts), rate, discount);
            var gap := whole - Prices(o, parts, rate, discount);
            && gap >= 0
            && (Nets(o, parts, rate, discount) > Net(whole, o.terms.feeBps) <==>
                Rounded(o, parts, rate, discount) + gap * o.terms.feeBps >= (gap + 1) * BPS)
  {
    SplittingNeverPaysMore(o, parts, rate, discount);
    NetsScaled(o, parts, rate, discount);
    NetGain(PriceOf(o, Total(parts), rate, discount), Prices(o, parts, rate, discount), Nets(o, parts, rate, discount),
            Rounded(o, parts, rate, discount), o.terms.feeBps);
  }

  lemma NetGain(whole: nat, sum: nat, nets: int, rounded: nat, bps: nat)
    requires sum <= whole && nets * BPS == sum * BPS - sum * bps + rounded
    ensures nets > Net(whole, bps) <==> rounded + (whole - sum) * bps >= (whole - sum + 1) * BPS
  {
    var fee, gap := FeeOn(whole, bps), whole - sum;
    assert whole * bps == sum * bps + gap * bps;
    assert fee * BPS <= whole * bps < fee * BPS + BPS;
    // nets > whole - fee  <==>  (sum - nets) + gap + 1 <= fee
    var need := sum - nets + gap + 1;
    assert need * BPS == sum * bps - rounded + (gap + 1) * BPS;
    if need <= fee { MulMono(need, fee, BPS); }
    if need >= fee + 1 { MulMono(fee + 1, need, BPS); }
  }

  /** Splitting into `n` parts nets the taker at most `n - 1` units more. */
  lemma SplittingNet(o: Order, parts: seq<nat>, rate: nat, discount: nat)
    requires discount <= DENOM && o.Limit() >= 0 && o.terms.takerAmount > 0 && o.terms.feeBps <= BPS && parts != []
    ensures Nets(o, parts, rate, discount) <= Net(PriceOf(o, Total(parts), rate, discount), o.terms.feeBps) + |parts| - 1
  {
    var whole, sum, nets := PriceOf(o, Total(parts), rate, discount), Prices(o, parts, rate, discount), Nets(o, parts, rate, discount);
    SplittingNeverPaysMore(o, parts, rate, discount);
    NetsScaled(o, parts, rate, discount);
    NetBound(whole, sum, nets, Rounded(o, parts, rate, discount), o.terms.feeBps, |parts|);
  }

  lemma NetBound(whole: nat, sum: nat, nets: int, rounded: nat, bps: nat, n: nat)
    requires sum <= whole && bps <= BPS && nets * BPS == sum * BPS - sum * bps + rounded && rounded <= n * (BPS - 1) && n > 0
    ensures nets <= Net(whole, bps) + n - 1
  {
    var gap := whole - sum;
    assert whole * bps == sum * bps + gap * bps;
    MulMono(bps, BPS, gap);
    assert (nets - Net(whole, bps) - n) * BPS < 0 by {
      assert FeeOn(whole, bps) * BPS <= whole * bps;
      assert bps * gap == gap * bps && BPS * gap == gap * BPS;
    }
  }

  /** One unit a share, fee one in ten thousand. */
  function Plain(): Order
  {
    RfqOrder(Terms(1, 2, 20_000, 1, 1, None, None, 3, 100, 0), 0, 0, 20_000, 4)
  }

  lemma AtPar(x: nat)
    ensures PriceOf(Plain(), x, ONE, 0) == x
  {
    FloorWhole(x, ONE);
    FloorWhole(x, DENOM);
  }

  lemma OnePart(o: Order, x: nat, rate: nat, discount: nat)
    requires discount <= DENOM && o.Limit() >= 0 && o.terms.takerAmount > 0
    ensures Total([x]) == x && Nets(o, [x], rate, discount) == Net(PriceOf(o, x, rate, discount), o.terms.feeBps)
  {
    var parts: seq<nat> := [x];
    assert parts[..|parts| - 1] == [];
  }

  lemma TwoParts(o: Order, x: nat, y: nat, rate: nat, discount: nat)
    requires discount <= DENOM && o.Limit() >= 0 && o.terms.takerAmount > 0
    ensures Total([x, y]) == x + y
    ensures Nets(o, [x, y], rate, discount)
         == Net(PriceOf(o, x, rate, discount), o.terms.feeBps) + Net(PriceOf(o, y, rate, discount), o.terms.feeBps)
  {
    var parts: seq<nat> := [x, y];
    assert parts[..|parts| - 1] == [x];
    OnePart(o, x, rate, discount);
  }

  /** Two halves whose fees each round to nothing leave the taker one unit more. */
  lemma SplittingGainsOne()
    ensures Nets(Plain(), [9_999, 9_999], ONE, 0)
         == Net(PriceOf(Plain(), Total([9_999, 9_999]), ONE, 0), Plain().terms.feeBps) + 1
  {
    TwoParts(Plain(), 9_999, 9_999, ONE, 0);
    AtPar(9_999);
    AtPar(19_998);
    FloorUnique(0, 9_999, 1, BPS);
    FloorUnique(1, 19_998, 1, BPS);
  }
}
