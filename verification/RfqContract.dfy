/** The RFQ settlement contract as the object it is: fill counters, salts, listings
    and escrow in its storage, each entry point proved to be what `Rfq` and `Dutch` say. */
module RfqContract {

  import opened Math
  import R = Rfq
  import D = Dutch

  class RfqSettlement {
    var filled: map<R.Order, int>
    var requested: map<R.Request, int>
    var cancelled: set<R.Salt>
    var listings: map<nat, D.Listing>
    var next: nat
    var bal: map<D.Token, int>

    function Counters(): R.Counters
      reads this
    {
      R.Counters(filled, requested, cancelled)
    }

    function Escrow(): D.State
      reads this
    {
      D.State(listings, next, bal)
    }

    constructor ()
      ensures Counters() == R.Fresh && Escrow() == D.State(map[], 0, map[])
    {
      filled, requested, cancelled, listings, next, bal := map[], map[], {}, map[], 0, map[];
    }

    method BookRequest(r: R.Request, amountIn: int) returns (ok: bool)
      modifies this`requested
      ensures ok <==> R.Done(old(requested), r) + amountIn <= r.terms.takerAmount
      ensures requested == if ok then old(requested)[r := R.Done(old(requested), r) + amountIn] else old(requested)
    {
      var done := Get(requested, r);
      if done + amountIn > r.terms.takerAmount { return false; }
      requested := requested[r := done + amountIn];
      ok := true;
    }

    method TakeFill(o: R.Order, amountIn: int) returns (ok: bool)
      modifies this`filled
      ensures ok <==> R.Done(old(filled), o) + amountIn <= o.terms.takerAmount
      ensures filled == if ok then old(filled)[o := R.Done(old(filled), o) + amountIn] else old(filled)
    {
      var done := Get(filled, o);
      if done + amountIn > o.terms.takerAmount { return false; }
      filled := filled[o := done + amountIn];
      ok := true;
    }

    /** `validate_common`: every check, and the request booked for a named taker. */
    method Validate(o: R.Order, sender: R.Address, amountIn: int, env: R.Env) returns (ok: bool)
      modifies this`requested
      ensures ok <==> R.Allowed(old(Counters()), o, sender, amountIn, env)
      ensures ok ==> requested == R.Booked(old(Counters()), o, amountIn).requested
      ensures !ok ==> requested == old(requested)
    {
      var t := o.terms;
      if env.paused || t.makerToken == t.takerToken || amountIn <= 0 || t.takerAmount <= 0 || t.minReceived <= 0 { return false; }
      if env.now >= t.expiry || t.feeBps < env.minFee || t.feeBps > env.maxFee { return false; }
      if t.sender.Some? && t.sender.value != sender { return false; }
      if R.Salt(o.maker, t.salt) in cancelled { return false; }
      if t.taker.None? { return true; }
      if R.Salt(t.taker.value, t.salt) in cancelled { return false; }
      if t.taker.value != sender && !env.consent { return false; }
      ok := BookRequest(o.Request(), amountIn);
    }

    method FillOrder(o: R.Order, sender: R.Address, amountIn: int, env: R.Env) returns (quote: Option<R.Quote>)
      modifies this`filled, this`requested
      ensures match R.Fill(old(Counters()), o, sender, amountIn, env)
              case None => quote.None? && Counters() == old(Counters())
              case Some(f) => quote == Some(f.quote) && Counters() == f.state
    {
      var savedFilled, savedRequested := filled, requested;
      var ok := Validate(o, sender, amountIn, env);
      if !ok { return None; }
      ok := TakeFill(o, amountIn);
      if ok && env.signed && env.arrived > 0 {
        quote := R.Owed(o, amountIn, Min(env.arrived, amountIn), env);
        if quote.Some? && env.received >= R.FloorFor(o, amountIn) { return; }
      }
      filled, requested := savedFilled, savedRequested;
      quote := None;
    }

    method CancelSalt(signer: R.Address, salt: nat)
      modifies this`cancelled
      ensures Counters() == R.CancelSalt(old(Counters()), signer, salt)
    {
      cancelled := cancelled + {R.Salt(signer, salt)};
    }

    method CreateListing(seller: D.Address, o: D.Order, env: D.Env) returns (id: Option<nat>)
      modifies this`listings, this`next, this`bal
      ensures id.Some? <==> D.Create(old(Escrow()), seller, o, env).Some?
      ensures id.Some? ==> id.value == old(next)
      ensures Escrow() == D.After(old(Escrow()), D.DoCreate(seller, o, env))
    {
      if !D.ListingOk(o, env) || env.arrived <= 0 { return None; }
      var terms := D.Rescale(o, Min(env.arrived, o.amount));
      if terms.None? { return None; }
      bal := bal[o.takerToken := Get(bal, o.takerToken) + env.arrived];
      listings := listings[next := D.Listing(terms.value, seller, env.now, env.decay, true)];
      id := Some(next);
      next := next + 1;
    }

    method Hand(id: nat)
      requires id in listings
      modifies this`listings, this`bal
      ensures Escrow() == D.Release(old(Escrow()), id)
    {
      var l := listings[id];
      listings := listings[id := l.(active := false)];
      bal := bal[l.order.takerToken := Get(bal, l.order.takerToken) - l.order.amount];
    }

    method FillListing(id: nat, maxMakerAmount: int, env: D.Env) returns (ok: bool)
      modifies this`listings, this`bal
      ensures ok <==> D.Fill(old(Escrow()), id, maxMakerAmount, env).Some?
      ensures Escrow() == D.After(old(Escrow()), D.DoFill(id, maxMakerAmount, env))
    {
      if env.paused || id !in listings || !listings[id].active { return false; }
      var l := listings[id];
      if (l.order.expiry != 0 && env.now > l.order.expiry) || l.order.feeBps < env.minFee || l.order.feeBps > env.maxFee { return false; }
      if l.created > env.now || l.order.start < l.order.floor { return false; }
      var ask := D.Ask(l, env.now);
      if ask <= 0 || ask > maxMakerAmount || Get(bal, l.order.takerToken) < l.order.amount { return false; }
      if env.received < ask - Floor(ask, l.order.feeBps, BPS) { return false; }
      Hand(id);
      ok := true;
    }

    method CancelListing(id: nat) returns (ok: bool)
      modifies this`listings, this`bal
      ensures ok <==> D.Cancel(old(Escrow()), id).Some?
      ensures Escrow() == D.After(old(Escrow()), D.DoCancel(id))
    {
      if id !in listings || !listings[id].active { return false; }
      if Get(bal, listings[id].order.takerToken) < listings[id].order.amount { return false; }
      Hand(id);
      ok := true;
    }
  }
}
