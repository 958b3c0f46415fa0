/** The settlement contract as the object it is: storage written step by step
    and messages as bytes, each entry point proved to do what `Settle` says. */
module SettleContract {

  import opened Math
  import opened Wire
  import opened Settle

  /** A FILL as the maker's chain reads it off the wire. */
  function DecodeFill(m: Bytes): (r: Option<Fill>)
    ensures r.Some? <==> |m| >= SIG_AT
  {
    if |m| < SIG_AT then None
    else Some(Fill(Key(WordAt(m, 32)), AsI128(Tail(WordAt(m, 64))), Read(ParseBid(m).value), m[BID_AT..SIG_AT], m[SIG_AT..]))
  }

  /** `hash_bid`: what a maker on its own chain signs. */
  function HashBid(id: Word, takerChain: Chain, bid: Bid): BidHash { BidHash(Key(id), takerChain, BidWords(bid)) }

  /** What `fill` sends arrives as what it meant. */
  lemma ArrivalFill(id: Word, amount: I128, bid: Bid, signature: Bytes)
    ensures DecodeFill(FillBytes(id, amount, bid, signature)) == Some(Fill(Key(id), amount, Read(bid), BidWords(bid), signature))
  {
    FillRoundTrip(id, amount, bid, signature);
  }

  /** The hash recomputed on arrival is the one the maker signed, and no other
      request, chain or bid has it. */
  lemma ArrivalHash(id: Word, takerChain: Chain, amount: I128, bid: Bid, signature: Bytes, id': Word, chain': Chain,
                    bid': Bid)
    ensures HashOf(takerChain, DecodeFill(FillBytes(id, amount, bid, signature)).value) == HashBid(id, takerChain, bid)
    ensures HashBid(id', chain', bid') == HashBid(id, takerChain, bid) <==> id' == id && chain' == takerChain && bid' == bid
  {
    ArrivalFill(id, amount, bid, signature);
    KeyInjective(id', id);
    if BidWords(bid') == BidWords(bid) { BidWordsInjective(bid', bid); }
  }

  class CrossChainSettle {
    const cfg: Config
    var orders: map<Id, Order>
    var filled: set<Id>
    var used: set<BidHash>
    var pushes: map<Id, Push>
    var owed: map<Account, int>
    var bal: map<Token, int>
    var sent: map<Account, int>

    /** The storage as a value. */
    function Now(): State
      reads this
    {
      State(orders, filled, used, pushes, owed, bal, sent)
    }

    constructor (cfg: Config)
      ensures this.cfg == cfg && Now() == Empty
    {
      this.cfg := cfg;
      orders, filled, used, pushes, owed, bal, sent := map[], {}, {}, map[], map[], map[], map[];
    }

    /** A panic rolls storage back. */
    method Rollback(s: State)
      modifies this
      ensures Now() == s
    {
      orders, filled, used, pushes, owed, bal, sent := s.orders, s.filled, s.used, s.pushes, s.owed, s.bal, s.sent;
    }

    /** A token's balance moves by `amount`. */
    method Adjust(t: Token, amount: int)
      modifies this`bal
      ensures Now() == Credit(old(Now()), t, amount)
    {
      bal := bal[t := Get(bal, t) + amount];
    }

    method TransferOut(t: Token, to: Address, amount: int)
      modifies this`bal, this`sent
      ensures Now() == Transfer(old(Now()), cfg, t, to, amount)
    {
      if to != cfg.me {
        Adjust(t, -amount);
        sent := sent[Account(to, t) := Get(sent, Account(to, t)) + amount];
      }
    }

    method Pay(t: Token, to: Address, amount: int, refused: set<Account>)
      modifies this`bal, this`sent, this`owed
      ensures Now() == SendOrHold(old(Now()), cfg, t, to, amount, refused)
    {
      if amount <= 0 { return; }
      var k := Account(to, t);
      if k !in refused && Get(bal, t) >= amount {
        TransferOut(t, to, amount);
      } else {
        owed := owed[k := Get(owed, k) + amount];
      }
    }

    method Escrow(id: Id, o: Order)
      modifies this`orders, this`filled, this`bal
      ensures Now() == Credit(old(Now()), o.rwa, o.units).(orders := old(orders)[id := o], filled := old(filled) + {id})
    {
      filled := filled + {id};
      orders := orders[id := o];
      Adjust(o.rwa, o.units);
    }

    method FillMessage(id: Word, amount: I128, bid: Bid, signature: Bytes) returns (m: Bytes)
      ensures DecodeFill(m) == Some(Fill(Key(id), amount, Read(bid), BidWords(bid), signature))
    {
      m := EncodeFill(id, amount, bid, signature);
      ArrivalFill(id, amount, bid, signature);
    }

    /** Every check `fill` makes, before anything moves. */
    predicate MayFill(id: Id, r: Request, chain: Chain, terms: Terms, now: nat, q: Quote)
      requires cfg.Valid()
      reads this
    {
      && RequestOk(Now(), cfg, id, r, now) && BidOk(cfg, r, chain, terms, now) && r.makerToken in cfg.units
      && QuoteOk(cfg, r, terms, q) && r.takerAmount >= 0 && r.taker.value != cfg.me
    }

    /** Units of `token` in whole wire units, rounded up; never above the bid's cap. */
    method WireUnits(token: Token, units: nat, cap: I128) returns (amount: I128)
      requires cfg.Valid() && token in cfg.units && units <= cap * cfg.units[token]
      ensures amount == (units + cfg.units[token] - 1) / cfg.units[token] && amount <= cap
      ensures units <= amount * cfg.units[token]
    {
      WireAmount(units, cap, cfg.units[token]);
      amount := (units + cfg.units[token] - 1) / cfg.units[token];
    }

    /** Checks the request and the bid, escrows the RWA and records the order. */
    method Record(id: Id, r: Request, chain: Chain, terms: Terms, words: seq<int>, sig: seq<int>, now: nat, q: Quote,
                  cap: I128)
      returns (amount: Option<I128>)
      requires cfg.Valid() && terms.maxAmount == cap
      modifies this`orders, this`filled, this`bal
      ensures match DoFill(old(Now()), cfg, id, r, chain, terms, words, sig, now, q)
              case None => amount.None? && Now() == old(Now())
              case Some((s', f)) => amount.Some? && Now() == s' && f == Fill(id, amount.value, terms, words, sig)
    {
      if !MayFill(id, r, chain, terms, now, q) { return None; }
      var n := WireUnits(r.makerToken, q.makerAmount, cap);
      Escrow(id, OrderFor(cfg, r, chain, terms, q));
      amount := Some(n);
    }

    /** `fill`: escrow the RWA, record the order, send FILL. */
    method FillRequest(idWord: Word, r: Request, chain: Chain, bid: Bid, signature: Bytes, now: nat, q: Quote)
      returns (message: Option<Bytes>)
      requires cfg.Valid()
      modifies this`orders, this`filled, this`bal
      ensures match DoFill(old(Now()), cfg, Key(idWord), r, chain, Read(bid), BidWords(bid), signature, now, q)
              case None => message.None? && Now() == old(Now())
              case Some((s', f)) => message.Some? && Now() == s' && DecodeFill(message.value) == Some(f)
    {
      var amount := Record(Key(idWord), r, chain, Read(bid), BidWords(bid), signature, now, q, bid.maxAmount);
      if amount.None? { return None; }
      var m := FillMessage(idWord, amount.value, bid, signature);
      message := Some(m);
    }

    /** A FILL off the wire, answered as `OnFill` does; bytes that stop before the
        signature get the answer of a refused bid. */
    method ReceiveFill(chain: Chain, message: Bytes, env: PayEnv) returns (reply: Option<Reply>)
      modifies this`used
      ensures |message| < 64 ==> reply == None && Now() == old(Now())
      ensures |message| >= 64 && DecodeFill(message).None? ==> reply == Some(Failed) && Now() == old(Now())
      ensures DecodeFill(message).Some? ==>
                match OnFill(old(Now()), cfg, chain, DecodeFill(message).value, env)
                case None => reply.None? && Now() == old(Now())
                case Some((s', r)) => reply == Some(r) && Now() == s'
    {
      if |message| < 64 { return None; }
      var parsed := ParseBid(message);
      if parsed.None? { return Some(Failed); }
      var id := Key(WordAt(message, 32));
      var amount := AsI128(Tail(WordAt(message, 64)));
      var bid := Read(parsed.value);
      var hash := BidHash(id, chain, message[BID_AT..SIG_AT]);
      var stable := bid.Token();
      if amount > bid.maxAmount || bid.deadline < env.now || hash in used || Lane(chain, stable) !in cfg.routes || env.cancelled {
        return Some(Failed);
      }
      if !env.signed || !env.pulled || bid.maker == cfg.me { return Some(Failed); }
      if stable !in cfg.units { return None; }
      used := used + {hash};
      reply := Some(Paid(stable, amount * cfg.units[stable]));
    }

    method Deliver(id: Id, o: Order, refused: set<Account>, route: Route) returns (ok: bool)
      modifies this`bal, this`sent, this`owed, this`pushes
      ensures match RouteRwa(old(Now()), cfg, id, o, refused, route)
              case None => !ok && Now() == old(Now())
              case Some(s') => ok && Now() == s'
    {
      if o.delivery == DELIVER {
        Pay(o.rwa, o.recipient, o.units, refused);
        return true;
      }
      if !route.accepted || Get(bal, o.rwa) < o.units { return false; }
      if o.delivery == CROSS_DELIVER {
        Adjust(o.rwa, -o.units);
        return true;
      }
      if o.rwa !in cfg.vaults || o.units <= 0 || route.ct == o.rwa || route.ct == o.stable { return false; }
      Adjust(o.rwa, -o.units);
      Adjust(route.ct, o.units);
      if o.delivery == REDEEM_CT {
        Pay(route.ct, o.recipient, o.units, refused);
      } else {
        pushes := pushes[id := Push(cfg.vaults[o.rwa].addr, o.rwa, o.recipient, route.batch, route.ct, o.units, o.chain,
                                    o.stable, o.maker)];
      }
      ok := true;
    }

    method PaySplit(o: Order, amount: int, relayer: Option<Address>, refused: set<Account>)
      modifies this`bal, this`sent, this`owed
      ensures Now() == PayShares(old(Now()), cfg, o, amount, relayer, refused)
    {
      Pay(o.stable, o.taker, amount - o.fee - o.tip, refused);
      Pay(o.stable, o.feeRecipient, o.fee, refused);
      Pay(o.stable, if relayer.Some? then relayer.value else o.taker, o.tip, refused);
    }

    /** A payment with PAID: three shares, then the RWA; all or nothing. */
    method ReceivePaid(chain: Chain, id: Id, token: Token, amount: int, relayer: Option<Address>,
                       refused: set<Account>, route: Route)
      returns (ok: bool)
      modifies this
      ensures match OnPaid(old(Now()), cfg, chain, id, token, amount, relayer, refused, route)
              case None => !ok && Now() == old(Now())
              case Some(s') => ok && Now() == s'
    {
      if id !in orders || orders[id].chain != chain || orders[id].stable != token || amount < orders[id].amount { return false; }
      var before := Now();
      var o := orders[id];
      Adjust(token, amount);
      orders := orders - {id};
      PaySplit(o, amount, relayer, refused);
      ok := Deliver(id, o, refused, route);
      if !ok { Rollback(before); }
    }

    /** Funds with a payload: PAYOUT is forwarded, PAID settles, anything else
        panics (`on_funds`). */
    method ReceiveFunds(chain: Chain, token: Token, amount: nat, payload: Bytes, relayer: Option<Address>,
                        refused: set<Account>, route: Route)
      returns (ok: bool)
      modifies this
      ensures match (if |payload| < 64 || (Kind(payload) == PAYOUT && |payload| < 96) then None
                     else var id := Key(WordAt(payload, 32));
                     if Kind(payload) == PAYOUT
                     then OnPayout(old(Now()), cfg, token, amount, AddressOf(id, Tail(WordAt(payload, 64)) != 0), relayer, refused)
                     else if Kind(payload) == PAID then OnPaid(old(Now()), cfg, chain, id, token, amount, relayer, refused, route)
                     else None)
              case None => !ok && Now() == old(Now())
              case Some(s') => ok && Now() == s'
    {
      if |payload| < 64 || (Kind(payload) == PAYOUT && |payload| < 96) { return false; }
      var id := Key(WordAt(payload, 32));
      if Kind(payload) == PAYOUT {
        if token !in cfg.units { return false; }
        var to := AddressOf(id, Tail(WordAt(payload, 64)) != 0);
        Adjust(token, amount);
        var tip := if relayer.Some? then Min(cfg.tip * cfg.units[token], amount) else 0;
        Pay(token, if relayer.Some? then relayer.value else to, tip, refused);
        Pay(token, to, amount - tip, refused);
        return true;
      }
      if Kind(payload) != PAID { return false; }
      ok := ReceivePaid(chain, id, token, amount, relayer, refused, route);
    }

    /** FAIL: the order is dropped, its request freed, the escrow returned. */
    method ReceiveFail(chain: Chain, id: Id, refused: set<Account>) returns (ok: bool)
      modifies this
      ensures match OnFail(old(Now()), cfg, chain, id, refused)
              case None => !ok && Now() == old(Now())
              case Some(s') => ok && Now() == s'
    {
      if id !in orders || orders[id].chain != chain { return false; }
      var o := orders[id];
      orders := orders - {id};
      filled := filled - {id};
      Pay(o.rwa, o.taker, o.units, refused);
      ok := true;
    }

    /** The vault burns the claim token and pays. */
    method CollectClaim(id: Id, paid: nat, returned: nat)
      requires id in pushes
      modifies this`pushes, this`bal
      ensures Now() == Claimed(old(Now()), id, paid, returned)
    {
      var p := pushes[id];
      pushes := pushes - {id};
      Adjust(p.ct, -p.units);
      Adjust(p.stable, paid);
      Adjust(p.rwa, returned);
    }

    /** Claims a batch and sends on what came back in kind; what is left is measured
        by the balance before and after. */
    method Collect(id: Id, paid: nat, returned: nat, refused: set<Account>) returns (got: int)
      requires id in pushes
      modifies this
      ensures Now() == Forwarded(old(Now()), cfg, id, paid, returned, refused)
      ensures got == Get(bal, old(pushes)[id].stable) - Get(old(bal), old(pushes)[id].stable)
    {
      var p := pushes[id];
      var before, rwaBefore := Get(bal, p.stable), Get(bal, p.rwa);
      CollectClaim(id, paid, returned);
      Pay(p.rwa, p.recipient, Get(bal, p.rwa) - rwaBefore, refused);
      got := Get(bal, p.stable) - before;
    }

    /** `push`: only whole wire units of the proceeds are bridged. */
    method PushProceeds(id: Id, paid: nat, returned: nat, refused: set<Account>) returns (amount: Option<int>)
      requires cfg.Valid()
      modifies this
      ensures match DoPush(old(Now()), cfg, id, paid, returned, refused)
              case None => amount.None? && Now() == old(Now())
              case Some((s', a)) => amount == Some(a) && Now() == s'
    {
      if id !in pushes { return None; }
      var p := pushes[id];
      if Get(bal, p.ct) < p.units || p.stable !in cfg.units { return None; }
      var saved := Now();
      var got := Collect(id, paid, returned, refused);
      if got < 0 {
        Rollback(saved);
        return None;
      }
      var whole := got - got % cfg.units[p.stable];
      Adjust(p.stable, -whole);
      amount := Some(whole);
    }

    method Withdraw(to: Address, t: Token, refused: set<Account>) returns (ok: bool)
      modifies this`owed, this`bal, this`sent
      ensures match DoWithdraw(old(Now()), cfg, to, t, refused)
              case None => !ok && Now() == old(Now())
              case Some(s') => ok && Now() == s'
    {
      var k := Account(to, t);
      var amount := Get(owed, k);
      if k in refused || Get(bal, t) < amount { return false; }
      owed := owed - {k};
      TransferOut(t, to, amount);
      ok := true;
    }
  }
}
