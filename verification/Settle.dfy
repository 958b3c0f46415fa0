/** One cross-chain settlement contract, `contracts/crosschain_settle/src/lib.rs`,
    as functions from storage to storage. `None` is a call that panics, which
    leaves everything as it was. XLM fees are not tracked; every claim is about
    tokens other than XLM. */
module Settle {

  import opened Math
  import opened Sums
  import opened Wire

  type Address = nat
  type Token = Address
  type Chain = nat
  /** Request hashes and token keys of other chains: 32-byte words read as
      numbers, which loses nothing (`KeyInjective`). */
  type Id = nat

  const DELIVER := 0
  const REDEEM_CT := 1
  const REDEEM_PUSH := 2
  const CROSS_DELIVER := 3

  function Key(w: Word): nat { FromBE(w) }

  lemma KeyInjective(a: Word, b: Word)
    ensures Key(a) == Key(b) ==> a == b
  {
    ToFromBE(a);
    ToFromBE(b);
  }

  /** The account behind a 32-byte key: one per key and kind. */
  function AddressOf(key: nat, contract: bool): Address { 2 * key + (if contract then 1 else 0) }

  /** A bid as the contract reads it, its words as numbers and accounts. */
  datatype Terms = Terms(
    maker: Address, stable: nat, maxAmount: int, makerBpsPerDay: nat, delivery: nat, recipient: Address,
    deadline: nat, salt: nat)
  {
    function Token(): Token { AddressOf(stable, true) }
    predicate NoRecipient() { recipient / 2 == 0 }
  }

  function Read(b: Bid): Terms
  {
    Terms(AddressOf(Key(b.maker), b.makerIsContract), Key(b.stable), b.maxAmount, b.makerBpsPerDay, b.delivery,
          AddressOf(Key(b.recipient), b.recipientIsContract), b.deadline, Key(b.salt))
  }

  /** What a maker signs, before hashing: equal preimages for equal hashes. */
  datatype BidHash = BidHash(id: Id, chain: Chain, words: seq<int>)

  /** Who may be owed what; a chain and a token a route connects. */
  datatype Account = Account(holder: Address, token: Token)
  datatype Lane = Lane(chain: Chain, token: Token)

  datatype VaultInfo = VaultInfo(addr: Address, stable: Token)

  /** `units` gives each known token's units per wire unit, 10^(decimals - 6). */
  datatype Config = Config(
    me: Address, xlm: Token, tip: nat, units: map<Token, nat>,
    routes: map<Lane, nat>, vaults: map<Token, VaultInfo>)
  {
    ghost predicate Valid() {
      && (forall t :: t in units ==> units[t] >= 1)
      && (forall r :: r in vaults ==> vaults[r].stable != r)
    }
  }

  datatype Request = Request(
    taker: Option<Address>, sender: Option<Address>, rfq: bool, takerToken: Token, makerToken: Token,
    takerAmount: int, minReceived: int, feeRecipient: Address, expiry: nat)

  /** The RFQ contract's answer: floors of products, so never negative. */
  datatype Quote = Quote(makerAmount: nat, fee: nat)

  datatype Order = Order(
    taker: Address, chain: Chain, rwa: Token, units: int, stable: Token, amount: int, fee: int, tip: int,
    feeRecipient: Address, delivery: nat, recipient: Address, maker: Address)

  /** `ct` is the claim token the vault reports for `batch`. */
  datatype Push = Push(
    vault: Address, rwa: Token, recipient: Address, batch: nat, ct: Token, units: int, chain: Chain,
    stable: Token, maker: Address)

  /** A FILL: `words` are the bid's own bytes, which the maker's chain hashes. */
  datatype Fill = Fill(id: Id, amount: int, bid: Terms, words: seq<int>, signature: seq<int>)

  /** Storage, the contract's token balances, and what its transfers have paid
      each other account in all. */
  datatype State = State(
    orders: map<Id, Order>, filled: set<Id>, used: set<BidHash>, pushes: map<Id, Push>,
    owed: map<Account, int>, bal: map<Token, int>, sent: map<Account, int>)

  const Empty := State(map[], {}, {}, map[], map[], map[], map[])

  // ---- taker here

  predicate RequestOk(s: State, cfg: Config, id: Id, r: Request, now: nat)
  {
    r.taker.Some? && r.sender == Some(cfg.me) && r.rfq && now < r.expiry && id !in s.filled
  }

  predicate BidOk(cfg: Config, r: Request, chain: Chain, bid: Terms, now: nat)
  {
    && now <= bid.deadline
    && Lane(chain, r.makerToken) in cfg.routes && cfg.routes[Lane(chain, r.makerToken)] == bid.stable
    && if bid.delivery == CROSS_DELIVER then Lane(chain, r.takerToken) in cfg.routes else
         && bid.delivery < CROSS_DELIVER && !bid.NoRecipient()
         && (bid.delivery == DELIVER ||
             (r.takerToken in cfg.vaults &&
              (bid.delivery == REDEEM_PUSH ==> cfg.vaults[r.takerToken].stable == r.makerToken)))
  }

  predicate QuoteOk(cfg: Config, r: Request, bid: Terms, q: Quote)
    requires r.makerToken in cfg.units
  {
    var unit := cfg.units[r.makerToken];
    q.makerAmount <= bid.maxAmount * unit && q.makerAmount - q.fee - cfg.tip * unit >= r.minReceived
  }

  function OrderFor(cfg: Config, r: Request, chain: Chain, bid: Terms, q: Quote): Order
    requires r.taker.Some? && r.makerToken in cfg.units
  {
    Order(r.taker.value, chain, r.takerToken, r.takerAmount, r.makerToken, q.makerAmount, q.fee,
          cfg.tip * cfg.units[r.makerToken], r.feeRecipient, bid.delivery,
          bid.recipient, bid.maker)
  }

  /** The bid's cap leaves room for the amount rounded up to wire units. */
  lemma WireAmount(amount: nat, cap: int, unit: nat)
    requires unit >= 1 && amount <= cap * unit
    ensures (amount + unit - 1) / unit == Ceil(amount, 1, unit)
    ensures 0 <= Ceil(amount, 1, unit) <= cap && amount <= Ceil(amount, 1, unit) * unit
  {
    CeilMin(cap, amount, 1, unit);
  }

  /** `fill`: checks, the escrow pulled from the taker, the FILL to send. */
  function DoFill(s: State, cfg: Config, id: Id, r: Request, chain: Chain, bid: Terms, words: seq<int>, sig: seq<int>,
                  now: nat, q: Quote)
    : (res: Option<(State, Fill)>)
    requires cfg.Valid()
  {
    if !RequestOk(s, cfg, id, r, now) || !BidOk(cfg, r, chain, bid, now) || r.makerToken !in cfg.units then None
    else if !QuoteOk(cfg, r, bid, q) || r.takerAmount < 0 || r.taker.value == cfg.me then None
    else
      var unit := cfg.units[r.makerToken];
      WireAmount(q.makerAmount, bid.maxAmount, unit);
      var o := OrderFor(cfg, r, chain, bid, q);
      var s' := s.(filled := s.filled + {id}, orders := s.orders[id := o],
                   bal := s.bal[r.takerToken := Get(s.bal, r.takerToken) + r.takerAmount]);
      Some((s', Fill(id, (q.makerAmount + unit - 1) / unit, bid, words, sig)))
  }

  // ---- payments out

  function Credit(s: State, t: Token, amount: int): State { s.(bal := s.bal[t := Get(s.bal, t) + amount]) }

  function Transfer(s: State, cfg: Config, t: Token, to: Address, amount: int): State
  {
    if to == cfg.me then s
    else Credit(s, t, -amount).(sent := s.sent[Account(to, t) := Get(s.sent, Account(to, t)) + amount])
  }

  /** Pays `to`, or owes it if the transfer is refused. */
  function SendOrHold(s: State, cfg: Config, t: Token, to: Address, amount: int, refused: set<Account>): State
  {
    if amount <= 0 then s
    else if Account(to, t) !in refused && Get(s.bal, t) >= amount then
      Transfer(s, cfg, t, to, amount)
    else s.(owed := s.owed[Account(to, t) := Get(s.owed, Account(to, t)) + amount])
  }

  /** How the vault answers `request_redeem`, and whether a bridge send goes through. */
  datatype Route = Route(batch: nat, ct: Token, accepted: bool)

  function RouteRwa(s: State, cfg: Config, id: Id, o: Order, refused: set<Account>, route: Route): Option<State>
  {
    if o.delivery == DELIVER then Some(SendOrHold(s, cfg, o.rwa, o.recipient, o.units, refused))
    else if !route.accepted || Get(s.bal, o.rwa) < o.units then None
    else if o.delivery == CROSS_DELIVER then Some(Credit(s, o.rwa, -o.units))
    else if o.rwa !in cfg.vaults || o.units <= 0 || route.ct in {o.rwa, o.stable} then None
    else
      var s' := Credit(Credit(s, o.rwa, -o.units), route.ct, o.units);
      if o.delivery == REDEEM_CT then Some(SendOrHold(s', cfg, route.ct, o.recipient, o.units, refused))
      else
        var p := Push(cfg.vaults[o.rwa].addr, o.rwa, o.recipient, route.batch, route.ct, o.units, o.chain, o.stable,
                      o.maker);
        Some(s'.(pushes := s'.pushes[id := p]))
  }

  function OrderOf(s: State, chain: Chain, id: Id): Option<Order>
  {
    if id in s.orders && s.orders[id].chain == chain then Some(s.orders[id]) else None
  }

  function PayTwo(s: State, cfg: Config, t: Token, a: Address, x: int, b: Address, y: int, refused: set<Account>): State
  {
    SendOrHold(SendOrHold(s, cfg, t, a, x, refused), cfg, t, b, y, refused)
  }

  /** The three payments of a settlement: taker, fee, tip. */
  function PayShares(s: State, cfg: Config, o: Order, amount: int, relayer: Option<Address>,
                     refused: set<Account>): State
  {
    var s2 := PayTwo(s, cfg, o.stable, o.taker, amount - o.fee - o.tip, o.feeRecipient, o.fee, refused);
    SendOrHold(s2, cfg, o.stable, if relayer.Some? then relayer.value else o.taker, o.tip, refused)
  }

  /** PAID: settles order `id` if `chain` and `token` are its own and `amount` covers it. */
  function OnPaid(s: State, cfg: Config, chain: Chain, id: Id, token: Token, amount: int,
                  relayer: Option<Address>, refused: set<Account>, route: Route): Option<State>
  {
    match OrderOf(s, chain, id)
    case None => None
    case Some(o) =>
      if o.stable != token || amount < o.amount then None
      else
        var s1 := Credit(s, token, amount).(orders := s.orders - {id});
        RouteRwa(PayShares(s1, cfg, o, amount, relayer, refused), cfg, id, o, refused, route)
  }

  /** PAYOUT: forwarded, less the relayer's tip. */
  function OnPayout(s: State, cfg: Config, token: Token, amount: nat, to: Address, relayer: Option<Address>,
                    refused: set<Account>): Option<State>
  {
    if token !in cfg.units then None
    else
      var s1 := Credit(s, token, amount);
      var tip := if relayer.Some? then Min(cfg.tip * cfg.units[token], amount) else 0;
      Some(PayTwo(s1, cfg, token, if relayer.Some? then relayer.value else to, tip, to, amount - tip, refused))
  }

  function OnFail(s: State, cfg: Config, chain: Chain, id: Id, refused: set<Account>): Option<State>
  {
    match OrderOf(s, chain, id)
    case None => None
    case Some(o) =>
      Some(SendOrHold(s.(orders := s.orders - {id}, filled := s.filled - {id}), cfg, o.rwa, o.taker, o.units, refused))
  }

  /** The storage after the claim, before anything is sent. */
  function Claimed(s: State, id: Id, paid: int, returned: int): State
    requires id in s.pushes
  {
    var p := s.pushes[id];
    Credit(Credit(Credit(s.(pushes := s.pushes - {id}), p.ct, -p.units), p.stable, paid), p.rwa, returned)
  }

  /** The RWA that came back in kind goes on to the recipient. */
  function Forwarded(s: State, cfg: Config, id: Id, paid: int, returned: int, refused: set<Account>): State
    requires id in s.pushes
  {
    var p, s2 := s.pushes[id], Claimed(s, id, paid, returned);
    SendOrHold(s2, cfg, p.rwa, p.recipient, Get(s2.bal, p.rwa) - Get(s.bal, p.rwa), refused)
  }

  /** `push`: claims a paid batch, sends RWA returned in kind, bridges whole wire
      units of the proceeds. `paid` and `returned` are what the vault pays. */
  function DoPush(s: State, cfg: Config, id: Id, paid: nat, returned: nat, refused: set<Account>)
    : Option<(State, int)>
    requires cfg.Valid()
  {
    if id !in s.pushes then None
    else
      var p := s.pushes[id];
      if Get(s.bal, p.ct) < p.units || p.stable !in cfg.units then None
      else
        var s3 := Forwarded(s, cfg, id, paid, returned, refused);
        var got := Get(s3.bal, p.stable) - Get(s.bal, p.stable);
        if got < 0 then None
        else
          var amount := got - got % cfg.units[p.stable];
          Some((Credit(s3, p.stable, -amount), amount))
  }

  function DoWithdraw(s: State, cfg: Config, to: Address, t: Token, refused: set<Account>): Option<State>
  {
    var amount := Get(s.owed, Account(to, t));
    if Account(to, t) in refused || Get(s.bal, t) < amount then None
    else
      var s1 := s.(owed := s.owed - {Account(to, t)});
      Some(Transfer(s1, cfg, t, to, amount))
  }

  // ---- maker here

  /** What the maker's chain finds: time, a cancelled salt, the signature, the pull. */
  datatype PayEnv = PayEnv(now: nat, cancelled: bool, signed: bool, pulled: bool)

  datatype Reply = Paid(token: Token, amount: int) | Failed

  function HashOf(chain: Chain, m: Fill): BidHash { BidHash(m.id, chain, m.words) }

  predicate Refused(s: State, cfg: Config, chain: Chain, m: Fill, env: PayEnv)
  {
    var stable := m.bid.Token();
    || m.amount > m.bid.maxAmount || m.bid.deadline < env.now || HashOf(chain, m) in s.used
    || Lane(chain, stable) !in cfg.routes || env.cancelled || !env.signed || !env.pulled
    || m.bid.maker == cfg.me
  }

  /** FILL: marks the bid used and answers with a payment, or answers that it failed. */
  function OnFill(s: State, cfg: Config, chain: Chain, m: Fill, env: PayEnv): Option<(State, Reply)>
  {
    var stable := m.bid.Token();
    if Refused(s, cfg, chain, m, env) then Some((s, Failed))
    else if stable !in cfg.units then None
    else Some((s.(used := s.used + {HashOf(chain, m)}), Paid(stable, m.amount * cfg.units[stable])))
  }

  // ---- what the contract must hold

  ghost function EscrowIn(t: Token): (Id, Order) -> int { (id: Id, o: Order) => if o.rwa == t then o.units else 0 }
  ghost function OwedIn(t: Token): (Account, int) -> int { (k: Account, v: int) => if k.token == t then v else 0 }
  ghost function PushedIn(t: Token): (Id, Push) -> int { (id: Id, p: Push) => if p.ct == t then p.units else 0 }

  ghost function Reserved(s: State, t: Token): int
  {
    Sum(s.orders, EscrowIn(t)) + Sum(s.owed, OwedIn(t)) + Sum(s.pushes, PushedIn(t))
  }

  ghost function Slack(s: State, t: Token): int { Get(s.bal, t) - Reserved(s, t) }

  ghost predicate OrderSound(o: Order)
  {
    o.units >= 0 && o.fee >= 0 && o.tip >= 0 && o.fee + o.tip <= o.amount
    && o.delivery <= CROSS_DELIVER && (o.delivery == REDEEM_PUSH ==> o.rwa != o.stable)
  }

  ghost predicate PushSound(p: Push) { p.units > 0 && p.rwa != p.stable && p.ct !in {p.rwa, p.stable} }

  ghost predicate Sound(s: State)
  {
    && (forall id :: id in s.orders ==> OrderSound(s.orders[id]))
    && (forall id :: id in s.pushes ==> PushSound(s.pushes[id]))
    && (forall k :: k in s.owed ==> s.owed[k] >= 0)
  }

  /** Every token but XLM: live escrows, debts and held claim tokens are all there. */
  ghost predicate Covered(s: State, cfg: Config)
  {
    Sound(s) && forall t :: t != cfg.xlm ==> Slack(s, t) >= 0
  }

  lemma CreditSlack(s: State, t: Token, amount: int, u: Token)
    ensures Slack(Credit(s, t, amount), u) == Slack(s, u) + (if u == t then amount else 0)
  {}

  lemma DropOrderSlack(s: State, id: Id, u: Token)
    requires id in s.orders
    ensures Slack(s.(orders := s.orders - {id}), u) == Slack(s, u) + (if s.orders[id].rwa == u then s.orders[id].units else 0)
  {
    SumRemove(s.orders, EscrowIn(u), id);
  }

  lemma TransferSlack(s: State, cfg: Config, t: Token, to: Address, amount: int, u: Token)
    requires amount >= 0
    ensures Slack(Transfer(s, cfg, t, to, amount), u) >= Slack(s, u) - (if u == t then amount else 0)
  {}

  /** `s'` is `s` after paying out `amount` of `t`, sent or held. */
  ghost predicate Spends(s: State, s': State, t: Token, amount: int)
  {
    && s'.orders == s.orders && s'.filled == s.filled && s'.pushes == s.pushes && s'.used == s.used
    && (Sound(s) ==> Sound(s'))
    && forall u :: Slack(s', u) >= Slack(s, u) - (if u == t then amount else 0)
  }

  lemma SpendTwice(s: State, s1: State, s2: State, t: Token, a: int, b: int)
    requires Spends(s, s1, t, a) && Spends(s1, s2, t, b)
    ensures Spends(s, s2, t, a + b)
  {
    forall u
      ensures Slack(s2, u) >= Slack(s, u) - (if u == t then a + b else 0)
    {
      assert Slack(s1, u) >= Slack(s, u) - (if u == t then a else 0);
    }
  }

  lemma HoldSlack(s: State, k: Account, amount: int, u: Token)
    ensures Slack(s.(owed := s.owed[k := Get(s.owed, k) + amount]), u) == Slack(s, u) - (if k.token == u then amount else 0)
  {
    SumPut(s.owed, OwedIn(u), k, Get(s.owed, k) + amount);
  }

  /** Sent or held, a payment uses up at most its amount of slack, and of
      its own token only. */
  lemma SendOrHoldSpends(s: State, cfg: Config, t: Token, to: Address, amount: int, refused: set<Account>)
    ensures Spends(s, SendOrHold(s, cfg, t, to, amount, refused), t, Max(amount, 0))
  {
    var s' := SendOrHold(s, cfg, t, to, amount, refused);
    forall u
      ensures Slack(s', u) >= Slack(s, u) - (if u == t then Max(amount, 0) else 0)
    {
      if amount > 0 {
        TransferSlack(s, cfg, t, to, amount, u);
        HoldSlack(s, Account(to, t), amount, u);
      }
    }
  }

  lemma SendOrHoldBalance(s: State, cfg: Config, t: Token, to: Address, amount: int, refused: set<Account>, u: Token)
    requires u != t
    ensures Get(SendOrHold(s, cfg, t, to, amount, refused).bal, u) == Get(s.bal, u)
  {}

  /** A fill whose floor is not negative records a sound order and stays covered. */
  lemma FillCovered(s: State, cfg: Config, id: Id, r: Request, chain: Chain, bid: Terms, words: seq<int>,
                    sig: seq<int>, now: nat, q: Quote)
    requires cfg.Valid() && Covered(s, cfg) && r.minReceived >= 0 && id !in s.orders
    requires DoFill(s, cfg, id, r, chain, bid, words, sig, now, q).Some?
    ensures Covered(DoFill(s, cfg, id, r, chain, bid, words, sig, now, q).value.0, cfg)
  {
    var s' := DoFill(s, cfg, id, r, chain, bid, words, sig, now, q).value.0;
    var o := OrderFor(cfg, r, chain, bid, q);
    MulPos(cfg.tip, cfg.units[r.makerToken]);
    forall t | t != cfg.xlm
      ensures Slack(s', t) >= 0
    {
      SumPut(s.orders, EscrowIn(t), id, o);
      assert Slack(s, t) >= 0;
    }
  }

  lemma PayTwoSpends(s: State, cfg: Config, t: Token, a: Address, x: nat, b: Address, y: nat, refused: set<Account>)
    ensures Spends(s, PayTwo(s, cfg, t, a, x, b, y, refused), t, x + y)
  {
    var s1 := SendOrHold(s, cfg, t, a, x, refused);
    SendOrHoldSpends(s, cfg, t, a, x, refused);
    SendOrHoldSpends(s1, cfg, t, b, y, refused);
    SpendTwice(s, s1, SendOrHold(s1, cfg, t, b, y, refused), t, x, y);
  }

  /** One payment of a chain of them, `s1` the state it leaves. */
  lemma SentSpends(s: State, s1: State, cfg: Config, t: Token, to: Address, amount: nat, refused: set<Account>)
    requires s1 == SendOrHold(s, cfg, t, to, amount, refused)
    ensures Spends(s, s1, t, amount)
  {
    SendOrHoldSpends(s, cfg, t, to, amount, refused);
  }

  lemma SpendThrice(s: State, s1: State, s2: State, s3: State, t: Token, a: int, b: int, c: int)
    requires Spends(s, s1, t, a) && Spends(s1, s2, t, b) && Spends(s2, s3, t, c)
    ensures Spends(s, s3, t, a + b + c)
  {
    SpendTwice(s, s1, s2, t, a, b);
    SpendTwice(s, s2, s3, t, a + b, c);
  }

  lemma PaySharesSpends(s: State, s3: State, cfg: Config, o: Order, amount: int, relayer: Option<Address>,
                        refused: set<Account>)
    requires o.fee >= 0 && o.tip >= 0 && o.fee + o.tip <= amount && s3 == PayShares(s, cfg, o, amount, relayer, refused)
    ensures Spends(s, s3, o.stable, amount)
  {
    var s1 := SendOrHold(s, cfg, o.stable, o.taker, amount - o.fee - o.tip, refused);
    var s2 := SendOrHold(s1, cfg, o.stable, o.feeRecipient, o.fee, refused);
    SentSpends(s, s1, cfg, o.stable, o.taker, amount - o.fee - o.tip, refused);
    SentSpends(s1, s2, cfg, o.stable, o.feeRecipient, o.fee, refused);
    SentSpends(s2, s3, cfg, o.stable, if relayer.Some? then relayer.value else o.taker, o.tip, refused);
    SpendThrice(s, s1, s2, s3, o.stable, amount - o.fee - o.tip, o.fee, o.tip);
  }

  /** `s'` is `s` after routing `units` of `rwa` for `id`. */
  ghost predicate Routes(s: State, s': State, id: Id, rwa: Token, units: int)
  {
    && s'.orders == s.orders && s'.filled == s.filled && s'.used == s.used
    && s'.pushes.Keys <= s.pushes.Keys + {id}
    && (forall i :: i in s.pushes && i != id ==> i in s'.pushes && s'.pushes[i] == s.pushes[i])
    && (Sound(s) ==> Sound(s'))
    && forall u :: Slack(s', u) >= Slack(s, u) - (if u == rwa then units else 0)
  }

  lemma RedeemSlack(s: State, rwa: Token, ct: Token, units: int, u: Token)
    requires rwa != ct
    ensures Slack(Credit(Credit(s, rwa, -units), ct, units), u)
         == Slack(s, u) + (if u == ct then units else if u == rwa then -units else 0)
  {
    CreditSlack(s, rwa, -units, u);
    CreditSlack(Credit(s, rwa, -units), ct, units, u);
  }

  lemma PutPushSlack(s: State, id: Id, p: Push, u: Token)
    requires Sound(s)
    ensures Slack(s.(pushes := s.pushes[id := p]), u) >= Slack(s, u) - (if u == p.ct then p.units else 0)
  {
    SumPut(s.pushes, PushedIn(u), id, p);
  }

  lemma SpendsRoutes(s: State, s': State, id: Id, rwa: Token, units: int)
    requires Spends(s, s', rwa, units)
    ensures Routes(s, s', id, rwa, units)
  {}

  lemma CreditRoutes(s: State, id: Id, rwa: Token, units: int)
    ensures Routes(s, Credit(s, rwa, -units), id, rwa, units)
  {
    forall u
      ensures Slack(Credit(s, rwa, -units), u) >= Slack(s, u) - (if u == rwa then units else 0)
    {
      CreditSlack(s, rwa, -units, u);
    }
  }

  /** What routing does, by delivery mode. */
  ghost predicate Routed(s: State, s': State, cfg: Config, id: Id, o: Order, refused: set<Account>, ct: Token)
  {
    if o.delivery == DELIVER then s' == SendOrHold(s, cfg, o.rwa, o.recipient, o.units, refused)
    else if o.delivery == CROSS_DELIVER then s' == Credit(s, o.rwa, -o.units)
    else if o.delivery == REDEEM_CT then
      ct != o.rwa && s' == SendOrHold(Credit(Credit(s, o.rwa, -o.units), ct, o.units), cfg, ct, o.recipient, o.units, refused)
    else
      var s2 := Credit(Credit(s, o.rwa, -o.units), ct, o.units);
      && id in s'.pushes && s' == s2.(pushes := s2.pushes[id := s'.pushes[id]])
      && PushSound(s'.pushes[id]) && s'.pushes[id].rwa == o.rwa && s'.pushes[id].units == o.units && s'.pushes[id].ct == ct
  }

  lemma RouteShape(s: State, s': State, cfg: Config, id: Id, o: Order, refused: set<Account>, route: Route)
    requires OrderSound(o) && RouteRwa(s, cfg, id, o, refused, route) == Some(s')
    ensures Routed(s, s', cfg, id, o, refused, route.ct)
  {}

  lemma RoutedRoutes(s: State, s': State, cfg: Config, id: Id, o: Order, refused: set<Account>, ct: Token)
    requires Sound(s) && OrderSound(o) && Routed(s, s', cfg, id, o, refused, ct)
    ensures Routes(s, s', id, o.rwa, o.units)
  {
    if o.delivery == DELIVER {
      SendOrHoldSpends(s, cfg, o.rwa, o.recipient, o.units, refused);
      SpendsRoutes(s, s', id, o.rwa, o.units);
    } else if o.delivery == CROSS_DELIVER {
      CreditRoutes(s, id, o.rwa, o.units);
    } else if o.delivery == REDEEM_CT {
      RouteCtRoutes(s, cfg, id, o, refused, ct);
    } else {
      RoutePushRoutes(s, id, o, s'.pushes[id]);
    }
  }

  lemma RouteRwaRoutes(s: State, s': State, cfg: Config, id: Id, o: Order, refused: set<Account>, route: Route)
    requires Sound(s) && OrderSound(o) && RouteRwa(s, cfg, id, o, refused, route) == Some(s')
    ensures Routes(s, s', id, o.rwa, o.units)
  {
    RouteShape(s, s', cfg, id, o, refused, route);
    RoutedRoutes(s, s', cfg, id, o, refused, route.ct);
  }

  lemma RouteCtRoutes(s: State, cfg: Config, id: Id, o: Order, refused: set<Account>, ct: Token)
    requires OrderSound(o) && ct != o.rwa
    ensures Routes(s, SendOrHold(Credit(Credit(s, o.rwa, -o.units), ct, o.units), cfg, ct, o.recipient, o.units, refused),
                   id, o.rwa, o.units)
  {
    var s2 := Credit(Credit(s, o.rwa, -o.units), ct, o.units);
    var s' := SendOrHold(s2, cfg, ct, o.recipient, o.units, refused);
    SendOrHoldSpends(s2, cfg, ct, o.recipient, o.units, refused);
    forall u
      ensures Slack(s', u) >= Slack(s, u) - (if u == o.rwa then o.units else 0)
    {
      RedeemSlack(s, o.rwa, ct, o.units, u);
      assert Slack(s', u) >= Slack(s2, u) - (if u == ct then o.units else 0);
    }
  }

  lemma RoutePushRoutes(s: State, id: Id, o: Order, p: Push)
    requires Sound(s) && PushSound(p) && p.rwa == o.rwa && p.units == o.units
    ensures var s2 := Credit(Credit(s, o.rwa, -o.units), p.ct, o.units);
            Routes(s, s2.(pushes := s2.pushes[id := p]), id, o.rwa, o.units)
  {
    var s2 := Credit(Credit(s, o.rwa, -o.units), p.ct, o.units);
    var s' := s2.(pushes := s2.pushes[id := p]);
    forall u
      ensures Slack(s', u) >= Slack(s, u) - (if u == o.rwa then o.units else 0)
    {
      RedeemSlack(s, o.rwa, p.ct, o.units, u);
      PutPushSlack(s2, id, p, u);
    }
  }

  /** What settling leaves: the order gone, its request still spent. */
  ghost predicate Settles(s: State, s': State, id: Id)
  {
    && id in s.orders && s'.orders == s.orders - {id} && s'.filled == s.filled && s'.used == s.used
    && s'.pushes.Keys <= s.pushes.Keys + {id}
    && forall i :: i in s.pushes && i != id ==> i in s'.pushes && s'.pushes[i] == s.pushes[i]
  }

  /** A payment covers its three shares and frees the escrow for the route. */
  lemma PaidCovered(s: State, cfg: Config, chain: Chain, id: Id, token: Token, amount: int,
                    relayer: Option<Address>, refused: set<Account>, route: Route)
    requires Covered(s, cfg) && OnPaid(s, cfg, chain, id, token, amount, relayer, refused, route).Some?
    ensures Covered(OnPaid(s, cfg, chain, id, token, amount, relayer, refused, route).value, cfg)
    ensures Settles(s, OnPaid(s, cfg, chain, id, token, amount, relayer, refused, route).value, id)
  {
    var o := s.orders[id];
    var s0 := Credit(s, token, amount);
    var s1 := s0.(orders := s0.orders - {id});
    var s2 := PayShares(s1, cfg, o, amount, relayer, refused);
    var s' := OnPaid(s, cfg, chain, id, token, amount, relayer, refused, route).value;
    assert Sound(s1);
    PaySharesSpends(s1, s2, cfg, o, amount, relayer, refused);
    RouteRwaRoutes(s2, s', cfg, id, o, refused, route);
    forall t | t != cfg.xlm
      ensures Slack(s', t) >= 0
    {
      assert Slack(s, t) >= 0;
      CreditSlack(s, token, amount, t);
      DropOrderSlack(s0, id, t);
      assert Slack(s2, t) >= Slack(s1, t) - (if t == token then amount else 0);
    }
  }

  lemma PayoutCovered(s: State, cfg: Config, token: Token, amount: nat, to: Address, relayer: Option<Address>,
                      refused: set<Account>)
    requires cfg.Valid() && Covered(s, cfg) && OnPayout(s, cfg, token, amount, to, relayer, refused).Some?
    ensures var s' := OnPayout(s, cfg, token, amount, to, relayer, refused).value;
            Covered(s', cfg) && s'.orders == s.orders && s'.filled == s.filled && s'.used == s.used && s'.pushes == s.pushes
  {
    var s1 := Credit(s, token, amount);
    MulPos(cfg.tip, cfg.units[token]);
    var tip := if relayer.Some? then Min(cfg.tip * cfg.units[token], amount) else 0;
    var tipTo := if relayer.Some? then relayer.value else to;
    PayTwoSpends(s1, cfg, token, tipTo, tip, to, amount - tip, refused);
    SpendCovered(s, PayTwo(s1, cfg, token, tipTo, tip, to, amount - tip, refused), cfg, token, amount);
  }

  /** Passing on what arrived keeps every token covered. */
  lemma SpendCovered(s: State, s': State, cfg: Config, token: Token, amount: int)
    requires Covered(s, cfg) && Spends(Credit(s, token, amount), s', token, amount)
    ensures Covered(s', cfg)
  {
    forall t | t != cfg.xlm
      ensures Slack(s', t) >= 0
    {
      assert Slack(s, t) >= 0;
      CreditSlack(s, token, amount, t);
    }
  }

  lemma FailCovered(s: State, cfg: Config, chain: Chain, id: Id, refused: set<Account>)
    requires Covered(s, cfg) && OnFail(s, cfg, chain, id, refused).Some?
    ensures var s' := OnFail(s, cfg, chain, id, refused).value;
            && Covered(s', cfg) && id in s.orders && s'.orders == s.orders - {id} && s'.filled == s.filled - {id}
            && s'.used == s.used && s'.pushes == s.pushes
  {
    var o := s.orders[id];
    var s1 := s.(orders := s.orders - {id}, filled := s.filled - {id});
    var s' := OnFail(s, cfg, chain, id, refused).value;
    SendOrHoldSpends(s1, cfg, o.rwa, o.taker, o.units, refused);
    forall t | t != cfg.xlm
      ensures Slack(s', t) >= 0
    {
      assert Slack(s, t) >= 0;
      DropOrderSlack(s, id, t);
    }
  }

  lemma ClaimSlack(s: State, id: Id, paid: int, returned: int, u: Token)
    requires id in s.pushes && PushSound(s.pushes[id])
    ensures var p := s.pushes[id];
            var s2 := Credit(Credit(Credit(s.(pushes := s.pushes - {id}), p.ct, -p.units), p.stable, paid), p.rwa, returned);
            && Slack(s2, u) == Slack(s, u) + (if u == p.stable then paid else if u == p.rwa then returned else 0)
            && Get(s2.bal, p.rwa) == Get(s.bal, p.rwa) + returned && Get(s2.bal, p.stable) == Get(s.bal, p.stable) + paid
  {
    var p := s.pushes[id];
    var s1 := s.(pushes := s.pushes - {id});
    var a := Credit(s1, p.ct, -p.units);
    SumRemove(s.pushes, PushedIn(u), id);
    CreditSlack(s1, p.ct, -p.units, u);
    CreditSlack(a, p.stable, paid, u);
    CreditSlack(Credit(a, p.stable, paid), p.rwa, returned, u);
  }

  /** A claimed push with the RWA sent on and `amount` of the proceeds bridged. */
  function Pushed(s: State, cfg: Config, id: Id, paid: nat, returned: nat, refused: set<Account>, amount: int): State
    requires id in s.pushes
  {
    var p := s.pushes[id];
    Credit(SendOrHold(Claimed(s, id, paid, returned), cfg, p.rwa, p.recipient, returned, refused), p.stable, -amount)
  }

  /** Measured by balances, the call sends on exactly what the vault paid. */
  lemma PushMeasures(s: State, cfg: Config, id: Id, paid: nat, returned: nat, refused: set<Account>)
    requires cfg.Valid() && Sound(s) && DoPush(s, cfg, id, paid, returned, refused).Some?
    ensures var amount := paid - paid % cfg.units[s.pushes[id].stable];
            DoPush(s, cfg, id, paid, returned, refused) == Some((Pushed(s, cfg, id, paid, returned, refused, amount), amount))
  {
    var p := s.pushes[id];
    ClaimSlack(s, id, paid, returned, p.rwa);
    SendOrHoldBalance(Claimed(s, id, paid, returned), cfg, p.rwa, p.recipient, returned, refused, p.stable);
  }

  lemma PushCovered(s: State, cfg: Config, id: Id, paid: nat, returned: nat, refused: set<Account>)
    requires cfg.Valid() && Covered(s, cfg) && DoPush(s, cfg, id, paid, returned, refused).Some?
    ensures var (s', amount) := DoPush(s, cfg, id, paid, returned, refused).value;
            && Covered(s', cfg) && s'.orders == s.orders && s'.filled == s.filled && s'.used == s.used
            && s'.pushes == s.pushes - {id} && amount == paid - paid % cfg.units[s.pushes[id].stable]
  {
    var amount := paid - paid % cfg.units[s.pushes[id].stable];
    PushMeasures(s, cfg, id, paid, returned, refused);
    assert DoPush(s, cfg, id, paid, returned, refused) == Some((Pushed(s, cfg, id, paid, returned, refused, amount), amount));
    ClaimedCovered(s, cfg, id, paid, returned, refused, amount);
  }

  lemma ClaimedSound(s: State, id: Id, paid: int, returned: int)
    requires Sound(s) && id in s.pushes
    ensures var s2 := Claimed(s, id, paid, returned);
            && Sound(s2) && s2.orders == s.orders && s2.filled == s.filled && s2.used == s.used && s2.pushes == s.pushes - {id}
  {}

  lemma ClaimedCovered(s: State, cfg: Config, id: Id, paid: nat, returned: nat, refused: set<Account>, amount: int)
    requires Covered(s, cfg) && id in s.pushes && amount <= paid
    ensures var s' := Pushed(s, cfg, id, paid, returned, refused, amount);
            && Covered(s', cfg) && s'.orders == s.orders && s'.filled == s.filled && s'.used == s.used && s'.pushes == s.pushes - {id}
  {
    var p := s.pushes[id];
    var s3 := SendOrHold(Claimed(s, id, paid, returned), cfg, p.rwa, p.recipient, returned, refused);
    var s' := Credit(s3, p.stable, -amount);
    ClaimedSound(s, id, paid, returned);
    SendOrHoldSpends(Claimed(s, id, paid, returned), cfg, p.rwa, p.recipient, returned, refused);
    forall t | t != cfg.xlm
      ensures Slack(s', t) >= 0
    {
      assert Slack(s, t) >= 0;
      ClaimedSlack(s, cfg, id, paid, returned, s3, t);
      CreditSlack(s3, p.stable, -amount, t);
    }
  }

  lemma ClaimedSlack(s: State, cfg: Config, id: Id, paid: nat, returned: nat, s3: State, t: Token)
    requires Sound(s) && id in s.pushes && Spends(Claimed(s, id, paid, returned), s3, s.pushes[id].rwa, returned)
    ensures Slack(s3, t) >= Slack(s, t) + (if t == s.pushes[id].stable then paid else 0)
  {
    ClaimSlack(s, id, paid, returned, t);
    assert Slack(s3, t) >= Slack(Claimed(s, id, paid, returned), t) - (if t == s.pushes[id].rwa then returned else 0);
  }

  lemma WithdrawSlack(s: State, k: Account, u: Token)
    ensures Slack(s.(owed := s.owed - {k}), u) == Slack(s, u) + (if k.token == u then Get(s.owed, k) else 0)
  {
    if k in s.owed {
      SumRemove(s.owed, OwedIn(u), k);
    } else {
      assert s.owed - {k} == s.owed;
    }
  }

  lemma WithdrawCovered(s: State, cfg: Config, to: Address, t: Token, refused: set<Account>)
    requires Covered(s, cfg) && DoWithdraw(s, cfg, to, t, refused).Some?
    ensures var s' := DoWithdraw(s, cfg, to, t, refused).value;
            Covered(s', cfg) && s'.orders == s.orders && s'.filled == s.filled && s'.used == s.used && s'.pushes == s.pushes
  {
    var s' := DoWithdraw(s, cfg, to, t, refused).value;
    var s1 := s.(owed := s.owed - {Account(to, t)});
    forall u | u != cfg.xlm
      ensures Slack(s', u) >= 0
    {
      assert Slack(s, u) >= 0;
      WithdrawSlack(s, Account(to, t), u);
      TransferSlack(s1, cfg, t, to, Get(s.owed, Account(to, t)), u);
    }
  }

  // ---- what each party gets

  /** Paid out or owed: what an account has been given, refused or not. */
  function Entitled(s: State, k: Account): int { Get(s.sent, k) + Get(s.owed, k) }

  function Share(k: Account, to: Account, amount: int): int { if k == to then Max(amount, 0) else 0 }

  lemma SendOrHoldEntitles(s: State, cfg: Config, t: Token, to: Address, amount: int, refused: set<Account>, k: Account)
    requires k.holder != cfg.me
    ensures Entitled(SendOrHold(s, cfg, t, to, amount, refused), k) == Entitled(s, k) + Share(k, Account(to, t), amount)
  {}

  /** What a settlement hands over besides the payment, by delivery mode. */
  function RouteShare(o: Order, route: Route, k: Account): int
  {
    if o.delivery == DELIVER then Share(k, Account(o.recipient, o.rwa), o.units)
    else if o.delivery == REDEEM_CT then Share(k, Account(o.recipient, route.ct), o.units)
    else 0
  }

  lemma SentEntitles(s: State, s1: State, cfg: Config, t: Token, to: Address, amount: int, refused: set<Account>,
                     k: Account)
    requires s1 == SendOrHold(s, cfg, t, to, amount, refused) && k.holder != cfg.me
    ensures Entitled(s1, k) == Entitled(s, k) + Share(k, Account(to, t), amount)
  {
    SendOrHoldEntitles(s, cfg, t, to, amount, refused, k);
  }

  lemma PaySharesEntitles(s: State, s3: State, cfg: Config, o: Order, amount: int, relayer: Option<Address>,
                          refused: set<Account>, k: Account)
    requires k.holder != cfg.me && s3 == PayShares(s, cfg, o, amount, relayer, refused)
    ensures Entitled(s3, k) == Entitled(s, k)
              + Share(k, Account(o.taker, o.stable), amount - o.fee - o.tip)
              + Share(k, Account(o.feeRecipient, o.stable), o.fee)
              + Share(k, Account(if relayer.Some? then relayer.value else o.taker, o.stable), o.tip)
  {
    var s1 := SendOrHold(s, cfg, o.stable, o.taker, amount - o.fee - o.tip, refused);
    var s2 := SendOrHold(s1, cfg, o.stable, o.feeRecipient, o.fee, refused);
    SentEntitles(s, s1, cfg, o.stable, o.taker, amount - o.fee - o.tip, refused, k);
    SentEntitles(s1, s2, cfg, o.stable, o.feeRecipient, o.fee, refused, k);
    SentEntitles(s2, s3, cfg, o.stable, if relayer.Some? then relayer.value else o.taker, o.tip, refused, k);
  }

  /** Whatever is refused, a settlement gives the taker the payment less fee and
      tip, the fee and tip to theirs, the RWA or its claim token to the bid's
      recipient, and nobody else anything. */
  lemma PaidEntitles(s: State, cfg: Config, chain: Chain, id: Id, token: Token, amount: int,
                     relayer: Option<Address>, refused: set<Account>, route: Route, k: Account)
    requires OnPaid(s, cfg, chain, id, token, amount, relayer, refused, route).Some? && k.holder != cfg.me
    ensures var o := s.orders[id];
            var tipTo := if relayer.Some? then relayer.value else o.taker;
            Entitled(OnPaid(s, cfg, chain, id, token, amount, relayer, refused, route).value, k) == Entitled(s, k)
              + Share(k, Account(o.taker, token), amount - o.fee - o.tip)
              + Share(k, Account(o.feeRecipient, token), o.fee) + Share(k, Account(tipTo, token), o.tip)
              + RouteShare(o, route, k)
  {
    var o := s.orders[id];
    var s1 := Credit(s, token, amount).(orders := s.orders - {id});
    var s2 := PayShares(s1, cfg, o, amount, relayer, refused);
    PaySharesEntitles(s1, s2, cfg, o, amount, relayer, refused, k);
    RouteEntitles(s2, cfg, id, o, refused, route, k);
  }

  lemma RouteEntitles(s: State, cfg: Config, id: Id, o: Order, refused: set<Account>, route: Route, k: Account)
    requires RouteRwa(s, cfg, id, o, refused, route).Some? && k.holder != cfg.me
    ensures Entitled(RouteRwa(s, cfg, id, o, refused, route).value, k) == Entitled(s, k) + RouteShare(o, route, k)
  {
    if o.delivery == DELIVER {
      SendOrHoldEntitles(s, cfg, o.rwa, o.recipient, o.units, refused, k);
    } else if o.delivery == REDEEM_CT {
      SendOrHoldEntitles(Credit(Credit(s, o.rwa, -o.units), route.ct, o.units), cfg, route.ct, o.recipient, o.units, refused, k);
    }
  }

  /** A FAIL gives the taker the escrow back and nobody else anything. */
  lemma FailEntitles(s: State, cfg: Config, chain: Chain, id: Id, refused: set<Account>, k: Account)
    requires OnFail(s, cfg, chain, id, refused).Some? && k.holder != cfg.me
    ensures var o := s.orders[id];
            Entitled(OnFail(s, cfg, chain, id, refused).value, k) == Entitled(s, k) + Share(k, Account(o.taker, o.rwa), o.units)
  {
    var o := s.orders[id];
    SendOrHoldEntitles(s.(orders := s.orders - {id}, filled := s.filled - {id}), cfg, o.rwa, o.taker, o.units, refused, k);
  }

  lemma PayTwoEntitles(s: State, cfg: Config, t: Token, a: Address, x: int, b: Address, y: int, refused: set<Account>,
                       k: Account)
    requires k.holder != cfg.me
    ensures Entitled(PayTwo(s, cfg, t, a, x, b, y, refused), k)
         == Entitled(s, k) + Share(k, Account(a, t), x) + Share(k, Account(b, t), y)
  {
    SendOrHoldEntitles(s, cfg, t, a, x, refused, k);
    SendOrHoldEntitles(SendOrHold(s, cfg, t, a, x, refused), cfg, t, b, y, refused, k);
  }

  /** A payout's two shares are the whole of it, the tip bounded by it. */
  lemma PayoutEntitles(s: State, cfg: Config, token: Token, amount: nat, to: Address, relayer: Option<Address>,
                       refused: set<Account>, k: Account)
    requires cfg.Valid() && OnPayout(s, cfg, token, amount, to, relayer, refused).Some? && k.holder != cfg.me
    ensures var tip := if relayer.Some? then Min(cfg.tip * cfg.units[token], amount) else 0;
            && 0 <= tip <= amount
            && Entitled(OnPayout(s, cfg, token, amount, to, relayer, refused).value, k) == Entitled(s, k)
                 + (if relayer.Some? then Share(k, Account(relayer.value, token), tip) else 0) + Share(k, Account(to, token), amount - tip)
  {
    MulPos(cfg.tip, cfg.units[token]);
    var tip := if relayer.Some? then Min(cfg.tip * cfg.units[token], amount) else 0;
    PayTwoEntitles(Credit(s, token, amount), cfg, token, if relayer.Some? then relayer.value else to, tip, to, amount - tip, refused, k);
  }

  /** `withdraw` turns a debt into a payment of the same size. */
  lemma WithdrawEntitles(s: State, cfg: Config, to: Address, t: Token, refused: set<Account>, k: Account)
    requires DoWithdraw(s, cfg, to, t, refused).Some? && k.holder != cfg.me
    ensures var s' := DoWithdraw(s, cfg, to, t, refused).value;
            Entitled(s', k) == Entitled(s, k) && (k == Account(to, t) ==> Get(s'.owed, k) == 0)
  {}

  // ---- the terms of a fill

  /** What `fill` promises: the wire amount is within the signed cap, and the
      payment it causes over a lossless bridge covers the recorded quote, nets
      the taker the floor and splits exactly into taker, fee and tip. */
  lemma FillTerms(s: State, cfg: Config, id: Id, r: Request, chain: Chain, bid: Terms, words: seq<int>, sig: seq<int>,
                  now: nat, q: Quote)
    requires cfg.Valid() && DoFill(s, cfg, id, r, chain, bid, words, sig, now, q).Some?
    ensures var (s', m) := DoFill(s, cfg, id, r, chain, bid, words, sig, now, q).value;
            var o := s'.orders[id];
            var payment := m.amount * cfg.units[o.stable];
            && 0 <= m.amount <= bid.maxAmount
            && o.amount <= payment < o.amount + cfg.units[o.stable]
            && payment - o.fee - o.tip >= r.minReceived
  {
    var unit := cfg.units[r.makerToken];
    WireAmount(q.makerAmount, bid.maxAmount, unit);
    assert (Ceil(q.makerAmount, 1, unit) - 1) * unit == Ceil(q.makerAmount, 1, unit) * unit - unit;
  }

  /** What the three shares pay out in all. */
  function PaidOut(amount: int, fee: int, tip: int): int { Max(amount - fee - tip, 0) + Max(fee, 0) + Max(tip, 0) }

  lemma SendOrHoldExact(s: State, cfg: Config, t: Token, to: Address, amount: int, refused: set<Account>)
    requires to != cfg.me
    ensures Slack(SendOrHold(s, cfg, t, to, amount, refused), t) == Slack(s, t) - Max(amount, 0)
  {
    if amount > 0 { HoldSlack(s, Account(to, t), amount, t); }
  }

  lemma PayTwoExact(s: State, cfg: Config, t: Token, a: Address, x: int, b: Address, y: int, refused: set<Account>)
    requires a != cfg.me && b != cfg.me
    ensures Slack(PayTwo(s, cfg, t, a, x, b, y, refused), t) == Slack(s, t) - Max(x, 0) - Max(y, 0)
  {
    SendOrHoldExact(s, cfg, t, a, x, refused);
    SendOrHoldExact(SendOrHold(s, cfg, t, a, x, refused), cfg, t, b, y, refused);
  }

  lemma PaySharesExact(s: State, cfg: Config, o: Order, amount: int, relayer: Option<Address>, refused: set<Account>)
    requires o.taker != cfg.me && o.feeRecipient != cfg.me && relayer != Some(cfg.me)
    ensures Slack(PayShares(s, cfg, o, amount, relayer, refused), o.stable) == Slack(s, o.stable) - PaidOut(amount, o.fee, o.tip)
  {
    var s2 := PayTwo(s, cfg, o.stable, o.taker, amount - o.fee - o.tip, o.feeRecipient, o.fee, refused);
    PayTwoExact(s, cfg, o.stable, o.taker, amount - o.fee - o.tip, o.feeRecipient, o.fee, refused);
    assert PayShares(s, cfg, o, amount, relayer, refused)
        == SendOrHold(s2, cfg, o.stable, if relayer.Some? then relayer.value else o.taker, o.tip, refused);
    SendOrHoldExact(s2, cfg, o.stable, if relayer.Some? then relayer.value else o.taker, o.tip, refused);
  }

  /** A payment pays for its own three shares, sent or held, exactly when the fee
      and the tip fit in it; otherwise they come out of what others are owed. A
      floor of zero or more, checked at `fill`, guarantees that they fit. */
  lemma SharesExactIff(s: State, cfg: Config, o: Order, amount: nat, relayer: Option<Address>, refused: set<Account>)
    requires o.fee >= 0 && o.tip >= 0 && o.taker != cfg.me && o.feeRecipient != cfg.me && relayer != Some(cfg.me)
    ensures var s' := PayShares(Credit(s, o.stable, amount), cfg, o, amount, relayer, refused);
            && (Slack(s', o.stable) >= Slack(s, o.stable) <==> o.fee + o.tip <= amount)
            && (o.fee + o.tip <= amount ==> Slack(s', o.stable) == Slack(s, o.stable))
  {
    CreditSlack(s, o.stable, amount, o.stable);
    var s1 := Credit(s, o.stable, amount);
    PaySharesExact(s1, cfg, o, amount, relayer, refused);
  }

  /** Of the quotes `fill` accepts, those and only those pay for their own shares, in
      whatever state the payment arrives, whose fee and tip fit in the quote rounded
      up to wire units. A floor of zero or more is enough. */
  lemma FillSharesExactIff(s: State, cfg: Config, id: Id, r: Request, chain: Chain, bid: Terms, words: seq<int>,
                           sig: seq<int>, now: nat, q: Quote, later: State, relayer: Option<Address>,
                           refused: set<Account>)
    requires cfg.Valid() && DoFill(s, cfg, id, r, chain, bid, words, sig, now, q).Some?
    requires r.feeRecipient != cfg.me && relayer != Some(cfg.me)
    ensures var (s1, m) := DoFill(s, cfg, id, r, chain, bid, words, sig, now, q).value;
            var o, unit := s1.orders[id], cfg.units[r.makerToken];
            var payment := m.amount * unit;
            var paid := PayShares(Credit(later, o.stable, payment), cfg, o, payment, relayer, refused);
            && payment == Ceil(q.makerAmount, 1, unit) * unit
            && (Slack(paid, o.stable) >= Slack(later, o.stable) <==>
                q.fee + cfg.tip * unit <= Ceil(q.makerAmount, 1, unit) * unit)
            && (r.minReceived >= 0 ==> q.fee + cfg.tip * unit <= Ceil(q.makerAmount, 1, unit) * unit)
  {
    var unit := cfg.units[r.makerToken];
    WireAmount(q.makerAmount, bid.maxAmount, unit);
    MulPos(cfg.tip, unit);
    var o := OrderFor(cfg, r, chain, bid, q);
    SharesExactIff(later, cfg, o, Ceil(q.makerAmount, 1, unit) * unit, relayer, refused);
  }

  /** Another taker's 20 units of token 5, escrowed and held. */
  function OneEscrow(id: Id): State
  {
    Empty.(orders := map[id := Order(11, 1, 5, 20, 4, 0, 0, 0, 8, 0, 11, 11)], bal := map[5 := 20])
  }

  lemma OneEscrowCovered(id: Id, cfg: Config)
    ensures Covered(OneEscrow(id), cfg)
    ensures Reserved(OneEscrow(id), 5) == 20
  {
    var s := OneEscrow(id);
    forall t
      ensures Reserved(s, t) == if t == 5 then 20 else 0
    {
      assert s.orders == map[][id := s.orders[id]];
      SumPut(map[], EscrowIn(t), id, s.orders[id]);
    }
  }

  /** Below zero the floor guarantees nothing: `fill` accepts a quote of 10 whose
      fee is 30, and settling it leaves the other escrow short. */
  lemma NegativeFloorBreaks(id: Id, other: Id)
    requires id != other
    ensures var cfg := Config(1, 2, 0, map[5 := 1], map[Lane(1, 5) := 9], map[]);
            var bid := Terms(18, 9, 10, 0, 0, 22, 100, 9);
            var r := Request(Some(3), Some(1), true, 6, 5, 4, -20, 8, 100);
            && cfg.Valid() && Covered(OneEscrow(other), cfg)
            && DoFill(OneEscrow(other), cfg, id, r, 1, bid, [], [], 0, Quote(10, 30)).Some?
            && (var s1 := DoFill(OneEscrow(other), cfg, id, r, 1, bid, [], [], 0, Quote(10, 30)).value.0;
                && OnPaid(s1, cfg, 1, id, 5, 10, None, {}, Route(0, 0, true)).Some?
                && !Covered(OnPaid(s1, cfg, 1, id, 5, 10, None, {}, Route(0, 0, true)).value, cfg))
  {
    var cfg := Config(1, 2, 0, map[5 := 1], map[Lane(1, 5) := 9], map[]);
    var bid := Terms(18, 9, 10, 0, 0, 22, 100, 9);
    var r := Request(Some(3), Some(1), true, 6, 5, 4, -20, 8, 100);
    var s := OneEscrow(other);
    OneEscrowCovered(other, cfg);
    var o := OrderFor(cfg, r, 1, bid, Quote(10, 30));
    var s1 := DoFill(s, cfg, id, r, 1, bid, [], [], 0, Quote(10, 30)).value.0;
    assert s1.orders - {id} == s.orders;
    var s2 := Credit(s1, 5, 10).(orders := s.orders);
    assert Get(s2.bal, 5) == 30;
    var s3 := PayShares(s2, cfg, o, 10, None, {});
    assert s3 == Transfer(s2, cfg, 5, 8, 30);
    var s4 := OnPaid(s1, cfg, 1, id, 5, 10, None, {}, Route(0, 0, true)).value;
    assert s4 == SendOrHold(s3, cfg, 6, o.recipient, 4, {});
    assert s4.owed == s3.owed == map[] && Get(s4.bal, 5) == 0;
    assert Reserved(s4, 5) == Reserved(s, 5);
    assert Slack(s4, 5) < 0;
  }
}
