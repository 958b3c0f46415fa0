/** Any number of settlement contracts, one a chain, each a taker's side and a
    maker's side, exchanging messages that arrive exactly once in any order
    (`contracts/crosschain_settle/src/lib.rs`, `lz.rs`, `cctp.rs`). A FILL is
    either acted on when it arrives (LayerZero) or first waits in the inbox, which
    is keyed by the message's bytes (CCTP). */
module Protocol {

  import opened Math
  import opened Sums
  import opened Settle

  /** A PAID carries `wire` units of the destination's `token`. */
  datatype Message = FillMsg(fill: Fill) | FailMsg(id: Id) | PaidMsg(id: Id, token: Token, wire: int)
  datatype Packet = Packet(src: Chain, dst: Chain, msg: Message)
  datatype Slot = Slot(chain: Chain, fill: Fill)
  datatype Hop = Hop(src: Chain, token: Token, dst: Chain)

  /** `link` is the bridge's own table: where a token burned on one chain is
      minted on another. `home` records the chain of each request hash. */
  datatype World = World(cfg: map<Chain, Config>, link: map<Hop, Token>, at: map<Chain, State>, home: map<Id, Chain>)
  datatype Net = Net(w: World, flight: map<nat, Packet>, inbox: map<Slot, Chain>, nonce: nat)

  datatype Step =
    | FillAt(chain: Chain, id: Id, request: Request, to: Chain, bid: Terms, words: seq<int>, signature: seq<int>, now: nat, quote: Quote)
    | DeliverFill(n: nat, env: PayEnv)
    | ToInbox(n: nat)
    | Execute(slot: Slot, env: PayEnv)
    | DeliverFail(n: nat, refused: set<Account>)
    | DeliverPaid(n: nat, relayer: Option<Address>, refused: set<Account>, route: Route)
    | PayoutAt(chain: Chain, token: Token, amount: nat, recipient: Address, relayer: Option<Address>, refused: set<Account>)
    | PushAt(chain: Chain, id: Id, paid: nat, returned: nat, refused: set<Account>)
    | WithdrawAt(chain: Chain, holder: Address, token: Token, refused: set<Account>)
    | DonateAt(chain: Chain, token: Token, amount: nat)

  function MessageId(m: Message): Id
  {
    match m
    case FillMsg(f) => f.id
    case FailMsg(id) => id
    case PaidMsg(id, _, _) => id
  }

  function Post(net: Net, p: Packet): Net
  {
    net.(flight := net.flight[net.nonce := p], nonce := net.nonce + 1)
  }

  function SetAt(w: World, c: Chain, s: State): World { w.(at := w.at[c := s]) }

  /** A FILL reaches its maker's chain: the storage there, and PAID or FAIL back. */
  function Arrive(w: World, src: Chain, dst: Chain, f: Fill, env: PayEnv): Option<(World, Packet)>
  {
    if dst !in w.at || dst !in w.cfg then None
    else
      match OnFill(w.at[dst], w.cfg[dst], src, f, env)
      case None => None
      case Some((_, Failed)) => Some((w, Packet(dst, src, FailMsg(f.id))))
      case Some((s', Paid(token, amount))) =>
        var hop := Hop(dst, token, src);
        if hop !in w.link || token !in w.cfg[dst].units || w.cfg[dst].units[token] == 0 then None
        else
          var wire := amount / w.cfg[dst].units[token];
          Some((SetAt(w, dst, s'), Packet(dst, src, PaidMsg(f.id, w.link[hop], wire))))
  }

  /** Steps that touch one contract and send nothing. */
  function Local(w: World, step: Step): (res: Option<World>)
    requires Configured(w)
  {
    match step
    case PayoutAt(c, token, amount, to, relayer, refused) =>
      if c !in w.at then None
      else (match OnPayout(w.at[c], w.cfg[c], token, amount, to, relayer, refused)
            case None => None
            case Some(s') => Some(SetAt(w, c, s')))
    case PushAt(c, id, paid, returned, refused) =>
      if c !in w.at then None
      else (match DoPush(w.at[c], w.cfg[c], id, paid, returned, refused)
            case None => None
            case Some((s', _)) => Some(SetAt(w, c, s')))
    case WithdrawAt(c, to, token, refused) =>
      if c !in w.at then None
      else (match DoWithdraw(w.at[c], w.cfg[c], to, token, refused)
            case None => None
            case Some(s') => Some(SetAt(w, c, s')))
    case DonateAt(c, token, amount) =>
      if c !in w.at then None else Some(SetAt(w, c, Credit(w.at[c], token, amount)))
    case _ => None
  }

  /** A FAIL or a payment reaches its taker's chain. */
  function Land(w: World, p: Packet, relayer: Option<Address>, refused: set<Account>, route: Route): Option<World>
    requires Configured(w)
  {
    if p.dst !in w.at then None
    else
      match p.msg
      case FillMsg(_) => None
      case FailMsg(id) =>
        (match OnFail(w.at[p.dst], w.cfg[p.dst], p.src, id, refused)
         case None => None
         case Some(s') => Some(SetAt(w, p.dst, s')))
      case PaidMsg(id, token, wire) =>
        if token !in w.cfg[p.dst].units then None
        else (match OnPaid(w.at[p.dst], w.cfg[p.dst], p.src, id, token, wire * w.cfg[p.dst].units[token], relayer, refused, route)
              case None => None
              case Some(s') => Some(SetAt(w, p.dst, s')))
  }

  function NextFill(net: Net, c: Chain, id: Id, r: Request, d: Chain, bid: Terms, words: seq<int>, sig: seq<int>,
                    now: nat, q: Quote)
    : Option<Net>
    requires Configured(net.w)
  {
    if c !in net.w.at || (id in net.w.home && net.w.home[id] != c) then None
    else
      match DoFill(net.w.at[c], net.w.cfg[c], id, r, d, bid, words, sig, now, q)
      case None => None
      case Some((s', f)) =>
        Some(Post(net.(w := SetAt(net.w, c, s').(home := net.w.home[id := c])), Packet(c, d, FillMsg(f))))
  }

  /** `rest` is the network without the FILL being answered. */
  function NextAnswer(rest: Net, src: Chain, dst: Chain, f: Fill, env: PayEnv): Option<Net>
  {
    match Arrive(rest.w, src, dst, f, env)
    case None => None
    case Some((w', reply)) => Some(Post(rest.(w := w'), reply))
  }

  function NextLand(net: Net, n: nat, relayer: Option<Address>, refused: set<Account>, route: Route): Option<Net>
    requires Configured(net.w) && n in net.flight
  {
    match Land(net.w, net.flight[n], relayer, refused, route)
    case None => None
    case Some(w') => Some(net.(w := w', flight := net.flight - {n}))
  }

  function Next(net: Net, step: Step): (res: Option<Net>)
    requires Configured(net.w)
  {
    match step
    case FillAt(c, id, r, d, bid, words, sig, now, q) => NextFill(net, c, id, r, d, bid, words, sig, now, q)
    case DeliverFill(n, env) =>
      if n !in net.flight || !net.flight[n].msg.FillMsg? then None
      else NextAnswer(net.(flight := net.flight - {n}), net.flight[n].src, net.flight[n].dst, net.flight[n].msg.fill, env)
    case ToInbox(n) =>
      if n !in net.flight || !net.flight[n].msg.FillMsg? then None
      else
        var p := net.flight[n];
        Some(net.(flight := net.flight - {n}, inbox := net.inbox[Slot(p.dst, p.msg.fill) := p.src]))
    case Execute(slot, env) =>
      if slot !in net.inbox then None
      else NextAnswer(net.(inbox := net.inbox - {slot}), net.inbox[slot], slot.chain, slot.fill, env)
    case DeliverFail(n, refused) =>
      if n !in net.flight || !net.flight[n].msg.FailMsg? then None
      else NextLand(net, n, None, refused, Route(0, 0, false))
    case DeliverPaid(n, relayer, refused, route) =>
      if n !in net.flight || !net.flight[n].msg.PaidMsg? then None
      else NextLand(net, n, relayer, refused, route)
    case _ =>
      (match Local(net.w, step)
       case None => None
       case Some(w') => Some(net.(w := w')))
  }

  // ---- the invariant

  /** Contracts agree with the bridge: a route opens only for the pair it links. */
  ghost predicate RouteOk(link: map<Hop, Token>, cfg: Config, c: Chain, l: Lane)
    requires l in cfg.routes
  {
    var hop := Hop(l.chain, AddressOf(cfg.routes[l], true), c);
    hop in link ==> link[hop] == l.token
  }

  ghost predicate ConfigOk(link: map<Hop, Token>, cfg: Config, c: Chain)
  {
    cfg.Valid() && forall l :: l in cfg.routes ==> RouteOk(link, cfg, c, l)
  }

  ghost predicate Configured(w: World)
  {
    w.cfg.Keys == w.at.Keys && forall c :: c in w.cfg ==> ConfigOk(w.link, w.cfg[c], c)
  }

  ghost predicate Live(w: World, id: Id) { id in w.home && w.home[id] in w.at && id in w.at[w.home[id]].orders }

  /** Settled: spent for good. */
  ghost predicate Spent(w: World, id: Id)
  {
    id in w.home && w.home[id] in w.at && id in w.at[w.home[id]].filled && id !in w.at[w.home[id]].orders
  }

  ghost predicate Unused(w: World, id: Id) { forall c, h :: c in w.at && h in w.at[c].used ==> h.id != id }

  /** What a FILL in flight says about the order it left behind. */
  ghost predicate FillOk(w: World, src: Chain, dst: Chain, f: Fill)
  {
    && Live(w, f.id) && w.home[f.id] == src && src in w.cfg && Unused(w, f.id)
    && var o := w.at[src].orders[f.id];
       && o.chain == dst && 0 <= f.amount <= f.bid.maxAmount
       && Lane(dst, o.stable) in w.cfg[src].routes && w.cfg[src].routes[Lane(dst, o.stable)] == f.bid.stable
       && o.stable in w.cfg[src].units && f.amount * w.cfg[src].units[o.stable] >= o.amount
  }

  ghost predicate PacketOk(w: World, p: Packet)
  {
    match p.msg
    case FillMsg(f) => FillOk(w, p.src, p.dst, f)
    case FailMsg(id) =>
      Live(w, id) && w.home[id] == p.dst && w.at[p.dst].orders[id].chain == p.src && Unused(w, id)
    case PaidMsg(id, token, wire) =>
      && Live(w, id) && w.home[id] == p.dst && p.dst in w.cfg
      && var o := w.at[p.dst].orders[id];
         && o.chain == p.src && o.stable == token
         && token in w.cfg[p.dst].units && wire * w.cfg[p.dst].units[token] >= o.amount
  }

  /** A chain's requests are its own; its live orders and held claims are
      filled requests, and not both at once. */
  ghost predicate HomesAt(home: map<Id, Chain>, c: Chain, s: State)
  {
    && (forall id :: id in s.filled ==> id in home && home[id] == c)
    && (forall id :: id in s.orders ==> id in s.filled)
    && (forall id :: id in s.pushes ==> id in s.filled && id !in s.orders)
  }

  ghost predicate Homes(w: World) { forall c :: c in w.at ==> HomesAt(w.home, c, w.at[c]) }

  ghost predicate Requested(w: World, id: Id) { id in w.home && w.home[id] in w.at && id in w.at[w.home[id]].filled }

  /** Only filled requests have a used bid. */
  ghost predicate UsedOk(w: World) { forall id :: Requested(w, id) || Unused(w, id) }

  /** Every contract holds what it owes. */
  ghost predicate Funded(w: World)
    requires Configured(w)
  {
    forall c :: c in w.at ==> Covered(w.at[c], w.cfg[c])
  }

  ghost predicate WorldInv(w: World) { Configured(w) && Homes(w) && UsedOk(w) && Funded(w) }

  // ---- frames

  /** Only what concerns `id` differs. */
  ghost predicate AgreeAt(s: State, s': State, id: Id)
  {
    && (forall i :: i != id ==> (i in s'.orders <==> i in s.orders))
    && (forall i :: i != id && i in s.orders ==> s'.orders[i] == s.orders[i])
    && (forall i :: i != id ==> (i in s'.filled <==> i in s.filled))
    && (forall h :: h in s'.used && h.id != id ==> h in s.used)
  }

  ghost predicate Agree(w: World, w': World, id: Id)
  {
    && w'.cfg == w.cfg && w'.link == w.link && w'.at.Keys == w.at.Keys
    && (forall i :: i != id ==> (i in w'.home <==> i in w.home) && (i in w.home ==> w'.home[i] == w.home[i]))
    && (forall c :: c in w.at ==> AgreeAt(w.at[c], w'.at[c], id))
  }

  lemma KeepLive(w: World, w': World, id: Id, i: Id)
    requires Agree(w, w', id) && i != id
    ensures Live(w', i) == Live(w, i) && (Live(w, i) ==> w'.at[w.home[i]].orders[i] == w.at[w.home[i]].orders[i])
    ensures Unused(w, i) ==> Unused(w', i)
    ensures Spent(w', i) == Spent(w, i) && Requested(w', i) == Requested(w, i)
  {}

  lemma KeepFill(w: World, w': World, id: Id, src: Chain, dst: Chain, f: Fill)
    requires Agree(w, w', id) && f.id != id && FillOk(w, src, dst, f)
    ensures FillOk(w', src, dst, f)
  {
    KeepLive(w, w', id, f.id);
  }

  lemma KeepPacket(w: World, w': World, id: Id, p: Packet)
    requires Agree(w, w', id) && MessageId(p.msg) != id && PacketOk(w, p)
    ensures PacketOk(w', p)
  {
    KeepLive(w, w', id, MessageId(p.msg));
    if p.msg.FillMsg? { KeepFill(w, w', id, p.src, p.dst, p.msg.fill); }
  }

  // ---- messages

  ghost function AboutF(id: Id): (nat, Packet) -> int { (n: nat, p: Packet) => if MessageId(p.msg) == id then 1 else 0 }
  ghost function AboutI(id: Id): (Slot, Chain) -> int { (k: Slot, c: Chain) => if k.fill.id == id then 1 else 0 }

  /** Messages about `id` on their way or waiting. */
  ghost function Count(net: Net, id: Id): int { Sum(net.flight, AboutF(id)) + Sum(net.inbox, AboutI(id)) }

  /** One message about each order in `live`, none about any other. */
  ghost predicate Counts(net: Net, w: World) { forall id :: Count(net, id) == if Live(w, id) then 1 else 0 }

  ghost predicate Messages(net: Net)
  {
    && (forall n :: n in net.flight ==> n < net.nonce && PacketOk(net.w, net.flight[n]))
    && (forall k :: k in net.inbox ==> FillOk(net.w, net.inbox[k], k.chain, k.fill))
  }

  ghost predicate Mail(net: Net) { Counts(net, net.w) && Messages(net) }

  ghost predicate NetInv(net: Net) { WorldInv(net.w) && Mail(net) }

  lemma CountTake(net: Net, n: nat, w: World, id: Id)
    requires n in net.flight
    ensures Count(net.(w := w, flight := net.flight - {n}), id)
         == Count(net, id) - (if MessageId(net.flight[n].msg) == id then 1 else 0)
  {
    SumRemove(net.flight, AboutF(id), n);
  }

  lemma CountPost(net: Net, p: Packet, id: Id)
    requires net.nonce !in net.flight
    ensures Count(Post(net, p), id) == Count(net, id) + (if MessageId(p.msg) == id then 1 else 0)
  {
    SumPut(net.flight, AboutF(id), net.nonce, p);
  }

  lemma CountEmpty(net: Net, slot: Slot, w: World, id: Id)
    requires slot in net.inbox
    ensures Count(net.(w := w, inbox := net.inbox - {slot}), id) == Count(net, id) - (if slot.fill.id == id then 1 else 0)
  {
    SumRemove(net.inbox, AboutI(id), slot);
  }

  /** No message about `id`: none in flight, none waiting. */
  lemma CountZero(net: Net, id: Id)
    requires Count(net, id) == 0
    ensures forall n :: n in net.flight ==> MessageId(net.flight[n].msg) != id
    ensures forall k :: k in net.inbox ==> k.fill.id != id
  {
    SumBounds(net.flight, AboutF(id));
    SumBounds(net.inbox, AboutI(id));
    forall n | n in net.flight
      ensures MessageId(net.flight[n].msg) != id
    {
      assert AboutF(id)(n, net.flight[n]) <= 0;
    }
    forall k | k in net.inbox
      ensures k.fill.id != id
    {
      assert AboutI(id)(k, net.inbox[k]) <= 0;
    }
  }

  /** The messages of a network from which the one about `id` was just taken. */
  ghost predicate Taken(net: Net, id: Id)
  {
    && Messages(net)
    && forall i :: Count(net, i) == if Live(net.w, i) && i != id then 1 else 0
  }

  lemma TakePacket(net: Net, n: nat)
    requires Mail(net) && n in net.flight
    ensures Taken(net.(flight := net.flight - {n}), MessageId(net.flight[n].msg))
    ensures PacketOk(net.w, net.flight[n])
  {
    var id := MessageId(net.flight[n].msg);
    var net1 := net.(flight := net.flight - {n});
    forall i
      ensures Count(net1, i) == if Live(net1.w, i) && i != id then 1 else 0
    {
      CountTake(net, n, net.w, i);
    }
  }

  lemma TakeSlot(net: Net, slot: Slot)
    requires Mail(net) && slot in net.inbox
    ensures Taken(net.(inbox := net.inbox - {slot}), slot.fill.id)
    ensures FillOk(net.w, net.inbox[slot], slot.chain, slot.fill)
  {
    assert FillOk(net.w, net.inbox[slot], slot.chain, slot.fill);
    var net1 := net.(inbox := net.inbox - {slot});
    forall i
      ensures Count(net1, i) == if Live(net1.w, i) && i != slot.fill.id then 1 else 0
    {
      CountEmpty(net, slot, net.w, i);
    }
  }

  /** Once the message about `id` is out, whatever happens to `id` leaves every
      other message good. */
  lemma Rest(net: Net, w': World, id: Id)
    requires Taken(net, id) && Agree(net.w, w', id)
    ensures Messages(net.(w := w'))
    ensures forall i :: i != id ==> Count(net.(w := w'), i) == if Live(w', i) then 1 else 0
    ensures Count(net.(w := w'), id) == 0
  {
    assert Count(net, id) == 0;
    RestMessages(net, w', id);
    forall i | i != id
      ensures Count(net.(w := w'), i) == if Live(w', i) then 1 else 0
    {
      assert Count(net.(w := w'), i) == Count(net, i);
      KeepLive(net.w, w', id, i);
    }
  }

  lemma RestMessages(net: Net, w': World, id: Id)
    requires Messages(net) && Count(net, id) == 0 && Agree(net.w, w', id)
    ensures Messages(net.(w := w'))
  {
    CountZero(net, id);
    forall n | n in net.flight
      ensures PacketOk(w', net.flight[n])
    {
      KeepPacket(net.w, w', id, net.flight[n]);
    }
    forall k | k in net.inbox
      ensures FillOk(w', net.inbox[k], k.chain, k.fill)
    {
      KeepFill(net.w, w', id, net.inbox[k], k.chain, k.fill);
    }
  }

  /** Closing a step that ends `id`. */
  lemma CloseDead(net: Net, w': World, id: Id)
    requires Taken(net, id) && Agree(net.w, w', id) && !Live(w', id)
    ensures Mail(net.(w := w'))
  {
    Rest(net, w', id);
  }

  /** Closing a step that answers about `id`. */
  lemma CloseReply(net: Net, w': World, id: Id, reply: Packet)
    requires Taken(net, id) && Agree(net.w, w', id) && Live(w', id)
    requires MessageId(reply.msg) == id && PacketOk(w', reply)
    ensures Mail(Post(net.(w := w'), reply))
  {
    Rest(net, w', id);
    MessagesPost(net.(w := w'), reply);
    CountsPost(net.(w := w'), w', id, reply);
  }

  lemma MessagesPost(net: Net, p: Packet)
    requires Messages(net) && PacketOk(net.w, p)
    ensures Messages(Post(net, p))
  {}

  lemma CountsPost(net: Net, w: World, id: Id, p: Packet)
    requires Messages(net) && MessageId(p.msg) == id && Live(w, id)
    requires forall i :: Count(net, i) == if Live(w, i) && i != id then 1 else 0
    ensures Counts(Post(net, p), w)
  {
    forall i
      ensures Count(Post(net, p), i) == if Live(w, i) then 1 else 0
    {
      CountPost(net, p, i);
    }
  }

  // ---- what each step keeps

  lemma ConfiguredSet(w: World, c: Chain, s': State)
    requires Configured(w) && c in w.at
    ensures Configured(SetAt(w, c, s'))
  {}

  lemma FundedSet(w: World, c: Chain, s': State)
    requires w.cfg.Keys == w.at.Keys && c in w.at && Covered(s', w.cfg[c])
    requires forall d :: d in w.at ==> Covered(w.at[d], w.cfg[d])
    ensures forall d :: d in w.at ==> Covered(SetAt(w, c, s').at[d], w.cfg[d])
  {}

  lemma HomesSet(w: World, c: Chain, s': State)
    requires Homes(w) && c in w.at && HomesAt(w.home, c, s')
    ensures Homes(SetAt(w, c, s'))
  {}

  lemma AgreeSet(w: World, c: Chain, s': State, id: Id)
    requires c in w.at && AgreeAt(w.at[c], s', id)
    ensures Agree(w, SetAt(w, c, s'), id)
  {}

  /** Away from `id` nothing moved, so bids stay used only by filled requests. */
  lemma UsedSet(w: World, w': World, id: Id)
    requires UsedOk(w) && Agree(w, w', id) && (Requested(w', id) || Unused(w', id))
    ensures UsedOk(w')
  {
    forall i
      ensures Requested(w', i) || Unused(w', i)
    {
      assert Requested(w, i) || Unused(w, i);
      if i != id { KeepLive(w, w', id, i); }
    }
  }

  /** One contract changed what concerns `id`: the world is as sound as before. */
  lemma SetKeeps(w: World, c: Chain, s': State, id: Id)
    requires WorldInv(w) && c in w.at && Covered(s', w.cfg[c])
    requires HomesAt(w.home, c, s') && AgreeAt(w.at[c], s', id)
    requires Requested(SetAt(w, c, s'), id) || Unused(SetAt(w, c, s'), id)
    ensures WorldInv(SetAt(w, c, s')) && Agree(w, SetAt(w, c, s'), id)
  {
    ConfiguredSet(w, c, s');
    FundedSet(w, c, s');
    HomesSet(w, c, s');
    AgreeSet(w, c, s', id);
    UsedSet(w, SetAt(w, c, s'), id);
  }

  /** One contract ends `id`, by settling or by refunding. */
  lemma EndParts(w: World, c: Chain, s': State, id: Id)
    requires Homes(w) && c in w.at && id in w.at[c].orders
    requires s'.orders == w.at[c].orders - {id} && s'.used == w.at[c].used
    requires || (s'.filled == w.at[c].filled && s'.pushes.Keys <= w.at[c].pushes.Keys + {id})
             || (s'.filled == w.at[c].filled - {id} && s'.pushes == w.at[c].pushes && Unused(w, id))
    ensures HomesAt(w.home, c, s') && AgreeAt(w.at[c], s', id)
    ensures Requested(SetAt(w, c, s'), id) || Unused(SetAt(w, c, s'), id)
    ensures !Live(SetAt(w, c, s'), id) && (Spent(SetAt(w, c, s'), id) <==> id in s'.filled)
  {
    assert HomesAt(w.home, c, w.at[c]);
  }

  /** One contract changes neither orders nor requests. */
  lemma StillKeeps(w: World, c: Chain, s': State, id: Id)
    requires WorldInv(w) && c in w.at && Covered(s', w.cfg[c])
    requires s'.orders == w.at[c].orders && s'.used == w.at[c].used && s'.filled == w.at[c].filled
    requires s'.pushes.Keys <= w.at[c].pushes.Keys
    ensures var w' := SetAt(w, c, s');
            WorldInv(w') && Agree(w, w', id) && Live(w', id) == Live(w, id) && Spent(w', id) == Spent(w, id)
  {
    StillParts(w, c, s', id);
    SetKeeps(w, c, s', id);
  }

  lemma StillParts(w: World, c: Chain, s': State, id: Id)
    requires Homes(w) && UsedOk(w) && c in w.at
    requires s'.orders == w.at[c].orders && s'.used == w.at[c].used && s'.filled == w.at[c].filled
    requires s'.pushes.Keys <= w.at[c].pushes.Keys
    ensures HomesAt(w.home, c, s') && AgreeAt(w.at[c], s', id)
    ensures Requested(SetAt(w, c, s'), id) || Unused(SetAt(w, c, s'), id)
    ensures Live(SetAt(w, c, s'), id) == Live(w, id) && Spent(SetAt(w, c, s'), id) == Spent(w, id)
  {
    assert HomesAt(w.home, c, w.at[c]);
    assert Requested(w, id) || Unused(w, id);
  }

  lemma FillKeeps(net: Net, c: Chain, id: Id, r: Request, d: Chain, bid: Terms, words: seq<int>, sig: seq<int>,
                  now: nat, q: Quote)
    requires NetInv(net) && r.minReceived >= 0
    requires Next(net, FillAt(c, id, r, d, bid, words, sig, now, q)).Some?
    ensures NetInv(Next(net, FillAt(c, id, r, d, bid, words, sig, now, q)).value)
  {
    var (s', f) := DoFill(net.w.at[c], net.w.cfg[c], id, r, d, bid, words, sig, now, q).value;
    FillFresh(net, c, id);
    FillCovered(net.w.at[c], net.w.cfg[c], id, r, d, bid, words, sig, now, q);
    FillWorld(net.w, c, s', id);
    FillTerms(net.w.at[c], net.w.cfg[c], id, r, d, bid, words, sig, now, q);
    CloseReply(net, SetAt(net.w, c, s').(home := net.w.home[id := c]), id, Packet(c, d, FillMsg(f)));
  }

  lemma FillWorld(w: World, c: Chain, s': State, id: Id)
    requires WorldInv(w) && c in w.at && (id in w.home ==> w.home[id] == c) && Unused(w, id) && Covered(s', w.cfg[c])
    requires id !in w.at[c].filled && s'.filled == w.at[c].filled + {id}
    requires id in s'.orders && s'.orders == w.at[c].orders[id := s'.orders[id]]
    requires s'.pushes == w.at[c].pushes && s'.used == w.at[c].used
    ensures var w' := SetAt(w, c, s').(home := w.home[id := c]);
            WorldInv(w') && Agree(w, w', id) && Live(w', id) && Unused(w', id)
  {
    var w1 := w.(home := w.home[id := c]);
    HomeKeeps(w, c, id);
    FillParts(w1, c, s', id);
    SetKeeps(w1, c, s', id);
    AgreeHome(w, SetAt(w1, c, s'), c, id);
  }

  lemma AgreeHome(w: World, w': World, c: Chain, id: Id)
    requires Agree(w.(home := w.home[id := c]), w', id)
    ensures Agree(w, w', id)
  {}

  /** A request not filled has no order, no message and no used bid. */
  lemma FillFresh(net: Net, c: Chain, id: Id)
    requires NetInv(net) && c in net.w.at && (id in net.w.home ==> net.w.home[id] == c) && id !in net.w.at[c].filled
    ensures !Requested(net.w, id) && Unused(net.w, id) && !Live(net.w, id) && id !in net.w.at[c].orders && Taken(net, id)
  {
    assert HomesAt(net.w.home, c, net.w.at[c]);
    assert Requested(net.w, id) || Unused(net.w, id);
  }

  /** A request hash is known to its chain from its first fill on. */
  lemma HomeKeeps(w: World, c: Chain, id: Id)
    requires WorldInv(w) && !Requested(w, id) && (id in w.home ==> w.home[id] == c)
    ensures WorldInv(w.(home := w.home[id := c]))
  {
    var w1 := w.(home := w.home[id := c]);
    forall d | d in w1.at
      ensures HomesAt(w1.home, d, w1.at[d])
    {
      assert HomesAt(w.home, d, w.at[d]);
    }
    forall i
      ensures Requested(w1, i) || Unused(w1, i)
    {
      assert Requested(w, i) || Unused(w, i);
    }
  }

  /** A fresh order gives its chain one more live request. */
  lemma FillParts(w: World, c: Chain, s': State, id: Id)
    requires Homes(w) && c in w.at && id in w.home && w.home[id] == c && Unused(w, id)
    requires id !in w.at[c].filled && s'.filled == w.at[c].filled + {id}
    requires id in s'.orders && s'.orders == w.at[c].orders[id := s'.orders[id]]
    requires s'.pushes == w.at[c].pushes && s'.used == w.at[c].used
    ensures HomesAt(w.home, c, s') && AgreeAt(w.at[c], s', id)
    ensures Live(SetAt(w, c, s'), id) && Requested(SetAt(w, c, s'), id) && Unused(SetAt(w, c, s'), id)
  {
    assert HomesAt(w.home, c, w.at[c]);
  }

  lemma ExactDivision(a: int, u: nat)
    requires u >= 1
    ensures a * u / u == a
  {
    var q := a * u / u;
    assert a * u == q * u + a * u % u;
    assert (q + 1) * u == q * u + u && (a + 1) * u == a * u + u;
    Bracket(a, q, u);
    Bracket(q, a, u);
  }

  /** A FILL changes nothing at its destination but the bid it marks as used. */
  lemma ArriveMarks(w: World, src: Chain, dst: Chain, f: Fill, env: PayEnv) returns (s': State)
    requires Arrive(w, src, dst, f, env).Some?
    ensures dst in w.at && s' == w.at[dst].(used := s'.used) && forall h :: h in s'.used ==> h in w.at[dst].used || h.id == f.id
    ensures Arrive(w, src, dst, f, env).value.0 == w || Arrive(w, src, dst, f, env).value.0 == SetAt(w, dst, s')
  {
    s' := OnFill(w.at[dst], w.cfg[dst], src, f, env).value.0;
  }

  lemma ArriveWorld(w: World, src: Chain, dst: Chain, f: Fill, env: PayEnv)
    requires WorldInv(w) && Live(w, f.id) && Arrive(w, src, dst, f, env).Some?
    ensures var w' := Arrive(w, src, dst, f, env).value.0;
            WorldInv(w') && Agree(w, w', f.id) && Live(w', f.id)
  {
    var s' := ArriveMarks(w, src, dst, f, env);
    UsedKeeps(w, dst, s', f.id);
  }

  /** Paid or failed, an arriving FILL is answered by one message its order expects. */
  lemma ArriveKeeps(w: World, src: Chain, dst: Chain, f: Fill, env: PayEnv)
    requires WorldInv(w) && FillOk(w, src, dst, f) && Arrive(w, src, dst, f, env).Some?
    ensures var (w', reply) := Arrive(w, src, dst, f, env).value;
            WorldInv(w') && Agree(w, w', f.id) && Live(w', f.id) && MessageId(reply.msg) == f.id && PacketOk(w', reply)
  {
    ArriveWorld(w, src, dst, f, env);
    ArriveReply(w, src, dst, f, env);
  }

  lemma ArriveReply(w: World, src: Chain, dst: Chain, f: Fill, env: PayEnv)
    requires Configured(w) && FillOk(w, src, dst, f) && Arrive(w, src, dst, f, env).Some?
    ensures var (w', reply) := Arrive(w, src, dst, f, env).value;
            MessageId(reply.msg) == f.id && PacketOk(w', reply)
  {
    var (w', reply) := Arrive(w, src, dst, f, env).value;
    var (s', answer) := OnFill(w.at[dst], w.cfg[dst], src, f, env).value;
    if answer.Paid? {
      ExactDivision(f.amount, w.cfg[dst].units[f.bid.Token()]);
      var o := w.at[src].orders[f.id];
      assert RouteOk(w.link, w.cfg[src], src, Lane(dst, o.stable));
    }
  }

  /** Marking a bid used changes nothing else. */
  lemma UsedKeeps(w: World, d: Chain, s': State, id: Id)
    requires WorldInv(w) && d in w.at && Live(w, id)
    requires s' == w.at[d].(used := s'.used) && forall h :: h in s'.used ==> h in w.at[d].used || h.id == id
    ensures var w' := SetAt(w, d, s');
            && WorldInv(w') && Agree(w, w', id) && Live(w', id)
            && w'.at[w.home[id]].orders[id] == w.at[w.home[id]].orders[id]
  {
    UsedCovered(w.at[d], s', w.cfg[d]);
    UsedParts(w, d, s', id);
    SetKeeps(w, d, s', id);
  }

  lemma UsedCovered(s: State, s': State, cfg: Config)
    requires Covered(s, cfg) && s' == s.(used := s'.used)
    ensures Covered(s', cfg)
  {
    forall t | t != cfg.xlm
      ensures Slack(s', t) >= 0
    {
      assert Slack(s', t) == Slack(s, t);
    }
  }

  lemma UsedParts(w: World, d: Chain, s': State, id: Id)
    requires Homes(w) && d in w.at && Live(w, id)
    requires s' == w.at[d].(used := s'.used) && forall h :: h in s'.used ==> h in w.at[d].used || h.id == id
    ensures HomesAt(w.home, d, s') && AgreeAt(w.at[d], s', id)
    ensures Requested(SetAt(w, d, s'), id)
  {
    assert HomesAt(w.home, d, w.at[d]) && HomesAt(w.home, w.home[id], w.at[w.home[id]]);
  }

  /** FAIL and PAID end the order they are about: FAIL frees its request, PAID
      spends it. */
  lemma LandKeeps(w: World, p: Packet, relayer: Option<Address>, refused: set<Account>, route: Route)
    requires WorldInv(w) && PacketOk(w, p) && Land(w, p, relayer, refused, route).Some?
    ensures var w' := Land(w, p, relayer, refused, route).value;
            var id := MessageId(p.msg);
            && WorldInv(w') && Agree(w, w', id) && !Live(w', id)
            && (Spent(w', id) <==> p.msg.PaidMsg?)
  {
    var id := MessageId(p.msg);
    var s := w.at[p.dst];
    match p.msg
    case FillMsg(_) =>
    case FailMsg(_) =>
      FailCovered(s, w.cfg[p.dst], p.src, id, refused);
      EndParts(w, p.dst, OnFail(s, w.cfg[p.dst], p.src, id, refused).value, id);
      SetKeeps(w, p.dst, OnFail(s, w.cfg[p.dst], p.src, id, refused).value, id);
    case PaidMsg(_, token, wire) =>
      var amount := wire * w.cfg[p.dst].units[token];
      PaidCovered(s, w.cfg[p.dst], p.src, id, token, amount, relayer, refused, route);
      EndParts(w, p.dst, OnPaid(s, w.cfg[p.dst], p.src, id, token, amount, relayer, refused, route).value, id);
      SetKeeps(w, p.dst, OnPaid(s, w.cfg[p.dst], p.src, id, token, amount, relayer, refused, route).value, id);
  }

  /** Steps inside one contract leave every order and request alone. */
  lemma LocalKeeps(w: World, step: Step, id: Id)
    requires WorldInv(w) && Local(w, step).Some?
    ensures SameFor(w, Local(w, step).value, id)
  {
    match step
    case PayoutAt(c, token, amount, to, relayer, refused) => PayoutKeeps(w, c, token, amount, to, relayer, refused, id);
    case PushAt(c, i, paid, returned, refused) => PushKeeps(w, c, i, paid, returned, refused, id);
    case WithdrawAt(c, to, token, refused) => WithdrawKeeps(w, c, to, token, refused, id);
    case DonateAt(c, token, amount) => DonateKeeps(w, c, token, amount, id);
  }

  /** A world in which `id` stands as it did. */
  ghost predicate SameFor(w: World, w': World, id: Id)
  {
    WorldInv(w') && Agree(w, w', id) && Live(w', id) == Live(w, id) && Spent(w', id) == Spent(w, id)
  }

  lemma PayoutKeeps(w: World, c: Chain, token: Token, amount: nat, to: Address, relayer: Option<Address>,
                    refused: set<Account>, id: Id)
    requires WorldInv(w) && Local(w, PayoutAt(c, token, amount, to, relayer, refused)).Some?
    ensures SameFor(w, Local(w, PayoutAt(c, token, amount, to, relayer, refused)).value, id)
  {
    PayoutCovered(w.at[c], w.cfg[c], token, amount, to, relayer, refused);
    StillKeeps(w, c, OnPayout(w.at[c], w.cfg[c], token, amount, to, relayer, refused).value, id);
  }

  lemma PushKeeps(w: World, c: Chain, i: Id, paid: nat, returned: nat, refused: set<Account>, id: Id)
    requires WorldInv(w) && Local(w, PushAt(c, i, paid, returned, refused)).Some?
    ensures SameFor(w, Local(w, PushAt(c, i, paid, returned, refused)).value, id)
  {
    PushCovered(w.at[c], w.cfg[c], i, paid, returned, refused);
    StillKeeps(w, c, DoPush(w.at[c], w.cfg[c], i, paid, returned, refused).value.0, id);
  }

  lemma WithdrawKeeps(w: World, c: Chain, to: Address, token: Token, refused: set<Account>, id: Id)
    requires WorldInv(w) && Local(w, WithdrawAt(c, to, token, refused)).Some?
    ensures SameFor(w, Local(w, WithdrawAt(c, to, token, refused)).value, id)
  {
    WithdrawCovered(w.at[c], w.cfg[c], to, token, refused);
    StillKeeps(w, c, DoWithdraw(w.at[c], w.cfg[c], to, token, refused).value, id);
  }

  lemma DonateKeeps(w: World, c: Chain, token: Token, amount: nat, id: Id)
    requires WorldInv(w) && Local(w, DonateAt(c, token, amount)).Some?
    ensures SameFor(w, Local(w, DonateAt(c, token, amount)).value, id)
  {
    var s' := Credit(w.at[c], token, amount);
    DonateCovered(w.at[c], w.cfg[c], token, amount);
    assert Local(w, DonateAt(c, token, amount)) == Some(SetAt(w, c, s'));
    StillKeeps(w, c, s', id);
  }

  lemma DonateCovered(s: State, cfg: Config, token: Token, amount: nat)
    requires Covered(s, cfg)
    ensures var s' := Credit(s, token, amount);
            && Covered(s', cfg) && s'.orders == s.orders && s'.used == s.used && s'.filled == s.filled && s'.pushes == s.pushes
  {
    var s' := Credit(s, token, amount);
    forall t | t != cfg.xlm
      ensures Slack(s', t) >= 0
    {
      assert Slack(s, t) >= 0;
      CreditSlack(s, token, amount, t);
    }
  }

  /** A fill is held to a floor that is not negative. */
  predicate Floored(step: Step) { step.FillAt? ==> step.request.minReceived >= 0 }

  /** Every step keeps the invariant. */
  lemma StepKeeps(net: Net, step: Step)
    requires NetInv(net) && Floored(step) && Next(net, step).Some?
    ensures NetInv(Next(net, step).value)
  {
    match step
    case FillAt(c, id, r, d, bid, words, sig, now, q) => FillKeeps(net, c, id, r, d, bid, words, sig, now, q);
    case DeliverFill(n, env) => DeliverKeeps(net, n, env);
    case ToInbox(n) => InboxKeeps(net, n);
    case Execute(slot, env) => ExecuteKeeps(net, slot, env);
    case DeliverFail(n, refused) => LandingKeeps(net, n, None, refused, Route(0, 0, false));
    case DeliverPaid(n, relayer, refused, route) =>
      assert Next(net, step) == NextLand(net, n, relayer, refused, route);
      LandingKeeps(net, n, relayer, refused, route);
    case _ => LocalKeepsMail(net, step);
  }

  lemma DeliverKeeps(net: Net, n: nat, env: PayEnv)
    requires NetInv(net) && Next(net, DeliverFill(n, env)).Some?
    ensures NetInv(Next(net, DeliverFill(n, env)).value)
  {
    TakePacket(net, n);
    AnswerKeeps(net.(flight := net.flight - {n}), net.flight[n].src, net.flight[n].dst, net.flight[n].msg.fill, env);
  }

  lemma ExecuteKeeps(net: Net, slot: Slot, env: PayEnv)
    requires NetInv(net) && Next(net, Execute(slot, env)).Some?
    ensures NetInv(Next(net, Execute(slot, env)).value)
  {
    var rest := net.(inbox := net.inbox - {slot});
    assert Next(net, Execute(slot, env)) == NextAnswer(rest, net.inbox[slot], slot.chain, slot.fill, env);
    TakeSlot(net, slot);
    AnswerKeeps(rest, net.inbox[slot], slot.chain, slot.fill, env);
  }

  lemma AnswerKeeps(rest: Net, src: Chain, dst: Chain, f: Fill, env: PayEnv)
    requires WorldInv(rest.w) && Taken(rest, f.id) && FillOk(rest.w, src, dst, f)
    requires NextAnswer(rest, src, dst, f, env).Some?
    ensures NetInv(NextAnswer(rest, src, dst, f, env).value)
  {
    ArriveKeeps(rest.w, src, dst, f, env);
    var (w', reply) := Arrive(rest.w, src, dst, f, env).value;
    CloseReply(rest, w', f.id, reply);
  }

  lemma LandingKeeps(net: Net, n: nat, relayer: Option<Address>, refused: set<Account>, route: Route)
    requires NetInv(net) && n in net.flight && NextLand(net, n, relayer, refused, route).Some?
    ensures NetInv(NextLand(net, n, relayer, refused, route).value)
  {
    TakePacket(net, n);
    LandKeeps(net.w, net.flight[n], relayer, refused, route);
    CloseDead(net.(flight := net.flight - {n}), Land(net.w, net.flight[n], relayer, refused, route).value,
              MessageId(net.flight[n].msg));
  }

  /** Filing a FILL in the inbox loses nothing: its slot was free. */
  lemma InboxKeeps(net: Net, n: nat)
    requires Mail(net) && n in net.flight && net.flight[n].msg.FillMsg?
    ensures Slot(net.flight[n].dst, net.flight[n].msg.fill) !in net.inbox
    ensures Mail(net.(flight := net.flight - {n},
                      inbox := net.inbox[Slot(net.flight[n].dst, net.flight[n].msg.fill) := net.flight[n].src]))
  {
    var p := net.flight[n];
    TakePacket(net, n);
    FileSlot(net.(flight := net.flight - {n}), Slot(p.dst, p.msg.fill), p.src);
  }

  lemma FileSlot(net: Net, slot: Slot, src: Chain)
    requires Taken(net, slot.fill.id) && FillOk(net.w, src, slot.chain, slot.fill)
    ensures slot !in net.inbox && Mail(net.(inbox := net.inbox[slot := src]))
  {
    assert Count(net, slot.fill.id) == 0;
    CountZero(net, slot.fill.id);
    var net' := net.(inbox := net.inbox[slot := src]);
    forall i
      ensures Count(net', i) == if Live(net.w, i) then 1 else 0
    {
      SumPut(net.inbox, AboutI(i), slot, src);
    }
  }

  lemma LocalKeepsMail(net: Net, step: Step)
    requires NetInv(net) && Local(net.w, step).Some?
    ensures NetInv(net.(w := Local(net.w, step).value))
  {
    LocalKeepsMessages(net, step);
    LocalKeepsCounts(net, step);
    LocalKeeps(net.w, step, 0);
  }

  lemma LocalKeepsCounts(net: Net, step: Step)
    requires WorldInv(net.w) && Counts(net, net.w) && Local(net.w, step).Some?
    ensures Counts(net.(w := Local(net.w, step).value), Local(net.w, step).value)
  {
    var w' := Local(net.w, step).value;
    forall i
      ensures Live(w', i) == Live(net.w, i)
    {
      LocalEffect(net.w, step, i);
    }
    SameCounts(net, w');
  }

  lemma SameCounts(net: Net, w': World)
    requires Counts(net, net.w) && forall i :: Live(w', i) == Live(net.w, i)
    ensures Counts(net.(w := w'), w')
  {
    forall i
      ensures Count(net.(w := w'), i) == if Live(w', i) then 1 else 0
    {
      assert Count(net.(w := w'), i) == Count(net, i);
    }
  }

  /** Steps inside one contract touch no order and no request. */
  lemma LocalEffect(w: World, step: Step, id: Id)
    requires WorldInv(w) && Local(w, step).Some?
    ensures Effect(w, Local(w, step).value, id, Other)
  {
    LocalKeeps(w, step, id);
  }

  lemma LocalKeepsMessages(net: Net, step: Step)
    requires WorldInv(net.w) && Messages(net) && Local(net.w, step).Some?
    ensures Messages(net.(w := Local(net.w, step).value))
  {
    var w' := Local(net.w, step).value;
    forall n | n in net.flight
      ensures PacketOk(w', net.flight[n])
    {
      LocalKeepsPacket(net.w, step, net.flight[n]);
    }
    forall k | k in net.inbox
      ensures FillOk(w', net.inbox[k], k.chain, k.fill)
    {
      LocalKeeps(net.w, step, k.fill.id + 1);
      KeepFill(net.w, w', k.fill.id + 1, net.inbox[k], k.chain, k.fill);
    }
  }

  lemma LocalKeepsPacket(w: World, step: Step, p: Packet)
    requires WorldInv(w) && Local(w, step).Some? && PacketOk(w, p)
    ensures PacketOk(Local(w, step).value, p)
  {
    LocalKeeps(w, step, MessageId(p.msg) + 1);
    KeepPacket(w, Local(w, step).value, MessageId(p.msg) + 1, p);
  }

  // ---- whole runs

  ghost predicate Init(net: Net)
  {
    && net.w.cfg.Keys == net.w.at.Keys && (forall c :: c in net.w.cfg ==> ConfigOk(net.w.link, net.w.cfg[c], c))
    && (forall c :: c in net.w.at ==> net.w.at[c] == Empty)
    && net.w.home == map[] && net.flight == map[] && net.inbox == map[]
  }

  lemma EmptyCovered(cfg: Config)
    ensures Covered(Empty, cfg)
  {
    forall t | t != cfg.xlm
      ensures Slack(Empty, t) >= 0
    {}
  }

  lemma InitInv(net: Net)
    requires Init(net)
    ensures NetInv(net)
  {
    forall c | c in net.w.at
      ensures Covered(net.w.at[c], net.w.cfg[c])
    {
      EmptyCovered(net.w.cfg[c]);
    }
    forall id
      ensures Count(net, id) == 0
    {
      SumZero(net.flight, AboutF(id));
      SumZero(net.inbox, AboutI(id));
    }
  }

  /** A run: steps that go through change the network, the others do nothing. */
  ghost function Run(net: Net, steps: seq<Step>): Net
    requires NetInv(net) && forall i :: 0 <= i < |steps| ==> Floored(steps[i])
    ensures NetInv(Run(net, steps))
    decreases |steps|
  {
    if steps == [] then net
    else
      var last := steps[|steps| - 1];
      var net1 := Run(net, steps[..|steps| - 1]);
      if Next(net1, last).Some? then
        StepKeeps(net1, last);
        Next(net1, last).value
      else net1
  }

  /** What a step did to `id`: escrowed it, gave the escrow back, or settled it. */
  datatype Event = WasFilled | WasRefunded | WasSettled | Other

  ghost function EventOf(net: Net, step: Step, id: Id): Event
  {
    match step
    case FillAt(_, i, _, _, _, _, _, _, _) => if i == id then WasFilled else Other
    case DeliverFail(n, _) => if n in net.flight && MessageId(net.flight[n].msg) == id then WasRefunded else Other
    case DeliverPaid(n, _, _, _) => if n in net.flight && MessageId(net.flight[n].msg) == id then WasSettled else Other
    case _ => Other
  }

  ghost function Times(net: Net, steps: seq<Step>, id: Id, e: Event): nat
    requires NetInv(net) && forall i :: 0 <= i < |steps| ==> Floored(steps[i])
    decreases |steps|
  {
    if steps == [] then 0
    else
      var front, last := steps[..|steps| - 1], steps[|steps| - 1];
      var net1 := Run(net, front);
      Times(net, front, id, e) + (if Next(net1, last).Some? && EventOf(net1, last, id) == e then 1 else 0)
  }

  /** What an event does to `id`. */
  ghost predicate Effect(w: World, w': World, id: Id, e: Event)
  {
    match e
    case WasFilled => !Live(w, id) && !Spent(w, id) && Live(w', id) && !Spent(w', id)
    case WasRefunded => Live(w, id) && !Live(w', id) && !Spent(w', id)
    case WasSettled => Live(w, id) && !Live(w', id) && Spent(w', id)
    case Other => Live(w', id) == Live(w, id) && Spent(w', id) == Spent(w, id)
  }

  ghost predicate EventMoves(net: Net, step: Step, id: Id)
    requires Configured(net.w) && Next(net, step).Some?
  {
    Effect(net.w, Next(net, step).value.w, id, EventOf(net, step, id))
  }

  /** A step changes whether `id` is live or spent only by its event. */
  lemma StepEvent(net: Net, step: Step, id: Id)
    requires NetInv(net) && Next(net, step).Some?
    ensures EventMoves(net, step, id)
  {
    match step
    case FillAt(c, i, r, d, bid, words, sig, now, q) => FillAtEvent(net, step, id);
    case DeliverFill(n, env) => DeliverEvent(net, n, env, id);
    case ToInbox(n) => InboxEvent(net, n, id);
    case Execute(slot, env) => ExecuteEvent(net, slot, env, id);
    case DeliverFail(n, refused) => FailEvent(net, n, refused, id);
    case DeliverPaid(n, relayer, refused, route) => PaidEvent(net, n, relayer, refused, route, id);
    case _ => LocalEvent(net, step, id);
  }

  lemma FillAtEvent(net: Net, step: Step, id: Id)
    requires Configured(net.w) && Homes(net.w) && step.FillAt? && Next(net, step).Some?
    ensures EventMoves(net, step, id)
  {
    var FillAt(c, i, r, d, bid, words, sig, now, q) := step;
    FillEvent(net, c, i, r, d, bid, words, sig, now, q, id);
  }

  lemma InboxEvent(net: Net, n: nat, id: Id)
    requires Configured(net.w) && Next(net, ToInbox(n)).Some?
    ensures EventMoves(net, ToInbox(n), id)
  {}

  lemma FailEvent(net: Net, n: nat, refused: set<Account>, id: Id)
    requires WorldInv(net.w) && Messages(net) && Next(net, DeliverFail(n, refused)).Some?
    ensures EventMoves(net, DeliverFail(n, refused), id)
  {
    LandEvent(net, n, None, refused, Route(0, 0, false), id);
  }

  lemma PaidEvent(net: Net, n: nat, relayer: Option<Address>, refused: set<Account>, route: Route, id: Id)
    requires WorldInv(net.w) && Messages(net) && Next(net, DeliverPaid(n, relayer, refused, route)).Some?
    ensures EventMoves(net, DeliverPaid(n, relayer, refused, route), id)
  {
    assert NextLand(net, n, relayer, refused, route) == Next(net, DeliverPaid(n, relayer, refused, route));
    LandEvent(net, n, relayer, refused, route, id);
  }

  lemma DeliverEvent(net: Net, n: nat, env: PayEnv, id: Id)
    requires Configured(net.w) && Next(net, DeliverFill(n, env)).Some?
    ensures EventMoves(net, DeliverFill(n, env), id)
  {
    ArriveEffect(net.w, net.flight[n].src, net.flight[n].dst, net.flight[n].msg.fill, env, id);
  }

  lemma ExecuteEvent(net: Net, slot: Slot, env: PayEnv, id: Id)
    requires Configured(net.w) && Next(net, Execute(slot, env)).Some?
    ensures EventMoves(net, Execute(slot, env), id)
  {
    ArriveEffect(net.w, net.inbox[slot], slot.chain, slot.fill, env, id);
  }

  lemma LocalEvent(net: Net, step: Step, id: Id)
    requires WorldInv(net.w) && Local(net.w, step).Some?
    ensures Next(net, step).Some? && EventMoves(net, step, id)
  {
    LocalEffect(net.w, step, id);
  }

  lemma FillEvent(net: Net, c: Chain, i: Id, r: Request, d: Chain, bid: Terms, words: seq<int>, sig: seq<int>,
                  now: nat, q: Quote, id: Id)
    requires Configured(net.w) && Homes(net.w) && NextFill(net, c, i, r, d, bid, words, sig, now, q).Some?
    ensures Effect(net.w, NextFill(net, c, i, r, d, bid, words, sig, now, q).value.w, id, if i == id then WasFilled else Other)
  {
    FillDead(net.w, c, i);
    FillEffect(net.w, c, i, DoFill(net.w.at[c], net.w.cfg[c], i, r, d, bid, words, sig, now, q).value.0, id);
  }

  lemma FillDead(w: World, c: Chain, id: Id)
    requires Homes(w) && c in w.at && (id in w.home ==> w.home[id] == c) && id !in w.at[c].filled
    ensures !Live(w, id) && !Spent(w, id)
  {
    assert HomesAt(w.home, c, w.at[c]);
  }

  lemma FillEffect(w: World, c: Chain, i: Id, s': State, id: Id)
    requires c in w.at && !Live(w, i) && !Spent(w, i) && (i in w.home ==> w.home[i] == c)
    requires i in s'.orders && s'.orders.Keys == w.at[c].orders.Keys + {i} && s'.filled == w.at[c].filled + {i}
    ensures Effect(w, SetAt(w, c, s').(home := w.home[i := c]), id, if i == id then WasFilled else Other)
  {}

  lemma ArriveEffect(w: World, src: Chain, dst: Chain, f: Fill, env: PayEnv, id: Id)
    requires Arrive(w, src, dst, f, env).Some?
    ensures Effect(w, Arrive(w, src, dst, f, env).value.0, id, Other)
  {}

  lemma LandEvent(net: Net, n: nat, relayer: Option<Address>, refused: set<Account>, route: Route, id: Id)
    requires WorldInv(net.w) && Messages(net) && n in net.flight && NextLand(net, n, relayer, refused, route).Some?
    ensures var p := net.flight[n];
            Effect(net.w, NextLand(net, n, relayer, refused, route).value.w, id,
                   if MessageId(p.msg) != id then Other else if p.msg.PaidMsg? then WasSettled else WasRefunded)
  {
    LandEffect(net.w, net.flight[n], relayer, refused, route, id);
  }

  lemma LandEffect(w: World, p: Packet, relayer: Option<Address>, refused: set<Account>, route: Route, id: Id)
    requires WorldInv(w) && PacketOk(w, p) && Land(w, p, relayer, refused, route).Some?
    ensures Effect(w, Land(w, p, relayer, refused, route).value, id,
                   if MessageId(p.msg) != id then Other else if p.msg.PaidMsg? then WasSettled else WasRefunded)
  {
    LandKeeps(w, p, relayer, refused, route);
    if MessageId(p.msg) != id { KeepLive(w, Land(w, p, relayer, refused, route).value, MessageId(p.msg), id); }
  }

  lemma {:induction false} RunTallied(net: Net, steps: seq<Step>, id: Id)
    requires Init(net) && NetInv(net) && forall i :: 0 <= i < |steps| ==> Floored(steps[i])
    ensures Tallied(net, steps, id)
    decreases |steps|
  {
    if steps != [] {
      var front, last := steps[..|steps| - 1], steps[|steps| - 1];
      RunTallied(net, front, id);
      var net1 := Run(net, front);
      if Next(net1, last).Some? {
        StepEvent(net1, last, id);
        TallyStep(net, steps, id);
      } else {
        TallyIdle(net, steps, id);
      }
    }
  }

  /** Each escrow leaves once. In every run from nothing, the fills of a request
      are its refunds, at most one settlement, and one more if it is live; and a
      settled request is spent for good. */
  lemma EscrowLeavesOnce(net: Net, steps: seq<Step>, id: Id) returns (end: Net)
    requires Init(net) && forall i :: 0 <= i < |steps| ==> Floored(steps[i])
    ensures NetInv(net) && end == Run(net, steps)
    ensures Times(net, steps, id, WasFilled)
         == Times(net, steps, id, WasRefunded) + Times(net, steps, id, WasSettled) + (if Live(end.w, id) then 1 else 0)
    ensures Times(net, steps, id, WasSettled) == (if Spent(end.w, id) then 1 else 0)
  {
    InitInv(net);
    end := Run(net, steps);
    RunTallied(net, steps, id);
  }

  /** Fills are refunds, settlements and a live order; a settlement is for good. */
  ghost predicate Tallied(net: Net, steps: seq<Step>, id: Id)
    requires NetInv(net) && forall i :: 0 <= i < |steps| ==> Floored(steps[i])
  {
    var w := Run(net, steps).w;
    && Times(net, steps, id, WasFilled)
       == Times(net, steps, id, WasRefunded) + Times(net, steps, id, WasSettled) + (if Live(w, id) then 1 else 0)
    && Times(net, steps, id, WasSettled) == (if Spent(w, id) then 1 else 0)
  }

  lemma TallyStep(net: Net, steps: seq<Step>, id: Id)
    requires NetInv(net) && steps != [] && forall i :: 0 <= i < |steps| ==> Floored(steps[i])
    requires var front, last := steps[..|steps| - 1], steps[|steps| - 1];
             var net1 := Run(net, front);
             && Tallied(net, front, id) && Next(net1, last).Some?
             && Effect(net1.w, Next(net1, last).value.w, id, EventOf(net1, last, id))
    ensures Tallied(net, steps, id)
  {
    var front, last := steps[..|steps| - 1], steps[|steps| - 1];
    var net1 := Run(net, front);
    assert Run(net, steps) == Next(net1, last).value;
    EffectTally(net1.w, Next(net1, last).value.w, id, EventOf(net1, last, id),
                Times(net, front, id, WasFilled), Times(net, front, id, WasRefunded), Times(net, front, id, WasSettled));
  }

  lemma EffectTally(w: World, w': World, id: Id, e: Event, fills: nat, refunds: nat, settles: nat)
    requires Effect(w, w', id, e)
    requires fills == refunds + settles + (if Live(w, id) then 1 else 0) && settles == (if Spent(w, id) then 1 else 0)
    ensures fills + (if e == WasFilled then 1 else 0)
         == refunds + (if e == WasRefunded then 1 else 0) + settles + (if e == WasSettled then 1 else 0) + (if Live(w', id) then 1 else 0)
    ensures settles + (if e == WasSettled then 1 else 0) == (if Spent(w', id) then 1 else 0)
  {}

  lemma TallyIdle(net: Net, steps: seq<Step>, id: Id)
    requires NetInv(net) && steps != [] && forall i :: 0 <= i < |steps| ==> Floored(steps[i])
    requires Tallied(net, steps[..|steps| - 1], id) && Next(Run(net, steps[..|steps| - 1]), steps[|steps| - 1]).None?
    ensures Tallied(net, steps, id)
  {
    assert Run(net, steps) == Run(net, steps[..|steps| - 1]);
  }

  /** In every reachable state one message, and only one, is about each live
      order, none about any other request, and every contract holds what it owes. */
  lemma RunSafe(net: Net, steps: seq<Step>, id: Id) returns (end: Net)
    requires Init(net) && forall i :: 0 <= i < |steps| ==> Floored(steps[i])
    ensures NetInv(net) && end == Run(net, steps)
    ensures Count(end, id) == (if Live(end.w, id) then 1 else 0)
    ensures Configured(end.w) && forall c :: c in end.w.at ==> Covered(end.w.at[c], end.w.cfg[c])
  {
    InitInv(net);
    end := Run(net, steps);
  }

  // ---- the maker's side

  /** The answer a step gets from a maker's chain, if it brings a FILL there. */
  ghost function Answer(net: Net, step: Step): Option<Message>
  {
    match step
    case DeliverFill(n, env) =>
      if n !in net.flight || !net.flight[n].msg.FillMsg? then None
      else ReplyTo(net.w, net.flight[n].src, net.flight[n].dst, net.flight[n].msg.fill, env)
    case Execute(slot, env) =>
      if slot !in net.inbox then None else ReplyTo(net.w, net.inbox[slot], slot.chain, slot.fill, env)
    case _ => None
  }

  ghost function ReplyTo(w: World, src: Chain, dst: Chain, f: Fill, env: PayEnv): Option<Message>
  {
    match Arrive(w, src, dst, f, env) case None => None case Some((_, reply)) => Some(reply.msg)
  }

  /** The step takes a payment from a maker for request `id`. */
  ghost predicate PaysFor(net: Net, step: Step, id: Id)
  {
    Answer(net, step).Some? && Answer(net, step).value.PaidMsg? && Answer(net, step).value.id == id
  }

  /** How often makers paid for `id` in a run. */
  ghost function Payments(net: Net, steps: seq<Step>, id: Id): nat
    requires NetInv(net) && forall i :: 0 <= i < |steps| ==> Floored(steps[i])
    decreases |steps|
  {
    if steps == [] then 0
    else
      var front, last := steps[..|steps| - 1], steps[|steps| - 1];
      var net1 := Run(net, front);
      Payments(net, front, id) + (if Next(net1, last).Some? && PaysFor(net1, last, id) then 1 else 0)
  }

  ghost function PaidF(id: Id): (nat, Packet) -> int
  {
    (n: nat, p: Packet) => if p.msg.PaidMsg? && p.msg.id == id then 1 else 0
  }

  /** Payments for `id` on their way. */
  ghost function PaidInFlight(net: Net, id: Id): int { Sum(net.flight, PaidF(id)) }

  function IsPaid(m: Message, id: Id): int { if m.PaidMsg? && m.id == id then 1 else 0 }

  lemma PaidPost(net: Net, p: Packet, id: Id)
    requires net.nonce !in net.flight
    ensures PaidInFlight(Post(net, p), id) == PaidInFlight(net, id) + IsPaid(p.msg, id)
  {
    SumPut(net.flight, PaidF(id), net.nonce, p);
  }

  lemma PaidTake(net: Net, n: nat, w: World, id: Id)
    requires n in net.flight
    ensures PaidInFlight(net.(w := w, flight := net.flight - {n}), id) == PaidInFlight(net, id) - IsPaid(net.flight[n].msg, id)
  {
    SumRemove(net.flight, PaidF(id), n);
  }

  lemma PaidAnswer(rest: Net, src: Chain, dst: Chain, f: Fill, env: PayEnv, id: Id)
    requires rest.nonce !in rest.flight && NextAnswer(rest, src, dst, f, env).Some?
    ensures ReplyTo(rest.w, src, dst, f, env).Some?
    ensures PaidInFlight(NextAnswer(rest, src, dst, f, env).value, id)
         == PaidInFlight(rest, id) + IsPaid(ReplyTo(rest.w, src, dst, f, env).value, id)
  {
    var (w', reply) := Arrive(rest.w, src, dst, f, env).value;
    PaidPost(rest.(w := w'), reply, id);
  }

  /** Payments on their way go up by what makers pay and down by what settles. */
  ghost predicate PaidMoves(net: Net, step: Step, id: Id)
    requires Configured(net.w) && Next(net, step).Some?
  {
    PaidInFlight(Next(net, step).value, id) == PaidInFlight(net, id)
      + (if PaysFor(net, step, id) then 1 else 0) - (if EventOf(net, step, id) == WasSettled then 1 else 0)
  }

  lemma PaidStep(net: Net, step: Step, id: Id)
    requires Configured(net.w) && Messages(net) && Next(net, step).Some?
    ensures PaidMoves(net, step, id)
  {
    match step
    case FillAt(c, i, r, d, bid, words, sig, now, q) => PaidFill(net, step, id);
    case DeliverFill(n, env) => PaidDeliver(net, n, env, id);
    case ToInbox(n) => PaidInbox(net, n, id);
    case Execute(slot, env) => PaidExecute(net, slot, env, id);
    case DeliverFail(n, refused) => PaidLand(net, step, n, id);
    case DeliverPaid(n, relayer, refused, route) => PaidLand(net, step, n, id);
    case _ => PaidLocal(net, step, id);
  }

  lemma PaidLocal(net: Net, step: Step, id: Id)
    requires Configured(net.w) && Local(net.w, step).Some? && Next(net, step).Some?
    ensures PaidMoves(net, step, id)
  {}

  lemma PaidInbox(net: Net, n: nat, id: Id)
    requires Configured(net.w) && Next(net, ToInbox(n)).Some?
    ensures PaidMoves(net, ToInbox(n), id)
  {
    PaidTake(net, n, net.w, id);
  }

  lemma PaidFill(net: Net, step: Step, id: Id)
    requires Configured(net.w) && Messages(net) && step.FillAt? && Next(net, step).Some?
    ensures PaidMoves(net, step, id)
  {
    var FillAt(c, i, r, d, bid, words, sig, now, q) := step;
    var (s', f) := DoFill(net.w.at[c], net.w.cfg[c], i, r, d, bid, words, sig, now, q).value;
    PaidPost(net.(w := SetAt(net.w, c, s').(home := net.w.home[i := c])), Packet(c, d, FillMsg(f)), id);
  }

  lemma PaidDeliver(net: Net, n: nat, env: PayEnv, id: Id)
    requires Configured(net.w) && Messages(net) && Next(net, DeliverFill(n, env)).Some?
    ensures PaidMoves(net, DeliverFill(n, env), id)
  {
    PaidTake(net, n, net.w, id);
    PaidAnswer(net.(flight := net.flight - {n}), net.flight[n].src, net.flight[n].dst, net.flight[n].msg.fill, env, id);
  }

  lemma PaidExecute(net: Net, slot: Slot, env: PayEnv, id: Id)
    requires Configured(net.w) && Messages(net) && Next(net, Execute(slot, env)).Some?
    ensures PaidMoves(net, Execute(slot, env), id)
  {
    var rest := net.(inbox := net.inbox - {slot});
    assert Next(net, Execute(slot, env)) == NextAnswer(rest, net.inbox[slot], slot.chain, slot.fill, env);
    PaidAnswer(rest, net.inbox[slot], slot.chain, slot.fill, env, id);
  }

  lemma PaidLand(net: Net, step: Step, n: nat, id: Id)
    requires Configured(net.w) && n in net.flight && Next(net, step).Some?
    requires (step.DeliverFail? || step.DeliverPaid?) && step.n == n
    ensures PaidMoves(net, step, id)
  {
    PaidTake(net, n, Next(net, step).value.w, id);
  }

  lemma {:induction false} PaymentsTallied(net: Net, steps: seq<Step>, id: Id)
    requires Init(net) && NetInv(net) && forall i :: 0 <= i < |steps| ==> Floored(steps[i])
    ensures Payments(net, steps, id) == Times(net, steps, id, WasSettled) + PaidInFlight(Run(net, steps), id)
    decreases |steps|
  {
    if steps == [] {
      SumZero(net.flight, PaidF(id));
    } else {
      var front, last := steps[..|steps| - 1], steps[|steps| - 1];
      PaymentsTallied(net, front, id);
      if Next(Run(net, front), last).Some? { PaidStep(Run(net, front), last, id); }
    }
  }

  /** At most one payment is on its way, and only for a live order. */
  lemma PaidWithinCount(net: Net, id: Id)
    requires Counts(net, net.w)
    ensures 0 <= PaidInFlight(net, id) <= (if Live(net.w, id) then 1 else 0)
  {
    SumBounds(net.flight, PaidF(id));
    SumBounds(net.inbox, AboutI(id));
    SumLess(net.flight, PaidF(id), AboutF(id));
    assert Count(net, id) == if Live(net.w, id) then 1 else 0;
  }

  /** Over any run makers pay for a request at most once: once for its settlement, or
      once for the payment still on its way to its live order. */
  lemma MakerPaysOnce(net: Net, steps: seq<Step>, id: Id) returns (end: Net)
    requires Init(net) && forall i :: 0 <= i < |steps| ==> Floored(steps[i])
    ensures NetInv(net) && end == Run(net, steps)
    ensures Payments(net, steps, id) == Times(net, steps, id, WasSettled) + PaidInFlight(end, id) <= 1
    ensures PaidInFlight(end, id) > 0 ==> Live(end.w, id)
  {
    end := EscrowLeavesOnce(net, steps, id);
    PaymentsTallied(net, steps, id);
    PaidWithinCount(end, id);
  }

  /** A payment is for exactly the FILL's amount in wire units, within the cap of a
      bid the maker signed, in time, on a bid not used before and used from then on. */
  lemma PaymentWithinBid(w: World, src: Chain, dst: Chain, f: Fill, env: PayEnv)
    requires Configured(w) && Arrive(w, src, dst, f, env).Some? && Arrive(w, src, dst, f, env).value.1.msg.PaidMsg?
    ensures var (w', reply) := Arrive(w, src, dst, f, env).value;
            && reply.msg.id == f.id && reply.msg.wire == f.amount <= f.bid.maxAmount
            && env.signed && env.pulled && !env.cancelled && env.now <= f.bid.deadline
            && HashOf(src, f) !in w.at[dst].used && HashOf(src, f) in w'.at[dst].used
  {
    ExactDivision(f.amount, w.cfg[dst].units[f.bid.Token()]);
  }

  /** A settled request can never be filled again. */
  lemma SpentNeverFills(net: Net, step: Step, id: Id)
    requires NetInv(net) && Floored(step) && Spent(net.w, id)
    ensures Next(net, step).Some? ==> EventOf(net, step, id) == Other && Spent(Next(net, step).value.w, id)
  {
    if Next(net, step).Some? { StepEvent(net, step, id); }
  }

  // ---- what delivery can count on

  /** A FAIL always lands, whatever transfers are refused. */
  lemma FailLands(net: Net, n: nat, refused: set<Account>)
    requires Mail(net) && Configured(net.w) && n in net.flight && net.flight[n].msg.FailMsg?
    ensures Land(net.w, net.flight[n], None, refused, Route(0, 0, false)).Some?
  {
    assert PacketOk(net.w, net.flight[n]);
    FailPacketLands(net.w, net.flight[n], refused);
  }

  lemma FailPacketLands(w: World, p: Packet, refused: set<Account>)
    requires Configured(w) && p.msg.FailMsg? && PacketOk(w, p)
    ensures Land(w, p, None, refused, Route(0, 0, false)).Some?
  {}

  /** A payment always finds its order and covers it; only its onward route can
      hold it up. */
  lemma PaidFindsOrder(net: Net, n: nat)
    requires NetInv(net) && n in net.flight && net.flight[n].msg.PaidMsg?
    ensures var p := net.flight[n];
            && p.dst in net.w.at && p.msg.token in net.w.cfg[p.dst].units
            && OrderOf(net.w.at[p.dst], p.src, p.msg.id).Some?
            && var o := OrderOf(net.w.at[p.dst], p.src, p.msg.id).value;
               o.stable == p.msg.token && p.msg.wire * net.w.cfg[p.dst].units[p.msg.token] >= o.amount
  {
    assert PacketOk(net.w, net.flight[n]);
  }

  /** What can stop a FILL other than its amount or the use of its bid. */
  predicate Refusable(cfg: Config, src: Chain, f: Fill, env: PayEnv)
  {
    || f.bid.deadline < env.now || Lane(src, f.bid.Token()) !in cfg.routes || env.cancelled
    || !env.signed || !env.pulled || f.bid.maker == cfg.me
  }

  /** A FILL from a peer is never over its cap and never a reused bid, so it
      fails only for time, route, salt, signature or the maker's funds. */
  lemma FillFailsOnlyFor(net: Net, n: nat, env: PayEnv)
    requires NetInv(net) && n in net.flight && net.flight[n].msg.FillMsg? && net.flight[n].dst in net.w.at
    ensures var p := net.flight[n];
            Refused(net.w.at[p.dst], net.w.cfg[p.dst], p.src, p.msg.fill, env) <==>
            Refusable(net.w.cfg[p.dst], p.src, p.msg.fill, env)
  {
    assert PacketOk(net.w, net.flight[n]);
  }

  /** The same of a FILL waiting in the inbox, where every CCTP FILL is acted on. */
  lemma WaitingFillFailsOnlyFor(net: Net, slot: Slot, env: PayEnv)
    requires NetInv(net) && slot in net.inbox && slot.chain in net.w.at
    ensures Refused(net.w.at[slot.chain], net.w.cfg[slot.chain], net.inbox[slot], slot.fill, env) <==>
            Refusable(net.w.cfg[slot.chain], net.inbox[slot], slot.fill, env)
  {
    assert FillOk(net.w, net.inbox[slot], slot.chain, slot.fill);
  }
}
