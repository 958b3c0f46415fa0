/** Batched issuer redemption, `contracts/redemption_vault/src/lib.rs`, as functions
    from storage and token ledgers to the same; `None` is a call that panics.
    Calls into other contracts are the effects they have on the ledgers. */
module Redemption {

  import opened Math
  import opened Sums
  import Claims

  type Address = nat

  datatype Mode = Auto | Manual
  datatype Status = Open | Sent | Settled

  datatype Batch = Batch(
    status: Status, account: Option<Address>, units: int, unsent: int, proceeds: int, fee: int,
    remaining: int, strike: int, navStart: int, navEnd: int)

  datatype Settings = Settings(
    mode: Mode, strikeAtSend: bool, feeBps: nat, feeRecipient: Option<Address>, floorBps: nat,
    destinations: set<Address>)
  {
    /** `check_settings`. */
    predicate Valid() { feeBps <= MAX_FEE_BPS && (feeBps > 0 ==> feeRecipient.Some?) && floorBps <= BPS }
  }

  /** Running sums over the batches by status: units of Open ones, cash and RWA left
      in Settled ones, the number of Sent ones (`TotalsOk`). */
  datatype Totals = Totals(pooled: int, proceeds: int, rwa: int, sent: int)

  datatype Book = Book(batches: map<nat, Batch>, totals: Totals, openId: Option<nat>, next: nat, busy: map<Address, nat>)

  /** A claim token balance; `ct` and `supply` are all claim tokens' ledgers. */
  datatype Held = Held(batch: nat, holder: Address)

  datatype Tokens = Tokens(ct: map<Held, int>, supply: map<nat, int>)

  datatype State = State(
    me: Address, accounts: seq<Address>, settings: Settings, paused: bool,
    book: Book, rwa: map<Address, int>, stable: map<Address, int>, tok: Tokens)

  /** What one call run from an account does to the two ledgers. `verified` is the
      verifier's answer and the ban on the stable, the account, the vault and CTs. */
  datatype Call = Call(verified: bool, rwa: map<Address, int>, stable: map<Address, int>)

  /** The balances of the two tokens. */
  datatype Ledgers = Ledgers(rwa: map<Address, int>, stable: map<Address, int>)

  const MAX_FEE_BPS := 2_000

  /** The ledger after adding a change to every balance it names. */
  function Apply(m: map<Address, int>, d: map<Address, int>): map<Address, int>
  {
    map a | a in m.Keys + d.Keys :: Get(m, a) + Get(d, a)
  }

  function Move(m: map<Address, int>, from: Address, to: Address, amount: int): map<Address, int>
  {
    var m1 := m[from := Get(m, from) - amount];
    m1[to := Get(m1, to) + amount]
  }

  const Fresh := Batch(Open, None, 0, 0, 0, 0, 0, 0, 0, 0)

  // ---- holders

  /** Someone who can authorise a call: neither the vault nor one of its accounts. */
  predicate External(v: State, a: Address) { a != v.me && a !in v.accounts }

  function Add(tok: Tokens, id: nat, who: Address, amount: int): Tokens
    requires id in tok.supply
  {
    Tokens(tok.ct[Held(id, who) := Get(tok.ct, Held(id, who)) + amount], tok.supply[id := tok.supply[id] + amount])
  }

  /** Opens a batch, with its claim token, if none is open. */
  function OpenBatch(v: State): (w: State)
    ensures w.book.openId.Some?
  {
    if v.book.openId.Some? then v
    else
      var id := v.book.next;
      v.(book := v.book.(batches := v.book.batches[id := Fresh], openId := Some(id), next := id + 1),
         tok := v.tok.(supply := v.tok.supply[id := 0]))
  }

  function RequestRedeem(v: State, owner: Address, units: int, controller: Address): Option<State>
  {
    if v.paused || units <= 0 || controller == v.me || !External(v, owner) || Get(v.rwa, owner) < units then None
    else
      var w := OpenBatch(v);
      var id := w.book.openId.value;
      if id !in w.book.batches || id !in w.tok.supply then None
      else
        var b := w.book.batches[id];
        Some(w.(book := w.book.(batches := w.book.batches[id := b.(units := b.units + units)],
                                totals := w.book.totals.(pooled := w.book.totals.pooled + units)),
                rwa := Move(w.rwa, owner, w.me, units), tok := Add(w.tok, id, controller, units)))
  }

  function Cancel(v: State, owner: Address, id: nat, amount: int, receiver: Address): Option<State>
  {
    if id !in v.book.batches || id !in v.tok.supply || v.book.batches[id].status != Open then None
    else
      var b := v.book.batches[id];
      if amount <= 0 || amount > b.units || amount > Get(v.tok.ct, Held(id, owner)) then None
      else
        Some(v.(book := v.book.(batches := v.book.batches[id := b.(units := b.units - amount)],
                                totals := v.book.totals.(pooled := v.book.totals.pooled - amount)),
                rwa := Move(v.rwa, v.me, receiver, amount), tok := Add(v.tok, id, owner, -amount)))
  }

  /** A holder burns its own claim tokens; a holder transfers some. */
  function BurnOwn(v: State, id: nat, holder: Address, amount: int): Option<State>
  {
    if id !in v.tok.supply || amount < 0 || amount > Get(v.tok.ct, Held(id, holder)) then None
    else Some(v.(tok := Add(v.tok, id, holder, -amount)))
  }

  function TransferCt(v: State, id: nat, from: Address, to: Address, amount: int): Option<State>
  {
    if id !in v.tok.supply || amount < 0 || amount > Get(v.tok.ct, Held(id, from)) then None
    else Some(v.(tok := Add(Add(v.tok, id, from, -amount), id, to, amount)))
  }

  /** `claim`: burns `shares` for their `Claims.Portion` of cash and of RWA. */
  function Claim(v: State, owner: Address, id: nat, shares: int, receiver: Address): Option<State>
  {
    if id !in v.book.batches || id !in v.tok.supply || v.book.batches[id].status != Settled then None
    else
      var b, supply := v.book.batches[id], v.tok.supply[id];
      if shares <= 0 || supply < shares || Get(v.tok.ct, Held(id, owner)) < shares || b.remaining < 0 || b.unsent < 0 then None
      else
        var assets, units := Claims.Portion(shares, b.remaining, supply), Claims.Portion(shares, b.unsent, supply);
        var t := v.book.totals;
        Some(v.(book := v.book.(batches := v.book.batches[id := b.(remaining := b.remaining - assets, unsent := b.unsent - units)],
                                totals := t.(proceeds := t.proceeds - assets, rwa := t.rwa - units)),
                stable := Move(v.stable, v.me, receiver, assets), rwa := Move(v.rwa, v.me, receiver, units),
                tok := Add(v.tok, id, owner, -shares)))
  }

  // ---- AUTO

  /** The ledgers after an account's calls, or nothing if one is not allowed. */
  function RunCalls(l: Ledgers, calls: seq<Call>): Option<Ledgers>
  {
    if calls == [] then Some(l)
    else
      match RunCalls(l, calls[..|calls| - 1])
      case None => None
      case Some(m) =>
        var c := calls[|calls| - 1];
        if c.verified then Some(Ledgers(Apply(m.rwa, c.rwa), Apply(m.stable, c.stable))) else None
  }

  /** The first account that serves no batch. */
  function FreeAccount(accounts: seq<Address>, busy: map<Address, nat>): Option<Address>
  {
    if accounts == [] then None
    else if accounts[0] !in busy then Some(accounts[0])
    else FreeAccount(accounts[1..], busy)
  }

  /** `mark_sent`: `id` becomes Sent with `nav` recorded, as its strike too under that
      setting, and is no longer the batch requests join. */
  function MarkSent(v: State, id: nat, b: Batch, nav: nat): Option<State>
  {
    if b.units <= 0 || (v.settings.strikeAtSend && nav == 0) then None
    else
      var b' := b.(status := Sent, navStart := nav, strike := if v.settings.strikeAtSend then nav else b.strike);
      Some(v.(book := v.book.(batches := v.book.batches[id := b'],
                              openId := if v.book.openId == Some(id) then None else v.book.openId,
                              totals := v.book.totals.(sent := v.book.totals.sent + 1))))
  }

  /** `redeem_batch`: an Open batch goes out through a free account, a Sent one with
      RWA back goes out again through its own (`Resend`). */
  function RedeemBatch(v: State, id: nat, calls: seq<Call>, nav: nat): Option<State>
  {
    if id !in v.book.batches then None
    else
      var b := v.book.batches[id];
      match b.status
      case Sent => Resend(v, id, b, calls)
      case Settled => None
      case Open =>
        var free := FreeAccount(v.accounts, v.book.busy);
        if v.settings.mode != Auto || free.None? || Get(v.rwa, v.me) < b.units then None
        else
          var a := free.value;
          var rwa := Move(v.rwa, v.me, a, b.units);
          match RunCalls(Ledgers(rwa, v.stable), calls)
          case None => None
          case Some(l) =>
            var t := v.book.totals.(pooled := v.book.totals.pooled - b.units);
            if Get(rwa, a) - Get(l.rwa, a) != b.units || Get(l.rwa, v.me) < t.pooled + t.rwa then None
            else
              MarkSent(v.(rwa := l.rwa, stable := l.stable, book := v.book.(totals := t, busy := v.book.busy[a := id])),
                       id, b.(account := Some(a)), nav)
  }

  function Resend(v: State, id: nat, b: Batch, calls: seq<Call>): Option<State>
  {
    if b.unsent == 0 || b.account.None? then None
    else
      match RunCalls(Ledgers(v.rwa, v.stable), calls)
      case None => None
      case Some(l) =>
        if Get(v.rwa, b.account.value) - Get(l.rwa, b.account.value) != b.unsent then None
        else Some(v.(rwa := l.rwa, stable := l.stable, book := v.book.(batches := v.book.batches[id := b.(unsent := 0)])))
  }

  /** Books a batch's proceeds, takes the fee. */
  function Finish(v: State, id: nat, b: Batch, proceeds: int, nav: nat): Option<State>
  {
    if proceeds < 0 then None
    else
      var s, t := v.settings, v.book.totals;
      var fee := Floor(proceeds, s.feeBps, BPS);
      var b' := b.(status := Settled, proceeds := proceeds, fee := fee, remaining := proceeds - fee, navEnd := nav);
      Some(v.(book := v.book.(batches := v.book.batches[id := b'],
                              totals := Totals(t.pooled, t.proceeds + proceeds - fee, t.rwa + b.unsent, t.sent - 1)),
              stable := if s.feeRecipient.Some? && fee > 0 then Move(v.stable, v.me, s.feeRecipient.value, fee) else v.stable))
  }

  /** `settle`: proceeds are the vault's stable after collection less before. */
  function Settle(v: State, id: nat, calls: seq<Call>, minProceeds: int, nav: nat): Option<State>
  {
    if id !in v.book.batches || v.book.batches[id].status != Sent || v.book.batches[id].account.None? then None
    else
      var b := v.book.batches[id];
      var a := b.account.value;
      match RunCalls(Ledgers(v.rwa, v.stable), calls)
      case None => None
      case Some(l) =>
        var stable2 := Move(l.stable, a, v.me, Get(l.stable, a));
        if b.unsent != 0 && Get(l.rwa, a) < b.unsent then None
        else
          var rwa2 := if b.unsent != 0 then Move(l.rwa, a, v.me, b.unsent) else l.rwa;
          var proceeds := Get(stable2, v.me) - Get(v.stable, v.me);
          if Get(rwa2, v.me) != Get(v.rwa, v.me) + b.unsent || proceeds < minProceeds then None
          else Finish(v.(rwa := rwa2, stable := stable2, book := v.book.(busy := v.book.busy - {a})), id, b, proceeds, nav)
  }

  /** `reopen`: `returned` more units are back; short of all of them the batch stays
      Sent, with all of them it is Open again. */
  function Reopen(v: State, id: nat, calls: seq<Call>, returned: int): Option<State>
  {
    if id !in v.book.batches || v.book.batches[id].status != Sent || v.book.batches[id].account.None? then None
    else
      var b := v.book.batches[id];
      var a, unsent := b.account.value, b.unsent + returned;
      if returned <= 0 || unsent > b.units then None
      else
        match RunCalls(Ledgers(v.rwa, v.stable), calls)
        case None => None
        case Some(l) =>
          var w := v.(rwa := l.rwa, stable := l.stable);
          if Get(l.rwa, a) < unsent then None
          else if unsent < b.units then Some(w.(book := w.book.(batches := w.book.batches[id := b.(unsent := unsent)])))
          else
            var t := w.book.totals;
            Some(w.(rwa := Move(l.rwa, a, v.me, Get(l.rwa, a)),
                    book := w.book.(batches := w.book.batches[id := b.(status := Open, account := None, unsent := 0, strike := 0)],
                                    totals := t.(pooled := t.pooled + b.units, sent := t.sent - 1),
                                    busy := w.book.busy - {a})))
  }

  // ---- MANUAL

  function WithdrawBatch(v: State, id: nat, to: Address, nav: nat): Option<State>
  {
    if v.settings.mode != Manual || to !in v.settings.destinations || id !in v.book.batches then None
    else
      var b := v.book.batches[id];
      if b.status != Open || Get(v.rwa, v.me) < b.units then None
      else
        MarkSent(v.(rwa := Move(v.rwa, v.me, to, b.units),
                    book := v.book.(totals := v.book.totals.(pooled := v.book.totals.pooled - b.units))), id, b, nav)
  }

  /** What a unit of the batch is valued at. */
  function Price(b: Batch, nav: nat): int { if b.strike != 0 then b.strike else nav }

  /** The smallest proceeds `SettleManual` accepts: two ceilings, of the value of the
      units kept and of its part above the allowance. */
  function NavFloor(v: State, b: Batch, returned: nat, nav: nat): nat
    requires 0 <= returned <= b.units && b.strike >= 0 && v.settings.floorBps <= BPS
  {
    Ceil(Ceil(b.units - returned, Price(b, nav), ONE), BPS - v.settings.floorBps, BPS)
  }

  function SettleManual(v: State, operator: Address, id: nat, proceeds: int, returned: int, nav: nat): Option<State>
  {
    if id !in v.book.batches || v.book.batches[id].status != Sent || v.book.batches[id].account.Some? || !External(v, operator) then None
    else
      var b := v.book.batches[id];
      if proceeds < 0 || returned < 0 || returned > b.units || (b.strike == 0 && nav == 0) || b.strike < 0 then None
      else if v.settings.floorBps > BPS || proceeds < NavFloor(v, b, returned, nav) then None
      else if Get(v.stable, operator) < proceeds || Get(v.rwa, operator) < returned then None
      else
        Finish(v.(stable := Move(v.stable, operator, v.me, proceeds), rwa := Move(v.rwa, operator, v.me, returned)),
               id, b.(unsent := returned), proceeds, nav)
  }

  // ---- governance and the rest

  /** Settings are checked when they are submitted. */
  function ApplySettings(v: State, s: Settings): Option<State>
  {
    if !s.Valid() || ((s.mode != v.settings.mode || s.strikeAtSend != v.settings.strikeAtSend) && v.book.totals.sent != 0) then None
    else Some(v.(settings := s))
  }

  function SkimRwa(v: State, to: Address): State
  {
    var amount := Get(v.rwa, v.me) - (v.book.totals.pooled + v.book.totals.rwa);
    if amount > 0 then v.(rwa := Move(v.rwa, v.me, to, amount)) else v
  }

  function SkimStable(v: State, to: Address): State
  {
    var amount := Get(v.stable, v.me) - v.book.totals.proceeds;
    if amount > 0 then v.(stable := Move(v.stable, v.me, to, amount)) else v
  }

  function AddAccount(v: State, a: Address): Option<State>
  {
    if External(v, a) then Some(v.(accounts := v.accounts + [a])) else None
  }

  /** Anyone else's transfer of either token. */
  function Transfer(v: State, inRwa: bool, from: Address, to: Address, amount: nat): Option<State>
  {
    if !External(v, from) || Get(if inRwa then v.rwa else v.stable, from) < amount then None
    else if inRwa then Some(v.(rwa := Move(v.rwa, from, to, amount)))
    else Some(v.(stable := Move(v.stable, from, to, amount)))
  }

  // ---- a run

  datatype Step =
    | DoRequest(owner: Address, units: int, controller: Address)
    | DoCancel(owner: Address, id: nat, units: int, receiver: Address)
    | DoClaim(owner: Address, id: nat, shares: int, receiver: Address)
    | DoBurn(id: nat, holder: Address, amount: int)
    | DoTransferCt(id: nat, holder: Address, to: Address, amount: int)
    | DoRedeem(id: nat, calls: seq<Call>, nav: nat)
    | DoSettle(id: nat, calls: seq<Call>, minProceeds: int, nav: nat)
    | DoReopen(id: nat, calls: seq<Call>, returned: int)
    | DoWithdraw(id: nat, to: Address, nav: nat)
    | DoSettleManual(operator: Address, id: nat, proceeds: int, returned: int, nav: nat)
    | DoSettings(settings: Settings)
    | DoSkimRwa(to: Address)
    | DoSkimStable(to: Address)
    | DoAddAccount(account: Address)
    | DoTransfer(inRwa: bool, from: Address, to: Address, sum: nat)

  function Next(v: State, step: Step): Option<State>
  {
    match step
    case DoRequest(owner, units, controller) => RequestRedeem(v, owner, units, controller)
    case DoCancel(owner, id, units, receiver) => Cancel(v, owner, id, units, receiver)
    case DoClaim(owner, id, shares, receiver) => Claim(v, owner, id, shares, receiver)
    case DoBurn(id, holder, amount) => BurnOwn(v, id, holder, amount)
    case DoTransferCt(id, holder, to, amount) => TransferCt(v, id, holder, to, amount)
    case DoRedeem(id, calls, nav) => RedeemBatch(v, id, calls, nav)
    case DoSettle(id, calls, minProceeds, nav) => Settle(v, id, calls, minProceeds, nav)
    case DoReopen(id, calls, returned) => Reopen(v, id, calls, returned)
    case DoWithdraw(id, to, nav) => WithdrawBatch(v, id, to, nav)
    case DoSettleManual(operator, id, proceeds, returned, nav) => SettleManual(v, operator, id, proceeds, returned, nav)
    case DoSettings(settings) => ApplySettings(v, settings)
    case DoSkimRwa(to) => Some(SkimRwa(v, to))
    case DoSkimStable(to) => Some(SkimStable(v, to))
    case DoAddAccount(account) => AddAccount(v, account)
    case DoTransfer(inRwa, from, to, sum) => Transfer(v, inRwa, from, to, sum)
  }

  /** Panics leave everything as it was. */
  function After(v: State, step: Step): State
  {
    match Next(v, step) case Some(w) => w case None => v
  }

  function Run(v: State, steps: seq<Step>): State
  {
    if steps == [] then v else After(Run(v, steps[..|steps| - 1]), steps[|steps| - 1])
  }

  /** The account a step's calls run from. */
  function Actor(v: State, id: nat): Option<Address>
  {
    if id !in v.book.batches then None
    else if v.book.batches[id].status == Open then FreeAccount(v.accounts, v.book.busy)
    else v.book.batches[id].account
  }

  /** The vault and its accounts. */
  predicate Own(v: State, a: Address) { a == v.me || a in v.accounts }

  /** A call from one account draws on neither the vault nor another account:
      token contracts ask for the authority of whoever pays. */
  ghost predicate Fair(v: State, calls: seq<Call>, actor: Option<Address>)
  {
    forall i, a: Address :: 0 <= i < |calls| && Own(v, a) && actor != Some(a) ==> Get(calls[i].rwa, a) >= 0 && Get(calls[i].stable, a) >= 0
  }

  ghost predicate FairStep(v: State, step: Step)
  {
    match step
    case DoRedeem(id, calls, _) => Fair(v, calls, Actor(v, id))
    case DoSettle(id, calls, _, _) => Fair(v, calls, Actor(v, id))
    case DoReopen(id, calls, _) => Fair(v, calls, Actor(v, id))
    case _ => true
  }

  ghost predicate FairRun(v: State, steps: seq<Step>)
  {
    forall i :: 0 <= i < |steps| ==> FairStep(Run(v, steps[..i]), steps[i])
  }

  ghost predicate Init(v: State)
  {
    && v.book == Book(map[], Totals(0, 0, 0, 0), None, 1, map[]) && v.tok == Tokens(map[], map[])
    && v.me !in v.accounts && v.settings.Valid() && Get(v.rwa, v.me) >= 0 && Get(v.stable, v.me) >= 0
  }

  // ---- the invariant

  function PooledOf(b: Batch): int { if b.status == Open then b.units else 0 }
  function CashOf(b: Batch): int { if b.status == Settled then b.remaining else 0 }
  function RwaOf(b: Batch): int { if b.status == Settled then b.unsent else 0 }
  function SentOf(b: Batch): int { if b.status == Sent then 1 else 0 }

  ghost function PooledF(): (nat, Batch) -> int { (id: nat, b: Batch) => PooledOf(b) }
  ghost function CashF(): (nat, Batch) -> int { (id: nat, b: Batch) => CashOf(b) }
  ghost function RwaF(): (nat, Batch) -> int { (id: nat, b: Batch) => RwaOf(b) }
  ghost function SentF(): (nat, Batch) -> int { (id: nat, b: Batch) => SentOf(b) }

  /** The running totals agree with the batches. */
  ghost predicate TotalsOk(m: map<nat, Batch>, t: Totals)
  {
    t == Totals(Sum(m, PooledF()), Sum(m, CashF()), Sum(m, RwaF()), Sum(m, SentF()))
  }

  ghost predicate BatchOk(b: Batch, s: Settings, supply: int)
  {
    && 0 <= supply && 0 <= b.units && 0 <= b.strike
    && match b.status
       case Open => b.account.None? && b.unsent == 0 && b.strike == 0 && supply <= b.units
       case Sent =>
         && b.units > 0 && 0 <= b.unsent <= b.units && supply <= b.units
         && (b.account.Some? <==> s.mode == Auto) && (b.strike != 0 <==> s.strikeAtSend)
       case Settled => 0 <= b.remaining && 0 <= b.unsent
  }

  ghost predicate BatchesOk(m: map<nat, Batch>, s: Settings, supply: map<nat, int>)
  {
    supply.Keys == m.Keys && forall id :: id in m ==> BatchOk(m[id], s, supply[id])
  }

  ghost predicate IdsOk(m: map<nat, Batch>, openId: Option<nat>, next: nat)
  {
    && (forall id :: id in m ==> id < next)
    && (openId.Some? ==> openId.value in m && m[openId.value].status == Open)
  }

  predicate Holds(m: map<Address, int>, a: Address, amount: int) { amount != 0 ==> Get(m, a) >= amount }

  /** An account is busy for a batch exactly when that batch is sent from it, and
      holds at least the batch's `unsent` units. */
  ghost predicate BusyOk(m: map<nat, Batch>, busy: map<Address, nat>, rwa: map<Address, int>)
  {
    && (forall a :: a in busy ==>
          busy[a] in m && m[busy[a]].status == Sent && m[busy[a]].account == Some(a) && Holds(rwa, a, m[busy[a]].unsent))
    && (forall id :: id in m && m[id].status == Sent && m[id].account.Some? ==>
          m[id].account.value in busy && busy[m[id].account.value] == id)
  }

  ghost function HeldOf(id: nat): (Held, int) -> int { (k: Held, v: int) => if k.batch == id then v else 0 }

  /** Every claim token's supply is the sum of its holders' balances. */
  ghost predicate TokensOk(tok: Tokens)
  {
    && (forall k :: k in tok.ct ==> tok.ct[k] >= 0 && k.batch in tok.supply)
    && forall id :: id in tok.supply ==> Sum(tok.ct, HeldOf(id)) == tok.supply[id]
  }

  ghost predicate PoolOk(v: State)
  {
    v.me !in v.accounts && (forall a :: a in v.book.busy ==> a in v.accounts) && v.settings.Valid()
  }

  /** The vault's balances cover what it owes. */
  ghost predicate Backed(v: State)
  {
    Get(v.rwa, v.me) >= v.book.totals.pooled + v.book.totals.rwa && Get(v.stable, v.me) >= v.book.totals.proceeds
  }

  /** Everything but the sums. */
  ghost predicate Core(v: State)
  {
    && PoolOk(v) && BatchesOk(v.book.batches, v.settings, v.tok.supply) && IdsOk(v.book.batches, v.book.openId, v.book.next)
    && BusyOk(v.book.batches, v.book.busy, v.rwa) && Backed(v)
  }

  ghost predicate Inv(v: State)
  {
    Core(v) && TotalsOk(v.book.batches, v.book.totals) && TokensOk(v.tok)
  }

  // ---- keeping its parts

  function Shift(t: Totals, b: Batch, b': Batch): Totals
  {
    Totals(t.pooled + PooledOf(b') - PooledOf(b), t.proceeds + CashOf(b') - CashOf(b),
           t.rwa + RwaOf(b') - RwaOf(b), t.sent + SentOf(b') - SentOf(b))
  }

  /** Storing a batch moves each total by that batch's difference. */
  lemma TotalsPut(m: map<nat, Batch>, t: Totals, id: nat, b: Batch)
    requires TotalsOk(m, t)
    ensures TotalsOk(m[id := b], Shift(t, if id in m then m[id] else Fresh, b))
  {
    SumPut(m, PooledF(), id, b);
    SumPut(m, CashF(), id, b);
    SumPut(m, RwaF(), id, b);
    SumPut(m, SentF(), id, b);
  }

  lemma HeldPut(ct: map<Held, int>, k: Held, amount: int, id: nat)
    ensures Sum(ct[k := Get(ct, k) + amount], HeldOf(id)) == Sum(ct, HeldOf(id)) + (if id == k.batch then amount else 0)
  {
    SumPut(ct, HeldOf(id), k, Get(ct, k) + amount);
  }

  lemma TokenAdd(tok: Tokens, id: nat, who: Address, amount: int)
    requires TokensOk(tok) && id in tok.supply && Get(tok.ct, Held(id, who)) + amount >= 0
    ensures TokensOk(Add(tok, id, who, amount))
  {
    forall i | i in tok.supply
      ensures Sum(Add(tok, id, who, amount).ct, HeldOf(i)) == Add(tok, id, who, amount).supply[i]
    {
      HeldPut(tok.ct, Held(id, who), amount, i);
    }
  }

  lemma HeldWithinSupply(tok: Tokens, id: nat, who: Address)
    requires TokensOk(tok) && id in tok.supply
    ensures Get(tok.ct, Held(id, who)) <= tok.supply[id]
  {
    var k := Held(id, who);
    SumBounds(tok.ct, HeldOf(id));
    if k in tok.ct { assert HeldOf(id)(k, tok.ct[k]) == tok.ct[k]; }
  }

  lemma TokenNew(tok: Tokens, id: nat)
    requires TokensOk(tok) && id !in tok.supply
    ensures TokensOk(tok.(supply := tok.supply[id := 0]))
  {
    SumZero(tok.ct, HeldOf(id));
  }

  /** Batches that are not with the issuer, before or after, touch no account. */
  lemma BusyIdle(m: map<nat, Batch>, busy: map<Address, nat>, rwa: map<Address, int>, rwa': map<Address, int>,
                 id: nat, b: Batch)
    requires BusyOk(m, busy, rwa) && (id in m ==> m[id].status != Sent || m[id].account.None?) && (b.status != Sent || b.account.None?)
    requires forall a :: a in busy ==> Get(rwa', a) >= Get(rwa, a)
    ensures BusyOk(m[id := b], busy, rwa')
  {}

  lemma BusySend(m: map<nat, Batch>, busy: map<Address, nat>, rwa: map<Address, int>, rwa': map<Address, int>,
                 id: nat, b: Batch, a: Address)
    requires BusyOk(m, busy, rwa) && id in m && m[id].status != Sent && a !in busy
    requires b.status == Sent && b.account == Some(a) && Holds(rwa', a, b.unsent)
    requires forall c :: c in busy ==> Get(rwa', c) >= Get(rwa, c)
    ensures BusyOk(m[id := b], busy[a := id], rwa')
  {}

  lemma BusyStay(m: map<nat, Batch>, busy: map<Address, nat>, rwa: map<Address, int>, rwa': map<Address, int>,
                 id: nat, b: Batch, a: Address)
    requires BusyOk(m, busy, rwa) && id in m && m[id].status == Sent && m[id].account == Some(a)
    requires b.status == Sent && b.account == Some(a) && Holds(rwa', a, b.unsent)
    requires forall c :: c in busy && c != a ==> Get(rwa', c) >= Get(rwa, c)
    ensures BusyOk(m[id := b], busy, rwa')
  {}

  lemma BusyEnd(m: map<nat, Batch>, busy: map<Address, nat>, rwa: map<Address, int>, rwa': map<Address, int>, id: nat,
                b: Batch, a: Address)
    requires BusyOk(m, busy, rwa) && id in m && m[id].status == Sent && m[id].account == Some(a) && b.status != Sent
    requires forall c :: c in busy && c != a ==> Get(rwa', c) >= Get(rwa, c)
    ensures BusyOk(m[id := b], busy - {a}, rwa')
  {}

  /** Storing batch `id` as `b`, with its claim supply at `n`: the one shape of
      every step on a batch. */
  ghost predicate Puts(v: State, w: State, id: nat, b: Batch, n: int)
  {
    && w.me == v.me && w.accounts == v.accounts && w.settings == v.settings
    && id in v.book.batches && w.book.batches == v.book.batches[id := b]
    && w.book.totals == Shift(v.book.totals, v.book.batches[id], b)
    && w.book.next == v.book.next && w.tok.supply == v.tok.supply[id := n]
    && (w.book.openId == None
        || (w.book.openId == v.book.openId
            && (w.book.openId == Some(id) ==> b.status == Open || b.status == v.book.batches[id].status)))
  }

  /** What is left to check of a step is about the batch, the accounts and the money. */
  lemma PutsCore(v: State, w: State, id: nat, b: Batch, n: int)
    requires PoolOk(v) && BatchesOk(v.book.batches, v.settings, v.tok.supply) && IdsOk(v.book.batches, v.book.openId, v.book.next)
    requires Puts(v, w, id, b, n) && BatchOk(b, v.settings, n) && Backed(w)
    requires BusyOk(w.book.batches, w.book.busy, w.rwa)
    requires forall a :: a in w.book.busy ==> a in w.accounts
    ensures Core(w)
  {}

  lemma PutsTotals(v: State, w: State, id: nat, b: Batch, n: int)
    requires Puts(v, w, id, b, n) && TotalsOk(v.book.batches, v.book.totals)
    ensures TotalsOk(w.book.batches, w.book.totals)
  {
    TotalsPut(v.book.batches, v.book.totals, id, b);
  }

  // ---- holders' steps

  lemma OpenCore(v: State)
    requires Core(v)
    ensures Core(OpenBatch(v))
  {
    if v.book.openId.None? {
      OpenBooks(v);
      BusyIdle(v.book.batches, v.book.busy, v.rwa, v.rwa, v.book.next, Fresh);
    }
  }

  lemma OpenBooks(v: State)
    requires BatchesOk(v.book.batches, v.settings, v.tok.supply) && IdsOk(v.book.batches, v.book.openId, v.book.next)
    requires v.book.openId.None?
    ensures BatchesOk(OpenBatch(v).book.batches, v.settings, OpenBatch(v).tok.supply)
    ensures IdsOk(OpenBatch(v).book.batches, OpenBatch(v).book.openId, OpenBatch(v).book.next)
  {}

  lemma OpenTotals(v: State)
    requires TotalsOk(v.book.batches, v.book.totals) && IdsOk(v.book.batches, v.book.openId, v.book.next)
    ensures TotalsOk(OpenBatch(v).book.batches, OpenBatch(v).book.totals)
  {
    if v.book.openId.None? {
      TotalsPut(v.book.batches, v.book.totals, v.book.next, Fresh);
    }
  }

  lemma OpenTokens(v: State)
    requires TokensOk(v.tok) && IdsOk(v.book.batches, v.book.openId, v.book.next) && v.tok.supply.Keys == v.book.batches.Keys
    ensures TokensOk(OpenBatch(v).tok)
  {
    if v.book.openId.None? {
      TokenNew(v.tok, v.book.next);
    }
  }

  function Grown(b: Batch, units: int): Batch { b.(units := b.units + units) }

  lemma RequestShape(v: State, w: State, owner: Address, units: int, controller: Address)
    requires RequestRedeem(v, owner, units, controller) == Some(w)
    ensures var u := OpenBatch(v);
            var id := u.book.openId.value;
            && id in u.tok.supply && id in u.book.batches
            && (u.book.batches[id].status == Open ==> Puts(u, w, id, Grown(u.book.batches[id], units), u.tok.supply[id] + units))
            && w.tok == Add(u.tok, id, controller, units) && w.book.busy == u.book.busy
            && w.rwa == Move(u.rwa, owner, u.me, units) && w.stable == u.stable && External(u, owner)
    ensures units > 0
  {}

  lemma RequestCore(v: State, w: State, owner: Address, units: int, controller: Address)
    requires Core(v) && RequestRedeem(v, owner, units, controller) == Some(w)
    ensures Core(w)
  {
    OpenCore(v);
    RequestShape(v, w, owner, units, controller);
    RequestPuts(OpenBatch(v), w, OpenBatch(v).book.openId.value, owner, units);
  }

  lemma RequestPuts(u: State, w: State, id: nat, owner: Address, units: int)
    requires Core(u) && id in u.book.batches && id in u.tok.supply && u.book.batches[id].status == Open && units > 0 && External(u, owner)
    requires Puts(u, w, id, Grown(u.book.batches[id], units), u.tok.supply[id] + units)
    requires w.book.busy == u.book.busy && w.rwa == Move(u.rwa, owner, u.me, units) && w.stable == u.stable
    ensures Core(w)
  {
    var b := Grown(u.book.batches[id], units);
    BusyIdle(u.book.batches, u.book.busy, u.rwa, w.rwa, id, b);
    PutsCore(u, w, id, b, u.tok.supply[id] + units);
  }

  lemma RequestTotals(v: State, w: State, owner: Address, units: int, controller: Address)
    requires RequestRedeem(v, owner, units, controller) == Some(w)
    requires TotalsOk(v.book.batches, v.book.totals) && IdsOk(v.book.batches, v.book.openId, v.book.next)
    ensures TotalsOk(w.book.batches, w.book.totals)
  {
    OpenTotals(v);
    RequestShape(v, w, owner, units, controller);
    var u := OpenBatch(v);
    var id := u.book.openId.value;
    TotalsPut(u.book.batches, u.book.totals, id, Grown(u.book.batches[id], units));
  }

  lemma RequestTokens(v: State, w: State, owner: Address, units: int, controller: Address)
    requires RequestRedeem(v, owner, units, controller) == Some(w) && TokensOk(v.tok)
    requires IdsOk(v.book.batches, v.book.openId, v.book.next) && v.tok.supply.Keys == v.book.batches.Keys
    ensures TokensOk(w.tok)
  {
    OpenTokens(v);
    RequestShape(v, w, owner, units, controller);
    TokenNonNegative(OpenBatch(v).tok, OpenBatch(v).book.openId.value, controller);
    TokenAdd(OpenBatch(v).tok, OpenBatch(v).book.openId.value, controller, units);
  }

  lemma TokenNonNegative(tok: Tokens, id: nat, who: Address)
    requires TokensOk(tok)
    ensures Get(tok.ct, Held(id, who)) >= 0
  {}

  lemma CancelShape(v: State, w: State, owner: Address, id: nat, amount: int, receiver: Address)
    requires Cancel(v, owner, id, amount, receiver) == Some(w)
    ensures Puts(v, w, id, Grown(v.book.batches[id], -amount), v.tok.supply[id] - amount)
    ensures v.book.batches[id].status == Open
    ensures 0 < amount <= Get(v.tok.ct, Held(id, owner)) && amount <= v.book.batches[id].units
    ensures w.tok == Add(v.tok, id, owner, -amount) && w.book.busy == v.book.busy && w.rwa == Move(v.rwa, v.me, receiver, amount)
    ensures w.stable == v.stable
  {}

  lemma CancelCore(v: State, w: State, owner: Address, id: nat, amount: int, receiver: Address)
    requires Core(v) && Cancel(v, owner, id, amount, receiver) == Some(w) && amount <= v.tok.supply[id]
    ensures Core(w)
  {
    CancelShape(v, w, owner, id, amount, receiver);
    BusyIdle(v.book.batches, v.book.busy, v.rwa, w.rwa, id, w.book.batches[id]);
    PutsCore(v, w, id, w.book.batches[id], v.tok.supply[id] - amount);
  }

  lemma CancelTotals(v: State, w: State, owner: Address, id: nat, amount: int, receiver: Address)
    requires Cancel(v, owner, id, amount, receiver) == Some(w) && TotalsOk(v.book.batches, v.book.totals)
    ensures TotalsOk(w.book.batches, w.book.totals)
  {
    CancelShape(v, w, owner, id, amount, receiver);
    PutsTotals(v, w, id, w.book.batches[id], v.tok.supply[id] - amount);
  }

  function Paid(b: Batch, cash: int, kind: int): Batch
  {
    b.(remaining := b.remaining - cash, unsent := b.unsent - kind)
  }

  lemma ClaimShape(v: State, w: State, owner: Address, id: nat, shares: int, receiver: Address)
    returns (cash: nat, kind: nat)
    requires Claim(v, owner, id, shares, receiver) == Some(w)
    ensures v.book.batches[id].status == Settled && 0 < shares <= v.tok.supply[id] && shares <= Get(v.tok.ct, Held(id, owner))
    ensures cash <= v.book.batches[id].remaining && kind <= v.book.batches[id].unsent
    ensures cash == Claims.Portion(shares, v.book.batches[id].remaining, v.tok.supply[id])
    ensures kind == Claims.Portion(shares, v.book.batches[id].unsent, v.tok.supply[id])
    ensures Puts(v, w, id, Paid(v.book.batches[id], cash, kind), v.tok.supply[id] - shares)
    ensures w.rwa == Move(v.rwa, v.me, receiver, kind) && w.stable == Move(v.stable, v.me, receiver, cash)
    ensures w.tok == Add(v.tok, id, owner, -shares) && w.book.busy == v.book.busy
  {
    cash := Claims.Portion(shares, v.book.batches[id].remaining, v.tok.supply[id]);
    kind := Claims.Portion(shares, v.book.batches[id].unsent, v.tok.supply[id]);
  }

  lemma ClaimCore(v: State, w: State, owner: Address, id: nat, shares: int, receiver: Address)
    requires Core(v) && Claim(v, owner, id, shares, receiver) == Some(w)
    ensures Core(w)
  {
    var cash, kind := ClaimShape(v, w, owner, id, shares, receiver);
    BusyIdle(v.book.batches, v.book.busy, v.rwa, w.rwa, id, w.book.batches[id]);
    PutsCore(v, w, id, w.book.batches[id], v.tok.supply[id] - shares);
  }

  lemma ClaimTotals(v: State, w: State, owner: Address, id: nat, shares: int, receiver: Address)
    requires Claim(v, owner, id, shares, receiver) == Some(w) && TotalsOk(v.book.batches, v.book.totals)
    ensures TotalsOk(w.book.batches, w.book.totals)
  {
    var cash, kind := ClaimShape(v, w, owner, id, shares, receiver);
    PutsTotals(v, w, id, w.book.batches[id], v.tok.supply[id] - shares);
  }

  lemma BurnCore(v: State, w: State, id: nat, holder: Address, amount: int)
    requires Core(v) && BurnOwn(v, id, holder, amount) == Some(w) && amount <= v.tok.supply[id]
    ensures Core(w)
  {}

  lemma TransferCore(v: State, w: State, id: nat, holder: Address, to: Address, amount: int)
    requires Core(v) && TransferCt(v, id, holder, to, amount) == Some(w)
    ensures Core(w)
  {
    assert w.tok.supply == v.tok.supply;
  }

  // ---- the issuer's steps

  /** Nothing of the vault's, or of an account other than the one calls run from, is drawn. */
  ghost predicate Spared(v: State, actor: Option<Address>, l: Ledgers, m: Ledgers)
  {
    forall a: Address :: Own(v, a) && actor != Some(a) ==> Get(m.rwa, a) >= Get(l.rwa, a) && Get(m.stable, a) >= Get(l.stable, a)
  }

  lemma {:induction false} RunCallsFair(v: State, l: Ledgers, m: Ledgers, calls: seq<Call>, actor: Option<Address>)
    requires RunCalls(l, calls) == Some(m) && Fair(v, calls, actor)
    ensures Spared(v, actor, l, m)
    decreases |calls|
  {
    if calls != [] {
      var front := calls[..|calls| - 1];
      var k := RunCalls(l, front).value;
      RunCallsFair(v, l, k, front, actor);
      ApplySpares(v, k, calls, |front|, actor);
    }
  }

  lemma ApplySpares(v: State, k: Ledgers, calls: seq<Call>, i: nat, actor: Option<Address>)
    requires i < |calls| && Fair(v, calls, actor)
    ensures Spared(v, actor, k, Ledgers(Apply(k.rwa, calls[i].rwa), Apply(k.stable, calls[i].stable)))
  {}

  lemma FreeAccountIsFree(accounts: seq<Address>, busy: map<Address, nat>)
    requires FreeAccount(accounts, busy).Some?
    ensures FreeAccount(accounts, busy).value in accounts && FreeAccount(accounts, busy).value !in busy
  {}

  function SentAs(b: Batch, account: Option<Address>, nav: nat, s: Settings): Batch
  {
    b.(account := account, status := Sent, navStart := nav, strike := if s.strikeAtSend then nav else b.strike)
  }

  ghost predicate SentFrom(v: State, w: State, id: nat, account: Option<Address>, nav: nat)
    requires id in v.book.batches
  {
    && v.book.batches[id].units > 0 && (v.settings.strikeAtSend ==> nav != 0) && w.tok == v.tok
    && (id in v.tok.supply ==> Puts(v, w, id, SentAs(v.book.batches[id], account, nav, v.settings), v.tok.supply[id]))
  }

  lemma RedeemShape(v: State, w: State, id: nat, calls: seq<Call>, nav: nat) returns (a: Address, l: Ledgers)
    requires RedeemBatch(v, id, calls, nav) == Some(w) && v.book.batches[id].status == Open
    ensures FreeAccount(v.accounts, v.book.busy) == Some(a) && v.settings.mode == Auto
    ensures RunCalls(Ledgers(Move(v.rwa, v.me, a, v.book.batches[id].units), v.stable), calls) == Some(l)
    ensures w.rwa == l.rwa && w.stable == l.stable && w.book.busy == v.book.busy[a := id]
    ensures SentFrom(v, w, id, Some(a), nav) && (Own(v, a) ==> Get(w.rwa, v.me) >= w.book.totals.pooled + w.book.totals.rwa)
  {
    a := FreeAccount(v.accounts, v.book.busy).value;
    var b := v.book.batches[id];
    l := RunCalls(Ledgers(Move(v.rwa, v.me, a, b.units), v.stable), calls).value;
    if id in v.tok.supply { assert v.tok.supply[id := v.tok.supply[id]] == v.tok.supply; }
  }

  lemma RedeemCore(v: State, w: State, id: nat, calls: seq<Call>, nav: nat)
    requires Core(v) && RedeemBatch(v, id, calls, nav) == Some(w) && v.book.batches[id].status == Open
    requires Fair(v, calls, FreeAccount(v.accounts, v.book.busy))
    ensures Core(w)
  {
    var a, l := RedeemShape(v, w, id, calls, nav);
    var l0 := Ledgers(Move(v.rwa, v.me, a, v.book.batches[id].units), v.stable);
    FreeAccountIsFree(v.accounts, v.book.busy);
    RunCallsFair(v, l0, l, calls, Some(a));
    RedeemPuts(v, w, id, a, nav, l0, l);
  }

  lemma RedeemPuts(v: State, w: State, id: nat, a: Address, nav: nat, l0: Ledgers, l: Ledgers)
    requires Core(v) && id in v.book.batches && v.book.batches[id].status == Open && a in v.accounts && a !in v.book.busy
    requires v.settings.mode == Auto && SentFrom(v, w, id, Some(a), nav) && Spared(v, Some(a), l0, l)
    requires l0 == Ledgers(Move(v.rwa, v.me, a, v.book.batches[id].units), v.stable)
    requires w.rwa == l.rwa && w.stable == l.stable && w.book.busy == v.book.busy[a := id]
    requires Get(w.rwa, v.me) >= w.book.totals.pooled + w.book.totals.rwa
    ensures Core(w)
  {
    var b := SentAs(v.book.batches[id], Some(a), nav, v.settings);
    BusySend(v.book.batches, v.book.busy, v.rwa, w.rwa, id, b, a);
    assert Own(v, v.me);
    PutsCore(v, w, id, b, v.tok.supply[id]);
  }

  lemma RedeemTotals(v: State, w: State, id: nat, calls: seq<Call>, nav: nat)
    requires RedeemBatch(v, id, calls, nav) == Some(w) && v.book.batches[id].status == Open
    requires TotalsOk(v.book.batches, v.book.totals) && id in v.tok.supply
    ensures TotalsOk(w.book.batches, w.book.totals)
  {
    var a, l := RedeemShape(v, w, id, calls, nav);
    PutsTotals(v, w, id, w.book.batches[id], v.tok.supply[id]);
  }

  /** A step that rewrites a batch and leaves its claim token alone. */
  ghost predicate Rewrites(v: State, w: State, id: nat, b: Batch)
  {
    w.tok == v.tok && (id in v.tok.supply ==> Puts(v, w, id, b, v.tok.supply[id]))
  }

  lemma RewritesTotals(v: State, w: State, id: nat, b: Batch)
    requires Rewrites(v, w, id, b) && id in v.tok.supply && TotalsOk(v.book.batches, v.book.totals)
    ensures TotalsOk(w.book.batches, w.book.totals)
  {
    PutsTotals(v, w, id, b, v.tok.supply[id]);
  }

  lemma ResendShape(v: State, w: State, id: nat, calls: seq<Call>, nav: nat) returns (a: Address, l: Ledgers)
    requires RedeemBatch(v, id, calls, nav) == Some(w) && v.book.batches[id].status == Sent
    ensures v.book.batches[id].account == Some(a) && RunCalls(Ledgers(v.rwa, v.stable), calls) == Some(l)
    ensures w.rwa == l.rwa && w.stable == l.stable && w.book.busy == v.book.busy
    ensures Rewrites(v, w, id, v.book.batches[id].(unsent := 0))
  {
    a := v.book.batches[id].account.value;
    l := RunCalls(Ledgers(v.rwa, v.stable), calls).value;
    if id in v.tok.supply { assert v.tok.supply[id := v.tok.supply[id]] == v.tok.supply; }
  }

  lemma ResendCore(v: State, w: State, id: nat, calls: seq<Call>, nav: nat)
    requires Core(v) && RedeemBatch(v, id, calls, nav) == Some(w) && v.book.batches[id].status == Sent
    requires Fair(v, calls, v.book.batches[id].account)
    ensures Core(w)
  {
    var a, l := ResendShape(v, w, id, calls, nav);
    RunCallsFair(v, Ledgers(v.rwa, v.stable), l, calls, Some(a));
    StayPuts(v, w, id, v.book.batches[id].(unsent := 0), a, l);
  }

  /** The batch stays with its account, which holds what it must. */
  lemma StayPuts(v: State, w: State, id: nat, b: Batch, a: Address, l: Ledgers)
    requires Core(v) && id in v.book.batches && v.book.batches[id].status == Sent && v.book.batches[id].account == Some(a)
    requires Rewrites(v, w, id, b) && b == v.book.batches[id].(unsent := b.unsent) && 0 <= b.unsent <= b.units
    requires Spared(v, Some(a), Ledgers(v.rwa, v.stable), l) && w.rwa == l.rwa && w.stable == l.stable
    requires w.book.busy == v.book.busy && Holds(w.rwa, a, b.unsent)
    ensures Core(w)
  {
    assert a in v.accounts;
    assert Own(v, v.me);
    BusyStay(v.book.batches, v.book.busy, v.rwa, w.rwa, id, b, a);
    PutsCore(v, w, id, b, v.tok.supply[id]);
  }

  /** A batch as `Finish` books it. */
  function Booked(b: Batch, proceeds: int, fee: int, nav: nat): Batch
  {
    b.(status := Settled, proceeds := proceeds, fee := fee, remaining := proceeds - fee, navEnd := nav)
  }

  ghost predicate Finished(u: State, w: State, id: nat, b: Batch, proceeds: int, nav: nat)
  {
    && proceeds >= 0 && w.rwa == u.rwa && w.book.busy == u.book.busy && w.tok == u.tok
    && (u.settings.Valid() ==>
          var fee := Floor(proceeds, u.settings.feeBps, BPS);
          && 0 <= fee <= proceeds
          && w.book == u.book.(batches := u.book.batches[id := Booked(b, proceeds, fee, nav)], totals := w.book.totals)
          && w.book.totals == Totals(u.book.totals.pooled, u.book.totals.proceeds + proceeds - fee,
                                     u.book.totals.rwa + b.unsent, u.book.totals.sent - 1)
          && Get(w.stable, u.me) >= Get(u.stable, u.me) - fee)
    && w.me == u.me && w.accounts == u.accounts && w.settings == u.settings
  }

  lemma FinishShape(u: State, w: State, id: nat, b: Batch, proceeds: int, nav: nat)
    requires Finish(u, id, b, proceeds, nav) == Some(w)
    ensures Finished(u, w, id, b, proceeds, nav)
  {
    if u.settings.Valid() { FloorAtMost(proceeds, u.settings.feeBps, BPS); }
  }

  /** A sent batch becomes a settled one; what is left to show is the money. */
  lemma FinishPuts(v: State, u: State, w: State, id: nat, unsent: int, proceeds: int, nav: nat)
    requires Core(v) && id in v.book.batches && v.book.batches[id].status == Sent && unsent >= 0
    requires u == v.(rwa := u.rwa, stable := u.stable, book := v.book.(busy := u.book.busy))
    requires Finished(u, w, id, v.book.batches[id].(unsent := unsent), proceeds, nav)
    requires BusyOk(w.book.batches, w.book.busy, w.rwa) && forall a :: a in u.book.busy ==> a in v.accounts
    requires Get(u.rwa, v.me) >= Get(v.rwa, v.me) + unsent && Get(u.stable, v.me) >= Get(v.stable, v.me) + proceeds
    ensures Core(w)
  {
    var b := w.book.batches[id];
    FinishRewrites(v, u, w, id, unsent, proceeds, nav);
    PutsCore(v, w, id, b, v.tok.supply[id]);
  }

  lemma FinishRewrites(v: State, u: State, w: State, id: nat, unsent: int, proceeds: int, nav: nat)
    requires v.settings.Valid() && id in v.book.batches && v.book.batches[id].status == Sent
    requires v.book.openId == Some(id) ==> v.book.batches[id].status == Open
    requires u == v.(rwa := u.rwa, stable := u.stable, book := v.book.(busy := u.book.busy))
    requires Finished(u, w, id, v.book.batches[id].(unsent := unsent), proceeds, nav)
    ensures id in w.book.batches && w.book.batches[id].status == Settled && Rewrites(v, w, id, w.book.batches[id])
  {
    if id in v.tok.supply { assert v.tok.supply[id := v.tok.supply[id]] == v.tok.supply; }
  }

  lemma SettleShape(v: State, w: State, id: nat, calls: seq<Call>, minProceeds: int, nav: nat)
    returns (a: Address, l: Ledgers, u: State, proceeds: int)
    requires Settle(v, id, calls, minProceeds, nav) == Some(w)
    ensures v.book.batches[id].status == Sent && v.book.batches[id].account == Some(a)
    ensures RunCalls(Ledgers(v.rwa, v.stable), calls) == Some(l)
    ensures u == v.(rwa := u.rwa, stable := Move(l.stable, a, v.me, Get(l.stable, a)), book := v.book.(busy := v.book.busy - {a}))
    ensures u.rwa == if v.book.batches[id].unsent != 0 then Move(l.rwa, a, v.me, v.book.batches[id].unsent) else l.rwa
    ensures Get(u.rwa, v.me) == Get(v.rwa, v.me) + v.book.batches[id].unsent
    ensures proceeds == Get(u.stable, v.me) - Get(v.stable, v.me) && proceeds >= minProceeds
    ensures Finished(u, w, id, v.book.batches[id], proceeds, nav)
  {
    var b := v.book.batches[id];
    a := b.account.value;
    l := RunCalls(Ledgers(v.rwa, v.stable), calls).value;
    u := v.(rwa := if b.unsent != 0 then Move(l.rwa, a, v.me, b.unsent) else l.rwa,
            stable := Move(l.stable, a, v.me, Get(l.stable, a)), book := v.book.(busy := v.book.busy - {a}));
    proceeds := Get(u.stable, v.me) - Get(v.stable, v.me);
    FinishShape(u, w, id, b, proceeds, nav);
  }

  lemma SettleCore(v: State, w: State, id: nat, calls: seq<Call>, minProceeds: int, nav: nat)
    requires Core(v) && Settle(v, id, calls, minProceeds, nav) == Some(w)
    requires Fair(v, calls, v.book.batches[id].account)
    ensures Core(w)
  {
    var a, l, u, proceeds := SettleShape(v, w, id, calls, minProceeds, nav);
    RunCallsFair(v, Ledgers(v.rwa, v.stable), l, calls, Some(a));
    SettleBusy(v, u, w, id, a, l, proceeds, nav);
    FinishPuts(v, u, w, id, v.book.batches[id].unsent, proceeds, nav);
  }

  lemma SettleBusy(v: State, u: State, w: State, id: nat, a: Address, l: Ledgers, proceeds: int, nav: nat)
    requires Core(v) && id in v.book.batches && v.book.batches[id].status == Sent && v.book.batches[id].account == Some(a)
    requires u == v.(rwa := u.rwa, stable := u.stable, book := v.book.(busy := v.book.busy - {a}))
    requires u.rwa == l.rwa || (exists x :: u.rwa == Move(l.rwa, a, v.me, x))
    requires Spared(v, Some(a), Ledgers(v.rwa, v.stable), l) && Finished(u, w, id, v.book.batches[id], proceeds, nav)
    ensures BusyOk(w.book.batches, w.book.busy, w.rwa)
  {
    forall c | c in v.book.busy && c != a
      ensures Get(w.rwa, c) >= Get(v.rwa, c)
    {
      assert Own(v, c);
    }
    BusyEnd(v.book.batches, v.book.busy, v.rwa, w.rwa, id, w.book.batches[id], a);
  }

  lemma SettleTotals(v: State, w: State, id: nat, calls: seq<Call>, minProceeds: int, nav: nat)
    requires Settle(v, id, calls, minProceeds, nav) == Some(w) && v.settings.Valid() && id in v.tok.supply
    requires v.book.openId == Some(id) ==> v.book.batches[id].status == Open
    requires TotalsOk(v.book.batches, v.book.totals)
    ensures TotalsOk(w.book.batches, w.book.totals)
  {
    var a, l, u, proceeds := SettleShape(v, w, id, calls, minProceeds, nav);
    FinishRewrites(v, u, w, id, v.book.batches[id].unsent, proceeds, nav);
    RewritesTotals(v, w, id, w.book.batches[id]);
  }

  lemma ManualShape(v: State, w: State, operator: Address, id: nat, proceeds: int, returned: int, nav: nat)
    returns (u: State)
    requires SettleManual(v, operator, id, proceeds, returned, nav) == Some(w)
    ensures v.book.batches[id].status == Sent && v.book.batches[id].account.None? && External(v, operator) && proceeds >= 0
    ensures u == v.(stable := Move(v.stable, operator, v.me, proceeds), rwa := Move(v.rwa, operator, v.me, returned))
    ensures returned >= 0 && Finished(u, w, id, v.book.batches[id].(unsent := returned), proceeds, nav)
  {
    u := v.(stable := Move(v.stable, operator, v.me, proceeds), rwa := Move(v.rwa, operator, v.me, returned));
    FinishShape(u, w, id, v.book.batches[id].(unsent := returned), proceeds, nav);
  }

  lemma ManualCore(v: State, w: State, operator: Address, id: nat, proceeds: int, returned: int, nav: nat)
    requires Core(v) && SettleManual(v, operator, id, proceeds, returned, nav) == Some(w)
    ensures Core(w)
  {
    var u := ManualShape(v, w, operator, id, proceeds, returned, nav);
    BusyIdle(v.book.batches, v.book.busy, v.rwa, u.rwa, id, w.book.batches[id]);
    FinishPuts(v, u, w, id, returned, proceeds, nav);
  }

  lemma ManualTotals(v: State, w: State, operator: Address, id: nat, proceeds: int, returned: int, nav: nat)
    requires SettleManual(v, operator, id, proceeds, returned, nav) == Some(w) && v.settings.Valid() && id in v.tok.supply
    requires v.book.openId == Some(id) ==> v.book.batches[id].status == Open
    requires TotalsOk(v.book.batches, v.book.totals)
    ensures TotalsOk(w.book.batches, w.book.totals)
  {
    var u := ManualShape(v, w, operator, id, proceeds, returned, nav);
    FinishRewrites(v, u, w, id, returned, proceeds, nav);
    RewritesTotals(v, w, id, w.book.batches[id]);
  }

  function Reopened(b: Batch, returned: int): Batch
  {
    if b.unsent + returned < b.units then b.(unsent := b.unsent + returned)
    else b.(status := Open, account := None, unsent := 0, strike := 0)
  }

  lemma ReopenShape(v: State, w: State, id: nat, calls: seq<Call>, returned: int) returns (a: Address, l: Ledgers)
    requires Reopen(v, id, calls, returned) == Some(w)
    ensures v.book.batches[id].status == Sent && v.book.batches[id].account == Some(a)
    ensures RunCalls(Ledgers(v.rwa, v.stable), calls) == Some(l) && w.stable == l.stable
    ensures returned > 0 && v.book.batches[id].unsent + returned <= v.book.batches[id].units
    ensures Get(l.rwa, a) >= v.book.batches[id].unsent + returned
    ensures var b := Reopened(v.book.batches[id], returned);
            && ((v.book.openId == Some(id) ==> v.book.batches[id].status == Open) ==> Rewrites(v, w, id, b))
            && if b.status == Sent then w.rwa == l.rwa && w.book.busy == v.book.busy
               else w.rwa == Move(l.rwa, a, v.me, Get(l.rwa, a)) && w.book.busy == v.book.busy - {a}
  {
    a := v.book.batches[id].account.value;
    l := RunCalls(Ledgers(v.rwa, v.stable), calls).value;
    if id in v.tok.supply { assert v.tok.supply[id := v.tok.supply[id]] == v.tok.supply; }
  }

  lemma ReopenCore(v: State, w: State, id: nat, calls: seq<Call>, returned: int)
    requires Core(v) && Reopen(v, id, calls, returned) == Some(w)
    requires Fair(v, calls, v.book.batches[id].account)
    ensures Core(w)
  {
    var a, l := ReopenShape(v, w, id, calls, returned);
    RunCallsFair(v, Ledgers(v.rwa, v.stable), l, calls, Some(a));
    var b := Reopened(v.book.batches[id], returned);
    if b.status == Sent { StayPuts(v, w, id, b, a, l); } else { ReopenPuts(v, w, id, b, a, l); }
  }

  lemma ReopenPuts(v: State, w: State, id: nat, b: Batch, a: Address, l: Ledgers)
    requires Core(v) && id in v.book.batches && v.book.batches[id].status == Sent && v.book.batches[id].account == Some(a)
    requires b == v.book.batches[id].(status := Open, account := None, unsent := 0, strike := 0) && Rewrites(v, w, id, b)
    requires Spared(v, Some(a), Ledgers(v.rwa, v.stable), l) && w.stable == l.stable && Get(l.rwa, a) >= b.units
    requires w.rwa == Move(l.rwa, a, v.me, Get(l.rwa, a)) && w.book.busy == v.book.busy - {a}
    ensures Core(w)
  {
    assert a in v.accounts;
    assert Own(v, v.me);
    forall c | c in v.book.busy && c != a
      ensures Get(w.rwa, c) >= Get(v.rwa, c)
    {
      assert Own(v, c);
    }
    BusyEnd(v.book.batches, v.book.busy, v.rwa, w.rwa, id, b, a);
    PutsCore(v, w, id, b, v.tok.supply[id]);
  }

  lemma ReopenTotals(v: State, w: State, id: nat, calls: seq<Call>, returned: int)
    requires Reopen(v, id, calls, returned) == Some(w) && id in v.tok.supply
    requires v.book.openId == Some(id) ==> v.book.batches[id].status == Open
    requires TotalsOk(v.book.batches, v.book.totals)
    ensures TotalsOk(w.book.batches, w.book.totals)
  {
    var a, l := ReopenShape(v, w, id, calls, returned);
    RewritesTotals(v, w, id, Reopened(v.book.batches[id], returned));
  }

  lemma WithdrawShape(v: State, w: State, id: nat, to: Address, nav: nat)
    requires WithdrawBatch(v, id, to, nav) == Some(w)
    ensures v.settings.mode == Manual && v.book.batches[id].status == Open
    ensures w.rwa == Move(v.rwa, v.me, to, v.book.batches[id].units) && w.stable == v.stable && w.book.busy == v.book.busy
    ensures SentFrom(v, w, id, v.book.batches[id].account, nav)
  {
    if id in v.tok.supply { assert v.tok.supply[id := v.tok.supply[id]] == v.tok.supply; }
  }

  lemma WithdrawCore(v: State, w: State, id: nat, to: Address, nav: nat)
    requires Core(v) && WithdrawBatch(v, id, to, nav) == Some(w)
    ensures Core(w)
  {
    WithdrawShape(v, w, id, to, nav);
    var b := SentAs(v.book.batches[id], None, nav, v.settings);
    BusyIdle(v.book.batches, v.book.busy, v.rwa, w.rwa, id, b);
    PutsCore(v, w, id, b, v.tok.supply[id]);
  }

  lemma WithdrawTotals(v: State, w: State, id: nat, to: Address, nav: nat)
    requires WithdrawBatch(v, id, to, nav) == Some(w) && id in v.tok.supply
    requires TotalsOk(v.book.batches, v.book.totals)
    ensures TotalsOk(w.book.batches, w.book.totals)
  {
    WithdrawShape(v, w, id, to, nav);
    PutsTotals(v, w, id, w.book.batches[id], v.tok.supply[id]);
  }

  /** A send nets to nothing on the account it goes through; a resend lowers it by
      the batch's `unsent` units, no more and no less. */
  lemma IssuerTakesExactly(v: State, w: State, id: nat, calls: seq<Call>, nav: nat) returns (a: Address)
    requires RedeemBatch(v, id, calls, nav) == Some(w) && v.me !in v.accounts
    requires v.book.batches[id].status == Open ==> v.book.batches[id].unsent == 0
    ensures id in w.book.batches && w.book.batches[id].account == Some(a) && w.book.batches[id].unsent == 0
    ensures v.book.batches[id].status == Open ==> Get(w.rwa, a) == Get(v.rwa, a)
    ensures v.book.batches[id].status == Sent ==> Get(w.rwa, a) == Get(v.rwa, a) - v.book.batches[id].unsent
  {
    if v.book.batches[id].status == Open {
      FreeAccountIsFree(v.accounts, v.book.busy);
      a := FreeAccount(v.accounts, v.book.busy).value;
    } else {
      a := v.book.batches[id].account.value;
    }
  }

  /** Settling books what arrived at the vault, at least `min_proceeds`: the fee to
      its recipient, the rest to holders, and the unsent RWA back in the vault. */
  lemma SettleBooksArrivals(v: State, w: State, id: nat, calls: seq<Call>, minProceeds: int, nav: nat)
    returns (b: Batch)
    requires Settle(v, id, calls, minProceeds, nav) == Some(w) && v.settings.Valid() && v.settings.feeRecipient != Some(v.me)
    ensures id in w.book.batches && w.book.batches[id] == b && b.status == Settled
    ensures b.proceeds >= minProceeds && b.fee + b.remaining == b.proceeds && b.fee == Floor(b.proceeds, v.settings.feeBps, BPS)
    ensures Get(w.stable, v.me) - Get(v.stable, v.me) == b.remaining
    ensures Get(w.rwa, v.me) - Get(v.rwa, v.me) == b.unsent == v.book.batches[id].unsent
    ensures id in v.book.batches && b.units == v.book.batches[id].units
  {
    var a, l, u, proceeds := SettleShape(v, w, id, calls, minProceeds, nav);
    b := w.book.batches[id];
    FinishPays(u, w, id, v.book.batches[id], proceeds, nav);
  }

  lemma FinishPays(u: State, w: State, id: nat, b: Batch, proceeds: int, nav: nat)
    requires Finish(u, id, b, proceeds, nav) == Some(w) && u.settings.Valid() && u.settings.feeRecipient != Some(u.me)
    ensures Get(w.stable, u.me) == Get(u.stable, u.me) - Floor(proceeds, u.settings.feeBps, BPS)
  {
    if u.settings.feeRecipient.None? { FloorUnique(0, proceeds, 0, BPS); }
  }

  // ---- governance

  /** With nothing counted as sent, no batch is. */
  lemma NoneSent(m: map<nat, Batch>)
    requires Sum(m, SentF()) == 0
    ensures forall id :: id in m ==> m[id].status != Sent
  {
    SumBounds(m, SentF());
    forall id | id in m
      ensures m[id].status != Sent
    {
      assert SentF()(id, m[id]) == SentOf(m[id]);
    }
  }

  lemma SettingsCore(v: State, w: State, s: Settings)
    requires Core(v) && ApplySettings(v, s) == Some(w)
    requires v.book.totals.sent == 0 ==> forall id :: id in v.book.batches ==> v.book.batches[id].status != Sent
    ensures Core(w)
  {}

  lemma AccountCore(v: State, w: State, a: Address)
    requires Core(v) && AddAccount(v, a) == Some(w)
    ensures Core(w)
  {}

  lemma BusyRaise(v: State, rwa: map<Address, int>)
    requires BusyOk(v.book.batches, v.book.busy, v.rwa) && forall a :: a in v.book.busy ==> Get(rwa, a) >= Get(v.rwa, a)
    ensures BusyOk(v.book.batches, v.book.busy, rwa)
  {}

  lemma TransferTokenCore(v: State, w: State, inRwa: bool, from: Address, to: Address, amount: nat)
    requires Core(v) && Transfer(v, inRwa, from, to, amount) == Some(w)
    ensures Core(w)
  {
    BusyRaise(v, w.rwa);
  }

  /** After a skim to anyone else the vault is left with its debts exactly. */
  lemma SkimRwaCore(v: State, to: Address)
    requires Core(v)
    ensures Core(SkimRwa(v, to))
    ensures to != v.me ==> Get(SkimRwa(v, to).rwa, v.me) == v.book.totals.pooled + v.book.totals.rwa
  {
    BusyRaise(v, SkimRwa(v, to).rwa);
  }

  lemma SkimStableCore(v: State, to: Address)
    requires Core(v)
    ensures Core(SkimStable(v, to))
    ensures to != v.me ==> Get(SkimStable(v, to).stable, v.me) == v.book.totals.proceeds
  {}

  // ---- every run

  lemma CoreKept(v: State, step: Step, w: State)
    requires Inv(v) && FairStep(v, step) && Next(v, step) == Some(w)
    ensures Core(w)
  {
    match step
    case DoRequest(owner, units, controller) => RequestCore(v, w, owner, units, controller);
    case DoCancel(owner, id, units, receiver) =>
      HeldWithinSupply(v.tok, id, owner);
      CancelCore(v, w, owner, id, units, receiver);
    case DoClaim(owner, id, shares, receiver) => ClaimCore(v, w, owner, id, shares, receiver);
    case DoBurn(id, holder, amount) =>
      HeldWithinSupply(v.tok, id, holder);
      BurnCore(v, w, id, holder, amount);
    case DoTransferCt(id, holder, to, amount) => TransferCore(v, w, id, holder, to, amount);
    case DoRedeem(id, calls, nav) =>
      if v.book.batches[id].status == Open { RedeemCore(v, w, id, calls, nav); } else { ResendCore(v, w, id, calls, nav); }
    case DoSettle(id, calls, minProceeds, nav) => SettleCore(v, w, id, calls, minProceeds, nav);
    case DoReopen(id, calls, returned) => ReopenCore(v, w, id, calls, returned);
    case DoWithdraw(id, to, nav) => WithdrawCore(v, w, id, to, nav);
    case DoSettleManual(operator, id, proceeds, returned, nav) => ManualCore(v, w, operator, id, proceeds, returned, nav);
    case DoSettings(settings) =>
      if v.book.totals.sent == 0 { NoneSent(v.book.batches); }
      SettingsCore(v, w, settings);
    case DoSkimRwa(to) => SkimRwaCore(v, to);
    case DoSkimStable(to) => SkimStableCore(v, to);
    case DoAddAccount(account) => AccountCore(v, w, account);
    case DoTransfer(inRwa, from, to, sum) => TransferTokenCore(v, w, inRwa, from, to, sum);
  }

  lemma CancelTokens(v: State, w: State, owner: Address, id: nat, amount: int, receiver: Address)
    requires Cancel(v, owner, id, amount, receiver) == Some(w) && TokensOk(v.tok)
    ensures TokensOk(w.tok)
  {
    TokenAdd(v.tok, id, owner, -amount);
  }

  lemma ClaimTokens(v: State, w: State, owner: Address, id: nat, shares: int, receiver: Address)
    requires Claim(v, owner, id, shares, receiver) == Some(w) && TokensOk(v.tok)
    ensures TokensOk(w.tok)
  {
    TokenAdd(v.tok, id, owner, -shares);
  }

  lemma BurnTokens(tok: Tokens, tok': Tokens, id: nat, holder: Address, amount: int)
    requires TokensOk(tok) && id in tok.supply && amount <= Get(tok.ct, Held(id, holder)) && tok' == Add(tok, id, holder, -amount)
    ensures TokensOk(tok')
  {
    TokenAdd(tok, id, holder, -amount);
  }

  lemma TransferTokens(v: State, w: State, id: nat, holder: Address, to: Address, amount: int)
    requires TransferCt(v, id, holder, to, amount) == Some(w) && TokensOk(v.tok)
    ensures TokensOk(w.tok)
  {
    MoveTokens(v.tok, id, holder, to, amount);
  }

  lemma MoveTokens(tok: Tokens, id: nat, holder: Address, to: Address, amount: int)
    requires TokensOk(tok) && id in tok.supply && 0 <= amount <= Get(tok.ct, Held(id, holder))
    ensures TokensOk(Add(Add(tok, id, holder, -amount), id, to, amount))
  {
    var less := Add(tok, id, holder, -amount);
    TokenAdd(tok, id, holder, -amount);
    TokenNonNegative(less, id, to);
    TokenAdd(less, id, to, amount);
  }

  /** What the totals need of the rest. */
  ghost predicate Listed(v: State)
  {
    v.settings.Valid() && IdsOk(v.book.batches, v.book.openId, v.book.next) && v.tok.supply.Keys == v.book.batches.Keys
  }

  lemma TotalsKept(v: State, step: Step, w: State)
    requires Listed(v) && TotalsOk(v.book.batches, v.book.totals) && Next(v, step) == Some(w)
    ensures TotalsOk(w.book.batches, w.book.totals)
  {
    match step
    case DoRequest(owner, units, controller) => RequestTotals(v, w, owner, units, controller);
    case DoCancel(owner, id, units, receiver) => CancelTotals(v, w, owner, id, units, receiver);
    case DoClaim(owner, id, shares, receiver) => ClaimTotals(v, w, owner, id, shares, receiver);
    case DoRedeem(id, calls, nav) =>
      if v.book.batches[id].status == Open {
        RedeemTotals(v, w, id, calls, nav);
      } else {
        var a, l := ResendShape(v, w, id, calls, nav);
        RewritesTotals(v, w, id, v.book.batches[id].(unsent := 0));
      }
    case DoSettle(id, calls, minProceeds, nav) => SettleTotals(v, w, id, calls, minProceeds, nav);
    case DoReopen(id, calls, returned) => ReopenTotals(v, w, id, calls, returned);
    case DoWithdraw(id, to, nav) => WithdrawTotals(v, w, id, to, nav);
    case DoSettleManual(operator, id, proceeds, returned, nav) => ManualTotals(v, w, operator, id, proceeds, returned, nav);
    case _ =>
  }

  lemma TokensKept(v: State, step: Step, w: State)
    requires Listed(v) && TokensOk(v.tok) && Next(v, step) == Some(w)
    ensures TokensOk(w.tok)
  {
    match step
    case DoRequest(owner, units, controller) => RequestTokens(v, w, owner, units, controller);
    case DoCancel(owner, id, units, receiver) => CancelTokens(v, w, owner, id, units, receiver);
    case DoClaim(owner, id, shares, receiver) => ClaimTokens(v, w, owner, id, shares, receiver);
    case DoBurn(id, holder, amount) => BurnTokens(v.tok, w.tok, id, holder, amount);
    case DoTransferCt(id, holder, to, amount) => TransferTokens(v, w, id, holder, to, amount);
    case _ => OthersKeepTokens(v, step, w);
  }

  lemma OthersKeepTokens(v: State, step: Step, w: State)
    requires Next(v, step) == Some(w)
    requires !step.DoRequest? && !step.DoCancel? && !step.DoClaim? && !step.DoBurn? && !step.DoTransferCt?
    ensures w.tok == v.tok
  {}

  /** Every step of the vault, its accounts, the issuer and the holders keeps the
      totals equal to the batches, the balances above what is owed, and each
      account with exactly the batch it serves. */
  lemma StepKeeps(v: State, step: Step)
    requires Inv(v) && FairStep(v, step)
    ensures Inv(After(v, step))
  {
    if Next(v, step).Some? {
      var w := Next(v, step).value;
      CoreKept(v, step, w);
      TotalsKept(v, step, w);
      TokensKept(v, step, w);
    }
  }

  lemma {:induction false} RunKeeps(v: State, steps: seq<Step>)
    requires Inv(v) && FairRun(v, steps)
    ensures Inv(Run(v, steps))
    decreases |steps|
  {
    if steps != [] {
      var front := steps[..|steps| - 1];
      assert FairRun(v, front) by {
        forall i | 0 <= i < |front| ensures FairStep(Run(v, front[..i]), front[i]) { assert front[..i] == steps[..i]; }
      }
      RunKeeps(v, front);
      StepKeeps(Run(v, front), steps[|steps| - 1]);
    }
  }

  lemma InitInv(v: State)
    requires Init(v)
    ensures Inv(v)
  {}

  predicate SentBy(v: State, id: nat, a: Address)
  {
    id in v.book.batches && v.book.batches[id].status == Sent && v.book.batches[id].account == Some(a)
  }

  predicate BusyFor(v: State, a: Address, id: nat) { a in v.book.busy && v.book.busy[a] == id }

  /** In every reachable state: the totals are the sums over the batches, and the
      vault holds what it owes in both tokens. */
  lemma RunSafe(v: State, steps: seq<Step>) returns (w: State)
    requires Init(v) && FairRun(v, steps)
    ensures w == Run(v, steps)
    ensures w.book.totals == Totals(Sum(w.book.batches, PooledF()), Sum(w.book.batches, CashF()),
                                    Sum(w.book.batches, RwaF()), Sum(w.book.batches, SentF()))
    ensures Get(w.rwa, w.me) >= Sum(w.book.batches, PooledF()) + Sum(w.book.batches, RwaF())
    ensures Get(w.stable, w.me) >= Sum(w.book.batches, CashF())
    ensures Inv(w)
  {
    w := Run(v, steps);
    InitInv(v);
    RunKeeps(v, steps);
  }

  /** In every reachable state: an account is busy for a batch exactly when that
      batch is sent from it, so it serves no two; it holds what came back to it;
      and a sent batch has an account exactly in AUTO mode and a strike exactly
      when strikes are at send, whatever settings were applied meanwhile. */
  lemma RunAccounts(v: State, steps: seq<Step>) returns (w: State)
    requires Init(v) && FairRun(v, steps)
    ensures w == Run(v, steps)
    ensures forall a: Address, id: nat :: SentBy(w, id, a) <==> BusyFor(w, a, id)
    ensures forall a: Address, i: nat, j: nat :: SentBy(w, i, a) && SentBy(w, j, a) ==> i == j
    ensures forall a: Address, id: nat :: SentBy(w, id, a) && w.book.batches[id].unsent != 0 ==> Get(w.rwa, a) >= w.book.batches[id].unsent
    ensures forall id :: id in w.book.batches && w.book.batches[id].status == Sent ==>
              && (w.book.batches[id].account.Some? <==> w.settings.mode == Auto)
              && (w.book.batches[id].strike != 0 <==> w.settings.strikeAtSend)
  {
    w := Run(v, steps);
    InitInv(v);
    RunKeeps(v, steps);
    AccountsOf(w);
  }

  lemma AccountsOf(w: State)
    requires BusyOk(w.book.batches, w.book.busy, w.rwa)
    ensures forall a: Address, id: nat :: SentBy(w, id, a) <==> BusyFor(w, a, id)
    ensures forall a: Address, id: nat :: SentBy(w, id, a) && w.book.batches[id].unsent != 0 ==> Get(w.rwa, a) >= w.book.batches[id].unsent
  {}

  // ---- undoing a request, the NAV floor

  lemma CancelRestores(u: State, w: State, z: State, id: nat, owner: Address, units: int, controller: Address)
    requires id in u.book.batches && id in u.tok.supply && owner != u.me && w.me == u.me && units > 0
    requires w.book == u.book.(batches := w.book.batches, totals := w.book.totals)
    requires Puts(u, w, id, Grown(u.book.batches[id], units), u.tok.supply[id] + units) && u.book.batches[id].status == Open
    requires w.tok == Add(u.tok, id, controller, units) && w.rwa == Move(u.rwa, owner, u.me, units) && w.stable == u.stable
    requires Cancel(w, controller, id, units, owner) == Some(z)
    ensures z.book == u.book && z.tok.supply == u.tok.supply && z.stable == u.stable
    ensures (forall a :: Get(z.rwa, a) == Get(u.rwa, a)) && (forall k :: Get(z.tok.ct, k) == Get(u.tok.ct, k))
  {
    assert z.book.batches == u.book.batches;
    assert z.tok.supply == u.tok.supply;
  }

  lemma RequestBook(v: State, w: State, owner: Address, units: int, controller: Address)
    requires RequestRedeem(v, owner, units, controller) == Some(w)
    ensures w.book == OpenBatch(v).book.(batches := w.book.batches, totals := w.book.totals)
    ensures OpenBatch(v).rwa == v.rwa && OpenBatch(v).stable == v.stable && OpenBatch(v).tok.ct == v.tok.ct && OpenBatch(v).me == v.me
  {}

  lemma CancelAllowed(u: State, w: State, id: nat, owner: Address, units: int, controller: Address)
    requires id in u.book.batches && id in u.tok.supply && u.book.batches[id].status == Open && units > 0
    requires Puts(u, w, id, Grown(u.book.batches[id], units), u.tok.supply[id] + units) && w.tok == Add(u.tok, id, controller, units)
    requires u.book.batches[id].units >= 0 && Get(u.tok.ct, Held(id, controller)) >= 0
    ensures Cancel(w, controller, id, units, owner).Some?
  {}

  /** Cancelling what was just requested restores the books, and every balance. */
  lemma CancelUndoesRequest(v: State, w: State, owner: Address, units: int, controller: Address)
    returns (id: nat, z: State)
    requires Inv(v) && RequestRedeem(v, owner, units, controller) == Some(w)
    ensures OpenBatch(v).book.openId == Some(id) && Cancel(w, controller, id, units, owner) == Some(z)
    ensures z.book == OpenBatch(v).book && z.stable == v.stable
    ensures (forall a :: Get(z.rwa, a) == Get(v.rwa, a)) && (forall k :: Get(z.tok.ct, k) == Get(v.tok.ct, k))
  {
    var u := OpenBatch(v);
    id := u.book.openId.value;
    RequestShape(v, w, owner, units, controller);
    RequestBook(v, w, owner, units, controller);
    TokenNonNegative(v.tok, id, controller);
    CancelAllowed(u, w, id, owner, units, controller);
    z := Cancel(w, controller, id, units, owner).value;
    CancelRestores(u, w, z, id, owner, units, controller);
  }

  lemma NestedCeil(units: nat, price: nat, keep: nat)
    ensures Ceil(Ceil(units, price, ONE), keep, BPS) * BPS * ONE >= units * price * keep
  {
    var worth := Ceil(units, price, ONE);
    var floor := Ceil(worth, keep, BPS);
    MulMono(worth * keep, floor * BPS, ONE);
    MulMono(units * price, worth * ONE, keep);
    assert worth * keep * ONE == worth * ONE * keep;
  }

  /** A MANUAL settlement pays at least the NAV of the units redeemed less the
      allowance, whatever was rounded; paying their full NAV is always enough. */
  lemma ManualPaysTheFloor(v: State, operator: Address, id: nat, proceeds: int, returned: int, nav: nat)
    requires SettleManual(v, operator, id, proceeds, returned, nav).Some?
    ensures v.book.batches[id].strike != 0 || nav != 0
    ensures proceeds * BPS * ONE >=
            (v.book.batches[id].units - returned) * Price(v.book.batches[id], nav) * (BPS - v.settings.floorBps)
  {
    var b := v.book.batches[id];
    var floor := NavFloor(v, b, returned, nav);
    NestedCeil(b.units - returned, Price(b, nav), BPS - v.settings.floorBps);
    MulMono(floor, proceeds, BPS);
    MulMono(floor * BPS, proceeds * BPS, ONE);
  }

  lemma FullNavIsEnough(v: State, b: Batch, returned: nat, nav: nat, proceeds: nat)
    requires 0 <= returned <= b.units && b.strike >= 0 && v.settings.floorBps <= BPS
    requires proceeds * ONE >= (b.units - returned) * Price(b, nav)
    ensures proceeds >= NavFloor(v, b, returned, nav)
  {
    var worth := Ceil(b.units - returned, Price(b, nav), ONE);
    CeilMin(proceeds, b.units - returned, Price(b, nav), ONE);
    MulMono(BPS - v.settings.floorBps, BPS, worth);
    MulMono(worth, proceeds, BPS);
    CeilMin(proceeds, worth, BPS - v.settings.floorBps, BPS);
  }

  // ---- claims over a run

  ghost predicate HasPot(v: State, id: nat)
  {
    && id in v.book.batches && id in v.tok.supply && v.book.batches[id].status == Settled
    && v.book.batches[id].remaining >= 0 && v.book.batches[id].unsent >= 0 && v.tok.supply[id] >= 0
  }

  /** What a settled batch has left. */
  ghost function PotOf(v: State, id: nat): Claims.Pot
    requires HasPot(v, id)
  {
    Claims.Pot(v.book.batches[id].remaining, v.book.batches[id].unsent, v.tok.supply[id])
  }

  /** What a step that succeeds does to the pot of batch `id`. */
  function OpsOf(v: State, step: Step, id: nat): seq<Claims.Op>
  {
    match step
    case DoClaim(owner, i, shares, receiver) =>
      if i == id && Claim(v, owner, i, shares, receiver).Some? && shares >= 0 then [Claims.Claim(shares)] else []
    case DoBurn(i, holder, amount) =>
      if i == id && BurnOwn(v, i, holder, amount).Some? && amount >= 0 then [Claims.Burn(amount)] else []
    case _ => []
  }

  function History(v: State, steps: seq<Step>, id: nat): seq<Claims.Op>
  {
    if steps == [] then [] else
      History(v, steps[..|steps| - 1], id) + OpsOf(Run(v, steps[..|steps| - 1]), steps[|steps| - 1], id)
  }

  ghost predicate SamePot(v: State, w: State, id: nat)
    requires id in v.book.batches && id in v.tok.supply
  {
    id in w.book.batches && id in w.tok.supply && w.book.batches[id] == v.book.batches[id] && w.tok.supply[id] == v.tok.supply[id]
  }

  lemma PutsSamePot(v: State, w: State, i: nat, b: Batch, n: int, id: nat)
    requires Puts(v, w, i, b, n) && id in v.book.batches && id in v.tok.supply && i != id
    ensures SamePot(v, w, id)
  {}

  lemma RequestSamePot(v: State, w: State, owner: Address, units: int, controller: Address, id: nat)
    requires Listed(v) && HasPot(v, id) && RequestRedeem(v, owner, units, controller) == Some(w)
    ensures SamePot(v, w, id)
  {
    RequestShape(v, w, owner, units, controller);
    var u := OpenBatch(v);
    assert SamePot(v, u, id) && u.book.batches[u.book.openId.value].status == Open;
    var i := u.book.openId.value;
    PutsSamePot(u, w, i, Grown(u.book.batches[i], units), u.tok.supply[i] + units, id);
  }

  lemma ClaimPot(v: State, w: State, owner: Address, i: nat, shares: int, receiver: Address, id: nat)
    requires HasPot(v, id) && Claim(v, owner, i, shares, receiver) == Some(w)
    ensures i != id ==> SamePot(v, w, id)
    ensures i == id ==> HasPot(w, id) && PotOf(w, id) == Claims.After(PotOf(v, id), Claims.Claim(shares))
  {
    var cash, kind := ClaimShape(v, w, owner, i, shares, receiver);
  }

  lemma FinishSamePot(v: State, u: State, w: State, i: nat, b: Batch, proceeds: int, nav: nat, id: nat)
    requires u == v.(rwa := u.rwa, stable := u.stable, book := v.book.(busy := u.book.busy)) && v.settings.Valid()
    requires Finished(u, w, i, b, proceeds, nav) && id in v.book.batches && id in v.tok.supply && i != id
    ensures SamePot(v, w, id)
  {}

  /** Steps with the issuer are on batches still open or sent. */
  lemma IssuerSamePot(v: State, step: Step, w: State, id: nat)
    requires Listed(v) && HasPot(v, id) && Next(v, step) == Some(w)
    requires step.DoRedeem? || step.DoSettle? || step.DoReopen? || step.DoWithdraw? || step.DoSettleManual?
    ensures SamePot(v, w, id)
  {
    match step
    case DoRedeem(i, calls, nav) =>
      if v.book.batches[i].status == Open {
        var a, l := RedeemShape(v, w, i, calls, nav);
      } else {
        var a, l := ResendShape(v, w, i, calls, nav);
      }
    case DoSettle(i, calls, minProceeds, nav) =>
      var a, l, u, proceeds := SettleShape(v, w, i, calls, minProceeds, nav);
      FinishSamePot(v, u, w, i, v.book.batches[i], proceeds, nav, id);
    case DoReopen(i, calls, returned) =>
      var a, l := ReopenShape(v, w, i, calls, returned);
    case DoWithdraw(i, to, nav) => WithdrawShape(v, w, i, to, nav);
    case DoSettleManual(operator, i, proceeds, returned, nav) =>
      var u := ManualShape(v, w, operator, i, proceeds, returned, nav);
      FinishSamePot(v, u, w, i, v.book.batches[i].(unsent := returned), proceeds, nav, id);
  }

  /** Only claims and burns touch a settled batch's pot, as `Claims` says. */
  lemma OthersSamePot(v: State, step: Step, w: State, id: nat)
    requires Listed(v) && HasPot(v, id) && Next(v, step) == Some(w) && !step.DoClaim? && !step.DoBurn?
    ensures SamePot(v, w, id)
  {
    match step
    case DoRequest(owner, units, controller) => RequestSamePot(v, w, owner, units, controller, id);
    case DoCancel(owner, i, units, receiver) => CancelShape(v, w, owner, i, units, receiver);
    case DoTransferCt(i, holder, to, amount) => TransferSupply(v, w, i, holder, to, amount);
    case DoSettings(_) =>
    case DoSkimRwa(_) =>
    case DoSkimStable(_) =>
    case DoAddAccount(_) =>
    case DoTransfer(_, _, _, _) =>
    case _ => IssuerSamePot(v, step, w, id);
  }

  lemma TransferSupply(v: State, w: State, i: nat, holder: Address, to: Address, amount: int)
    requires TransferCt(v, i, holder, to, amount) == Some(w)
    ensures w.tok.supply == v.tok.supply && w.book == v.book
  {}

  lemma PotStep(v: State, step: Step, id: nat)
    requires Listed(v) && TokensOk(v.tok) && HasPot(v, id)
    ensures HasPot(After(v, step), id) && PotOf(After(v, step), id) == Claims.Run(PotOf(v, id), OpsOf(v, step, id))
  {
    if Next(v, step).Some? {
      var w := Next(v, step).value;
      match step
      case DoClaim(owner, i, shares, receiver) => ClaimPot(v, w, owner, i, shares, receiver, id);
      case DoBurn(i, holder, amount) => HeldWithinSupply(v.tok, i, holder);
      case _ => OthersSamePot(v, step, w, id);
    }
  }

  lemma {:induction false} RunAppend(p: Claims.Pot, a: seq<Claims.Op>, b: seq<Claims.Op>)
    ensures Claims.Run(p, a + b) == Claims.Run(Claims.Run(p, a), b)
    decreases |b|
  {
    if b == [] {
      assert a + b == a;
    } else {
      assert (a + b)[..|a + b| - 1] == a + b[..|b| - 1];
      RunAppend(p, a, b[..|b| - 1]);
    }
  }

  lemma {:induction false} PotRun(v: State, steps: seq<Step>, id: nat)
    requires Inv(v) && FairRun(v, steps) && HasPot(v, id)
    ensures HasPot(Run(v, steps), id) && PotOf(Run(v, steps), id) == Claims.Run(PotOf(v, id), History(v, steps, id))
    ensures Inv(Run(v, steps))
    decreases |steps|
  {
    RunKeeps(v, steps);
    if steps != [] {
      var front := steps[..|steps| - 1];
      assert FairRun(v, front) by {
        forall i | 0 <= i < |front| ensures FairStep(Run(v, front[..i]), front[i]) { assert front[..i] == steps[..i]; }
      }
      PotRun(v, front, id);
      PotStep(Run(v, front), steps[|steps| - 1], id);
      RunAppend(PotOf(v, id), History(v, front, id), OpsOf(Run(v, front), steps[|steps| - 1], id));
    }
  }

  lemma StepMe(v: State, step: Step)
    ensures After(v, step).me == v.me
  {}

  lemma {:induction false} RunMe(v: State, steps: seq<Step>)
    ensures Run(v, steps).me == v.me
    decreases |steps|
  {
    if steps != [] {
      RunMe(v, steps[..|steps| - 1]);
      StepMe(Run(v, steps[..|steps| - 1]), steps[|steps| - 1]);
    }
  }

  /** Once a batch has settled, whatever else the vault does and whoever claims or
      burns in between, a claim pays at least the floor of its share of what the
      batch had then, never more than is left, and the last one takes everything. */
  lemma ClaimInAnyRun(v: State, steps: seq<Step>, id: nat, owner: Address, shares: int, receiver: Address, w: State)
    returns (cash: nat, kind: nat)
    requires Inv(v) && FairRun(v, steps) && HasPot(v, id)
    requires Claim(Run(v, steps), owner, id, shares, receiver) == Some(w) && receiver != v.me
    ensures Get(w.stable, receiver) == Get(Run(v, steps).stable, receiver) + cash
    ensures Get(w.rwa, receiver) == Get(Run(v, steps).rwa, receiver) + kind
    ensures 0 < shares <= v.tok.supply[id] && cash >= Floor(shares, v.book.batches[id].remaining, v.tok.supply[id])
    ensures kind >= Floor(shares, v.book.batches[id].unsent, v.tok.supply[id])
    ensures id in w.book.batches && w.book.batches[id].remaining >= 0 && w.book.batches[id].unsent >= 0
    ensures w.tok.supply[id] == 0 ==> w.book.batches[id].remaining == 0 && w.book.batches[id].unsent == 0
  {
    var r := Run(v, steps);
    var p, ops := PotOf(v, id), History(v, steps, id);
    PotRun(v, steps, id);
    RunMe(v, steps);
    cash, kind := ClaimShape(r, w, owner, id, shares, receiver);
    Claims.RunWorth(p, ops);
    Claims.ClaimPaysSettlementShare(p, ops, shares);
  }
}
