/** The facility as the object it is: positions, redemptions and locked gain in its
    storage, each entry point proved to be the step `Facility` says. */
module FacilityContract {

  import opened Math
  import opened Facility

  class TradingFacility {
    var base: int
    var rwas: seq<Rwa>
    var locked: Locked
    var vest: nat
    var now: nat
    var paused: bool

    function Now(): State
      reads this
    {
      State(base, rwas, locked, vest, now, paused)
    }

    predicate Valid()
      reads this
    {
      locked.last <= now
    }

    constructor (vest: nat, now: nat)
      ensures Valid() && Now() == State(0, [], Locked(0, 0, 0), vest, now, false)
    {
      base, rwas, locked, paused := 0, [], Locked(0, 0, 0), false;
      this.vest, this.now := vest, now;
    }

    /** `gross`: a sum over the listed RWAs, less what is locked. */
    method Nav() returns (nav: int)
      requires Valid()
      ensures nav == Gross(Now())
    {
      nav := base;
      for i := 0 to |rwas|
        invariant nav == base + RwaValue(rwas[..i])
      {
        var r := rwas[i];
        if r.units > 0 { nav := nav + Floor(r.units, r.price, ONE); }
        nav := nav + r.Carried();
        assert rwas[..i + 1][..i] == rwas[..i];
        assert r.units == 0 ==> Floor(r.units, r.price, ONE) == 0;
      }
      assert rwas[..|rwas|] == rwas;
      nav := nav - LockedAt(locked, now);
    }

    method AddGain(gain: int)
      requires Valid()
      modifies this`locked
      ensures Valid() && Now() == Book(old(Now()), gain)
    {
      var current := LockedAt(locked, now);
      if gain >= 0 {
        var total := current + gain;
        var left := if locked.end > now then locked.end - now else 0;
        var span := if total > 0 then Floor(current * left + gain * vest, 1, total) else 0;
        locked := Locked(total, now, now + span);
      } else {
        locked := Locked(Max(current + gain, 0), now, locked.end);
      }
    }

    method Receive(t: Token, amount: nat)
      requires Listed(Now(), t)
      modifies this`base, this`rwas
      ensures Now() == Shift(old(Now()), t, amount)
    {
      match t
      case Base => base := base + amount;
      case Asset(i) => rwas := rwas[i := rwas[i].(units := rwas[i].units + amount)];
    }

    method Pay(t: Token, amount: nat)
      requires Listed(Now(), t) && (t.Asset? ==> amount <= rwas[t.index].units)
      modifies this`base, this`rwas
      ensures Now() == Shift(old(Now()), t, 0 - amount)
    {
      match t
      case Base => base := base - amount;
      case Asset(i) => rwas := rwas[i := rwas[i].(units := rwas[i].units - amount)];
    }

    method Exchange(tin: Token, tout: Token, q: int, minOut: int, free: int) returns (out: Option<nat>)
      requires Valid()
      modifies this
      ensures Valid()
      ensures match Trade(old(Now()), tin, tout, q, minOut, free)
              case None => out.None? && Now() == old(Now())
              case Some(w) => out.Some? && out.value == PriceTrade(old(Now()), tin, tout, q).value.out && Now() == w
    {
      var saved := Now();
      var t := PriceTrade(Now(), tin, tout, q);
      if t.None? || t.value.out < minOut || (tout.Base? && (t.value.out > free || t.value.out > base)) { return None; }
      var nav := Nav();
      Receive(tin, q);
      Pay(tout, t.value.out);
      AddGain(t.value.gain);
      if !WithinCap(Now(), tin, nav) {
        base, rwas, locked := saved.base, saved.rwas, saved.locked;
        return None;
      }
      out := Some(t.value.out);
    }

    method SendToIssuer(i: nat, amount: int) returns (ok: bool)
      requires Valid()
      modifies this`rwas
      ensures Valid()
      ensures match BookRedemption(old(Now()), i, amount)
              case None => !ok && Now() == old(Now())
              case Some(w) => ok && Now() == w
    {
      if i >= |rwas| || rwas[i].booked.Some? || rwas[i].price == 0 || amount <= 0 || amount > rwas[i].units { return false; }
      var r := rwas[i];
      rwas := rwas[i := r.(units := r.units - amount, booked := Some(Mark(r, amount)))];
      ok := true;
    }

    method Close(i: nat, received: int)
      requires i < |rwas|
      modifies this`base, this`rwas
      ensures Now() == Closed(old(Now()), i, received)
    {
      base := base + received;
      rwas := rwas[i := rwas[i].(booked := None)];
    }

    method SettleRedemption(i: nat, proceeds: int) returns (ok: bool)
      requires Valid()
      modifies this
      ensures Valid()
      ensures match Settle(old(Now()), i, proceeds)
              case None => !ok && Now() == old(Now())
              case Some(w) => ok && Now() == w
    {
      if i >= |rwas| || rwas[i].booked.None? || proceeds < rwas[i].booked.value { return false; }
      var carried := rwas[i].booked.value;
      Close(i, proceeds);
      AddGain(proceeds - carried);
      ok := true;
    }

    method WriteOff(i: nat, recovered: int) returns (ok: bool)
      requires Valid()
      modifies this
      ensures Valid()
      ensures match WriteDown(old(Now()), i, recovered)
              case None => !ok && Now() == old(Now())
              case Some(w) => ok && Now() == w
    {
      if i >= |rwas| || rwas[i].booked.None? || recovered < 0 || recovered >= rwas[i].booked.value { return false; }
      var carried := rwas[i].booked.value;
      Close(i, recovered);
      AddGain(recovered - carried);
      ok := true;
    }
  }
}
