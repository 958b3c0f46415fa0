/** When an RWA next redeems (`crates/common/src/schedule.rs`). */
module Schedule {

  import opened Math

  const MAX_SECONDS: nat := 3650 * 86_400

  datatype Schedule = Rolling(seconds: nat) | Cyclical(cycle: nat, next: nat)

  predicate InHorizon(seconds: nat) { 1 <= seconds <= MAX_SECONDS }

  /** `is_valid`, at the time the schedule is set. */
  predicate IsValid(now: nat, s: Schedule)
  {
    match s
    case Rolling(n) => InHorizon(n)
    case Cyclical(cycle, next) => InHorizon(cycle) && 0 < next <= now + MAX_SECONDS
  }

  function Anchor(now: nat, cycle: nat, next: nat): nat
    requires cycle > 0
  {
    if now >= next then next + ((now - next) / cycle + 1) * cycle else next
  }

  /** `seconds_for`. */
  function SecondsFor(now: nat, s: Schedule): Option<nat>
    requires s.Cyclical? ==> s.cycle > 0
  {
    match s
    case Rolling(n) => Some(n)
    case Cyclical(cycle, next) =>
      var anchor := Anchor(now, cycle, next);
      if now < anchor && anchor - now <= MAX_SECONDS then Some(anchor - now) else None
  }

  /** The anchor is in the future, a whole number of cycles on, and no earlier one is. */
  lemma NextDate(now: nat, cycle: nat, next: nat)
    requires cycle > 0
    ensures Anchor(now, cycle, next) > now
    ensures now < next ==> Anchor(now, cycle, next) == next
    ensures now >= next ==> Anchor(now, cycle, next) - cycle <= now && exists k: nat :: Anchor(now, cycle, next) == next + k * cycle
  {
    if now >= next {
      DivMod(now - next, cycle);
      var k := (now - next) / cycle + 1;
      assert k * cycle == (now - next) / cycle * cycle + cycle;
      assert Anchor(now, cycle, next) == next + k * cycle;
    }
  }

  /** A valid schedule, once set, always has a positive horizon within ten years:
      trading never stops for want of one. */
  lemma AlwaysHasHorizon(listed: nat, now: nat, s: Schedule)
    requires IsValid(listed, s) && listed <= now
    ensures SecondsFor(now, s).Some? && InHorizon(SecondsFor(now, s).value)
  {
    if s.Cyclical? { NextDate(now, s.cycle, s.next); }
  }
}
