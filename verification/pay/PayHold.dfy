// The persisted "don't pay again" record of one payment (tsa-app/services/payHold.ts).
module PayHold {

  const HOLD_MAX_MS: nat := 24 * 60 * 60_000

  // `intent`: what may be out there, a swap's sell intent or a direct deposit's payout order.
  datatype Stored = NoHold | Hold(intent: nat, at: nat) | Unreadable

  predicate Active(h: Stored, now: nat) { h.Hold? && now - h.at <= HOLD_MAX_MS }

  // A record counts for 24 hours, 86,400,000 ms, and through the last of them.
  lemma ActiveForADay(intent: nat, at: nat, now: nat)
    ensures Active(Hold(intent, at), now) <==> now <= at + 86_400_000
    ensures HOLD_MAX_MS == 86_400_000
  {
  }
}
