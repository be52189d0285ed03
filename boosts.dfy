/** The helpers of the active-boosts admin page: days remaining, the "Expiring Soon" badge and type colours. */
module Boosts {

  /** Milliseconds in a day: `1000 * 60 * 60 * 24`. */
  const DayMs: int := 1000 * 60 * 60 * 24

  /** `Math.ceil(diff / DayMs)` for an integral millisecond difference. */
  function CeilDays(diff: int): (d: int)
    ensures d * DayMs >= diff
    ensures (d - 1) * DayMs < diff
  {
    (diff + DayMs - 1) / DayMs
  }

  /** `getDaysRemaining(endDate)`, with the end and the current time in milliseconds. */
  function DaysRemaining(endMs: int, nowMs: int): (days: int)
    ensures days >= 0
    ensures endMs <= nowMs ==> days == 0
    ensures endMs > nowMs ==> days >= 1 && days * DayMs >= endMs - nowMs && (days - 1) * DayMs < endMs - nowMs
  {
    var diffDays := CeilDays(endMs - nowMs);
    if diffDays > 0 then diffDays else 0
  }

  /** The badge is shown when at most two days remain. */
  predicate ExpiringSoon(endMs: int, nowMs: int) {
    DaysRemaining(endMs, nowMs) <= 2
  }

  /** The badge is shown exactly when the boost ends within 48 hours, ended boosts included. */
  lemma ExpiringSoonWithinTwoDays(endMs: int, nowMs: int)
    ensures ExpiringSoon(endMs, nowMs) <==> endMs - nowMs <= 2 * DayMs
  {
  }

  /** The remaining days never grow as time passes. */
  lemma DaysRemainingNonIncreasing(endMs: int, now1: int, now2: int)
    requires now1 <= now2
    ensures DaysRemaining(endMs, now2) <= DaysRemaining(endMs, now1)
  {
  }

  const DefaultColor: string := "bg-gray-500/20 text-gray-500"

  /** `getBoostTypeColor(type)`: the six known boost types have their own colour, anything else is gray. */
  function BoostTypeColor(boostType: string): (c: string)
    ensures boostType == "top" ==> c == "bg-red-500/20 text-red-500"
    ensures boostType == "priority" ==> c == "bg-orange-500/20 text-orange-500"
    ensures boostType == "bump" ==> c == "bg-yellow-500/20 text-yellow-500"
    ensures boostType == "spotlight" ==> c == "bg-purple-500/20 text-purple-500"
    ensures boostType == "homepage" ==> c == "bg-pink-500/20 text-pink-500"
    ensures boostType == "urgent" ==> c == "bg-blue-500/20 text-blue-500"
    ensures boostType !in {"top", "priority", "bump", "spotlight", "homepage", "urgent"} ==> c == DefaultColor
  {
    var colors := map[
      "top" := "bg-red-500/20 text-red-500",
      "priority" := "bg-orange-500/20 text-orange-500",
      "bump" := "bg-yellow-500/20 text-yellow-500",
      "spotlight" := "bg-purple-500/20 text-purple-500",
      "homepage" := "bg-pink-500/20 text-pink-500",
      "urgent" := "bg-blue-500/20 text-blue-500"];
    if boostType in colors && colors[boostType] != "" then colors[boostType] else DefaultColor
  }
}
