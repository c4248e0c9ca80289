/** Account tiers and the rule that moves them (src/tier/revenuecat.ts). */
module Tiers {
  datatype Tier = Free | Relay | Hosted

  function Rank(tier: Tier): nat {
    match tier
    case Free => 0
    case Relay => 1
    case Hosted => 2
  }

  predicate IsHigherTier(tier: Tier, than: Tier) {
    Rank(tier) > Rank(than)
  }

  function HigherOf(a: Tier, b: Tier): Tier {
    if IsHigherTier(a, b) then a else b
  }

  /** The best of the tiers an account's customer ids pay for; with none it is free. */
  function Highest(tiers: set<Tier>): (highest: Tier)
    ensures forall tier :: tier in tiers ==> !IsHigherTier(tier, highest)
    ensures highest == Free || highest in tiers
  {
    if Hosted in tiers then Hosted else if Relay in tiers then Relay else Free
  }

  /**
   The account's tier after one billing row was written. `highest` is over the account's rows, the written one
   included. It never ends below `highest`, and it falls exactly when the written row was a source of the tier
   the account loses.
   */
  function AccountTierAfter(current: Tier, highest: Tier, rowBefore: Tier, rowAfter: Tier): (next: Tier)
    ensures !IsHigherTier(highest, next)
    ensures next == current || next == highest
    ensures IsHigherTier(current, next) <==>
              IsHigherTier(current, highest) && IsHigherTier(rowBefore, rowAfter) && Rank(rowBefore) >= Rank(current)
  {
    var wasSource := IsHigherTier(rowBefore, rowAfter) && !IsHigherTier(current, rowBefore);
    if IsHigherTier(highest, current) || wasSource then highest else current
  }
}
