/** What a list of active entitlements says (src/tier/entitlement-read.ts, `viewEntitlements`). */
module BillingView {
  import opened Common
  import opened Tiers

  type Entitlement = string
  type Pack = string

  /** One listed entitlement; the end is in milliseconds, or absent. */
  datatype Item = Item(id: Entitlement, expiresAt: Option<int>)

  datatype StoreConfig = StoreConfig(entitlements: map<Entitlement, Tier>, packEntitlements: map<Entitlement, Pack>)

  /** Each pack with its end in seconds, where `None` is no end date. */
  type Packs = map<Pack, Option<int>>

  datatype StoreView = StoreView(tier: Tier, packs: Packs, unknownIds: seq<Entitlement>)

  const NOTHING: StoreView := StoreView(Free, map[], [])

  predicate Known(config: StoreConfig, id: Entitlement) {
    id in config.entitlements || id in config.packEntitlements
  }

  function EndSeconds(item: Item): Option<int> {
    if item.expiresAt.None? then None else Some(item.expiresAt.value / 1_000)
  }

  /** The later of two ends; no end date is later than any. */
  function LaterEnd(a: Option<int>, b: Option<int>): Option<int> {
    if a.None? || b.None? then None else Some(Max(a.value, b.value))
  }

  function AddPack(packs: Packs, pack: Pack, end: Option<int>): Packs {
    packs[pack := if pack in packs then LaterEnd(packs[pack], end) else end]
  }

  function AddItem(view: StoreView, item: Item, config: StoreConfig): StoreView {
    if !Known(config, item.id)
    then if item.id in view.unknownIds then view else view.(unknownIds := view.unknownIds + [item.id])
    else
      view.(tier := if item.id in config.entitlements then HigherOf(config.entitlements[item.id], view.tier)
            else view.tier,
            packs := if item.id in config.packEntitlements
                     then AddPack(view.packs, config.packEntitlements[item.id], EndSeconds(item)) else view.packs)
  }

  function View(items: seq<Item>, config: StoreConfig): StoreView {
    if items == [] then NOTHING
    else AddItem(View(items[..|items| - 1], config), items[|items| - 1], config)
  }

  // ---------------------------------------------------------------- what the view means

  predicate Gives(item: Item, config: StoreConfig, pack: Pack) {
    item.id in config.packEntitlements && config.packEntitlements[item.id] == pack
  }

  /** The tier is one the list pays for, and no listed entitlement pays for a higher one. */
  ghost predicate TierOf(items: seq<Item>, config: StoreConfig, tier: Tier) {
    && (tier == Free
        || exists item :: item in items && item.id in config.entitlements && config.entitlements[item.id] == tier)
    && forall item :: item in items && item.id in config.entitlements ==>
        !IsHigherTier(config.entitlements[item.id], tier)
  }

  /** `a` is no later an end than `b`, where no end date is later than any. */
  predicate NoLater(a: Option<int>, b: Option<int>) {
    b.None? || (a.Some? && a.value <= b.value)
  }

  /** The entitlement ends within this second, or has no end as the pack has none. */
  predicate EndsIn(item: Item, end: Option<int>) {
    if end.None? then item.expiresAt.None?
    else item.expiresAt.Some? && end.value * 1_000 <= item.expiresAt.value < (end.value + 1) * 1_000
  }

  /** The entitlement is over once this second is. */
  predicate EndsBy(item: Item, end: Option<int>) {
    end.None? || (item.expiresAt.Some? && item.expiresAt.value < (end.value + 1) * 1_000)
  }

  /** A pack is held when some listed entitlement gives it, and its end is the latest of the ends listed for it. */
  ghost predicate PackOf(items: seq<Item>, config: StoreConfig, packs: Packs, pack: Pack) {
    if pack in packs
    then (exists item :: item in items && Gives(item, config, pack) && EndsIn(item, packs[pack]))
         && (forall item :: item in items && Gives(item, config, pack) ==> EndsBy(item, packs[pack]))
    else forall item :: item in items ==> !Gives(item, config, pack)
  }

  /** Exactly the listed identifiers that neither map names, each once. */
  ghost predicate UnknownOf(items: seq<Item>, config: StoreConfig, unknownIds: seq<Entitlement>) {
    && (forall id :: id in unknownIds ==>
          id !in config.entitlements && id !in config.packEntitlements && exists item :: item in items && item.id == id)
    && (forall item :: item in items && item.id !in config.entitlements && item.id !in config.packEntitlements ==>
          item.id in unknownIds)
    && (forall i, j :: 0 <= i < j < |unknownIds| ==> unknownIds[i] != unknownIds[j])
  }

  ghost predicate Matches(items: seq<Item>, config: StoreConfig, view: StoreView) {
    && TierOf(items, config, view.tier)
    && (forall pack :: PackOf(items, config, view.packs, pack))
    && UnknownOf(items, config, view.unknownIds)
  }

  lemma {:induction false} ViewMatches(items: seq<Item>, config: StoreConfig)
    ensures Matches(items, config, View(items, config))
    decreases |items|
  {
    if items == [] {
      forall pack ensures PackOf(items, config, NOTHING.packs, pack) {}
    } else {
      var n := |items| - 1;
      var before := View(items[..n], config);
      ViewMatches(items[..n], config);
      assert items[..n] + [items[n]] == items;
      AddTierOf(items[..n], items[n], config, before);
      AddUnknownOf(items[..n], items[n], config, before);
      forall pack ensures PackOf(items, config, View(items, config).packs, pack) {
        AddPackOf(items[..n], items[n], config, before, pack);
      }
    }
  }

  lemma AddTierOf(items: seq<Item>, item: Item, config: StoreConfig, view: StoreView)
    requires TierOf(items, config, view.tier)
    ensures TierOf(items + [item], config, AddItem(view, item, config).tier)
  {
  }

  lemma AddUnknownOf(items: seq<Item>, item: Item, config: StoreConfig, view: StoreView)
    requires UnknownOf(items, config, view.unknownIds)
    ensures UnknownOf(items + [item], config, AddItem(view, item, config).unknownIds)
  {
  }

  lemma SecondsOf(item: Item, end: Option<int>)
    ensures EndsIn(item, end) <==> EndSeconds(item) == end
    ensures EndsBy(item, end) <==> NoLater(EndSeconds(item), end)
  {
  }

  lemma AddPackOf(items: seq<Item>, item: Item, config: StoreConfig, view: StoreView, pack: Pack)
    requires PackOf(items, config, view.packs, pack)
    ensures PackOf(items + [item], config, AddItem(view, item, config).packs, pack)
  {
    var packs := AddItem(view, item, config).packs;
    if pack in packs {
      forall other ensures EndsBy(other, packs[pack]) <==> NoLater(EndSeconds(other), packs[pack]) {
        SecondsOf(other, packs[pack]);
      }
      if Gives(item, config, pack) {
        SecondsOf(item, packs[pack]);
        assert item in items + [item];
      }
      if pack in view.packs {
        var listed :| listed in items && Gives(listed, config, pack) && EndsIn(listed, view.packs[pack]);
        assert listed in items + [item];
        forall other ensures EndsBy(other, view.packs[pack]) <==> NoLater(EndSeconds(other), view.packs[pack]) {
          SecondsOf(other, view.packs[pack]);
        }
      }
    }
  }

  /** The order in which the store lists its entitlements decides neither the tier nor the packs. */
  lemma ViewIgnoresOrder(items: seq<Item>, items': seq<Item>, config: StoreConfig)
    requires multiset(items) == multiset(items')
    ensures View(items, config).tier == View(items', config).tier
    ensures View(items, config).packs == View(items', config).packs
    ensures forall id :: id in View(items, config).unknownIds <==> id in View(items', config).unknownIds
  {
    var v, w := View(items, config), View(items', config);
    ViewMatches(items, config);
    ViewMatches(items', config);
    assert Within(items, items') by { assert forall item :: item in items ==> item in multiset(items'); }
    assert Within(items', items) by { assert forall item :: item in items' ==> item in multiset(items); }
    forall pack ensures pack in v.packs <==> pack in w.packs
                ensures pack in v.packs ==> v.packs[pack] == w.packs[pack] {
      OnePack(items, items', config, v.packs, w.packs, pack);
    }
    assert v.packs.Keys == w.packs.Keys;
  }

  ghost predicate Within(a: seq<Item>, b: seq<Item>) {
    forall item :: item in a ==> item in b
  }

  lemma OnePack(a: seq<Item>, b: seq<Item>, config: StoreConfig, p: Packs, q: Packs, pack: Pack)
    requires PackOf(a, config, p, pack) && PackOf(b, config, q, pack) && Within(a, b) && Within(b, a)
    ensures pack in p <==> pack in q
    ensures pack in p ==> p[pack] == q[pack]
  {
  }

  /** `viewEntitlements`, as the loop over the list. */
  method ViewEntitlements(items: seq<Item>, config: StoreConfig) returns (view: StoreView)
    ensures view == View(items, config)
    ensures Matches(items, config, view)
  {
    view := NOTHING;
    var i := 0;
    while i < |items|
      invariant 0 <= i <= |items|
      invariant view == View(items[..i], config)
    {
      var item := items[i];
      assert items[..i + 1][..i] == items[..i];
      i := i + 1;
      if item.id !in config.entitlements && item.id !in config.packEntitlements {
        if item.id !in view.unknownIds {
          view := view.(unknownIds := view.unknownIds + [item.id]);
        }
        continue;
      }
      if item.id in config.entitlements && IsHigherTier(config.entitlements[item.id], view.tier) {
        view := view.(tier := config.entitlements[item.id]);
      }
      if item.id in config.packEntitlements {
        var pack := config.packEntitlements[item.id];
        var end := EndSeconds(item);
        if pack !in view.packs {
          view := view.(packs := view.packs[pack := end]);
        } else if view.packs[pack].Some? {
          view := view.(packs := view.packs[pack := if end.None? then None
                                            else Some(Max(view.packs[pack].value, end.value))]);
        }
      }
    }
    assert items[..|items|] == items;
    ViewMatches(items, config);
  }

  // ---------------------------------------------------------------- the daily sweep's reading of the same list

  predicate IsRunning(item: Item, now: int) {
    item.expiresAt.None? || item.expiresAt.value > now * 1_000
  }

  /** Among the entitlements still running, all are named, this is one they pay for, and none pays for a higher one. */
  ghost predicate SweepTierOf(items: seq<Item>, entitlements: map<Entitlement, Tier>, now: int, best: Tier) {
    && (best == Free
        || exists item ::
             item in items && IsRunning(item, now) && item.id in entitlements && entitlements[item.id] == best)
    && (forall item :: item in items && IsRunning(item, now) && item.id in entitlements ==>
        !IsHigherTier(entitlements[item.id], best))
  }

  /** `entitledTier` of the sweep: no answer as soon as one running entitlement is not named. */
  method SweepTier(items: seq<Item>, entitlements: map<Entitlement, Tier>, now: int) returns (tier: Option<Tier>)
    ensures tier.None? <==> exists item :: item in items && IsRunning(item, now) && item.id !in entitlements
    ensures tier.Some? ==> SweepTierOf(items, entitlements, now, tier.value)
  {
    var best, unknown := Free, false;
    var i := 0;
    while i < |items|
      invariant 0 <= i <= |items|
      invariant unknown <==> exists item :: item in items[..i] && IsRunning(item, now) && item.id !in entitlements
      invariant SweepTierOf(items[..i], entitlements, now, best)
    {
      var item := items[i];
      assert items[..i + 1] == items[..i] + [item];
      i := i + 1;
      if item.expiresAt.Some? && item.expiresAt.value <= now * 1_000 {
        continue;
      }
      if item.id !in entitlements {
        unknown := true;
        assert item in items[..i];
        continue;
      }
      if IsHigherTier(entitlements[item.id], best) {
        best := entitlements[item.id];
      }
    }
    assert items[..i] == items;
    return if unknown then None else Some(best);
  }
}
