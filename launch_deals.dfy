/** The launch-deals section of the menu page: nothing at all when both
    deals are off; otherwise a bundle card (when the bundle is on) and a
    mix-and-match card (when that deal is on). The bundle card offers the
    order link only while the bundle is in stock, and a stock snapshot that
    has not loaded yet (missing or empty) counts as in stock. */
module LaunchDeals {
  import opened Common
  import opened Inventory
  import opened Deals

  /** Where the bundle card's button leads. */
  const BundleOrderLink := "/order?bundle=full-collection"

  /** The badge in the bundle card's corner. */
  datatype CardBadge = Save(amount: int) | SoldOut

  /** The bundle card: its badge, and either the order link or a disabled
      "Currently Unavailable" button (`orderLink == None`). */
  datatype BundleCard = BundleCard(badge: CardBadge, orderLink: Option<string>)

  datatype View = Hidden | Shown(bundleCard: Option<BundleCard>, mixMatchCard: bool)

  /** bundleInStock: the availability check fails open. A snapshot that is
      missing or empty (not loaded yet, or a failed fetch, which also yields
      the empty map) leaves the bundle in stock even when it is switched off;
      a loaded snapshot defers to the bundle's stock rule. */
  predicate BundleInStock(bundle: Bundle, stockMap: Option<StockMap>)
    ensures (stockMap.None? || stockMap.value == map[]) ==> BundleInStock(bundle, stockMap)
    ensures BundleInStock(bundle, stockMap) && stockMap.Some? && stockMap.value != map[] ==>
      bundle.active && ClampedStockSum(bundle.eligibleProducts, stockMap.value) >= bundle.maxItems
    ensures !bundle.active ==> (BundleInStock(bundle, stockMap) <==> stockMap.None? || stockMap.value == map[])
  {
    if stockMap.Some? && |stockMap.value| > 0 then BundleAvailable(bundle, stockMap.value) else true
  }

  /** The component's output for the two configured deals and a stock snapshot. */
  function Render(bundle: Bundle, mixAndMatch: TierDeal, stockMap: Option<StockMap>): (v: View)
    ensures v == Hidden <==> !bundle.active && !mixAndMatch.active
    ensures v.Shown? ==> (v.bundleCard.Some? <==> bundle.active) && (v.mixMatchCard <==> mixAndMatch.active)
    ensures v.Shown? && v.bundleCard.Some? ==>
      var card := v.bundleCard.value;
      && (card.orderLink.Some? <==> BundleInStock(bundle, stockMap))
      && (card.orderLink.Some? ==> card.orderLink.value == BundleOrderLink && card.badge == Save(bundle.savings))
      && (card.orderLink.None? <==> card.badge == SoldOut)
  {
    if !bundle.active && !mixAndMatch.active then Hidden
    else
      var inStock := BundleInStock(bundle, stockMap);
      var card := if inStock then BundleCard(Save(bundle.savings), Some(BundleOrderLink))
                  else BundleCard(SoldOut, None);
      Shown(if bundle.active then Some(card) else None, mixAndMatch.active)
  }

  /** The bundle card offers the order link exactly when the bundle is
      switched on and either the snapshot has not loaded or it holds at least
      `maxItems` bags across the eligible flavours. */
  lemma OrderLinkOffered(bundle: Bundle, mixAndMatch: TierDeal, stockMap: Option<StockMap>)
    ensures var v := Render(bundle, mixAndMatch, stockMap);
      (v.Shown? && v.bundleCard.Some? && v.bundleCard.value.orderLink.Some?)
      <==> bundle.active &&
           (stockMap.None? || |stockMap.value| == 0 ||
            ClampedStockSum(bundle.eligibleProducts, stockMap.value) >= bundle.maxItems)
  {
  }

  /** Restocking never turns the loaded bundle card from available to sold out. */
  lemma RestockKeepsOrderLink(bundle: Bundle, stock: StockMap, sku: Sku, qty: int)
    requires |stock| > 0 && BundleInStock(bundle, Some(stock))
    requires qty >= GetStockLevel(stock, sku)
    ensures BundleInStock(bundle, Some(stock[sku := qty]))
  {
    RaisingStockKeepsBundleAvailable(bundle, stock, sku, qty);
  }

  /** With the configured deals the section is always shown, with both cards. */
  lemma ConfiguredSectionShown(stockMap: Option<StockMap>)
    ensures var v := Render(CollectionBundle, MixAndMatch, stockMap);
      v.Shown? && v.bundleCard.Some? && v.mixMatchCard
  {
  }
}
