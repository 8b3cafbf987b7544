/** The deal engine: the two tiered "N for $X" discounts, the eligibility
    predicates, and the customizable "Crunch Jackpot" bundle (availability,
    per-SKU stock, selection total and the order lines a selection expands to). */
module Deals {
  import opened Common
  import opened Inventory

  /** A catalogue size, reduced to the two fields the deals test. */
  datatype Size = Size(name: string, price: int)

  type Positive = n: int | n > 0 witness 1

  /** An "N for $X" deal: `requiredQuantity` items cost `dealPricePerSet`
      instead of `requiredQuantity * regularPricePerItem`. A line qualifies by
      its size name or by its unit price. */
  datatype TierDeal = TierDeal(
    active: bool,
    regularPricePerItem: int,
    dealPricePerSet: int,
    savingsPerSet: int,
    requiredQuantity: Positive,
    eligibleSizeName: string,
    eligiblePrice: int)

  /** "Stock Up & Save": any 3 Large bags (or $10 items) for $27. */
  const MixAndMatch := TierDeal(true, 10, 27, 3, 3, "Large", 10)

  /** "Double Up": any 2 Regular bags (or $8 items) for $15. */
  const RegularDeal := TierDeal(true, 8, 15, 1, 2, "Regular", 8)

  /** What both calculators return. */
  datatype DealResult = DealResult(savings: int, dealSets: int, eligibleCount: int)

  /** One entry of the cart object `{ productId_sizeId: count }`, in key order. */
  datatype CartLine = CartLine(key: string, qty: int)

  /** Cart keys with this prefix are the bundle's own line and never count. */
  const BundleKeyPrefix := "full-collection-bundle"

  predicate IsBundleKey(key: string)
  {
    BundleKeyPrefix <= key
  }

  predicate QuantitiesNonNegative(cart: seq<CartLine>)
  {
    forall i :: 0 <= i < |cart| ==> cart[i].qty >= 0
  }

  /** The test both calculators apply inline to the size a key resolves to. */
  predicate MatchesDeal(deal: TierDeal, size: Option<Size>)
  {
    size.Some? && (size.value.name == deal.eligibleSizeName || size.value.price == deal.eligiblePrice)
  }

  /** The exported predicate: false for an inactive deal or a missing size. */
  predicate IsEligible(deal: TierDeal, size: Option<Size>)
  {
    deal.active && MatchesDeal(deal, size)
  }

  /** isEligibleForMixMatch. */
  predicate IsEligibleForMixMatch(size: Option<Size>)
    ensures IsEligibleForMixMatch(size) <==>
            size.Some? && (size.value.name == "Large" || size.value.price == 10)
  {
    IsEligible(MixAndMatch, size)
  }

  /** isEligibleForRegularDeal. */
  predicate IsEligibleForRegularDeal(size: Option<Size>)
    ensures IsEligibleForRegularDeal(size) <==>
            size.Some? && (size.value.name == "Regular" || size.value.price == 8)
  {
    IsEligible(RegularDeal, size)
  }

  /** What one cart entry adds to `eligibleCount`. */
  function Contribution(deal: TierDeal, line: CartLine, lookup: string -> Option<Size>): int
  {
    if !IsBundleKey(line.key) && MatchesDeal(deal, lookup(line.key)) then line.qty else 0
  }

  /** `eligibleCount` after the forEach over `cart`. */
  function EligibleCount(deal: TierDeal, cart: seq<CartLine>, lookup: string -> Option<Size>): int
  {
    if cart == [] then 0
    else EligibleCount(deal, cart[..|cart| - 1], lookup) + Contribution(deal, cart[|cart| - 1], lookup)
  }

  /** JavaScript `a % b` for b > 0: the remainder truncates toward zero, so it
      takes the sign of `a`. */
  function JsRem(a: int, b: Positive): (r: int)
    ensures -(b as int) < r < b
    ensures a >= 0 ==> 0 <= r && r == a % b
    ensures a < 0 ==> r <= 0
  {
    if a >= 0 then a % b else -((-a) % b)
  }

  /** The arithmetic after the loop, for `n` eligible items. `Math.floor(n / k)`
      with k > 0 is Dafny's `/`. */
  function TierOutcome(deal: TierDeal, n: int): DealResult
  {
    var dealSets := n / deal.requiredQuantity;
    var remainder := JsRem(n, deal.requiredQuantity);
    var normalPrice := n * deal.regularPricePerItem;
    var dealPrice := dealSets * deal.dealPricePerSet + remainder * deal.regularPricePerItem;
    DealResult(normalPrice - dealPrice, dealSets, n)
  }

  /** The shared body of calculateMixMatchDiscount and calculateRegularDiscount. */
  method CalculateDiscount(deal: TierDeal, cart: seq<CartLine>, lookup: string -> Option<Size>)
    returns (r: DealResult)
    ensures !deal.active ==> r == DealResult(0, 0, 0)
    ensures deal.active ==> r == TierOutcome(deal, EligibleCount(deal, cart, lookup))
  {
    if !deal.active {
      return DealResult(0, 0, 0);
    }
    var eligibleCount := 0;
    for i := 0 to |cart|
      invariant eligibleCount == EligibleCount(deal, cart[..i], lookup)
    {
      assert cart[..i + 1][..i] == cart[..i];
      var key := cart[i].key;
      if !IsBundleKey(key) {
        var size := lookup(key);
        if size.Some? && (size.value.name == deal.eligibleSizeName || size.value.price == deal.eligiblePrice) {
          eligibleCount := eligibleCount + cart[i].qty;
        }
      }
    }
    assert cart[..|cart|] == cart;
    var dealSets := eligibleCount / deal.requiredQuantity;
    var remainder := JsRem(eligibleCount, deal.requiredQuantity);
    var normalPrice := eligibleCount * deal.regularPricePerItem;
    var dealPrice := dealSets * deal.dealPricePerSet + remainder * deal.regularPricePerItem;
    r := DealResult(normalPrice - dealPrice, dealSets, eligibleCount);
  }

  /** For a non-negative count the tier arithmetic saves exactly
      `dealSets * (k * regular - dealPrice)`, and the sets and the remainder
      add back up to the count. */
  lemma TierSavings(deal: TierDeal, n: int)
    requires n >= 0
    ensures var r := TierOutcome(deal, n);
      && r.dealSets * deal.requiredQuantity + n % deal.requiredQuantity == n
      && r.savings == r.dealSets * (deal.requiredQuantity * deal.regularPricePerItem - deal.dealPricePerSet)
      && r.dealSets >= 0
  {
    var k, p, d := deal.requiredQuantity, deal.regularPricePerItem, deal.dealPricePerSet;
    var q, m := n / k, n % k;
    assert n == q * k + m;
    assert n * p == q * k * p + m * p by {
      assert (q * k + m) * p == q * k * p + m * p;
    }
    assert q * (k * p - d) == q * k * p - q * d;
  }

  /** With no negative quantity in the cart the count is never negative. */
  lemma {:induction false} EligibleCountNonNegative(deal: TierDeal, cart: seq<CartLine>, lookup: string -> Option<Size>)
    requires QuantitiesNonNegative(cart)
    ensures EligibleCount(deal, cart, lookup) >= 0
  {
    if cart != [] {
      EligibleCountNonNegative(deal, cart[..|cart| - 1], lookup);
    }
  }

  /** calculateMixMatchDiscount: 3 Large/$10 bags for $27. */
  method CalculateMixMatchDiscount(cart: seq<CartLine>, lookup: string -> Option<Size>)
    returns (r: DealResult)
    ensures r.eligibleCount == EligibleCount(MixAndMatch, cart, lookup)
    ensures r.dealSets == r.eligibleCount / 3
    ensures r.eligibleCount >= 0 ==> r.savings == 3 * r.dealSets == MixAndMatch.savingsPerSet * r.dealSets
    ensures QuantitiesNonNegative(cart) ==> r.savings >= 0
  {
    r := CalculateDiscount(MixAndMatch, cart, lookup);
    if r.eligibleCount >= 0 {
      TierSavings(MixAndMatch, r.eligibleCount);
    }
    if QuantitiesNonNegative(cart) {
      EligibleCountNonNegative(MixAndMatch, cart, lookup);
    }
  }

  /** calculateRegularDiscount: 2 Regular/$8 bags for $15. */
  method CalculateRegularDiscount(cart: seq<CartLine>, lookup: string -> Option<Size>)
    returns (r: DealResult)
    ensures r.eligibleCount == EligibleCount(RegularDeal, cart, lookup)
    ensures r.dealSets == r.eligibleCount / 2
    ensures r.eligibleCount >= 0 ==> r.savings == r.dealSets == RegularDeal.savingsPerSet * r.dealSets
    ensures QuantitiesNonNegative(cart) ==> r.savings >= 0
  {
    r := CalculateDiscount(RegularDeal, cart, lookup);
    if r.eligibleCount >= 0 {
      TierSavings(RegularDeal, r.eligibleCount);
    }
    if QuantitiesNonNegative(cart) {
      EligibleCountNonNegative(RegularDeal, cart, lookup);
    }
  }

  /** The count is additive over a split of the cart. */
  lemma {:induction false} EligibleCountAppend(deal: TierDeal, a: seq<CartLine>, b: seq<CartLine>, lookup: string -> Option<Size>)
    ensures EligibleCount(deal, a + b, lookup) == EligibleCount(deal, a, lookup) + EligibleCount(deal, b, lookup)
  {
    if b != [] {
      var b' := b[..|b| - 1];
      assert (a + b)[..|a + b| - 1] == a + b';
      EligibleCountAppend(deal, a, b', lookup);
    } else {
      assert a + b == a;
    }
  }

  /** A cart line whose key starts with the bundle prefix never changes the
      count, wherever it sits in the cart. */
  lemma BundleLinesIgnored(deal: TierDeal, a: seq<CartLine>, line: CartLine, b: seq<CartLine>, lookup: string -> Option<Size>)
    requires IsBundleKey(line.key)
    ensures EligibleCount(deal, a + [line] + b, lookup) == EligibleCount(deal, a + b, lookup)
  {
    EligibleCountAppend(deal, a + [line], b, lookup);
    EligibleCountAppend(deal, a, [line], lookup);
    EligibleCountAppend(deal, a, b, lookup);
    assert [line][..0] == [];
  }

  /** For an active deal, the calculators' inline test and the exported
      eligibility predicate agree: a non-bundle line counts with its full
      quantity iff its size is eligible. */
  lemma CalculatorAgreesWithPredicate(deal: TierDeal, a: seq<CartLine>, line: CartLine, lookup: string -> Option<Size>)
    requires deal.active && !IsBundleKey(line.key)
    ensures EligibleCount(deal, a + [line], lookup) ==
            EligibleCount(deal, a, lookup) + (if IsEligible(deal, lookup(line.key)) then line.qty else 0)
  {
  }

  /** Nothing prevents a line from counting toward both deals: a Large size
      priced $8 is eligible for each. */
  lemma DealsCanOverlap(line: CartLine, lookup: string -> Option<Size>)
    requires !IsBundleKey(line.key)
    requires lookup(line.key) == Some(Size("Large", 8))
    ensures EligibleCount(MixAndMatch, [line], lookup) == line.qty
    ensures EligibleCount(RegularDeal, [line], lookup) == line.qty
  {
    assert [line][..0] == [];
  }

  /** The sizes the catalogue actually sells (Regular $8, Large $10, Bag $10). */
  const CatalogueSizes := [Size("Regular", 8), Size("Large", 10), Size("Bag", 10)]

  /** Over the shipped catalogue the two pools are disjoint: every size is
      eligible for exactly one of the two deals. */
  lemma CatalogueSizesInOnePool()
    ensures forall i :: 0 <= i < |CatalogueSizes| ==>
      IsEligibleForMixMatch(Some(CatalogueSizes[i])) != IsEligibleForRegularDeal(Some(CatalogueSizes[i]))
  {
  }

  // ---------------------------------------------------------------------
  // The customizable bundle

  /** One flavour that may go into the bundle. */
  datatype EligibleProduct = EligibleProduct(productId: string, sku: Sku, name: string, sizeName: string)

  datatype Bundle = Bundle(
    id: string,
    sku: Sku,
    name: string,
    originalPrice: int,
    salePrice: int,
    savings: int,
    maxItems: int,
    eligibleProducts: seq<EligibleProduct>,
    freeDeliveryEligible: bool,
    active: bool)

  /** "The Crunch Jackpot": pick any 6 of these for $50. */
  const CollectionBundle := Bundle(
    "full-collection-bundle", "FULL-COLLECTION-BUNDLE", "The Crunch Jackpot",
    60, 50, 10, 6,
    [ EligibleProduct("shark-bite-crunch", "SHARK-BITE-CRUNCH-LRG", "Shark Bite Crunch", "Large"),
      EligibleProduct("neon-worm-crisps", "NEON-WORM-CRISPS-LRG", "Neon Worm Crisps", "Large"),
      EligibleProduct("crystal-bear-bites", "CRYSTAL-BEAR-BITES-LRG", "Crystal Bear Bites", "Large"),
      EligibleProduct("cola-fizz-crunch", "COLA-FIZZ-CRUNCH-LRG", "Cola Fizz Crunch", "Large"),
      EligibleProduct("prism-pops", "PRISM-POPS", "Prism Pops", "Bag"),
      EligibleProduct("strawberry-sparkle-crunch", "STRAWBERRY-SPARKLE-CRUNCH-LRG", "Strawberry Sparkle Crunch", "Large"),
      EligibleProduct("caramelts", "CARAMELTS-LRG", "Caramelts", "Large"),
      EligibleProduct("sour-prism-pops", "SOUR-PRISM-POPS", "Sour Prism Pops", "Bag") ],
    false, true)

  /** The configured numbers agree with one another: each tier saves
      `k * regular - dealPrice`, and the bundle saves exactly one $10 bag. */
  lemma ConfiguredSavingsAgree()
    ensures MixAndMatch.savingsPerSet == MixAndMatch.requiredQuantity * MixAndMatch.regularPricePerItem - MixAndMatch.dealPricePerSet
    ensures RegularDeal.savingsPerSet == RegularDeal.requiredQuantity * RegularDeal.regularPricePerItem - RegularDeal.dealPricePerSet
    ensures CollectionBundle.savings == CollectionBundle.originalPrice - CollectionBundle.salePrice == 10
    ensures CollectionBundle.originalPrice == CollectionBundle.maxItems * 10
  {
  }

  /** getEligibleSKUs: the SKUs of the eligible products, in order; there are
      eight and no two are alike. */
  function GetEligibleSkus(): (skus: seq<Sku>)
    ensures |skus| == |CollectionBundle.eligibleProducts| == 8
    ensures forall i :: 0 <= i < |skus| ==> skus[i] == CollectionBundle.eligibleProducts[i].sku
    ensures forall i, j :: 0 <= i < j < |skus| ==> skus[i] != skus[j]
  {
    var ps := CollectionBundle.eligibleProducts;
    seq(|ps|, i requires 0 <= i < |ps| => ps[i].sku)
  }

  /** getMaxBundleQuantity: a custom bundle is ordered one at a time. */
  function GetMaxBundleQuantity(): (n: int)
    ensures n == 1
  {
    1
  }

  /** Sum of `Math.max(0, getStockLevel(stockMap, sku))` over `products`. */
  function ClampedStockSum(products: seq<EligibleProduct>, stock: StockMap): int
  {
    if products == [] then 0
    else ClampedStockSum(products[..|products| - 1], stock) + Max0(GetStockLevel(stock, products[|products| - 1].sku))
  }

  /** The bundle can be offered: it is active and the eligible flavours hold
      at least `maxItems` bags between them. */
  predicate BundleAvailable(bundle: Bundle, stock: StockMap)
  {
    bundle.active && ClampedStockSum(bundle.eligibleProducts, stock) >= bundle.maxItems
  }

  /** isBundleAvailable. */
  method IsBundleAvailable(bundle: Bundle, stock: StockMap) returns (available: bool)
    ensures available == BundleAvailable(bundle, stock)
    ensures !bundle.active ==> !available
  {
    if !bundle.active {
      return false;
    }
    var products := bundle.eligibleProducts;
    var totalStock := 0;
    for i := 0 to |products|
      invariant totalStock == ClampedStockSum(products[..i], stock)
    {
      assert products[..i + 1][..i] == products[..i];
      var level := GetStockLevel(stock, products[i].sku);
      totalStock := totalStock + Max0(level);
    }
    assert products[..|products|] == products;
    available := totalStock >= bundle.maxItems;
  }

  /** The clamped sum never decreases when no eligible SKU loses stock. */
  lemma {:induction false} ClampedStockSumMonotone(products: seq<EligibleProduct>, s1: StockMap, s2: StockMap)
    requires forall i :: 0 <= i < |products| ==>
      GetStockLevel(s1, products[i].sku) <= GetStockLevel(s2, products[i].sku)
    ensures ClampedStockSum(products, s1) <= ClampedStockSum(products, s2)
  {
    if products != [] {
      var init := products[..|products| - 1];
      assert forall i :: 0 <= i < |init| ==> init[i] == products[i];
      ClampedStockSumMonotone(init, s1, s2);
    }
  }

  /** Raising one SKU's stock never turns an available bundle unavailable. */
  lemma RaisingStockKeepsBundleAvailable(bundle: Bundle, stock: StockMap, sku: Sku, qty: int)
    requires qty >= GetStockLevel(stock, sku)
    requires BundleAvailable(bundle, stock)
    ensures BundleAvailable(bundle, stock[sku := qty])
  {
    var raised := stock[sku := qty];
    forall i | 0 <= i < |bundle.eligibleProducts|
      ensures GetStockLevel(stock, bundle.eligibleProducts[i].sku) <= GetStockLevel(raised, bundle.eligibleProducts[i].sku)
    {
    }
    ClampedStockSumMonotone(bundle.eligibleProducts, stock, raised);
  }

  /** getBundleStock: one entry per eligible SKU, each the clamped stock level. */
  method GetBundleStock(bundle: Bundle, stock: StockMap) returns (byProduct: map<Sku, int>)
    ensures forall sku :: sku in byProduct <==>
      exists i :: 0 <= i < |bundle.eligibleProducts| && bundle.eligibleProducts[i].sku == sku
    ensures forall sku :: sku in byProduct ==>
      byProduct[sku] == Max0(GetStockLevel(stock, sku)) && byProduct[sku] >= 0
  {
    var products := bundle.eligibleProducts;
    byProduct := map[];
    for i := 0 to |products|
      invariant forall sku :: sku in byProduct <==> exists j :: 0 <= j < i && products[j].sku == sku
      invariant forall sku :: sku in byProduct ==> byProduct[sku] == Max0(GetStockLevel(stock, sku))
    {
      byProduct := byProduct[products[i].sku := Max0(GetStockLevel(stock, products[i].sku))];
    }
  }

  // ---------------------------------------------------------------------
  // Bundle selections: { [sku]: quantity }

  /** getBundleSelectionTotal: the sum of all values of the selection. */
  ghost function SelectionTotal(sel: map<Sku, int>): int
    decreases |sel|
  {
    if sel == map[] then 0
    else
      var sku :| sku in sel;
      assert |sel - {sku}| < |sel| by {
        assert sel.Keys - {sku} < sel.Keys;
      }
      sel[sku] + SelectionTotal(sel - {sku})
  }

  /** The sum can be peeled at any key, whichever key the definition picks. */
  lemma {:induction false} SelectionTotalRemove(sel: map<Sku, int>, sku: Sku)
    requires sku in sel
    ensures SelectionTotal(sel) == sel[sku] + SelectionTotal(sel - {sku})
    decreases |sel|
  {
    var k :| k in sel && SelectionTotal(sel) == sel[k] + SelectionTotal(sel - {k});
    if k != sku {
      assert |sel - {k}| < |sel| by {
        assert sel.Keys - {k} < sel.Keys;
      }
      SelectionTotalRemove(sel - {k}, sku);
      assert |sel - {sku}| < |sel| by {
        assert sel.Keys - {sku} < sel.Keys;
      }
      SelectionTotalRemove(sel - {sku}, k);
      assert sel - {k} - {sku} == sel - {sku} - {k};
    }
  }

  /** Setting one key changes the total by the difference at that key;
      deleting it subtracts its old value. */
  lemma SelectionTotalUpdate(sel: map<Sku, int>, sku: Sku, qty: int)
    ensures SelectionTotal(sel[sku := qty]) == SelectionTotal(sel) - OrZero(Get(sel, sku)) + qty
    ensures SelectionTotal(sel - {sku}) == SelectionTotal(sel) - OrZero(Get(sel, sku))
  {
    var updated := sel[sku := qty];
    SelectionTotalRemove(updated, sku);
    assert updated - {sku} == sel - {sku};
    if sku in sel {
      SelectionTotalRemove(sel, sku);
    } else {
      assert sel - {sku} == sel;
    }
  }

  /** getBundleSelectionTotal, as the reduce computes it. */
  method GetBundleSelectionTotal(sel: map<Sku, int>) returns (total: int)
    ensures total == SelectionTotal(sel)
  {
    total := 0;
    var rest := sel;
    while rest != map[]
      invariant total + SelectionTotal(rest) == SelectionTotal(sel)
      decreases |rest|
    {
      var sku :| sku in rest;
      SelectionTotalRemove(rest, sku);
      total := total + rest[sku];
      assert rest.Keys - {sku} < rest.Keys;
      rest := rest - {sku};
    }
  }

  /** One order line for a chosen bundle flavour. */
  datatype BundleOrderItem = BundleOrderItem(
    sku: Sku,
    name: string,
    quantity: int,
    price: int,
    isBundle: bool,
    isBundleComponent: bool,
    bundleParent: Sku)

  /** The line for `product` when `qty` of it is selected. */
  function BundleLine(parent: Sku, product: EligibleProduct, qty: int): BundleOrderItem
  {
    BundleOrderItem(product.sku, product.name + " (" + product.sizeName + ")", qty, 10, true, true, parent)
  }

  /** The array the loop in getBundleOrderItems pushes into. */
  function BundleItems(parent: Sku, products: seq<EligibleProduct>, sel: map<Sku, int>): seq<BundleOrderItem>
  {
    if products == [] then []
    else
      var p := products[|products| - 1];
      var qty := OrZero(Get(sel, p.sku));
      BundleItems(parent, products[..|products| - 1], sel) + (if qty > 0 then [BundleLine(parent, p, qty)] else [])
  }

  /** getBundleOrderItems. */
  method GetBundleOrderItems(bundle: Bundle, sel: map<Sku, int>) returns (items: seq<BundleOrderItem>)
    ensures items == BundleItems(bundle.sku, bundle.eligibleProducts, sel)
  {
    var products := bundle.eligibleProducts;
    items := [];
    for i := 0 to |products|
      invariant items == BundleItems(bundle.sku, products[..i], sel)
    {
      assert products[..i + 1][..i] == products[..i];
      var qty := OrZero(Get(sel, products[i].sku));
      if qty > 0 {
        items := items + [BundleLine(bundle.sku, products[i], qty)];
      }
    }
    assert products[..|products|] == products;
  }

  /** Every emitted line is a $10, stock-bearing bundle component of `parent`
      for an eligible product that is selected, carrying the selected quantity. */
  lemma {:induction false} BundleItemsShape(parent: Sku, products: seq<EligibleProduct>, sel: map<Sku, int>)
    ensures var items := BundleItems(parent, products, sel);
      && |items| <= |products|
      && forall k :: 0 <= k < |items| ==>
        && items[k].price == 10 && items[k].isBundle && items[k].isBundleComponent
        && items[k].bundleParent == parent
        && items[k].quantity > 0
        && items[k].sku in sel && items[k].quantity == sel[items[k].sku]
        && exists i :: 0 <= i < |products| && products[i].sku == items[k].sku
  {
    if products != [] {
      var init := products[..|products| - 1];
      BundleItemsShape(parent, init, sel);
      var items := BundleItems(parent, init, sel);
      forall k | 0 <= k < |items|
        ensures exists i :: 0 <= i < |products| && products[i].sku == items[k].sku
      {
        var i :| 0 <= i < |init| && init[i].sku == items[k].sku;
        assert products[i] == init[i];
      }
    }
  }

  /** Every eligible product with a positive selection gets a line. */
  lemma {:induction false} BundleItemsCover(parent: Sku, products: seq<EligibleProduct>, sel: map<Sku, int>, i: nat)
    requires i < |products| && OrZero(Get(sel, products[i].sku)) > 0
    ensures exists k :: 0 <= k < |BundleItems(parent, products, sel)| &&
                        BundleItems(parent, products, sel)[k] == BundleLine(parent, products[i], sel[products[i].sku])
  {
    var init := products[..|products| - 1];
    var items := BundleItems(parent, init, sel);
    if i < |products| - 1 {
      assert init[i] == products[i];
      BundleItemsCover(parent, init, sel, i);
      var k :| 0 <= k < |items| && items[k] == BundleLine(parent, init[i], sel[init[i].sku]);
      assert BundleItems(parent, products, sel)[k] == items[k];
    } else {
      assert BundleItems(parent, products, sel)[|items|] == BundleLine(parent, products[i], sel[products[i].sku]);
    }
  }

  /** The lines follow `eligibleProducts` order: line `k` is the line of
      product `idx[k]`, the indices strictly increase, and every product
      skipped has no positive selection. */
  lemma {:induction false} BundleItemsInOrder(parent: Sku, products: seq<EligibleProduct>, sel: map<Sku, int>)
    returns (idx: seq<nat>)
    ensures var items := BundleItems(parent, products, sel);
      && |idx| == |items|
      && (forall k :: 0 <= k < |idx| ==>
            (idx[k] < |products| &&
             items[k] == BundleLine(parent, products[idx[k]], OrZero(Get(sel, products[idx[k]].sku)))))
      && (forall k1, k2 :: 0 <= k1 < k2 < |idx| ==> idx[k1] < idx[k2])
      && (forall i :: 0 <= i < |products| && i !in idx ==> OrZero(Get(sel, products[i].sku)) <= 0)
  {
    if products == [] {
      idx := [];
    } else {
      var n := |products| - 1;
      var init := products[..n];
      var before := BundleItemsInOrder(parent, init, sel);
      assert forall i :: 0 <= i < n ==> init[i] == products[i];
      if OrZero(Get(sel, products[n].sku)) > 0 {
        idx := before + [n];
      } else {
        idx := before;
      }
    }
  }

  /** The SKUs of a product list. */
  function SkuSet(products: seq<EligibleProduct>): set<Sku>
  {
    set i | 0 <= i < |products| :: products[i].sku
  }

  /** Keep only the selections for the given SKUs. */
  function Restrict(sel: map<Sku, int>, skus: set<Sku>): map<Sku, int>
  {
    map sku | sku in sel && sku in skus :: sel[sku]
  }

  function QuantitySum(items: seq<BundleOrderItem>): int
  {
    if items == [] then 0 else QuantitySum(items[..|items| - 1]) + items[|items| - 1].quantity
  }

  lemma {:induction false} QuantitySumAppend(a: seq<BundleOrderItem>, b: seq<BundleOrderItem>)
    ensures QuantitySum(a + b) == QuantitySum(a) + QuantitySum(b)
  {
    if b != [] {
      assert (a + b)[..|a + b| - 1] == a + b[..|b| - 1];
      QuantitySumAppend(a, b[..|b| - 1]);
    } else {
      assert a + b == a;
    }
  }

  /** Appending a product adds its SKU to the SKU set. */
  lemma SkuSetSnoc(products: seq<EligibleProduct>)
    requires products != []
    ensures SkuSet(products) == SkuSet(products[..|products| - 1]) + {products[|products| - 1].sku}
  {
  }

  /** Restricting to one more SKU adds at most that SKU's selection. */
  lemma RestrictAddSku(sel: map<Sku, int>, skus: set<Sku>, sku: Sku)
    requires sku !in skus
    ensures SelectionTotal(Restrict(sel, skus + {sku})) == SelectionTotal(Restrict(sel, skus)) + OrZero(Get(sel, sku))
  {
    var before := Restrict(sel, skus);
    assert sku !in before;
    if sku in sel {
      assert Restrict(sel, skus + {sku}) == before[sku := sel[sku]];
      SelectionTotalUpdate(before, sku, sel[sku]);
    } else {
      assert Restrict(sel, skus + {sku}) == before;
    }
  }

  /** Selections for SKUs outside the bundle are ignored: the emitted
      quantities add up to the selection total restricted to eligible SKUs. */
  lemma {:induction false} BundleItemsQuantityTotal(parent: Sku, products: seq<EligibleProduct>, sel: map<Sku, int>)
    requires forall i, j :: 0 <= i < j < |products| ==> products[i].sku != products[j].sku
    requires forall sku :: sku in sel ==> sel[sku] >= 0
    ensures QuantitySum(BundleItems(parent, products, sel)) == SelectionTotal(Restrict(sel, SkuSet(products)))
  {
    if products == [] {
      assert Restrict(sel, SkuSet(products)) == map[];
    } else {
      var init := products[..|products| - 1];
      var p := products[|products| - 1];
      assert forall i, j :: 0 <= i < j < |init| ==> init[i].sku != init[j].sku by {
        assert forall i :: 0 <= i < |init| ==> init[i] == products[i];
      }
      BundleItemsQuantityTotal(parent, init, sel);
      var qty := OrZero(Get(sel, p.sku));
      var tail := if qty > 0 then [BundleLine(parent, p, qty)] else [];
      QuantitySumAppend(BundleItems(parent, init, sel), tail);
      assert QuantitySum(tail) == qty by {
        if qty > 0 { assert tail[..0] == []; }
      }
      SkuSetSnoc(products);
      assert p.sku !in SkuSet(init) by {
        forall i | 0 <= i < |init| ensures init[i].sku != p.sku {
          assert init[i] == products[i];
        }
      }
      RestrictAddSku(sel, SkuSet(init), p.sku);
    }
  }
}
