/** The bundle picker: the shopper chooses up to six bags for the Crunch
    Jackpot, flavour by flavour. The selection map is the picker's state; an
    update is refused when it would exceed a flavour's stock or the six-bag cap,
    and otherwise rewrites exactly one key. */
module BundleCustomizer {
  import opened Common
  import opened Inventory
  import opened Deals

  /** `bundle.maxItems`. */
  const MaxItems := CollectionBundle.maxItems

  /** isComplete: `totalSelected === maxItems`. A complete selection leaves
      no room: no flavour's "+" button is enabled. */
  predicate IsComplete(total: int)
    ensures IsComplete(total) ==> forall qty, stock :: !CanAdd(qty, stock, total)
  {
    total == MaxItems
  }

  /** remaining: `maxItems - totalSelected`. */
  function Remaining(total: int): (r: int)
    ensures r == 0 <==> IsComplete(total)
    ensures 0 <= total <= MaxItems ==> 0 <= r <= MaxItems
  {
    MaxItems - total
  }

  /** canAdd for one flavour card: in stock, below its stock and below the
      cap, so one more bag of it fits both the flavour's stock and the bundle. */
  predicate CanAdd(qty: int, stock: int, total: int)
    ensures CanAdd(qty, stock, total) ==> qty + 1 <= stock && total + 1 <= MaxItems
    ensures CanAdd(qty, stock, total) ==> stock > 0
  {
    !(stock <= 0) && qty < stock && total < MaxItems
  }

  /** The quantity updateSelection proposes: `Math.max(0, current + delta)`
      with a missing SKU read as 0. */
  function ProposedQty(sel: map<Sku, int>, sku: Sku, delta: int): (q: int)
    ensures q >= 0
    ensures sku !in sel ==> q == Max0(delta)
  {
    Max0(OrZero(Get(sel, sku)) + delta)
  }

  /** The selection updateSelection publishes, or None when it returns early.
      An update above the flavour's stock is refused; an accepted one rewrites
      the chosen flavour to the proposed quantity (dropping it at zero) and
      leaves every other flavour as it was. */
  ghost function Transition(sel: map<Sku, int>, bundleStock: map<Sku, int>, sku: Sku, delta: int): (r: Option<map<Sku, int>>)
    ensures ProposedQty(sel, sku, delta) > OrZero(Get(bundleStock, sku)) ==> r.None?
    ensures r.Some? ==> OrZero(Get(r.value, sku)) == ProposedQty(sel, sku, delta)
    ensures r.Some? ==> (sku in r.value <==> ProposedQty(sel, sku, delta) > 0)
    ensures r.Some? ==> forall other :: other != sku ==> Get(r.value, other) == Get(sel, other)
  {
    var current := OrZero(Get(sel, sku));
    var newQty := Max0(current + delta);
    var stock := OrZero(Get(bundleStock, sku));
    if newQty > stock then None
    else if SelectionTotal(sel) - current + newQty > MaxItems then None
    else Some(if newQty == 0 then sel - {sku} else sel[sku := newQty])
  }

  /** An accepted update keeps the total within the cap, leaves the changed
      SKU within its stock and every other SKU untouched; a zero quantity
      removes the key. */
  lemma AcceptedUpdate(sel: map<Sku, int>, bundleStock: map<Sku, int>, sku: Sku, delta: int)
    requires Transition(sel, bundleStock, sku, delta).Some?
    ensures var next := Transition(sel, bundleStock, sku, delta).value;
      && SelectionTotal(next) <= MaxItems
      && OrZero(Get(next, sku)) == ProposedQty(sel, sku, delta) <= OrZero(Get(bundleStock, sku))
      && (ProposedQty(sel, sku, delta) == 0 <==> sku !in next)
      && forall other :: other != sku ==> Get(next, other) == Get(sel, other)
  {
    var newQty := ProposedQty(sel, sku, delta);
    SelectionTotalUpdate(sel, sku, newQty);
  }

  /** The stock check applies to decrements too: a flavour selected above its
      (refreshed) stock cannot be lowered one step while it stays above. */
  lemma DecrementRefusedAboveStock(sel: map<Sku, int>, bundleStock: map<Sku, int>, sku: Sku)
    requires sku in sel && sel[sku] - 1 > OrZero(Get(bundleStock, sku))
    ensures Transition(sel, bundleStock, sku, -1) == None
  {
  }

  /** An update that would push the total past the cap is refused, whatever
      the stock. */
  lemma OverCapRefused(sel: map<Sku, int>, bundleStock: map<Sku, int>, sku: Sku, delta: int)
    requires SelectionTotal(sel) - OrZero(Get(sel, sku)) + ProposedQty(sel, sku, delta) > MaxItems
    ensures Transition(sel, bundleStock, sku, delta) == None
  {
  }

  /** The "+" button is enabled exactly when the one-step increment would be
      accepted (for non-negative selections and stock). */
  lemma CanAddIffIncrementAccepted(sel: map<Sku, int>, bundleStock: map<Sku, int>, sku: Sku)
    requires forall s :: s in sel ==> sel[s] >= 0
    ensures CanAdd(OrZero(Get(sel, sku)), OrZero(Get(bundleStock, sku)), SelectionTotal(sel))
        <==> Transition(sel, bundleStock, sku, 1).Some?
  {
  }

  /** The picker as the parent page holds it: the selections it publishes to
      and the per-flavour stock derived from the live stock map. */
  class BundlePicker {
    var selections: map<Sku, int>
    var bundleStock: map<Sku, int>
    var isExpanded: bool

    /** Every selected flavour has a positive quantity, the total stays within
        the cap, and the derived stock is never negative. */
    ghost predicate Valid()
      reads this
    {
      && (forall sku :: sku in selections ==> selections[sku] > 0)
      && SelectionTotal(selections) <= MaxItems
      && (forall sku :: sku in bundleStock ==> bundleStock[sku] >= 0)
    }

    constructor (stockMap: StockMap)
      ensures Valid()
      ensures selections == map[] && !isExpanded
      ensures forall sku :: sku in bundleStock <==>
        exists i :: 0 <= i < |CollectionBundle.eligibleProducts| && CollectionBundle.eligibleProducts[i].sku == sku
      ensures forall sku :: sku in bundleStock ==> bundleStock[sku] == Max0(GetStockLevel(stockMap, sku))
    {
      selections := map[];
      isExpanded := false;
      var byProduct := GetBundleStock(CollectionBundle, stockMap);
      bundleStock := byProduct;
    }

    /** The `useMemo` on `stockMap`: a new snapshot re-derives the stock table;
        the selections are kept as they are. */
    method RefreshStock(stockMap: StockMap)
      requires Valid()
      modifies this`bundleStock
      ensures Valid()
      ensures forall sku :: sku in bundleStock <==>
        exists i :: 0 <= i < |CollectionBundle.eligibleProducts| && CollectionBundle.eligibleProducts[i].sku == sku
      ensures forall sku :: sku in bundleStock ==> bundleStock[sku] == Max0(GetStockLevel(stockMap, sku))
    {
      bundleStock := GetBundleStock(CollectionBundle, stockMap);
    }

    /** updateSelection(sku, delta): publish the new selection, or return early
        and leave it unchanged. */
    method UpdateSelection(sku: Sku, delta: int) returns (published: bool)
      requires Valid()
      modifies this`selections
      ensures Valid()
      ensures published <==> Transition(old(selections), bundleStock, sku, delta).Some?
      ensures published ==> selections == Transition(old(selections), bundleStock, sku, delta).value
      ensures !published ==> selections == old(selections)
    {
      var totalSelected := GetBundleSelectionTotal(selections);
      var current := OrZero(Get(selections, sku));
      var newQty := Max0(current + delta);
      var stock := OrZero(Get(bundleStock, sku));
      if newQty > stock {
        return false;
      }
      var newTotal := totalSelected - current + newQty;
      if newTotal > MaxItems {
        return false;
      }
      var newSelections := selections[sku := newQty];
      if newQty == 0 {
        newSelections := newSelections - {sku};
      }
      AcceptedUpdate(selections, bundleStock, sku, delta);
      assert newSelections == Transition(selections, bundleStock, sku, delta).value;
      selections := newSelections;
      published := true;
    }

    /** The toggle button. */
    method ToggleExpanded()
      modifies this`isExpanded
      ensures isExpanded == !old(isExpanded)
    {
      isExpanded := !isExpanded;
    }

    /** A click on the add/update button. The button is disabled unless the
        selection is complete; before the bundle is in the cart the handler
        checks completeness again itself. `onAddToCart` fires exactly for a
        complete selection, and then the picker collapses. The button lives
        inside the expanded picker, so a click needs it open. */
    method ClickAddToCart(isAdded: bool) returns (addCalled: bool)
      requires Valid() && isExpanded
      modifies this`isExpanded
      ensures addCalled <==> IsComplete(SelectionTotal(selections))
      ensures addCalled ==> !isExpanded
      ensures !addCalled ==> isExpanded
    {
      var totalSelected := GetBundleSelectionTotal(selections);
      var isComplete := totalSelected == MaxItems;
      if !isComplete {
        // disabled={!isComplete}: the click never reaches the handler
        return false;
      }
      if !isAdded {
        if isComplete {
          addCalled := true;
          isExpanded := false;
        } else {
          addCalled := false;
        }
      } else {
        addCalled := true;
        isExpanded := false;
      }
    }
  }
}
