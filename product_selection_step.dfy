/**
 * The product-selection view: its local choice of fuel, package and
 * quantity, the quantity bounds and clamps applied on every change, the
 * live price preview, and the continue handler that hands the choice to
 * the wizard.
 */
module ProductSelectionStep {
  import opened OrderTypes
  import opened OrderContext
  import opened OrderProvider

  /** The largest quantity the view offers: 20 bottles or 10 barrels. */
  function MaxQuantity(format: Format): (m: int)
    ensures 1 <= m <= MaxBottleQuantity
    ensures format == Bottle ==> m == MaxBottleQuantity
    ensures format == Barrel ==> m == 10
  {
    if format == Bottle then MaxBottleQuantity else 10
  }

  /** The quantity after a click on "-": one less, never below 1. */
  function Decremented(quantity: int): (q: int)
    ensures q >= 1
    ensures quantity > 1 ==> q == quantity - 1
    ensures quantity <= 1 ==> q == 1
  {
    Max(1, quantity - 1)
  }

  /** The quantity after a click on "+": one more, never above the format's maximum. */
  function Incremented(quantity: int, format: Format): (q: int)
    ensures q <= MaxQuantity(format)
    ensures quantity < MaxQuantity(format) ==> q == quantity + 1
    ensures quantity >= MaxQuantity(format) ==> q == MaxQuantity(format)
  {
    Min(MaxQuantity(format), quantity + 1)
  }

  /**
   * The quantity after typing: the parsed integer (`None` when the text is
   * not a number), with a missing or zero value read as 1, then clamped
   * into [1, MaxQuantity(format)].
   */
  function ClampTyped(parsed: Option<int>, format: Format): (q: int)
    ensures 1 <= q <= MaxQuantity(format)
    ensures parsed.None? ==> q == 1
    ensures parsed.Some? && 1 <= parsed.value <= MaxQuantity(format) ==> q == parsed.value
    ensures parsed.Some? && parsed.value > MaxQuantity(format) ==> q == MaxQuantity(format)
    ensures parsed.Some? && parsed.value <= 0 ==> q == 1
  {
    var v := if parsed.None? || parsed.value == 0 then 1 else parsed.value;
    Max(1, Min(MaxQuantity(format), v))
  }

  /** The figures the view shows while the customer chooses. */
  datatype Preview = Preview(
    unitPrice: real,
    totalBeforeDiscount: real,
    qualifiesForDiscount: bool,
    discountAmount: real,
    totalAfterDiscount: real)

  /**
   * The view's own copy of the pricing rule: the discount is announced for
   * five or more bottles, and then the total is four fifths of the subtotal;
   * otherwise nothing is taken off.
   */
  function PreviewPricing(kind: ProductType, format: Format, quantity: int): (v: Preview)
    ensures v.qualifiesForDiscount <==> format == Bottle && quantity >= MinQuantityForDiscount
    ensures v.qualifiesForDiscount ==> v.totalAfterDiscount == v.totalBeforeDiscount * 0.8
    ensures !v.qualifiesForDiscount ==> v.discountAmount == 0.0 && v.totalAfterDiscount == v.totalBeforeDiscount
  {
    var unitPrice := UnitPrice(kind, format);
    var totalBeforeDiscount := unitPrice * quantity as real;
    var qualifies := format == Bottle && quantity >= MinQuantityForDiscount;
    var discountAmount := if qualifies then totalBeforeDiscount * (DiscountPercentage as real / 100.0) else 0.0;
    Preview(unitPrice, totalBeforeDiscount, qualifies, discountAmount, totalBeforeDiscount - discountAmount)
  }

  /**
   * The preview shows exactly the figures the reducer stores for the same
   * selection, and announces the discount exactly when the stored rate is 20%.
   */
  lemma PreviewMatchesReducer(kind: ProductType, format: Format, quantity: int)
    ensures var v := PreviewPricing(kind, format, quantity);
            var r := ComputePricing(ProductDetails(kind, quantity, format));
            && v.unitPrice == r.unitPrice
            && v.totalBeforeDiscount == r.totalBeforeDiscount
            && v.discountAmount == r.discount
            && v.totalAfterDiscount == r.totalAfterDiscount
            && (v.qualifiesForDiscount <==> r.discountPercentage == DiscountPercentage)
  {
    PricingRule(ProductDetails(kind, quantity, format));
  }

  /** The "-" and "+" clicks keep a quantity that was in bounds in bounds. */
  lemma ClicksKeepBounds(quantity: int, format: Format)
    requires 1 <= quantity <= MaxQuantity(format)
    ensures 1 <= Decremented(quantity) <= MaxQuantity(format)
    ensures 1 <= Incremented(quantity, format) <= MaxQuantity(format)
  {
  }

  // ---------------------------------------------------------------------
  // The selection component

  class ProductSelection {
    var productType: ProductType
    var format: Format
    var quantity: int

    /** The quantity lies within the bounds the current format allows. */
    predicate InBounds()
      reads this
    {
      1 <= quantity <= MaxQuantity(format)
    }

    /**
     * The selection starts from the stored product, a stored quantity of 0
     * read as 1; with no stored product it is one bottle of ethanol.
     */
    constructor(stored: Option<ProductDetails>)
      ensures productType == if stored.Some? then stored.value.kind else Ethanol
      ensures format == if stored.Some? then stored.value.format else Bottle
      ensures quantity == if stored.Some? && stored.value.quantity != 0 then stored.value.quantity else 1
      ensures stored.None? || 0 <= stored.value.quantity <= MaxQuantity(stored.value.format) ==> InBounds()
    {
      productType := if stored.Some? then stored.value.kind else Ethanol;
      format := if stored.Some? then stored.value.format else Bottle;
      quantity := if stored.Some? && stored.value.quantity != 0 then stored.value.quantity else 1;
    }

    /** The figures currently on screen. */
    function CurrentPreview(): (v: Preview)
      reads this
      ensures v.unitPrice == UnitPrice(productType, format)
      ensures v.totalAfterDiscount == ComputePricing(ProductDetails(productType, quantity, format)).totalAfterDiscount
    {
      PreviewMatchesReducer(productType, format, quantity);
      PreviewPricing(productType, format, quantity)
    }

    /** Choosing a fuel type changes only the fuel type. */
    method SelectType(kind: ProductType)
      modifies this
      ensures productType == kind
      ensures format == old(format) && quantity == old(quantity)
    {
      productType := kind;
    }

    /** Choosing a package changes only the package: the quantity is not re-clamped. */
    method SelectFormat(f: Format)
      modifies this
      ensures format == f
      ensures productType == old(productType) && quantity == old(quantity)
    {
      format := f;
    }

    /** A click on "-": ignored while the button is disabled (quantity at most 1). */
    method ClickDecrement()
      modifies this
      ensures old(quantity) > 1 ==> quantity == Decremented(old(quantity)) == old(quantity) - 1
      ensures old(quantity) <= 1 ==> quantity == old(quantity)
      ensures productType == old(productType) && format == old(format)
      ensures old(InBounds()) ==> InBounds()
    {
      if !(quantity <= 1) {
        quantity := Decremented(quantity);
      }
    }

    /** A click on "+": ignored while the button is disabled (quantity at the maximum or above). */
    method ClickIncrement()
      modifies this
      ensures old(quantity) < MaxQuantity(format) ==> quantity == Incremented(old(quantity), format) == old(quantity) + 1
      ensures old(quantity) >= MaxQuantity(format) ==> quantity == old(quantity)
      ensures productType == old(productType) && format == old(format)
      ensures old(InBounds()) ==> InBounds()
    {
      if !(quantity >= MaxQuantity(format)) {
        quantity := Incremented(quantity, format);
      }
    }

    /** Typing into the quantity box: whatever was typed, the quantity ends in bounds. */
    method EnterQuantity(parsed: Option<int>)
      modifies this
      ensures quantity == ClampTyped(parsed, format)
      ensures productType == old(productType) && format == old(format)
      ensures InBounds()
    {
      quantity := ClampTyped(parsed, format);
    }

    /**
     * Continue stores the selection (with its pricing) and advances the
     * wizard only for a positive quantity; otherwise nothing happens.
     */
    method HandleContinue(store: Store)
      requires store.Valid()
      modifies store
      ensures store.Valid()
      ensures quantity > 0 ==>
        store.state == Reduce(Reduce(Reduce(old(store.state),
          OrderAction.SetProductDetails(ProductDetails(productType, quantity, format))),
          OrderAction.CalculatePricing), OrderAction.NextStep)
      ensures quantity > 0 ==>
        store.state.order.product == Some(ProductDetails(productType, quantity, format))
      ensures quantity > 0 && old(store.state.currentStep) == 1 ==> store.state.currentStep == 2
      ensures quantity <= 0 ==> store.state == old(store.state)
    {
      if quantity > 0 {
        store.SetProductDetails(ProductDetails(productType, quantity, format));
        store.NextStep();
      }
    }
  }

  /** An in-bounds selection always passes the continue guard, and the product step is then ready. */
  lemma InBoundsSelectionIsReady(s: OrderState, kind: ProductType, format: Format, quantity: int)
    requires 1 <= quantity <= MaxQuantity(format) && s.currentStep == 1
    ensures quantity > 0
    ensures CanProceedToNextStep(Reduce(Reduce(s,
              SetProductDetails(ProductDetails(kind, quantity, format))), CalculatePricing))
  {
    ProductReadiness(s, ProductDetails(kind, quantity, format));
  }

  /**
   * Switching the package does not re-clamp: fifteen bottles become fifteen
   * barrels, above the barrel maximum of ten.
   */
  method FormatSwitchLeavesBounds() returns (quantity: int, maximum: int)
    ensures quantity == 15 && maximum == 10 && quantity > maximum
  {
    var view := new ProductSelection(Some(ProductDetails(Ethanol, 15, Bottle)));
    assert view.InBounds();
    view.SelectFormat(Barrel);
    quantity, maximum := view.quantity, MaxQuantity(view.format);
  }
}
