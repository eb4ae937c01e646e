/**
 * The wizard's state machine: the pricing rule, the reducer that applies one
 * action to the wizard state, and the read-only queries the views use
 * (step readiness, step name, step count).
 *
 * The reducer is a total, pure function: it never mutates its argument and
 * always returns a whole new state.
 */
module OrderContext {
  import opened OrderTypes

  // ---------------------------------------------------------------------
  // Pricing rule

  /** Bottles qualify for the bulk discount from five units up; barrels never do. */
  predicate QualifiesForDiscount(format: Format, quantity: int) {
    format == Bottle && quantity >= MinQuantityForDiscount
  }

  /** The pricing record the reducer derives from a product selection. */
  function ComputePricing(p: ProductDetails): (r: PricingDetails)
    ensures r.discountPercentage == 0 || r.discountPercentage == DiscountPercentage
    ensures r.totalAfterDiscount == r.totalBeforeDiscount * (1.0 - r.discountPercentage as real / 100.0)
  {
    var unitPrice := UnitPrice(p.kind, p.format);
    var totalBeforeDiscount := unitPrice * p.quantity as real;
    var percentage := if QualifiesForDiscount(p.format, p.quantity) then DiscountPercentage else 0;
    var discount := totalBeforeDiscount * (percentage as real / 100.0);
    PricingDetails(unitPrice, totalBeforeDiscount, discount, percentage, totalBeforeDiscount - discount)
  }

  /**
   * The pricing rule: the subtotal is unit price times quantity; the discount
   * rate is 20% exactly for bottles ordered five or more at a time and 0%
   * otherwise; the total is the subtotal less the discount, i.e. four fifths
   * of the subtotal when discounted and the subtotal itself when not.
   */
  lemma PricingRule(p: ProductDetails)
    ensures ComputePricing(p).unitPrice == UnitPrice(p.kind, p.format)
    ensures ComputePricing(p).totalBeforeDiscount == UnitPrice(p.kind, p.format) * p.quantity as real
    ensures ComputePricing(p).discountPercentage == 20 <==> (p.format == Bottle && p.quantity >= 5)
    ensures ComputePricing(p).discountPercentage == 0 <==> !(p.format == Bottle && p.quantity >= 5)
    ensures p.format == Barrel || p.quantity < 5 ==> ComputePricing(p).discount == 0.0
    ensures ComputePricing(p).totalAfterDiscount
         == ComputePricing(p).totalBeforeDiscount - ComputePricing(p).discount
    ensures ComputePricing(p).totalAfterDiscount
         == if p.format == Bottle && p.quantity >= 5
            then ComputePricing(p).totalBeforeDiscount * 0.8
            else ComputePricing(p).totalBeforeDiscount
  {
  }

  /** For a non-negative quantity no part of the price is negative and the discount never exceeds the subtotal. */
  lemma {:induction false} PricingIsNonNegative(p: ProductDetails)
    requires p.quantity >= 0
    ensures 0.0 <= ComputePricing(p).discount <= ComputePricing(p).totalBeforeDiscount
    ensures 0.0 <= ComputePricing(p).totalAfterDiscount <= ComputePricing(p).totalBeforeDiscount
  {
    var u := UnitPrice(p.kind, p.format);
    assert u * p.quantity as real >= 0.0 by { MulNonNegative(u, p.quantity as real); }
  }

  /**
   * Ordering more never costs less: the total after discount does not
   * decrease with the quantity, even across the discount threshold.
   */
  lemma {:induction false} TotalIsMonotoneInQuantity(kind: ProductType, format: Format, q1: int, q2: int)
    requires 0 <= q1 <= q2
    ensures ComputePricing(ProductDetails(kind, q1, format)).totalAfterDiscount
         <= ComputePricing(ProductDetails(kind, q2, format)).totalAfterDiscount
  {
    var u := UnitPrice(kind, format);
    PricingRule(ProductDetails(kind, q1, format));
    PricingRule(ProductDetails(kind, q2, format));
    MulMonotone(u, q1 as real, q2 as real);
    if format == Bottle && q1 < 5 <= q2 {
      MulMonotone(u, q1 as real, 4.0);
      MulMonotone(u, 5.0, q2 as real);
    }
  }

  /** At the threshold five bottles cost exactly what four do. */
  lemma FiveBottlesCostAsMuchAsFour(kind: ProductType)
    ensures ComputePricing(ProductDetails(kind, 5, Bottle)).totalAfterDiscount
         == ComputePricing(ProductDetails(kind, 4, Bottle)).totalAfterDiscount
  {
  }

  /** Five ethanol bottles: 2749.95 before discount, 549.99 off, 2199.96 to pay. */
  lemma FiveEthanolBottles()
    ensures ComputePricing(ProductDetails(Ethanol, 5, Bottle))
         == PricingDetails(549.99, 2749.95, 549.99, 20, 2199.96)
  {
  }

  /** Four ethanol bottles: no discount, 2199.96 to pay. */
  lemma FourEthanolBottles()
    ensures ComputePricing(ProductDetails(Ethanol, 4, Bottle))
         == PricingDetails(549.99, 2199.96, 0.0, 0, 2199.96)
  {
  }

  /** Two methanol barrels: 6999.98, no discount. */
  lemma TwoMethanolBarrels()
    ensures ComputePricing(ProductDetails(Methanol, 2, Barrel))
         == PricingDetails(3499.99, 6999.98, 0.0, 0, 6999.98)
  {
  }

  lemma MulNonNegative(a: real, b: real)
    requires a >= 0.0 && b >= 0.0
    ensures a * b >= 0.0
  {
  }

  lemma MulMonotone(a: real, b: real, c: real)
    requires a >= 0.0 && b <= c
    ensures a * b <= a * c
  {
    MulNonNegative(a, c - b);
  }

  // ---------------------------------------------------------------------
  // The reducer

  /**
   * The eleven actions. `ConfirmOrder` carries the identifier and timestamp
   * that the running program draws from the clock and a random source.
   */
  datatype OrderAction =
    | SetCustomerDetails(customer: CustomerDetails)
    | SetProductDetails(product: ProductDetails)
    | SetDeliveryDetails(delivery: DeliveryDetails)
    | CalculatePricing
    | NextStep
    | PreviousStep
    | SetStep(step: int)
    | ConfirmOrder(id: string, createdAt: int)
    | ResetOrder
    | SetLoading(loading: bool)
    | SetError(message: Option<string>)

  /** The last step index the forward transition can reach. */
  const LastStep: int := 5

  /** Step 0, the empty order, not loading, no error. */
  const InitialState: OrderState := OrderState(0, EmptyOrder, false, None)

  function Min(a: int, b: int): int { if a <= b then a else b }
  function Max(a: int, b: int): int { if a >= b then a else b }

  /**
   * Applies one action to the wizard state. Each part of the state has its
   * owners: only its own action (or a reset) changes a part of the order,
   * only a confirmation (or a reset) changes the confirmation stamp, and so on.
   */
  function Reduce(s: OrderState, a: OrderAction): (r: OrderState)
    ensures r.order.customer != s.order.customer ==> a.SetCustomerDetails? || a.ResetOrder?
    ensures r.order.product != s.order.product ==> a.SetProductDetails? || a.ResetOrder?
    ensures r.order.delivery != s.order.delivery ==> a.SetDeliveryDetails? || a.ResetOrder?
    ensures r.order.pricing != s.order.pricing ==> a.CalculatePricing? || a.ResetOrder?
    ensures (r.order.id != s.order.id || r.order.confirmed != s.order.confirmed
             || r.order.createdAt != s.order.createdAt) ==> a.ConfirmOrder? || a.ResetOrder?
    ensures r.currentStep != s.currentStep ==> a.NextStep? || a.PreviousStep? || a.SetStep? || a.ResetOrder?
    ensures r.isLoading != s.isLoading ==> a.SetLoading? || a.SetError? || a.ResetOrder?
  {
    match a
    case SetCustomerDetails(c) =>
      s.(order := s.order.(customer := Some(c)), error := None)
    case SetProductDetails(p) =>
      s.(order := s.order.(product := Some(p)), error := None)
    case SetDeliveryDetails(d) =>
      s.(order := s.order.(delivery := Some(d)), error := None)
    case CalculatePricing =>
      if s.order.product.None? then s
      else s.(order := s.order.(pricing := Some(ComputePricing(s.order.product.value))))
    case NextStep =>
      s.(currentStep := Min(s.currentStep + 1, LastStep), error := None)
    case PreviousStep =>
      s.(currentStep := Max(s.currentStep - 1, 0), error := None)
    case SetStep(n) =>
      s.(currentStep := n, error := None)
    case ConfirmOrder(id, now) =>
      s.(order := s.order.(confirmed := Some(true), createdAt := Some(now), id := Some(id)))
    case ResetOrder =>
      InitialState
    case SetLoading(b) =>
      s.(isLoading := b)
    case SetError(m) =>
      s.(error := m, isLoading := false)
  }

  // ---------------------------------------------------------------------
  // Frame properties of the reducer, one action at a time

  /** Storing customer details replaces only the customer slot and clears the error. */
  lemma SetCustomerDetailsFrame(s: OrderState, c: CustomerDetails)
    ensures Reduce(s, SetCustomerDetails(c)).order == s.order.(customer := Some(c))
    ensures Reduce(s, SetCustomerDetails(c)).error == None
    ensures Reduce(s, SetCustomerDetails(c)).currentStep == s.currentStep
    ensures Reduce(s, SetCustomerDetails(c)).isLoading == s.isLoading
  {
  }

  /** Storing a product replaces only the product slot; in particular the pricing is left as it was. */
  lemma SetProductDetailsFrame(s: OrderState, p: ProductDetails)
    ensures Reduce(s, SetProductDetails(p)).order == s.order.(product := Some(p))
    ensures Reduce(s, SetProductDetails(p)).order.pricing == s.order.pricing
    ensures Reduce(s, SetProductDetails(p)).error == None
    ensures Reduce(s, SetProductDetails(p)).currentStep == s.currentStep
    ensures Reduce(s, SetProductDetails(p)).isLoading == s.isLoading
  {
  }

  /** Storing delivery details replaces only the delivery slot and clears the error. */
  lemma SetDeliveryDetailsFrame(s: OrderState, d: DeliveryDetails)
    ensures Reduce(s, SetDeliveryDetails(d)).order == s.order.(delivery := Some(d))
    ensures Reduce(s, SetDeliveryDetails(d)).error == None
    ensures Reduce(s, SetDeliveryDetails(d)).currentStep == s.currentStep
    ensures Reduce(s, SetDeliveryDetails(d)).isLoading == s.isLoading
  {
  }

  /**
   * Recomputing the pricing is a no-op without a product; otherwise it
   * changes only `order.pricing`, to the pricing of the stored product.
   */
  lemma CalculatePricingFrame(s: OrderState)
    ensures s.order.product.None? ==> Reduce(s, CalculatePricing) == s
    ensures s.order.product.Some? ==>
      Reduce(s, CalculatePricing)
        == s.(order := s.order.(pricing := Some(ComputePricing(s.order.product.value))))
  {
  }

  /**
   * Storing a product and then recomputing the pricing leaves the product
   * and a pricing that matches it; nothing else but the error changes.
   */
  lemma SetProductThenCalculatePricing(s: OrderState, p: ProductDetails)
    ensures Reduce(Reduce(s, SetProductDetails(p)), CalculatePricing)
         == s.(order := s.order.(product := Some(p), pricing := Some(ComputePricing(p))), error := None)
  {
  }

  /** The forward transition clamps at the last step and clears the error. */
  lemma NextStepClamps(s: OrderState)
    ensures Reduce(s, NextStep).currentStep == if s.currentStep + 1 <= 5 then s.currentStep + 1 else 5
    ensures Reduce(s, NextStep) == s.(currentStep := Reduce(s, NextStep).currentStep, error := None)
  {
  }

  /** The backward transition clamps at step 0 and clears the error. */
  lemma PreviousStepClamps(s: OrderState)
    ensures Reduce(s, PreviousStep).currentStep == if s.currentStep - 1 >= 0 then s.currentStep - 1 else 0
    ensures Reduce(s, PreviousStep) == s.(currentStep := Reduce(s, PreviousStep).currentStep, error := None)
  {
  }

  /** A direct jump stores its target unconditionally. */
  lemma SetStepStoresTarget(s: OrderState, n: int)
    ensures Reduce(s, SetStep(n)) == s.(currentStep := n, error := None)
  {
  }

  /**
   * Confirming marks the order confirmed and stamps it with the given
   * identifier and time; customer, product, delivery, pricing, the step,
   * the loading flag and the error are all kept.
   */
  lemma ConfirmOrderStamps(s: OrderState, id: string, now: int)
    ensures Reduce(s, ConfirmOrder(id, now)).order.confirmed == Some(true)
    ensures Reduce(s, ConfirmOrder(id, now)).order.id == Some(id)
    ensures Reduce(s, ConfirmOrder(id, now)).order.createdAt == Some(now)
    ensures Reduce(s, ConfirmOrder(id, now)).order.customer == s.order.customer
    ensures Reduce(s, ConfirmOrder(id, now)).order.product == s.order.product
    ensures Reduce(s, ConfirmOrder(id, now)).order.delivery == s.order.delivery
    ensures Reduce(s, ConfirmOrder(id, now)).order.pricing == s.order.pricing
    ensures Reduce(s, ConfirmOrder(id, now)).currentStep == s.currentStep
    ensures Reduce(s, ConfirmOrder(id, now)).isLoading == s.isLoading
    ensures Reduce(s, ConfirmOrder(id, now)).error == s.error
  {
  }

  /** Confirming again keeps the order confirmed but replaces its identifier and timestamp. */
  lemma ConfirmTwiceReplacesId(s: OrderState, id1: string, t1: int, id2: string, t2: int)
    ensures Reduce(Reduce(s, ConfirmOrder(id1, t1)), ConfirmOrder(id2, t2))
         == Reduce(s, ConfirmOrder(id2, t2))
    ensures Reduce(Reduce(s, ConfirmOrder(id1, t1)), ConfirmOrder(id2, t2)).order.confirmed == Some(true)
    ensures Reduce(Reduce(s, ConfirmOrder(id1, t1)), ConfirmOrder(id2, t2)).order.id == Some(id2)
  {
  }

  /** Resetting yields exactly the initial state, whatever came before. */
  lemma ResetIsInitial(s: OrderState)
    ensures Reduce(s, ResetOrder) == InitialState
    ensures InitialState.currentStep == 0 && InitialState.order == EmptyOrder
    ensures !InitialState.isLoading && InitialState.error == None
  {
  }

  /** The loading action changes only the loading flag. */
  lemma SetLoadingFrame(s: OrderState, b: bool)
    ensures Reduce(s, SetLoading(b)) == s.(isLoading := b)
  {
  }

  /** Reporting an error stores it and always stops loading. */
  lemma SetErrorStopsLoading(s: OrderState, m: Option<string>)
    ensures Reduce(s, SetError(m)).error == m
    ensures !Reduce(s, SetError(m)).isLoading
    ensures Reduce(s, SetError(m)).order == s.order
    ensures Reduce(s, SetError(m)).currentStep == s.currentStep
  {
  }

  // ---------------------------------------------------------------------
  // Step range

  predicate StepInRange(s: OrderState) {
    0 <= s.currentStep <= LastStep
  }

  /** Every action except a jump outside [0, 5] keeps the step within [0, 5]. */
  lemma StepRangePreserved(s: OrderState, a: OrderAction)
    requires StepInRange(s)
    requires a.SetStep? ==> 0 <= a.step <= LastStep
    ensures StepInRange(Reduce(s, a))
  {
  }

  /** A jump outside [0, 5] is stored as it is and leaves the range. */
  lemma SetStepCanLeaveRange(s: OrderState)
    ensures !StepInRange(Reduce(s, SetStep(6)))
    ensures !StepInRange(Reduce(s, SetStep(-1)))
  {
  }

  /** Forward then back returns to any step from 0 to 4. */
  lemma NextThenPrevious(s: OrderState)
    requires 0 <= s.currentStep <= 4
    ensures Reduce(Reduce(s, NextStep), PreviousStep).currentStep == s.currentStep
  {
  }

  /** Back then forward returns to any step from 1 to 5. */
  lemma PreviousThenNext(s: OrderState)
    requires 1 <= s.currentStep <= 5
    ensures Reduce(Reduce(s, PreviousStep), NextStep).currentStep == s.currentStep
  {
  }

  /** At the two ends the transitions clamp instead of wrapping, so the round trip is lost. */
  lemma RoundTripsClampAtTheEnds(s: OrderState)
    ensures s.currentStep == 5 ==> Reduce(Reduce(s, NextStep), PreviousStep).currentStep == 4
    ensures s.currentStep == 0 ==> Reduce(Reduce(s, PreviousStep), NextStep).currentStep == 1
  {
  }

  // ---------------------------------------------------------------------
  // Fresh pricing

  /** The stored pricing, if a product is stored, is the pricing of that product. */
  predicate PricingFresh(s: OrderState) {
    s.order.product.Some? ==> s.order.pricing == Some(ComputePricing(s.order.product.value))
  }

  /** Every action but a bare product update keeps the pricing fresh. */
  lemma ReducePreservesFreshPricing(s: OrderState, a: OrderAction)
    requires PricingFresh(s)
    requires !a.SetProductDetails?
    ensures PricingFresh(Reduce(s, a))
  {
  }

  /** Storing a product and recomputing the pricing makes the pricing fresh from any state. */
  lemma SetProductThenPricingIsFresh(s: OrderState, p: ProductDetails)
    ensures PricingFresh(Reduce(Reduce(s, SetProductDetails(p)), CalculatePricing))
  {
  }

  /** A bare product update, without the recomputation, can leave the pricing stale. */
  lemma BareProductUpdateIsStale(p: ProductDetails)
    ensures !PricingFresh(Reduce(InitialState, SetProductDetails(p)))
  {
  }

  // ---------------------------------------------------------------------
  // Queries

  /** Whether the current step's data is complete; false outside steps 0 to 4. */
  function CanProceedToNextStep(s: OrderState): (ready: bool)
    ensures ready ==> 0 <= s.currentStep <= 4
  {
    var o := s.order;
    match s.currentStep
    case 0 =>
      o.customer.Some? && o.customer.value.name != "" && o.customer.value.surname != ""
      && o.customer.value.phone != "" && o.customer.value.email != "" && o.customer.value.address != ""
    case 1 => o.product.Some? && o.product.value.quantity != 0
    case 2 => o.delivery.Some?
    case 3 => o.customer.Some? && o.product.Some? && o.delivery.Some? && o.pricing.Some?
    case 4 => o.confirmed == Some(true)
    case _ => false
  }

  /**
   * Readiness is advisory: the forward transition ignores it and advances
   * from a step whose data is missing.
   */
  lemma NextStepIgnoresReadiness()
    ensures !CanProceedToNextStep(InitialState)
    ensures Reduce(InitialState, NextStep).currentStep == 1
  {
  }

  /** On step 0 readiness is exactly "customer details stored, all five fields non-empty". */
  lemma CustomerReadiness(s: OrderState, c: CustomerDetails)
    requires s.currentStep == 0
    ensures CanProceedToNextStep(Reduce(s, SetCustomerDetails(c)))
        <==> c.name != "" && c.surname != "" && c.phone != "" && c.email != "" && c.address != ""
  {
  }

  /** On step 1 storing a product with a non-zero quantity (and its pricing) makes the step ready. */
  lemma ProductReadiness(s: OrderState, p: ProductDetails)
    requires s.currentStep == 1
    ensures CanProceedToNextStep(Reduce(Reduce(s, SetProductDetails(p)), CalculatePricing))
        <==> p.quantity != 0
  {
  }

  /** With fresh pricing the review step is ready exactly when customer, product and delivery are stored. */
  lemma ReviewReadiness(s: OrderState)
    requires s.currentStep == 3 && PricingFresh(s)
    ensures CanProceedToNextStep(s)
        <==> s.order.customer.Some? && s.order.product.Some? && s.order.delivery.Some?
  {
  }

  /** On step 2 storing a delivery choice makes the step ready. */
  lemma DeliveryReadiness(s: OrderState, d: DeliveryDetails)
    requires s.currentStep == 2
    ensures CanProceedToNextStep(Reduce(s, SetDeliveryDetails(d)))
  {
  }

  /** On step 4 readiness is exactly "the order is confirmed", which confirming achieves. */
  lemma ConfirmationReadiness(s: OrderState, id: string, now: int)
    requires s.currentStep == 4
    ensures CanProceedToNextStep(s) <==> s.order.confirmed == Some(true)
    ensures CanProceedToNextStep(Reduce(s, ConfirmOrder(id, now)))
  {
  }

  const StepNames: seq<string> := [
    "Customer Details", "Product Selection", "Delivery Options",
    "Order Review", "Confirmation", "Payment Information"]

  /** The display name of a step index; "Unknown" exactly for indices that name no step. */
  function StepName(step: int): (name: string)
    ensures 0 <= step < |AllSteps| ==> name == StepNames[step]
    ensures name == "Unknown" <==> !(0 <= step < |AllSteps|)
  {
    if 0 <= step < |StepNames| then StepNames[step] else "Unknown"
  }

  /** The display name of the current step. */
  function CurrentStepName(s: OrderState): (name: string)
    ensures name != "Unknown" <==> StepInRange(s)
  {
    StepName(s.currentStep)
  }

  /** The number of steps, which is the number of named steps. */
  function TotalSteps(): (n: int)
    ensures n == |AllSteps| == |StepNames|
  {
    6
  }

  /** Every step has its own name, and the name of a step is the name at its index. */
  lemma StepNamesAreDistinct(a: OrderStep, b: OrderStep)
    ensures StepName(StepIndex(a)) != "Unknown"
    ensures a != b ==> StepName(StepIndex(a)) != StepName(StepIndex(b))
  {
  }
}
