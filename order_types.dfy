/**
 * The order document and its static configuration: the product catalog
 * (unit prices) and the business rules (discount threshold and rate,
 * quantity bounds). Every value here is immutable.
 *
 * Money is modelled exactly as `real` (549.99 is the real number 549.99),
 * so the pricing identities hold without floating-point rounding.
 */
module OrderTypes {

  datatype Option<+T> = None | Some(value: T)

  datatype ProductType = Ethanol | Methanol

  /** A bottle holds 20 litres, a barrel 200 litres. */
  datatype Format = Bottle | Barrel

  /** Same-day delivery, or standard delivery in one to three business days. */
  datatype DeliveryType = SameDay | Standard

  datatype CustomerDetails = CustomerDetails(
    name: string,
    surname: string,
    phone: string,
    email: string,
    address: string)

  /** `quantity` is whatever number the caller stored; the reducer does not check it. */
  datatype ProductDetails = ProductDetails(kind: ProductType, quantity: int, format: Format)

  datatype DeliveryDetails = DeliveryDetails(kind: DeliveryType)

  datatype PricingDetails = PricingDetails(
    unitPrice: real,
    totalBeforeDiscount: real,
    discount: real,
    discountPercentage: int,
    totalAfterDiscount: real)

  /**
   * The order as the wizard holds it: a partial order in which every field
   * may be absent. `createdAt` is a timestamp in milliseconds.
   */
  datatype Order = Order(
    id: Option<string>,
    customer: Option<CustomerDetails>,
    product: Option<ProductDetails>,
    delivery: Option<DeliveryDetails>,
    pricing: Option<PricingDetails>,
    confirmed: Option<bool>,
    createdAt: Option<int>)

  /** The empty partial order `{}`. */
  const EmptyOrder: Order := Order(None, None, None, None, None, None, None)

  datatype OrderState = OrderState(
    currentStep: int,
    order: Order,
    isLoading: bool,
    error: Option<string>)

  /** The six named steps of the wizard, in order. */
  datatype OrderStep =
    | StepCustomerDetails
    | StepProductSelection
    | StepDeliveryOptions
    | StepOrderReview
    | StepConfirmation
    | StepPayment

  const AllSteps: seq<OrderStep> := [
    StepCustomerDetails, StepProductSelection, StepDeliveryOptions,
    StepOrderReview, StepConfirmation, StepPayment]

  /** The position of each step in the wizard. */
  function StepIndex(step: OrderStep): (i: nat)
    ensures i < |AllSteps| && AllSteps[i] == step
  {
    match step
    case StepCustomerDetails => 0
    case StepProductSelection => 1
    case StepDeliveryOptions => 2
    case StepOrderReview => 3
    case StepConfirmation => 4
    case StepPayment => 5
  }

  /** Every step occurs exactly once in `AllSteps`. */
  lemma AllStepsListsEachStepOnce(step: OrderStep)
    ensures multiset(AllSteps)[step] == 1
  {
    assert AllSteps == [AllSteps[0]] + [AllSteps[1]] + [AllSteps[2]] + [AllSteps[3]] + [AllSteps[4]] + [AllSteps[5]];
  }

  // ---------------------------------------------------------------------
  // Product catalog

  /** The catalog price of one unit of `kind` in `format`. */
  function UnitPrice(kind: ProductType, format: Format): (price: real)
    ensures price > 0.0
  {
    match (kind, format)
    case (Ethanol, Bottle) => 549.99
    case (Ethanol, Barrel) => 5499.99
    case (Methanol, Bottle) => 349.99
    case (Methanol, Barrel) => 3499.99
  }

  // ---------------------------------------------------------------------
  // Business rules

  const MinQuantityForDiscount: int := 5
  const DiscountPercentage: int := 20
  const MaxBottleQuantity: int := 20
}
