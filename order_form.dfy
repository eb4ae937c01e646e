/**
 * The wizard frame: which view is on screen for the current step. Steps 1
 * to 4 each have their own view; step 0 and every other step index,
 * including the payment step 5, show the customer-details form.
 */
module OrderForm {
  import opened OrderTypes
  import opened OrderContext

  datatype StepView =
    | CustomerDetailsView
    | ProductSelectionView
    | DeliveryView
    | OrderReviewView
    | OrderConfirmationView

  /** The view rendered for a step index. */
  function ViewForStep(step: int): (v: StepView)
    ensures v == CustomerDetailsView <==> !(1 <= step <= 4)
    ensures v == ProductSelectionView <==> step == StepIndex(StepProductSelection)
    ensures v == DeliveryView <==> step == StepIndex(StepDeliveryOptions)
    ensures v == OrderReviewView <==> step == StepIndex(StepOrderReview)
    ensures v == OrderConfirmationView <==> step == StepIndex(StepConfirmation)
  {
    match step
    case 0 => CustomerDetailsView
    case 1 => ProductSelectionView
    case 2 => DeliveryView
    case 3 => OrderReviewView
    case 4 => OrderConfirmationView
    case _ => CustomerDetailsView
  }

  /** The view on screen for a wizard state. */
  function CurrentView(s: OrderState): StepView {
    ViewForStep(s.currentStep)
  }

  /**
   * The payment step has a name but no view of its own: NEXT_STEP from the
   * confirmation step shows the customer form again. No view dispatches
   * NEXT_STEP at step 4, so this is a property of the reducer and the frame.
   */
  lemma PaymentStepShowsCustomerForm(s: OrderState)
    requires s.currentStep == StepIndex(StepConfirmation)
    ensures CurrentView(s) == OrderConfirmationView
    ensures CurrentStepName(Reduce(s, NextStep)) == "Payment Information"
    ensures CurrentView(Reduce(s, NextStep)) == CustomerDetailsView
  {
  }

  /** Resetting the order always brings back the customer form. */
  lemma ResetShowsCustomerForm(s: OrderState)
    ensures CurrentView(Reduce(s, ResetOrder)) == CustomerDetailsView
  {
  }

  /** Going back from any view but the first (in steps 1 to 4) shows the view of the step before. */
  lemma BackShowsPreviousView(s: OrderState)
    requires 2 <= s.currentStep <= 4
    ensures CurrentView(Reduce(s, PreviousStep)) == ViewForStep(s.currentStep - 1)
    ensures CurrentView(Reduce(s, PreviousStep)) != CurrentView(s)
  {
  }
}
