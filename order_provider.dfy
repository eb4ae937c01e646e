/**
 * The provider: one mutable cell holding the wizard state, changed only by
 * dispatching actions through the reducer. Each public action is a method;
 * `SetProductDetails` dispatches two actions in sequence, and the views'
 * two-step handlers (store-then-advance, confirm-then-advance) are methods
 * here as well.
 *
 * The store's invariant is that the stored pricing always matches the
 * stored product: no public action dispatches a bare product update.
 */
module OrderProvider {
  import opened OrderTypes
  import opened OrderContext

  class Store {
    var state: OrderState

    ghost predicate Valid()
      reads this
    {
      PricingFresh(state)
    }

    constructor()
      ensures Valid()
      ensures state == InitialState
    {
      state := InitialState;
    }

    /** Runs one action through the reducer. */
    method Dispatch(a: OrderAction)
      modifies this
      ensures state == Reduce(old(state), a)
    {
      state := Reduce(state, a);
    }

    method SetCustomerDetails(details: CustomerDetails)
      requires Valid()
      modifies this
      ensures Valid()
      ensures state == Reduce(old(state), OrderAction.SetCustomerDetails(details))
      ensures state.order.customer == Some(details)
    {
      ReducePreservesFreshPricing(state, OrderAction.SetCustomerDetails(details));
      Dispatch(OrderAction.SetCustomerDetails(details));
    }

    /** Stores the product and at once recomputes the pricing, so the pricing is never stale. */
    method SetProductDetails(details: ProductDetails)
      requires Valid()
      modifies this
      ensures Valid()
      ensures state == Reduce(Reduce(old(state), OrderAction.SetProductDetails(details)), OrderAction.CalculatePricing)
      ensures state.order.product == Some(details)
      ensures state.order.pricing == Some(ComputePricing(details))
      ensures state.order.customer == old(state.order.customer) && state.order.delivery == old(state.order.delivery)
      ensures state.currentStep == old(state.currentStep) && state.error == None
    {
      Dispatch(OrderAction.SetProductDetails(details));
      Dispatch(OrderAction.CalculatePricing);
    }

    method SetDeliveryDetails(details: DeliveryDetails)
      requires Valid()
      modifies this
      ensures Valid()
      ensures state == Reduce(old(state), OrderAction.SetDeliveryDetails(details))
      ensures state.order.delivery == Some(details)
    {
      ReducePreservesFreshPricing(state, OrderAction.SetDeliveryDetails(details));
      Dispatch(OrderAction.SetDeliveryDetails(details));
    }

    /** Recomputing the pricing under the invariant changes nothing. */
    method CalculatePricing()
      requires Valid()
      modifies this
      ensures Valid()
      ensures state == old(state)
    {
      Dispatch(OrderAction.CalculatePricing);
    }

    method NextStep()
      requires Valid()
      modifies this
      ensures Valid()
      ensures state == Reduce(old(state), OrderAction.NextStep)
      ensures old(StepInRange(state)) ==> StepInRange(state)
    {
      Dispatch(OrderAction.NextStep);
    }

    method PreviousStep()
      requires Valid()
      modifies this
      ensures Valid()
      ensures state == Reduce(old(state), OrderAction.PreviousStep)
      ensures old(StepInRange(state)) ==> StepInRange(state)
    {
      Dispatch(OrderAction.PreviousStep);
    }

    /** Jumps to `step` without any check; the step stays in range only if `step` is. */
    method GoToStep(step: int)
      requires Valid()
      modifies this
      ensures Valid()
      ensures state == Reduce(old(state), SetStep(step))
      ensures StepInRange(state) <==> 0 <= step <= LastStep
    {
      Dispatch(SetStep(step));
    }

    /** Confirms the order with the identifier and time the caller drew. */
    method ConfirmOrder(id: string, now: int)
      requires Valid()
      modifies this
      ensures Valid()
      ensures state == Reduce(old(state), OrderAction.ConfirmOrder(id, now))
      ensures state.order.confirmed == Some(true) && state.order.id == Some(id)
      ensures old(StepInRange(state)) ==> StepInRange(state)
    {
      Dispatch(OrderAction.ConfirmOrder(id, now));
    }

    method ResetOrder()
      requires Valid()
      modifies this
      ensures Valid()
      ensures state == InitialState
    {
      Dispatch(OrderAction.ResetOrder);
    }

    /** The submission stub on its path that completes: loading is raised and lowered again. */
    method SubmitOrder()
      requires Valid()
      modifies this
      ensures Valid()
      ensures state == old(state).(isLoading := false)
    {
      Dispatch(SetLoading(true));
      Dispatch(SetLoading(false));
    }

    /** The delivery view's continue: store the delivery choice, then advance. */
    method SetDeliveryAndContinue(details: DeliveryDetails)
      requires Valid()
      modifies this
      ensures Valid()
      ensures state == Reduce(Reduce(old(state), OrderAction.SetDeliveryDetails(details)), OrderAction.NextStep)
      ensures old(state.currentStep) == 2 ==> state.currentStep == 3
    {
      SetDeliveryDetails(details);
      NextStep();
    }

    /** The review view's confirm: confirm the order, then advance to the confirmation step. */
    method ConfirmAndContinue(id: string, now: int)
      requires Valid()
      modifies this
      ensures Valid()
      ensures state == Reduce(Reduce(old(state), OrderAction.ConfirmOrder(id, now)), OrderAction.NextStep)
      ensures old(state.currentStep) == 3 ==> state.currentStep == 4 && CanProceedToNextStep(state)
    {
      ConfirmOrder(id, now);
      NextStep();
    }
  }

  /** A client run through the whole wizard: every step's data makes that step ready. */
  method WizardWalkthrough(c: CustomerDetails, p: ProductDetails, d: DeliveryDetails, id: string, now: int)
    returns (ready: seq<bool>)
    requires c.name != "" && c.surname != "" && c.phone != "" && c.email != "" && c.address != ""
    requires p.quantity != 0
    ensures ready == [true, true, true, true, true]
  {
    var store := new Store();
    store.SetCustomerDetails(c);
    var r0 := CanProceedToNextStep(store.state);
    store.NextStep();
    store.SetProductDetails(p);
    var r1 := CanProceedToNextStep(store.state);
    store.NextStep();
    store.SetDeliveryDetails(d);
    var r2 := CanProceedToNextStep(store.state);
    store.NextStep();
    var r3 := CanProceedToNextStep(store.state);
    store.ConfirmAndContinue(id, now);
    var r4 := CanProceedToNextStep(store.state);
    ready := [r0, r1, r2, r3, r4];
  }
}
