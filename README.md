# DS Fueling order wizard — a verified Dafny model

DS Fueling sells ethanol and methanol in 20-litre bottles and 200-litre
barrels through a checkout wizard. The wizard collects the customer's
details, the product choice, and the delivery option. It prices the order
with a bulk discount and has the customer confirm it. This project models
the core of that wizard and proves properties of the model:

- `order_types.dfy` (`OrderTypes`): the order document, in which every part
  of the order may be missing. Also the product catalog's unit prices and
  the business constants: discount from 5 bottles, a 20% rate, at most 20
  bottles.
- `order_context.dfy` (`OrderContext`): the pricing rule and the reducer,
  a pure function that applies any of the eleven actions to the wizard
  state. Also the read-only queries: step readiness, step name and step
  count.
- `order_provider.dfy` (`OrderProvider`): the provider as a class `Store`
  holding the one mutable wizard state. Each public action is a method
  that runs the reducer. The class invariant is that the stored pricing
  always matches the stored product. The views' two-step handlers live
  here too: store the delivery then advance, and confirm then advance.
- `text_rules.dfy` (`TextRules`): JavaScript's white space, `trim`,
  removing all white space, and the two patterns of the customer form.
  - The email pattern `\S+@\S+\.\S+` is searched for anywhere in the text.
    It is defined literally, as "some substring is in the pattern's
    language". An executable scan is proved equivalent to it.
  - The South African phone pattern `^(\+27|0)[0-9]{9}$` is matched
    against the whole text once white space is removed.
- `customer_details_step.dfy` (`CustomerDetailsStep`): the customer form
  as a class `CustomerForm` with its fields and error map. It covers the
  validation that builds the error map by successive writes, the submit
  handler, the typing handler and the submit-button test.
- `product_selection_step.dfy` (`ProductSelectionStep`): the product view
  as a class `ProductSelection` holding the chosen fuel, package and
  quantity. It covers the format-dependent maximum, the three quantity
  clamps, the live price preview and the continue handler.
- `order_form.dfy` (`OrderForm`): which view the wizard shows for each step.

Money is modelled exactly as `real`, so 549.99 is the real number 549.99
and the pricing identities hold with no rounding.

Behaviour of the code worth noting:

- Step 1 is ready when the stored quantity is non-zero, because the code
  tests the quantity's truthiness. A negative quantity therefore counts as
  ready.
- The forward transition clamps at 5, not 4. NEXT_STEP from step 4 gives
  step 5, which is named "Payment Information" and for which the frame
  shows the customer form. No view dispatches it at step 4, so the running
  application never reaches step 5.
- Going back also clears the error.
- Confirming checks nothing about the order's completeness.

## Model

| member | source | states |
|---|---|---|
| OrderTypes.StepIndex | app/src/types/order.ts:44-50 | each of the six wizard steps has a position below six, and the step list holds that step at that position |
| OrderTypes.AllStepsListsEachStepOnce | app/src/types/order.ts:44-50 | the step list names every step exactly once |
| OrderTypes.UnitPrice | app/src/types/order.ts:53-80 | every catalog price is positive |
| OrderContext.ComputePricing | app/src/contexts/OrderContext.tsx:61-95 | the stored rate is 0 or 20, and the total is the subtotal reduced by that rate |
| OrderContext.PricingRule | app/src/contexts/OrderContext.tsx:61-95 | subtotal = unit price × quantity; the rate is 20 exactly for 5 or more bottles and 0 otherwise; there is no discount for barrels or fewer than 5; total = subtotal − discount, i.e. 80% of the subtotal when discounted |
| OrderContext.PricingIsNonNegative | app/src/contexts/OrderContext.tsx:70-78 | for a non-negative quantity, 0 ≤ discount ≤ subtotal and 0 ≤ total ≤ subtotal |
| OrderContext.TotalIsMonotoneInQuantity | app/src/contexts/OrderContext.tsx:70-78 | ordering more never lowers the total, even across the discount threshold |
| OrderContext.FiveBottlesCostAsMuchAsFour | app/src/contexts/OrderContext.tsx:72-78 | at the threshold, five discounted bottles cost exactly what four undiscounted ones do |
| OrderContext.FiveEthanolBottles | app/src/contexts/OrderContext.tsx:61-95 | five ethanol bottles are priced 549.99 each, 2749.95 before and 2199.96 after a 549.99 discount |
| OrderContext.FourEthanolBottles | app/src/contexts/OrderContext.tsx:61-95 | four ethanol bottles get no discount: 2199.96 |
| OrderContext.TwoMethanolBarrels | app/src/contexts/OrderContext.tsx:61-95 | two methanol barrels get no discount: 6999.98 |
| OrderContext.Reduce | app/src/contexts/OrderContext.tsx:29-147 | each part of the state changes only under its own actions: customer, product and delivery only under their own action or a reset; pricing only under the pricing action or a reset; id, confirmation and timestamp only under confirmation or a reset; the step only under the step actions or a reset; the loading flag only under the loading and error actions or a reset |
| OrderContext.SetCustomerDetailsFrame | app/src/contexts/OrderContext.tsx:31-39 | storing customer details replaces only the customer slot and clears the error; the step and the loading flag are kept |
| OrderContext.SetProductDetailsFrame | app/src/contexts/OrderContext.tsx:41-49 | storing a product replaces only the product slot (the pricing is left as it was) and clears the error |
| OrderContext.SetDeliveryDetailsFrame | app/src/contexts/OrderContext.tsx:51-59 | storing delivery details replaces only the delivery slot and clears the error |
| OrderContext.CalculatePricingFrame | app/src/contexts/OrderContext.tsx:61-95 | with no product the state is returned unchanged; otherwise only the pricing changes, to the pricing of the stored product |
| OrderContext.SetProductThenCalculatePricing | app/src/contexts/OrderContext.tsx:193-197 | the two dispatches store the product together with its pricing, clear the error, and change nothing else |
| OrderContext.NextStepClamps | app/src/contexts/OrderContext.tsx:97-102 | forward yields min(step + 1, 5) and clears the error; nothing else changes |
| OrderContext.PreviousStepClamps | app/src/contexts/OrderContext.tsx:104-109 | back yields max(step − 1, 0) and clears the error; nothing else changes |
| OrderContext.SetStepStoresTarget | app/src/contexts/OrderContext.tsx:111-116 | a jump stores its target unchecked and clears the error |
| OrderContext.ConfirmOrderStamps | app/src/contexts/OrderContext.tsx:118-127 | confirming sets confirmed, the id and the timestamp, and keeps customer, product, delivery, pricing, step, loading flag and error |
| OrderContext.ConfirmTwiceReplacesId | app/src/contexts/OrderContext.tsx:118-127 | confirming twice equals confirming once with the second id: still confirmed, but with the new id |
| OrderContext.ResetIsInitial | app/src/contexts/OrderContext.tsx:129-130 | reset returns exactly the initial state (step 0, empty order, not loading, no error) from any state |
| OrderContext.SetLoadingFrame | app/src/contexts/OrderContext.tsx:132-136 | the loading action changes only the loading flag |
| OrderContext.SetErrorStopsLoading | app/src/contexts/OrderContext.tsx:138-143 | the error action stores the message and clears the loading flag; order and step are kept |
| OrderContext.StepRangePreserved | app/src/contexts/OrderContext.tsx:97-116 | from a step in [0, 5], every action except a jump outside [0, 5] keeps the step in [0, 5] |
| OrderContext.SetStepCanLeaveRange | app/src/contexts/OrderContext.tsx:111-116 | jumps to 6 or −1 leave the range, so the range needs a precondition on the jump |
| OrderContext.NextThenPrevious | app/src/contexts/OrderContext.tsx:97-109 | forward then back returns to the original step for steps 0 to 4 |
| OrderContext.PreviousThenNext | app/src/contexts/OrderContext.tsx:97-109 | back then forward returns to the original step for steps 1 to 5 |
| OrderContext.RoundTripsClampAtTheEnds | app/src/contexts/OrderContext.tsx:97-109 | at steps 5 and 0 the round trips land on 4 and 1, because the transitions clamp |
| OrderContext.ReducePreservesFreshPricing | app/src/contexts/OrderContext.tsx:29-147 | every action except a bare product update keeps the pricing matched to the product |
| OrderContext.SetProductThenPricingIsFresh | app/src/contexts/OrderContext.tsx:193-197 | after the provider's product update the pricing matches the product, from any state |
| OrderContext.BareProductUpdateIsStale | app/src/contexts/OrderContext.tsx:41-49 | the product action alone leaves the pricing stale |
| OrderContext.CanProceedToNextStep | app/src/contexts/OrderContext.tsx:247-265 | readiness is false outside steps 0 to 4 |
| OrderContext.NextStepIgnoresReadiness | app/src/contexts/OrderContext.tsx:97-102 | the forward transition advances from a step that is not ready |
| OrderContext.CustomerReadiness | app/src/contexts/OrderContext.tsx:251-254 | on step 0, after the customer is stored, readiness holds iff all five raw fields are non-empty |
| OrderContext.ProductReadiness | app/src/contexts/OrderContext.tsx:255-256 | on step 1, after a product is stored, readiness holds iff its quantity is non-zero |
| OrderContext.ReviewReadiness | app/src/contexts/OrderContext.tsx:259-260 | on step 3 with fresh pricing, readiness holds iff customer, product and delivery are all stored |
| OrderContext.DeliveryReadiness | app/src/contexts/OrderContext.tsx:257-258 | on step 2, storing a delivery choice makes the step ready |
| OrderContext.ConfirmationReadiness | app/src/contexts/OrderContext.tsx:261-262 | on step 4, readiness holds iff the order is confirmed, and confirming makes the step ready |
| OrderContext.StepName | app/src/contexts/OrderContext.tsx:268-278 | a step in 0..5 gets its name from the six-name list; the name is "Unknown" exactly for any other index |
| OrderContext.CurrentStepName | app/src/contexts/OrderContext.tsx:268-278 | the current name is not "Unknown" exactly when the step is in range |
| OrderContext.TotalSteps | app/src/contexts/OrderContext.tsx:280 | the step count equals the number of wizard steps and the number of step names |
| OrderContext.StepNamesAreDistinct | app/src/contexts/OrderContext.tsx:269-276 | every step has a known name, and different steps have different names |
| OrderProvider.Store.constructor | app/src/contexts/OrderContext.tsx:185 | the provider starts from the initial state, with the pricing invariant |
| OrderProvider.Store.Dispatch | app/src/contexts/OrderContext.tsx:185 | a dispatch replaces the state by the reducer's result |
| OrderProvider.Store.SetCustomerDetails | app/src/contexts/OrderContext.tsx:188-191 | stores the customer through the reducer; keeps the invariant |
| OrderProvider.Store.SetProductDetails | app/src/contexts/OrderContext.tsx:193-197 | two dispatches: the product and its computed pricing are stored; customer, delivery and step are kept; the error is cleared; the invariant holds |
| OrderProvider.Store.SetDeliveryDetails | app/src/contexts/OrderContext.tsx:199-201 | stores the delivery through the reducer; keeps the invariant |
| OrderProvider.Store.CalculatePricing | app/src/contexts/OrderContext.tsx:203-205 | under the invariant, recomputing the pricing changes nothing |
| OrderProvider.Store.NextStep | app/src/contexts/OrderContext.tsx:207-210 | advances through the reducer; keeps the step in range |
| OrderProvider.Store.PreviousStep | app/src/contexts/OrderContext.tsx:212-214 | goes back through the reducer; keeps the step in range |
| OrderProvider.Store.GoToStep | app/src/contexts/OrderContext.tsx:216-218 | the step is in range afterwards exactly when the target is in [0, 5] |
| OrderProvider.Store.ConfirmOrder | app/src/contexts/OrderContext.tsx:220-222 | the order is confirmed with the given id; the step stays in range |
| OrderProvider.Store.ResetOrder | app/src/contexts/OrderContext.tsx:224-226 | the state becomes the initial state |
| OrderProvider.Store.SubmitOrder | app/src/contexts/OrderContext.tsx:229-244 | on the completing path, loading is raised and lowered, so only the loading flag can differ and it ends false |
| OrderProvider.Store.SetDeliveryAndContinue | app/src/components/order/DeliveryStep.tsx:16-21 | stores the delivery then advances; from step 2 it reaches step 3 |
| OrderProvider.Store.ConfirmAndContinue | app/src/components/order/OrderReviewStep.tsx:30-33 | confirms then advances; from step 3 it reaches step 4, which is then ready |
| OrderProvider.WizardWalkthrough | app/src/contexts/OrderContext.tsx:247-265 | one run through the wizard with complete data makes each of steps 0 to 4 ready in turn |
| TextRules.TrimStartIsBlankCut | app/src/components/order/CustomerDetailsStep.tsx:26-30 | trimming the start drops exactly a blank prefix and leaves a suffix that starts with a non-space, or nothing |
| TextRules.TrimEndIsBlankCut | app/src/components/order/CustomerDetailsStep.tsx:26-30 | trimming the end drops exactly a blank suffix and leaves a prefix that ends in a non-space, or nothing |
| TextRules.Trim | app/src/components/order/CustomerDetailsStep.tsx:26-30 | trim never lengthens a string; it leaves nothing exactly when the string is all white space, and otherwise leaves no white space at either end |
| TextRules.TrimIsSlice | app/src/components/order/CustomerDetailsStep.tsx:26-30 | trim keeps one slice with blank text on both sides, and that slice has no white space at either end |
| TextRules.TrimEmptyIffBlank | app/src/components/order/CustomerDetailsStep.tsx:26-30 | trimming both ends leaves nothing exactly when the string is all white space |
| TextRules.RemoveSpaces | app/src/components/order/CustomerDetailsStep.tsx:38 | removing white space leaves no white space and never lengthens the string |
| TextRules.RemoveSpacesKeepsSpaceFree | app/src/components/order/CustomerDetailsStep.tsx:38 | a string without white space is unchanged, so removal is idempotent |
| TextRules.RemoveSpacesEmptyIffBlank | app/src/components/order/CustomerDetailsStep.tsx:38 | removal leaves nothing exactly when the string is blank |
| TextRules.RemoveSpacesDistributes | app/src/components/order/CustomerDetailsStep.tsx:38 | removal from a concatenation is the concatenation of the removals |
| TextRules.DigitsSurviveRemoval | app/src/components/order/CustomerDetailsStep.tsx:38 | a run of digits is unchanged by removal |
| TextRules.InnerSpaceIgnored | app/src/components/order/CustomerDetailsStep.tsx:38 | a space between two parts of a number disappears |
| TextRules.MatchesPhonePattern | app/src/components/order/CustomerDetailsStep.tsx:38 | the pattern holds iff the last nine characters are digits and what precedes them is exactly "0" or "+27" |
| TextRules.PhonePatternShape | app/src/components/order/CustomerDetailsStep.tsx:38 | "0" or "+27" followed by a block matches iff the block is exactly nine digits |
| TextRules.PhoneMatchIsNotBlank | app/src/components/order/CustomerDetailsStep.tsx:38 | a phone that passes the check is not blank |
| TextRules.NineDigitNumbersAccepted | app/src/components/order/CustomerDetailsStep.tsx:38 | "0" or "+27" followed by any nine digits passes the check |
| TextRules.LocalAndInternationalPhonesAccepted | app/src/components/order/CustomerDetailsStep.tsx:38 | "0821234567" and "+27821234567" pass |
| TextRules.SpacedPhoneAccepted | app/src/components/order/CustomerDetailsStep.tsx:38 | "082 123 4567" passes because the spaces are removed first |
| TextRules.ShortPhoneRejected | app/src/components/order/CustomerDetailsStep.tsx:38 | "12345" fails |
| TextRules.EmailAtGivesRegexMatch | app/src/components/order/CustomerDetailsStep.tsx:33 | an "@" and a "." placed as the pattern needs yield a matching substring |
| TextRules.RegexMatchGivesEmailAt | app/src/components/order/CustomerDetailsStep.tsx:33 | every matching substring places an "@" and a "." that way in the whole string |
| TextRules.RegexIffEmailAt | app/src/components/order/CustomerDetailsStep.tsx:33 | the search succeeds iff such an "@" and "." exist |
| TextRules.DotFromIff | app/src/components/order/CustomerDetailsStep.tsx:33 | the scan after an "@" finds a "." iff a match with that "@" ends at or after the scan position |
| TextRules.EmailFromIff | app/src/components/order/CustomerDetailsStep.tsx:33 | trying each "@" from a position on succeeds iff a match starts there or later |
| TextRules.HasEmailShape | app/src/components/order/CustomerDetailsStep.tsx:33 | the executable email check agrees with the unanchored pattern search on every string |
| TextRules.PlainWordIsNotEmail | app/src/components/order/CustomerDetailsStep.tsx:33 | "foo" is rejected |
| TextRules.SimpleAddressIsEmail | app/src/components/order/CustomerDetailsStep.tsx:33 | "foo@bar.com" is accepted |
| TextRules.SurroundedAddressIsEmail | app/src/components/order/CustomerDetailsStep.tsx:33 | the search is unanchored: "to: foo@bar.com " is accepted |
| TextRules.BlankIsNotEmail | app/src/components/order/CustomerDetailsStep.tsx:33 | a blank string never passes the email check |
| CustomerDetailsStep.WithField | app/src/components/order/CustomerDetailsStep.tsx:56 | writing one field sets that field and keeps the other four |
| CustomerDetailsStep.PhoneIsValid | app/src/components/order/CustomerDetailsStep.tsx:38 | a phone that passes is not blank and has at least ten characters |
| CustomerDetailsStep.FormAccepted | app/src/components/order/CustomerDetailsStep.tsx:23-44 | every form that validation accepts has all five raw fields non-empty |
| CustomerDetailsStep.ReportsErrorsIsUnique | app/src/components/order/CustomerDetailsStep.tsx:23-44 | the description of the error map determines the map completely |
| CustomerDetailsStep.CollectErrors | app/src/components/order/CustomerDetailsStep.tsx:23-44 | name, surname and address are reported, with their "required" message, exactly when blank. Email and phone are reported exactly when they fail their checks: an empty value gets the "required" message and anything else the format message, which overwrites it. The map is empty iff the form is accepted |
| CustomerDetailsStep.ReportedErrorsEmptyIffAccepted | app/src/components/order/CustomerDetailsStep.tsx:42-43 | the error map is empty exactly when no field is blank and the email and phone pass |
| CustomerDetailsStep.WhitespaceNameIsRequired | app/src/components/order/CustomerDetailsStep.tsx:26 | a name of spaces alone is reported as "Name is required" |
| CustomerDetailsStep.AcceptedFormIsReadyForStepZero | app/src/components/order/CustomerDetailsStep.tsx:46-53 | details the form accepts make step 0 ready once stored |
| CustomerDetailsStep.CustomerForm.constructor | app/src/components/order/CustomerDetailsStep.tsx:13-21 | the form starts from the stored customer details, or from five empty fields, with no errors |
| CustomerDetailsStep.CustomerForm.ValidateForm | app/src/components/order/CustomerDetailsStep.tsx:23-44 | records the error map described above and returns true iff it is empty, iff the form is accepted |
| CustomerDetailsStep.CustomerForm.HandleSubmit | app/src/components/order/CustomerDetailsStep.tsx:46-53 | an accepted form is stored and the wizard advances; a rejected one leaves the wizard state unchanged |
| CustomerDetailsStep.CustomerForm.HandleInputChange | app/src/components/order/CustomerDetailsStep.tsx:55-61 | replaces only the named field, and blanks only that field's error, and only if it was set and non-empty |
| CustomerDetailsStep.CustomerForm.IsFormValid | app/src/components/order/CustomerDetailsStep.tsx:63 | whenever the current fields would pass validation, the submit button is enabled |
| CustomerDetailsStep.AcceptedFormEnablesSubmit | app/src/components/order/CustomerDetailsStep.tsx:63 | every accepted form enables the submit button |
| CustomerDetailsStep.SubmitEnabledButRejected | app/src/components/order/CustomerDetailsStep.tsx:63 | a form of spaces enables the button yet is rejected, so the button test is strictly weaker |
| CustomerDetailsStep.SubmitEnabledIsStepZeroReadiness | app/src/components/order/CustomerDetailsStep.tsx:63 | the button test is exactly step 0's readiness test on the stored details |
| ProductSelectionStep.MaxQuantity | app/src/components/order/ProductSelectionStep.tsx:49 | the maximum is 20 (the bottle limit) for bottles and 10 for barrels |
| ProductSelectionStep.Decremented | app/src/components/order/ProductSelectionStep.tsx:131 | "−" gives one less, never below 1 |
| ProductSelectionStep.Incremented | app/src/components/order/ProductSelectionStep.tsx:148 | "+" gives one more, never above the format's maximum |
| ProductSelectionStep.ClampTyped | app/src/components/order/ProductSelectionStep.tsx:141 | typed input ends in [1, max]: non-numbers, zero and negatives become 1, larger values become the max, and values in range are kept |
| ProductSelectionStep.PreviewPricing | app/src/components/order/ProductSelectionStep.tsx:24-32 | the discount is announced exactly for five or more bottles, and then the total is 80% of the subtotal; otherwise the discount is 0 and the total is the subtotal |
| ProductSelectionStep.PreviewMatchesReducer | app/src/components/order/ProductSelectionStep.tsx:24-32 | the preview's unit price, subtotal, discount and total equal what the reducer stores; the discount is announced iff the stored rate is 20 |
| ProductSelectionStep.ClicksKeepBounds | app/src/components/order/ProductSelectionStep.tsx:127-152 | from an in-bounds quantity both clicks stay in bounds |
| ProductSelectionStep.ProductSelection.constructor | app/src/components/order/ProductSelectionStep.tsx:14-22 | the stored product is used if present (a stored quantity of 0 becomes 1); otherwise one bottle of ethanol |
| ProductSelectionStep.ProductSelection.CurrentPreview | app/src/components/order/ProductSelectionStep.tsx:24-32 | the shown unit price is the catalog price and the shown total is the reducer's total |
| ProductSelectionStep.ProductSelection.SelectType | app/src/components/order/ProductSelectionStep.tsx:69 | changes only the fuel type |
| ProductSelectionStep.ProductSelection.SelectFormat | app/src/components/order/ProductSelectionStep.tsx:107 | changes only the package; the quantity is not re-clamped |
| ProductSelectionStep.ProductSelection.ClickDecrement | app/src/components/order/ProductSelectionStep.tsx:127-135 | above 1 the quantity drops by one; at 1 or below the disabled button changes nothing; bounds are kept |
| ProductSelectionStep.ProductSelection.ClickIncrement | app/src/components/order/ProductSelectionStep.tsx:144-152 | below the max the quantity rises by one; at the max or above the disabled button changes nothing; bounds are kept |
| ProductSelectionStep.ProductSelection.EnterQuantity | app/src/components/order/ProductSelectionStep.tsx:136-143 | typing always leaves the quantity in bounds |
| ProductSelectionStep.ProductSelection.HandleContinue | app/src/components/order/ProductSelectionStep.tsx:34-43 | for a positive quantity the selection and its pricing are stored and the wizard advances from step 1 to 2; otherwise nothing changes |
| ProductSelectionStep.InBoundsSelectionIsReady | app/src/components/order/ProductSelectionStep.tsx:34-43 | an in-bounds selection passes the continue guard and makes step 1 ready |
| ProductSelectionStep.FormatSwitchLeavesBounds | app/src/components/order/ProductSelectionStep.tsx:107 | 15 bottles switched to barrels stay 15, above the barrel maximum of 10 |
| OrderForm.ViewForStep | app/src/components/order/OrderForm.tsx:14-29 | steps 1 to 4 each show their own view; every other index, including 0 and the payment step 5, shows the customer form |
| OrderForm.PaymentStepShowsCustomerForm | app/src/components/order/OrderForm.tsx:26-27 | from step 4, NEXT_STEP reaches "Payment Information", which shows the customer form |
| OrderForm.ResetShowsCustomerForm | app/src/components/order/OrderForm.tsx:14-17 | after a reset the customer form is shown |
| OrderForm.BackShowsPreviousView | app/src/components/order/OrderForm.tsx:14-25 | going back from steps 2 to 4 shows the previous step's view, a different one |

## Left out

- Order identifiers and timestamps: the running program draws them from
  the clock and a random source. Here they are parameters of the
  confirmation (`ConfirmOrder(id, now)`), so the identifier's format is not
  modelled.
- Floating-point money and its display (`toFixed`, `toLocaleString`, the
  order-summary string): prices are exact reals.
- OrderProvider.Store.SubmitOrder: models only the path on which the
  simulated call completes. The one-second delay, the logging and the
  catch path are not modelled; the catch path cannot be reached in the
  code as written.
- The React plumbing: hooks, the context object and its missing-provider
  error, re-rendering, logging, the clipboard and the payment redirect.
- Views and their presentation. The only logic kept from the review,
  delivery and frame views is the confirm-then-advance handler, the
  store-then-advance handler and the step-to-view mapping.
- Numbers that are not integers: the step and the quantity are integers
  here. A `NaN` or fractional step or quantity is not modelled. Typed
  quantities are modelled by their `parseInt` result, with `None` for
  text that is not a number.
- General regular expressions: the two patterns are written out as string
  predicates.
