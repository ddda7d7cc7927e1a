# Judo web payments — orchestration core in Dafny

This project models the core of a browser payment handler. It puts two
wallets behind one merchant configuration and one response shape: an Apple
Pay button and a Google Pay button.

- `payments.dfy`: the orchestrator `JudoWebPayments`. It owns one mutable
  configuration with defaults and has complete-replacement setters. When the
  line items are replaced, it derives the total from them: the exact sum, the
  first item's currency, and pending iff some item is `pending === true`.
- `google_pay_button.dfy`: the synchronous part of the Google Pay component:
  - the payment-method descriptor;
  - the payment data request built on click;
  - the gate for shipping options and the callback intents;
  - the in-sheet shipping recalculation and the authorisation answer;
  - the mapping of the returned payload into the unified response.
- `apple_pay_button.dfy`: what the Apple Pay component stores.
- `judo_pay_types.dfy`, `google_pay_types.dfy`, `apple_pay_types.dfy`: the
  records and enumerations of the three model files. The configuration object
  is a class, because the orchestrator updates it in place.
- `google_payments_api.dfy`: the shapes of the values exchanged with the
  `google.payments.api` client.
- `array_ops.dfy`: the JavaScript array built-ins the code relies on (`filter`,
  `map`, `filter(..).shift()`, `reduce`). `map` and `filter` state what every
  element of their result is; `filter` is shown complete only through
  `FilterNonEmpty` and `FirstWhereIsEarliest`; `reduce` is proved equal to a
  reference sum.
- `wrappers.dfy`: `Option`, where `None` stands for `undefined`.

The source aliases `_paymentDetails`, `_apConfiguration` and
`_gpConfiguration` into `_configuration`. The model collapses this into one
`JudoPayConfiguration` object. The orchestrator holds it, and each button is
handed the same object, so a button reads whatever the latest setter wrote.
Each setter's `modifies` clause names only the fields it replaces.

Amounts are exact decimals (`real`). An optional boolean is `Option<bool>`;
JavaScript truthiness of it is `IsTrue` (a defined `true`). A defined but empty
shipping-option list (`Some([])`) is distinct from an absent one (`None`).

## Model

| member | source | states |
|---|---|---|
| `Payments.JudoWebPayments.constructor` | src/index.tsx:64-119 | Default configuration: empty merchant identity; Apple `[SUPPORTS_3DS]`, networks VISA/MASTERCARD/AMEX, BLACK, PLAIN; Google TEST, `[PAN_ONLY]`, networks AMEX/MASTERCARD/VISA, no country codes, SHORT, BLACK; payer email/name/phone requested, shipping not. The initial total equals the total an empty item list resets to |
| `Payments.JudoWebPayments.SetApplePayConfiguration` | src/index.tsx:123-139 | Overwrites all seven Apple fields, and nothing else. An absent network list, style or type takes its default |
| `Payments.JudoWebPayments.SetGooglePayConfiguration` | src/index.tsx:141-157 | Overwrites all seven Google fields, and nothing else. An absent network list takes its default; absent country codes stay absent |
| `Payments.JudoWebPayments.SetJudoPayConfiguration` | src/index.tsx:159-167 | Sets display name, domain and country code; the frame leaves every other field unchanged |
| `Payments.JudoWebPayments.SetPaymentDetails` | src/index.tsx:169-172 | Stores the items and sets the total to `TotalOf(items)`. Shipping options and every other field are unchanged |
| `Payments.JudoWebPayments.SetShippingOptions` | src/index.tsx:174-176 | Replaces only the shipping options; the total is not recomputed |
| `Payments.JudoWebPayments.SetPaymentOptions` | src/index.tsx:178-180 | Replaces the payment options wholesale and nothing else |
| `Payments.JudoWebPayments.CalculateTotal` | src/index.tsx:193-219 | Follows the source's filter/map/reduce steps and is proved to yield `TotalOf`. Empty list: "Total", 0.0 GBP, no pending flag. Otherwise: "Total", the exact sum of item amounts, the first item's currency, pending iff some item is `pending === true` |
| `Payments.TotalOf` | src/index.tsx:195-218 | The derived total is always labelled "Total" and carries no description |
| `Payments.TotalOfConcat` | src/index.tsx:205-217 | Joining two non-empty item lists adds their totals, keeps the first list's currency, and is pending iff either part is |
| `Payments.AnyPendingConcat` | src/index.tsx:205-206 | Some item of `a + b` is pending iff some item of `a` or of `b` is |
| `Payments.JudoWebPayments.GetApplePayButtonAsWritten` | src/index.tsx:182-186 | The call as written: the button's language receives the height argument, and its height receives the language argument |
| `Payments.JudoWebPayments.GetApplePayButton` | src/index.tsx:182-186 | Corrected call: the button shares the configuration object, and language and height each reach their own parameter |
| `Payments.JudoWebPayments.GetGooglePayButton` | src/index.tsx:188-191 | The Google component is fresh, shares the configuration object, and has no client and no descriptor yet |
| `Payments.ButtonSeesLaterSetters` | src/index.tsx:111-119 | A button created before `setShippingOptions`/`setPaymentDetails` reads the new items, the new options and the recomputed total |
| `Payments.ApplePayLanguageMisbound` | src/index.tsx:185 | With height "44px" and language "en-GB", the as-written button gets language "44px" and height "en-GB" |
| `Payments.ShippingScenario` | src/components/GooglePayButton/index.ts:102-121 | Items 10 + 5 USD give a total of 15 USD, not pending. Options std 2.00 and exp 9.00 (selected): the sheet opens at 24, choosing std gives 17, and an unknown id gives no update |
| `ApplePayButton.ApplePayImpl.constructor` | src/components/ApplePayButton/index.ts:23-34 | Stores the configuration, the language and the height, in the component's parameter order (language before height) |
| `JudoPayTypes.JudoPayConfiguration.constructor` | src/models/JudoPayTypes.ts:83-91 | The configuration object holds exactly the seven given parts |
| `GooglePayTypes.CapabilityNameInjective` | src/models/GooglePayTypes.ts:16-19 | No two Google auth methods share a string value |
| `GooglePayTypes.NetworkNameInjective` | src/models/GooglePayTypes.ts:21-28 | No two Google card networks share a string value |
| `ArrayOps.Filter` | src/index.tsx:205 | `filter` keeps only elements that satisfy the predicate, each taken from the input |
| `ArrayOps.FilterNonEmpty` | src/index.tsx:205-206 | `filter(p).length > 0` iff some element satisfies `p` |
| `ArrayOps.Map` | src/index.tsx:208 | `map` keeps the length and applies the function at every index |
| `ArrayOps.FirstWhere` | src/components/GooglePayButton/index.ts:107-109 | `filter(p).shift()`, when defined, is an element of the list that satisfies `p` |
| `ArrayOps.FirstWhereIsEarliest` | src/components/GooglePayButton/index.ts:193-195 | `filter(p).shift()` is undefined iff no element satisfies `p`; otherwise it is the element at the first index that does |
| `ArrayOps.SumConcat` | src/index.tsx:210-212 | The reference sum of a concatenation is the sum of the sums |
| `ArrayOps.ReduceSum` | src/index.tsx:210-212 | `reduce` without an initial value (a left fold from the first element) equals the reference right-fold sum from zero |
| `GooglePayButton.ShouldRequestShippingOptions` | src/components/GooglePayButton/index.ts:246-250 | Shipping options are requested iff `requestShipping` is a defined `true` and the option list is defined and holds at least one option |
| `GooglePayButton.RegistersShippingIntents` | src/components/GooglePayButton/index.ts:228-234 | The shipping intents are registered whenever shipping options are requested, and only when `requestShipping` is a defined `true` |
| `GooglePayButton.CalculateNewPaymentDetails` | src/components/GooglePayButton/index.ts:102-122 | An update is only ever produced for a defined list, and it carries new transaction info for some configured option with the changed id, priced on top of the configured total |
| `GooglePayButton.CalculateTotalAmount` | src/components/GooglePayButton/index.ts:187-203 | The opening price is the configured total when options are absent; otherwise it is either the configured total or the total plus the amount of some selected option |
| `GooglePayButton.GetShippingOptionParameters` | src/components/GooglePayButton/index.ts:252-283 | When defined, the parameters list exactly as many entries as there are configured options, and the default id is the id of some selected option |
| `GooglePayButton.PaymentMethodFor` | src/components/GooglePayButton/index.ts:129-147 | The descriptor lists the configured auth methods and the configured networks, each by its string value, in the configured order |
| `GooglePayButton.GetShippingParameters` | src/components/GooglePayButton/index.ts:285-290 | The address filters are the configured country codes (possibly absent) and the payer-phone request flag, passed through unchanged |
| `GooglePayButton.GetSelectedShippingOption` | src/components/GooglePayButton/index.ts:313-318 | The selected id is present iff the payload has shipping-option data, and then it is that data's id |
| `GooglePayButton.PriceStatus` | src/components/GooglePayButton/index.ts:116 | The status is ESTIMATED iff `total.pending` is a defined `true`, otherwise FINAL |
| `GooglePayButton.ShippingGatesDiffer` | src/components/GooglePayButton/index.ts:226-250 | The shipping-option gate (defined, non-empty, shipping requested) implies the shipping-intent gate (defined, shipping requested). They differ exactly on a defined empty list with shipping requested |
| `GooglePayButton.RecalculationSpec` | src/components/GooglePayButton/index.ts:102-122 | No update iff shipping options are absent or no option has the changed id. Otherwise the first option with that id is used: price = configured total + its amount, ESTIMATED iff pending, label and currency copied from the total |
| `GooglePayButton.OnPaymentDataChanged` | src/components/GooglePayButton/index.ts:91-100 | Trigger 'SHIPPING_OPTION' gives the recalculation (possibly undefined); any other trigger gives `{}` |
| `GooglePayButton.OnPaymentAuthorized` | src/components/GooglePayButton/index.ts:84-89 | Every authorisation is answered with transaction state 'SUCCESS' |
| `GooglePayButton.ClickTotalSpec` | src/components/GooglePayButton/index.ts:187-203 | The opening price is the configured total when options are absent or none is selected. Otherwise it is the total plus the amount of the FIRST selected option |
| `GooglePayButton.ClickTotalMatchesRecalculation` | src/components/GooglePayButton/index.ts:187-203 | With unique ids, the opening price equals the live recalculation for the pre-selected option's id |
| `GooglePayButton.ShippingOptionParametersPresence` | src/components/GooglePayButton/index.ts:252-283 | The parameters are undefined iff options are absent or none is selected |
| `GooglePayButton.ShippingOptionParametersSpec` | src/components/GooglePayButton/index.ts:255-277 | When defined: one entry per configured option, in order, with the same id and description and the label "<amount text>: <label>"; the default id is the FIRST selected option's id |
| `GooglePayButton.ShippingOptionDefaultIsListed` | src/components/GooglePayButton/index.ts:269-277 | The default selected id is always one of the listed option ids |
| `GooglePayButton.PaymentMethodSpec` | src/components/GooglePayButton/index.ts:129-147 | A CARD method via PAYMENT_GATEWAY 'judopay' with the configured merchant id, listing the configured `merchantCapabilities` as auth methods and the configured networks, both in order. Configurations with equal descriptors agree on networks, auth methods and merchant id |
| `GooglePayButton.GetBillingDetails` | src/components/GooglePayButton/index.ts:320-325 | Billing details carry the payload's email and no name or phone |
| `GooglePayButton.GetShippingDetails` | src/components/GooglePayButton/index.ts:327-347 | Absent iff the payload has no address. Otherwise `addressLine` is exactly `[address1, address2, address3]` and `phone` is `phoneNumber`; the seven fields the provider does not supply stay absent, and the provider address can be recovered |
| `GooglePayButton.PaymentResponseOf` | src/components/GooglePayButton/index.ts:297-304 | Passes `paymentMethodData` through unchanged. Billing details are always present; the selected option is `shippingOptionData.id` or absent. The payload can be read back from the response unchanged |
| `GooglePayButton.GooglePayImpl.constructor` | src/components/GooglePayButton/index.ts:27-35 | Stores the shared configuration and the height; no client and no descriptor yet |
| `GooglePayButton.GooglePayImpl.SetPaymentsClient` | src/components/GooglePayButton/index.ts:67-82 | Client built with the environment, display name and Google merchant id. `onPaymentDataChanged` is registered exactly when shipping options are to be requested |
| `GooglePayButton.GooglePayImpl.SetGooglePayConfigs` | src/components/GooglePayButton/index.ts:124-149 | Once a client exists, the descriptor is derived from the Google configuration; without a client nothing changes |
| `GooglePayButton.GooglePayImpl.Configure` | src/components/GooglePayButton/index.ts:41-43 | After the script loads: a client whose shipping-callback registration follows the gate, then the descriptor |
| `GooglePayButton.GooglePayImpl.HandleGooglePayment` | src/components/GooglePayButton/index.ts:183-244 | The request: API 2.0, the descriptor, and merchant id/name/origin. Price as in `ClickTotalSpec`, ESTIMATED iff pending, in the total's currency. Email, shipping-address and phone flags passed through unchanged. Shipping-option fields are set only when the gate holds. Intents are `[PAYMENT_AUTHORIZATION]`, plus `SHIPPING_ADDRESS, SHIPPING_OPTION` exactly when shipping is requested and the option list is defined |

## Left out

- Promise and callback sequencing is not modelled; it drives foreign services. This covers:
  - `getGooglePayButton`'s chain, `shouldRenderGooglePayButton` (`isReadyToPay`), and the `then`/`catch` of `loadPaymentData`;
  - `ApplePayImpl.getApplePayButton` (`canMakeApplePayPayments`) and `executePaymentRequestAPI` (`handlePayment`).
  
  The model keeps what those chains compute synchronously. No "callback runs once" property is claimed: each click re-runs `loadPaymentData`, and a throw in `then` reaches `catch`.
- `responseHandler` is a caller-supplied function that is only passed on. It is not modelled.
- `loadGoogleScript`, the button element and its width (`createGooglePayButton`), the Apple button element, its CSS class names and `canUseApplePay`, and `console.log` are DOM or logging. They are not modelled.
- Amounts: `Number(..)` parsing (including NaN for non-numeric strings), floating-point rounding and `String(total)` formatting are not modelled. Every amount is its exact decimal value.
- The currency symbol from `toLocaleString` in shipping-option labels is host-locale behaviour. It is the parameter `amountText`, which also renders the amount.
- `IntermediatePaymentData.shippingOptionData` is modelled as always present. The TypeError the source would raise on a shipping-option change without it is not modelled.
- `PaymentMethodData` and `PaymentData` keep only the fields the response mapping reads or passes through.
- `JudoPaymentDetails.modifiers`: its type `PaymentDetailsModifier` is not declared in any source file here, so it is not part of this model. The enum `JudoShippingType` is unused and left out. `JudoButtonType` only tags the Apple click handler's call `executePaymentRequestAPI(JudoButtonType.APPLE_PAY)` (src/index.tsx:183), and is left out together with `executePaymentRequestAPI`/`handlePayment`.
- Aliasing with arguments the caller still holds is not modelled. Every setter stores the caller's array or object by reference (src/index.tsx:133-134, 151-154, 170, 175, 179). The model stores values instead, so it does not capture that:
  - a later `push` onto the caller's `items` changes `displayItems` without recomputing `total`, which breaks the derived-total rule the model guarantees;
  - flipping `selected` on a stored shipping option, or mutating the stored options object, changes later clicks.
- After `setPaymentOptions`, the source's `_paymentOptions` field still points to the old object. No code reads it, so the model keeps only the configuration's copy.
- `src/typings.d.ts` holds module declarations only.
- Two behaviours that differ from what the system's design suggests; the model follows the code:
  - the live recalculation adds the option to the stored `total` value, not to a fresh sum of the items;
  - `billingDetails` is always present, even when the email is absent.

## Findings

| source | as written | input that shows it | evidently intended | confidence | as-written member | corrected member |
|---|---|---|---|---|---|---|
| src/index.tsx:185 | `new ApplePayButton(configuration, height, language, clickHandler)` against the constructor `(configuration, language, height, clickHandler)` at src/components/ApplePayButton/index.ts:23-28. The height is bound to `language` and the language tag to `height` | `getApplePayButton("44px", "en-GB")`: the button gets `lang` "44px" and CSS height "en-GB" | the button's language is the language argument and its height is the height argument | high; not executed | `Payments.JudoWebPayments.GetApplePayButtonAsWritten` | `Payments.JudoWebPayments.GetApplePayButton` |
