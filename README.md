# A verified model of the Yuno storefront demo

The storefront demo has two parts:

- a Node/Express backend, `server.js`, that talks to the Yuno payment provider;
- a React front end: a product catalog with a cart, a cart panel, product cards, and a checkout dialog that drives the Yuno web SDK.

This project models the logic of both parts in Dafny:

- **Backend.** Its two request validators (`validateCheckoutSession`, `validatePayment`, including the UUID-v4 regular expression). The handlers of `POST /checkout/sessions` and `POST /payments`, with:
  - the derived order amount,
  - the merchant order id,
  - the payment description,
  - the session-id fallback chain,
  - the provider requests and the replies.

  Also the environment-suffix table behind `generateBaseUrlApi`, the error-handling middleware's message, and the start-up configuration.
- **Front end.**
  - Catalog page: the cart updates, the search/category filter, the sort and the category list.
  - Cart panel: quantity-button dispatch, item count, shipping, tax, free-shipping notice, final total and the empty state.
  - Product card: the star row (with its loops), the rating block and the add-to-cart button.
  - Checkout dialog: a class whose fields are the component's state hooks and whose methods are its event handlers.

Modules, one file each:

| file | module | what it holds |
|---|---|---|
| `wrappers.dfy` | `Wrappers` | `Option`, `Result` |
| `js_values.dfy` | `JsValues` | the JavaScript values a handler sees, plus four operations: truthiness, `\|\|`, property access (a read of null/undefined is an error) and ToString/ToNumber. V8's wording of the two TypeErrors the handlers can raise. |
| `text.dfy` | `Text` | `join`, `includes`, ASCII `toLowerCase`, and `Array.from(new Set(...))` |
| `store_types.dfy` | `StoreTypes` | `Product`, `CartItem`, `PaymentResult`, cart sums |
| `server_validation.dfy` | `ServerValidation` | the two validators and the UUID pattern |
| `server_routes.dfy` | `ServerRoutes` | start-up, base URL, error handler, the two routes |
| `catalog.dfy` | `Catalog` | cart updates, filter, sort (in place on an array), categories, and the page state as the class `CatalogPage` |
| `cart_view.dfy` | `CartView` | the cart panel |
| `product_card.dfy` | `ProductCard` | the product card; `RenderStars` is the loop version of `renderStars` |
| `checkout_flow.dfy` | `CheckoutFlow` | payment-result classification, and the dialog as the class `CheckoutView` |

## Representation choices

- Prices are integer cents and ratings are integer tenths of a star. A cart subtotal is therefore exact, and `Math.floor`, `Math.ceil` and `% 1` on a rating are exact.
- Request bodies are JSON values with exact real numbers.
- Things outside the program become inputs:
  - the JavaScript number-to-text and text-to-number conversions (the `Runtime` record);
  - `getCountryData`;
  - the clock and the random draws (`Draws`);
  - the provider's answers (`ProviderAnswer`);
  - the SDK's and the DOM's behaviour (booleans such as `startThrows` and `hasChildren`);
  - the locale collation used by `localeCompare` (a function `string -> int`).
- Calls the dialog makes into the SDK, and requests it makes to the backend, are recorded in the class fields `sdkCalls` and `requests`.

## Behaviour the model follows from the code

- In `checkout.tsx`, the effect calls `initializePayment` only when an SDK instance exists (lines 77-79). The function's own "payment system not available" branch (lines 32-36) is therefore never taken from the effect. Without an SDK, nothing happens: `isInitializing` keeps its initial `true`, and no message is shown.
  - `CheckoutView.InitializePayment` models the function with its branch.
  - `CheckoutView.RunInitEffect` models the effect and states that without an SDK the dialog's state is unchanged.
- The session validator accepts a positive amount below 0.5. `Math.round` then makes the order amount 0 (`ServerRoutes.SubHalfAmountBecomesZero`).
- At a subtotal of exactly 100.00, shipping is charged, but the free-shipping notice is not shown (`CartView.ExactlyAtThreshold`). Both comparisons are strict, in opposite directions.
- Start-up has two steps (`ServerRoutes.Launch`, then `ServerRoutes.CustomerArrived`). The server starts listening once the three credentials are present. Only inside the listen callback are the API URL and the customer id set. So requests can be served while the customer id is still undefined, and the exit on a null or undefined customer payload comes after listening began.
- The SDK's `yunoCreatePayment` callback belongs to the render that scheduled the mount. Its fallback session is that render's `checkoutSession`, not the latest stored one. The model keeps the captured value with each scheduled mount (`CheckoutFlow.Mount`).
- The item check compares with `<= 0`, which is false for NaN. So a truthy quantity or unit amount that is not numeric, such as "abc", passes (`ServerValidation.NonNumericQuantityPasses`).
- A cart item whose `items` array element is null or undefined is not rejected with a 400. Reading `item.id` throws, and the error-handling middleware answers with a 500 (`ServerValidation.ItemCheck`, `ServerRoutes.CheckoutSessionsRoute`).

## Model

| member | source | states |
|---|---|---|
| ServerRoutes.Launch | server.js:13-27 | the first start-up step: the server listens iff ACCOUNT_CODE, PUBLIC_API_KEY and PRIVATE_SECRET_KEY are all non-empty, and otherwise exits with code 1 before listening. While listening, the port is `PORT` or 8080, NODE_ENV defaults to "development", the API URL is the one derived from the public key, and the customer id is still undefined while the customer request is pending. |
| ServerRoutes.CustomerArrived | server.js:489-505 | the customer answer arrives while listening: the process exits with code 1 iff the payload is null or undefined (destructuring `id` throws), and otherwise keeps listening with the same configuration and the payload's `id` as customer id |
| ServerRoutes.StartupEndStates | server.js:489-505 | the end state of start-up: listening iff the three variables are set and the customer payload is not null or undefined; an exit after listening began happens only for a nullish payload; an exit always has code 1; a listening configuration is the first step's with the payload's `id` as customer id |
| ServerRoutes.EnvText | server.js:15 | `process.env.X \|\| fallback` on a string environment: the variable's value when it is set and non-empty, the fallback otherwise |
| ServerRoutes.KeyPrefix | server.js:433 | the first `_`-separated field of the key: a prefix of the key, free of `_`, ending at the key's end or at a `_` |
| ServerRoutes.Search | server.js:436 | the first occurrence of a pattern at or after an index, or None when there is none |
| ServerRoutes.SearchFinds | server.js:436 | a first occurrence at k is what the search returns |
| ServerRoutes.PlaceholderInTemplate | server.js:430 | the placeholder `_ENVIRONMENT_` first occurs right after `https://api` in the template |
| ServerRoutes.BaseUrlShape | server.js:430-439 | the base URL is `https://api` + the prefix's suffix (or "undefined") + `.y.uno` |
| ServerRoutes.BaseUrlTable | server.js:423-439 | prefix dev/staging/sandbox/prod gives https://api-dev.y.uno, https://api-staging.y.uno, https://api-sandbox.y.uno, https://api.y.uno; any other prefix gives https://apiundefined.y.uno |
| ServerRoutes.DevUrl | server.js:424 | the dev URL text |
| ServerRoutes.StagingUrl | server.js:425 | the staging URL text |
| ServerRoutes.SandboxUrl | server.js:426 | the sandbox URL text |
| ServerRoutes.ProdUrl | server.js:427 | the production URL text |
| ServerRoutes.UnknownUrl | server.js:435-436 | an unknown prefix inserts the text "undefined" |
| ServerRoutes.ErrorHandlerMessage | server.js:157-171 | the 500 message is the fixed apology in production, and the exception's message in every other environment |
| ServerRoutes.OrderId | server.js:200 | the order id starts with its prefix (`ORDER_` / `PAYMENT_`) |
| ServerRoutes.Round | server.js:199 | Math.round: the result is within one half of the input, halves rounding up |
| ServerRoutes.OrderAmountExact | server.js:199 | a falsy amount becomes 2000; an integral amount is passed on unchanged |
| ServerRoutes.SubHalfAmountBecomesZero | server.js:99-104 | a positive amount below 0.5 passes the validator and yields an order amount of 0 |
| ServerRoutes.ItemNames | server.js:205 | `items.map(item => item.name)` succeeds iff no item is null/undefined, and then lists each item's name in order |
| ServerRoutes.NameTexts | server.js:205 | each name rendered as `join` renders it (null/undefined as empty) |
| ServerRoutes.DescriptionNamesItems | server.js:203-206 | with items, the description starts with "Purchase: " and contains every item's name |
| ServerRoutes.AcceptedItemsNamed | server.js:205 | every element of an items array the validator accepts is an object, so `items.map(item => item.name)` does not throw, and it yields each item's `name` in order |
| ServerRoutes.SessionDescription | server.js:202-206 | for a body the validator accepts, the request is sent. Its description is "E-commerce Purchase" when items is missing, falsy or empty, and otherwise "Purchase: " + the items' names, each as join renders it, joined by ", " |
| ServerRoutes.SessionIdOf | server.js:252-255 | the session id is truthy iff one of checkout_session/id/session_id/uuid is; checkout_session wins when truthy; otherwise the last resort is uuid |
| ServerRoutes.SessionIdPrecedence | server.js:252-255 | the fallback order of the four session-id fields |
| ServerRoutes.CheckoutSessionsRoute | server.js:192-272 | a rejected body gets the validator's 400 without a provider call; a throwing validator gets the error handler's 500; a provider request is sent only after the validator passes |
| ServerRoutes.SessionRouteOutcome | server.js:194-265 | once sent, the session request carries the rounded amount and the country's currency (or USD). A refused answer is relayed as "Failed to create checkout session". An accepted one answers with the session id fallback, and with the same amount, currency and description that were sent. |
| ServerRoutes.AcceptedItemsReachProvider | server.js:107-122 | a body accepted by the validator, with no items or an items array, always reaches the provider (no crash before the call) |
| ServerRoutes.PaymentAmount | server.js:279 | `amount \|\| 2000` |
| ServerRoutes.PaymentsRoute | server.js:275-382 | the provider is called iff validatePayment passes. The request then carries `body.amount` when it is truthy and 2000 otherwise (always positive), a unit amount of that divided by 100, and the body's session and token. It also carries the country (`country` query or "CO"), that country's currency or "USD", its document type and number, the account code, the customer id, the idempotency key and the `/v1/payments` URL. The reply relays the provider's answer, or a 400 "Payment failed" with its details. |
| ServerRoutes.PaymentNeedsUuid | server.js:127-154 | a payment request reaches the provider only with a UUID-v4-shaped session and a truthy token |
| ServerValidation.ItemCheck | server.js:108-121 | one item: it throws iff it is null or undefined; otherwise "Invalid item data" iff one of id, name, quantity, unit_amount is falsy, "Invalid item values" iff all four are truthy and the quantity or unit amount converts to a number at most 0, and it passes in every other case (so always an object) |
| ServerValidation.NonNumericQuantityPasses | server.js:115-118 | a truthy quantity that converts to NaN is not rejected, because `NaN <= 0` is false |
| ServerValidation.ValidateCheckoutSession | server.js:95-125 | the validator with its loop over the items returns exactly the verdict of the specification `CheckoutSessionVerdict` |
| ServerValidation.SessionAmountRule | server.js:99-104 | "Invalid amount" iff the amount is truthy and not a number in (0, 1000000]; falsy amounts are never checked |
| ServerValidation.ItemsNeverInvalidAmount | server.js:107-122 | the item loop never produces the amount error |
| ServerValidation.ItemsPassIff | server.js:107-122 | the item loop passes iff every item passes |
| ServerValidation.ItemsFirstFailure | server.js:107-122 | a failing loop stops at the first failing item, and reports that item's verdict |
| ServerValidation.AcceptedSessionBody | server.js:95-125 | an accepted body has a falsy amount or one in (0, 1000000], and, with an items array, only items that pass every check |
| ServerValidation.UuidTestIff | server.js:138-139 | the case-insensitive anchored pattern accepts a string iff it has that positional shape |
| ServerValidation.UuidTestRuns | server.js:138 | the pattern match, written as the eleven fixed-length runs |
| ServerValidation.PaymentCheckOrder | server.js:127-154 | each verdict of validatePayment as an iff: missing fields first, then the session format, then the amount; the validator never throws |
| CheckoutFlow.Classify | yuno-react/src/components/product-catalog/checkout.tsx:190-202 | SUCCEEDED/APPROVED is approved; SUCCEEDED/PENDING is processing; otherwise `requiresAction` asks for an action; everything else is declined |
| CheckoutFlow.StatusBeforeAction | yuno-react/src/components/product-catalog/checkout.tsx:190-198 | a succeeded result is classified the same whatever `requiresAction` says |
| CheckoutFlow.ResultOf | yuno-react/src/components/product-catalog/checkout.tsx:187-196 | the classified fields are the payload's status, sub_status (strict equality) and the truthiness of requiresAction |
| CheckoutFlow.SessionItems | yuno-react/src/components/product-catalog/checkout.tsx:47-52 | each cart line becomes id, name, quantity and unit price in cents, in order |
| CheckoutFlow.ExpiredSessionSendsNothing | yuno-react/src/components/product-catalog/checkout.tsx:160-166 | without a passed or captured fallback session: the expired message, the failure modal, and no request |
| CheckoutFlow.RefusedPaymentShowsMessage | yuno-react/src/components/product-catalog/checkout.tsx:180-185 | a refused payment shows "  Payment failed: " with the server's message or "Unknown error", and makes no SDK call |
| CheckoutFlow.AcceptedPaymentFollowsClass | yuno-react/src/components/product-catalog/checkout.tsx:187-202 | success modal iff approved or processing; failure iff declined; continuePayment exactly once iff an action is required |
| CheckoutFlow.AttemptOpensAtMostOneModal | yuno-react/src/components/product-catalog/checkout.tsx:155-209 | no attempt opens both modals; a request is made iff there is a session; the message stays unchanged iff the SDK is asked to continue |
| CheckoutFlow.InitOutcome | yuno-react/src/components/product-catalog/checkout.tsx:56-62 | a refused answer fails with its message or "Failed to create checkout session"; an accepted one yields its checkout_session; a null body fails |
| CheckoutFlow.CheckoutView.constructor | yuno-react/src/components/product-catalog/checkout.tsx:17-23 | the initial state hooks: not processing, empty session, not mounted, no modal, empty message, initialising |
| CheckoutFlow.CheckoutView.Fail | yuno-react/src/components/product-catalog/checkout.tsx:33-34 | sets the message and opens the failure modal |
| CheckoutFlow.CheckoutView.InitializePayment | yuno-react/src/components/product-catalog/checkout.tsx:28-74 | without an SDK, shows "not available" and sends nothing. With one, it requests a session for the cart. It then either shows "  Failed to initialize payment: " + the reason, or stores the session and schedules its mount together with the session value of the render that ran it. It always ends not initialising. |
| CheckoutFlow.CheckoutView.RunInitEffect | yuno-react/src/components/product-catalog/checkout.tsx:76-80 | with no SDK instance, nothing changes at all; with one, a session is requested and initialising ends |
| CheckoutFlow.CheckoutView.MountYunoCheckout | yuno-react/src/components/product-catalog/checkout.tsx:82-153 | with no SDK, nothing changes. Otherwise the form is unmounted, and startCheckout is called with callbacks that pass on the mounted session and fall back on the mount's captured value. If startCheckout throws, the form-failure message is shown. If not, mountCheckout is called, and a visibility check is scheduled unless mountCheckout throws. |
| CheckoutFlow.CheckoutView.OnInitTimer | yuno-react/src/components/product-catalog/checkout.tsx:64-67 | the oldest scheduled mount is removed and run. startCheckout is called with its session, which the payment callback then passes on, and its captured value becomes the fallback. If startCheckout throws, the form-failure message is shown and no check is scheduled. Otherwise mountCheckout follows, the message and modal are kept, and a visibility check is scheduled unless mountCheckout throws. The form ends unmounted. |
| CheckoutFlow.CheckoutView.OnMountTimer | yuno-react/src/components/product-catalog/checkout.tsx:139-143 | a pending visibility check marks the form mounted iff the container has children |
| CheckoutFlow.CheckoutView.OnRendered | yuno-react/src/components/product-catalog/checkout.tsx:124-126 | the form is mounted |
| CheckoutFlow.CheckoutView.OnYunoError | yuno-react/src/components/product-catalog/checkout.tsx:119-123 | the payment-failed message, the failure modal, not processing |
| CheckoutFlow.CheckoutView.ProcessPayment | yuno-react/src/components/product-catalog/checkout.tsx:155-209 | for any session argument, the new message, modals, requests and SDK calls are those of the attempt's effect `PaymentEffect` (whose properties are the lemmas above). The fallback session is the one captured by the render whose callbacks the SDK calls, not the latest stored one. Processing ends. |
| CheckoutFlow.CheckoutView.OnCreatePayment | yuno-react/src/components/product-catalog/checkout.tsx:115-118 | the SDK's yunoCreatePayment callback: the new state is the `PaymentEffect` of the token, with the session the last startCheckout mounted and that mount's captured fallback. Processing ends. |
| CheckoutFlow.CheckoutView.HandleStartPayment | yuno-react/src/components/product-catalog/checkout.tsx:211-220 | before the form is mounted: the not-ready message and nothing else; after: processing and one startPayment call |
| Catalog.MapMatching | yuno-react/src/components/product-catalog/product-catalog.tsx:201-205 | every line of the product gets its new quantity, every other line is kept, the order is unchanged |
| Catalog.Added | yuno-react/src/components/product-catalog/product-catalog.tsx:195-210 | out of stock: no change; a product already in the cart: one more of it, all other lines unchanged; otherwise a new line of quantity 1 at the end |
| Catalog.Updated | yuno-react/src/components/product-catalog/product-catalog.tsx:218-231 | a quantity ≤ 0 removes the product; otherwise only that product's quantity changes |
| Catalog.Removed | yuno-react/src/components/product-catalog/product-catalog.tsx:213-215 | a line survives iff it belongs to another product; afterwards no line of the product is left, and the cart is never longer |
| Catalog.RemovedAbsent | yuno-react/src/components/product-catalog/product-catalog.tsx:213-215 | removing an absent product changes nothing |
| Catalog.RemovedCutsOneLine | yuno-react/src/components/product-catalog/product-catalog.tsx:213-215 | in a cart with one line per product, removing the product of line k cuts out exactly line k |
| Catalog.AddedUnique | yuno-react/src/components/product-catalog/product-catalog.tsx:195-210 | addToCart keeps one line per product |
| Catalog.UpdatedUnique | yuno-react/src/components/product-catalog/product-catalog.tsx:218-231 | updateQuantity keeps one line per product |
| Catalog.RemovedUnique | yuno-react/src/components/product-catalog/product-catalog.tsx:213-215 | removeFromCart keeps one line per product |
| Catalog.AddedCount | yuno-react/src/components/product-catalog/product-catalog.tsx:185-210 | addToCart raises the item count by one for a product in stock, by zero otherwise |
| Catalog.RemovedCount | yuno-react/src/components/product-catalog/product-catalog.tsx:185-215 | removing a product lowers the item count by that product's quantity |
| Catalog.UpdatedCount | yuno-react/src/components/product-catalog/product-catalog.tsx:185-231 | setting a product's quantity changes the item count by the difference |
| Catalog.Filtered | yuno-react/src/components/product-catalog/product-catalog.tsx:155-160 | the shown products are exactly the matching ones, each as often as in the catalog |
| Catalog.EmptySearchShowsAll | yuno-react/src/components/product-catalog/product-catalog.tsx:155-160 | an empty search with "All" shows the whole catalog in its order |
| Catalog.CompareRule | yuno-react/src/components/product-catalog/product-catalog.tsx:163-179 | "desc" negates the comparator, and the comparator is a difference of ranks |
| Catalog.SortInPlace | yuno-react/src/components/product-catalog/product-catalog.tsx:163-179 | the array ends in comparator order and is a permutation of its old contents |
| Catalog.FilterAndSort | yuno-react/src/components/product-catalog/product-catalog.tsx:154-182 | the result is a permutation of the filtered products, contains only matching products, and is in comparator order |
| Catalog.CategoryColumn | yuno-react/src/components/product-catalog/product-catalog.tsx:149 | each product's category, in order |
| Catalog.CategoriesSpec | yuno-react/src/components/product-catalog/product-catalog.tsx:148-151 | "All" first; then every catalog category exactly once, no other, ordered by first appearance |
| Catalog.CatalogPage.constructor | yuno-react/src/components/product-catalog/product-catalog.tsx:140-145 | the initial state: empty cart, checkout closed, empty search, "All", by name ascending |
| Catalog.CatalogPage.AddToCart | yuno-react/src/components/product-catalog/product-catalog.tsx:195-210 | the cart becomes `Added` of the old one, stays one line per product, and the badge grows by one exactly for a product in stock |
| Catalog.CatalogPage.RemoveFromCart | yuno-react/src/components/product-catalog/product-catalog.tsx:213-215 | the cart becomes `Removed` of the old one and holds no line of the product |
| Catalog.CatalogPage.UpdateQuantity | yuno-react/src/components/product-catalog/product-catalog.tsx:218-231 | the cart becomes `Updated` of the old one and stays one line per product |
| Catalog.CatalogPage.ClearCart | yuno-react/src/components/product-catalog/product-catalog.tsx:234-236 | the cart is empty |
| Catalog.CatalogPage.HandleCheckout | yuno-react/src/components/product-catalog/product-catalog.tsx:239-242 | checkout opens only for a non-empty cart |
| Catalog.CatalogPage.HandleCheckoutComplete | yuno-react/src/components/product-catalog/product-catalog.tsx:245-248 | checkout closes and the cart empties |
| Catalog.CatalogPage.SetSearchTerm | yuno-react/src/components/product-catalog/product-catalog.tsx:141 | the search term is replaced |
| Catalog.CatalogPage.SetSelectedCategory | yuno-react/src/components/product-catalog/product-catalog.tsx:142 | the category is replaced |
| Catalog.CatalogPage.SetSortBy | yuno-react/src/components/product-catalog/product-catalog.tsx:143 | the sort field is replaced |
| Catalog.CatalogPage.SetSortOrder | yuno-react/src/components/product-catalog/product-catalog.tsx:144 | the sort order is replaced |
| Catalog.CatalogPage.ShownProducts | yuno-react/src/components/product-catalog/product-catalog.tsx:154-182 | the products shown for the current controls: a permutation of the filtered catalog, in comparator order |
| StoreTypes.QuantitySumConcat | yuno-react/src/components/product-catalog/product-catalog.tsx:185-187 | the item count of two carts end to end is the sum of their counts |
| StoreTypes.QuantitySumCons | yuno-react/src/components/product-catalog/cart.tsx:29-31 | the item count as a sum from the front |
| Text.IncludesIff | yuno-react/src/components/product-catalog/product-catalog.tsx:156-157 | `includes` holds iff the text occurs at some index |
| Text.JoinIncludesPart | server.js:205 | every part of a join occurs in the joined text |
| Text.Lower | yuno-react/src/components/product-catalog/product-catalog.tsx:156-157 | `toLowerCase` keeps the length and maps each character |
| Text.DistinctSpec | yuno-react/src/components/product-catalog/product-catalog.tsx:149 | `Array.from(new Set(s))` has no repeats, the same elements as s, and first-appearance order |
| Text.FirstIndex | yuno-react/src/components/product-catalog/product-catalog.tsx:149 | the first position of an element |
| JsValues.Prop | server.js:96 | reading a property fails (TypeError) iff the value is null or undefined |
| CartView.HandleQuantityChange | yuno-react/src/components/product-catalog/cart.tsx:21-27 | below one removes the line; any other quantity is passed on unchanged for that product |
| CartView.DispatchAgreesWithUpdate | yuno-react/src/components/product-catalog/cart.tsx:21-27 | the dispatch through remove/update leaves the same cart as updateQuantity alone |
| CartView.DecrementFromOneRemoves | yuno-react/src/components/product-catalog/cart.tsx:96 | the minus button on a line of quantity 1 removes exactly that line |
| CartView.IncrementAddsOne | yuno-react/src/components/product-catalog/cart.tsx:105 | the plus button adds one to that line and changes no other line |
| CartView.ShippingCost | yuno-react/src/components/product-catalog/cart.tsx:33-35 | shipping is free iff the subtotal is above 100.00, and 9.99 otherwise |
| CartView.Tax | yuno-react/src/components/product-catalog/cart.tsx:37-39 | the tax is exactly 8% of the subtotal |
| CartView.FinalTotalParts | yuno-react/src/components/product-catalog/cart.tsx:41-43 | the total is 1.08 × subtotal above the threshold, and 9.99 more at or below it |
| CartView.ShippingNotice | yuno-react/src/components/product-catalog/cart.tsx:146-151 | the notice appears iff the subtotal is below 100.00, and names the positive amount still missing |
| CartView.ExactlyAtThreshold | yuno-react/src/components/product-catalog/cart.tsx:33-35 | at exactly 100.00, shipping is charged and no notice is shown |
| CartView.Render | yuno-react/src/components/product-catalog/cart.tsx:45-158 | the empty state iff the cart is empty; the checkout button iff it is not. The filled panel shows the cart's lines, and a summary with the quantity count, the subtotal, and the shipping, tax, free-shipping notice and total given by ShippingCost, Tax, ShippingNotice and FinalTotal (whose properties are the lemmas above) |
| ProductCard.FloorStars | yuno-react/src/components/product-catalog/product-card.tsx:16 | Math.floor on a rating in tenths: the largest whole number of stars not above it |
| ProductCard.CeilStars | yuno-react/src/components/product-catalog/product-card.tsx:27 | Math.ceil on a rating in tenths: the smallest whole number of stars not below it |
| ProductCard.Repeat | yuno-react/src/components/product-catalog/product-card.tsx:19-30 | n copies of a star (none for n ≤ 0) |
| ProductCard.RenderStars | yuno-react/src/components/product-catalog/product-card.tsx:14-33 | the two loops and the conditional half-star push produce floor(rating) full stars, a half star iff the rating is not whole, then 5 − ceil(rating) empty stars |
| ProductCard.FiveStars | yuno-react/src/components/product-catalog/product-card.tsx:14-33 | for a rating in [0, 5], the row has exactly five stars, with floor(rating) full and one half iff not whole |
| ProductCard.RepeatCount | yuno-react/src/components/product-catalog/product-card.tsx:19-30 | a repeated star contributes exactly n of itself and nothing else |
| ProductCard.RatingBlock | yuno-react/src/components/product-catalog/product-card.tsx:70-79 | the rating block is shown iff the rating is present and non-zero, with that rating's star row |
| ProductCard.AddToCartButton | yuno-react/src/components/product-catalog/product-card.tsx:94-107 | the button is enabled iff the product is in stock; otherwise it reads "Out of Stock" |
| ProductCard.ClickAddIsAddToCart | yuno-react/src/components/product-catalog/product-card.tsx:10-12 | a click changes the cart exactly as addToCart would; an out-of-stock click changes nothing |

## Left out

- Express wiring, helmet, CORS, the body parsers, the static files and the catch-all route, and request logging (server.js:30-92, 414-420). They shape no decision of the modelled code. The rate limiters are configuration only.
- `GET /sdk-web/healthy`, `GET /public-api-key` and `POST /customers/sessions` (server.js:173-189, 384-412). They forward or echo without any decision.
- The request body of `createCustomer` and the fixed payer data in the payment request (server.js:296-362). These are constant literals; the model keeps the fields that come from the request.
- The `timestamp` of the error handler and its console logging (server.js:158-162). This depends on the clock.
- The network: `fetch`, and `response.json()` failing on a non-JSON answer. The provider's answer is an input that is already parsed. A parse failure is not modelled.
- `getCountryData` is a parameter; the function is not part of this model. So is a throw from it.
- `Date.now`, `Math.random` and `v4()` are inputs (`Draws`).
- Opening the browser in development (server.js:499-501).
- ServerRoutes.CheckoutSessionsRoute and ServerRoutes.PaymentsRoute require a body that is not null or undefined. `express.json` only ever produces an object, an array or `{}`.
- ServerRoutes.BaseUrl: prefixes that name inherited `Object.prototype` members (such as `toString`) are treated like any unknown prefix. The model does not give the function text that such a lookup would insert.
- ServerRoutes.ReplaceFirst does not interpret `$` patterns in the replacement. The replacements used (the four table suffixes and "undefined") contain no `$`.
- JsValues.ToText renders objects as "[object Object]". An object that overrides `toString` or `valueOf` cannot come out of JSON.parse.
- Floating point: prices, subtotals and amounts are exact cents, ratings exact tenths and body numbers exact reals. IEEE rounding (e.g. `totalPrice * 100` not being integral) is not modelled.
- Catalog.SortInPlace: `Array.prototype.sort` is stable and this insertion sort is too, but stability is not stated. The contracts give order and permutation. `localeCompare` is a given collation function, so its ties and locale rules are not modelled.
- Catalog.FilterAndSort: the relative order of products that tie under the comparator is not stated. The filter keeps catalog order and the sort is stable, so ties keep catalog order, but the contract states only the sort order, the matching and the permutation.
- Catalog.CatalogPage.ShownProducts: the same as Catalog.FilterAndSort. The order of tied products is not stated.
- Text.Lower folds ASCII letters only. Non-ASCII case mapping, such as the é in the catalog, is not modelled.
- The catalog constant `mockProducts` is modelled (`Catalog.MockProducts`), but its twelve-product category list is not computed as a proof. `Catalog.CategoriesSpec` states the list for any catalog.
- The Yuno SDK, the DOM (container creation and cleanup) and React rendering beyond the state the components hold. SDK calls are recorded and their outcomes supplied. The interleaving of asynchronous callbacks is modelled only as separate event methods.
- CheckoutFlow.CheckoutView.MountYunoCheckout does not model the DOM container lookup or creation (checkout.tsx:89-104).
- The JSX of the cart lines, of the card's image and badges, and the `price per star` text. These are display-only.
- `app.tsx`, the routes and the radio button are not part of this model.
