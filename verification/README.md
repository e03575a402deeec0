# Storefront client: catalog store, product views and order form

A Dafny model of the pure logic inside a small storefront web client. The client lists
products fetched from a remote catalog API and lets a customer place an order. The model
covers four pieces:

- **The catalog store** (`ProductSlice`). This is the products slice: its state
  `{products, currentProduct, loading, error}`, the eight actions its reducer handles, and
  the two fetch thunks that turn an API call into a fulfilled or rejected action. The
  reducer is the total function `Step`, and `Run` folds it over a trace of actions. A
  write table (`Writes`) says, independently of `Step`, which action writes which field.
  The frame lemmas tie the two together. The last writer of a field determines its value,
  and a field no action writes keeps its value.
- **The product list page** (`ProductList`). It picks one of four views from the store
  state, in priority order: spinner, error, "no products", grid. The grid has one card per
  product.
- **The product card** (`ProductCard`). It derives the image address, the strike-through
  price, the category line, and the effects of a click: select the product in the store,
  then navigate to `/product/{id}`.
- **The order form** (`OrderForm`, `PhonePattern`, `OrderApi`). This covers the validation
  schema with its first-failed-check messages, and the mobile-number pattern
  `^01[3-9]\d{8}$` as an anchored sequence of character classes. It also covers the default
  values, the derived total `price * quantity + 80`, the order payload, and
  `placeOrder`'s rule for error responses. Finally it covers the three-way classification
  of the answer, and the form state and toast after each answer.

Supporting modules:

- `JsValues` holds the JavaScript value semantics the client relies on: `??`, truthiness,
  `?.` reads and `Object.entries`.
- `Decimal` holds integer `toString` and its inverse `ReadInt`, with a proved round trip.
- `Catalog` holds the product and order-body records.

The network and the UI are parameters: a fetch is `Resolved(envelope)` or `Threw`, and
an order post is a `PostOutcome`.

Behaviour of the code that is easy to misread, and that the model keeps as written:

- The courier field is checked only for being a string, so `""` and any other text pass.
  The four couriers are only the options the form offers.
- The list page shows its error view when the error is *truthy*, so an empty error string
  would fall through. `ProductList.ErrorViewIffErrorSet` proves that this cannot happen
  from the initial state, because the thunks only reject with the two fixed messages.
- Lengths in the schema are JavaScript string lengths, counted in UTF-16 code units
  (`JsValues.JsLength`). A character outside the Basic Multilingual Plane, such as an
  emoji, counts twice, so a one-emoji name is long enough.
- A product whose `discount_price` is 0 gets a bare "0" in its card's strike-through slot.
  See "Findings".
- A single-product response without a payload stores `[]` as the current product.
  `EmptyPayload` models this value, which is neither null nor a product.
- In the field-error branch the form reads the server errors from `response.data.error`,
  although the branch checks `response.data.data.error`. See "Findings".

## Model

| member | source | states |
|---|---|---|
| ProductSlice.Init | redux/features/productSlice.ts:12-17 | The store starts with no products, no current product, loading false and no error. |
| ProductSlice.Step | redux/features/productSlice.ts:45-82 | Either pending action sets loading and clears the error, and leaves products and the current product alone. Every fulfilled or rejected action clears loading. A list fetch's fulfilment replaces only the products. A rejection stores its message and keeps products and the current product. A single fetch's fulfilment replaces only the current product. Setting or clearing the current product changes nothing else. Only a list fulfilment ever changes products. |
| ProductSlice.StepIdempotent | redux/features/productSlice.ts:45-82 | Dispatching any action twice in a row has the same effect as dispatching it once. This includes setCurrentProduct and clearCurrentProduct. |
| ProductSlice.StepFollowsWriteTable | redux/features/productSlice.ts:45-82 | For every field, the reducer stores exactly the value the write table gives for the action. Fields the action does not write keep their value. |
| ProductSlice.UntouchedFieldSurvives | redux/features/productSlice.ts:45-82 | Over any trace, a field that no action of the trace writes ends with its starting value. |
| ProductSlice.LastWriterWins | redux/features/productSlice.ts:45-82 | Over any trace, a field ends with the value written by the last action that writes it. |
| ProductSlice.LoadingFollowsLastLifecycleAction | redux/features/productSlice.ts:56-81 | The two thunks share one flag. After a trace, loading is true exactly when the last pending, fulfilled or rejected action of either thunk was a pending one. |
| ProductSlice.FailedRefetchKeepsProducts | redux/features/productSlice.ts:60-67 | After a pending then rejected list fetch, the products are those of the last successful list fetch, and the error is the rejection message. |
| ProductSlice.PayloadFindsWrapped | redux/features/productSlice.ts:21-23 | `response?.data?.data?.data` finds a value exactly when every level of the envelope is present, and then it finds the wrapped value. |
| ProductSlice.FetchProductsAction | redux/features/productSlice.ts:19-27 | The list thunk rejects exactly when the call throws, always with "Failed to fetch products". Otherwise it fulfils with the payload, or with `[]` when the payload is missing. |
| ProductSlice.FetchProductAction | redux/features/productSlice.ts:29-40 | The single thunk rejects exactly when the call throws, always with "Failed to fetch product details". Otherwise it fulfils with the product, or with `[]` (never null) when the payload is missing. |
| ProductSlice.FetchProductNeverTouchesProducts | redux/features/productSlice.ts:70-81 | A single-product fetch leaves the product list unchanged whatever it returns, and ends with loading false. |
| ProductSlice.ReachableErrors | redux/features/productSlice.ts:64-81 | From the initial state, with rejections carrying the thunks' messages, the error is always null or one of the two fixed messages. |
| ProductSlice.SharedLoadingFlagSettlesEarly | redux/features/productSlice.ts:56-81 | With both fetches pending, the single fetch settling clears loading although the list request is still outstanding. |
| ProductList.Render | components/product-list.tsx:19-52 | The spinner appears exactly when loading is true. The error view appears exactly when loading is false and the error is truthy. Its text is "Error loading products: " followed by the error verbatim. "No products" appears exactly when loading is false, there is no error and the list is empty. The grid appears exactly when loading is false, there is no error and the list is non-empty. The grid has one card per product, in order, each keyed by its product's id. |
| ProductList.ErrorViewIffErrorSet | components/product-list.tsx:27-33 | In every state reachable from the initial one, the error view appears exactly when loading is false and the error is non-null. |
| ProductList.PendingShowsSpinner | components/product-list.tsx:19-25 | Right after either pending action the spinner is shown, whatever products or error the store held. |
| ProductList.FailedRefetchShowsError | components/product-list.tsx:27-33 | A failed list fetch shows "Error loading products: Failed to fetch products" while the old products stay in the store. |
| ProductList.FetchedListIsShown | components/product-list.tsx:45-52 | A successful fetch of a non-empty list shows a grid with one card per fetched product, keyed by its id, in order. |
| ProductList.OverlappingFailureMasksList | components/product-list.tsx:27-33 | A single-product failure during a list fetch leaves its error in place after the list arrives, so the page shows that error rather than the new list. |
| ProductCard.ImageUrlRoundTrip | components/product-card.tsx:16-18 | The card's address is the storage base followed by the image exactly when the image is truthy. Stripping the base gives the image back. Otherwise the address is the placeholder, which names no image. |
| ProductCard.ImageUrl | components/product-card.tsx:16-18 | A truthy image gives the storage base followed by the image name. Otherwise the address is the sized placeholder. |
| ProductCard.Render | components/product-card.tsx:27-54 | The card is keyed by the product id and shows its name and price. The strike-through appears exactly when discount_price is truthy, and it shows regular_price. A discount_price of 0 leaves a bare "0" in that slot instead. The category name appears exactly when a category is present. The alt text is the name, or "Product image" when the name is empty. The image source is the card's image address (`ImageUrl`), never the fallback. |
| ProductCard.StrikeAsWritten | components/product-card.tsx:42-46 | The slot shows the struck regular price exactly when discount_price is truthy. It shows a bare "0" exactly when discount_price is 0. Otherwise it is empty. |
| ProductCard.ZeroDiscountShowsStrayZero | components/product-card.tsx:42-46 | A product with discount_price 0 has no discount, yet its card shows the stray "0". |
| ProductCard.StrikeIntended | components/product-card.tsx:42-46 | As intended, the slot never shows a stray "0". It shows the struck regular price exactly when discount_price is truthy. |
| ProductCard.StrikeIntendedDiffersOnlyOnZero | components/product-card.tsx:42-46 | The intended slot differs from the written one exactly when discount_price is 0, and it is then empty. |
| ProductCard.Route | components/product-card.tsx:23 | The detail route is `/product/` followed by the id's text. |
| ProductCard.Click | components/product-card.tsx:20-24 | A click produces exactly two effects in order: dispatch setCurrentProduct with this product, then navigate to exactly `/product/` followed by the id's text. |
| ProductCard.ClickSelectsThenNavigates | components/product-card.tsx:20-24 | After the click's dispatch, the store's current product is this product and nothing else changed. A numeric id reads back from the route. |
| Catalog.IdText | components/product-card.tsx:23 | A string id is used as is. A numeric id becomes its canonical decimal text, with no leading zero, that reads back as the number. |
| Decimal.IntToString | components/order-form.tsx:63 | The text of a non-negative integer is digits only, with no leading zero except for 0 itself, and is one character long exactly below 10. A negative integer gives "-" followed by such digits, never starting with "0". |
| Decimal.IntToStringRoundTrip | components/order-form.tsx:63 | Reading the decimal text of any integer gives the integer back. |
| PhonePattern.FullMatchPointwise | components/order-form.tsx:21 | An anchored pattern of character classes matches a string exactly when the lengths agree and each character lies in its class. |
| PhonePattern.MobilePatternMeans | components/order-form.tsx:21 | `^01[3-9]\d{8}$` matches exactly the 11-character strings of "01", a digit from 3 to 9, and eight digits. |
| OrderForm.PhoneRule | components/order-form.tsx:18-21 | A phone passes the schema exactly when it has that mobile shape. The minimum-11 check adds nothing to the pattern. |
| OrderForm.PhoneExamples | components/order-form.tsx:18-21 | "01712345678" passes; "01212345678" and "0171234567" fail. |
| JsValues.JsLength | components/order-form.tsx:17-22 | A string's JavaScript length lies between its character count and twice that. It equals the character count when no character lies outside the Basic Multilingual Plane, and exceeds it otherwise. A single character has length 2 when it lies outside that plane and 1 otherwise. |
| JsValues.JsLengthAppend | components/order-form.tsx:17-22 | The length of a concatenation is the sum of the lengths. Together with the one-character case, this fixes the length of every string as its number of UTF-16 code units. |
| JsValues.JsLengthExample | components/order-form.tsx:22 | Two emoji followed by a letter have length 5, so such an address meets the minimum of 5. |
| OrderForm.Validate | components/order-form.tsx:16-25 | A field gets a message exactly when it fails its check. The name fails when shorter than 2 UTF-16 code units, the address when shorter than 5, the phone when not of mobile shape, and the quantity when below 1. The courier never fails. Each failing field gets the schema's own message for it. For the phone, that is the length message below 11 code units and the pattern message otherwise. No messages means the values are valid. |
| OrderForm.SurrogatePairsCountTwice | components/order-form.tsx:17-22 | A one-emoji name passes the minimum of 2, as zod counts it. Two emoji fail the address minimum of 5 and three pass it. |
| OrderForm.DefaultsAreRejected | components/order-form.tsx:38-44 | The default values fail on name, phone (too short) and address only. Choosing any offered courier changes nothing. |
| OrderForm.TotalAmount | components/order-form.tsx:47-49 | For a non-negative price and a quantity of at least 1, the total is at least one unit plus the delivery charge of 80. The total equals 80 exactly when the product cost is zero. |
| OrderForm.TotalGrowsByPrice | components/order-form.tsx:47-49 | Each further item adds exactly one price to the total, and a quantity of 0 leaves only the delivery charge of 80. |
| OrderForm.TotalExample | components/order-form.tsx:47-49 | Price 200 and quantity 3 give 680. |
| OrderForm.BuildOrder | components/order-form.tsx:55-66 | advance and discount_amount are null. delivery_charge is "80". cod_amount is the canonical decimal text of the total, with no leading zero, and reads back as it. s_product_qty is the canonical text of the quantity and reads back as it. product_ids is the id's text. The customer fields are copied unchanged. |
| OrderApi.PlaceOrder | services/api.ts:19-29 | A successful post, and an error that carries a response, both give that response. Any other error is thrown. |
| OrderForm.Classify | components/order-form.tsx:70-102 | Field errors exactly when the nested status is `false` and the nested error is truthy. Success exactly on HTTP 200 when the nested status is not `false`. Failure in every other case. |
| OrderForm.FlaggedWithoutErrorsFails | components/order-form.tsx:70-102 | A 200 response flagged `status: false` without an error object is a failure, not a success. |
| OrderForm.UnflaggedOkIsPlaced | components/order-form.tsx:89 | A 200 response is a success whenever its nested status is anything other than exactly `false`, including missing. |
| OrderForm.FirstMessage | components/order-form.tsx:76-79 | A server entry yields a message exactly when it is a non-empty array, and the message is its first element. |
| JsValues.EntriesOf | components/order-form.tsx:72-75 | `Object.entries` throws exactly on null or undefined, and gives an object's own fields. |
| OrderForm.ApplyServerErrors | components/order-form.tsx:72-82 | Every form field whose server entry is a non-empty array gets that entry's first message. Every other field keeps its error, or its lack of one. |
| OrderForm.ApplyServerErrorsIdempotent | components/order-form.tsx:72-82 | Applying the same server errors twice gives the same form errors as applying them once. |
| OrderForm.Respond | components/order-form.tsx:51-112 | Submitting is false again after every path. Only a success resets the values to the defaults and clears errors, with the success toast. The field-error toast appears exactly for a field-error answer whose errors object is not null or undefined, and the form errors are then the server errors applied. Every other answer, and every thrown error, shows the generic failure toast and keeps values and errors. |
| OrderForm.AsWrittenDropsFieldErrors | components/order-form.tsx:70-82 | As written, a field-error answer carrying `c_phone: ["invalid"]` where the branch checks ends in the generic toast, with no field error set. |
| OrderForm.IntendedShowsFieldErrors | components/order-form.tsx:70-88 | Reading the errors where the branch checks them, every field-error answer shows the field-error toast and keeps the values. Every reported field shows its first server message. |
| OrderForm.IntendedPhoneExample | components/order-form.tsx:70-82 | In that reading, the example answer shows "invalid" under the phone field, and the entered values stay. |

## Left out

- Network I/O (`fetchAllProducts`, `fetchProductById` and the order post in services/api.ts): each call is a parameter of the model (`Fetched`, `PostOutcome`). Only `placeOrder`'s error rule is modelled.
- Asynchronous timing: thunks, effects and hooks become a sequential trace of actions. Which of two overlapping fetches resolves last is whatever order the trace gives.
- The moment `isSubmitting` is true, and the disabled button as a re-entrancy guard: `Respond` models only the state after the submission settles.
- react-hook-form's `handleSubmit`, which runs the schema before `onSubmit`: `Validate` is not wired to `Respond`. Zod's coercion of the quantity text to a number is taken as given.
- JavaScript floating-point numbers: prices, quantities and amounts are integers.
- Decimal.IntToString: JavaScript writes numbers of magnitude 10^21 or more in exponent notation (`"1e+21"`); the model always writes plain digits.
- Rendering, styling, images, the router, toast presentation and console logging. Also app/layout.tsx, app/page.tsx and redux/store.ts, which only wire the store and pages.
- The product detail page and its discount percentage: app/product/[id]/page.tsx is not part of this model.
- The open `[key: string]: any` bag of further product fields. The description, stock and sku fields are carried in `Catalog.Product`, but nothing in the model reads them.
- `setError` on a server key that names no form field: nothing shows it, so the model does not keep it.
- Object.entries on a non-object: an array's index keys and a string's one-character entries cannot reach a form field, so `JsValues.EntriesOf` represents them by the empty map.

## Findings

| source | as written | input that shows it | evidently intended | confidence | as-written member | corrected member |
|---|---|---|---|---|---|---|
| components/order-form.tsx:70-82 | The branch is taken when `response.data.data.error` is truthy, but the errors come from `response.data.error`. When that is undefined, `Object.entries` throws, the catch block shows the generic toast, and no field error is set. | a response whose body is `{data: {status: false, error: {c_phone: ["invalid"]}}}`, with any status | read the errors from `response.data.data.error`, the object the condition checked | medium, not executed | OrderForm.AsWrittenDropsFieldErrors | OrderForm.IntendedShowsFieldErrors |
| components/product-card.tsx:42-46 | `{product.discount_price && <span>…</span>}` evaluates to the number 0 when discount_price is 0, and React renders that 0 as text. | a product with `discount_price: 0` | show nothing when there is no discount, e.g. `{product.discount_price ? <span>…</span> : null}` | high, not executed | ProductCard.ZeroDiscountShowsStrayZero | ProductCard.StrikeIntended |
