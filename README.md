# Ward 3D Prints storefront: the deterministic core, in Dafny

This project models the small pieces of sequential logic in the Ward 3D Prints
web storefront and proves what they promise:

- **Order store** (`order_store.dfy`, module `OrderStore`): the in-memory `db`
  object with its list of customers and list of orders. `GetCustomer` and
  `GetPendingOrdersCount` are lookups. `UpdateOrderStatus` finds the first order
  with an id and replaces it in place with a copy carrying the new status. The
  class holds the list as a `seq` field that the update reassigns. The spec
  function `WithStatus` describes the new list, and lemmas about it give the
  "nothing else changes", idempotence and pending-count facts.
- **Generation form** (`generate_form.dfy`, module `GenerateForm`): the
  `GeneratePage` component as a class with one field per `useState` hook. Each
  handler is a method that assigns the fields its `setX` calls name, and
  `State()` lets every method state its whole new state. The admission gate
  `IsFormValid` is a pure function. The warning that `CheckFormAndShowWarning`
  sets is specified as the first failing entry of a priority list (`Checks`,
  `FirstFailure`). The object invariant says that the price always equals
  the size table's price for the selected size.
- **Checkout** (`checkout.dfy`, module `Checkout`): `DetectCardType` over the
  typed card number, `ACCEPTED_CARDS`, and the step counter of the
  `OrderProcess` component.
- **Upload path** (`upload_path.dfy`, module `UploadPath`): `generateFilePath`
  as pure string assembly. `split('.').pop()` is modelled with a `Split` whose
  inverse `Join` is proved. The timestamp's decimal text is proved to read
  back to the timestamp. `substring(2, 10)` is modelled with JavaScript's
  index clamping.
- **Sign-up** (`sign_up.dfy`, module `SignUp`): the ordered decision of
  `handleSignUp` as a function. The page is a class whose `HandleSignUp`
  either writes the error text or appends "/workspace" to the router's
  history.

`wrappers.dfy` holds the `Option` type that stands for `undefined` and `null`.

Inputs that the source reads from the environment are parameters:
- the clock (`Date.now()`) is `timestamp`;
- the random text (`Math.random().toString(36)`) is `random36`;
- the random queue count is the argument of `LoadQueueCount`;
- the data URL produced by the file reader is the argument of `UploadImage`.

React batches the `setX` calls of one handler. No modelled handler reads a
field after writing it, so applying the writes in order gives the same state.

Where the behaviour of the repository differs from a description of an
idealised order backend, the model follows the code:
- the price comes only from the size table (15, 30, 50, and 0 for anything
  else); there is no scale factor and no error for an unknown size;
- any status can be set from any status; there is no transition table;
- there is no queue-position ranking.

## Model

| member | source | states |
|---|---|---|
| `OrderStore.FindIndex` | lib/database.ts:95 | `findIndex`: -1 exactly when no order has the id; otherwise the index of an order with the id, and no earlier order has it |
| `OrderStore.FindCustomer` | lib/database.ts:88 | `find`: none exactly when no customer has the id; otherwise the first customer with that id |
| `OrderStore.PendingOrders` | lib/database.ts:89 | the filter keeps exactly the pending orders, and so is no longer than the list |
| `OrderStore.PendingOrdersCounted` | lib/database.ts:89 | the filtered list's length equals an independent per-index count of pending orders |
| `OrderStore.WithStatusEffect` | lib/database.ts:94-101 | the list length never changes; with no match the list is unchanged; with a match only the first matching index is rewritten, keeping id, customerId, date, modelName and price and taking the requested status whatever the old one was |
| `OrderStore.FindIndexIgnoresStatus` | lib/database.ts:95-97 | rewriting a status leaves `findIndex` unchanged for every id |
| `OrderStore.WithStatusIdempotent` | lib/database.ts:97 | applying the same (id, status) update twice gives the same list as once |
| `OrderStore.CountStatusReplace` | lib/database.ts:89 | replacing one order changes a status count only by that order's old and new status |
| `OrderStore.PendingCountAfterUpdate` | lib/database.ts:89-101 | after an update the pending count moves by exactly the rewritten order's change, and not at all when the id is absent |
| `OrderStore.OrderDatabase.constructor` | lib/database.ts:25-67 | the store starts with the two mock customers and the three mock orders |
| `OrderStore.OrderDatabase.GetCustomer` | lib/database.ts:88 | `db.getCustomer` is undefined exactly when no customer has the id, otherwise the first customer with it |
| `OrderStore.OrderDatabase.GetPendingOrdersCount` | lib/database.ts:89 | `db.getPendingOrdersCount` equals the number of pending orders and is at most the list length |
| `OrderStore.OrderDatabase.UpdateOrderStatus` | lib/database.ts:94-101 | `db.updateOrderStatus` rewrites the stored list to `WithStatus` of the old one, leaves the customers alone, returns undefined exactly when no order has the id, and otherwise returns the stored updated order |
| `GenerateForm.TrimEmptyIffBlank` | app/generate/page.tsx:99 | `!prompt.trim()` holds exactly when every character of the prompt is ECMAScript whitespace |
| `GenerateForm.FormValidIff` | app/generate/page.tsx:94-103 | `isFormValid` holds exactly when the queue count is below 5, size and color are non-empty, text mode has a non-whitespace prompt character and image mode has a non-empty image |
| `GenerateForm.QueueFullRejects` | app/generate/page.tsx:95 | a queue count of 5 or more makes the form invalid and gives the queue-full warning, whatever else the form holds |
| `GenerateForm.ModeIgnoresOtherInput` | app/generate/page.tsx:99-100 | in text mode the image does not affect validity; in image mode the prompt does not |
| `GenerateForm.FirstFailure` | app/generate/page.tsx:106-133 | the warning is none exactly when no check fails; otherwise it is the message of a failing check with no failing check before it |
| `GenerateForm.WarningIsEarliestFailure` | app/generate/page.tsx:107-130 | only the earliest failing check's message is reported, in the order queue full, size, color, prompt, image |
| `GenerateForm.FirstFailureFrom` | app/generate/page.tsx:106-133 | from a given check on, the warning is none exactly when no later check fails; otherwise it is the message of a failing check with no failing check between the start and it |
| `GenerateForm.WarningPriority` | app/generate/page.tsx:107-130 | the warning is the queue-full message when the queue is full, else the size message when no size is chosen, else the color message, else (text mode, blank prompt) the prompt message, else (image mode, no image) the image message, else none |
| `GenerateForm.WarningNoneIffValid` | app/generate/page.tsx:94-133 | the warning is none exactly when `isFormValid` holds |
| `GenerateForm.SizePrice` | app/generate/page.tsx:193-205 | small 15, medium 30, large 50, anything else 0; the price is always one of those four and is non-zero exactly for the three listed sizes |
| `GenerateForm.GeneratePage.constructor` | app/generate/page.tsx:38-52 | the initial hook values: text mode, no size, grey, empty prompt, no image, price 0, no warning, not generating, queue count 0 |
| `GenerateForm.GeneratePage.LoadQueueCount` | app/generate/page.tsx:88-91 | the mount effect changes only the queue count |
| `GenerateForm.GeneratePage.SelectGenerationMethod` | app/generate/page.tsx:261-277 | the mode buttons change only the mode and clear the warning |
| `GenerateForm.GeneratePage.ChangePrompt` | app/generate/page.tsx:297-300 | typing changes only the prompt and clears the warning |
| `GenerateForm.GeneratePage.UploadImage` | app/generate/page.tsx:178-188 | a loaded file changes only the image and clears the warning |
| `GenerateForm.GeneratePage.RemoveImage` | app/generate/page.tsx:322-325 | removing the image changes only the image and clears the warning |
| `GenerateForm.GeneratePage.SelectColor` | app/generate/page.tsx:394-397 | a swatch click changes only the color and clears the warning |
| `GenerateForm.GeneratePage.HandleSizeChange` | app/generate/page.tsx:190-206 | records the size, clears the warning, sets the table price for the size (one of 0, 15, 30, 50) and keeps the invariant that the price follows the selected size |
| `GenerateForm.GeneratePage.CheckFormAndShowWarning` | app/generate/page.tsx:106-133 | sets only the warning, to the first failing check's message; afterwards the warning is none exactly when the form is valid |
| `GenerateForm.GeneratePage.GenerateModel` | app/generate/page.tsx:135-145 | on an invalid form only the warning changes and it is set; on a valid one the warning is cleared, generation starts at progress 0 and no model is marked generated |
| `Checkout.DetectCardType` | components/order-process.tsx:57-63 | every brand it returns is in `ACCEPTED_CARDS` |
| `Checkout.DetectCardTypeByDigits` | components/order-process.tsx:58-62 | visa exactly for a leading 4; mastercard for 5 then 1 to 5; amex for 34 or 37; discover for 65 or 6011; null in every other case, including the empty string |
| `Checkout.UnknownPrefixes` | components/order-process.tsx:59-62 | "50", "56", "31", "6012", "64", "" and " 4" name no brand |
| `Checkout.BrandIsPrefixStable` | components/order-process.tsx:57-61 | once a prefix names a brand, appending characters keeps that brand |
| `Checkout.StepAfterSubmit` | components/order-process.tsx:40-49 | a submission never lowers the step and never passes 3: 1 goes to 2, 2 to 3, 3 stays |
| `Checkout.StepsFromStart` | components/order-process.tsx:24-49 | after n submissions from a step s the flow is at s + n, capped at 3 |
| `Checkout.CheckoutFlow.constructor` | components/order-process.tsx:24-34 | the flow starts at step 1 with no card type |
| `Checkout.CheckoutFlow.HandleShippingSubmit` | components/order-process.tsx:40-43 | sets the step to 2 and nothing else |
| `Checkout.CheckoutFlow.HandlePaymentSubmit` | components/order-process.tsx:45-50 | sets the step to 3 and nothing else |
| `Checkout.CheckoutFlow.SubmitForm` | components/order-process.tsx:82-149 | submitting the form the current step renders follows `StepAfterSubmit`, so the step stays within 1..3 and never decreases |
| `Checkout.CheckoutFlow.HandleCardNumberChange` | components/order-process.tsx:65-68 | the card type becomes the detected brand of the typed number; the step is unchanged |
| `UploadPath.Split` | lib/firebase/storage.ts:65 | `split('.')` gives at least one piece, no piece holds the separator, and the pieces join back to the input |
| `UploadPath.JoinLast` | lib/firebase/storage.ts:65 | a joined list is the join of all but the last piece, the separator, and the last piece |
| `UploadPath.LastPartIsTextAfterLastSeparator` | lib/firebase/storage.ts:65 | `pop()` of the split is the text after the last separator, or the whole string when there is none |
| `UploadPath.LastPartOfSuffix` | lib/firebase/storage.ts:65 | a string ending in the separator and a separator-free tail has that tail as its last piece |
| `UploadPath.Extension` | lib/firebase/storage.ts:65 | the extension holds no "." |
| `UploadPath.ExtensionOfDotlessName` | lib/firebase/storage.ts:65 | a name without "." is its own extension; a name ending in "." and a dot-free tail has that tail as extension |
| `UploadPath.DecimalText` | lib/firebase/storage.ts:69 | the timestamp renders as one or more decimal digits with no leading zero |
| `UploadPath.DecimalRoundTrip` | lib/firebase/storage.ts:63-69 | reading the rendered timestamp back as a decimal number gives the timestamp |
| `UploadPath.UniqueId` | lib/firebase/storage.ts:64 | `substring(2, 10)` yields at most 8 characters: characters 2 to 9 of a long enough text, the tail of a shorter one, and nothing for a text of 2 or fewer |
| `UploadPath.UserPrefix` | lib/firebase/storage.ts:68 | the prefix is empty exactly when the user id is absent or empty, and otherwise the id followed by "_" |
| `UploadPath.GenerateFilePath` | lib/firebase/storage.ts:58-70 | the path begins with the folder and "/", then the user id and "_" when one is given, otherwise directly with the timestamp and "_" |
| `UploadPath.PathKeepsExtension` | lib/firebase/storage.ts:65-69 | the generated path's own extension is the file name's extension |
| `UploadPath.PathEndsWithFileSegment` | lib/firebase/storage.ts:67-69 | when no "/" is in the user id, the random text or the extension, the text after the path's last "/" is prefix, timestamp, "_", unique id, "." and extension, in that order |
| `SignUp.DecideOutcomes` | app/signup/page.tsx:21-37 | the mismatch error exactly when the passwords differ; the missing-fields error exactly when they match and email or password is empty; navigation to "/workspace" exactly when they match and both are non-empty |
| `SignUp.MismatchReportedFirst` | app/signup/page.tsx:25-31 | with differing passwords the mismatch error is reported even when the email is empty |
| `SignUp.SignUpPage.constructor` | app/signup/page.tsx:15-19 | all fields and the error start empty, and nothing has been visited |
| `SignUp.SignUpPage.SetEmail` | app/signup/page.tsx:58 | the email input writes only the email |
| `SignUp.SignUpPage.SetPassword` | app/signup/page.tsx:68 | the password input writes only the password |
| `SignUp.SignUpPage.SetConfirmPassword` | app/signup/page.tsx:78 | the confirmation input writes only the confirmation |
| `SignUp.SignUpPage.HandleSignUp` | app/signup/page.tsx:21-37 | an error outcome sets the error text and navigates nowhere; a navigation pushes "/workspace" and leaves the previous error text untouched; no submission does both |

## Left out

- `getOrders`, `getModels` and `getCustomers` are plain accessors and are not modelled; the `Model` record and the mock models are left out with them.
- `getPrinterUtilization` returns a random number.
- `uploadFile`, `getFileUrl`, `deleteFile` and `listFiles` in lib/firebase/storage.ts call the hosted storage SDK, which is not part of this model.
- The random sources are parameters and are not modelled: the queue count of `Math.floor(Math.random() * 6)`, the base-36 text of `Math.random()`, and `Date.now()`. A negative clock reading is not modelled, since `timestamp` is a `nat`.
- The generation timers (progress ticks, the sample model URL, the success toast) and the `try`/`catch` around them are asynchronous and are not modelled. `GenerateModel` covers only the writes made before the timer starts.
- `handleAdjustModel`, `handleOrderPrint`, `handlePriceChange` and the `isAdjusting`, `isOrdering`, `adjustedPrice` and `modelUrl` fields of the generate page set single flags for dialogs outside this core.
- In the checkout: the shipping-cost estimate (random and floating point), the random order number, the redirect timer, the payment log line, the Venmo URL, and the `shippingDetails` and `paymentMethod` inputs are not modelled.
- Checkout.CheckoutFlow.HandleShippingSubmit: called on its own at step 3 it would lower the step, as the source handler would. Only `SubmitForm` promises monotonic progress, because the page attaches each handler to the form rendered at its own step.
- The browser's `required` checks on the sign-up and checkout inputs run before the handlers and are not modelled; `HandleSignUp` models the handler as written, including its own empty-field branch.
- Order prices are `real` values that are only stored, never computed with.
- JavaScript strings are UTF-16. Here a string is a sequence of Unicode scalar values; every ECMAScript whitespace code point is in the Basic Multilingual Plane, so `trim` behaves the same.
