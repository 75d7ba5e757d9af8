# Web shop cart and order form, modelled in Dafny

This project models the two stateful models of a small in-browser shop, "web-larek":

- **The cart** (`BasketModel`). It is an ordered list of catalogue products in which no two products share an `id`. `addProduct` ignores a product whose id is already in the cart. `removeProduct` filters out every item with the given id. `clear` empties the list. `getCount` is the number of items. `getTotal` is the sum of the prices, with a `null` price counting as 0.
- **The order draft** (`OrderForm`). It holds the checkout fields `address`, `payment`, `email`, `phone`, `items`, `total` and `formErrors`.
  - `setPhone` normalises a phone number to `+7` followed by ten digits, or to `''`.
  - `validateAddressAndPayment` checks the delivery step. The trimmed address must be at least 10 characters long, and the payment method is checked only once the address passes.
  - `validateContacts` checks the contacts step. It gives up silently while either field is blank. Otherwise it checks the e-mail against `^[\w.-]+@[\w.-]+\.[A-Za-z]{2,}$` and the phone against `^\+7\d{10}$`.
  - Each validator stores the errors it finds in `formErrors` and emits them as an event.
  - `clear` resets every field, and `getOrderRequest` projects the six order fields into the request sent to the server.

Files:

- `types.dfy` (module `Types`): the records `Product`, `OrderRequest` and `FormErrors`, and the keys of an order.
- `js_text.dfy` (module `JsText`): the JavaScript string semantics the order form relies on.
  - the character classes `\d` and `\w` as they are without the `u` flag
  - `String.prototype.trim`, with the full set of white-space and line-terminator characters it strips
  - `replace(/\D/g, '')`
- `basket.dfy` (module `Basket`): `BasketModel` as a class whose `items` field the methods reassign. Each method is specified by a function on sequences (`Added`, `WithoutId`, `SumPrices`). The lemmas about those functions carry the cart's properties: the id invariant is preserved, adding is idempotent, adding and then removing is a round trip, and the total follows every change.
- `order.dfy` (module `Order`):
  - the pure parts of `OrderForm`: phone normalisation, the e-mail pattern, and the errors of each step as functions of the fields
  - the class `OrderForm`, whose setters and validators update the fields and append each `events.emit(name, payload)` call to a ghost log `emitted`

The regular expressions are written as predicates over characters. The e-mail pattern has two definitions. The first, `MatchesEmailPattern`, states every way the pattern can match (`A@B.C`). The second, `IsValidEmail`, is a scan from both ends, and a lemma proves the two agree. The cart's `items` getter is a read of the `items` field.

## Model

| member | source | states |
|---|---|---|
| JsText.Trim | src/components/Model/OrderForm.ts:91 | `trim()` returns `s` without a white-space prefix and suffix. The result is empty or starts and ends with a non-space character, and it is empty exactly when `s` is all white space. |
| JsText.TrimIdempotent | src/components/Model/OrderForm.ts:113 | Trimming an already trimmed string changes nothing. |
| JsText.DigitsOf | src/components/Model/OrderForm.ts:51 | `replace(/\D/g, '')` yields only ASCII digits and leaves an all-digit string unchanged. |
| JsText.DigitsOfKeepsDigits | src/components/Model/OrderForm.ts:51 | Every digit of the input survives, as often as it occurs. |
| JsText.DigitsOfAppend | src/components/Model/OrderForm.ts:51 | Stripping non-digits works piecewise, so the digits keep their order. |
| Basket.BasketModel.constructor | src/components/Model/BasketModel.ts:13 | A new cart is empty and satisfies the id invariant. |
| Basket.BasketModel.SetItems | src/components/Model/BasketModel.ts:15-17 | The `items` setter stores the list as given. The id invariant holds afterwards exactly when the new list has distinct ids. |
| Basket.BasketModel.GetCount | src/components/Model/BasketModel.ts:24-26 | The count is the number of items. Under the invariant it is also the number of distinct products in the cart. It reads the state and changes nothing. |
| Basket.BasketModel.GetTotal | src/components/Model/BasketModel.ts:29-31 | The left fold of `reduce` equals the sum of the prices, with a missing price counting as 0. It reads the state and changes nothing. |
| Basket.ReduceIsSum | src/components/Model/BasketModel.ts:30 | `reduce((sum, item) => sum + (item.price ?? 0), acc)` is `acc` plus the sum of the prices. |
| Basket.SumPricesAppend | src/components/Model/BasketModel.ts:30 | The total of two lists put together is the sum of their totals. |
| Basket.BasketModel.AddProduct | src/components/Model/BasketModel.ts:34-38 | The new list is the old one when the id is present, and otherwise the old one with `p` pushed at the end. The id invariant is preserved. |
| Basket.AddedAbsent | src/components/Model/BasketModel.ts:34-38 | A product with a new id grows the list by one and becomes its last element. The earlier items are unchanged. |
| Basket.AddedIdempotent | src/components/Model/BasketModel.ts:35 | Adding the same product twice gives the same list as adding it once. |
| Basket.AddedKeepsDistinct | src/components/Model/BasketModel.ts:34-38 | Adding keeps the ids pairwise distinct. |
| Basket.AddedTotal | src/components/Model/BasketModel.ts:29-38 | Adding raises the total by the product's price (0 when it has none), and only when the product is new. |
| Basket.BasketModel.RemoveProduct | src/components/Model/BasketModel.ts:41-43 | The new list is the old one filtered by id. The id invariant is preserved. |
| Basket.WithoutIdContents | src/components/Model/BasketModel.ts:42 | The filter leaves no item with the id, keeps only items of the list, and never grows the list. |
| Basket.WithoutIdCounts | src/components/Model/BasketModel.ts:42 | Counting multiplicity, the filter drops every item with the id and keeps every other item as often as it occurred. |
| Basket.WithoutIdAppend | src/components/Model/BasketModel.ts:42 | The filter distributes over concatenation, so the remaining items keep their relative order. |
| Basket.WithoutIdAbsent | src/components/Model/BasketModel.ts:42 | Removing an id that no item has changes nothing. |
| Basket.WithoutIdKeepsDistinct | src/components/Model/BasketModel.ts:41-43 | Removing keeps the ids pairwise distinct. |
| Basket.AddThenRemove | src/components/Model/BasketModel.ts:34-43 | Adding a product with a new id and then removing it restores the original list. |
| Basket.RemovedTotal | src/components/Model/BasketModel.ts:29-43 | With distinct ids, removing one of the cart's products lowers the total by exactly that product's price. |
| Basket.DistinctIdsCount | src/components/Model/BasketModel.ts:24-26 | With distinct ids, the number of items equals the number of distinct ids. |
| Basket.BasketModel.Clear | src/components/Model/BasketModel.ts:46-48 | Afterwards the cart is empty, the count is 0 and the total is 0. |
| Order.CanonicalPhoneDigits | src/components/Model/OrderForm.ts:52 | A phone of the form `+7` and ten digits has, once non-digits are stripped, eleven digits starting with 7: its characters after the `+`. |
| Order.NationalToCanonical | src/components/Model/OrderForm.ts:54-55 | `'+7' + digits.slice(1)` is canonical and keeps the digits. |
| Order.NormalizePhone | src/components/Model/OrderForm.ts:50-58 | The stored phone is `''` or canonical. A canonical input is kept as it is. The result is `''` exactly when the input's digits are not eleven starting with 7. Otherwise the result has the same digits as the input. |
| Order.NormalizePhoneRewrite | src/components/Model/OrderForm.ts:54-55 | Whenever a phone is stored, it is `'+7' + digits.slice(1)` of the input's digits, and the first branch agrees with this. |
| Order.FormattedDigits | src/components/Model/OrderForm.ts:51 | Stripping the non-digits of `+7 (ddd) ddd-dd-dd` leaves `7` followed by the ten digits. |
| Order.PhoneFormattedRewritten | src/components/Model/OrderForm.ts:50-57 | Every number written as `+7 (ddd) ddd-dd-dd` is stored as `+7` and its ten digits. |
| Order.PhoneExampleFormatted | src/components/Model/OrderForm.ts:54-55 | `"+7 (999) 123-45-67"` is stored as `"+79991234567"`. |
| Order.CanonicalPhoneFromDigits | src/components/Model/OrderForm.ts:52-55 | Two canonical phones with the same digits are equal. |
| Order.NormalizePhoneUnique | src/components/Model/OrderForm.ts:50-58 | The contract of NormalizePhone admits exactly one result, so it fully specifies the normalisation. |
| Order.NormalizePhoneIdempotent | src/components/Model/OrderForm.ts:50-58 | Normalising a stored phone again changes nothing. |
| Order.PhoneExampleCanonical | src/components/Model/OrderForm.ts:52-53 | `"+79991234567"` is stored unchanged. |
| Order.PhoneExampleLeadingEight | src/components/Model/OrderForm.ts:54-57 | `"89991234567"` is stored as `''`. |
| Order.PhoneExampleTooShort | src/components/Model/OrderForm.ts:54-57 | `"123"` is stored as `''`. |
| Order.EmailSplitIsScan | src/components/Model/OrderForm.ts:111 | In every match `A@B.C` of the e-mail pattern, `C` is the longest run of letters at the end and `A` and `B` are the longest `[\w.-]` runs. |
| Order.IsValidEmailCorrect | src/components/Model/OrderForm.ts:111-115 | `emailRegex.test(s)`, computed by the scan, holds exactly when `s` splits as `A@B.C`: `A` and `B` are non-empty runs of `[\w.-]`, and `C` is at least two ASCII letters. |
| Order.EmailExampleAccepted | src/components/Model/OrderForm.ts:111 | `"user@example.com"` matches the e-mail pattern. |
| Order.EmailExampleShortDomain | src/components/Model/OrderForm.ts:111 | `"a@b.c"` does not match, because its top-level domain has one letter. |
| Order.EmailExampleNoAt | src/components/Model/OrderForm.ts:111 | `"not-an-email"` does not match. |
| Order.AddressPaymentErrors | src/components/Model/OrderForm.ts:90-103 | There is at most one error. There is an address error exactly when the trimmed address is shorter than 10 characters; its message says whether the address is empty or short. There is a payment error exactly when the address passes and the payment is `''`. No errors exactly when both pass. |
| Order.AddressExampleTooShort | src/components/Model/OrderForm.ts:93-96 | A two-letter address draws only the short-address error, even with a payment chosen. |
| Order.ContactsCheck | src/components/Model/OrderForm.ts:108-137 | The check gives up exactly when the trimmed e-mail or the trimmed phone is empty. Otherwise it reports an e-mail error exactly when the trimmed e-mail fails the pattern and a phone error exactly when the phone is not canonical. Both may be reported, and there are no other keys. |
| Order.NormalizedPhoneNotFlagged | src/components/Model/OrderForm.ts:50-58 | A phone stored by `setPhone` never draws a phone error from the contacts check. |
| Order.OrderForm.constructor | src/components/Model/OrderForm.ts:25-33 | A new draft has every field empty, no errors, and nothing emitted. |
| Order.OrderForm.GetOrderRequest | src/components/Model/OrderForm.ts:140-149 | The request carries exactly the six current order fields and reads nothing else. |
| Order.OrderForm.SetAddress | src/components/Model/OrderForm.ts:35-38 | Only the address changes among the order fields. Then the delivery step is validated: the errors are stored and one `formErrors:address` event is emitted. |
| Order.OrderForm.SetPayment | src/components/Model/OrderForm.ts:40-43 | Only the payment changes among the order fields. Then the delivery step is validated. |
| Order.OrderForm.SetEmail | src/components/Model/OrderForm.ts:45-48 | Only the e-mail changes among the order fields. Then the contacts step is validated. |
| Order.OrderForm.SetPhone | src/components/Model/OrderForm.ts:50-60 | The phone becomes the normalised input, so it is `''` or canonical, and the other order fields are unchanged. Then the contacts step is validated. |
| Order.OrderForm.SetItems | src/components/Model/OrderForm.ts:62-64 | Only the item ids change. Nothing is validated or emitted. |
| Order.OrderForm.SetTotal | src/components/Model/OrderForm.ts:66-68 | Only the total changes. Nothing is validated or emitted. |
| Order.OrderForm.Clear | src/components/Model/OrderForm.ts:70-78 | The strings become `''`, the total 0, the items `[]` and the errors `{}`. Nothing is emitted. |
| Order.OrderForm.HandleValidation | src/components/Model/OrderForm.ts:80-87 | Stores the errors and emits them under the given name. It returns true exactly when there are no errors. |
| Order.OrderForm.ValidateAddressAndPayment | src/components/Model/OrderForm.ts:89-106 | Returns true exactly when the trimmed address has at least 10 characters and the payment is non-empty. Only `formErrors` changes. One `formErrors:address` event carries the errors. |
| Order.OrderForm.ValidateContacts | src/components/Model/OrderForm.ts:108-138 | Returns true exactly when both trimmed fields are non-empty, the trimmed e-mail matches the pattern and the phone is canonical. If a field is blank, it changes nothing and emits nothing. Otherwise it stores the errors and emits one `formErrors:change` event carrying the errors and the validity. The order fields never change. |

## Behaviour worth noting

- `"89991234567"` is stored as `''`. Only eleven digits starting with 7 are rewritten to `+7` form (src/components/Model/OrderForm.ts:54-57, `Order.PhoneExampleLeadingEight`).
- A number such as `"+7 (999) 123-45-67"` is stored as `"+79991234567"`. Its digits are eleven starting with 7, so the second branch rebuilds it from them (src/components/Model/OrderForm.ts:54-55, `Order.PhoneFormattedRewritten`).
- `"a@b.c"` is not a valid e-mail, because the pattern requires a top-level domain of at least two letters (src/components/Model/OrderForm.ts:111, `Order.EmailExampleShortDomain`).
- The delivery step emits `formErrors:address` with the errors alone. The contacts step emits `formErrors:change` with the errors and the validity (src/components/Model/OrderForm.ts:105, :136). The setters emit nothing beyond what their validator emits.
- Any non-empty payment string passes the payment check (src/components/Model/OrderForm.ts:100).
- The cart emits no events. It accepts products without an id or without a price (src/components/Model/BasketModel.ts:34-38).

## Left out

- Event dispatch. `events.emit` goes to an event hub whose code is not part of this model. Each call is recorded as an entry in the ghost log `emitted`. Subscription, handler order and re-entrancy are not modelled.
- Aliasing. The `items` getter and setter of `BasketModel` share one JavaScript array with the caller, and so does `getOrderRequest`'s `items`. The model works on values, so a caller mutating that array behind the model's back is not captured.
- Numbers. Prices and the order total are whole numbers (`int`). JavaScript's floating-point arithmetic, and `NaN` or non-integer prices, are not modelled.
- String length. `length` in JavaScript counts UTF-16 code units. The model counts Unicode characters, so an address containing characters outside the Basic Multilingual Plane is measured shorter than JavaScript measures it.
- Trim: the white-space set is the one of current ECMAScript (the Unicode space separators, TAB, VT, FF, NBSP, ZWNBSP, LF, CR, LS, PS). A JavaScript engine built on an older Unicode version may differ in one or two code points.
- Loose typing. The setters accept only strings (and `SetTotal` only an integer). JavaScript callers passing `undefined` or other types are not modelled.
- The presentation layer, the application bootstrap, the network client and the other model classes (the catalogue and the product cards). They are not part of this model. The presenter calls `validatePaymentStep`, `validateContactsStep` and `cleanInvalidItems`, which neither model class defines, so there is nothing to model for them, and there is no checkout step machine.
