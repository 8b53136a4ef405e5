# Music store cart, checkout and form rules in Dafny

This project models the logic of a small music-store web page written as one
browser script, `Script.js`. It covers:

- **the shopping cart**: a list of line items `{name, price, quantity}` and its four mutators:
  - `addToCart`, which bumps an existing item or appends a new one;
  - `removeFromCart`, which is `splice(index, 1)`;
  - `updateQuantity`, which changes a quantity and drops the item at zero;
  - `clearCart`;
- **the derived figures**:
  - the item count shown on the cart badge;
  - the subtotal / 15% tax / total triple;
- **the storage write-through**: the cart is saved to `localStorage` after every change and read back when the page loads;
- **the order confirmation**: the order goes through exactly when the payment covers the total, and the cart is then emptied;
- **the category filter** on the products page, with the store's catalogue of eight products;
- **the form checks**: the email pattern, the password length, and `validateForm`, the error object of the login and registration forms.

Modules, one per file:

| file | module | contents |
|---|---|---|
| `outcomes.dfy` | `Outcomes` | `Option` and `Result`. |
| `cart.dfy` | `Cart` | The line items and the cart mutators. Also the cart invariant: names are unique and every quantity is at least 1. |
| `totals.dfy` | `Totals` | The count and the totals as left folds over the cart. Also how each mutator moves them. |
| `checkout.dfy` | `Checkout` | The payment-versus-total decision. |
| `store.dfy` | `Store` | The cart together with its storage entry. |
| `catalog.dfy` | `Catalog` | Products, the catalogue and the filter. |
| `validation.dfy` | `Validation` | Trimming, the email and password rules, and `validateForm`. |

How JavaScript behaviour is represented:

- **Prices** are whole Jamaican dollars (`int`). The totals are exact `real`s.
- **Indices are `int`.** A negative index and an index past the end behave as the script's `splice` and `cart[index]` make them behave; no precondition excludes them.
- **Errors.** Where the script would throw, the model returns a `Failure`.
- **Form fields.** A field the form does not have is the empty string. The script treats `undefined` and `""` alike, because both are falsy.
- **Payment.** The payment is `Option<real>`, with `None` standing for `NaN`.

## Model

| member | source | states |
|---|---|---|
| Cart.FindByName | Script.js:51 | The first item whose name matches, as `find` returns it. It is absent exactly when no item has that name. |
| Cart.AddToCart | Script.js:50-61 | An existing name gains one unit; its price and every other item stay as they were. A new name is appended at the end with quantity 1. Either way the name is then in the cart, and unique names and positive quantities are preserved. |
| Cart.AddTwiceMerges | Script.js:50-61 | Adding a new product twice leaves one entry for it, with quantity 2 and the first price, after the untouched old items. |
| Cart.RemoveAt | Script.js:69 | Deleting position `i` shortens the cart by one and shifts the later items down one place. The multiset of items loses exactly that item, and the invariant is preserved. |
| Cart.RemoveFromCart | Script.js:68-69 | A valid index deletes that item. A negative index deletes counting from the end, and a very negative one deletes the first item. An index at or past the end, or any index into an empty cart, leaves the cart unchanged. The invariant is preserved. |
| Cart.UpdateQuantity | Script.js:75-84 | It fails exactly when the index holds no item. If the new quantity is at most 0, the item is removed. Otherwise only that item's quantity changes, by `change`. The invariant is preserved. |
| Cart.ClearCart | Script.js:87-88 | The cart becomes empty, which satisfies the invariant. |
| Totals.UpdateCartCount | Script.js:98-99 | The loop's count equals the fold of the quantities. With positive quantities it is at least the number of items. |
| Totals.CalculateCartTotals | Script.js:111-120 | The subtotal is the sum of price times quantity, the tax is 15% of it, and the total is their sum. The tax and the total are whole numbers of cents. |
| Totals.TotalsOrdered | Script.js:111-114 | With non-negative prices and positive quantities: 0 <= subtotal, 0 <= tax, and subtotal <= total. |
| Totals.ItemCountBounds | Script.js:99 | With positive quantities the count is at least the number of items, and it is zero exactly when the cart is empty. |
| Totals.AddToCartTotals | Script.js:50-61 | Adding raises the count by exactly 1. The subtotal rises by the item's stored price when the name is already present, and otherwise by the given price. |
| Totals.RemoveFromCartTotals | Script.js:68-69 | Removing a valid position takes away that item's units and its line total. |
| Totals.UpdateQuantityTotals | Script.js:75-84 | The count moves by `change` and the subtotal by `price * change`. If the item drops out, all of its units and its line total go instead. |
| Totals.ClearCartTotals | Script.js:87-88 | A cleared cart has count 0 and subtotal, tax and total all 0. |
| Totals.ViolinTotals | Script.js:111-114 | One J$65,000 violin gives tax 9,750 and total 74,750. |
| Checkout.ConfirmOrder | Script.js:401-412 | The order is confirmed exactly when a number was entered and it is at least the total. A confirmed order leaves an empty cart. A refused one keeps the cart and reports the total due. |
| Checkout.ConfirmMonotone | Script.js:406 | An accepted payment stays accepted when it is raised. |
| Checkout.ExactPaymentConfirms | Script.js:406-408 | Paying exactly the total confirms the order, and the cart it leaves has all-zero amounts. |
| Checkout.SubtotalIsNotEnough | Script.js:403-406 | When something is owed, paying only the subtotal is refused, because tax is charged. |
| Checkout.UnparsedPaymentRefused | Script.js:402-411 | A payment field that does not parse never confirms the order. |
| Store.Start | Script.js:2 | Page load fails exactly when the entry does not parse. An absent entry starts an empty cart, and a saved entry starts with exactly that cart. Either way the session reloads to the same cart. |
| Store.Commit | Script.js:94-96 | Writing the cart makes storage hold exactly the cart in memory. |
| Store.Add | Script.js:50-66 | `addToCart` with its storage write: storage matches memory, the count rises by 1, and a valid cart stays valid. |
| Store.Remove | Script.js:68-73 | `removeFromCart` with its storage write: storage matches memory, and a valid cart stays valid. |
| Store.Update | Script.js:75-84 | `updateQuantity` with its storage write. It fails exactly when the index holds no item. On success storage matches memory, and a valid cart stays valid. |
| Store.Clear | Script.js:87-92 | `clearCart` with its storage write: the cart is empty and valid, and storage matches memory. |
| Store.Confirm | Script.js:401-412 | A confirmed order writes the empty cart. A refused order changes nothing. Either way storage still matches memory and a valid cart stays valid. |
| Store.OperationsPreserveInvariant | Script.js:50-96 | Every operation keeps storage equal to memory, and keeps names unique and quantities positive. |
| Catalog.FilterProducts | Script.js:285-287 | The filter `'all'` lists the whole catalogue. Any other filter lists only products of that category. |
| Catalog.FilterProductsMembers | Script.js:285-287 | A filter other than `'all'` lists a product exactly when it is in the catalogue and has that category. |
| Catalog.OfCategoryCounts | Script.js:287 | Each product appears in the filtered list as often as in the catalogue when its category matches, and never otherwise. |
| Catalog.OfCategoryAppend | Script.js:287 | Filtering a concatenation filters each part and keeps them in order. |
| Catalog.OfCategoryIdempotent | Script.js:287 | Filtering twice by the same category is the same as filtering once. |
| Catalog.GuitarsFilter | Script.js:213-287 | The guitars filter lists the acoustic, electric and bass guitars, in catalogue order. |
| Validation.TrimStart | Script.js:189 | The result is a suffix of the input. What was removed is all whitespace, and the result does not start with whitespace. |
| Validation.TrimEnd | Script.js:189 | The result is a prefix of the input. What was removed is all whitespace, and the result does not end with whitespace. |
| Validation.Trim | Script.js:189 | The result is a contiguous part of the input with only whitespace around it, and neither of its ends is whitespace. It is empty exactly when the input is all whitespace. |
| Validation.IndexOf | Script.js:178 | The first position of a character, or absence when the character does not occur. |
| Validation.ValidateEmailMatchesPattern | Script.js:177-180 | The hand-written email check accepts exactly the strings of the form `a@b.c`, where `a`, `b` and `c` are non-empty and hold no whitespace and no `@`. |
| Validation.ValidateForm | Script.js:186-210 | Each field is reported exactly when it is non-empty and breaks its rule. The rules are: trimmed full name shorter than 2; email not matching the pattern; trimmed username shorter than 3; password shorter than 6; confirmation different from the password. Every reported field carries its message. |
| Validation.FormAcceptedIff | Script.js:186-210 | A form has no errors exactly when every filled-in field passes its rule. |
| Validation.LoginFormFields | Script.js:318-323 | The login form can only report the username and the password. |
| Validation.LoginFormAccepted | Script.js:318-328 | The login form is accepted exactly when the username and the password are each empty or pass their rule. |
| Validation.EmptyFormAccepted | Script.js:186-210 | An entirely empty form has no errors. |
| Validation.BlankNameRejected | Script.js:189-190 | A full name made only of spaces is reported, although it is not empty. |
| Validation.EmailAccepted | Script.js:178 | `jo@mail.com` passes the email check. |
| Validation.EmailWithoutDotRejected | Script.js:178 | `jo@mail` fails the email check. |

Two behaviours of the script worth knowing, both modelled as the script does them:

- **Stored cart that does not parse.** The script's `JSON.parse` throws on it, so `Store.Load` and `Store.Start` return an error and no cart is loaded.
- **Removing at a position past the end.** `splice` removes nothing and raises no error, so `Cart.RemoveFromCart` leaves the cart unchanged.

## Left out

- Page navigation, the rendering of the cart, checkout and product lists, and the wiring of event listeners (Script.js:4-47, 123-174, 289-298, 306-421). These are DOM work; the model keeps only the decisions these handlers make.
- The two-second "added to cart" notification (Script.js:103-109). It is a display timer with no state.
- The empty-cart alert on the checkout button (Script.js:384-394). It only navigates or shows a message.
- JSON encoding and `localStorage` are an abstract storage slot (`Store.Slot`). The slot is absent, holds a cart, or holds unparseable text. Text that parses to something other than an array is not modelled.
- `Totals.CalculateCartTotals`: the totals are exact rationals. Floating-point rounding and the two-decimal strings of `toFixed(2)` are not modelled. Because the amounts are whole cents, the rounding is exact in this model.
- `Checkout.ConfirmOrder`: compares the payment with the exact total. It does not model `parseFloat` of the rounded string, or the display of the total with `toLocaleString`.
- Numbers are unbounded integers. The script's IEEE doubles lose precision beyond 2^53, and no realistic cart reaches that.
- `Cart.RemoveFromCart` and `Cart.UpdateQuantity`: the index is an integer. Fractional, string or `undefined` indices are not modelled.
- `Validation.Trim` and `Validation.ValidateForm`: lengths count Unicode characters, while JavaScript counts UTF-16 code units. The two differ only for characters outside the Basic Multilingual Plane.
- `Validation.ValidateEmailMatchesPattern`: relates the hand-written check to the pattern restated as a predicate. The regular-expression engine itself is not modelled.
- Product images and descriptions (Script.js:213-278) are display data and are dropped from `Catalog.Product`.
- The order of keys in the error object and the order in which the handlers write messages to the page are not modelled.
