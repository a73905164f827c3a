# Storefront cart, checkout and account rules in Dafny

This project models the buyer side of a multi-vendor storefront (a Django
application). The shop state is a product table, the signed-in buyer's
session cart (product id to quantity), the orders and the reviews. Buyers
add, update and remove cart entries. The cart page drops stale entries and
totals the rest. Checkout is all or nothing: it validates every line, then
creates one order with one item per line at the current price, lowers each
product's stock by the quantity bought and empties the cart. Around that
core sit the record predicates (roles, stock, image URL, order totals,
token validity), password-reset token rotation and confirmation, the form
validators, and the cart count shown on every page.

Files:

- `wrappers.dfy`: `Option` and `Result`.
- `sums.dfy`: the sum of a map's values, with update, delete and sign lemmas.
- `models.dfy`: the records of `ecommerce/models.py` and their predicates, review
  lookup and `get_or_create`, and the `ResetTokens` table with token rotation.
- `forms.dfy`: the `clean_*` hooks and the reset-confirm form of `ecommerce/forms.py`.
- `session.dfy`: the session cart and its unit count.
- `context_processors.dfy`: `cart_count`.
- `views.dfy`: the handlers of `ecommerce/views.py`. The `Shop` class holds the state;
  the cart-page and checkout loops are methods proved against specification
  functions (`Kept`, `Passing`, `CartTotal`, `Purchased`).

Money is in whole cents and instants are whole seconds. The clock, the
token string and the outcome of sending the invoice email are parameters.

## Model

| member | source | states |
|---|---|---|
| Models.RolesExclusive | ecommerce/models.py:22-26 | no user is both a vendor and a buyer |
| Models.OutOfStockMeansNoneLeft | ecommerce/models.py:61-62 | a product is out of stock exactly when its (non-negative) stock is 0 |
| Models.ImageUrl | ecommerce/models.py:64-68 | the placeholder path when there is no image, otherwise a URL ending in the stored image name |
| Models.ItemsTotal | ecommerce/models.py:95-97 | the sum of price × quantity over an order's items, non-negative when every price is |
| Models.ReviewIndex | ecommerce/models.py:111 | finds the review of a (product, user) pair, or shows that none exists |
| Models.GetOrCreateReview | ecommerce/views.py:541-545 | returns the pair's existing review unchanged, or appends one with the given verified flag; keeps one review per (product, user) |
| Models.InsertReview | ecommerce/models.py:104 | an insert succeeds exactly when the row has a rating, and then appends it |
| Models.GetOrCreateReviewAsWritten | ecommerce/views.py:541-545 | against the real table, the call fails exactly when the pair has no review yet |
| Models.FirstReviewRefused | ecommerce/views.py:541-545 | on an empty review table the source's call fails, where the corrected one creates review 0 |
| Models.ValidityOnlyLapses | ecommerce/models.py:130-132 | a token valid at a later instant was valid earlier; a used token is never valid |
| Models.TokenIndex | ecommerce/views.py:601 | finds the token record with a given string, or shows that none exists |
| Models.Invalidated | ecommerce/models.py:138 | every token of the user ends up used; other users' tokens are unchanged; no other field changes |
| Models.OnlyNewTokenValid | ecommerce/models.py:134-148 | after rotation the new token is the only one of that user valid at that moment |
| Models.ResetTokens.GenerateToken | ecommerce/models.py:134-148 | old tokens of the user invalidated, a new unused token appended that expires 24 hours later and is valid now; tokens stay distinct |
| Forms.CleanEmail | ecommerce/forms.py:19-23 | refused exactly when some user already has the address; otherwise returned unchanged (the buyer form, lines 39-43, is the same) |
| Forms.RegistrationKeepsEmailsUnique | ecommerce/forms.py:39-43 | adding only users whose address passes keeps addresses unique |
| Forms.CleanPrice | ecommerce/forms.py:71-75 | refused exactly when a price is given and negative; zero and absent pass unchanged |
| Forms.CleanStockQuantity | ecommerce/forms.py:77-81 | the hook on its own refuses exactly a given negative stock; 0 passes |
| Forms.StockQuantityField | ecommerce/models.py:49 | the field as a whole refuses exactly a missing stock (required, since the column has no `blank=True`) or a negative one (the column's minimum-0 error); both checks run before the hook, so the hook's own error never appears; an accepted value is a given stock ≥ 0, unchanged |
| Forms.CleanImage | ecommerce/forms.py:83-92 | as written: refused exactly when an image is over 5 MiB or is not a new upload whose detected type starts with "image/"; size is reported first; a stored file or an upload with no detected type makes the hook raise; no image passes |
| Forms.CleanImageIntended | ecommerce/forms.py:83-92 | only a new upload is checked (over 5 MiB, or not typed as an image, is refused); a stored image is kept; it never raises |
| Forms.CleanImageAgreesOnTypedUploads | ecommerce/forms.py:85-91 | on every upload with a detected type, the hook as written and the intended check agree |
| Forms.EditKeepingImageRaises | ecommerce/forms.py:90 | saving a product edit with a stored image and no new upload makes the hook raise, where the intended check keeps the image |
| Forms.CleanRating | ecommerce/forms.py:105-109 | refused exactly when a rating is given and lies outside 0..5 (0 is falsy and passes the hook) |
| Forms.ReviewForm | ecommerce/forms.py:95-109 | accepted exactly when a rating in 1..5 and a non-empty comment are given |
| Forms.CleanPasswordField | ecommerce/forms.py:122-131 | a password passes exactly when it has at least 8 characters; an empty one is "required" |
| Forms.CleanPasswordPair | ecommerce/forms.py:133-141 | the form-wide error appears exactly when both passwords are non-empty and differ |
| Forms.ResetConfirmFormValid | ecommerce/forms.py:120-141 | the form is valid exactly when the passwords are equal and at least 8 characters long |
| Session.ItemCount | ecommerce/context_processors.py:6 | the units in a cart are non-negative, and 0 for an empty cart |
| ContextProcessors.CartCount | ecommerce/context_processors.py:1-7 | 0 for an anonymous user, a non-buyer or a missing or empty cart; for a buyer, the sum of the quantities |
| Views.HomeCartCount | ecommerce/views.py:22-25 | the home page's count equals the context processor's count |
| Views.CheckLine | ecommerce/views.py:429-435 | no error exactly when the product exists, is in stock and has at least the quantity; errors name their product |
| Views.CartTotalAdd | ecommerce/views.py:437-438 | adding a new line adds exactly its price × quantity to the cart total |
| Views.CollectCartLines | ecommerce/views.py:329-351 | keeps exactly the entries whose product exists and is in stock, one line per kept entry, total = Σ price × quantity over them |
| Views.CartLoopAsWritten | ecommerce/views.py:333-349 | visiting every key of the live dictionary once, in any order, the loop fails exactly when some entry has to be deleted; when it succeeds its total is Σ price × quantity over the whole cart |
| Views.StaleEntryBreaksCartPage | ecommerce/views.py:344-349 | a cart holding one entry of a deleted product breaks the page as written, where the intended page drops it |
| Views.ValidateCart | ecommerce/views.py:423-450 | one line per passing entry, one error per failing entry, total over the passing lines; no errors exactly when every line passes |
| Views.ValidateEntry | ecommerce/views.py:428-445 | checking one entry keeps the loop invariant: a passing entry adds its line and its price times quantity to the total, and a failing one adds exactly its missing, out-of-stock or insufficient-stock error |
| Views.ItemsOfLines | ecommerce/views.py:459-466 | one order item per line at the product's price; item totals add up to the line totals |
| Views.PlaceItems | ecommerce/views.py:458-472 | items match the cart at current prices, their total is the checked total, and stock becomes the purchased catalog |
| Views.PurchaseConservesStock | ecommerce/views.py:468-470 | units left in stock plus units bought equal the units there were |
| Views.Shop.AddToCart | ecommerce/views.py:295-316 | a buyer gets exactly one more unit of an in-stock product while the new quantity is within stock; every refusal leaves the cart unchanged |
| Views.Shop.ViewCart | ecommerce/views.py:323-358 | the cart becomes its kept entries; the page lists them with their total |
| Views.Shop.UpdateCart | ecommerce/views.py:362-386 | quantity ≤ 0 removes the entry, above stock changes nothing, otherwise the entry is set to the quantity; no other entry changes |
| Views.Shop.RemoveFromCart | ecommerce/views.py:390-406 | deletes only the given entry; an absent entry or a vanished product leaves the cart unchanged |
| Views.Shop.Checkout | ecommerce/views.py:410-487 | an empty or failing cart changes nothing; otherwise one order with total Σ price × quantity and matching items, stock lowered by each quantity, cart emptied, `invoice_sent` equal to the email outcome |
| Views.Shop.Commit | ecommerce/views.py:453-476 | the new stock, the appended order and the empty cart are written together, keeping the shop's invariants |
| Views.Shop.AddReview | ecommerce/views.py:526-562 | a non-buyer or an unknown product changes nothing; otherwise the table is `get_or_create`'s result (the existing review unchanged, or a new one with verified = has purchased); a GET shows the form, an invalid form reports its error, and a valid one then rewrites only that review with its rating (1..5), comment and verified = has purchased |
| Views.PasswordResetConfirm | ecommerce/views.py:598-626 | unknown token: invalid link; used or expired: expired link; valid token: a GET shows the form, an invalid form is rejected, a valid form resets that token's user's password and marks the token used for good; the table changes only in that last case |

## Left out

- Templates, flash messages, redirects, login and logout are not modelled. Each handler returns a `Response` value naming its outcome.
- `login_required` is not modelled: every handler takes the signed-in `User`.
- The vendor store and product views (`ecommerce/views.py:99-259`), registration, login, product listing, `product_detail` and `order_detail` are not modelled. They are ORM reads and writes with ownership filters.
- `password_reset_request` (`ecommerce/views.py:565-595`) is not modelled beyond `GenerateToken`. The rest of it is a lookup by email and sending mail.
- `send_mail` and `send_invoice_email` are not modelled. The invoice outcome is the `emailSent` parameter of `Checkout`.
- Password hashing is not modelled. `PasswordReset` carries the new password as given.
- Models.ResetTokens.GenerateToken: the random token string is a parameter, with its uniqueness among stored tokens as a precondition, instead of `secrets.token_urlsafe`.
- The clock is the `now` parameter.
- Concurrent requests are not modelled. Each handler is one atomic step, so the race between two checkouts on the same stock is out of scope.
- Views.ValidateCart: the iteration order of the session dictionary is not modelled. The loops take the cart's keys in any order, so the order of lines, errors and order items is left open. Their contents are specified.
- Session keys are product ids rather than their string form.
- Views.Shop.UpdateCart: the posted quantity arrives as an integer. A non-numeric value, which makes `int()` raise, is not modelled.
- Field parsing is done before the hooks: decimal and integer parsing, whitespace stripping of text fields, and file decoding. The hooks receive parsed values, and `None` stands for a missing one. Of the field-level checks, the model keeps the stock field's required check and minimum of 0 (`Forms.StockQuantityField`), the review form's required fields and rating choices (`Forms.ReviewForm`), and the password fields' required and minimum-length checks.
- Forms.CleanImage: the image library's format detection is not modelled. Its outcome is the `detectedType` of an upload. Files the library cannot open are refused before the hook and are not modelled.
- Models.ImageUrl: the storage URL is the media prefix followed by the file name. Percent-encoding is not modelled.
- Prices are whole cents rather than two-place `Decimal`s. There is no 10-digit limit.
- Product descriptions, timestamps, the store records and the orders' `created_at` are not modelled. No handler in the model reads them.
- Views.Shop.AddReview: the review row is created without a rating, as if the column allowed it. See the findings below for what the real column does.

## Findings

| source | as written | input that shows it | evidently intended | confidence | as-written member | corrected member |
|---|---|---|---|---|---|---|
| ecommerce/views.py:333-349 | the `cart` view deletes stale entries from the dictionary it is iterating over, so the next step of the iteration raises | a cart `{7: 1}` whose product 7 was deleted or sold out | drop the stale entry and show the remaining lines | not executed; high | Views.CartLoopAsWritten | Views.CollectCartLines |
| ecommerce/forms.py:90 | saving the product edit form without a new upload hands the hook the stored file, which has no `content_type`, so the hook raises instead of keeping the image | editing a product that has a 1 KiB image and changing only its name | keep the stored image and check only new uploads | not executed; medium | Forms.CleanImage | Forms.CleanImageIntended |
| ecommerce/views.py:541-545 | `get_or_create` with only `is_verified` as default inserts a review without a rating, but `rating` (ecommerce/models.py:104) is a NOT NULL column | a buyer with no review of the product opens the review page | create the buyer's first review and save the posted rating and comment | not executed; high | Models.GetOrCreateReviewAsWritten | Models.GetOrCreateReview |
