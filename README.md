# Storefront checkout and admin editing, modelled in Dafny

This project models the core of a Next.js jewellery storefront. It covers:

- **The cart.** The cart context keeps the shopper's lines in React state. It mirrors them to `localStorage` for a signed-out shopper and to the `cart_items` table for a signed-in one. It also computes the item count and the subtotal. Adding a product that is already in the cart takes two different paths: signed in, it goes through `updateQuantity`, which deletes a line whose sum falls below 1; signed out, it raises the line in place and keeps it whatever the sum.
- **The cart page's price summary.** Shipping is free from 100, otherwise 10. Tax is 10 %. The page also has the plus/minus buttons.
- **The checkout page.** It writes an `orders` row and its `order_items` rows, asks the payment initiation route for a gateway session, empties the cart, and sends the browser to the gateway.
- **The payment initiation route.** It builds the SSLCommerz session request, posts it as a form, and classifies the gateway's answer.
- **The gateway's callbacks.** There are three. Success marks a validated order paid; fail and cancel send the shopper back to checkout. Each answers with a 303 redirect to a page under `NEXT_PUBLIC_APP_URL`. When that variable is unset, or has no URL scheme, `NextResponse.redirect` throws and the route answers with a server error.
- **The home-page sections.** The sections query returns the active sections in display order, each with its products in their saved order. The admin replacement writes a section's product list.
- **The admin section form.** It derives a slug from the name, reads the display-order field, sends a save request and shows errors.
- **The admin product selector.** It has a search filter, toggle and remove actions, and up/down moves.
- **The hero carousel.** It keeps a wrapping slide index, moved by swipes.
- **The header search box.** It keeps a keyboard-selection index, runs a debounced search and has a submit target.

Files:

- `wrappers.dfy`, `text.dfy`, `seqs.dfy`, `url.dfy`: helpers with JavaScript semantics. They cover `Option`, `toLowerCase`, `includes`, `trim`, `filter`, sorting by a key, template-literal interpolation and query-string reading.
- `domain.dfy`: products, cart lines, orders and order lines, as in `types/database.types.ts`.
- `cart.dfy`: the list operations as functions, their properties as lemmas, and the `CartStore` class whose methods change the state.
- `pricing.dfy`: the price summary and the quantity buttons.
- `orders.dfy`: the two order tables and settlement.
- `payment_init.dfy`, `payment_callbacks.dfy`: the payment routes.
- `checkout.dfy`: the checkout page's submit handler. It composes the cart, the tables and the initiation route.
- `sections.dfy`, `product_selector.dfy`, `section_form.dfy`: the sections query and the admin editing.
- `carousel.dfy`, `header.dfy`: the two index state machines.

The outside world becomes arguments:

- Supabase, the gateway, `fetch`, `localStorage`, `crypto.randomUUID`, Clerk's identity, environment variables and `encodeURIComponent` are passed in. Each database call takes a `fails` flag or an answer, and ids are passed in fresh.
- An absent value (`undefined`, `null`) is `None`. Interpolating it gives `"undefined"` or `"null"`, as JavaScript does.
- Money is an exact `real`.

## Model

| member | source | states |
|---|---|---|
| Text.ToLower | components/admin/ProductSelector.tsx:18-19 | lower-casing keeps the length and lowers each ASCII capital in place |
| Text.ContainsIsOccurrence | components/admin/ProductSelector.tsx:18-19 | `includes` holds exactly when the needle occurs at some position |
| Text.Trim | components/layout/Header.tsx:30 | the trimmed query is the slice of the query between an all-whitespace prefix and an all-whitespace suffix; it is empty exactly when the query is all whitespace, and otherwise has no whitespace at either end |
| Seqs.Filter | context/CartContext.tsx:133 | the result keeps only elements of the input that pass the test, and keeps every one of them |
| Seqs.FilterAppend | context/CartContext.tsx:133 | filtering a concatenation is the concatenation of the filtered parts, so relative order is kept |
| Seqs.SortBy | lib/supabase/sections.ts:52 | sorting by display order gives a permutation of the input that is ascending in the key |
| Seqs.SortBySorted | lib/supabase/sections.ts:52 | rows already in ascending display order come back unchanged |
| Url.RedirectTo | app/api/payment/fail/route.ts:8 | `NextResponse.redirect` gives a redirect with the given status exactly when the location, as built, starts with a URL scheme; the location is kept as built |
| Url.SchemeOfBase | app/api/payment/fail/route.ts:8 | a location built as base URL plus `/...` has a scheme exactly when the base URL has one |
| Url.UnsetBaseHasNoScheme | app/api/payment/fail/route.ts:8 | an unset base URL, printed as `undefined`, has no scheme |
| Url.ReadBackUrl | app/api/payment/init/route.ts:23-25 | a URL `base?n1=v1&...` reads back its path and the first value of every parameter |
| Domain.AsDeclared | types/database.types.ts:43 | exactly the `Paid` status has no counterpart in the declared status union |
| Cart.TotalsAppend | context/CartContext.tsx:185-189 | item count and subtotal are additive over concatenated carts |
| Cart.TotalsChangeAt | context/CartContext.tsx:185-189 | changing one line moves the totals by exactly that line's difference |
| Cart.FindByProduct | context/CartContext.tsx:69 | `find` returns the first line of the product, or none when no line has it |
| Cart.AddExistingMerges | context/CartContext.tsx:94-101 | adding a product already in the cart raises that line's quantity, adds no line and leaves the other lines alone |
| Cart.AddNewAppends | context/CartContext.tsx:102-113 | adding a new product appends one line with that product and quantity after the unchanged old lines |
| Cart.AddKeepsUniqueProducts | context/CartContext.tsx:64-120 | signed-in and signed-out adds both keep at most one line per product |
| Cart.AddRaisesTotals | context/CartContext.tsx:92-113 | an add raises the item count by the quantity and the subtotal by the added line value |
| Cart.StoredAddExistingMerges | context/CartContext.tsx:69-72 | signed in, adding a product already in the cart with a sum of at least 1 sets that line to the sum, changes nothing else, and raises the totals by the line's change |
| Cart.StoredAddBelowOneRemoves | context/CartContext.tsx:69-72 | signed in, a sum below 1 deletes exactly that line and lowers the totals by it |
| Cart.AddPathsDivergeBelowOne | context/CartContext.tsx:69-100 | below 1 the signed-out add keeps the line with a quantity below 1 while the signed-in add drops it |
| Cart.SetOnlyThatLine | context/CartContext.tsx:157-159 | with distinct line ids, setting one line's quantity changes that position only |
| Cart.TotalsWithout | context/CartContext.tsx:185-189 | dropping one line lowers the item count and subtotal by that line |
| Cart.LineTotalRaise | context/CartContext.tsx:187 | raising a line's quantity raises its value by unit price times the increase |
| Cart.RemoveDropsLine | context/CartContext.tsx:133 | after removal no line has that id and every other line is still there |
| Cart.RemoveExactlyThatLine | context/CartContext.tsx:133 | with distinct ids, removal deletes exactly that one position |
| Cart.RemoveUnknownIsNoOp | context/CartContext.tsx:133 | removing an unknown id changes nothing |
| Cart.UpdateChangesOnlyThatLine | context/CartContext.tsx:157-159 | a quantity of at least 1 changes the quantity of the lines with that id and nothing else |
| Cart.UpdateKeepsQuantitiesPositive | context/CartContext.tsx:141-165 | updates keep every quantity at least 1, and a quantity below 1 deletes the line |
| Cart.UpdateMovesTotals | context/CartContext.tsx:141-165 | an update moves the item count and subtotal by that line's change |
| Cart.DbWithoutUser | context/CartContext.tsx:169-174 | clearing deletes exactly the rows of that user |
| Cart.CartStore.constructor | context/CartContext.tsx:22-23 | the provider starts with no items and loading |
| Cart.CartStore.LoadCart | context/CartContext.tsx:34-62 | signed in: the user's rows, or unchanged on error; signed out: the stored list or empty; loading ends |
| Cart.CartStore.RemoveFromCart | context/CartContext.tsx:122-139 | on success the line is filtered out, stored locally, and deleted from the table when signed in; a failed delete changes nothing |
| Cart.CartStore.UpdateQuantity | context/CartContext.tsx:141-165 | on success the list is `UpdateLines` and the table row follows; a failed update changes nothing |
| Cart.CartStore.AddToCart | context/CartContext.tsx:64-120 | each of the four add paths as its list function, with the alert exactly when a signed-in insert fails |
| Cart.CartStore.ClearCart | context/CartContext.tsx:167-183 | on success the cart is empty, the stored copy gone and the user's rows deleted; on failure nothing changes |
| Pricing.Shipping | app/cart/page.tsx:122 | shipping is free exactly from 100 and otherwise 10 |
| Pricing.Tax | app/cart/page.tsx:126 | tax is a tenth of the subtotal |
| Pricing.OrderTotal | app/checkout/page.tsx:40-42 | the total is 1.1 times the subtotal, plus 10 under 100, and never below a non-negative subtotal |
| Pricing.SummaryTotal | app/cart/page.tsx:132 | the cart page's total equals the checkout's order total |
| Pricing.ShippingLabel | app/cart/page.tsx:122 | the label reads FREE exactly when shipping is 0, else $10.00 |
| Pricing.ShowsFreeShippingBanner | app/cart/page.tsx:138 | the banner shows exactly when shipping is free |
| Pricing.ShowsEmptyState | app/cart/page.tsx:14 | the empty state shows exactly for an empty cart, whose totals are 0 |
| Pricing.StockOrZero | app/cart/page.tsx:80 | the product's stock when product and stock are present, else 0 |
| Pricing.PlusDisabled | app/cart/page.tsx:80 | plus is disabled once the quantity reaches the stock; a missing product or a missing stock counts as stock 0 |
| Pricing.MinusOnSingleRemoves | app/cart/page.tsx:71 | minus on a line of quantity 1 removes exactly that line |
| Pricing.PlusRaisesByOne | app/cart/page.tsx:78 | plus raises that line and the item count by one |
| Pricing.LineTotalsSumToSubtotal | app/cart/page.tsx:89 | the displayed line totals add up to the subtotal |
| Pricing.SmallCartTotal | app/checkout/page.tsx:40-42 | two units at 40 give subtotal 80 and total 98 |
| Pricing.LargeCartTotal | app/checkout/page.tsx:40-42 | two units at 60 give subtotal 120 and total 132 |
| Orders.SetStatus | app/api/payment/success/route.ts:15-21 | the update changes only the status of the row with that id, and no row for a missing id |
| Orders.Settle | app/api/payment/success/route.ts:11-21 | only a validated status changes anything, and then only the named order, which becomes Paid |
| Orders.SettleIdempotent | app/api/payment/success/route.ts:11-21 | a repeated callback changes nothing more |
| Orders.SettleUnknownIsNoOp | app/api/payment/success/route.ts:15-21 | a callback for an unknown order changes no order |
| Orders.SettleOnlyPays | app/api/payment/success/route.ts:11-21 | an order is Paid afterwards exactly when it was before or it is the validated transaction's order |
| Orders.OrderTable.InsertOrder | app/checkout/page.tsx:45-59 | the row is added exactly when the insert succeeds |
| Orders.OrderTable.InsertLines | app/checkout/page.tsx:69-73 | all lines are appended or none |
| Orders.OrderTable.UpdateStatus | app/api/payment/success/route.ts:15-25 | a successful update is `SetStatus`, a failed one changes nothing |
| PaymentInit.AppUrl | app/api/payment/init/route.ts:11 | the configured URL when set and non-empty, else the localhost default; never empty |
| PaymentInit.ApiUrl | app/api/payment/init/route.ts:10-15 | the sandbox endpoint exactly when the flag is the string `true`, otherwise the live one |
| PaymentInit.BuildRequest | app/api/payment/init/route.ts:17-48 | the transaction id is the order id, the amount is passed through, the currency is BDT, and the store credentials come from the environment |
| PaymentInit.ShippingCopiesCustomer | app/api/payment/init/route.ts:31-47 | shipping and customer fields copy the same customer data |
| PaymentInit.CallbacksCarryOrderId | app/api/payment/init/route.ts:22-26 | success, fail and cancel URLs read back their route path and the order id; the IPN URL has no order id |
| PaymentInit.CallbackReadsBack | app/api/payment/init/route.ts:23-25 | a callback URL reads back its path and order id |
| PaymentInit.NoQueryNoParam | app/api/payment/init/route.ts:26 | a URL without a query has no parameters |
| PaymentInit.Entries | app/api/payment/init/route.ts:17-53 | the form has one entry per field, named in the order the request object declares them |
| PaymentInit.FormGet | app/api/payment/init/route.ts:50-53 | reading a form field finds none exactly when no entry has that name |
| PaymentInit.FormCarriesOrder | app/api/payment/init/route.ts:20-22 | the posted form carries the order id as tran_id, the amount, and BDT |
| PaymentInit.EncodeForm | app/api/payment/init/route.ts:50-53 | the posted form is exactly the request's entries, one per field name |
| PaymentInit.AppendAll | app/api/payment/init/route.ts:51-53 | appending the entries one by one gives back every entry, in order |
| PaymentInit.RequestFieldsRead | app/api/payment/init/route.ts:20-22 | the form of any request reads back its transaction id, amount and currency |
| PaymentInit.Classify | app/api/payment/init/route.ts:62-74 | 200 with the gateway URL exactly on SUCCESS; 400 with details on any other reply; 500 when the call throws |
| PaymentInit.Handle | app/api/payment/init/route.ts:3-75 | a form goes to the chosen endpoint exactly when body and customer are present, and the answer is classified; otherwise 500 |
| PaymentCallbacks.RedirectUnder | app/api/payment/fail/route.ts:8 | a redirect under the app URL is a 303 to base plus path, and a server error exactly when the app URL has no scheme |
| PaymentCallbacks.Fail | app/api/payment/fail/route.ts:4-9 | a form yields a 303 back to checkout with payment_failed and the transaction id; a non-form body, or an app URL without a scheme, is a server error |
| PaymentCallbacks.Cancel | app/api/payment/cancel/route.ts:4-9 | as fail, with payment_cancelled |
| PaymentCallbacks.UnsetAppUrlFailsCallbacks | app/api/payment/fail/route.ts:8 | with the app URL unset, fail and cancel answer with a server error for every body |
| PaymentCallbacks.FailCancelReadOnlyTranId | app/api/payment/fail/route.ts:5-8 | the answer depends on the transaction id alone |
| PaymentCallbacks.CheckoutReturnReadsBack | app/api/payment/fail/route.ts:8 | the return URL reads back the checkout path, the reason and the order id |
| PaymentCallbacks.FailAndCancelDifferInReasonOnly | app/api/payment/cancel/route.ts:8 | fail and cancel both redirect or both fail, lead to the same page and order, and differ only in the reason |
| PaymentCallbacks.OrderSuccessReadsBack | app/api/payment/success/route.ts:28 | the confirmation URL reads back its path and the order id |
| PaymentCallbacks.Success | app/api/payment/success/route.ts:4-32 | a validated form settles the order unless the client or update fails; a server error exactly when the app URL has no scheme, whether or not the order was settled; otherwise a 303, to the failure page only when the form is unreadable or the client throws |
| PaymentCallbacks.SettledStatusUndeclared | app/api/payment/success/route.ts:17-18 | the status written is Paid, which the declared union cannot express |
| Checkout.Shopper | app/checkout/page.tsx:33 | a shopper exists exactly when identity is loaded and signed in with a user |
| Checkout.NewOrder | app/checkout/page.tsx:45-57 | the order row is pending, for that user, at that total, with the form's shipping fields |
| Checkout.OrderLines | app/checkout/page.tsx:62-67 | one order line per cart line with its product, quantity and unit price (0 without product) |
| Checkout.OrderLinesMatchSubtotal | app/checkout/page.tsx:62-67 | the order lines are worth exactly the cart's subtotal |
| Checkout.CheckoutPage.constructor | app/checkout/page.tsx:17 | the page starts idle, without alerts or navigation |
| Checkout.CheckoutPage.HandleSubmit | app/checkout/page.tsx:28-108 | sign-in path; order at the checkout total; lines only after the order; payment only after both; cart cleared only after an ok answer, the stored rows dropped unless that delete fails, and left as it was when it does; the browser goes to a non-empty gateway URL, otherwise a failure alert |
| Checkout.CheckoutPage.RedirectIfEmpty | app/checkout/page.tsx:110-114 | an empty cart when not submitting routes to /cart |
| Sections.NumberedItems | lib/supabase/sections.ts:200-206 | one row per id, in list order, the id at position i numbered i |
| Sections.ProductIdsOf | lib/supabase/sections.ts:75 | the product id of every item, in order |
| Sections.NumberedItemsReadBack | lib/supabase/sections.ts:189-212 | reading a section's items back in display order gives the saved id list |
| Sections.SectionItemTable.UpdateSectionProducts | lib/supabase/sections.ts:189-212 | the old rows go unless the delete fails (ignored); new rows are added only for a non-empty list and a successful insert |
| Sections.ReplacementReadsBack | lib/supabase/sections.ts:189-212 | after a successful replacement the section reads back exactly the new list |
| Sections.FindProduct | lib/supabase/sections.ts:92 | `find` returns a product with that id from the list, or none exactly when there is none |
| Sections.InIdOrder | lib/supabase/sections.ts:91-93 | at most one product per id |
| Sections.InIdOrderKeepsListOrder | lib/supabase/sections.ts:91-93 | the products follow the id list, skipping ids without a product, each the first match |
| Sections.InIdOrderComplete | lib/supabase/sections.ts:91-93 | when every id has a product, the result is one for one with the ids |
| Sections.FetchListedOnly | lib/supabase/sections.ts:80-93 | fetching only the listed products gives the same result as searching the whole catalogue |
| Sections.ActiveSections | lib/supabase/sections.ts:47-52 | exactly the active sections, in ascending display order |
| Sections.SectionProducts | lib/supabase/sections.ts:62-96 | no products when the items query or the products query fails, or the section has no items; otherwise only products from the table |
| Sections.ActiveSectionsWithProducts | lib/supabase/sections.ts:43-104 | empty on a client or sections failure; otherwise exactly the active sections in display order, each with its `SectionProducts` |
| Sections.SectionProductsInItemOrder | lib/supabase/sections.ts:62-95 | a section's products follow its items' display order, skipping ids without a product |
| ProductSelector.MatchesIffOccurs | components/admin/ProductSelector.tsx:17-20 | a product matches exactly when the lower-cased query occurs in its lower-cased name or description |
| ProductSelector.EmptyQueryMatchesAll | components/admin/ProductSelector.tsx:17-20 | the empty query keeps the whole catalogue |
| ProductSelector.SelectedAvailablePartition | components/admin/ProductSelector.tsx:22-23 | no product is both selected and available, and every match is one of the two |
| ProductSelector.SelectedKeepsCatalogueOrder | components/admin/ProductSelector.tsx:22 | the selected list follows the catalogue's order |
| ProductSelector.Remove | components/admin/ProductSelector.tsx:33-35 | the id is gone and every other id keeps its membership |
| ProductSelector.RemoveKeepsOrder | components/admin/ProductSelector.tsx:33-35 | removal splits over a concatenation and drops or keeps each single id, so the other ids keep their order |
| ProductSelector.RemoveAbsentIsNoOp | components/admin/ProductSelector.tsx:33-35 | removing an unselected id changes nothing |
| ProductSelector.Toggle | components/admin/ProductSelector.tsx:25-31 | a selected id is removed as by `Remove`, an unselected one is appended |
| ProductSelector.ToggleTwiceRestores | components/admin/ProductSelector.tsx:25-31 | toggling an unselected id twice restores the selection |
| ProductSelector.IndexOf | components/admin/ProductSelector.tsx:38 | the first position of the id, or -1 exactly when it is absent |
| ProductSelector.IndexOfAt | components/admin/ProductSelector.tsx:38 | a position holding the id with no earlier occurrence is the one found |
| ProductSelector.Moved | components/admin/ProductSelector.tsx:37-53 | a move is a permutation of the selection |
| ProductSelector.MoveAtEdgeIsNoOp | components/admin/ProductSelector.tsx:39-44 | a move whose button is disabled changes nothing |
| ProductSelector.MoveSwapsNeighbours | components/admin/ProductSelector.tsx:46-51 | otherwise the id and its neighbour trade places and all other positions stay |
| ProductSelector.UpThenDownRestores | components/admin/ProductSelector.tsx:37-53 | with distinct ids, up then down restores the selection |
| ProductSelector.MoveProduct | components/admin/ProductSelector.tsx:37-53 | the copy-and-swap gives `Moved` |
| ProductSelector.MoveAsWritten | components/admin/ProductSelector.tsx:37-53 | the handler on cells that may be undefined keeps the length |
| ProductSelector.MoveAsWrittenAgrees | components/admin/ProductSelector.tsx:37-53 | for a selected id the handler as written agrees with `Moved` |
| ProductSelector.MoveAbsentDownClobbers | components/admin/ProductSelector.tsx:38-51 | moving an unselected id down overwrites the first cell with undefined |
| ProductSelector.MoveNotShown | components/admin/ProductSelector.tsx:22 | a move that reorders the selection leaves the displayed list unchanged |
| ProductSelector.MovesAreShown | components/admin/ProductSelector.tsx:64 | listed in selection order, the display follows every move |
| SectionForm.Collapse | components/admin/SectionForm.tsx:41 | the replacement yields only `[a-z0-9-]`, never two dashes in a row, and no leading dash after a run |
| SectionForm.CollapseKeepsLettersAndDigits | components/admin/SectionForm.tsx:41 | the letters and digits pass unchanged and in order |
| SectionForm.CollapseFixed | components/admin/SectionForm.tsx:41 | a well-formed slug is its own replacement |
| SectionForm.Slugify | components/admin/SectionForm.tsx:41 | the derived slug has only `[a-z0-9-]`, no dash at either end and no double dash |
| SectionForm.SlugifyKeepsLettersAndDigits | components/admin/SectionForm.tsx:41 | the slug keeps exactly the lower-cased name's letters and digits, in order |
| SectionForm.SlugifyEmptyIff | components/admin/SectionForm.tsx:41 | the slug is empty exactly when the name has no letter or digit |
| SectionForm.SlugifyFixed | components/admin/SectionForm.tsx:41 | a well-formed slug derives to itself |
| SectionForm.SlugifyIdempotent | components/admin/SectionForm.tsx:41 | deriving twice equals deriving once |
| SectionForm.DisplayOrderInput | components/admin/SectionForm.tsx:155 | unparsable input reads as 0, any number as itself |
| SectionForm.SaveTarget | components/admin/SectionForm.tsx:53-57 | PUT exactly when there is a non-empty section id, otherwise POST to the collection |
| SectionForm.SaveTargetNamesSection | components/admin/SectionForm.tsx:54 | the update URL's last path segment is the section id |
| SectionForm.FailureMessage | components/admin/SectionForm.tsx:74-83 | the shown error is message, else error, else the default, and never empty |
| SectionForm.Editor.constructor | components/admin/SectionForm.tsx:26-35 | fields from the section with empty defaults; a new section is active |
| SectionForm.Editor.NameChange | components/admin/SectionForm.tsx:37-43 | the slug follows the name only while it is empty |
| SectionForm.Editor.DisplayOrderChange | components/admin/SectionForm.tsx:155 | the field takes the parsed number or 0 |
| SectionForm.Editor.ToggleProduct | components/admin/SectionForm.tsx:180-184 | the selector's toggle reaches the form's selection |
| SectionForm.Editor.RemoveProduct | components/admin/SectionForm.tsx:180-184 | the selector's remove reaches the form's selection |
| SectionForm.Editor.MoveProduct | components/admin/SectionForm.tsx:180-184 | the selector's move reaches the form's selection as a permutation |
| SectionForm.Editor.Submit | components/admin/SectionForm.tsx:45-85 | the request carries the chosen method, URL and all fields; success leaves for the list still submitting; failure shows `FailureMessage` and re-enables |
| Carousel.JsRem | components/home/HeroCarousel.tsx:38 | JavaScript's remainder agrees with the mathematical one on non-negative operands |
| Carousel.NextIndex | components/home/HeroCarousel.tsx:37-39 | next stays in range and wraps from the last slide to the first |
| Carousel.PrevIndex | components/home/HeroCarousel.tsx:41-43 | previous stays in range and wraps from the first slide to the last |
| Carousel.NextPrevInverse | components/home/HeroCarousel.tsx:37-43 | next and previous undo each other |
| Carousel.Advance | components/home/HeroCarousel.tsx:30-32 | any number of auto-advances stays in range |
| Carousel.AdvanceWithinRound | components/home/HeroCarousel.tsx:37-39 | short of the last slide, k steps go k slides further |
| Carousel.AdvanceAdd | components/home/HeroCarousel.tsx:37-39 | steps compose additively |
| Carousel.FullRoundReturns | components/home/HeroCarousel.tsx:37-39 | n steps return to the start |
| Carousel.AdvancePeriodic | components/home/HeroCarousel.tsx:37-39 | the slide after k steps depends on k modulo n |
| Carousel.SwipeTarget | components/home/HeroCarousel.tsx:66-71 | past +50 goes back, past -50 goes forward, otherwise stays |
| Carousel.SwipeBackReturns | components/home/HeroCarousel.tsx:93-99 | a swipe followed by the opposite swipe returns to the start |
| Carousel.Carousel.constructor | components/home/HeroCarousel.tsx:19-23 | first slide, not dragging, no offset |
| Carousel.Carousel.Next | components/home/HeroCarousel.tsx:37-39 | the index becomes `NextIndex` |
| Carousel.Carousel.Prev | components/home/HeroCarousel.tsx:41-43 | the index becomes `PrevIndex` |
| Carousel.Carousel.GoToSlide | components/home/HeroCarousel.tsx:45-47 | the index becomes exactly the dot's index |
| Carousel.Carousel.Tick | components/home/HeroCarousel.tsx:27-35 | with interval 0 nothing advances, otherwise the index advances |
| Carousel.Carousel.MouseDown | components/home/HeroCarousel.tsx:50-53 | a drag starts at the cursor |
| Carousel.Carousel.MouseMove | components/home/HeroCarousel.tsx:55-60 | the offset follows the cursor only while dragging |
| Carousel.Carousel.Release | components/home/HeroCarousel.tsx:93-102 | the slide follows the swipe rule and the offset resets to 0 |
| Carousel.Carousel.MouseUp | components/home/HeroCarousel.tsx:62-74 | without a drag nothing changes; with one, swipe rule and reset |
| Carousel.Carousel.MouseLeave | components/home/HeroCarousel.tsx:76-80 | leaving ends a drag exactly like a release |
| Carousel.Carousel.TouchStart | components/home/HeroCarousel.tsx:83-85 | a touch sets the start position |
| Carousel.Carousel.TouchMove | components/home/HeroCarousel.tsx:87-91 | the offset follows the finger |
| Carousel.Carousel.TouchEnd | components/home/HeroCarousel.tsx:93-102 | swipe rule and reset |
| Header.ArrowStep | components/layout/Header.tsx:86-91 | down moves one on but not past the last result, up moves one back and below the first to -1; [-1, len-1] is kept |
| Header.PressesStayInRange | components/layout/Header.tsx:83-91 | from [-1, len-1] any key sequence keeps the index there |
| Header.DownPresses | components/layout/Header.tsx:88 | k downs move k further, capped at the last result |
| Header.UpPresses | components/layout/Header.tsx:91 | k ups move k back, floored at -1 |
| Header.EnterAsWritten | components/layout/Header.tsx:92-94 | Enter ignores -1, visits the highlighted product, and throws past the end of the list |
| Header.DebounceAsWritten | components/layout/Header.tsx:28-39 | the debounced search replaces the results (at most six, or none when blank or failed) and keeps the highlighted index |
| Header.StaleIndexCrashes | components/layout/Header.tsx:28-94 | six downs over six results give index 5; a search that finds one product keeps it, and Enter throws |
| Header.EnterWithinListNavigates | components/layout/Header.tsx:92-94 | with the index inside the list Enter always visits a product |
| Header.Limit | components/layout/Header.tsx:60 | at most the first six rows |
| Header.SearchTarget | components/layout/Header.tsx:73-81 | a blank query goes to /products |
| Header.SearchTargetReadsBack | components/layout/Header.tsx:76 | a non-blank query's target reads back /products and the encoded trimmed query |
| Header.SearchUrlReadsBack | components/layout/Header.tsx:76 | a search URL reads back /products and its search value |
| Header.SearchBox.constructor | components/layout/Header.tsx:17-21 | empty query and results, hidden dropdown, index -1 |
| Header.SearchBox.QueryChange | components/layout/Header.tsx:138 | typing sets the query |
| Header.SearchBox.DebounceFire | components/layout/Header.tsx:28-39 | blank query: results cleared and dropdown hidden; otherwise at most six results shown, or cleared on error; the results are as written, the index reset |
| Header.SearchBox.Focus | components/layout/Header.tsx:140 | focus opens the dropdown exactly for a non-blank query |
| Header.SearchBox.ClickOutside | components/layout/Header.tsx:43-47 | an outside press, like a click on a result card, hides the dropdown |
| Header.SearchBox.SubmitSearch | components/layout/Header.tsx:73-81 | routes to `SearchTarget` and hides the dropdown for a non-blank query |
| Header.SearchBox.KeyDown | components/layout/Header.tsx:83-100 | keys ignored while hidden or empty; arrows by `ArrowStep`; Enter visits the product, hides and clears; Escape only hides |

## Left out

- Network, database and gateway behaviour are arguments: a `fails` flag, an answer, or rows. This covers Supabase filters such as `ilike` in the header search and `.in` in the sections query, Clerk's identity, `fetch` reaching the initiation route, and the JSON (de)serialisation of `localStorage`. The model does not cover how those services behave.
- Concurrency and timing are not modelled: React's asynchronous state updates and stale closures, the 300 ms debounce, the auto-play interval's length, and `Promise.all` over sections. Each handler runs to completion on the state it reads.
- Money is exact: `toFixed(2)` rendering, floating-point rounding of `totalPrice * 0.1`, and the string form of the amount in the gateway form are not modelled.
- Text is Unicode-blind. `toLowerCase` is modelled on ASCII letters only, and `trim`'s whitespace set is JavaScript's common whitespace characters.
- `encodeURIComponent` and form decoding are not modelled. The read-back lemmas require values free of `&`, `#`, `+` and `%`, and compare the raw query text.
- Timestamps (`created_at`), `console` logging, images and layout are left out.
- A malformed `localStorage` entry (a `JSON.parse` failure in `loadCart`) is not modelled.
- Cart.CartStore.LoadCart: the rows it sets come from the table filtered by user. The model takes them as an argument constrained to the table's rows for the user, without their order.
- Carousel.Carousel.GoToSlide: it accepts only an index of an existing slide, as the dot buttons pass; other numbers are never passed.
- Cursor and touch positions are whole pixels.
- Header.SearchBox.DebounceFire: it resets the highlighted index when results arrive. The code does not do this (see Findings); `Header.DebounceAsWritten` and `Header.EnterAsWritten` model what the code does.
- `handleProductClick` (components/layout/Header.tsx:102-106) is defined but no element calls it. A click on a result card runs only its own handler, which hides the dropdown (line 178); `Header.SearchBox.ClickOutside` models that.
- Url.RedirectTo: URL parsing is reduced to its scheme check, in both directions. First, `NextResponse.redirect` also rejects some strings that have a scheme, such as `http://` with no host; the model lets those through. Second, the parser strips leading and trailing C0 controls and spaces and removes tabs and newlines before it looks for the scheme, so a base such as ` https://shop.example` redirects in the code but is a server error in the model.
- Url.RedirectTo: the redirect's location is the string as built. The code sends the parser's serialization of it, with the scheme and host lower-cased and characters such as spaces percent-encoded.
- Header.SearchBox.KeyDown: it does not model the browser's form submission, which follows an Enter that the handler does not cancel.
- Checkout.CheckoutPage.HandleSubmit: an empty cart is not rejected, because the code has no such check. The page's effect routes an empty cart back to `/cart` (`RedirectIfEmpty`).
- Authentication of admin routes, the product form, the other admin pages and the order-success page are outside this model.

## Findings

| source | as written | input that shows it | evidently intended | confidence | as-written member | corrected member |
|---|---|---|---|---|---|---|
| app/api/payment/success/route.ts:17-18 | a validated payment sets status `paid`, which the order status union at types/database.types.ts:43 does not contain | any order and status `VALID` | `paid` is one of the order statuses | high (not executed) | PaymentCallbacks.SettledStatusUndeclared | Orders.SettleOnlyPays |
| components/layout/Header.tsx:88-94 | the highlighted index is not reset when new results arrive, so Enter can read past the end of a shorter list and throw | six results, six ArrowDown presses (index 5), a new search with one result, then Enter | the index goes back to -1 with every new result list | medium (not executed) | Header.StaleIndexCrashes | Header.SearchBox.DebounceFire |
| components/admin/ProductSelector.tsx:22 | the selected list is shown in catalogue order, so the up and down buttons reorder the saved selection without any visible change | products a, b selected as [a, b]; moving b up gives [b, a], shown as a, b | the selected list is shown in selection order | medium (not executed) | ProductSelector.MoveNotShown | ProductSelector.MovesAreShown |
| components/admin/ProductSelector.tsx:38-51 | for an id that is not selected, the index -1 passes the edge guard and the swap writes undefined into a cell (the page's own buttons only pass selected ids) | selection [a], move z down: the result is [undefined] | an unselected id leaves the selection unchanged | low (not executed) | ProductSelector.MoveAbsentDownClobbers | ProductSelector.MoveProduct |
