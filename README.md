# STech cart workflow and pre-checkout stock check

This project models the shopping-cart API of the STech storefront and the check it runs before checkout, and proves properties of both.

The cart has two stores. The store is chosen by who is calling:

- A guest's cart is a list of `{productId, quantity}` lines kept in a cookie. A line may have no product id.
- A signed-in user's cart is that user's rows in the cart table. If the caller has no `"Id"` claim, the request is a BadRequest.

Both stores are kept in one map, `CartController.carts`, keyed by `Owner` (`Cookie` or `UserRows(userId)`). Each mutating method reassigns the entry for one key only.

The controller's five operations are methods of the class `CartApi.CartController`:

- **GetCartCount** returns the number of lines.
- **GetUserCart** lists the lines. For a guest it skips lines with no id and lines whose product does not resolve.
- **AddToCart** adds a line of quantity 1, or raises the existing line by one. The quantity never goes above the product's warehouse stock.
- **UpdateQuantity** takes the resolved quantity, drops the line when the product is sold out, and otherwise caps the quantity at stock. It returns the new quantity, the cart total and the line's own subtotal.
- **Delete** removes the line.

The rules behind these methods are pure functions in `CartLines`. The lemmas in that module state the promised properties:

- at most one line per product;
- repeated adds saturate at stock;
- the cap is applied;
- removal keeps the other lines, in order;
- totals are additive.

That the "only N left" message appears exactly when the cap applies is part of the contract of `CartApi.CartController.UpdateQuantity`.

`OrderApi.CheckQuantity` is the pre-checkout check. It only reads. In cart mode it folds over the user's lines and collects at most one note per line. A line short of stock gets an "only N left" note. A line whose stock is zero and whose quantity is at most zero gets a "sold out" note.

The response envelope is `ApiResponses.ApiResponse`, with fields `(status, statusCode, message, data)`. A message is reduced to its kind, the product it names (given by product id) and the number it embeds.

The two stores behave differently in ways the code shows. The model keeps each difference:

- The guest cart total uses the list price (`CartController.cs:283`). The signed-in total prefers the sale price (`CartController.cs:238-242`). The line's own subtotal prefers the sale price in both branches (`CartController.cs:195`).
- When a product is sold out, the guest branch removes its line from the in-memory list but returns before saving the cookie (`CartController.cs:256-264`). The stored guest cart is therefore unchanged. The signed-in branch does delete the row.
- The guest add caps with `>=` and the signed-in add caps with `>`. Both give `min(old + 1, stock)`. `AddToCart` writes each branch's own comparison, and one postcondition covers both.

The model keeps three behaviours of the code that a reader might not expect:

- Add of a sold-out product is a BadRequest, not a status-false reply.
- The guest total uses list prices, not sale-preferred prices.
- Quantities are not forced positive, so a resolver may return zero or a negative number.

## Model

| member | source | states |
|---|---|---|
| Catalog.SumNonNegative | STech/ApiControllers/OrderController.cs:53 | a product's stock summed over warehouses is never negative when no warehouse quantity is |
| Catalog.TotalQty | STech/ApiControllers/CartController.cs:137 | a product that does not resolve has total stock 0; the total is never negative while no warehouse quantity is |
| Catalog.CheckOutOfStock | STech/ApiControllers/CartController.cs:107 | an unknown product is out of stock, and a product that is not out of stock resolves and holds at least one unit |
| CartLines.FirstIndexOf | STech/ApiControllers/CartController.cs:155 | the line found for a product is the first line with that id; none is found exactly when the cart has no line for it |
| CartLines.FirstIndexOfIs | STech/ApiControllers/CartController.cs:155 | a line for the product with no such line before it is the one the lookup finds |
| CartLines.FirstIndexOfUnique | STech/ApiControllers/CartController.cs:121 | with one line per product, the line found is that product's only line |
| CartLines.AddOneTo | STech/ApiControllers/CartController.cs:137-142 | the raised quantity is at most stock and at most old + 1, and equals one of the two |
| CartLines.AddOne | STech/ApiControllers/CartController.cs:121-173 | after an add the cart holds a line for the product; it grows by one line exactly when it had none, and every line of another product keeps its place and value |
| CartLines.AddOneAppendsNewLine | STech/ApiControllers/CartController.cs:155-164 | adding a product the cart lacks appends exactly the line {id, 1} |
| CartLines.AddOneRaisesExistingLine | STech/ApiControllers/CartController.cs:165-173 | adding a product the cart holds sets its first line to min(old + 1, stock), leaves every other line as it was, and that line stays the first for the product, even in a cookie that holds duplicates |
| CartLines.AddOneKeepsUnique | STech/ApiControllers/CartController.cs:121-173 | adding keeps at most one line per product |
| CartLines.RepeatedAddSaturates | STech/ApiControllers/CartController.cs:167-173 | k adds to a product's first line give min(old + k, stock) on that line; the other lines do not change, that line stays the first, and one line per product is kept when it held before; duplicates in the cookie are allowed |
| CartLines.AddsFromEmptyCart | STech/ApiControllers/CartController.cs:152-173 | from an empty cart, k adds of a product in stock give the single line {id, min(k, stock)} |
| CartLines.ClampToStock | STech/ApiControllers/CartController.cs:266-272 | the capped quantity is at most stock, equals the resolved quantity exactly when that is within stock, and is the stock otherwise |
| CartLines.SetQuantityKeepsUnique | STech/ApiControllers/CartController.cs:227-235 | changing a line's quantity keeps one line per product |
| CartLines.RemoveLineForProduct | STech/ApiControllers/CartController.cs:335 | removing a product's line leaves one line fewer, no line for that product, every other line, and one line per product |
| CartLines.RemoveAtKeepsUnique | STech/ApiControllers/CartController.cs:219 | deleting a row keeps one line per product |
| CartLines.ResolvedLines | STech/ApiControllers/CartController.cs:74-94 | the guest listing holds exactly the cookie lines whose id is present and resolves, and is no longer than the cookie |
| CartLines.ResolvedLinesAppend | STech/ApiControllers/CartController.cs:76-94 | the listing distributes over concatenation, so it keeps cookie order |
| CartLines.WithoutNullIds | STech/ApiControllers/CartController.cs:274-280 | the saved cookie holds exactly the lines that carry a product id |
| CartLines.WithoutNullIdsAppend | STech/ApiControllers/CartController.cs:274-280 | dropping id-less lines distributes over concatenation, so order is kept |
| CartLines.WithoutNullIdsKeepsUnique | STech/ApiControllers/CartController.cs:274-288 | dropping id-less lines keeps one line per product |
| CartLines.Total | STech/ApiControllers/CartController.cs:238-242 | the cart total is never negative while no line's amount is, and is 0 for a cart whose lines all lack a product id |
| CartLines.TotalAppend | STech/ApiControllers/CartController.cs:238-242 | the cart total of two parts is the sum of their totals |
| CartLines.TotalAfterSetQuantity | STech/ApiControllers/CartController.cs:227-242 | changing one line's quantity changes the total by exactly that line's change in amount |
| CartLines.TotalIgnoresNullLines | STech/ApiControllers/CartController.cs:274-284 | lines without a product id add nothing to the total |
| CartLines.GuestTotalAsWritten | STech/ApiControllers/CartController.cs:274-284 | the guest total loop as written yields a total exactly when every line has a product id that resolves; otherwise it throws |
| CartLines.TotalOfResolvedLines | STech/ApiControllers/CartController.cs:282-283 | under list prices, the cookie total equals the total of the guest listing, so lines whose product does not resolve add nothing |
| CartLines.GuestTotalAsWrittenCompletes | STech/ApiControllers/CartController.cs:274-284 | when the guest total loop as written finishes, its total is the list-price total |
| CartLines.GuestTotalAsWrittenKeepsCookie | STech/ApiControllers/CartController.cs:274-288 | when the guest total loop as written finishes, dropping id-less lines changes nothing, so the corrected update saves the same cookie |
| CartLines.NullCookieLineAbortsGuestTotal | STech/ApiControllers/CartController.cs:276-280 | a cookie [{null, 1}, {p, 2}] makes the loop as written throw, while the list-price total is 200 |
| CartLines.DeletedProductAbortsGuestTotal | STech/ApiControllers/CartController.cs:282-283 | a cookie line for a deleted product makes the loop as written throw, while the list-price total skips it |
| CartApi.GuestTotalPrice | STech/ApiControllers/CartController.cs:274-287 | the guest total is the list-price total of the cookie; the kept lines are those with a product id, and they have the same total |
| CartApi.CartController.constructor | STech/ApiControllers/CartController.cs:18-22 | the controller starts with the product snapshot and the stored carts it is given |
| CartApi.CartController.GetCartCount | STech/ApiControllers/CartController.cs:25-51 | BadRequest without an "Id" claim; otherwise status true with the number of lines, including id-less cookie lines |
| CartApi.CartController.GetUserCart | STech/ApiControllers/CartController.cs:55-101 | a signed-in user gets their rows unchanged; a guest gets exactly the cookie lines whose product resolves, in order; BadRequest without an "Id" claim |
| CartApi.CartController.AddToCart | STech/ApiControllers/CartController.cs:105-181 | a null id, an out-of-stock product or a missing claim gives BadRequest and changes nothing; otherwise status true and the caller's cart becomes AddOne of it; no other cart changes; one line per product is kept |
| CartApi.CartController.UpdateQuantity | STech/ApiControllers/CartController.cs:186-297 | BadRequest and no change without an id, a claim or a line. When sold out: status false with a sold-out message, and the line is deleted for a signed-in user but the cookie is not saved. Otherwise the quantity is capped at stock, the "only N left" message appears exactly when the cap applied, the total and subtotal are as described above (the subtotal is the quantity times the sale price when there is one, else the list price, as at lines 193-195), and only the caller's cart changes |
| CartApi.CartController.Delete | STech/ApiControllers/CartController.cs:300-343 | BadRequest and no change without an id, a claim or a line; otherwise status true and exactly that line is removed from the caller's cart |
| OrderApi.NoteFor | STech/ApiControllers/OrderController.cs:53-62 | a line gets "only N left", with N its stock, exactly when stock is below its quantity; it gets "sold out" exactly when stock is 0 and the quantity is at most 0 |
| OrderApi.StockNotes | STech/ApiControllers/OrderController.cs:49-63 | a cart gets at most one note per line, and every note is "only N left" or "sold out" |
| OrderApi.StockNotesAppend | STech/ApiControllers/OrderController.cs:49-63 | the notes of a cart are the notes of its parts, in line order |
| OrderApi.StockNotesEmptyIff | STech/ApiControllers/OrderController.cs:49-71 | no note is produced exactly when every line's stock covers its quantity and is not zero |
| OrderApi.ShortLinesAreFlagged | STech/ApiControllers/OrderController.cs:53-58 | every line short of stock gets an "only N left" note naming its product and stock, and every such note comes from a line short of stock |
| OrderApi.CheckQuantity | STech/ApiControllers/OrderController.cs:25-72 | single-product mode: status false with a sold-out note exactly when summed stock ≤ 0 (an unknown product has 0). Cart mode: BadRequest without an "Id" claim; otherwise the reply carries the cart's notes, with status true exactly when there are none |

## Findings

| source | as written | input that shows it | evidently intended | confidence | as-written member | corrected member |
|---|---|---|---|---|---|---|
| STech/ApiControllers/CartController.cs:274-280 | the guest total loop removes an id-less line from the list it is enumerating. The enumerator's next step then throws, so the update fails and the cookie is not saved | a guest cookie [{null, 1}, {"p", 2}], with an update of "p" while "p" is in stock | drop id-less lines from the cookie and total the rest | not executed; high | CartLines.NullCookieLineAbortsGuestTotal | CartApi.GuestTotalPrice |
| STech/ApiControllers/CartController.cs:282-283 | the product lookup may return null for a deleted product, and its price is read without a check | a guest cookie [{"p", 2}, {"gone", 1}] where "gone" is no longer in the catalogue, with an update of "p" while "p" is in stock | skip lines whose product does not resolve, as the guest listing does | not executed; medium | CartLines.DeletedProductAbortsGuestTotal | CartApi.GuestTotalPrice |

`CartLines.GuestTotalAsWritten` models the loop as written, and its contract says exactly when it throws. `CartApi.CartController.UpdateQuantity` uses the corrected loop, `CartApi.GuestTotalPrice`. Whenever the loop as written finishes, the corrected loop gives the same total (`CartLines.GuestTotalAsWrittenCompletes`) and saves the same cookie (`CartLines.GuestTotalAsWrittenKeepsCookie`). For every cookie, the corrected total equals the total of the guest listing (`CartLines.TotalOfResolvedLines`). So skipping a line whose product does not resolve is what the guest listing does.

Because of the first finding, UpdateQuantity as written never saves a guest cookie that holds a line with no product id. The corrected loop filters such lines out (`CartLines.WithoutNullIds`). So in the model, a successful guest update saves the cookie without its id-less lines.

## Left out

- The HTTP layer: routing, `async`/`await`, claims parsing and the `[Authorize]` gate on CheckQuantity. The cart operations reduce them to a `Caller` value (guest, or member with an optional `"Id"` claim). `CheckQuantity` is reached only by a signed-in user, so it takes the optional `"Id"` claim alone.
- Cookie serialization (`CartUtils.GetCartFromCookie`, `SaveCartToCookie`). The cookie is the stored line list under the `Cookie` key.
- `CartUtils.UpdateCartItemQuantity` is not part of this model. UpdateQuantity takes it as a parameter of type `QuantityResolver`, so every property holds whatever it returns.
- The bodies of `ProductService.GetTotalQty` and `ProductService.CheckOutOfStock` are not part of this model. The interface gives only their signatures (`IProductService.cs:15-16`).
- Catalog.TotalQty: the model assumes that `GetTotalQty` sums the product's warehouse quantities and gives 0 for an unknown product. The cart's stock (`CartController.cs:137`, `:194`) is then the same number as the order check's warehouse sum (`OrderController.cs:32`, `:53`).
- Catalog.CheckOutOfStock: the model assumes that `CheckOutOfStock` means "summed warehouse stock ≤ 0".
- CartApi.CartController.AddToCart: the cart service's write result, which is the signed-in branch's Status, is taken as success. The store's SaveChanges count is not modelled.
- CartApi.CartController.Delete: the cart service's write result, which is the signed-in branch's Status, is taken as success. The store's SaveChanges count is not modelled.
- CartApi.CartController.UpdateQuantity: the source ignores the results of its two store writes, `RemoveFromCart` (`CartController.cs:219`) and the cart service's `UpdateQuantity` (`CartController.cs:235`). The model takes both writes as done.
- CartApi.CartController.UpdateQuantity: the signed-in total prices a line whose product does not resolve at 0. The source reads the row's own `Product`, which the cart service loads; that service is not part of this model. If that `Product` is null the sum throws; otherwise the line is priced normally. The model prices the line at 0, so the two agree only when every product in a user's rows resolves in the catalogue.
- C# `int` overflow of `Quantity + 1` is not modelled. Quantities and prices are unbounded integers, and `decimal` prices are integers in the smallest currency unit.
- Message text and product names. A message is its kind, the product id that stands for the name, and the number it embeds.
- Concurrent requests and last-writer-wins on the cart table. Each request runs to completion against a snapshot.
- The rest of the repository: the account and admin-order scripts, the review, order and user services, the categories controller, the data models beyond the shapes used here, and the chatbot intents.
