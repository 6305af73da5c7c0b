# Shop carts, mobile-money payments and media serving — a Dafny model

This project models the core of a small Django shop:

- **Carts.** Covers the cart app's views and the shop app's cart views, which create carts, add, update and delete lines, and merge a guest cart into a user's cart. Also covers the cart serializer's totals.
- **Mobile money, submission.** A user submits a manually verified payment. The cart becomes a pending payment plus a pending order with frozen order lines. The payment is linked to the order, and the cart is emptied.
- **Mobile money, administration.** The `verify`/`reject` transitions of a payment, and the administrator's batch "verify" and "reject" actions.
- **Similar products.** The four products shown beside a product page.
- **Media.** The middleware that serves media files, with a content type chosen from the file extension.

Each entity's tables are a class. `Carts.CartStore` holds every cart with its lines. `Payments.PaymentStore` holds the transactions, orders and mobile-money payments. The views are methods that change these stores. Each method states the new state in terms of pure specification functions, and the lemmas prove what those functions promise:

- quantities add up;
- merging conserves units;
- order lines total the payment amount;
- a batch action run twice changes nothing;
- the content type ignores letter case.

Module layout, one module per source file:

- `Wrappers`: Option.
- `Catalog`: the product record.
- `Requests`: response statuses and integer request fields.
- `CartItems`: a cart's lines and the line-level rules.
- `Carts`: the cart store.
- `CartTotals`: `cart_app/serializers.py`.
- `CartViews`: `cart_app/views.py`.
- `ShopViews`: `shop_app/views.py`.
- `ShopViewsUpdated`: `shop_app/views_updated.py`.
- `CoreViews`: `core/views.py`.
- `Payments`: `core/models.py`.
- `PaymentAdmin`: `core/admin.py`.
- `MobileMoney`: `core/mobile_money_views.py`.
- `Media`: `shopp_it/middleware.py`.

Conventions:

- Money is integer cents.
- A missing or empty request field is `""` or `None`. A response is a `Requests.Status` naming the branch taken: 200, 201, 400, 404 or 500.
- Random codes, the clock and the set of existing media files are parameters.

## Model

| member | source | states |
|---|---|---|
| Catalog.Lookup | cart_app/views.py:195 | the product is found exactly when its id is in the table, and it is that row |
| Requests.QuantityOrOne | cart_app/views.py:191 | an absent quantity reads as 1; a given integer is kept; a `null` or non-integer quantity gives no value (`int` raises) |
| CartItems.FindProduct | cart_app/views.py:52-56 | finds the first line holding the product, or reports that no line holds it |
| CartItems.FindItem | cart_app/views.py:68 | finds the first line with the item id, or reports that no line has it |
| CartItems.QuantityOfAppend | cart_app/serializers.py:30-31 | the quantity of a product in two lists of lines is the sum of the quantities in each |
| CartItems.QuantityOfLine | cart_app/views.py:52-56 | in a cart with one line per product, a product's quantity is the quantity on its line |
| CartItems.Increment | cart_app/views.py:52-60 | the product's quantity grows by exactly `qty` and no other product's changes; a new product gets one new line at the end with `qty` units, and the other lines stay in place |
| CartItems.IncrementKeepsWellFormed | cart_app/views.py:52-60 | the increment rule keeps one line per product and fresh, distinct item ids |
| CartItems.AddPriced | cart_app/views.py:198-211 | the product's quantity grows by `qty`, its line carries the current product price, and the other products are unchanged |
| CartItems.ResetToOne | core/views.py:32-34 | the product's quantity becomes exactly 1 and no other product's changes; the other lines stay in place |
| CartItems.SetQuantity | cart_app/views.py:82-83 | the line's quantity becomes `q` and its id and price are kept; the other lines are unchanged |
| CartItems.RemoveLine | cart_app/views.py:79 | after the line is deleted the product is in no line and has quantity 0; the other products keep their quantities and the remaining lines keep their order |
| CartItems.MergeLines | cart_app/views.py:142-152 | the merge loop as a function: each guest line, in order, goes through the increment rule at the default price; its properties are stated by the MergeLines lemmas below |
| CartItems.MergeLinesWellFormed | cart_app/views.py:142-152 | merging keeps one line per product and fresh, distinct item ids, and the id counter only grows |
| CartItems.MergeLinesQuantity | cart_app/views.py:142-152 | after merging, a product's quantity is its user quantity plus its guest quantity |
| CartItems.MergeLinesKeeps | cart_app/views.py:142-152 | merging drops no user line, and user lines of products the guest cart lacks stay at their place unchanged |
| CartItems.MergeLinesSpec | cart_app/views.py:142-152 | after merging, every product's quantity is the user quantity plus the guest quantity; user lines of products the guest cart lacks are untouched; the lines stay well formed |
| Carts.CartStore.constructor | cart_app/views.py:40 | an empty store satisfies the store invariant |
| Carts.CodeInUse | cart_app/views.py:38 | definition: some cart holds the code (`Cart.objects.filter(cart_code=code).exists()`) |
| Carts.CodeShared | core/views.py:29 | definition: two or more carts hold the code, where `get_or_create(cart_code=…)` raises `MultipleObjectsReturned` |
| Carts.OnlyEmptyCodeShared | core/views.py:29 | with unique codes, only the empty code (a missing `cart_code`) can be held by several carts |
| Carts.OwnedCartUnique | core/mobile_money_views.py:37 | with unique codes, a user owns at most one cart with a given non-empty code, so the lookup by code and user cannot find two |
| Carts.CartStore.FindByCode | cart_app/views.py:46 | finds the cart holding the code, or reports that none does; with unique codes the cart found is the only one |
| Carts.CartStore.FindOpenCartOf | cart_app/views.py:24-28 | finds an unpaid cart of the user, or reports that the user has none |
| Carts.CartStore.FindOwnedByCode | core/mobile_money_views.py:36-41 | finds the user's cart holding the code, or reports that there is none |
| Carts.CartStore.CreateCart | cart_app/views.py:40 | inserts an unpaid, empty cart under a fresh key and changes no other cart |
| Carts.CartStore.SaveItems | cart_app/views.py:59-60 | replaces one cart's lines and keeps the store invariant |
| Carts.CartStore.SetCode | cart_app/views.py:118-120 | gives one cart an unused code and changes nothing else |
| Carts.CartStore.DeleteCart | cart_app/views.py:155 | removes one cart with its lines and changes no other cart |
| CartTotals.TotalQuantity | cart_app/serializers.py:30-31 | an empty cart has total quantity 0; with non-negative quantities the total is non-negative |
| CartTotals.TotalPrice | cart_app/serializers.py:33-34 | an empty cart has total price 0; with non-negative lines the total is non-negative |
| CartTotals.LineTotal | cart_app/serializers.py:10-11 | a line's total is quantity times unit price: 0 when either is 0, non-negative when both are |
| CartTotals.TotalPriceAppend | cart_app/serializers.py:33-34 | the total price of two lists of lines is the sum of their totals |
| CartTotals.AddLineTotal | cart_app/serializers.py:10-11 | adding a line adds its quantity to the total quantity and its line total to the total price |
| CartTotals.TotalsAround | cart_app/serializers.py:30-34 | the totals of lines split around one line are the totals of the parts plus that line's share |
| CartTotals.TotalsReplace | cart_app/serializers.py:30-34 | changing one line changes both totals by exactly that line's difference |
| CartTotals.TotalsRemove | cart_app/serializers.py:30-34 | deleting a line lowers the totals by exactly that line's quantity and line total |
| CartTotals.IncrementTotals | cart_app/views.py:52-60 | the increment rule raises the total quantity by `qty`, and the total price by `qty` times the price of the line that received the units |
| CartTotals.RaiseLineTotals | cart_app/views.py:58-60 | raising one line by `qty` units raises the total quantity by `qty` and the total price by `qty` times that line's price |
| CartTotals.MergeConservesQuantity | cart_app/views.py:142-152 | merging conserves units: the merged total quantity is the user total plus the guest total |
| CartTotals.LineTotals | cart_app/serializers.py:10-11 | one line total per line, each quantity times unit price |
| CartTotals.TotalPriceIsSumOfLineTotals | cart_app/serializers.py:10-11 | the cart's total price is the sum of its reported line totals |
| CartTotals.Serialize | cart_app/serializers.py:17-38 | the code is reported as both `cart_mode` and `cart_code`; the line totals are quantity times price; the total quantity is the sum of the line quantities; the total price is the sum of the line totals |
| CartViews.PickFreshCode | cart_app/views.py:36-39 | returns the first drawn code that no cart holds; every earlier draw was in use |
| CartViews.CreateCart | cart_app/views.py:20-42 | a signed-in user with an open cart gets it and nothing changes; one without gets a new open cart under the drawn code, and the answer is 500 with nothing changed exactly when that code is taken; a guest gets a new empty cart under an unused 11-character code |
| CartViews.UserCart | cart_app/views.py:105-123 | a user who has an open cart gets one of them, never a new one, and a new cart is made only for a user with none; afterwards the user has an open cart with a non-empty code and no other cart changes; the answer is 500, with nothing changed, exactly when the code to be written is taken: `draw1` for a new cart, `draw2` for an open cart without a code; on success a new cart is exactly `Cart(draw1, user, unpaid, no lines)` and a code-less open cart gets exactly `draw2` with nothing else changed |
| CartViews.AddToCart | cart_app/views.py:44-63 | an unknown cart or product is 404, a non-integer quantity 500 and a quantity below 1 is 400, each changing nothing; otherwise the product's quantity grows by the requested quantity and no other product's changes |
| CartViews.PatchQuantity | cart_app/views.py:70-93 | a present, non-null quantity wins and must be an integer; otherwise `increment` and `decrement` give the current quantity plus or minus one, and anything else gives no value |
| CartViews.ApplyQuantity | cart_app/views.py:78-91 | a target of 0 or less deletes the line's product from the cart; a positive target becomes the product's quantity; no other product's quantity changes |
| CartViews.HasLine | cart_app/views.py:67-68 | definition: the cart holding the code has a line with the id (both `get_object_or_404` lookups succeed) |
| CartViews.PatchItem | cart_app/views.py:66-96 | the answer is 404 exactly when the cart with the code has no line with the id; a given quantity sets the line and 0 or less deletes it; otherwise increment or decrement moves it by one, deleting it at 0; a non-integer quantity, or no quantity and no action, is 400 and changes nothing |
| CartViews.DeleteItem | cart_app/views.py:98-103 | the answer is 404, changing nothing, exactly when the cart with the code has no line with the id; otherwise that line is deleted and nothing else changes |
| CartViews.MergedCartsSpec | cart_app/views.py:142-155 | after a merge the guest cart is gone and other carts are untouched; the user cart keeps its code, owner and paid flag; every product's quantity in it is user plus guest, units are conserved, and lines of products the guest lacks stay put |
| CartViews.MergeCart | cart_app/views.py:126-158 | a missing code is 400 and no unowned cart with the code is 404, each changing nothing; otherwise the guest cart is the unowned cart with the code, the user cart is the user's open cart or a new one without a code, and the table ends as the merge of the two (see MergedCartsSpec) |
| CartViews.MergeAndDelete | cart_app/views.py:142-155 | the merged lines replace the user cart's lines and the guest cart is deleted; nothing else changes |
| CartViews.MergeItems | cart_app/views.py:142-152 | the merge loop computes exactly the merged lines and keeps them well formed |
| CartViews.AddItemApi | cart_app/views.py:177-217 | 400 exactly for a missing code or product and 500 exactly for a `null` or non-integer quantity, each changing nothing; the cart is got or created; 404 exactly for an unknown product, after the cart exists; otherwise only that cart changes, its lines becoming AddPriced of the old ones (current price, quantity added) |
| CartViews.CartByCode | cart_app/views.py:194 | the cart holding the code is returned unchanged, or a new unowned empty cart with the code is created when no cart holds it |
| CartViews.SaveAddPriced | cart_app/views.py:198-211 | one cart's lines become AddPriced of its old lines and no other cart changes |
| CartViews.UpdateItemApi | cart_app/views.py:219-247 | 400 exactly for a missing code or item or a quantity below 1, 500 exactly for a `null` or non-integer quantity, 404 exactly when the cart has no such line, each changing nothing; otherwise the named line's quantity becomes exactly the quantity |
| CartViews.DeleteItemApi | cart_app/views.py:249-271 | 400 exactly for a missing code or item; 404 exactly when the cart has no such line, changing nothing; otherwise the named line is deleted |
| ShopViews.SameCategoryExcept | shop_app/views.py:39-41 | exactly the rows of the category other than the viewed product |
| ShopViews.WithoutId | shop_app/views.py:44 | exactly the rows other than the viewed product |
| ShopViews.Prefix | shop_app/views.py:41 | at most `n` elements, the leading ones, and all of them when there are no more than `n` |
| ShopViews.InsertByIdDescending | shop_app/views.py:44 | inserting a row by id into rows with decreasing ids keeps the ids decreasing |
| ShopViews.InsertByIdBelow | shop_app/views.py:44 | inserting a row below a bound into rows below it keeps them all below it |
| ShopViews.InsertByIdWithin | shop_app/views.py:44 | inserting a row of the table keeps every row from the table |
| ShopViews.InsertByIdIds | shop_app/views.py:44 | after inserting, the inserted id and every id already present are present |
| ShopViews.SortById | shop_app/views.py:44 | `order_by('-id')`: strictly decreasing ids, every row from the input, and every input id present |
| ShopViews.TopByIdDesc | shop_app/views.py:44 | at most `n` rows, all from the input, with strictly decreasing ids |
| ShopViews.TopByIdDescKeepsHighest | shop_app/views.py:44 | a row left out has a lower id than every row shown, and rows are left out only when `n` are shown |
| ShopViews.SimilarProducts | shop_app/views.py:38-44 | at most four products, none of them the viewed one |
| ShopViews.SimilarByCategory | shop_app/views.py:38-41 | with a category, the products shown share it and are the first of that category in table order; fewer than four only when there are no others |
| ShopViews.SimilarFallback | shop_app/views.py:42-44 | without a category, the products shown have decreasing ids, and any product not shown has a lower id than every product shown |
| ShopViews.AddToCart | shop_app/views.py:62-79 | an unknown cart or product is 404 and changes nothing; otherwise the product's quantity grows by exactly one and no other product's changes |
| ShopViewsUpdated.AddItem | shop_app/views_updated.py:58-106 | with no cart mode, or an unknown one, a new empty cart is created under a fresh 10-character mode, which is returned; otherwise a missing or unknown product or a `null` or non-integer quantity is 500 and changes nothing, and a valid request raises the product's quantity by the requested quantity |
| ShopViewsUpdated.ProductInCart | shop_app/views_updated.py:114-142 | a missing parameter is 400; an unknown cart answers "not in cart"; an unknown product is 500; otherwise the answer is "in cart" exactly when the cart has a line for the product |
| ShopViewsUpdated.InCartAfterAdd | shop_app/views_updated.py:87-95 | after a product is added to a cart, asking about it answers "in cart" |
| ShopViewsUpdated.NotInCartAfterRemove | shop_app/views_updated.py:126-131 | after a product's line is deleted, asking about it answers "not in cart" |
| CoreViews.AddItem | core/views.py:23-39 | 400 with nothing changed exactly when several carts hold the code (a missing code shared by code-less carts); otherwise the cart is got or created first, so it exists even when the product is missing or unknown (400); on 201 the table is the old one with only that cart's lines replaced by `ResetToOne` at the default price: the product's quantity is exactly 1 and no other line or product changes |
| CoreViews.SaveResetToOne | core/views.py:32-34 | one cart's lines become `ResetToOne` of the old lines and nothing else changes |
| Payments.OrderItemsTotal | core/models.py:70-78 | an order with no lines totals 0; non-negative lines total a non-negative amount |
| Payments.NewPayment | core/models.py:81-103 | a new payment is pending, unlinked, never verified and has no notes |
| Payments.VerifiedRecord | core/models.py:117-124 | the payment becomes verified and is stamped with the time; the admin is recorded only when given; no other field changes |
| Payments.RejectedRecord | core/models.py:131-136 | the payment becomes rejected; the notes are replaced only by a non-empty reason; no other field changes |
| Payments.CompletedOrder | core/models.py:126-129 | the order becomes completed and nothing else about it changes |
| Payments.VerifyAfterReject | core/models.py:117-136 | the transitions do not check the current status: a rejected payment can be verified, and a verified one rejected |
| Payments.PaymentStore.constructor | core/models.py:18-136 | empty tables satisfy the uniqueness and link invariants |
| Payments.TransactionIdUsed | core/mobile_money_views.py:30 | definition: some payment already carries the transaction id |
| Payments.PaymentStore.Verify | core/models.py:117-129 | the payment changes as VerifiedRecord says; its linked order, if any, is completed; nothing else changes |
| Payments.PaymentStore.Reject | core/models.py:131-136 | only the payment changes, as RejectedRecord says |
| Payments.PaymentStore.CreatePayment | core/mobile_money_views.py:53-61 | inserts a new pending payment under a fresh key; the transaction id must be unused |
| Payments.PaymentStore.CreateOrder | core/mobile_money_views.py:64-69 | inserts a new order with no lines under a fresh key |
| Payments.PaymentStore.AddOrderItem | core/mobile_money_views.py:73-78 | appends one line to one order and changes nothing else |
| Payments.PaymentStore.LinkOrder | core/mobile_money_views.py:81-82 | points one payment at an existing order and changes nothing else |
| Payments.PaymentStore.UpdatePayments | core/admin.py:114-117 | a bulk update replaces the payment records and leaves orders and transactions alone |
| PaymentAdmin.PendingSelected | core/admin.py:101 | exactly the selected payments that are pending |
| PaymentAdmin.VerifiedAll | core/admin.py:98-110 | keeps every key, and leaves every payment that is not both selected and pending as it was |
| PaymentAdmin.CompletedAll | core/admin.py:98-110 | keeps every key, changes at most an order's status, and leaves orders not linked to a verified payment as they were |
| PaymentAdmin.RejectedAll | core/admin.py:112-117 | keeps every key, and leaves every payment that is not both selected and pending as it was |
| PaymentAdmin.VerifyStep | core/admin.py:101-103 | verifying one more payment extends the verified set by that payment |
| PaymentAdmin.CompleteStep | core/admin.py:101-103 | verifying one more payment completes its linked order, if any, and nothing else |
| PaymentAdmin.VerifiedAllSpec | core/admin.py:98-110 | every pending selected payment is verified, by the admin, at the time, with its order and notes kept; none of the selection is left pending |
| PaymentAdmin.RejectedAllSpec | core/admin.py:112-124 | every pending selected payment is rejected with the note "Rejected by admin", with its stamp and order kept; none of the selection is left pending |
| PaymentAdmin.VerifyTwiceChangesNothing | core/admin.py:98-110 | running "verify" again on the same selection changes no payment and no order |
| PaymentAdmin.RejectTwiceChangesNothing | core/admin.py:112-124 | running "reject" again on the same selection changes nothing |
| PaymentAdmin.NothingDoneYet | core/admin.py:98-101 | before the batch no payment is verified and no order completed |
| PaymentAdmin.VerifyNext | core/admin.py:102-103 | one loop turn verifies one more payment and completes its order |
| PaymentAdmin.VerifyPayments | core/admin.py:98-110 | the count is the number of pending selected payments; the payments and orders end as VerifiedAll and CompletedAll say |
| PaymentAdmin.RejectPayments | core/admin.py:112-124 | the count is the number of pending selected payments; the payments end as RejectedAll says; orders are not touched |
| MobileMoney.CartCost | core/mobile_money_views.py:50 | an empty cart costs 0; non-negative quantities and prices cost a non-negative amount |
| MobileMoney.MissingField | core/mobile_money_views.py:24 | definition: one of the four submitted fields is missing or empty |
| MobileMoney.Snapshot | core/mobile_money_views.py:73-78 | the order line copies the product's name, image and current price, and the cart line's quantity |
| MobileMoney.Snapshots | core/mobile_money_views.py:72-78 | one order line per cart line, in the same order |
| MobileMoney.SnapshotsTotal | core/mobile_money_views.py:50-78 | the order lines add up to the amount charged for the cart |
| MobileMoney.CopyItems | core/mobile_money_views.py:72-78 | the loop gives the order exactly the snapshots of the cart lines and changes nothing else |
| MobileMoney.OpenRecords | core/mobile_money_views.py:53-69 | creates a pending payment and a pending order, both for the total and neither linked yet |
| MobileMoney.FillAndLink | core/mobile_money_views.py:72-82 | fills the order's lines, then points the payment at the order |
| MobileMoney.PlaceOrder | core/mobile_money_views.py:50-82 | creates a pending payment for the cart's cost, linked to a new pending order whose lines are the cart's snapshots |
| MobileMoney.Submit | core/mobile_money_views.py:12-102 | checks in order: a missing field is 400, a used transaction id is 400, no owned cart is 404, an empty owned cart is 400, each changing nothing; the answer is 200 exactly when all checks pass and every line's product exists; then the payment and order are created and linked, and the cart is emptied |
| MobileMoney.SubmittedOrderTotal | core/mobile_money_views.py:50-78 | a submitted order's total is the sum of its lines, and it has one line per cart line |
| Media.StripPrefix | shopp_it/middleware.py:19-21 | no result exactly when the path does not start with the prefix; otherwise prefix plus result is the path |
| Media.StripPrefixRoundTrip | shopp_it/middleware.py:21 | stripping the prefix from prefix plus rest gives back the rest |
| Media.JoinPath | shopp_it/middleware.py:22 | an absolute relative part replaces the root; otherwise the result ends with the relative part |
| Media.LastIndexOf | shopp_it/middleware.py:41 | the index of the last occurrence of the character, or -1 |
| Media.LastIndexOfIs | shopp_it/middleware.py:41 | an index holding the character with none after it is the last index |
| Media.Extension | shopp_it/middleware.py:41 | empty, or a suffix of the path that starts with a dot and holds no other dot and no slash |
| Media.ExtensionOfName | shopp_it/middleware.py:41 | a last component with a stem holding some non-dot character, a dot and a dot-free suffix has the dot and the suffix as its extension |
| Media.NoExtensionWithoutDot | shopp_it/middleware.py:41 | a last component without a dot has no extension |
| Media.NoExtensionForDotName | shopp_it/middleware.py:41 | a last component with only dots before its last dot (`.bashrc`) has no extension |
| Media.Lower | shopp_it/middleware.py:41 | same length, each character lower-cased |
| Media.ContentType | shopp_it/middleware.py:39-52 | the table's entry for the lower-cased extension, or `application/octet-stream` |
| Media.ProcessRequest | shopp_it/middleware.py:17-37 | a path outside the media prefix passes through; inside it, an existing file at the joined path is served with its content type, otherwise the answer is "not found" |
| Media.LastIndexOfLower | shopp_it/middleware.py:41 | lower-casing moves no slash and no dot |
| Media.StemLower | shopp_it/middleware.py:41 | a run of characters is all dots after lower-casing exactly when it was before |
| Media.LowerSlice | shopp_it/middleware.py:41 | lower-casing commutes with taking a suffix |
| Media.ExtensionOfLower | shopp_it/middleware.py:41 | the extension of the lower-cased path is the lower-cased extension |
| Media.ContentTypeIgnoresCase | shopp_it/middleware.py:41-52 | two paths that differ only in letter case get the same content type |
| Media.OnlyJpegKeys | shopp_it/middleware.py:42-51 | no table entry other than `.jpg` and `.jpeg` maps to `image/jpeg` |
| Media.JpegExactly | shopp_it/middleware.py:43-44 | a file is JPEG exactly when its extension is `.jpg` or `.jpeg`, in any letter case |

## Left out

- Django and DRF plumbing is not modelled. This covers ORM `save` calls, response bodies, generic retrieve views (`CartView`, `CartAPIView.get`, the product list and detail views), the URL tables, and the serializers that only declare fields. The status of a view's response is kept as a `Requests.Status`.
- The cart models are not part of this model. Two assumptions stand in for them:
  - non-empty cart codes are unique (`Carts.UniqueCodes`); creating a cart with a used code gives the 500 branch;
  - a line created without a price gets the `defaultPrice` parameter.
- The cart app's `cart_code` and the shop app's `cart_mode` are treated as one code field. So is the `code` field that the mobile-money lookup uses.
- Random codes (`get_random_string`) and the clock (`timezone.now`) are parameters.
- `Cart.MultipleObjectsReturned` from a lookup by a non-empty code cannot arise, because non-empty codes are unique. Carts without a code can be several (`CartViews.MergeCart` creates the user cart without one); `CoreViews.AddItem` answers 400 for a missing code in that case, as the source does. The cart-app views name carts by a URL or a non-empty request code. At most one open cart per user is not an invariant of the model, though: where `get_or_create(user=…, paid=False)` (cart_app/views.py:24, :112, :139) would raise it for a user with two unpaid carts, `Carts.CartStore.FindOpenCartOf` picks one of them.
- `CartViews.PatchItem` and `CartViews.DeleteItem` state their 404 condition for non-empty codes only. The code comes from a URL segment, which cannot be empty, and several carts may still lack a code.
- Races between concurrent `get_or_create` calls are not modelled.
- Product lookups by slug are modelled as lookups by id.
- Falsy ids (`not product_id` when the id is 0) are not modelled. Ids are natural numbers and a missing id is `None`.
- The extra read-only fields of a cart line are not modelled. These are its `created_at` and the nested product record.
- `PaymentAdmin.VerifyPayments` uses one time stamp for the whole batch. The source reads the clock once per payment.
- `MobileMoney.Submit` models the intended create/link/clear sequence. As written, the view passes fields the models do not have:
  - `payment_method` to `Order`;
  - `product` and `price` to `OrderItem`;
  - a cart lookup by `code`.
  The cart lookup at core/mobile_money_views.py:37 is the first of these to run. It fails before anything is written, so as written every submission that passes the first two checks is answered 500 and changes nothing. The model looks the cart up by its code field, as intended. The other two errors would come after the payment row is saved at :53; they, the 500 they produce and the partial payment row left behind are not modelled.
- `MobileMoney.Submit`: a cart line whose product row is missing is answered 500. The model does not say which catalog error the source would raise there.
- Payment providers (`mtn`, `airtel`) are not checked against the choices list.
- The `Transaction` record is a datatype only. None of the shown code changes it.
- The card and wallet gateway flows (initiate, verify, callback) are not part of this model. Their bodies are not in the source.
- `core/mobile_money_admin.py`, `ADD_TO_MODELS.py` and `ADD_TO_ADMIN.py` repeat the admin actions and the payment model. Only the live `core/admin.py` and `core/models.py` are modelled.
- The admin HTML badges and display helpers are not modelled.
- `shop_app/views_updated.py:43-49` selects similar products exactly as `shop_app/views.py:38-44` does. `ShopViews.SimilarProducts` models both.
- `CoreViews.AddItem` models a missing cart code (`get_or_create(cart_code=None)`) as the code `""`: one code-less cart is reused, none creates one, several answer 400.
- Middleware file I/O is not modelled. This covers `os.path.isfile`, `open`, `FileResponse` and a failure to open. The existing files are a set of paths.
- `Media.Lower` lower-cases ASCII letters only. Python's `str.lower` also folds other scripts. No extension in the table contains such letters.
- `Media.JoinPath` joins two POSIX path parts. It does not normalise `..` or repeated slashes.
- Decimal amounts are integer cents. Two-decimal rounding and the `max_digits` limits are not modelled.
