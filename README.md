# Marketplace product core in Dafny

This project models the product side of a small TypeScript marketplace and proves properties of the model. The backend is an Express API backed by Prisma, Cognito and S3. The frontend is a React shop with a cart, a product page and seller pages.

Backend, as modelled:

- `ProductRoutes` (`routes.dfy`): the `/products` router. It holds the ten routes in registration order, with express's first-match dispatch and `:param` capture. Each route has its middleware chain. The express-validator rules are modelled as a check over a request body.
- `Auth` (`auth.dfy`): the bearer-token middleware, the admin gate and the seller gate.
- `ValidateRequest` (`validate_request.dfy`): folds validation errors into an error map and builds the `400` message.
- `ErrorHandler` (`error_handler.dfy`): maps each kind of error to a response.
- `ProductController` (`product_controller.dfy`):
  - the listing, featured, seller and category queries, with their filters and pagination
  - fetching a product by id
  - create, update, soft delete, attributes and tags, on a `ProductStore` class whose `rows` field plays the product table
- `S3` (`s3.dfy`): upload keys, object URLs and key extraction.

Frontend, as modelled:

- `Cart` (`cart.dfy`): the cart context, as a `CartStore` class over its list of items, and the pure list operations that specify it.
- `CartPage` (`cart_page.dfy`): the cart page's summary and its per-line buttons.
- `ProductDetail` (`product_detail.dfy`): the product page's quantity select and its add-to-cart button.
- `SellerOrders` (`seller_orders.dfy`): the seller orders page with its status tabs and status select.
- `SellerProducts` (`seller_products.dfy`): the seller products page with its add form and delete.
- `RouteGuard` (`route_guard.dfy`): the protected-route component.

`Wrappers`, `Strings` and `Seqs` hold shared helpers:

- Option and Result types.
- JavaScript's `split`, `join`, `parseInt` and truthiness on strings.
- An order-preserving filter and map.

Money is integer cents. Strings are `seq<char>`.

Behaviours of the source that the proofs make explicit:

- A soft-deleted product keeps its row with status `DELETED`. `getProductById` still returns it. The listing, featured, seller and category queries no longer do (`ProductController.SoftDelete`).
- `updateProduct` writes the request body as it comes. An owner can therefore change a product's `status` or its `sellerId` (`ProductController.UpdateWritesAnyField`).
- An admin passes the seller gate even without a seller profile. The controller's ownership check then refuses every mutation of an existing product with `403` (`Auth.AdminIsSeller`, `ProductController.NoProfileNoAccess`).
- The seller listing is the only listing that shows active products with no stock (`ProductController.OutOfStockOnlyOnSellerListing`).
- `GET /products/featured` reaches `getFeaturedProducts` because it is registered before `/:id` (`ProductRoutes.FeaturedBeforeId`).

## Model

| member | source | states |
|---|---|---|
| Strings.Split | backend/src/middlewares/authMiddleware.ts:32 | splitting yields at least one piece and no piece contains the separator |
| Strings.JoinSplit | backend/src/middlewares/authMiddleware.ts:32 | joining the pieces of a split with the separator gives back the original string |
| Strings.SplitAtFirst | backend/src/middlewares/authMiddleware.ts:32 | the first piece is everything before the first separator; the rest is the split of what follows it |
| Strings.LeadingDigits | backend/src/controllers/product.controller.ts:29-30 | the longest all-digit prefix of the text, as `parseInt` reads it |
| Strings.ParseInt | backend/src/controllers/product.controller.ts:29-30 | `parseInt` gives a number exactly when a digit comes first, or right after a leading sign |
| Strings.ParseDecimal | frontend/src/pages/seller/ProductsPage.tsx:68 | `parseInt` of a decimal numeral, with or without a minus sign, is that number |
| Strings.ParseIntEmpty | frontend/src/pages/seller/ProductsPage.tsx:68 | an empty stock field parses to NaN (no number) |
| Strings.DigitsOfDecimal | frontend/src/pages/seller/ProductsPage.tsx:68 | reading back the digits of a printed natural number gives that number |
| Strings.AllDigitsLeading | backend/src/routes/product.routes.ts:43 | an all-digit text is read whole as its own leading digits |
| Strings.ZerosValue | backend/src/routes/product.routes.ts:43 | a non-empty run of zeros is all digits with value 0 |
| Strings.LowerAscii | backend/src/routes/product.routes.ts:7 | the text with its ASCII capitals lowered, of the same length; comparing lowered forms is how a case-insensitive route compares an ASCII path |
| Strings.LowerAsciiChars | backend/src/routes/product.routes.ts:7 | no ASCII capital is left after lowering |
| Strings.LowerAsciiFixes | backend/src/routes/product.routes.ts:7 | text without capitals is its own lowered form, so lowering twice lowers once |
| Cart.FindIndex | frontend/src/contexts/CartContext.tsx:56 | -1 exactly when no line has the id; otherwise an index in range with no earlier line carrying the id |
| Cart.FoundLine | frontend/src/contexts/CartContext.tsx:56 | the line found carries the id looked for |
| Cart.Added | frontend/src/contexts/CartContext.tsx:53-71 | the list an add produces; its effect is stated by `Cart.AddedShape`, `Cart.AddExisting` and `Cart.AddNew` |
| Cart.AddedShape | frontend/src/contexts/CartContext.tsx:53-71 | after an add the item is in the cart; the line count grows only for a new id; other lines are untouched |
| Cart.Removed | frontend/src/contexts/CartContext.tsx:74-76 | the id is gone and every other line is kept |
| Cart.UpdatedQuantity | frontend/src/contexts/CartContext.tsx:79-90 | a quantity of zero or less removes the line; otherwise only that line's quantity changes |
| Cart.ItemsCount | frontend/src/contexts/CartContext.tsx:103-105 | the sum of the quantities; its behaviour under concatenation, one line, add and remove is stated by the `Cart.ItemsCount…`, `Cart.AddCount` and `Cart.RemoveCount` lemmas |
| Cart.CartTotal | frontend/src/contexts/CartContext.tsx:98-100 | the sum of price times quantity; its behaviour under concatenation, one line, add and remove is stated by the `Cart.CartTotal…`, `Cart.AddTotal` and `Cart.RemoveTotal` lemmas |
| Cart.ItemsCountBound | frontend/src/contexts/CartContext.tsx:103-105 | with positive quantities the item count is at least the number of lines |
| Cart.CartTotalNonNegative | frontend/src/contexts/CartContext.tsx:98-100 | with non-negative line amounts the total is non-negative |
| Cart.ItemsCountConcat | frontend/src/contexts/CartContext.tsx:103-105 | the item count adds up over concatenated carts |
| Cart.CartTotalConcat | frontend/src/contexts/CartContext.tsx:98-100 | the total adds up over concatenated carts |
| Cart.ItemsCountSingle | frontend/src/contexts/CartContext.tsx:103-105 | a one-line cart counts that line's quantity |
| Cart.CartTotalSingle | frontend/src/contexts/CartContext.tsx:98-100 | a one-line cart totals price times quantity |
| Cart.ItemsCountAround | frontend/src/contexts/CartContext.tsx:103-105 | the count of a cart split around one line is the parts' counts plus that line's quantity |
| Cart.CartTotalAround | frontend/src/contexts/CartContext.tsx:98-100 | the total of a cart split around one line is the parts' totals plus that line's amount |
| Cart.SplitCount | frontend/src/contexts/CartContext.tsx:103-105 | cutting out one line lowers the count by its quantity |
| Cart.SplitTotal | frontend/src/contexts/CartContext.tsx:98-100 | cutting out one line lowers the total by its amount |
| Cart.ReplaceLineCount | frontend/src/contexts/CartContext.tsx:103-105 | replacing one line changes the count by the difference in quantity |
| Cart.ReplaceLineTotal | frontend/src/contexts/CartContext.tsx:98-100 | replacing one line changes the total by the difference in amount |
| Cart.AddExisting | frontend/src/contexts/CartContext.tsx:56-65 | adding an id already in the cart raises that line's quantity by one and changes nothing else |
| Cart.AddNew | frontend/src/contexts/CartContext.tsx:66-69 | adding a new id appends a line with quantity 1 |
| Cart.AddCount | frontend/src/contexts/CartContext.tsx:53-71 | every add raises the item count by exactly one |
| Cart.AddTotal | frontend/src/contexts/CartContext.tsx:53-71 | an add raises the total by the stored line's price (the new item's price for a new line) |
| Cart.AddWellFormed | frontend/src/contexts/CartContext.tsx:53-71 | adding keeps ids unique and quantities positive |
| Cart.FilterWellFormed | frontend/src/contexts/CartContext.tsx:74-76 | filtering lines keeps ids unique and quantities positive |
| Cart.RemoveExisting | frontend/src/contexts/CartContext.tsx:74-76 | removing a present id cuts out exactly that line, keeping the order of the rest |
| Cart.RemoveAbsent | frontend/src/contexts/CartContext.tsx:74-76 | removing an absent id leaves the cart unchanged |
| Cart.RemoveCount | frontend/src/contexts/CartContext.tsx:74-76 | removing a line lowers the count by its quantity |
| Cart.RemoveTotal | frontend/src/contexts/CartContext.tsx:74-76 | removing a line lowers the total by its amount |
| Cart.UpdateExisting | frontend/src/contexts/CartContext.tsx:85-89 | a positive update replaces that line's quantity in place and shifts the count by the difference |
| Cart.UpdateWellFormed | frontend/src/contexts/CartContext.tsx:79-90 | updating keeps ids unique and quantities positive, for any requested quantity |
| Cart.ApplyAllWellFormed | frontend/src/contexts/CartContext.tsx:53-95 | any sequence of add, remove, update and clear keeps the cart well formed |
| Cart.CartStore.constructor | frontend/src/contexts/CartContext.tsx:41-45 | the cart starts empty (nothing saved) |
| Cart.CartStore.AddToCart | frontend/src/contexts/CartContext.tsx:53-71 | the new items are the add of the old ones; well-formedness is kept |
| Cart.CartStore.RemoveFromCart | frontend/src/contexts/CartContext.tsx:74-76 | the new items are the old ones without the id; well-formedness is kept |
| Cart.CartStore.UpdateQuantity | frontend/src/contexts/CartContext.tsx:79-90 | the new items are the update of the old ones; a non-positive quantity removes the line |
| Cart.CartStore.ClearCart | frontend/src/contexts/CartContext.tsx:93-95 | the cart becomes empty |
| CartPage.Render | frontend/src/pages/CartPage.tsx:9-95 | an empty cart shows the empty view; otherwise line i shows the buttons of cart line i, the subtotal equals the cart total, shipping is free and the total equals the subtotal |
| CartPage.DecrementKeepsLine | frontend/src/pages/CartPage.tsx:56 | "-" lowers the quantity by one but never below 1, so the line stays |
| CartPage.IncrementAddsOne | frontend/src/pages/CartPage.tsx:63 | "+" raises that line's quantity by one and the item count by one |
| CartPage.RemoveButtonRemovesLine | frontend/src/pages/CartPage.tsx:70 | "Remove" cuts out exactly that line |
| ProductDetail.UnitPrice | frontend/src/pages/ProductDetailPage.tsx:90 | a non-zero discount price is the unit price; otherwise the list price is |
| ProductDetail.CartDetails | frontend/src/pages/ProductDetailPage.tsx:87-94 | the cart line carries the product's id, seller and unit price |
| ProductDetail.QuantityOptions | frontend/src/pages/ProductDetailPage.tsx:271-275 | the select offers 1 to 10 |
| ProductDetail.AddDisabled | frontend/src/pages/ProductDetailPage.tsx:283 | the button is disabled exactly when stock is 0 |
| ProductDetail.AddedTimesWellFormed | frontend/src/pages/ProductDetailPage.tsx:85-96 | adding n times keeps ids unique and quantities positive |
| ProductDetail.FirstMatchStable | frontend/src/contexts/CartContext.tsx:56 | a cart with the same earlier lines and the id at the same place finds it at the same index |
| ProductDetail.AddedAtOnceStep | frontend/src/pages/ProductDetailPage.tsx:85-96 | one add followed by n - 1 units at once equals n units at once |
| ProductDetail.AddedTimesAtOnce | frontend/src/pages/ProductDetailPage.tsx:85-96 | n separate adds give the same cart as raising (or creating) the line by n at once |
| ProductDetail.AddedAtOnceCount | frontend/src/pages/ProductDetailPage.tsx:85-96 | adding n units at once raises the item count by n |
| ProductDetail.AddedTimesCount | frontend/src/pages/ProductDetailPage.tsx:85-96 | adding n times raises the item count by n |
| ProductDetail.AddedTimesExisting | frontend/src/pages/ProductDetailPage.tsx:85-96 | adding an item already in the cart n times raises its line's quantity by n and leaves every other line in place |
| ProductDetail.AddedTimesNew | frontend/src/pages/ProductDetailPage.tsx:85-96 | adding a new item n > 0 times appends one line with quantity n |
| ProductDetail.ProductDetailPage.constructor | frontend/src/pages/ProductDetailPage.tsx:51-54 | no product, loading, quantity 1 |
| ProductDetail.ProductDetailPage.ProductLoaded | frontend/src/pages/ProductDetailPage.tsx:58-78 | the product is set and loading ends |
| ProductDetail.ProductDetailPage.HandleQuantityChange | frontend/src/pages/ProductDetailPage.tsx:80-82 | the chosen quantity is stored |
| ProductDetail.ProductDetailPage.HandleAddToCart | frontend/src/pages/ProductDetailPage.tsx:84-97 | without a product nothing changes; otherwise the cart is the old cart with the item added the chosen number of times |
| SellerOrders.WithStatus | frontend/src/pages/seller/OrdersPage.tsx:67-73 | only the orders with the id change, and only in their status |
| SellerOrders.Filtered | frontend/src/pages/seller/OrdersPage.tsx:75-77 | "all" shows every order; a status tab shows exactly the orders with that status |
| SellerOrders.SameStatusNoChange | frontend/src/pages/seller/OrdersPage.tsx:67-73 | choosing an order's current status changes nothing |
| SellerOrders.UnknownOrderNoChange | frontend/src/pages/seller/OrdersPage.tsx:67-73 | an unknown id changes nothing |
| SellerOrders.LastStatusWins | frontend/src/pages/seller/OrdersPage.tsx:67-73 | two updates of one order equal the second alone |
| SellerOrders.UpdatedOrderMovesTab | frontend/src/pages/seller/OrdersPage.tsx:67-77 | after an update the order is listed under the new status and not under any other |
| SellerOrders.TabsPartitionOrders | frontend/src/pages/seller/OrdersPage.tsx:75-77 | the three status tabs together hold as many orders as the "all" tab |
| SellerOrders.OrdersPage.constructor | frontend/src/pages/seller/OrdersPage.tsx:6-8 | loading, no orders, tab "all" |
| SellerOrders.OrdersPage.OrdersLoaded | frontend/src/pages/seller/OrdersPage.tsx:10-65 | the orders are set and loading ends |
| SellerOrders.OrdersPage.SelectStatus | frontend/src/pages/seller/OrdersPage.tsx:96-119 | the chosen tab is stored |
| SellerOrders.OrdersPage.UpdateOrderStatus | frontend/src/pages/seller/OrdersPage.tsx:154-162 | the orders are the status update of the old ones |
| SellerOrders.OrdersPage.ShowsNoOrdersMessage | frontend/src/pages/seller/OrdersPage.tsx:123-131 | never while loading; once loaded, the empty message shows exactly when no order has the selected status (or there are none at all) |
| SellerProducts.WithField | frontend/src/pages/seller/ProductsPage.tsx:55-58 | the named form field takes the value and the others keep theirs |
| SellerProducts.Submitted | frontend/src/pages/seller/ProductsPage.tsx:64-70 | the new product copies the form, parses the stock with `parseInt` and has no image |
| SellerProducts.WithoutProduct | frontend/src/pages/seller/ProductsPage.tsx:77-79 | the id is gone and every other product is kept |
| SellerProducts.DeleteAbsent | frontend/src/pages/seller/ProductsPage.tsx:77-79 | deleting an absent id changes nothing |
| SellerProducts.SubmitThenDelete | frontend/src/pages/seller/ProductsPage.tsx:60-79 | deleting a freshly added product restores the previous list |
| SellerProducts.ProductsPage.constructor | frontend/src/pages/seller/ProductsPage.tsx:6-15 | loading, no products, modal closed, empty form |
| SellerProducts.ProductsPage.ProductsLoaded | frontend/src/pages/seller/ProductsPage.tsx:17-53 | the products are set and loading ends |
| SellerProducts.ProductsPage.OpenAddModal | frontend/src/pages/seller/ProductsPage.tsx:90-91 | the modal opens |
| SellerProducts.ProductsPage.CloseAddModal | frontend/src/pages/seller/ProductsPage.tsx:245-250 | "Cancel" closes the modal |
| SellerProducts.ProductsPage.HandleInputChange | frontend/src/pages/seller/ProductsPage.tsx:55-58 | the form is the old form with that field set |
| SellerProducts.ProductsPage.HandleSubmit | frontend/src/pages/seller/ProductsPage.tsx:60-75 | the new product goes first, the form is reset and the modal closes |
| SellerProducts.ProductsPage.HandleDelete | frontend/src/pages/seller/ProductsPage.tsx:77-79 | the products are the old ones without the id |
| RouteGuard.Guard | frontend/src/components/auth/ProtectedRoute.tsx:11-40 | a spinner exactly while loading; login exactly when signed out; children exactly when no roles are given or the role is among them; home otherwise |
| RouteGuard.UnrestrictedShowsEveryUser | frontend/src/components/auth/ProtectedRoute.tsx:31 | without roles every signed-in user sees the page |
| RouteGuard.SellerRoutes | frontend/src/components/auth/ProtectedRoute.tsx:31-36 | a seller-only route shows its page exactly to the role "seller" |
| RouteGuard.EmptyRoleNeverAdmitted | frontend/src/components/auth/ProtectedRoute.tsx:32 | an empty role is falsy and goes home |
| RouteGuard.MoreRolesAdmitMore | frontend/src/components/auth/ProtectedRoute.tsx:31-36 | widening the role list never shuts anyone out |
| RouteGuard.LoadingShowsNothing | frontend/src/components/auth/ProtectedRoute.tsx:16-22 | while loading the page is never shown |
| ErrorHandler.HandleError | backend/src/middlewares/errorHandler.ts:17-82 | never a success; an `HttpError` keeps its status and message in every environment; when the unclassified fallback runs in production, its message is generic and its stack null |
| ErrorHandler.HttpErrorResponds | backend/src/middlewares/errorHandler.ts:28-33 | a thrown `HttpError` yields exactly its status and message |
| ErrorHandler.UniqueViolation | backend/src/middlewares/errorHandler.ts:36-44 | P2002 gives 409 and names the joined target fields |
| ErrorHandler.RecordNotFound | backend/src/middlewares/errorHandler.ts:47-52 | P2025 gives 404 "Record not found." |
| ErrorHandler.OtherPrismaCodesFallThrough | backend/src/middlewares/errorHandler.ts:36-53 | other Prisma codes are handled as a plain error |
| ErrorHandler.PlainErrorStatus | backend/src/middlewares/errorHandler.ts:56-81 | the status follows the error's name: 400, 401, or the response status with 200 turned into 500 |
| ErrorHandler.PlainErrorBodies | backend/src/middlewares/errorHandler.ts:56-81 | a `ValidationError` answers "Validation Error" with its message under `errors`; a token error answers the fixed 401 message; outside production the fallback shows the error's message and its stack |
| ErrorHandler.ProductionHidesDetails | backend/src/middlewares/errorHandler.ts:73-81 | in production an unclassified error shows the generic message and a null stack |
| ValidateRequest.Put | backend/src/middlewares/validateRequest.ts:21 | the key maps to the value and other keys keep theirs; an existing key keeps its place, every other entry stays where it was, and a new key is appended last |
| ValidateRequest.PutKeepsUniqueKeys | backend/src/middlewares/validateRequest.ts:21 | assigning a key keeps keys unique |
| ValidateRequest.Extracted | backend/src/middlewares/validateRequest.ts:18-22 | the error map folded from the errors; `ValidateRequest.ExtractedLastWins` and `ValidateRequest.ExtractedUniqueKeys` state what it holds |
| ValidateRequest.ExtractedLastWins | backend/src/middlewares/validateRequest.ts:18-22 | a field's entry is the message of its last error |
| ValidateRequest.ExtractedUniqueKeys | backend/src/middlewares/validateRequest.ts:18-22 | each field appears once |
| ValidateRequest.ExtractErrors | backend/src/middlewares/validateRequest.ts:18-22 | the loop builds the fold of the errors |
| ValidateRequest.Rejection | backend/src/middlewares/validateRequest.ts:10-31 | no error exactly when the list is empty; otherwise 400 with "Validation failed: " |
| ValidateRequest.Validate | backend/src/middlewares/validateRequest.ts:10-31 | the middleware's outcome is the rejection of its errors |
| ValidateRequest.SingleErrorMessage | backend/src/middlewares/validateRequest.ts:25-30 | one error gives "Validation failed: field: message" |
| ValidateRequest.Fallbacks | backend/src/middlewares/validateRequest.ts:21 | a missing or empty param reads "unknown"; a missing or empty message reads "Invalid value" |
| ValidateRequest.RejectionResponds | backend/src/middlewares/validateRequest.ts:30-31 | the error handler answers a rejection with 400 and its message |
| Auth.ExtractToken | backend/src/middlewares/authMiddleware.ts:26-36 | failures are 401; a token is non-empty, has no space and comes after "Bearer " |
| Auth.BearerWord | backend/src/middlewares/authMiddleware.ts:26-36 | "Bearer " followed by a word yields that word |
| Auth.TokenAfterPrefix | backend/src/middlewares/authMiddleware.ts:32 | the second space-separated word is the token |
| Auth.EmptyTokenRejected | backend/src/middlewares/authMiddleware.ts:34-36 | "Bearer " with nothing after it is an invalid token format |
| Auth.OtherSchemeRejected | backend/src/middlewares/authMiddleware.ts:26-30 | the prefix check is case-sensitive |
| Auth.SubOf | backend/src/middlewares/authMiddleware.ts:46-48 | the value of the first "sub" attribute; none when no attribute is named "sub" |
| Auth.Identify | backend/src/middlewares/authMiddleware.ts:38-75 | a user exactly when Cognito answers with a truthy sub that is a known user; the user is that record, whose `cognitoId` is the sub when the table is keyed by `cognitoId` |
| Auth.CatchAsWritten | backend/src/middlewares/authMiddleware.ts:78-86 | the middleware's inner catch: every failure becomes 401, "Invalid or expired token" exactly for a Cognito `NotAuthorizedException` |
| Auth.Catch | backend/src/middlewares/authMiddleware.ts:78-86 | the corrected catch: an `HttpError` raised inside the block passes through unchanged; Cognito failures are 401 |
| Auth.AuthenticateAsWritten | backend/src/middlewares/authMiddleware.ts:19-90 | every failure, including a missing user, is 401; success exactly when the token is well formed and the identity check passes, with that user |
| Auth.Authenticate | backend/src/middlewares/authMiddleware.ts:19-90 | failures are 401, or 404 for an unknown user; success exactly when the token and the identity check pass |
| Auth.SameAcceptance | backend/src/middlewares/authMiddleware.ts:38-86 | the corrected catch accepts the same requests with the same user |
| Auth.UnknownUserAsWritten | backend/src/middlewares/authMiddleware.ts:62-65 | the source answers an unknown user with 401 "Authentication failed" |
| Auth.UnknownUser | backend/src/middlewares/authMiddleware.ts:62-65 | the corrected version answers an unknown user with 404 "User not found in the system" |
| Auth.ExpiredToken | backend/src/middlewares/authMiddleware.ts:78-83 | a rejected Cognito token is 401 "Invalid or expired token" |
| Auth.Request.constructor | backend/src/middlewares/authMiddleware.ts:19-26 | a request starts with its header and no user |
| Auth.Request.AuthMiddleware | backend/src/middlewares/authMiddleware.ts:19-90 | as written: on success the user is set; on failure the user is unchanged and the 401 of `Auth.AuthenticateAsWritten` is returned |
| Auth.AdminGate | backend/src/middlewares/authMiddleware.ts:96-108 | passes exactly admins; the rest get 403 |
| Auth.SellerGate | backend/src/middlewares/authMiddleware.ts:114-130 | passes admins and sellers with a profile; customers get 403; sellers without a profile get 404 |
| Auth.AdminIsSeller | backend/src/middlewares/authMiddleware.ts:121-123 | whoever passes the admin gate passes the seller gate |
| Auth.SellerNeedsProfile | backend/src/middlewares/authMiddleware.ts:114-130 | an authenticated seller passes the seller gate exactly when their user row has a seller profile |
| S3.FileExtension | backend/src/utils/s3.ts:30 | the extension holds no "/" |
| S3.UploadRequest | backend/src/utils/s3.ts:20-50 | error exactly when the bucket is unset; the key starts with the folder (default "products") and "/" |
| S3.Extensions | backend/src/utils/s3.ts:30 | "image/png" gives "png"; a type without "/" gives "" |
| S3.UploadKeyParts | backend/src/utils/s3.ts:31 | the key splits on "/" into the folder and the uuid with its extension |
| S3.ObjectUrl | backend/src/utils/s3.ts:57-63 | error exactly when the bucket is unset; the URL starts with the bucket's base URL |
| S3.ExtractKey | backend/src/utils/s3.ts:93-106 | with the base URL in front the key is what follows it; otherwise the URL is returned whole |
| S3.KeyOfObjectUrl | backend/src/utils/s3.ts:57-106 | extracting the key of an object's URL gives back the key |
| S3.ObjectUrlOfKey | backend/src/utils/s3.ts:57-106 | the URL of an extracted key is the URL it came from |
| S3.UploadRoundTrip | backend/src/utils/s3.ts:20-106 | the URL of an upload's key leads back to that key |
| S3.DeleteRequest | backend/src/utils/s3.ts:69-86 | error exactly when the bucket is unset; otherwise the delete names the bucket and key |
| ProductController.ParsePaging | backend/src/controllers/product.controller.ts:17-30 | the paging parsed from the query has page and limit of at least 1 |
| ProductController.DefaultPaging | backend/src/controllers/product.controller.ts:17-18 | with no query the paging is page 1 of 10 |
| ProductController.Skip | backend/src/controllers/product.controller.ts:31 | the offset is never negative |
| ProductController.TotalPages | backend/src/controllers/product.controller.ts:107 | the page count is the ceiling of total over limit |
| ProductController.PageOf | backend/src/controllers/product.controller.ts:31-104 | a page is the slice of at most `limit` rows starting at the offset |
| ProductController.EveryRowOnItsPage | backend/src/controllers/product.controller.ts:31 | each row lies on page `i / limit + 1` |
| ProductController.Info | backend/src/controllers/product.controller.ts:107-119 | the page info keeps total and page; hasMore exactly when the page is before the last |
| ProductController.HasMoreIffRowsRemain | backend/src/controllers/product.controller.ts:107-110 | hasMore exactly when rows remain after this page |
| ProductController.LinksOf | backend/src/controllers/product.controller.ts:109-110 | a next link exactly when hasMore; a previous link exactly when past page 1 |
| ProductController.Paginated | backend/src/controllers/product.controller.ts:99-124 | the data is the page of the matching rows; the info counts all matching rows |
| ProductController.BuildListingFilter | backend/src/controllers/product.controller.ts:34-60 | the filter matches exactly the products the listing query selects |
| ProductController.AllProducts | backend/src/controllers/product.controller.ts:11-128 | a listing for every valid paging: the data is the page of the rows the filter selects, the info counts all selected rows, the links follow the info |
| ProductController.FeaturedProducts | backend/src/controllers/product.controller.ts:133-180 | the first min(limit, n) of the n active, featured, in-stock rows, in table order (limit 8 by default) |
| ProductController.ProductsBySeller | backend/src/controllers/product.controller.ts:407-460 | the page of the seller's active rows and the info counting all of them, without links |
| ProductController.ProductsByCategory | backend/src/controllers/product.controller.ts:465-532 | the page of the category's active in-stock rows and the info counting all of them, without links |
| ProductController.CategoryIsFilteredListing | backend/src/controllers/product.controller.ts:34-60 | the category listing selects what the main listing selects for that category |
| ProductController.OutOfStockOnlyOnSellerListing | backend/src/controllers/product.controller.ts:421-426 | an active product without stock is listed only on its seller's page |
| ProductController.InactiveNeverListed | backend/src/controllers/product.controller.ts:34-36 | an inactive product is on no listing |
| ProductController.IndexOf | backend/src/controllers/product.controller.ts:331-333 | the first row with the id, or -1 exactly when none has it |
| ProductController.ProductById | backend/src/controllers/product.controller.ts:185-236 | a product exactly when a row has the id, whatever its status; otherwise 404 |
| ProductController.Authorize | backend/src/controllers/product.controller.ts:331-341 | access exactly when the row exists and the caller has a seller profile equal to the row's seller; 404 if missing, 403 otherwise (a caller without a profile owns nothing) |
| ProductController.NoProfileNoAccess | backend/src/controllers/product.controller.ts:331-341 | a caller without a seller profile gets 404 for a missing product and 403 for every existing one |
| ProductController.Created | backend/src/controllers/product.controller.ts:262-296 | the new row copies the input, is active and not featured; a zero discount is dropped; no images means none |
| ProductController.Patched | backend/src/controllers/product.controller.ts:344-352 | each field sent replaces the stored one and the rest keep theirs |
| ProductController.EmptyPatchKeepsRow | backend/src/controllers/product.controller.ts:344-352 | an empty body leaves the row as it was |
| ProductController.Checked | backend/src/controllers/product.controller.ts:331-341 | a refused request leaves the rows alone; an accepted one changes only the owned row |
| ProductController.AfterUpdate | backend/src/controllers/product.controller.ts:321-362 | the owner's update patches that row and answers it; any other request answers 404 or 403 and leaves the table alone |
| ProductController.AfterDelete | backend/src/controllers/product.controller.ts:367-402 | the owner's delete sets the row's status to DELETED; any other request answers 404 or 403 and leaves the table alone |
| ProductController.AfterAttributes | backend/src/controllers/product.controller.ts:537-590 | the owner's request replaces that row's attributes and answers the row; any other request answers 404 or 403 and leaves the table alone |
| ProductController.AfterTags | backend/src/controllers/product.controller.ts:595-647 | the owner's request replaces that row's tags and answers the row; any other request answers 404 or 403 and leaves the table alone |
| ProductController.ReplaceKeepsIds | backend/src/controllers/product.controller.ts:344-352 | replacing a row by one with the same id keeps ids unique |
| ProductController.CheckedKeepsIds | backend/src/controllers/product.controller.ts:321-647 | every guarded mutation that keeps the id keeps ids unique |
| ProductController.SoftDelete | backend/src/controllers/product.controller.ts:389-393 | a deleted product stays readable by id with status DELETED, and leaves every listing |
| ProductController.UpdateWritesAnyField | backend/src/controllers/product.controller.ts:344-352 | an owner's update can move the product to another seller, after which the old owner is refused |
| ProductController.LastReplacementWins | backend/src/controllers/product.controller.ts:561-629 | setting attributes or tags twice equals setting the second ones once |
| ProductController.AfterCreate | backend/src/controllers/product.controller.ts:241-316 | creating appends the new row and returns it |
| ProductController.CreateThenRead | backend/src/controllers/product.controller.ts:241-316 | a created product can be read back by id, ids stay unique, and its creator may update it exactly when they have a seller profile |
| ProductController.ProductStore.CreateProduct | backend/src/controllers/product.controller.ts:241-316 | response and rows are those of a create; unique ids are kept |
| ProductController.ProductStore.UpdateProduct | backend/src/controllers/product.controller.ts:321-362 | response and rows are those of an update; unique ids are kept |
| ProductController.ProductStore.DeleteProduct | backend/src/controllers/product.controller.ts:367-402 | response and rows are those of a soft delete; unique ids are kept |
| ProductController.ProductStore.AddProductAttributes | backend/src/controllers/product.controller.ts:537-590 | response and rows are those of replacing the attributes; unique ids are kept |
| ProductController.ProductStore.AddProductTags | backend/src/controllers/product.controller.ts:595-647 | response and rows are those of replacing the tags; unique ids are kept |
| ProductRoutes.ElementErrors | backend/src/routes/product.routes.ts:104-106 | no error exactly when every array element passes the check |
| ProductRoutes.Passes | backend/src/routes/product.routes.ts:40-44 | a missing field is judged as the empty text and fails `isArray`; a present value passes `isArray` exactly when it is an array, and a text check on its text, on "[object Object]" for an object, on "" for an empty array, or on every element of an array; `ProductRoutes.RequiredTextRule`, `ProductRoutes.ElementErrors` and `ProductRoutes.AttributesNotArray` state it for the rules |
| ProductRoutes.Routes | backend/src/routes/product.routes.ts:14-127 | the ten routes in registration order; their chains are stated by `ProductRoutes.MutationsAreSellerOnly`, `ProductRoutes.OnlyDeleteSkipsValidation` and `ProductRoutes.RoutesShaped` |
| ProductRoutes.NumericText | backend/src/routes/product.routes.ts:42 | `isNumeric`: an optional sign, then digits with at most one inner or leading decimal point |
| ProductRoutes.NonNegativeIntText | backend/src/routes/product.routes.ts:43 | `isInt({ min: 0 })`: an optional sign and digits, leading zeros allowed; a minus sign only before zeros |
| ProductRoutes.RuleErrors | backend/src/routes/product.routes.ts:40-44 | a single-field rule reports at most one error |
| ProductRoutes.Errors | backend/src/routes/product.routes.ts:40-44 | no error exactly when every rule passes |
| ProductRoutes.RequiredTextRule | backend/src/routes/product.routes.ts:40-44 | a required text rule passes exactly when the field is present and passes the check |
| ProductRoutes.CreateBodyAccepted | backend/src/routes/product.routes.ts:40-44 | a create body passes exactly with a non-empty name, description and category, a numeric price and a non-negative integer stock (leading zeros allowed) |
| ProductRoutes.UpdateWithoutCheckedFields | backend/src/routes/product.routes.ts:60-62 | an update body without the checked fields passes |
| ProductRoutes.TagsAccepted | backend/src/routes/product.routes.ts:122-123 | a tags array passes exactly when no tag is empty |
| ProductRoutes.AttributesNotArray | backend/src/routes/product.routes.ts:104 | missing or non-array attributes fail the array check |
| ProductRoutes.StockExamples | backend/src/routes/product.routes.ts:43 | "0", "12", "012", "+7" and "-0" are stocks; "-1", "1.5", "" and "+" are not |
| ProductRoutes.StockParses | backend/src/routes/product.routes.ts:43 | an accepted stock text parses to the number its digits spell |
| ProductRoutes.PriceExamples | backend/src/routes/product.routes.ts:42 | "12", "-3.5" and ".5" are prices; "" and "5." are not |
| ProductRoutes.FirstMatch | backend/src/routes/product.routes.ts:14-127 | the first route that matches, or -1 exactly when none does |
| ProductRoutes.Params | backend/src/routes/product.routes.ts:28 | every `:name` segment is captured |
| ProductRoutes.Resolve | backend/src/routes/product.routes.ts:7-127 | no handler exactly when no route matches; literal segments match in any case, as a `Router()` without `caseSensitive` does |
| ProductRoutes.FeaturedBeforeId | backend/src/routes/product.routes.ts:21-28 | "/featured" reaches the featured handler and not `/:id` |
| ProductRoutes.FeaturedInAnyCase | backend/src/routes/product.routes.ts:7-28 | "featured" in any mix of cases reaches the featured listing, never the lookup by id |
| ProductRoutes.UpperCaseFeatured | backend/src/routes/product.routes.ts:7-28 | `GET /FEATURED` is the featured listing |
| ProductRoutes.SingleSegmentIsId | backend/src/routes/product.routes.ts:7-28 | any other single segment is a product id, including "seller" and "category"; "featured" in any case is not |
| ProductRoutes.SellerListingRoute | backend/src/routes/product.routes.ts:85 | "/seller/x" lists seller x |
| ProductRoutes.MutationsAreSellerOnly | backend/src/routes/product.routes.ts:35-127 | every non-GET route authenticates and then checks the seller role |
| ProductRoutes.OnlyDeleteSkipsValidation | backend/src/routes/product.routes.ts:35-127 | every mutation except DELETE validates its body before the controller |
| ProductRoutes.Run | backend/src/routes/product.routes.ts:14-127 | running a chain either stops with a 400, 401, 403 or 404, or reaches one of the chain's own controllers |
| ProductRoutes.SellerPrefix | backend/src/routes/product.routes.ts:37-38 | the middleware as written, then the seller gate: a failed authentication stops the chain with its 401, a refused gate with its error, otherwise the rest runs with the user attached |
| ProductRoutes.ValidateThenController | backend/src/routes/product.routes.ts:46-47 | the controller runs exactly when validation reports nothing; otherwise the chain stops with the 400 |
| ProductRoutes.RoutesShaped | backend/src/routes/product.routes.ts:14-127 | every chain is a lone controller, or the seller middlewares, optional validation and a controller |
| ProductRoutes.ShapedChainComplete | backend/src/routes/product.routes.ts:35-48 | a chain of one of those shapes stops with an error or reaches its controller |
| ProductRoutes.SellerChain | backend/src/routes/product.routes.ts:35-48 | a seller route's chain stops at the first failing middleware, else reaches the controller with the user |
| ProductRoutes.ChainsComplete | backend/src/routes/product.routes.ts:14-127 | every route's chain either stops with an error or reaches its controller |
| ProductRoutes.AuthenticationFirst | backend/src/routes/product.routes.ts:37 | a failed authentication stops the chain with that error, which is always a 401 |
| ProductRoutes.UnknownUserOnSellerRoute | backend/src/middlewares/authMiddleware.ts:62-86 | a valid token whose user has no row gets 401 "Authentication failed" on every seller route |
| ProductRoutes.CustomersRefused | backend/src/routes/product.routes.ts:38 | an authenticated customer gets 403 on every mutation |
| ProductRoutes.CustomerStopsAtGate | backend/src/middlewares/authMiddleware.ts:114-130 | any chain that starts with authentication and the seller gate answers an authenticated customer with 403 |
| ProductRoutes.InvalidBodyIs400 | backend/src/routes/product.routes.ts:46 | a seller with an invalid body gets a 400 before the controller runs |

## Left out

- Browser storage: the cart's `localStorage` load and save are left out. The model starts from an empty cart.
- Prices are integer cents. Floating point, `toFixed` and the display formatting are left out.
- `parseFloat` of the price field is not modelled. `SellerProducts.ProductsPage.HandleSubmit` takes the parsed price as a parameter.
- `SellerProducts.ProductsPage.HandleSubmit`: takes the new id as a parameter instead of drawing it from `Math.random`.
- `Strings.ParseInt`: does not skip leading whitespace. It reads an optional sign and then decimal digits, as `parseInt(s, 10)` does after the whitespace.
- `ProductController.ParsePaging`: a page or limit that is NaN or below 1 yields no listing. The source passes such values on to the database query, whose failure is not modelled.
- `ProductController.FeaturedProducts`: a negative limit yields no result. The source would hand it to the database.
- `ProductController.FeaturedProducts`, `ProductController.ProductsBySeller` and `ProductController.ProductsByCategory` keep the rows in table order. The source sorts them newest first (`createdAt: 'desc'`), so featured returns the newest `limit` featured rows and each page is cut from that order. The model matches the source only when the table is stored newest first.
- `ProductController.AllProducts`: search is a case-sensitive substring match. The source asks the database for a case-insensitive one. Sorting by the `sort` and `order` query parameters is not modelled: rows keep their stored order.
- Included relations (seller, category, reviews), the rating average and other database I/O are not modelled. The product table is a sequence of rows in `ProductStore`.
- `ProductController.ProductStore.CreateProduct`: requires an id not yet in use, because the database generates it.
- The `featured` flag of a new product is taken as false, the database default.
- `ProductController.Created`: the discount price is dropped exactly when its parsed value is 0. The source tests the truthiness of the raw body value, so a text "0" is stored as 0.
- `ProductController.Patched` and `ProductController.AfterUpdate`: the patch is the request body already typed as the database expects. Prisma refuses a body with a number sent as text (such as `stock: "5"`, which the update validators accept), a relation field or an unknown key. That refusal is neither an `HttpError` nor a known Prisma error, so the source answers 500, where the model always answers the owner with the patched row.
- `ProductController.AfterUpdate` and `ProductController.ProductStore.UpdateProduct`: for the same reason they never end in that 500.
- `ProductController.Patched`: the patch has no `id` field. The source's `data: req.body` can also rename the row, or end in a 409 through P2002 when the new id is taken.
- `ProductController.Created`: a product created by a caller without a seller profile is stored with no seller. If the database requires the seller, it would refuse the create instead.
- `ErrorHandler.HandleError`: a P2002 error always carries its target list. In the source, a P2002 without `meta.target` makes the handler throw a TypeError.
- Cognito, the Amplify client, uuid generation, URL presigning and the S3 client's send are external. Their answers are parameters: `IdentityReply`, the uuid, the bucket.
- `Auth.Request.AuthMiddleware`: an exception thrown by `next()` inside the outer try is not modelled.
- The request logger and the error logger are left out. They only write log lines.
- express-validator internals are simplified:
  - a wildcard rule over a non-array body field is reported like an array check
  - a value given where text is expected is checked as JavaScript turns it into text: an object as "[object Object]", an array element by element, an empty array as ""
  - the error's field name is read from `param` as the source does
- `ProductRoutes.Run`: a `RequireSeller` step without an authenticated user ends in `MissingUser`. No route is built that way.
- The other routers mounted in `backend/src/routes/index.ts` are not part of this model: auth, users, orders, categories, reviews and uploads.
- Mock data and timers on the frontend pages are replaced by the loaded lists or products passed to the `…Loaded` methods.
- `ProductDetail.ProductDetailPage.HandleQuantityChange`: requires the choice to be one of the select's options, which are the only values the page can send.
- Animations, styling and navigation links of the pages are not modelled.
- `ProductDetail.CartDetails`: a product without images gives the image text "", where the source passes `undefined`. Both are falsy, and the model has no optional text fields.

## Findings

| source | as written | input that shows it | evidently intended | confidence | as-written member | corrected member |
|---|---|---|---|---|---|---|
| backend/src/middlewares/authMiddleware.ts:62-86 | the inner catch turns every error, including its own `HttpError('User not found in the system', 404)`, into 401 "Authentication failed" | a valid Cognito token whose `sub` has no user row | answer 404 "User not found in the system" and keep the other errors thrown inside the block | not executed | Auth.AuthenticateAsWritten (Auth.UnknownUserAsWritten) | Auth.Authenticate (Auth.UnknownUser) |
