# BEATEN storefront and admin console — a Dafny model

BEATEN is a clothing store made of a React storefront, a React admin console
and an Express/Mongoose backend. This project models the storefront's pricing,
cart, checkout, payment, listing, product, order-history, returns, premium and
wishlist pages; the admin console's dashboard, orders and customers pages; the
backend's order controller, admin controller, user and admin return routes,
e-mail helpers and coupon schema; and the client's API helpers. For each of
these it states and proves what the code promises.

The modules follow the source files:

| module | models |
|---|---|
| `Pricing`, `Cart`, `Checkout`, `Payment` | cart totals, the checkout address form, coupon application and the order payload |
| `Products`, `Home`, `ProductDetail`, `Wishlist`, `Catalog`, `Images` | the listing filter chain and its reducer, the home sections, the product page state, image URLs |
| `MyOrders`, `Returns`, `Premium` | the order history page, the returns page, the premium page and its one-year expiry |
| `Dashboard`, `AdminOrders`, `Customers`, `Paging` | the admin pages, their filters, sorts, pagination and CSV export |
| `OrderController`, `AdminController`, `UserRoutes`, `AdminRoutes`, `EmailService`, `Coupon`, `Models` | the backend handlers over in-memory collections |
| `Api` | URL building, request configuration and response/error handling |
| `Scenarios` | end-to-end price scenarios across the client and the backend |
| `Strings`, `Sequences`, `Sorting`, `Wrappers` | shared helpers: trimming, casing, splitting, filtering, sorting |

Some conventions hold throughout:

- A MongoDB collection is a class holding a `seq` of records. A handler that writes to it is a method with `modifies` on that store.
- A React page whose handlers update its state is a class whose fields are that state.
- A JavaScript value that can be falsy is modelled as `""`, `0` or `None`.
- Dates are integer timestamps. The premium page's expiry is an exception: it uses a calendar date record, so that `setFullYear` can be modelled exactly.
- Mail delivery, the clock, generated ids, the payment gateway and password hashing are parameters, or are returned as values.
  - A handler's mail is returned alongside its response, so that the response can be seen not to depend on delivery.
  - `matchPassword` is a function parameter.

## Model

| member | source | states |
|---|---|---|
| Models.FindUser | backend/routes/user.js:13 | `User.findById`: a position holding that id, or -1 exactly when no user has it |
| Models.FindOrder | backend/controllers/orderController.js:171 | `Order.findById`: the first position with that id, or -1 exactly when none has it |
| Models.FindAdminByEmail | backend/controllers/adminController.js:16 | `Admin.findOne({ email })`: a position with that email, or -1 exactly when none has it |
| Models.FindAdminById | backend/controllers/adminController.js:203 | `Admin.findById`: a position with that id, or -1 exactly when none has it |
| OrderController.ValidateCreateOrder | backend/controllers/orderController.js:16-27 | an empty item list is "No order items"; then a missing address is "Shipping address required"; the request passes exactly when it has items and an address |
| OrderController.FinalPrice | backend/controllers/orderController.js:29-39 | for an active subscriber the total is lowered by the subscription cost but never below 0; everyone else keeps the client's total |
| OrderController.FinalPriceBounds | backend/controllers/orderController.js:31-39 | with a non-negative total and cost, the stored price lies between 0 and the client's total |
| OrderController.ConfirmationMail | backend/controllers/orderController.js:49-56 | a confirmation mail goes out exactly when the owner exists and has an email, addressed to that owner about the new order |
| OrderController.CreateOrder | backend/controllers/orderController.js:11-68 | a rejected request stores nothing and sends no mail; an accepted one appends exactly one order built from the request, with the subscriber-adjusted price, the given time and no status |
| OrderController.Summarize | backend/controllers/orderController.js:85-103 | original price minus discount is always the stored total; a stored original price wins, else the document's, else there is no discount |
| OrderController.GetMyOrders | backend/controllers/orderController.js:73-114 | exactly the caller's orders, every one of them, each summarised |
| OrderController.GetMyOrderById | backend/controllers/orderController.js:212-232 | an order is returned only if it has that id and belongs to the caller; 404 exactly when no such order exists |
| OrderController.ApplyStatus | backend/controllers/orderController.js:183-185 | only the found order's status changes; an unknown id changes nothing |
| OrderController.ApplyStatusLastWins | backend/controllers/orderController.js:183-185 | no transition is checked: two updates equal the last one alone |
| OrderController.ApplyStatusKeepsPrices | backend/controllers/orderController.js:183-185 | a status update never touches a total, the items or the owner |
| OrderController.StatusMail | backend/controllers/orderController.js:187-194 | the status mail goes to the owner exactly when the owner has an email, with the status subject and sentence |
| OrderController.UpdateOrderStatus | backend/controllers/orderController.js:166-207 | 404 and no mail for an unknown id; otherwise the stored status becomes the given one, and the owner's mail is produced |
| AdminController.RegisterKeepsUnique | backend/controllers/adminController.js:16-30 | registering an unused email keeps the admins' emails unique |
| AdminController.Register | backend/controllers/adminController.js:11-54 | 409 and no change for a taken email; otherwise exactly one new active admin is appended; uniqueness is preserved |
| AdminController.LoginCheck | backend/controllers/adminController.js:64-89 | the checks run in order: unknown email, then deactivated, then wrong password; success names the admin with that email |
| AdminController.UnknownEmailLooksLikeWrongPassword | backend/controllers/adminController.js:66-89 | an unknown email and a wrong password get the same answer |
| AdminController.DeactivationCheckedBeforePassword | backend/controllers/adminController.js:74-79 | a deactivated admin is refused whatever password is given |
| AdminController.Login | backend/controllers/adminController.js:59-110 | a failure changes nothing; a success sets only that admin's last login to now |
| AdminController.ProfileUpdated | backend/controllers/adminController.js:164-169 | a missing name or email keeps the current one; no other field changes |
| AdminController.ProfileUpdateKeepsUnique | backend/controllers/adminController.js:154-169 | an update that passed the conflict test keeps emails unique |
| AdminController.UpdateProfile | backend/controllers/adminController.js:149-194 | 409 and no change when the new email belongs to another admin; otherwise only the caller's record is updated; uniqueness is preserved |
| AdminController.ChangePassword | backend/controllers/adminController.js:199-233 | 404 for an unknown admin, 401 for a wrong current password, each changing nothing; otherwise only that admin's password is replaced |
| AdminController.RevenueAppend | backend/controllers/adminController.js:261-264 | an extra order adds its total to the revenue if it is delivered, and nothing otherwise |
| AdminController.RevenueNonNegative | backend/controllers/adminController.js:261-264 | the revenue is non-negative when the totals are |
| AdminController.DeliveredIgnoresCase | backend/controllers/adminController.js:262 | the delivered test ignores case |
| AdminController.OwnerName | backend/controllers/adminController.js:271-281 | never empty; the owner's name whenever the owner exists and has one |
| AdminController.ActivityOf | backend/controllers/adminController.js:274-280 | an order activity carrying the order's id, time and amount, and its last six id characters with the owner's name |
| AdminController.NewestOrders | backend/controllers/adminController.js:271-273 | at most ten orders from the list, newest first |
| AdminController.NewestOrdersAreNewest | backend/controllers/adminController.js:271-273 | no order left out is newer than one listed |
| AdminController.RecentActivities | backend/controllers/adminController.js:271-281 | one activity per newest order, newest first |
| AdminController.DashboardAnalytics | backend/controllers/adminController.js:252-302 | the counts of users and orders, the product count, the delivered revenue and the recent activities |
| UserRoutes.AddressLine | backend/routes/user.js:21 | street, city, state, country and postal code joined by ", " |
| UserRoutes.ViewAddress | backend/routes/user.js:18-24 | the address's id, phone and default flag, its label (defaulting to "Home") and the one-line address |
| UserRoutes.GetProfile | backend/routes/user.js:10-41 | 404 exactly for an unknown user; otherwise the user's fields and one view per stored address, in order |
| UserRoutes.ProfileLabelsNonEmpty | backend/routes/user.js:20 | every address in the profile carries a non-empty label |
| UserRoutes.ApplyPatch | backend/routes/user.js:50-53 | each truthy field of the body overwrites the stored one; nothing else changes |
| UserRoutes.ApplyPatchIdempotent | backend/routes/user.js:50-53 | applying the same body twice is applying it once |
| UserRoutes.EmptyPatchKeepsUser | backend/routes/user.js:50-53 | an empty body leaves the user unchanged |
| UserRoutes.PatchProfile | backend/routes/user.js:44-59 | 404 and no change for an unknown user; otherwise only that user is patched |
| UserRoutes.ValidateReturnBody | backend/routes/user.js:66-70 | the body passes exactly when the order id, product id and reason are all present |
| UserRoutes.AppendKeepsUnique | backend/routes/user.js:71-84 | appending a pair not yet requested keeps the (order, product) pairs unique |
| UserRoutes.AppendMarksReturned | backend/routes/user.js:74-84 | once stored, the same pair counts as already requested |
| UserRoutes.RequestReturn | backend/routes/user.js:62-98 | 400, 404 or a duplicate each change nothing and send no mail; otherwise exactly one pending request is appended to that user and the placed mail is produced |
| UserRoutes.GetReturns | backend/routes/user.js:101-115 | 404 exactly for an unknown user, else that user's requests as stored |
| AdminRoutes.Annotate | backend/routes/admin.js:52-63 | one entry per request of the user, each annotated with that user's id and contact |
| AdminRoutes.AllReturnsLength | backend/routes/admin.js:50-65 | the list has one entry per stored request |
| AdminRoutes.AllReturnsSound | backend/routes/admin.js:50-65 | every entry is a stored request annotated with its own owner |
| AdminRoutes.AllReturnsComplete | backend/routes/admin.js:50-65 | every stored request appears, annotated with its owner |
| AdminRoutes.ListAllReturns | backend/routes/admin.js:46-69 | the nested loop builds exactly the annotated list |
| AdminRoutes.FindReturnOwner | backend/routes/admin.js:79 | the first user holding a request with that id, or -1 exactly when nobody holds one |
| AdminRoutes.FindReturn | backend/routes/admin.js:83 | a position of the request with that id, or -1 exactly when there is none |
| AdminRoutes.UpdateReturn | backend/routes/admin.js:83-84 | only the found request of the found user changes, in its status or its received flag |
| AdminRoutes.UpdateKeepsLookup | backend/routes/admin.js:79-84 | an update keeps all ids, so the same request is found again |
| AdminRoutes.FindReturnSameIds | backend/routes/admin.js:83 | the lookup depends only on the ids |
| AdminRoutes.FindOwnerSameLookups | backend/routes/admin.js:79 | the owner lookup depends only on the per-user lookups |
| AdminRoutes.MarkReceivedIdempotent | backend/routes/admin.js:107-109 | marking received twice is marking it once |
| AdminRoutes.DecisionLastWins | backend/routes/admin.js:83-84 | any decision replaces any earlier one |
| AdminRoutes.UpdateReturnAt | backend/routes/admin.js:79-84 | with the request found, the update rewrites exactly that request of that user |
| AdminRoutes.UpdateReturnStatus | backend/routes/admin.js:72-97 | 400 for a status outside pending/approved/rejected, before any lookup; 404 for an unknown id; otherwise only that request's status is set and the decision mail is produced |
| AdminRoutes.MarkReceived | backend/routes/admin.js:100-113 | 404 for an unknown id; otherwise the request is marked received, whatever its status, with no mail |
| EmailService.StatusMessage | backend/utils/emailService.js:276-283 | a message exists exactly for the six listed statuses |
| EmailService.InheritedText | backend/utils/emailService.js:276-289 | what an inherited `Object.prototype` member prints as in the mail: "[object Object]" for `__proto__`, the `Object` function for `constructor`, a native function otherwise |
| EmailService.OrderStatusSentence | backend/utils/emailService.js:276-289 | the table's own message for a listed status; for a name inherited from `Object.prototype` ("constructor", "toString", …) the inherited member's text; the generic fallback exactly for every other status |
| EmailService.OrderStatusSubject | backend/utils/emailService.js:284 | the order id and then the status with its first letter upper-cased |
| EmailService.OrderStatusMail | backend/utils/emailService.js:274-308 | the mail goes to the given address, greets the user and carries that subject and sentence |
| EmailService.SubjectIgnoresInitialCase | backend/utils/emailService.js:284-289 | "pending" and "Pending" share a subject but not a sentence |
| EmailService.OrderConfirmedMail | backend/utils/emailService.js:311-348 | the confirmation subject names the order |
| EmailService.ReturnPlacedMail | backend/utils/emailService.js:354 | the placed subject names the order |
| EmailService.ReturnStatusText | backend/utils/emailService.js:389-393 | "Approved" exactly for "approved", "Rejected" for anything else |
| EmailService.ReturnStatusSentence | backend/utils/emailService.js:389-393 | the approval sentence exactly for "approved", the rejection sentence otherwise |
| EmailService.ReturnStatusMail | backend/utils/emailService.js:386-422 | the decision mail's subject and sentence follow the status |
| EmailService.PendingMailsRejection | backend/utils/emailService.js:389-393 | setting a return back to "pending" mails the same text as a rejection |
| EmailService.OtpSubject | backend/utils/emailService.js:32-42 | the login subject exactly for the login purpose; otherwise the admin or user reset subject by user type |
| EmailService.ResetSuccessSubject | backend/utils/emailService.js:174-177 | the admin subject exactly for admins |
| EmailService.SendOtpOutcome | backend/utils/emailService.js:163-166 | the OTP helper returns true on delivery and throws otherwise |
| EmailService.SendNotificationOutcome | backend/utils/emailService.js:304-307 | the notification helpers never throw; their boolean reports delivery |
| Coupon.ParseType | backend/models/Coupon.js:6 | exactly "public" and "personal" are accepted |
| Coupon.ParseStatus | backend/models/Coupon.js:14-18 | exactly "active", "expired" and "used" are accepted |
| Coupon.Violation | backend/models/Coupon.js:3-31 | a draft is accepted exactly when the required fields are present, the enumerations hold and the trimmed code is unused |
| Coupon.Create | backend/models/Coupon.js:3-31 | a stored coupon has the trimmed code, the given values and the schema defaults for the rest |
| Coupon.DefaultsApplied | backend/models/Coupon.js:6-19 | a draft with only the required fields gets type public, no category, no minimum, limit 1, count 0, status active |
| Coupon.StoredCodeTrimmed | backend/models/Coupon.js:5 | a stored code has no white space at either end |
| Coupon.CreateKeepsUnique | backend/models/Coupon.js:5 | adding an accepted coupon keeps the codes unique |
| Api.ApiBase | frontend/src/utils/api.js:2-3 | the environment value when set, else the local default; never empty |
| Api.BuildApiUrl | frontend/src/utils/api.js:6-8 | the base followed by exactly one "/" and the endpoint |
| Api.SlashOptional | frontend/src/utils/api.js:6-8 | giving or omitting the leading "/" builds the same URL |
| Api.BuildApiUrlInjective | frontend/src/utils/api.js:6-8 | two endpoints build the same URL only if they agree once rooted |
| Api.EmptyEndpoint | frontend/src/utils/api.js:6-8 | the empty endpoint yields the base and a trailing "/" |
| Api.BuildersKeepId | frontend/src/utils/api.js:31-61 | every id-taking endpoint builder keeps the id at a fixed offset |
| Api.OrderStatusUpdateInjective | frontend/src/utils/api.js:55 | different ids give different status-update endpoints |
| Api.AuthHeaders | frontend/src/utils/api.js:77-80 | a bearer header exactly when a token is stored, and nothing else |
| Api.ApiConfig | frontend/src/utils/api.js:83-98 | the built URL, the JSON content type, the bearer header exactly with a token, and a body exactly for a truthy value on POST, PUT or PATCH |
| Api.GetHasNoBody | frontend/src/utils/api.js:93-95 | a GET never carries a body |
| Api.HandleApiResponse | frontend/src/utils/api.js:101-106 | the body is returned on both branches |
| Api.ResponseIgnoresSuccess | frontend/src/utils/api.js:101-106 | the success flag has no effect on the result |
| Api.HandleApiError | frontend/src/utils/api.js:109-119 | the server's message, else the error's, else the generic one; never empty; the status and data are passed on |
| Images.BackendBase | frontend/src/pages/Cart.js:43 | the backend variable when set, else the local server |
| Images.PlainInitial | frontend/src/pages/Cart.js:47-52 | a path starting with neither 'h' nor 'b' is never passed through as a URL |
| Images.ResolveImage | frontend/src/pages/Cart.js:45-57 | no path gives the fallback; a bare file name gives the uploads URL; anything else is kept as is |
| Images.FallbackHasSlash | frontend/src/pages/Cart.js:39-41 | the fallback image is not a bare file name |
| Images.ResolveIdempotent | frontend/src/pages/Products.js:69-85 | with an absolute prefix, resolving a resolved path changes nothing |
| Images.UploadNameRecoverable | frontend/src/pages/Cart.js:53-55 | an upload's file name is what follows the last "/" of its URL |
| Images.DetailImageUrlAsWritten | frontend/src/pages/ProductDetail.js:56-68 | the product page as written: a bare name is put after the API base and a doubled "/" |
| Images.DetailDoubleSlash | frontend/src/pages/ProductDetail.js:65 | on the default configuration the upload URL reads ".../api//uploads/shirt.png" |
| Images.ShirtIsBare | frontend/src/pages/ProductDetail.js:64 | "shirt.png" is a bare file name |
| Images.DetailImageUrl | frontend/src/pages/ProductDetail.js:56-68 | the corrected product-page URL: one "/" between the API base and "uploads" |
| Images.DetailSingleSlash | frontend/src/pages/ProductDetail.js:65 | on the default configuration the corrected URL reads ".../api/uploads/shirt.png" |
| Pricing.SubtotalAppend | frontend/src/pages/Cart.js:166-169 | an extra line adds price times quantity when it has a numeric price, and nothing otherwise |
| Pricing.SubtotalNonNegative | frontend/src/pages/Cart.js:166-169 | the subtotal is non-negative when every line amount is |
| Pricing.Discount | frontend/src/pages/Cart.js:170 | 250 exactly for a premium member with a future expiry, else 0 |
| Pricing.Shipping | frontend/src/pages/Cart.js:171 | 100 exactly when the subtotal is positive, else 0 |
| Pricing.CartTotal | frontend/src/pages/Cart.js:172 | the total plus the discount is the subtotal plus shipping; nothing clamps it |
| Pricing.TotalNotClamped | frontend/src/pages/Cart.js:170-172 | a 100 premium cart totals -50 |
| Pricing.PaymentTotal | frontend/src/pages/Payment.js:88 | the payment total is the cart total less the coupon reduction |
| Pricing.CouponReductionRounds | frontend/src/pages/Payment.js:113-115 | the reduction is `subtotal × pct / 100` rounded half up |
| Pricing.CouponReductionUnique | frontend/src/pages/Payment.js:113-115 | only one integer rounds that way |
| Pricing.CouponReductionBounds | frontend/src/pages/Payment.js:113-115 | a percentage from 0 to 100 reduces by between 0 and the subtotal |
| Pricing.FinalTotal | frontend/src/pages/Payment.js:239 | cash on delivery adds 50; any other method keeps the total |
| Pricing.PaymentStatus | frontend/src/pages/Payment.js:253 | "Pending" exactly for cash on delivery, "Paid" otherwise |
| Catalog.ListingCopy | frontend/src/pages/Cart.js:204-215 | the copy keeps id, name, price, description, category, sub-category, colours and gender; the collection only under its schema key; everything else empty |
| Catalog.ListingCopyIdempotent | frontend/src/pages/Cart.js:204-215 | copying a copy changes nothing |
| Cart.Totals | frontend/src/pages/Cart.js:166-172 | subtotal, discount, shipping and their total |
| Cart.EmptyCartTotals | frontend/src/pages/Cart.js:166-172 | an empty cart ships free and totals minus the discount |
| Cart.QuantityChange | frontend/src/pages/Cart.js:175-187 | below 1 nothing is sent; otherwise the line's key with the new quantity |
| Cart.DecrementDisabled | frontend/src/pages/Cart.js:446 | the minus button is disabled at quantity 1 or below |
| Cart.EnabledDecrementSends | frontend/src/pages/Cart.js:175-187 | an enabled minus button always sends its update |
| Cart.CheckoutRoute | frontend/src/pages/Cart.js:229-235 | a guest goes to the login page remembering the cart; a signed-in user goes to checkout |
| Cart.MoveToWishlist | frontend/src/pages/Cart.js:202-227 | the product copy sent to the wishlist and the key of the same line removed from the cart |
| Checkout.CheckoutTotal | frontend/src/pages/Checkout.js:74-80 | the checkout total equals the cart total and the payment total without a coupon |
| Checkout.ValidateAddress | frontend/src/pages/Checkout.js:123-146 | login, then required fields, then phone, then pincode; the first failure is the message; valid exactly when all pass |
| Checkout.NameOptional | frontend/src/pages/Checkout.js:127-136 | the name never decides validity |
| Checkout.ToAddressData | frontend/src/pages/Checkout.js:148-157 | every field trimmed and the country fixed to India |
| Checkout.ValidatedDigitsUntouched | frontend/src/pages/Checkout.js:137-157 | on a valid form the phone and pincode are sent as typed, and still match their patterns |
| Checkout.SaveRequestFor | frontend/src/pages/Checkout.js:160-174 | a form with an id edits that address; without one it creates an address |
| Checkout.FirstDefault | frontend/src/pages/Checkout.js:95-102 | the id of the first default address, none exactly when no address is default |
| Checkout.SelectionAfterLoad | frontend/src/pages/Checkout.js:95-102 | the default address, else the only address, else the previous selection |
| Checkout.CheckoutPage.constructor | frontend/src/pages/Checkout.js:95-102 | no addresses, no selection, an empty form, no error, the dialog closed |
| Checkout.CheckoutPage.LoadAddresses | frontend/src/pages/Checkout.js:95-102 | the list is stored and the selection follows the load rule; nothing else changes |
| Checkout.CheckoutPage.SubmitAddress | frontend/src/pages/Checkout.js:119-190 | a failed check shows its message and sends nothing; a saved address resets the form, error and dialog; a failed save shows the server's message or the default |
| Checkout.CheckoutPage.Next | frontend/src/pages/Checkout.js:192-200 | without a selection an error shows and nothing navigates; otherwise the page goes to payment |
| Payment.Totals | frontend/src/pages/Payment.js:81-88 | subtotal, discount, coupon reduction, shipping and their total |
| Payment.PublicCoupons | frontend/src/pages/Payment.js:67-68 | exactly the public coupons, in their order |
| Payment.CouponState.constructor | frontend/src/pages/Payment.js:90-145 | no code, nothing applied, no error, no reduction |
| Payment.CouponState.Apply | frontend/src/pages/Payment.js:90-137 | nothing when a coupon is applied; a blank code only sets its message; otherwise the trimmed code is sent, and a grant applies the rounded reduction while a refusal clears it with the server's message or the default |
| Payment.CouponState.Remove | frontend/src/pages/Payment.js:139-145 | every coupon field returns to its initial value |
| Payment.OrderLine | frontend/src/pages/Payment.js:241-249 | the product's id, name, price and image with the line's quantity, size and colour |
| Payment.OrderLines | frontend/src/pages/Payment.js:241-249 | one posted line per cart line, in order |
| Payment.OrderLinesPriceSubtotal | frontend/src/pages/Payment.js:241-249 | the posted lines price the cart exactly as the subtotal does |
| Payment.OrderPayload | frontend/src/pages/Payment.js:237-256 | the posted lines, the selected address, the payment info and the final total |
| Payment.CodPayload | frontend/src/pages/Payment.js:239-254 | cash on delivery posts the total plus 50 as pending; an online payment posts the total as paid |
| Products.OversizedFitSelected | frontend/src/pages/Products.js:266-272 | an "Oversized" selection also keeps products whose fit is oversized |
| Products.ByGender | frontend/src/pages/Products.js:213-220 | keeps exactly the products matching a selected gender, in order; no selection keeps all |
| Products.ByCategory | frontend/src/pages/Products.js:223-238 | exact category matches when there are any, else name matches, in order; no selection keeps all |
| Products.BySubCategory | frontend/src/pages/Products.js:241-284 | keeps exactly the sub-category matches, in order |
| Products.ByCollection | frontend/src/pages/Products.js:287-295 | keeps exactly the collection matches, in order |
| Products.ByPrice | frontend/src/pages/Products.js:298-303 | a two-element range keeps exactly the products priced within it; any other range keeps all |
| Products.BySize | frontend/src/pages/Products.js:306-311 | keeps exactly the products offering a selected size |
| Products.ByFit | frontend/src/pages/Products.js:314-320 | keeps exactly the products of a selected fit |
| Products.ByColor | frontend/src/pages/Products.js:323-332 | keeps exactly the products offering a selected colour |
| Products.BySearch | frontend/src/pages/Products.js:335-345 | a blank query keeps all; otherwise exactly the products matching the lower-cased query |
| Products.FilteredSubsequence | frontend/src/pages/Products.js:209-345 | the chain drops products and reorders none |
| Products.NoFilterKeepsAll | frontend/src/pages/Products.js:209-345 | with nothing selected every product is kept |
| Products.PriceBoundsInclusive | frontend/src/pages/Products.js:298-303 | both price bounds are inclusive; a product without a price counts as 0 |
| Products.MissingArraysExcluded | frontend/src/pages/Products.js:306-332 | an active size or colour selection drops products without that array |
| Products.ComparatorPreorder | frontend/src/pages/Products.js:348-371 | each sort option is a total preorder |
| Products.FilterAndSort | frontend/src/pages/Products.js:209-374 | the listed products are the filtered ones, permuted into the selected order |
| Products.NarrowByCatalog | frontend/src/pages/Products.js:213-295 | the first four stages, each only when its selection is non-empty |
| Products.NarrowByVariant | frontend/src/pages/Products.js:298-332 | the price, size, fit and colour stages |
| Products.PassesFilters | frontend/src/pages/Products.js:209-345 | a kept product was loaded and passes every active stage |
| Products.KeptWhenPasses | frontend/src/pages/Products.js:209-345 | a loaded product passing every stage, with an exact category match, is kept |
| Products.ListedPassesFilters | frontend/src/pages/Products.js:209-374 | every listed product was loaded and passes the chain |
| Products.With | frontend/src/pages/Products.js:409-412 | only the given key changes |
| Products.HandleFilterChange | frontend/src/pages/Products.js:377-420 | back to page 1; "Shop All" resets the filters; a gender change clears the categories; the products are fetched again exactly for those two |
| Products.GenderClearsCategories | frontend/src/pages/Products.js:388-395 | after a gender change no category or sub-category survives |
| Products.ChangeUndone | frontend/src/pages/Products.js:409-412 | setting a key and setting it back restores the filters |
| Products.ChipOnly | frontend/src/pages/Products.js:1055-1075 | the default filters with only the chip's value selected |
| Products.ChipClick | frontend/src/pages/Products.js:1055-1075 | an active chip clears its key; an inactive one selects only itself, without a fetch |
| Products.ChipTwiceClears | frontend/src/pages/Products.js:1055-1075 | clicking a chip twice leaves every selection empty |
| Home.Section | frontend/src/pages/Home.js:219-268 | the first n catalogue products passing the test, in catalogue order, all of them when fewer exist |
| Home.BestSellers | frontend/src/pages/Home.js:213-216 | the five best-selling products, best first |
| Home.BestSellersAreBest | frontend/src/pages/Home.js:213-216 | no product left out sold more than one shown |
| Home.CategoryMix | frontend/src/pages/Home.js:271-278 | at most one card from each of five categories, t-shirts first |
| Home.ComputeSections | frontend/src/pages/Home.js:208-293 | each section is its three-product slice, plus the best sellers and the category mix |
| Home.EmptyCatalogueSkipped | frontend/src/pages/Home.js:208-212 | an empty catalogue yields empty sections |
| Home.SectionsSeparated | frontend/src/pages/Home.js:219-250 | cargo pants need "cargo" in the name, and the t-shirt section excludes the oversized sub-category |
| Home.NextSlide | frontend/src/pages/Home.js:297 | the carousel steps forward and wraps to the first slide |
| Home.SubscriptionCheckAgrees | frontend/src/pages/Home.js:148-161 | the home page's subscription test agrees with the order handler's |
| Home.MissingSubscriptionNotCurrent | frontend/src/pages/Home.js:148-154 | a missing subscription is never current |
| Home.ButtonPosition | frontend/src/pages/Home.js:350-392 | the default position exactly for a section not in the table |
| ProductDetail.ImageList | frontend/src/pages/ProductDetail.js:81-86 | the image list, else the single image, else nothing |
| ProductDetail.MainImagePath | frontend/src/pages/ProductDetail.js:81-86 | the entry at the index, or "" outside the list |
| ProductDetail.PrevIndex | frontend/src/pages/ProductDetail.js:251-256 | one step back, wrapping to the last image |
| ProductDetail.NextIndex | frontend/src/pages/ProductDetail.js:290-296 | one step forward, wrapping to the first image |
| ProductDetail.ArrowsInverse | frontend/src/pages/ProductDetail.js:251-296 | the two arrows undo each other |
| ProductDetail.DecQuantity | frontend/src/pages/ProductDetail.js:516 | one less, never below 1 |
| ProductDetail.IncQuantity | frontend/src/pages/ProductDetail.js:526 | one more, without an upper bound |
| ProductDetail.QuantityStepsInverse | frontend/src/pages/ProductDetail.js:516-526 | minus undoes plus |
| ProductDetail.PincodeCheck | frontend/src/pages/ProductDetail.js:110-120 | the fixed delivery estimate exactly for six characters, otherwise cleared |
| ProductDetail.CartImageName | frontend/src/pages/ProductDetail.js:543-548 | an http image is reduced to its last path segment; anything else is kept |
| ProductDetail.CartImageRoundTrip | frontend/src/pages/ProductDetail.js:543-548 | storing an uploaded image's name and resolving it again gives the same URL |
| ProductDetail.CartProduct | frontend/src/pages/ProductDetail.js:549-560 | the listing copy with the image reduced to its file name |
| ProductDetail.AddToCartDisabled | frontend/src/pages/ProductDetail.js:541 | disabled exactly at stock 0 |
| ProductDetail.DetailState.constructor | frontend/src/pages/ProductDetail.js:80-127 | the image list, the first image, quantity 1, no pincode, no reviews, an empty form |
| ProductDetail.DetailState.MainImage | frontend/src/pages/ProductDetail.js:56-86 | the resolved URL of the current image, or the fallback without images |
| ProductDetail.DetailState.Prev | frontend/src/pages/ProductDetail.js:251-256 | only the index moves one step back |
| ProductDetail.DetailState.Next | frontend/src/pages/ProductDetail.js:290-296 | only the index moves one step forward |
| ProductDetail.DetailState.Decrement | frontend/src/pages/ProductDetail.js:516 | only the quantity steps down |
| ProductDetail.DetailState.Increment | frontend/src/pages/ProductDetail.js:526 | only the quantity steps up |
| ProductDetail.DetailState.CheckPincode | frontend/src/pages/ProductDetail.js:110-120 | only the delivery estimate changes |
| ProductDetail.DetailState.SubmitReview | frontend/src/pages/ProductDetail.js:129-150 | a rejected form changes nothing; an accepted one puts the trimmed review first and clears the form |
| MyOrders.StatusColor | frontend/src/pages/Orders.js:45-58 | success, info, warning and error exactly for delivered, shipped, processing and cancelled; default otherwise |
| MyOrders.IconFor | frontend/src/pages/Orders.js:60-71 | an icon exactly for shipped, delivered and cancelled |
| MyOrders.DisplayStatus | frontend/src/pages/Orders.js:245-249 | the status with its first letter upper-cased; "Pending" for none |
| MyOrders.DisplayMatchesMailSubject | frontend/src/pages/Orders.js:245-249 | the page names a status exactly as the status mail's subject does |
| MyOrders.ToggleExpanded | frontend/src/pages/Orders.js:153-159 | an expanded id is removed, any other appended |
| MyOrders.ToggleTwiceRestores | frontend/src/pages/Orders.js:153-159 | expanding and collapsing restores the list |
| MyOrders.FilterTail | frontend/src/pages/Orders.js:156 | removing an id held only at the end gives back the rest |
| MyOrders.ToggleTwiceSameMembers | frontend/src/pages/Orders.js:153-159 | collapsing and re-expanding keeps the same ids expanded |
| MyOrders.VisibleItems | frontend/src/pages/Orders.js:360-363 | all items when expanded, else the first two |
| MyOrders.ActiveStep | frontend/src/pages/Orders.js:1139-1147 | step 4, 2 or 1 exactly for delivered, shipped or processing; 0 otherwise |
| MyOrders.StepsAgreeWithActive | frontend/src/pages/Orders.js:1138-1157 | the ticked steps are exactly those up to the active one |
| MyOrders.SuccessMeansLastStep | frontend/src/pages/Orders.js:45-58 | the success colour exactly when the last step is ticked |
| MyOrders.ReturnPayload | frontend/src/pages/Orders.js:189-203 | the order id, the product reference or else the line's id, and the reason |
| MyOrders.PayloadAccepted | frontend/src/pages/Orders.js:189-203 | the server accepts the body exactly when the order, a product reference and a reason are known |
| MyOrders.ReturnErrorMessage | frontend/src/pages/Orders.js:206-210 | the server's message, else the default text |
| Returns.SortedReturns | frontend/src/pages/Returns.js:149 | the same requests, latest first |
| Returns.NewestFirst | frontend/src/pages/Returns.js:149 | nothing is later than the first card |
| Returns.CardFor | frontend/src/pages/Returns.js:246-261 | received means completed whatever the status; else approved; else pending |
| Returns.LabelNamesStep | frontend/src/pages/Returns.js:82-97 | the chip names the stepper's step |
| Returns.RejectedShowsRequested | frontend/src/pages/Returns.js:246-261 | a rejected request shows "Requested" until received, then "Completed" |
| Returns.StatusColor | frontend/src/pages/Returns.js:56-67 | success, warning, error exactly for approved, pending, rejected |
| Returns.IconFor | frontend/src/pages/Returns.js:69-80 | the approved and rejected icons exactly for those statuses; pending otherwise |
| Returns.UnknownStatusFallbacks | frontend/src/pages/Returns.js:56-80 | an unknown status gets the pending icon but not the pending colour |
| Premium.CheckoutIsRupees249 | frontend/src/pages/Premium.js:150 | the checkout amount is 249 rupees in paise |
| Premium.ButtonFor | frontend/src/pages/Premium.js:203-205 | the "Subscribed" button exactly for a premium member |
| Premium.SubscriptionAloneGetsNoFlatDiscount | frontend/src/pages/Premium.js:203-205 | a member by subscription alone is shown as subscribed but gets no 250 discount |
| Premium.OneYearLater | frontend/src/pages/Premium.js:160 | the same date a year on, 29 February becoming 1 March |
| Premium.YearLength | frontend/src/pages/Premium.js:160 | a year is 365 days plus its leap day |
| Premium.LeapDayCount | frontend/src/pages/Premium.js:160 | the Gregorian leap rule as counts of multiples of 4, 100 and 400 |
| Premium.StepBy | frontend/src/pages/Premium.js:160 | a year passes a multiple of k exactly when it is one |
| Premium.NoConsecutiveLeap | frontend/src/pages/Premium.js:160 | two consecutive years are never both leap years |
| Premium.ExpiryDays | frontend/src/pages/Premium.js:158-160 | the expiry is 365 or 366 days later, the length of the following year |
| Premium.JustSubscribedIsPremium | frontend/src/pages/Premium.js:158-205 | straight after paying the member counts as premium |
| Premium.OnPaid | frontend/src/pages/Premium.js:154-179 | the profile is premium from now until a year later, and the same dates are posted with the yearly plan and the payment id |
| Images.PageImageUrl | frontend/src/pages/Wishlist.js:33-47 | the one `getImageUrl` of the cart, wishlist and product list pages: no path gives the fallback, a bare name the uploads URL under the page variable or the local server, anything else is kept |
| Wishlist.DefaultUploadUrl | frontend/src/pages/Wishlist.js:33-44 | a bare name is served from the local uploads folder by default |
| Wishlist.AddFromWishlist | frontend/src/pages/Wishlist.js:150 | one unit of the product is added |
| Dashboard.ProductsOf | admin/src/pages/Dashboard.js:64 | the first present product list of the response, else none |
| Dashboard.Summary | admin/src/pages/Dashboard.js:224-229 | a row with the product's id, name, sold count and revenue |
| Dashboard.Summaries | admin/src/pages/Dashboard.js:224-229 | one row per product |
| Dashboard.TopProducts | admin/src/pages/Dashboard.js:218-231 | at most five rows, best sellers first, each summarising a listed product |
| Dashboard.SummariesOfList | admin/src/pages/Dashboard.js:218-231 | every row summarises a product of the list |
| Dashboard.TopProductsAreBest | admin/src/pages/Dashboard.js:218-231 | no product left out sold more than one shown |
| Dashboard.DisplaySales | admin/src/pages/Dashboard.js:212-215 | the sales series, or the fixed series when it is empty |
| Dashboard.LoadedChartIsDummy | admin/src/pages/Dashboard.js:104 | the series is always emptied on load, so the fixed series shows |
| Dashboard.CategoryChart | admin/src/pages/Dashboard.js:93-98 | one slice per aggregate entry, in order |
| Dashboard.ChartKeepsTotal | admin/src/pages/Dashboard.js:93-98 | the slices add up to the aggregate's counts |
| Dashboard.StatsOf | admin/src/pages/Dashboard.js:84-90 | the cards show the analytics counts and revenue |
| Dashboard.RevenueCardIsDeliveredRevenue | admin/src/pages/Dashboard.js:84-90 | the revenue card shows the backend's delivered revenue |
| Dashboard.GrowthIcon | admin/src/pages/Dashboard.js:145-151 | no line without a figure; the up arrow exactly for positive growth |
| AdminOrders.OrderTotalAppend | admin/src/pages/Orders.js:343-353 | an extra line adds its amount to the order total |
| AdminOrders.OrderComparatorPreorder | admin/src/pages/Orders.js:357-391 | each sort option is a total preorder |
| AdminOrders.FilteredOrders | admin/src/pages/Orders.js:315-392 | exactly the matching orders, permuted into the selected order |
| AdminOrders.UnknownSortKeepsOrder | admin/src/pages/Orders.js:357-391 | an unknown sort keeps the loaded order |
| AdminOrders.DefaultCriteriaKeepAll | admin/src/pages/Orders.js:315-340 | the default panel keeps every order |
| AdminOrders.BoundsInclusive | admin/src/pages/Orders.js:334-353 | both date bounds are inclusive, and a total bound of 0 filters nothing |
| AdminOrders.ShownStatus | admin/src/pages/Orders.js:223 | never empty: a stored status is shown as is, a missing one as "pending" |
| AdminOrders.CsvRowReadsBack | admin/src/pages/Orders.js:214-225 | a row splits back into its five columns when no text column holds a comma |
| AdminOrders.CsvContentReadsBack | admin/src/pages/Orders.js:214-225 | the export splits back into one row per order |
| AdminOrders.WithStatusLogged | admin/src/pages/Orders.js:266-282 | each order with that id takes the status and one history entry by "Admin"; the others are unchanged |
| AdminOrders.WithStatus | admin/src/pages/Orders.js:1164-1170 | each order with that id takes the status alone |
| AdminOrders.StatusPathsAgree | admin/src/pages/Orders.js:266-282 | both update paths agree on statuses; only the dialog grows the history, by one; totals never change |
| AdminOrders.ConfirmDisabled | admin/src/pages/Orders.js:782 | enabled exactly with a new, different status while not saving |
| AdminOrders.StatusColorAsWritten | admin/src/pages/Orders.js:403-418 | the colour lookup as written, keyed on capitalised names |
| AdminOrders.OfferedStatusesUncoloured | admin/src/pages/Orders.js:118-124 | as written, none of the lower-case statuses offered by the dialog, the filter list (lines 797-804) or the row select (lines 1213-1219) gets a colour |
| AdminOrders.StatusColor | admin/src/pages/Orders.js:403-418 | the corrected lookup, keyed on the stored lower-case values |
| AdminOrders.OfferedStatusesColoured | admin/src/pages/Orders.js:118-124 | corrected, each offered status gets its table colour, and a missing status the pending one |
| AdminOrders.OrdersPage.constructor | admin/src/pages/Orders.js:94-115 | the loaded orders, page 0, ten rows, the default panel and sort, no dialog |
| AdminOrders.OrdersPage.ChangeFilters | admin/src/pages/Orders.js:179-181 | a filter or sort change goes back to page 0 |
| AdminOrders.OrdersPage.ChangePage | admin/src/pages/Orders.js:183-185 | only the page changes |
| AdminOrders.OrdersPage.ChangeRowsPerPage | admin/src/pages/Orders.js:187-190 | the new size, back on page 0 |
| AdminOrders.OrdersPage.FetchUserName | admin/src/pages/Orders.js:127-150 | a request exactly for a new non-blank id; the answer, or a placeholder, is cached and no entry is lost |
| AdminOrders.OrdersPage.OpenStatusDialog | admin/src/pages/Orders.js:248-252 | the dialog opens on the order with its current status |
| AdminOrders.OrdersPage.ConfirmStatusUpdate | admin/src/pages/Orders.js:254-306 | nothing without an order and a status; a save logs the status and closes the dialog; a failure changes no order |
| AdminOrders.OrdersPage.InlineStatusUpdate | admin/src/pages/Orders.js:1164-1180 | a save changes only that order's status; its spinner ends off either way |
| Paging.Slice | admin/src/pages/Orders.js:1093-1094 | `slice` clamped to the list |
| Paging.PageRows | admin/src/pages/Orders.js:1093-1094 | at most one page of rows, taken from that page's offset |
| Paging.PageCount | admin/src/pages/Orders.js:1063-1064 | the page count is the ceiling of rows over page size |
| Paging.RowOnItsPage | admin/src/pages/Orders.js:1063-1094 | every row appears on a counted page, at its position on it |
| Paging.PageOfRowExists | admin/src/pages/Orders.js:1063-1064 | a page whose first row exists is counted |
| Customers.CustomerComparatorPreorder | admin/src/pages/Customers.js:236-255 | each sort option is a total preorder |
| Customers.FilteredCustomers | admin/src/pages/Customers.js:226-256 | exactly the matching customers, permuted into the selected order |
| Customers.SearchIgnoresCaseForNames | admin/src/pages/Customers.js:227-228 | a name holding the term as typed matches, and the term's case does not matter once lowered |
| Customers.PhoneMatchedRaw | admin/src/pages/Customers.js:229 | a phone containing the term as typed matches |
| Customers.DefaultPanelListsAll | admin/src/pages/Customers.js:164-174 | the default panel lists every customer, newest join first |
| Customers.RangesInclusive | admin/src/pages/Customers.js:231-234 | both ends of each range are inclusive |
| Customers.StatusColor | admin/src/pages/Customers.js:257-268 | success, warning, error exactly for Active, Inactive, Blocked |
| Customers.OfferedStatusesColoured | admin/src/pages/Customers.js:153 | every status the page offers gets a colour, none the default |
| Customers.CsvRowReadsBack | admin/src/pages/Customers.js:210-213 | a row splits back into its six columns when no text column holds a comma |
| Customers.CsvContentReadsBack | admin/src/pages/Customers.js:210-213 | the export splits back into one row per customer |
| Customers.CustomersPage.constructor | admin/src/pages/Customers.js:164-174 | page 0, ten rows, newest first, the default panel, no dialog |
| Customers.CustomersPage.ChangePage | admin/src/pages/Customers.js:176-178 | only the page changes |
| Customers.CustomersPage.ChangeRowsPerPage | admin/src/pages/Customers.js:180-183 | the new size, back on page 0 |
| Customers.CustomersPage.Search | admin/src/pages/Customers.js:185-188 | the new term, back on page 0 |
| Customers.CustomersPage.ChangeStatus | admin/src/pages/Customers.js:190-193 | the new status, back on page 0 |
| Customers.CustomersPage.ChangeSort | admin/src/pages/Customers.js:195-198 | the new sort, back on page 0 |
| Customers.CustomersPage.ChangeRanges | admin/src/pages/Customers.js:173-174 | the range bounds change and the page is kept |
| Customers.CustomersPage.OpenDialog | admin/src/pages/Customers.js:200-203 | the dialog opens on the given customer, or empty |
| Customers.CustomersPage.CloseDialog | admin/src/pages/Customers.js:205-208 | the dialog closes and the selection is cleared |
| Scenarios.CashOnDeliveryCart | frontend/src/pages/Payment.js:81-88 | a 1000 cart paid cash on delivery totals 1100 on the page and is posted as 1150, pending |
| Scenarios.DiscountAppliedTwice | backend/controllers/orderController.js:31-39 | the page takes 250 off a premium 1000 cart (850), and the handler takes the subscription cost off again (600) |
| Scenarios.HistoryShowsNoDiscount | backend/controllers/orderController.js:85-103 | the history reports no discount for such an order |
| Sorting.SortSeq | frontend/src/pages/Products.js:348-371 | a sorted permutation of the list |
| Sorting.SortInPlace | frontend/src/pages/Products.js:348-371 | the array ends sorted and is a permutation of what it held |
| Sorting.SortedCopy | admin/src/pages/Orders.js:357-391 | the copy ends sorted and is a permutation of the list |
| Sorting.SortUnorderedKeeps | admin/src/pages/Customers.js:252-253 | a comparator that always answers 0 keeps the list as it is |
| Sorting.TopByKey | admin/src/pages/Dashboard.js:220-224 | the n entries with the largest key, largest first, drawn from the list |
| Sorting.TopByKeyLeftovers | admin/src/pages/Dashboard.js:220-224 | nothing left out has a larger key than anything kept |
| Strings.ToLower | frontend/src/pages/Products.js:335-345 | each letter lower-cased, the length kept |
| Strings.ToLowerIdempotent | frontend/src/pages/Products.js:335-345 | lower-casing twice is lower-casing once |
| Strings.Capitalize | frontend/src/pages/Orders.js:247 | the first letter upper-cased, the rest unchanged |
| Strings.TrimEmpty | frontend/src/pages/Payment.js:93 | a trimmed value is empty exactly when it is all white space |
| Strings.TrimIdempotent | backend/models/Coupon.js:5 | trimming twice is trimming once |
| Strings.LastN | backend/controllers/adminController.js:277 | the last n characters, all of them when shorter |
| Strings.AfterLast | frontend/src/pages/ProductDetail.js:543-548 | the tail after the last separator, which holds none |
| Strings.SplitJoin | admin/src/pages/Customers.js:210-213 | joining separator-free pieces and splitting again gives the pieces back |
| Sequences.Filter | admin/src/pages/Customers.js:226 | `filter`: exactly the passing elements, in order |
| Sequences.Take | frontend/src/pages/Home.js:219-222 | `slice(0, n)`: the first n elements, all of them when fewer |

## Left out

- Rendering, routing, styling, snackbars, timers and the loading flags of the React pages are left out. Only the state the handlers compute is modelled.
- Network calls are replaced by their outcomes. For axios, the payment gateway and the coupon service, each call's reply is a parameter, and the request sent is a result.
- `localStorage`, `window.URL` and the CSV download itself are left out. The CSV date text is a parameter.
- Mail transport, OTP generation and token randomness are left out. The helpers' outcomes are modelled from a delivery flag.
- Mongoose's `populate`, `select`, timestamps and ObjectId generation are left out. Ids and times arrive as parameters.
- Every backend handler's `catch` path is left out. Ids are taken to be well-formed ObjectIds, the database never fails, and a save never fails validation. What each kind of catch answers:
  - the order controller: 500 with `error.message` or a handler-specific default (backend/controllers/orderController.js:62-66, 108-112, 201-206, 226-230);
  - the admin return routes: 500 with `err.message` (backend/routes/admin.js:66-67, 94-95, 110-111);
  - the user routes: 500 "Server error" (backend/routes/user.js:38-39, 95-96, 112-113), except PATCH /profile, which answers 400 with `err.message` (backend/routes/user.js:56-57);
  - the admin controller's register, login, getProfile, updateProfile, changePassword and logout: the error is passed to `next(error)` (backend/controllers/adminController.js:51-52, 107-108, 141-142, 191-192, 230-231, 244-245);
  - dashboardAnalytics: 500 "Error fetching dashboard analytics" (backend/controllers/adminController.js:293-300).
  A malformed id such as "abc" makes `findById`/`findOne` throw a cast error, which reaches these paths. The model answers such an id with the 404 of an id nobody holds.
- EmailService.InheritedText: the printed form of an inherited member is the one Node's engine gives (`Function.prototype.toString` of a built-in); the HTML escaping of the mail body is not modelled.
- UserRoutes.PatchProfile: never fails once the user is found; the 400 that `user.save()` answers for a validation error (backend/routes/user.js:56-57) is left out.
- OrderController.GetMyOrderById: its "404 exactly when no such order exists" holds for well-formed ids only; the 500 path is left out (see the line above).
- OrderController.UpdateOrderStatus: the 404 covers well-formed unknown ids only; the 500 path is left out.
- AdminRoutes.UpdateReturnStatus: the 404 covers well-formed unknown ids only; the 500 path is left out.
- AdminRoutes.MarkReceived: the 404 covers well-formed unknown ids only; the 500 path is left out.
- A missing field and a falsy one are not told apart: both are `""`, `0` or `None`. Where JavaScript distinguishes them the model follows the falsy case:
  - `stock === 0` is false for a missing stock, so the add-to-cart button stays enabled (frontend/src/pages/ProductDetail.js:541). ProductDetail.AddToCartDisabled takes a numeric stock.
  - A template literal prints a missing address field as "undefined" (backend/routes/user.js:21). UserRoutes.AddressLine joins an empty text.
- The dashboard handler's category aggregate (`categoryStats`, backend/controllers/adminController.js:266-269) is not part of the modelled payload. The dashboard page's chart takes it as a parameter (Dashboard.CategoryChart).
- Password hashing is left out: `matchPassword` is a function parameter.
- The coupon service's redemption and `usedCount` increment are left out. The coupon controller is not part of this model, so the schema is modelled but not the atomic consumption.
- The order controller's `getAllOrders` and `getOrderById` (backend/controllers/orderController.js:119-161) are left out. They are plain admin queries with no logic beyond a lookup and a sort.
- The Collections page, the layouts, the navigation bar and the upload route are left out. They are context, not part of the modelled pages.
- Floating point is left out: prices, totals and percentages are integers. `toFixed`, `toLocaleString` and average ratings are not modelled.
- `Math.round` is modelled for non-negative and negative values as rounding half up (`(n + 50) / 100` with floor division), which is the JavaScript rule.
- Case mapping covers ASCII letters only, and `trim` covers ASCII white space only. There is no Unicode handling.
- `encodeURIComponent` is not modelled.
- `localeCompare` is modelled as a lexicographic order on code points, and a date sort compares timestamps.
- An unparsable date (`NaN`) is not modelled, and neither are time zones.
- Sorting: the model proves a sort yields a sorted permutation but not stability.
- The customers page's fixed customer list is a constructor parameter.
- Pricing.SubtotalAppend: the checkout and payment pages read `item.product.price` unguarded, which throws on a line without a product. Their totals therefore require every line to be priced (Checkout.CheckoutTotal, Payment.Totals, Payment.OrderLines, Payment.OrderPayload).
- Cart.QuantityChange: requires the line to carry a product. Lines without one are not rendered (frontend/src/pages/Cart.js:375-376), so their buttons can never be pressed.
- ProductDetail.DetailState.Prev: requires more than one image, because the arrows are only shown then.
- AdminController.UpdateProfile: requires the signed-in admin to exist, because the authentication middleware loaded it before the handler runs.

Where the system's written design and the code differ, the model follows the code:
- No status transition is checked. Any status replaces any other (OrderController.ApplyStatusLastWins), and the backend appends no history entry.
- Totals are not clamped at 0 on the client (Pricing.TotalNotClamped). Only the backend's subscriber reduction stops at 0.
- The flat 250 premium discount on the pages and the subscription cost deducted by the order handler are both applied (Scenarios.DiscountAppliedTwice).
- The payment page posts no original price, so the order history shows no discount (Scenarios.HistoryShowsNoDiscount).
- A return can be set back to "pending", which mails a rejection (EmailService.PendingMailsRejection). Received can be set whatever the status.
- The status mail has no sentence for "confirmed", which falls back to the generic one. "processing" has one.
- The listing search lower-cases the query but does not trim it before matching (Products.BySearch).
- The cart posts the collection to the wishlist under the key `collection`, not `collectionName` (Catalog.ListingCopy).
- The payment total uses the page's payment method, while the status uses the type passed in (Payment.OrderPayload).
- A total bound of 0 on the admin orders page filters nothing (AdminOrders.BoundsInclusive).
- On the customers page the range fields keep the current page (Customers.CustomersPage.ChangeRanges).
- The returns page sorts by `date || createdAt`.
- A member by subscription alone is shown as premium but does not get the flat discount (Premium.SubscriptionAloneGetsNoFlatDiscount).
- The profile PATCH overwrites each truthy field (UserRoutes.ApplyPatch).

## Findings

| source | as written | input that shows it | evidently intended | confidence | as-written member | corrected member |
|---|---|---|---|---|---|---|
| frontend/src/pages/ProductDetail.js:56-68 | `buildApiUrl("")` already ends in "/", and the code appends "/uploads/" after it | image "shirt.png" on the default configuration gives "http://localhost:8000/api//uploads/shirt.png" | one "/" between the API base and "uploads"; the Home page repeats the same pattern (frontend/src/pages/Home.js:619, 790), while the cart and wishlist put "/uploads/" after the backend root instead | medium, not executed | Images.DetailImageUrlAsWritten, Images.DetailDoubleSlash | Images.DetailImageUrl, Images.DetailSingleSlash |
| admin/src/pages/Orders.js:403-418 | `getStatusColor` matches "Delivered", "Confirmed", "Shipped", "Pending", "Cancelled", but the page stores and offers lower-case values (118-124, 1145) | status "pending" gives "default" instead of "warning" | the lookup keyed on the stored lower-case values, with the colours of the page's own status table | medium, not executed | AdminOrders.StatusColorAsWritten, AdminOrders.OfferedStatusesUncoloured | AdminOrders.StatusColor, AdminOrders.OfferedStatusesColoured |
