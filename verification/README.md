# BiteRush food ordering: the request-handling core in Dafny

BiteRush is a Next.js food-ordering application backed by MongoDB through
Mongoose. This project models the decisions its server makes.

- The edge middleware sends a page request to sign-in, sends it to the
  dashboard, or lets it through.
- Customers place orders against the product catalogue, page through their
  own order history, validate vouchers, verify their e-mail with a one-time
  code, reset a forgotten password, and edit their profile.
- Administrators create products, vouchers and accounts, and list and search
  the users.
- A statistics route ranks the three busiest customers.
- Visitors leave feedback.

Every route handler is a pure function. It takes the session (if any), the
parsed request, the collections it reads and the current time. It returns
the HTTP status with the reply body, and the collection as the handler
leaves it.

The database is abstracted as follows:

- A collection is a sequence of records in insertion order, so "newest
  first" is the reverse order.
- `findOne` / `findById` return the first match.
- `save()` and `create()` run the schema validators and the unique indexes.
  A failure becomes the route's 500.
- `findByIdAndUpdate` runs no validators, as Mongoose does by default.

JavaScript's `undefined` is `Option.None`, and truthiness is written out
(`Truthy`, `TruthyNumber`). bcrypt is a parameter `hash: string -> Digest`,
and the clock is a parameter `now`.

The files follow the application's structure:

| file | models |
|---|---|
| `common.dfy` | the `Option`, `Reply` and `Handled` vocabulary, sessions, JSON documents, `findOne`, JavaScript `trim` |
| `listing.dfy` | the find / sort newest first / skip / limit / `Math.ceil(total / limit)` pipeline of the listing routes |
| `middleware.dfy` | page access control and the matcher that decides which paths it sees |
| `products.dfy`, `orders.dfy` | the product and order records, product creation and filtering, order placement |
| `users.dfy` | the account record, its validators, defaults, unique indexes and JSON form |
| `credentials.dfy` | e-mail code verification and password reset |
| `profile.dfy` | the caller's profile: GET, PUT, PATCH |
| `admin.dfy` | create-admin, and the admin user listing and creation |
| `user_orders.dfy` | the caller's order history |
| `vouchers.dfy` | the voucher record, creation and validation |
| `top_users.dfy` | the top-three customers aggregation |
| `feedback.dfy` | the feedback record and submission |

## Model

| member | source | states |
|---|---|---|
| Common.Trim | src/models/feedback.ts:10 | the trimmed string has no blank at either end and is no longer than the input |
| Common.TrimIsInfix | src/models/Product.ts:23 | trimming removes only leading and trailing blanks; the result is the contiguous middle of the input |
| Common.TrimIdempotent | src/models/Product.ts:23 | trimming a trimmed name changes nothing, so a stored product name stays the same when saved again |
| Common.FindFirst | src/app/api/vouchers/validate_voucher/route.ts:17 | `findOne` returns the first matching document, or nothing only when no document matches |
| Listing.NewestFirst | src/app/api/user/orders/route.ts:28-29 | the listing holds exactly the documents matching the query, as many as `countDocuments` counts |
| Listing.Count | src/app/api/admin/users/route.ts:62 | the count of matches is zero exactly when no document matches |
| Listing.FilterLength | src/app/api/admin/users/route.ts:55-62 | the documents listed before paging are exactly as many as `countDocuments` reports |
| Listing.Slice | src/app/api/user/orders/route.ts:30-31 | skip then limit returns the documents from position skip on; a limit of 0 means no limit; a negative limit returns at most its absolute value |
| Listing.Page | src/app/api/admin/users/route.ts:52-59 | a negative skip `(page-1)*limit` is an error; otherwise the page is exactly the cursor slice from position skip with that limit, so element i is match `skip+i` and a positive limit bounds the page size |
| Listing.PageCount | src/app/api/admin/users/route.ts:70 | `pages` is `null` exactly for limit 0; for a positive limit it is the least count of pages that covers every match (the ceiling) |
| Listing.NewestFirstIsDescending | src/app/api/user/orders/route.ts:29 | when documents were stored oldest first, the listing and each of its pages are in non-increasing creation order |
| Listing.PageKeepsDescending | src/app/api/admin/users/route.ts:57-59 | a page cut from a newest-first listing is itself newest first |
| Listing.FirstPage | src/app/api/admin/users/route.ts:29-30 | the first page holds the `limit` newest matches, or all matches when there are fewer |
| Listing.PagesAreConsecutive | src/app/api/admin/users/route.ts:52-58 | page p holds exactly matches `(p-1)*limit` up to `p*limit`, so pages neither overlap nor skip documents |
| Middleware.Decide | src/middleware.ts:5-50 | a request with a token is never sent to sign in; a request without one is never sent to the dashboard |
| Middleware.SignedOutRedirectsExactlyProtectedAreas | src/middleware.ts:12-20 | without a token, a request redirects to sign-in if and only if its path starts with `/profile`, `/dashboard` or `/admin`, and otherwise passes |
| Middleware.SignedOutPublicPathsPass | src/middleware.ts:12-20 | without a token, `/rider…`, `/auth/…` and `/` pass |
| Middleware.SignedInLeavesAuthPages | src/middleware.ts:25-32 | with a token, sign-in, sign-up, verify and `/` redirect to the dashboard whatever the role |
| Middleware.AdminPathIsNotAuthPage | src/middleware.ts:25-45 | an `/admin` path is not an auth page and not in the rider area, so only the admin role test applies to it |
| Middleware.RiderPathIsNotAuthPage | src/middleware.ts:25-45 | a `/rider` path is not an auth page and not in the admin area |
| Middleware.AdminAreaNeedsAdminRole | src/middleware.ts:35-40 | with a token, the admin area redirects to the dashboard exactly when the role is not `"admin"`; a missing role counts as not admin |
| Middleware.RiderAreaNeedsRiderRole | src/middleware.ts:43-45 | with a token, the rider area redirects exactly when the role is not `"rider"`, so admins are bounced too |
| Middleware.SignedInOtherPathsPass | src/middleware.ts:49 | with a token, every path outside the auth pages and the admin and rider areas passes |
| Middleware.AdminPrefixIsNotASegment | src/middleware.ts:38 | the decision matches by raw prefix: `/admin` followed by anything, `/administrator` included, decides like `/admin` |
| Middleware.ProfilePrefixIsNotASegment | src/middleware.ts:15 | `/profile` followed by anything decides like `/profile` |
| Middleware.Handle | src/middleware.ts:53-63 | a path outside the matcher is served as it is, and no request with a token is sent to sign in |
| Middleware.AdministratorIsServed | src/middleware.ts:53-63 | the matcher does not match `/administrator`, so it is served to anyone; `/admin` without a token still goes to sign-in |
| Middleware.MatchedAdminPathIsAdminArea | src/middleware.ts:60 | among the paths the matcher runs on, starting with `/admin` means being `/admin` or below it, so the prefix test only sees whole segments |
| Products.ParseCategory | src/models/Product.ts:34-38 | a category is accepted exactly when it names one of burger, pizza, pasta, dessert, drink, other |
| Products.Build | src/models/Product.ts:18-65 | creation succeeds exactly when every required field is present and non-empty (the name after trimming), the price is not negative, the category is in the enumeration and the rating lies in [0, 5]; the result is schema-valid, carries the trimmed name and the submitted description, price, category, image, rating and review count, with rating 0, no reviews, in stock and not featured by default |
| Products.Create | src/app/api/products/route.ts:46-68 | only an admin session creates; a missing session or a non-admin role gets 401; for an admin the request succeeds exactly when the submitted fields build a valid product, and otherwise fails with 500; the reply is that built product, appended to the catalogue; a refusal leaves the catalogue unchanged |
| Products.List | src/app/api/products/route.ts:11-43 | the listing holds exactly the catalogue products the filter document matches |
| Products.NoFilterListsEverything | src/app/api/products/route.ts:23-33 | without parameters every product is listed, newest first |
| Products.FeaturedFilterOnlyForTrue | src/app/api/products/route.ts:26 | any `featured` value other than the exact string `"true"` filters nothing |
| Products.PriceRangeIsInclusive | src/app/api/products/route.ts:27-30 | minPrice and maxPrice combine into one inclusive range |
| Products.CreatedProductIsListed | src/app/api/products/route.ts:33-58 | a product the route creates is listed by every query it matches |
| Orders.ParsePayment | src/models/Order.ts:69-73 | a payment method is accepted exactly when it is "Cash on Delivery", "Bkash" or "Card or Debit Card" |
| Orders.ParseDelivery | src/models/Order.ts:74-78 | a delivery method is accepted exactly when it is Saver, Standard or Priority |
| Orders.CheckItem | src/app/api/orders/route.ts:44-66 | an item passes exactly when its product exists, its price equals the catalogue price exactly, and the product is in stock; the checks run in that order: a missing or unknown product gives not-found with the requested id, then a price differing from the catalogue gives a mismatch naming the product, then an unavailable product gives out-of-stock naming it |
| Orders.FirstItemErrorIsEarliest | src/app/api/orders/route.ts:43-67 | the loop's verdict is an error exactly when some item fails, and it is the error of the earliest failing item |
| Orders.VerifyItems | src/app/api/orders/route.ts:43-67 | the loop returns the first failing item's error, and nothing exactly when every item passes |
| Orders.BuildItem | src/models/Order.ts:49-61 | an item is accepted exactly when product, name, quantity, image and price are all present and the strings non-empty; the stored item carries exactly the submitted product, name, quantity, image and price |
| Orders.BuildItems | src/models/Order.ts:49-61 | the items are stored one for one, or the save fails when some item misses a required field |
| Orders.BuildAddress | src/models/Order.ts:62-68 | an address is accepted exactly when address, city, postal code and area are all present and non-empty; the stored address carries the submitted parts, and the optional details as sent |
| Orders.BuildOrder | src/app/api/orders/route.ts:70-84 | the schema accepts the order exactly when every item and the address are accepted and the payment and delivery methods are in their enumerations; a created order carries the built items and address and the submitted methods, is pending, belongs to the session user, has tax 0, is undelivered with no rider, and has its payment flag consistent with its timestamp |
| Orders.PlaceOrder | src/app/api/orders/route.ts:9-97 | 401 without a session user; 400 for missing or empty items; with a user and items, the first failing item's error gives 400; when every item passes, the order built from the request is appended and returned with 201, and a request the schema refuses gives 500; any refusal leaves the orders unchanged |
| Orders.PaidIffNotCashOnDelivery | src/app/api/orders/route.ts:81-82 | an order is paid exactly when the method is not cash on delivery, and then it was paid at placement time |
| Orders.AmountsAreCopiedNotComputed | src/app/api/orders/route.ts:76-80 | items, shipping, tip and total amounts are stored as submitted (schema defaults 0, 45, 0, 0 when absent) and do not depend on the items |
| Orders.StoredPricesMatchCatalogue | src/app/api/orders/route.ts:53-61 | every stored line item's price is the catalogue price of an in-stock product |
| Orders.CompleteOrderIsPlaced | src/app/api/orders/route.ts:9-89 | a signed-in user's request whose items all pass the catalogue checks and carry every required field, with a complete address and known payment and delivery methods, is placed with 201, stored as a pending order of that user with one item per submitted item |
| Orders.PlacementKeepsFlagsConsistent | src/app/api/orders/route.ts:69-84 | placing an order, whatever the outcome, keeps every stored order's paid and delivered flags consistent with their timestamps, and a placed order is paid exactly when its payment method is not cash on delivery |
| Users.ParseRole | src/models/User.ts:29 | a role is accepted exactly when it is user, admin or rider |
| Users.ParseRoleName | src/models/User.ts:29 | every role's name parses back to that role |
| Users.NewUser | src/models/User.ts:26-51 | a new account has role user, light theme, status Online, nothing verified and no code pending, and passes the validators when its names and e-mail are non-empty |
| Users.Insert | src/models/User.ts:26-51 | a new account is saved exactly when it passes the validators and its e-mail and (present) contact number are not already held; saving keeps ids, e-mails and numbers unique |
| Users.SaveExisting | src/models/User.ts:26-51 | re-saving an account succeeds exactly when it passes the validators, and keeps the store unique when its keys did not change |
| Users.Document | src/models/User.ts:3-22 | the JSON form of an account holds exactly its present fields, each with its value |
| Credentials.Verified | src/app/api/verify-code/route.ts:33-35 | verification sets the e-mail verified, clears the code and its expiry, and changes nothing else |
| Credentials.VerifyCode | src/app/api/verify-code/route.ts:4-49 | 404 exactly for an unknown account; 400 for a wrong or expired code; success exactly for a matching unexpired code on a valid account, and then only that account changes |
| Credentials.CodeExpiryBoundary | src/app/api/verify-code/route.ts:24 | a code whose expiry equals now is accepted, one strictly before now is not, and without an expiry only the code comparison decides |
| Credentials.CodeIsSingleUse | src/app/api/verify-code/route.ts:23-34 | after a successful verification the same code is refused at any later time |
| Credentials.MissingCodeMatchesClearedCode | src/app/api/verify-code/route.ts:23 | an account whose code was cleared accepts a request carrying no code |
| Credentials.PasswordReplaced | src/app/api/reset-password/route.ts:29-31 | a reset stores the new digest, clears the token and its expiry, and changes nothing else |
| Credentials.ResetPassword | src/app/api/reset-password/route.ts:6-45 | 400 exactly when no account passes the filter: an expiry after now and, when a token is submitted, that token; an absent token drops the token condition; success replaces the first such account's password and clears its token; every failure leaves the accounts unchanged |
| Credentials.ResetNeedsUnexpiredToken | src/app/api/reset-password/route.ts:13-16 | success requires an account whose expiry is strictly after now and which holds the token when one is submitted; an expiry equal to now is refused |
| Credentials.ResetTouchesOnlyTheMatchedAccount | src/app/api/reset-password/route.ts:29-32 | every account other than the token holder is unchanged |
| Credentials.AbsentTokenResetsFirstPendingAccount | src/app/api/reset-password/route.ts:7-16 | a body without a token resets the password of the first account with a pending reset, whatever token it holds |
| Credentials.ResetPasswordWithToken | src/app/api/reset-password/route.ts:6-45 | an absent token gets 400; success requires an account holding the submitted token with an expiry after now; with a token it behaves as the route |
| Credentials.TokenRequiredProtectsOtherAccounts | src/app/api/reset-password/route.ts:13-32 | with the token required, an account holding a different token, or none, keeps its password |
| Credentials.ResetTokenIsSingleUse | src/app/api/reset-password/route.ts:13-31 | a token held by one account is refused on a second attempt, whatever the time |
| Profile.View | src/app/api/user/update/route.ts:22-24 | the profile reply holds every present field except the password digest, reset token and expiry, e-mail code and phone code |
| Profile.GetProfile | src/app/api/user/update/route.ts:11-38 | 401 without a session user; success exactly when the caller's account exists, returning its profile view |
| Profile.Merge | src/app/api/user/update/route.ts:79-85 | the update touches only the names, bio, contact number, theme and status |
| Profile.UpdateProfile | src/app/api/user/update/route.ts:41-109 | 401 without a caller; 400 for a missing name; 400 when another account holds a truthy new number; 404 when the caller's account is gone; 500 when the unique index refuses the number; the update succeeds in every other case, and then only the caller's account changes, to the merged record |
| Profile.OwnPhoneIsNoConflict | src/app/api/user/update/route.ts:64-76 | resubmitting the caller's own number succeeds |
| Profile.AnotherUsersPhoneIsRefused | src/app/api/user/update/route.ts:64-75 | a non-empty number held by another account gets 400 |
| Profile.EmptyPhoneIsWrittenUnchecked | src/app/api/user/update/route.ts:64-83 | an empty number skips the uniqueness check: it is never refused as a taken number; when another account already holds an empty number the unique index refuses with 500, and otherwise the update succeeds and stores the empty number |
| Profile.UpdateKeepsOtherFields | src/app/api/user/update/route.ts:79-92 | credentials, role and verification flags never change; an unset field keeps its value; other accounts are untouched |
| Profile.UpdateSkipsEnumValidation | src/app/api/user/update/route.ts:88-92 | a theme outside the enumeration is stored, because the update runs no validators |
| Profile.UpdateKeepsStoreWellFormed | src/app/api/user/update/route.ts:63-92 | PUT keeps ids, e-mails and present numbers unique across accounts |
| Profile.UpdatePicture | src/app/api/user/update/route.ts:112-155 | 401 without a caller; 400 without a picture; with a caller and a picture, the update succeeds exactly when the caller's account exists and otherwise gives 404; success changes only the caller's picture |
| Profile.RepliesHideCredentials | src/app/api/user/update/route.ts:22-24 | no reply of GET, PUT or PATCH carries a hidden credential field |
| Admin.CreateAdminGate | src/app/api/admin/create-admin/route.ts:16-21 | the request passes exactly for an admin session; a session without a user throws (500); otherwise 403 |
| Admin.NewAdmin | src/app/api/admin/create-admin/route.ts:63-73 | the account is an admin with verified e-mail whatever the input, and its phone is verified exactly when a number was given |
| Admin.CreateAdmin | src/app/api/admin/create-admin/route.ts:10-100 | missing fields give 400; a taken e-mail gives 400 before the number is checked; a truthy number another account holds gives 400; past those checks the request succeeds exactly when the save accepts the new admin, and otherwise fails with 500; success appends exactly the new admin and replies with its id, names, e-mail, role and number; every refusal leaves the accounts unchanged |
| Admin.CreatedAdminEntersAdminArea | src/app/api/admin/create-admin/route.ts:68 | a promoted account's role admits it to the admin area |
| Admin.CreateAdminKeepsStoreWellFormed | src/app/api/admin/create-admin/route.ts:39-76 | create-admin keeps ids, e-mails and present numbers unique |
| Admin.EmptyPhoneSkipsDuplicateCheck | src/app/api/admin/create-admin/route.ts:48-76 | an empty number skips the 400 check and hits the unique index instead (500) |
| Admin.ListView | src/app/api/admin/users/route.ts:56 | a listed account holds every present field except the password digest, the codes and the reset token |
| Admin.Found | src/app/api/admin/users/route.ts:38-49 | the found accounts are exactly those the search and role filter select |
| Admin.ListUsers | src/app/api/admin/users/route.ts:17-76 | 403 for a non-admin; 500 for a negative skip; otherwise the listing view of each account of the page of matches from position skip, at most `limit` of them for a positive limit, the total of all matches and the ceiling page count |
| Admin.UnknownRoleIsIgnored | src/app/api/admin/users/route.ts:47-49 | a role parameter outside the enumeration gives the same answer as no role |
| Admin.RoleFilterSelectsRole | src/app/api/admin/users/route.ts:47-49 | a known role parameter lists only accounts with that role |
| Admin.ListingShowsResetExpiry | src/app/api/admin/users/route.ts:56 | the listing keeps the reset token's expiry that the profile route hides, but never the digest or the token |
| Admin.AccountFromBody | src/app/api/admin/users/route.ts:114-118 | the account carries the body's fields, including any one-time codes, reset token and expiries the client sends, plus the digest and a verified e-mail, with the schema defaults for theme, status and the phone flag; a role outside the enumeration fails |
| Admin.CreateUser | src/app/api/admin/users/route.ts:79-133 | 403 for a non-admin; 400 for a missing field; 409 for a taken e-mail; past those checks the request succeeds exactly when the role is in the enumeration and the save accepts the account, and otherwise fails with 500; success appends the account and replies with its scrubbed view; every refusal leaves the accounts unchanged |
| Admin.DuplicateEmailStatusesDiffer | src/app/api/admin/users/route.ts:101-107 | a taken e-mail gets 400 from create-admin but 409 from the user route |
| Admin.InvalidEnumIsServerError | src/app/api/admin/users/route.ts:114-120 | an unknown role or theme passes the route's checks and fails on save with 500, storing nothing |
| Admin.CreateUserKeepsStoreWellFormed | src/app/api/admin/users/route.ts:101-120 | the user route keeps ids, e-mails and present numbers unique |
| Admin.ClientCodesAreStoredButHidden | src/app/api/admin/users/route.ts:114-128 | one-time codes, a reset token and its expiry sent in the body are stored on the new account; the reply omits the codes and the token |
| Admin.CreatedUserHeadsListing | src/app/api/admin/users/route.ts:55-62 | a created account heads the unfiltered first page, and the total counts every account |
| UserOrders.Mine | src/app/api/user/orders/route.ts:28 | the history holds exactly the caller's orders, as many as `countDocuments` counts |
| UserOrders.History | src/app/api/user/orders/route.ts:9-50 | 401 exactly without a session user; 500 only for a negative skip; otherwise the page of the caller's orders, the total of all of them and the ceiling page count |
| UserOrders.OthersOrdersNeverListed | src/app/api/user/orders/route.ts:28 | another account's order is never listed |
| UserOrders.NoOrdersIsEmptyHistory | src/app/api/user/orders/route.ts:23-42 | a caller without orders gets an empty page 1, 0 pages and a total of 0 |
| UserOrders.NewestOrderHeadsHistory | src/app/api/user/orders/route.ts:28-35 | the caller's newest order heads the default page, and the total counts every order of theirs |
| Vouchers.AllowList | src/app/api/vouchers/vouchers_create/route.ts:21 | only a special voucher keeps an allow-list, and a special voucher without one gets the empty list |
| Vouchers.CreateVoucher | src/app/api/vouchers/vouchers_create/route.ts:5-31 | 400 exactly when code, description or discount is falsy (a zero discount included); a code already stored gives 500; success exactly when the code is also new, storing the fields as submitted and `isSpecial` false by default; a refusal stores nothing |
| Vouchers.CreateKeepsCodesUnique | src/app/api/vouchers/schema.ts:4-8 | creation keeps voucher codes unique |
| Vouchers.NegativeDiscountIsAccepted | src/app/api/vouchers/vouchers_create/route.ts:12-14 | a negative discount passes the truthiness check and is stored |
| Vouchers.ValidateVoucher | src/app/api/vouchers/validate_voucher/route.ts:6-35 | 400 exactly for a missing parameter, 404 exactly for an unknown code, 403 exactly for an e-mail absent from a special voucher's list; success returns the matched voucher's code, discount and description |
| Vouchers.OrdinaryVoucherIsOpenToAll | src/app/api/vouchers/validate_voucher/route.ts:23 | a non-special voucher validates for any e-mail |
| Vouchers.CreatedVoucherValidates | src/app/api/vouchers/validate_voucher/route.ts:17-31 | a voucher just created validates with its own code for exactly the e-mails its allow-list admits, returning what was submitted |
| Vouchers.SpecialWithoutListIsClosed | src/app/api/vouchers/vouchers_create/route.ts:21 | a special voucher created without a list validates for nobody |
| TopUsers.Occurrences | src/app/api/top-users/route.ts:17 | a key is counted at least once exactly when some document carries it |
| TopUsers.Distinct | src/app/api/top-users/route.ts:15-16 | the groups are the document keys, each exactly once |
| TopUsers.Top | src/app/api/top-users/route.ts:21-23 | the ranking lists the requested number of groups (or all of them), each with its own count |
| TopUsers.TopIsRanked | src/app/api/top-users/route.ts:21 | the ranking lists each group once, in non-increasing order of count |
| TopUsers.TopIsTop | src/app/api/top-users/route.ts:21-23 | no group left out of the ranking is larger than a group in it |
| TopUsers.TopGroups | src/app/api/top-users/route.ts:13-24 | at most three entries, each with a distinct key, each counting exactly that key's documents (at least one), in non-increasing order, and no omitted key outnumbers a listed one |
| TopUsers.TopUsers | src/app/api/top-users/route.ts:16 | the route as written returns at most three rows, each counting at least one order |
| TopUsers.TopUsersIsOneNullGroup | src/app/api/top-users/route.ts:16 | since no order carries `customerEmail`, the route returns a single `null` row counting every order, or nothing when there are no orders |
| TopUsers.TopCustomers | src/app/api/top-users/route.ts:13-24 | grouped by ordering account: at most three accounts, each with its exact order count, in non-increasing order, and no account left out has more orders than one listed |
| TopUsers.TopCustomersSeparatesAccounts | src/app/api/top-users/route.ts:16 | for orders a, a, b from two accounts the corrected ranking is (a, 2), (b, 1), where the route returns (null, 3) |
| Feedback.Build | src/models/feedback.ts:1-33 | a submission the route accepts is stored exactly when its trimmed name has 2 to 50 characters and its comment at most 1000, and the stored entry is schema-valid and carries the trimmed name, comment, rating and creation time |
| Feedback.Submit | src/app/api/feedback/route.ts:5-29 | 400 exactly for a falsy name or comment or a rating that is not a number in [1, 5]; an acceptable submission is stored exactly when the trimmed name and the comment meet the schema's length bounds, with 201 and a fresh id, and otherwise fails with 500; a refusal stores nothing |
| Feedback.SubmitKeepsEntriesValid | src/models/feedback.ts:5-26 | every stored entry stays within the schema's bounds |
| Feedback.RatingBoundsAreInclusive | src/app/api/feedback/route.ts:12 | ratings 1 and 5 pass the route's check, and 0.5 and 5.5 do not |
| Feedback.ShortNameIsServerError | src/app/api/feedback/route.ts:12-28 | a non-empty name that trims to fewer than two characters passes the route's check but fails the schema: 500, nothing stored |
| Feedback.BlankNameIsServerError | src/models/feedback.ts:5-11 | a name of blanks only ends in a 500 |
| Feedback.PaddedNameIsStoredTrimmed | src/models/feedback.ts:10 | blanks around a valid name are stripped before storing |

## Left out

- Request parsing: malformed JSON bodies and JSON values of the wrong type are not modelled. Every body field is either absent or of its declared type. `parseInt` / `parseFloat` producing `NaN` is not modelled. Query parameters arrive already parsed.
- Invalid ObjectId strings, which make `findById` or `new ObjectId` throw, are not modelled. Identifiers are natural numbers.
- JSON `null` in request bodies and MongoDB's `null`-matches-missing query semantics are not modelled. Absent means `undefined`, and an `undefined` filter key is dropped from the query, as Mongoose does.
- The unique index on `contactNumber` is treated as ignoring accounts without a number, as if it were sparse. Whether MongoDB would refuse a second account without a number depends on index options that cannot be seen.
- String lengths count characters, not UTF-16 code units. `trim` removes ASCII and Latin-1 blanks and the byte-order mark, not every Unicode space.
- The session user always carries an id, because the JWT callback sets it. A session user without a role counts as not admin.
- `Admin.Selected`: the case-insensitive `$regex` search is a parameter `regex(pattern, text)`. MongoDB's regular-expression semantics are not modelled.
- `Listing.Page` and `Listing.PageCount`: JavaScript's `Math.ceil(total / limit)` for a negative limit is modelled, but the sizes a driver returns for other unusual limits are not. The model assumes a negative limit returns at most its absolute value.
- `UserOrders.History`: `populate('orderItems.product', 'name image')` is left out. Orders are returned as stored.
- `TopUsers.Top`: ties are broken by first occurrence, where the database leaves tie order unspecified. The proved properties do not depend on the tie order.
- `Admin.CreateUser`: body keys outside the schema, and client-supplied `_id`, `createdAt` or `updatedAt` values, are not modelled: `...body` also spreads them. Dates sent in the body are taken as already cast, so a value that fails the cast is not modelled.
- `Feedback.Submit`: the database connection opened before the `try` block (`connectDB` failing outside the handler's 500) is not modelled.
- Concurrency: each request is one sequential step, and check-then-insert races are not modelled.
- Database plumbing is not modelled: `dbConnect`, the top-users route's own `MongoClient` connect and close, and the `timestamps` option's `updatedAt`.
- Money and ratings are `real`s that are only compared. There is no floating-point rounding.
- The pricing formula and the order status lifecycle are not modelled, because no route shown computes totals or changes an order's status. `Orders.StatusName` only names the enumeration.
- The default export of `next-auth/middleware` at src/middleware.ts:66 is not modelled. Only the named `middleware` function and the matcher config are.
- The voucher list route (src/app/api/vouchers/route.ts) is not modelled. It is an unfiltered newest-first fetch.
- Sign-up, send-otp, forgot-password, change-password, user search, the public and profile projections, order logs, admin order listing and all UI pages are not part of this model.

## Findings

| source | as written | input that shows it | evidently intended | confidence | as-written member | corrected member |
|---|---|---|---|---|---|---|
| src/app/api/reset-password/route.ts:7-16 | passes the body's `token` into the `findOne` filter unchecked; when the body has no token the key is `undefined`, which Mongoose drops from the filter | a body `{ password: "p" }` while account a has a pending reset with token "t": the query matches a and its password becomes "p" with 200 | refuse a missing token with 400, so only the holder of the submitted token can reset | medium, not executed; rests on Mongoose dropping `undefined` filter keys | Credentials.AbsentTokenResetsFirstPendingAccount | Credentials.TokenRequiredProtectsOtherAccounts |
| src/app/api/top-users/route.ts:16 | groups orders by `$customerEmail`, a field the Order schema (src/models/Order.ts:42-134) does not declare and order placement never sets | three orders, two from account a and one from account b: the route returns one row `{_id: null, orderCount: 3}` | group by the ordering account (`$user`), returning (a, 2) then (b, 1) | not executed | TopUsers.TopUsersIsOneNullGroup | TopUsers.TopCustomersSeparatesAccounts |
