# Bistro Boss server: a verified model of its request rules

The server is an Express application over a MongoDB database (`bistroDb`) with five
collections: `users`, `menu`, `reviews`, `carts` and `payments`. Most routes pass a request
straight to the store; underneath, the route handlers and the two middlewares decide a
small set of request-level rules. This project models those rules in Dafny over an in-memory
stand-in for the collections and proves what they promise.

- `wrappers.dfy` (module `Wrappers`): `Option`, for JavaScript's `undefined`/`null`.
- `documents.dfy` (module `Documents`): the documents of the five collections, their `_id`
  keys, and `new ObjectId(id)` as `ParseObjectId` (a 24-digit hex string, canonicalised to
  lower case; anything else makes the constructor throw). A key is either an ObjectId or a
  plain string id; the two never compare equal in the store.
- `auth.dfy` (module `Auth`): `verifyToken`, `varifyAdmin` and the per-email ownership check
  as pure gate functions returning `Unauthorized`, `Forbidden` or `Granted(claims)`. Token
  verification (signature, expiry) is an oracle `string -> Option<Claims>` passed in.
  `authorization.split(' ')[1]` is modelled with JavaScript's `split` semantics.
- `analytics.dfy` (module `Analytics`): `/admin-stats` as a revenue fold and `/order-stats`
  as a flatten (`$unwind`), inner join (`$lookup` + `$unwind`) and group by category.
- `store.dfy` (module `Bistro`): class `Store`, holding one map per collection. Each handler
  that writes (`insertOne`, `updateOne`, `deleteOne`, `deleteMany`) is a method. Its
  contract gives the complete new state of all five collections (`State()`) and the reply.
  Each handler that only reads is a function of the store. Requests run one at a time.

A reply is `Refused(401)`, `Refused(403)`, `Thrown` (the async handler throws: a malformed
id, or an `_id` already in use) or `Sent(body)`. The `_id` that an insert gives a document
is passed in as a parameter: it is the body's own `_id` or one the driver generates. The
class invariant `Valid()` is "at most one user per email, and every ObjectId key in its
canonical lower-case form", and every handler keeps it. With unique emails, the gates'
"some user with this email is an admin" is exactly what `findOne({email})` followed by
`role === 'admin'` decides.

Behaviour of the code that the model keeps as written:
- `PATCH /menu/:id` has no gate at all.
- `/admin-stats` has no gate (its gate is commented out).
- A payment's `cartIds` are not checked against existing carts.
- An absent `email` (in a body, in the cart query or in the token's claims) is sent to the
  store as `null`, so it matches documents that have no email.
- The `$lookup` of `/order-stats` compares the posted string ids with `_id`, so only
  menu items stored under a string `_id` are joined.

## Model

| member | source | states |
|---|---|---|
| Documents.ParseObjectId | index.js:112 | `new ObjectId(id)` succeeds exactly for 24 hex digits and yields the canonical key of the same digits, case ignored |
| Documents.ParseCanonical | index.js:124 | parsing the hex spelling of a stored ObjectId gives back that key |
| Documents.EmailTaken | index.js:101-103 | `findOne({email})` finds a user exactly when the email is one of the collection's emails, which needs a non-empty collection |
| Documents.ParseIgnoresCase | index.js:192 | two ids that differ only in the case of hex letters name the same document |
| Auth.Split | index.js:57 | `split(' ')` yields at least one piece, one piece exactly when there is no separator, and no piece contains the separator |
| Auth.JoinSplit | index.js:57 | joining the pieces of a split with the separator gives back the header |
| Auth.SplitJoin | index.js:57 | splitting a join of separator-free pieces gives back the pieces |
| Auth.BearerToken | index.js:57 | the token is undefined exactly when the header has no space, and a token never contains a space |
| Auth.BearerTokenOf | index.js:57 | for a header `Bearer <token>` the extracted token is `<token>` |
| Auth.BearerTokenSecond | index.js:57 | the token is the second space-separated piece whatever follows it: for `Bearer tok extra` it is `tok` |
| Auth.HeaderPresent | index.js:54 | JavaScript truthiness of the header: an absent or empty header is falsy, any other string truthy |
| Auth.VerifyToken | index.js:52-65 | 401 for a missing or empty header, a header without a second piece or a token the verifier rejects; never 403; otherwise the verifier's decoded claims are passed on |
| Auth.VerifyAdmin | index.js:67-76 | an authenticated request passes only when a user with the claimed email has role "admin", else 403; an earlier refusal is kept |
| Auth.VerifyOwner | index.js:86-89 | an authenticated request whose token email differs from the path email gets 403, otherwise it passes unchanged |
| Auth.IsAdmin | index.js:68-71 | a caller counts as an admin only when some user document carries the caller's email (and that user's role is "admin") |
| Auth.AdminChain | index.js:79 | `verifyToken` then `varifyAdmin`, on every admin route: 401 exactly when authentication fails; 403 exactly when an authenticated caller is not an admin; otherwise the caller passes with the token's own claims |
| Auth.OwnerChain | index.js:85-89 | `verifyToken` then the path-email check, on `/users/admin/:email` and `/payments/:email`: 401 exactly when authentication fails; 403 exactly when the token's email is not the path email; otherwise the caller passes with the token's own claims |
| Auth.NoHeaderUnauthorized | index.js:54-56 | without an Authorization header, every admin and per-email route answers 401 |
| Auth.IsAdminOfUniqueUser | index.js:68-71 | with unique emails, the admin gate passes a user exactly when that user's role is "admin" |
| Auth.AdminTokenGranted | index.js:57-63 | a `Bearer` header with a valid token of an admin user is let through the admin chain with its claims |
| Bistro.Store.ListUsers | index.js:79-83 | `GET /users` answers 401 without a header; it sends the whole users collection exactly when an authenticated caller is an admin; otherwise it sends the gate's refusal |
| Bistro.Store.AdminFlag | index.js:85-97 | `GET /users/admin/:email` answers 401 without a header and 403 for another caller's email; it sends a body exactly when the token's email is the path email, and every refusal is the owner chain's; `admin` is true iff a user with that email has role "admin" |
| Bistro.Store.RegisterUser | index.js:99-108 | an already registered email leaves every collection unchanged and answers with a null `insertedId`; otherwise exactly the one user is added; at most one user per email is kept |
| Bistro.RegisterTwice | index.js:99-108 | registering the same email twice stores one user, and the second call answers "already exists" |
| Bistro.Store.PromoteUser | index.js:110-120 | admin only; a malformed id throws; sets `role` to "admin" on the user with that `_id` and changes nothing else; `modifiedCount` is 0 when the user already was an admin; an unknown id changes nothing |
| Bistro.Promoted | index.js:113-117 | the promoted user keeps its email and name and has role "admin" |
| Bistro.Store.DeleteUser | index.js:122-127 | admin only; a malformed id throws; removes exactly the user with that `_id` and reports 1 or 0 |
| Bistro.Store.GetMenuItem | index.js:135-140 | `GET /menu/:id` throws exactly for an id that is not 24 hex digits and sends a body exactly for one that is; the body is the item stored under that ObjectId (case ignored), or null when there is none |
| Bistro.MenuItemReachable | index.js:135-140 | every menu item stored under an ObjectId `_id` is found by `GET /menu/:id` with that id's hex string |
| Bistro.Store.AddMenuItem | index.js:142-146 | admin only; adds exactly the item under its `_id`, or throws when the `_id` is in use |
| Bistro.Patched | index.js:152-160 | the patched item has the five fields of the patch and keeps every other field |
| Bistro.Store.PatchMenuItem | index.js:148-164 | no gate; a malformed id throws; overwrites exactly name, category, price, recipe and image of the matching item; an unknown id changes nothing |
| Bistro.Store.DeleteMenuItem | index.js:166-171 | admin only; a malformed id throws; removes exactly the item with that `_id` |
| Bistro.Store.CartsOf | index.js:179-184 | for a string or absent query email, the carts sent are exactly those whose email equals it |
| Bistro.Store.AddCart | index.js:185-189 | adds exactly the cart under its `_id`, or throws when the `_id` is in use |
| Bistro.Store.DeleteCart | index.js:190-195 | a malformed id throws; removes exactly the cart with that `_id` |
| Bistro.AddThenDeleteCart | index.js:185-195 | deleting a cart by the id its insert answered restores every collection and reports one deletion |
| Bistro.Store.PaymentsOf | index.js:212-219 | `GET /payments/:email` answers 401 without a header and 403 for another caller's email; it sends a body exactly when the token's email is the path email, and every refusal is the owner chain's; the body is exactly the payments whose email is the path email, unchanged |
| Bistro.CartKeys | index.js:225-229 | the `$in` list exists exactly when every cart id is a valid ObjectId string; it then holds exactly the keys those ids parse to |
| Bistro.Store.RecordPayment | index.js:221-232 | inserts the payment first, then deletes exactly the carts whose `_id` is listed. The deleted count is the number of distinct listed ids that exist. All other carts stay. A malformed cart id throws after the insert, so no cart goes. Revenue rises by the payment's price |
| Analytics.Revenue | index.js:244-253 | the `$sum` of all payment prices: 0 for no payments, and never negative when no price is |
| Analytics.RevenueRemove | index.js:244-253 | the `$sum` of prices does not depend on order: any payment can be taken out first |
| Analytics.RevenueInsert | index.js:244-253 | one more payment raises the revenue by exactly its price |
| Analytics.RevenueExample | index.js:244-255 | payments priced 10, 20 and 5 bring in 35 |
| Analytics.RevenueGroup | index.js:244-253 | the `$group` with `_id: null` yields no document for an empty collection and one otherwise |
| Analytics.Stats | index.js:235-261 | the counts are the sizes of the users, menu and payments collections; the revenue is the sum of all payment prices |
| Bistro.Store.AdminStatsReply | index.js:235-261 | `/admin-stats` reports the three counts and the revenue, 0 when there is no payment |
| Analytics.LookupKey | index.js:273-274 | the `$lookup` matches a posted id only against a `_id` equal to that very string, never against an ObjectId |
| Analytics.Joined | index.js:266-281 | a payment's line items after the join: never more than its ids, one per id when all ids match, none when no id matches, each one a menu item |
| Analytics.JoinedOne | index.js:266-281 | one id joins to the menu item stored under that string `_id`, or to nothing |
| Analytics.JoinedAppend | index.js:266-281 | the join works id by id: joining two runs of ids gives the two joins one after the other |
| Analytics.Lines | index.js:265-281 | the line items of all payments after the join: none when there are no payments |
| Analytics.LinesFromMenu | index.js:265-281 | every line item is a menu item, so an empty menu yields no line items |
| Analytics.LinesRemove | index.js:265-281 | the joined line items of all payments do not depend on their order: any payment's items can be taken out first |
| Analytics.AddItem | index.js:283-289 | counting one line item raises its category's quantity by one and revenue by its price, adds a row only for a new category, and keeps categories distinct |
| Analytics.Group | index.js:283-298 | each category appears in one row at most; its quantity and revenue are the count and price sum of its line items; every row has quantity at least 1; the rows add up to all line items |
| Analytics.DistinctMeansOnce | index.js:284-285 | two different rows never name the same category |
| Analytics.OrderStats | index.js:265-299 | each category appears in one row at most; its quantity and revenue are the count and price sum of the matched line items of that category; total quantity and total revenue are those of all matched line items |
| Analytics.OrderStatsInsert | index.js:265-299 | a new payment adds to each category exactly the line items its ids resolve to, and to the total quantity exactly its matched ids |
| Analytics.OrderStatsExample | index.js:265-299 | payments resolving to salads 5, 6, 5 and a soup 8, plus one unmatched id, give Salad 3/16, Soup 1/8, total 4 |
| Bistro.Store.OrderStatsReply | index.js:264-301 | `/order-stats` answers 401 without a header; it sends the report exactly when the admin chain passes, and every refusal is the admin chain's; the report is the grouped join of all payments: distinct categories, per-category quantity and revenue of the matched line items, and their totals |

## Left out

- Express bootstrap, CORS, dotenv, `listen`, the MongoDB connection and ping, `console.log`
  and the `/` health route: framework plumbing with no rule in it.
- `POST /jwt` and the internals of `jwt.verify` (signature, the 1-hour expiry, the clock):
  cryptography and time in a foreign library; verification is the `Verifier` oracle.
- `POST /create-payment-intent`: a network call to the payment provider plus the
  floating-point `parseInt(price * 100)`.
- `GET /menu`, `GET /reviews`: each sends its whole collection, which is the `menu` or
  `reviews` field of `Store` itself; no member is written for them.
- `estimatedDocumentCount` is taken as an exact count.
- Prices are exact `real` numbers: floating-point rounding of JavaScript numbers and of
  `$sum` is not modelled, and neither are non-numeric prices (which `$sum` skips).
- The store's natural order: collections are maps. `find()` results are maps or sets of
  documents, and the order of the `/order-stats` rows is left unspecified.
- Documents are typed records. Missing or extra body fields other than `email` are not
  modelled. Neither are `_id`s posted inside a body other than as the `id` parameter, nor
  `undefined` values written by `$set`.
- `new ObjectId` also accepts 12-byte buffers and integers. Path parameters are always
  strings, and `cartIds` entries are assumed to be (see the last line), so only the string
  form is modelled.
- Concurrency between requests and store failures (for example a `deleteMany` that fails
  after the payment insert) are not modelled; each request runs to completion alone.
- Bistro.Store.AdminFlag: `findOne` returns the first user with that email. The model
  checks whether any user with that email is an admin. The two agree because `Valid()`
  keeps emails unique.
- The database at start-up is assumed to hold at most one user per email (a constructor
  precondition). Every handler keeps that while requests run one at a time, but the server
  itself does not enforce it: no unique index exists, so documents written before it
  started, or two interleaved `POST /users` for one email that both pass `findOne`, can
  leave duplicates. With duplicate emails, `findOne` would decide on
  the first match, which the model's "some user with this email" does not capture.
- `new ObjectId(id)` follows the string rule of `bson` 6, the package under the version 6
  MongoDB driver: only 24 hex digits are accepted. The source does not pin a driver
  version. Older `bson` versions (4 and 5) also accepted any 12-character string as 12 raw
  bytes; that form is not modelled.
- The `Verifier` oracle may accept any string, including the empty token, which
  `jwt.verify` itself rejects. Every property is proved for every oracle, so an oracle that
  rejects the empty token is covered as well.
- Request values are assumed to be strings or absent: the `email` query of `GET /carts`,
  the `email` claim of a token (which `POST /jwt` signs from any body), and the entries of a
  payment's `cartIds`. The source passes them into filters unchanged, so the model does not
  capture an operator object such as `{$ne: "x"}` turning a filter into a match of every
  other email (in `CartsOf` and in the admin gate's `findOne`), nor a `null` or numeric
  `cartIds` entry, for which `new ObjectId` generates a fresh id instead of throwing.
