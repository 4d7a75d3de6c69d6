# Marine marketplace: a verified model of its business rules

The marketplace is a Flask application (`app.py`) where vendors list products,
consumers order them and admins oversee both. All of its logic sits in the
route handlers. This project models those handlers over an in-memory store. The
store has a user table, a product table and an order table. The Flask session
is replaced by an explicit caller context, `Anonymous` or `Session(userId, role)`.
Flash messages and redirects are replaced by an `Outcome` value.

Modules:

- `Wrappers` (`wrappers.dfy`): `Option` and `Result`.
- `Text` (`text.dfy`): Python's `strip()` and `rsplit('.', 1)`, ASCII case folding for `lower()`, and `allowed_file`.
- `Access` (`access.dfy`): the caller context and the `login_required` role gate.
- `Records` (`records.dfy`): the `User`, `Product` and `Order` rows, the five order statuses, the look-ups by id, username and role, the vendor display name (`fullname or username`), and the name-string match that `update_order` uses to find an order's vendor.
- `Reports` (`reports.dfy`): what `reports_data` computes. That is the caller's scope, delivered revenue per day and in total, and the top five product names by quantity. Its loop over the last seven days is `DailyRevenue`.
- `Marketplace` (`marketplace.dfy`): the class `Store`, whose fields are the three tables, with one method per handler: `register`, `create_admin`, `add_product`, `edit_product`, `delete_product`, `order`, `update_order` and `reports_data`.

Representation choices:

- Prices are integer cents.
- Timestamps are integer seconds since the epoch (UTC). One-day buckets start at midnight, so dropping sub-second precision cannot move an order from one bucket to another. `DayStart(t) = t - t % 86400` is the `datetime(y, m, d)` of the source, also for times before 1970.
- A user's `fullname` is a string. `""` is the falsy value that `fullname or username` skips. The handlers modelled here only ever store strings, never NULL.
- Users and orders are never deleted, so their ids are their positions plus one (an invariant of `Store.Valid`). Products live in a map keyed by id.

Behaviours of the source that the model keeps, and that its lemmas spell out:

- Vendors are identified by name string. `NameCollisionMisdirectsUpdates` gives an example: a consumer whose username equals a vendor's full name, and who registered before the vendor, can update that vendor's orders, and the vendor cannot.
- `register` stores whatever role the form sends, "admin" included. Only `create_admin` checks whether an admin already exists.
- `edit_product` ignores an upload with a refused extension. `add_product` rejects it.
- In `reports_data`, the revenue figures are narrowed to the caller's display name only when the role is "vendor". The top-products list and the order count are narrowed for every role other than "admin". So a consumer who calls the data endpoint sees revenue for the whole marketplace.
- `update_order` enforces no transition order between statuses. It accepts only Pending, Processing, Shipped, Delivered and Cancelled. "Paid" is refused.

## Model

| member | source | states |
|---|---|---|
| Text.Strip | app.py:78 | the stripped text neither starts nor ends with whitespace (Python's `isspace` set), and it is empty only if the whole input was whitespace |
| Text.StripPadded | app.py:78 | any text that neither starts nor ends with whitespace, padded with whitespace on both sides, strips back to exactly itself |
| Text.StripIdempotent | app.py:78 | stripping an already stripped form field changes nothing |
| Text.RSplitDot | app.py:54 | `rsplit('.', 1)` gives a head and a tail that join back around the dot into the original name, and the tail contains no dot |
| Text.LastDotUnique | app.py:54 | the split is at the last dot of the name, and that dot is the only one with no dot after it |
| Text.Lower | app.py:54 | ASCII case folding: same length, each letter A-Z becomes its lower-case form a-z, and every other character is left as it is |
| Text.LowerMatchesIgnoringCase | app.py:54 | for any word without capitals, the folded text equals it iff the text spells that word letter by letter, each letter in either case |
| Text.AllowedFile | app.py:53-54 | a name is accepted iff some position holds a dot with no dot after it and the lower-cased text after that dot is png, jpg, jpeg or gif |
| Text.AllowedFileIgnoresCase | app.py:54 | an upper-case extension ("photo.JPG") is accepted |
| Access.Admits | app.py:61-67 | no session leads to the login redirect; a session is admitted iff no role is required (None or empty), the roles match, or the caller is an admin; otherwise access is denied |
| Access.AdminPassesEveryGate | app.py:64 | an admin passes every gate, and a gate without a role admits every session |
| Access.RolesAreSeparated | app.py:64 | a consumer is refused vendor pages and a vendor is refused consumer pages |
| Records.ParseStatus | app.py:245 | a form value is accepted iff it spells one of the five statuses, and it then yields the status with that spelling |
| Records.PaidIsNotAccepted | app.py:245 | "Paid" is not an accepted status |
| Records.User | app.py:22-28 | definition: a user row (id, username, full name, role) |
| Records.Product | app.py:30-39 | definition: a product row, with the price in cents and the vendor's user id |
| Records.Order | app.py:41-51 | definition: an order row, holding snapshots of the product name, vendor name and unit price, plus status and creation time |
| Records.DisplayName | app.py:215 | `fullname or username`: a non-empty full name wins, otherwise the username is used, so the result is empty only when both are |
| Records.VendorSnapshot | app.py:215 | definition: the display name of the product's vendor, or "" when the vendor row is missing |
| Records.UsernameTaken | app.py:82 | definition: some user has exactly this username |
| Records.HasAdmin | app.py:118 | definition: some user has the role "admin" |
| Records.Claims | app.py:242 | definition: the user's full name or username equals the name |
| Records.UserById | app.py:273 | the primary-key look-up returns a user with that id, and returns nothing iff no user has it |
| Records.FirstClaimantFrom | app.py:242 | the `.first()` of the fullname-or-username filter: the first index whose user claims the name, or nothing iff no user claims it |
| Records.MayUpdateOrder | app.py:241-244 | an order may be updated by an admin, or by a user whose id is that of the first user whose full name or username equals the order's vendor snapshot |
| Records.VendorMayUpdateOwnOrder | app.py:242-243 | with distinct user ids, a non-admin may update the orders that carry their display name iff no earlier user claims that name |
| Records.NameCollisionMisdirectsUpdates | app.py:242 | a consumer named "bob" who registered before a vendor whose full name is "bob" may update that vendor's orders, and the vendor may not |
| Reports.DayStart | app.py:269 | a timestamp falls within the day that starts at its midnight, and that midnight is a whole number of days |
| Reports.DayStartShift | app.py:268-269 | going back i days and taking midnight equals taking midnight and going back i days |
| Reports.Scoped | app.py:274 | the vendor-name filter keeps every order whose vendor snapshot equals the name as often as it occurs, drops every other order, and keeps all orders when there is no filter |
| Reports.RevenueBetween | app.py:271 | definition: the sum of `price_each * quantity` over the Delivered orders created in [lo, hi); its properties are RevenueSplit, QuietRangeIsZero and BucketsCoverWindow |
| Reports.TotalRevenue | app.py:284 | definition: the sum of `price_each * quantity` over all Delivered orders; its properties are ReplacingOrderShiftsRevenue and UndeliveredOrderAddsNoRevenue |
| Reports.RevenueSplit | app.py:271 | the delivered revenue of a time range is the sum of the revenue of its two halves |
| Reports.QuietRangeIsZero | app.py:275 | a range with no delivered order has revenue 0 |
| Reports.BucketsCoverWindow | app.py:267-271 | consecutive one-day buckets add up to the revenue of the window they cover |
| Reports.ReplacingOrderShiftsRevenue | app.py:284 | replacing one order changes total revenue by the difference of the two orders' delivered contributions, e.g. when a status update marks an order Delivered |
| Reports.UndeliveredOrderAddsNoRevenue | app.py:284 | appending an order that is not Delivered leaves total revenue and every range's revenue unchanged |
| Reports.QtyOf | app.py:279 | definition: `sum(quantity)` over the orders of one product name, whatever their status |
| Reports.Groups | app.py:279 | definition: `group_by(product_name)` with `sum(quantity)`, one entry per name from Names |
| Reports.SortByQty | app.py:279 | definition: insertion sort by descending quantity for `order_by(desc('qty'))`; its properties are SortIsOrderedPermutation and SortKeepsNamesDistinct |
| Reports.Names | app.py:279 | the grouped product names are distinct and are exactly the names that appear on some order |
| Reports.InsertIsPermutation | app.py:279 | inserting into the sorted list adds exactly that entry |
| Reports.InsertKeepsOrder | app.py:279 | inserting into a list of non-increasing quantity keeps it non-increasing |
| Reports.SortIsOrderedPermutation | app.py:279 | `order_by(desc('qty'))` yields a permutation of the groups with non-increasing quantity |
| Reports.InsertKeepsNamesDistinct | app.py:279 | inserting an entry whose name is not yet present keeps the names distinct |
| Reports.SortKeepsNamesDistinct | app.py:279 | sorting keeps the group names distinct |
| Reports.TopProducts | app.py:279 | definition: the name groups sorted by quantity, cut to the first 5 (`.limit(5)`); its properties are TopProductsSpec |
| Reports.TopProductsSpec | app.py:279-283 | at most 5 entries with distinct product names that appear on orders; each entry carries its name's total quantity over orders of any status; entries are in non-increasing quantity; a name that is left out sells no more than the fifth entry, so a list shorter than 5 holds every name |
| Reports.DailyRevenue | app.py:266-276 | exactly 7 buckets, oldest first: bucket k starts at midnight 6-k days before today's, and holds the delivered revenue in [start, start + 1 day); a day without delivered orders gives 0; the buckets add up to the week's delivered revenue |
| Marketplace.MayManage | app.py:164 | definition: the product's vendor or an admin; the same test is at app.py:181 |
| Marketplace.Store.Valid | app.py:23-24 | the schema's invariant: user ids run 1, 2, … in insertion order and usernames are unique (`unique=True`); order ids run likewise (app.py:42); every product is stored under its own id, below the next id to hand out; every order's quantity is positive (the check at app.py:212) |
| Marketplace.Store.constructor | app.py:305 | the store starts with no users, products or orders, and satisfies its invariant |
| Marketplace.Store.Register | app.py:76-88 | a taken (stripped) username adds no user; otherwise exactly one user is appended with the next id, the stripped username and full name, and the given role; the other tables are unchanged and usernames stay unique |
| Marketplace.Store.CreateAdmin | app.py:117-127 | nothing is added when an admin exists; when no admin exists, a taken username fails the commit and adds nothing; otherwise exactly one admin is appended, with the full name defaulting to "Administrator" |
| Marketplace.Store.AddProduct | app.py:140-156 | the vendor gate applies; an upload with a refused extension adds nothing; otherwise exactly one product is added under the next id, owned by the caller, with the stripped name and description and the image path only if a file was uploaded |
| Marketplace.Store.EditProduct | app.py:162-175 | the vendor gate, not-found and ownership checks apply, and a request that passes all three succeeds; on success only that product changes: name, price, stock and description are overwritten, and the image only for an accepted upload |
| Marketplace.Store.DeleteProduct | app.py:179-185 | the vendor gate and not-found checks apply; a caller who neither owns the product nor is an admin is denied access; the deletion succeeds iff all these checks pass, and then exactly that product is removed and no order changes |
| Marketplace.Store.PlaceOrder | app.py:208-219 | the consumer gate and not-found checks apply; a quantity that is not positive or exceeds the stock changes nothing; the order succeeds iff all these checks pass, and then that product's stock drops by exactly the quantity (so it stays non-negative) and exactly one Pending order is appended, carrying the product's id, name and price, the buyer, the vendor's display name (or "" without a vendor) and the time |
| Marketplace.Store.UpdateOrder | app.py:237-247 | login is required; a missing order is not found; a caller that `MayUpdateOrder` refuses changes nothing; a value outside the five statuses changes nothing; the update succeeds iff all these checks pass, and then only that order's status changes, to the value given, from any status |
| Marketplace.Store.ReportsData | app.py:264-289 | login is required; a non-admin caller whose user row is missing gets a server error; otherwise 7 daily buckets of delivered revenue, the top products and the order count over the scopes the role selects, and total delivered revenue |

## Left out

- Text.Lower: folds the ASCII letters A-Z only, whereas Python's `str.lower()` also lower-cases non-ASCII letters such as 'É'. For `allowed_file` both give the same answer. The only non-ASCII characters whose lower-case form contains ASCII letters are the Kelvin sign (which becomes `k`) and U+0130 (which becomes `i` plus a combining dot), and neither can produce one of the four extensions.
- The login and logout handlers (app.py:91-114) are left out. Login checks the password with `check_password_hash` and copies the user's id and role into the session. `Caller` is any `(userId, role)` pair, so the contracts also cover sessions that login never creates. No password (or its `generate_password_hash` digest) is stored.
- Integers are unbounded. SQLite's 64-bit INTEGER limit is not modelled. So the model does not capture the commit that fails when a stock lies outside that range (app.py:155, app.py:174), nor a `sum(quantity)` that overflows in `reports_data` (app.py:279, app.py:282).
- Rendering, `flash`, `redirect` and `jsonify` are left out. Each handler returns an `Outcome` or a `Report` value.
- The GET branches that only render a form are left out.
- The read-only listing pages are left out: index, login page, vendor dashboard, product detail, orders list, admin dashboard and the reports page.
- Marketplace search is left out. It relies on SQL `ilike` and on float parsing whose exceptions are swallowed.
- CSV export is left out. It is output formatting.
- Saving uploads and `secure_filename` are file-system I/O. The stored path is an input to `AddProduct` and `EditProduct`.
- Form values that `int()` or `float()` cannot parse, and a missing required form field, raise before any change. Numbers are taken as already parsed.
- Prices and sums are floats in the source. Here they are integer cents without rounding.
- Marketplace.Store.ReportsData: labels are each day's midnight as a timestamp, not the `strftime('%Y-%m-%d')` text.
- Commits and rollbacks are left out. Each handler is one atomic step, and the concurrent check-then-decrement race on stock is not modelled.
- Reports.TopProductsSpec: among products with equal quantity, the model fixes an order (stable by first appearance). SQLite leaves that order unspecified. The lemma states only what holds for any order.
- `.first()` without `order_by` is taken to return rows in id order.
- Marketplace.Store.AddProduct: product ids come from a counter. SQLite picks one more than the largest existing id, so it can reuse the id of a deleted product that had the largest id.
- `Order.product_id` is nullable in the schema. `order` always sets it, so the model stores a plain id.
- app.py has no payment or order line-item tables, and no "Paid" status; none are modelled.
- `User.created_at` and `Product.created_at` are left out. They are read only by the listing pages.
