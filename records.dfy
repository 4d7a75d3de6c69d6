/**
 * The rows of the marketplace's three tables (app.py:22-51) and the lookups the
 * handlers run against them: by primary key, by username, by role, and the
 * name-string match that decides who is the vendor of an order.
 */
module Records {
  import opened Wrappers

  /** The five order statuses the source writes (app.py:49, app.py:245). */
  datatype Status = Pending | Processing | Shipped | Delivered | Cancelled

  function StatusName(st: Status): string {
    match st
    case Pending => "Pending"
    case Processing => "Processing"
    case Shipped => "Shipped"
    case Delivered => "Delivered"
    case Cancelled => "Cancelled"
  }

  /**
   * The membership test `new in ('Pending', ..., 'Cancelled')` of
   * `update_order`: a form value names a status exactly when it is one of the
   * five spellings, and then it names that one.
   */
  function ParseStatus(s: string): (r: Option<Status>)
    ensures r.Some? ==> StatusName(r.value) == s
    ensures forall st :: s == StatusName(st) ==> r == Some(st)
  {
    if s == "Pending" then Some(Pending)
    else if s == "Processing" then Some(Processing)
    else if s == "Shipped" then Some(Shipped)
    else if s == "Delivered" then Some(Delivered)
    else if s == "Cancelled" then Some(Cancelled)
    else None
  }

  /** `update_order` accepts only the five spellings of app.py:245; "Paid" is not one of them. */
  lemma PaidIsNotAccepted()
    ensures ParseStatus("Paid") == None
  {
  }

  /** `fullname` is "" when the form left it empty; nothing here stores NULL. */
  datatype User = User(id: nat, username: string, fullname: string, role: string)

  /** `price` is in cents; `quantity` is the stock, which an edit may set to anything. */
  datatype Product = Product(
    id: nat, name: string, price: int, quantity: int,
    description: string, imagePath: Option<string>, vendorId: nat)

  /** An order keeps copies of the product's name, vendor name and price. */
  datatype Order = Order(
    id: nat, productId: nat, productName: string, vendorName: string,
    buyerId: nat, quantity: int, priceEach: int, status: Status, createdAt: int)

  /** `user.fullname or user.username`: the name a vendor is known by on orders. */
  function DisplayName(u: User): (r: string)
    ensures r == u.fullname || r == u.username
    ensures u.fullname != "" ==> r == u.fullname
    ensures r == "" ==> u.fullname == "" && u.username == ""
  {
    if u.fullname != "" then u.fullname else u.username
  }

  /** `User.query.get(id)`: the user with that primary key, if any. */
  function UserById(users: seq<User>, id: nat): (r: Option<User>)
    ensures r.Some? ==> r.value in users && r.value.id == id
    ensures r.None? <==> forall i :: 0 <= i < |users| ==> users[i].id != id
  {
    if users == [] then None
    else if users[0].id == id then Some(users[0])
    else UserById(users[1..], id)
  }

  /** `User.query.filter_by(username=name).first()` finds a row. */
  predicate UsernameTaken(users: seq<User>, name: string) {
    exists i | 0 <= i < |users| :: users[i].username == name
  }

  /** `User.query.filter_by(role='admin').first()` finds a row. */
  predicate HasAdmin(users: seq<User>) {
    exists i | 0 <= i < |users| :: users[i].role == "admin"
  }

  /** The order snapshot of a product's vendor: its display name, or "" without one. */
  function VendorSnapshot(users: seq<User>, vendorId: nat): string {
    match UserById(users, vendorId)
    case Some(v) => DisplayName(v)
    case None => ""
  }

  /** The filter `(User.fullname == name) | (User.username == name)`. */
  predicate Claims(u: User, name: string) {
    u.fullname == name || u.username == name
  }

  /** The index of the first user that `Claims` the name, searching from `from`. */
  function FirstClaimantFrom(users: seq<User>, name: string, from: nat): (r: Option<nat>)
    requires from <= |users|
    ensures r.Some? ==> from <= r.value < |users| && Claims(users[r.value], name)
                        && forall j :: from <= j < r.value ==> !Claims(users[j], name)
    ensures r.None? <==> forall j :: from <= j < |users| ==> !Claims(users[j], name)
    decreases |users| - from
  {
    if from == |users| then None
    else if Claims(users[from], name) then Some(from)
    else FirstClaimantFrom(users, name, from + 1)
  }

  /**
   * The authorisation of `update_order`: an admin may update any order; anyone
   * else only when they are the first user whose full name or username equals
   * the order's vendor snapshot.
   */
  function MayUpdateOrder(users: seq<User>, userId: nat, role: string, vendorName: string): (ok: bool)
    ensures ok <==>
      role == "admin" ||
      exists k :: 0 <= k < |users| && users[k].id == userId && Claims(users[k], vendorName)
                  && forall j :: 0 <= j < k ==> !Claims(users[j], vendorName)
  {
    if role == "admin" then true
    else
      match FirstClaimantFrom(users, vendorName, 0)
      case Some(k) => users[k].id == userId
      case None => false
  }

  /**
   * When user ids are distinct, a non-admin vendor may update the orders that
   * carry their display name exactly when no earlier user claims that name.
   */
  lemma VendorMayUpdateOwnOrder(users: seq<User>, k: nat, role: string)
    requires k < |users| && role != "admin"
    requires forall i, j :: 0 <= i < |users| && 0 <= j < |users| && i != j ==> users[i].id != users[j].id
    ensures MayUpdateOrder(users, users[k].id, role, DisplayName(users[k])) <==>
            forall j :: 0 <= j < k ==> !Claims(users[j], DisplayName(users[k]))
  {
    var name := DisplayName(users[k]);
    assert Claims(users[k], name);
    if MayUpdateOrder(users, users[k].id, role, name) {
      var k' :| 0 <= k' < |users| && users[k'].id == users[k].id && Claims(users[k'], name)
                && forall j :: 0 <= j < k' ==> !Claims(users[j], name);
      assert k' == k;
    }
  }

  /**
   * Matching by name string lets a consumer registered as "bob" before a
   * vendor whose full name is "bob" update that vendor's orders, and locks the
   * vendor out.
   */
  lemma NameCollisionMisdirectsUpdates()
    ensures var users := [User(1, "bob", "", "consumer"), User(2, "bobs-boats", "bob", "vendor")];
            var snapshot := DisplayName(users[1]);
            && snapshot == "bob"
            && MayUpdateOrder(users, 1, "consumer", snapshot)
            && !MayUpdateOrder(users, 2, "vendor", snapshot)
  {
    var users := [User(1, "bob", "", "consumer"), User(2, "bobs-boats", "bob", "vendor")];
    assert Claims(users[0], "bob");
  }
}
