/**
 * The marketplace's route handlers (app.py:75-289) over an in-memory store of
 * the three tables. Each handler takes the caller context in place of the
 * session and returns, in place of a flash message and a redirect, an Outcome.
 */
module Marketplace {
  import opened Wrappers
  import opened Text
  import opened Access
  import opened Records
  import opened Reports

  /** How a handler ends. */
  datatype Outcome =
    | Done            // the change was made ('Registered', 'Order placed', ...)
    | LoginFirst      // 'Please login first'
    | AccessDenied    // 'Access denied'
    | NotFound        // `get_or_404` found no row
    | UsernameExists  // 'Username exists'
    | AdminExists     // 'Admin exists'
    | InvalidImage    // 'Invalid image'
    | InvalidQuantity // 'Invalid qty'
    | StatusIgnored   // `update_order` with a value outside the five statuses
    | ServerError     // an exception reaches Flask (a failed commit, a missing row dereferenced)

  /** The redirect `login_required` answers with when it does not grant access. */
  function GateOutcome(g: Gate): Outcome {
    match g
    case NotLoggedIn => LoginFirst
    case Forbidden => AccessDenied
    case Granted => Done
  }

  /** The ownership test of `edit_product` and `delete_product`. */
  predicate MayManage(userId: nat, role: string, p: Product) {
    p.vendorId == userId || role == "admin"
  }

  /** The JSON of `reports_data`; `labels` holds each day's midnight as a timestamp. */
  datatype Report = Report(
    labels: seq<int>, values: seq<int>, top: seq<TopEntry>, totalRevenue: int, totalOrders: nat)

  /** The database: users and orders are never deleted, so their ids are their positions plus one. */
  class Store {
    var users: seq<User>
    var products: map<nat, Product>
    var nextProductId: nat
    var orders: seq<Order>

    ghost predicate Valid()
      reads this
    {
      && (forall i :: 0 <= i < |users| ==> users[i].id == i + 1)
      && (forall i, j :: 0 <= i < j < |users| ==> users[i].username != users[j].username)
      && 0 < nextProductId
      && (forall pid :: pid in products ==> products[pid].id == pid && 0 < pid < nextProductId)
      && (forall i :: 0 <= i < |orders| ==> orders[i].id == i + 1 && orders[i].quantity > 0)
    }

    constructor ()
      ensures Valid()
      ensures users == [] && products == map[] && orders == []
    {
      users := [];
      products := map[];
      nextProductId := 1;
      orders := [];
    }

    /** `register`: a new user under the stripped username, unless that name is taken. */
    method Register(username: string, fullname: string, role: string) returns (outcome: Outcome)
      requires Valid()
      modifies this
      ensures Valid()
      ensures products == old(products) && nextProductId == old(nextProductId) && orders == old(orders)
      ensures outcome == Done || outcome == UsernameExists
      ensures outcome == UsernameExists <==> UsernameTaken(old(users), Strip(username))
      ensures outcome == UsernameExists ==> users == old(users)
      ensures outcome == Done ==>
        users == old(users) + [User(|old(users)| + 1, Strip(username), Strip(fullname), role)]
    {
      var name := Strip(username);
      if UsernameTaken(users, name) {
        return UsernameExists;
      }
      users := users + [User(|users| + 1, name, Strip(fullname), role)];
      outcome := Done;
    }

    /**
     * `create_admin`: refused once any admin exists. The handler does not look
     * for the username; the UNIQUE constraint on it fails the commit instead.
     * A missing full name defaults to "Administrator" and is not stripped.
     */
    method CreateAdmin(username: string, fullname: Option<string>) returns (outcome: Outcome)
      requires Valid()
      modifies this
      ensures Valid()
      ensures products == old(products) && nextProductId == old(nextProductId) && orders == old(orders)
      ensures outcome == AdminExists || outcome == ServerError || outcome == Done
      ensures outcome == AdminExists <==> HasAdmin(old(users))
      ensures outcome == ServerError <==> !HasAdmin(old(users)) && UsernameTaken(old(users), Strip(username))
      ensures outcome != Done ==> users == old(users)
      ensures outcome == Done ==>
        users == old(users) + [User(|old(users)| + 1, Strip(username), fullname.GetOr("Administrator"), "admin")]
    {
      if HasAdmin(users) {
        return AdminExists;
      }
      var name := Strip(username);
      if UsernameTaken(users, name) {
        return ServerError;
      }
      users := users + [User(|users| + 1, name, fullname.GetOr("Administrator"), "admin")];
      outcome := Done;
    }

    /**
     * `add_product`: a vendor (or admin) lists a product under their own id.
     * `upload` is the uploaded file's name ("" for none) and `storedPath` the
     * path the file is saved under; a name with a refused extension adds nothing.
     */
    method AddProduct(caller: Caller, name: string, price: int, quantity: int, description: string,
                      upload: string, storedPath: string) returns (outcome: Outcome)
      requires Valid()
      modifies this
      ensures Valid()
      ensures users == old(users) && orders == old(orders)
      ensures Admits(caller, Some("vendor")) != Granted ==> outcome == GateOutcome(Admits(caller, Some("vendor")))
      ensures outcome == InvalidImage <==>
        Admits(caller, Some("vendor")) == Granted && upload != "" && !AllowedFile(upload)
      ensures outcome == Done <==>
        Admits(caller, Some("vendor")) == Granted && (upload == "" || AllowedFile(upload))
      ensures outcome != Done ==> products == old(products) && nextProductId == old(nextProductId)
      ensures outcome == Done ==> (caller.Session? && nextProductId == old(nextProductId) + 1 &&
        products == old(products)[old(nextProductId) :=
          Product(old(nextProductId), Strip(name), price, quantity, Strip(description),
                  if upload != "" then Some(storedPath) else None, caller.userId)])
    {
      var gate := Admits(caller, Some("vendor"));
      if gate != Granted {
        return GateOutcome(gate);
      }
      var image: Option<string> := None;
      if upload != "" {
        if !AllowedFile(upload) {
          return InvalidImage;
        }
        image := Some(storedPath);
      }
      var id := nextProductId;
      var p := Product(id, Strip(name), price, quantity, Strip(description), image, caller.userId);
      products := products[id := p];
      nextProductId := id + 1;
      outcome := Done;
    }

    /**
     * `edit_product`: the owner (or an admin) overwrites name, price, stock and
     * description; an upload with a refused extension is silently ignored and
     * keeps the old image.
     */
    method EditProduct(caller: Caller, pid: nat, name: string, price: int, quantity: int, description: string,
                       upload: string, storedPath: string) returns (outcome: Outcome)
      requires Valid()
      modifies this
      ensures Valid()
      ensures users == old(users) && orders == old(orders) && nextProductId == old(nextProductId)
      ensures Admits(caller, Some("vendor")) != Granted ==> outcome == GateOutcome(Admits(caller, Some("vendor")))
      ensures outcome == NotFound <==> Admits(caller, Some("vendor")) == Granted && pid !in old(products)
      ensures outcome == AccessDenied <==>
        (Admits(caller, Some("vendor")) == Forbidden) ||
        (caller.Session? && Admits(caller, Some("vendor")) == Granted && pid in old(products) &&
         !MayManage(caller.userId, caller.role, old(products)[pid]))
      ensures outcome == Done <==>
        (caller.Session? && Admits(caller, Some("vendor")) == Granted && pid in old(products) &&
         MayManage(caller.userId, caller.role, old(products)[pid]))
      ensures outcome != Done ==> products == old(products)
      ensures outcome == Done ==> (caller.Session? && pid in old(products) &&
        var p := old(products)[pid];
        products == old(products)[pid := p.(name := Strip(name), price := price, quantity := quantity,
                                            description := Strip(description),
                                            imagePath := if upload != "" && AllowedFile(upload)
                                                         then Some(storedPath) else p.imagePath)])
    {
      var gate := Admits(caller, Some("vendor"));
      if gate != Granted {
        return GateOutcome(gate);
      }
      if pid !in products {
        return NotFound;
      }
      var p := products[pid];
      if !MayManage(caller.userId, caller.role, p) {
        return AccessDenied;
      }
      var image := p.imagePath;
      if upload != "" && AllowedFile(upload) {
        image := Some(storedPath);
      }
      products := products[pid := p.(name := Strip(name), price := price, quantity := quantity,
                                     description := Strip(description), imagePath := image)];
      outcome := Done;
    }

    /** `delete_product`: the owner (or an admin) removes the product; orders keep their snapshots. */
    method DeleteProduct(caller: Caller, pid: nat) returns (outcome: Outcome)
      requires Valid()
      modifies this
      ensures Valid()
      ensures users == old(users) && orders == old(orders) && nextProductId == old(nextProductId)
      ensures Admits(caller, Some("vendor")) != Granted ==> outcome == GateOutcome(Admits(caller, Some("vendor")))
      ensures outcome == NotFound <==> Admits(caller, Some("vendor")) == Granted && pid !in old(products)
      ensures outcome == AccessDenied <==>
        (Admits(caller, Some("vendor")) == Forbidden) ||
        (caller.Session? && Admits(caller, Some("vendor")) == Granted && pid in old(products) &&
         !MayManage(caller.userId, caller.role, old(products)[pid]))
      ensures outcome == Done <==>
        caller.Session? && Admits(caller, Some("vendor")) == Granted && pid in old(products) &&
        MayManage(caller.userId, caller.role, old(products)[pid])
      ensures outcome == Done ==> products == old(products) - {pid}
      ensures outcome != Done ==> products == old(products)
    {
      var gate := Admits(caller, Some("vendor"));
      if gate != Granted {
        return GateOutcome(gate);
      }
      if pid !in products {
        return NotFound;
      }
      if !MayManage(caller.userId, caller.role, products[pid]) {
        return AccessDenied;
      }
      products := products - {pid};
      outcome := Done;
    }

    /**
     * `order`: a consumer (or admin) buys `qty` of a product. A quantity that is
     * not positive or exceeds the stock changes nothing; otherwise the stock
     * drops by exactly `qty` and one Pending order is appended, holding the
     * product's name and price and its vendor's display name at this moment.
     */
    method PlaceOrder(caller: Caller, pid: nat, qty: int, now: int) returns (outcome: Outcome)
      requires Valid()
      modifies this
      ensures Valid()
      ensures users == old(users) && nextProductId == old(nextProductId)
      ensures Admits(caller, Some("consumer")) != Granted ==> outcome == GateOutcome(Admits(caller, Some("consumer")))
      ensures outcome == NotFound <==> Admits(caller, Some("consumer")) == Granted && pid !in old(products)
      ensures outcome == InvalidQuantity <==>
        Admits(caller, Some("consumer")) == Granted && pid in old(products) &&
        (qty <= 0 || qty > old(products)[pid].quantity)
      ensures outcome == Done <==>
        (Admits(caller, Some("consumer")) == Granted && pid in old(products) &&
         0 < qty <= old(products)[pid].quantity)
      ensures outcome != Done ==> products == old(products) && orders == old(orders)
      ensures outcome == Done ==> (caller.Session? && pid in old(products) &&
        var p := old(products)[pid];
        && 0 < qty <= p.quantity
        && products == old(products)[pid := p.(quantity := p.quantity - qty)]
        && products[pid].quantity >= 0
        && orders == old(orders) + [Order(|old(orders)| + 1, pid, p.name, VendorSnapshot(users, p.vendorId),
                                          caller.userId, qty, p.price, Pending, now)])
    {
      var gate := Admits(caller, Some("consumer"));
      if gate != Granted {
        return GateOutcome(gate);
      }
      if pid !in products {
        return NotFound;
      }
      var p := products[pid];
      if qty <= 0 || qty > p.quantity {
        return InvalidQuantity;
      }
      var vendor := VendorSnapshot(users, p.vendorId);
      var o := Order(|orders| + 1, p.id, p.name, vendor, caller.userId, qty, p.price, Pending, now);
      products := products[pid := p.(quantity := p.quantity - qty)];
      orders := orders + [o];
      outcome := Done;
    }

    /**
     * `update_order`: any logged-in caller may try; only an admin or the first
     * user claiming the order's vendor name gets through, and then the status
     * is set to the submitted value if it names one of the five statuses. No
     * transition order is enforced.
     */
    method UpdateOrder(caller: Caller, oid: nat, status: Option<string>) returns (outcome: Outcome)
      requires Valid()
      modifies this
      ensures Valid()
      ensures users == old(users) && products == old(products) && nextProductId == old(nextProductId)
      ensures caller.Anonymous? ==> outcome == LoginFirst
      ensures outcome == NotFound <==> caller.Session? && !(1 <= oid <= |old(orders)|)
      ensures outcome == AccessDenied <==>
        caller.Session? && 1 <= oid <= |old(orders)| &&
        !MayUpdateOrder(users, caller.userId, caller.role, old(orders)[oid - 1].vendorName)
      ensures outcome == StatusIgnored <==>
        caller.Session? && 1 <= oid <= |old(orders)| &&
        MayUpdateOrder(users, caller.userId, caller.role, old(orders)[oid - 1].vendorName) &&
        (status.None? || ParseStatus(status.value).None?)
      ensures outcome == Done <==>
        (caller.Session? && 1 <= oid <= |old(orders)| &&
         MayUpdateOrder(users, caller.userId, caller.role, old(orders)[oid - 1].vendorName) &&
         status.Some? && ParseStatus(status.value).Some?)
      ensures outcome != Done ==> orders == old(orders)
      ensures outcome == Done ==> (status.Some? && ParseStatus(status.value).Some? && 1 <= oid <= |old(orders)| &&
        orders == old(orders)[oid - 1 := old(orders)[oid - 1].(status := ParseStatus(status.value).value)])
    {
      var gate := Admits(caller, None);
      if gate != Granted {
        return GateOutcome(gate);
      }
      if !(1 <= oid <= |orders|) {
        return NotFound;
      }
      var o := orders[oid - 1];
      if !MayUpdateOrder(users, caller.userId, caller.role, o.vendorName) {
        return AccessDenied;
      }
      var parsed := if status.Some? then ParseStatus(status.value) else None;
      if parsed.None? {
        return StatusIgnored;
      }
      orders := orders[oid - 1 := o.(status := parsed.value)];
      outcome := Done;
    }

    /**
     * `reports_data`: seven daily revenue buckets, oldest first, over delivered
     * orders; the top five product names by quantity over orders of any
     * status; total delivered revenue; and the number of orders. Each part
     * tests the role on its own, as the source does: the buckets and the
     * revenue are narrowed to the caller's display name only for a vendor, the
     * top list and the count for everyone but an admin.
     */
    method ReportsData(caller: Caller, now: int) returns (r: Result<Report, Outcome>)
      ensures r.Ok? <==> caller.Session? && (caller.role == "admin" || UserById(users, caller.userId).Some?)
      ensures r.Err? ==> r.error == (if caller.Anonymous? then LoginFirst else ServerError)
      ensures r.Ok? ==> (caller.Session? &&
        var me := UserById(users, caller.userId);
        var own := if me.Some? then Some(DisplayName(me.value)) else None;
        var revenueScope := Scoped(orders, if caller.role == "vendor" then own else None);
        var countScope := Scoped(orders, if caller.role == "admin" then None else own);
        var rep := r.value;
        && |rep.labels| == DayCount && |rep.values| == DayCount
        && (forall k :: 0 <= k < DayCount ==>
              rep.labels[k] == DayLabel(now, k) &&
              rep.values[k] == RevenueBetween(revenueScope, DayLabel(now, k), DayLabel(now, k) + SecondsPerDay))
        && rep.top == TopProducts(countScope)
        && rep.totalRevenue == TotalRevenue(revenueScope)
        && rep.totalOrders == |countScope|)
    {
      if caller.Anonymous? {
        return Err(LoginFirst);
      }
      var role := caller.role;
      var me := UserById(users, caller.userId);
      if role != "admin" && me.None? {
        return Err(ServerError);
      }
      var own := if me.Some? then Some(DisplayName(me.value)) else None;
      var revenueScope := Scoped(orders, if role == "vendor" then own else None);
      var labels, values := DailyRevenue(revenueScope, now);
      var countScope := Scoped(orders, if role == "admin" then None else own);
      r := Ok(Report(labels, values, TopProducts(countScope), TotalRevenue(revenueScope), |countScope|));
    }
  }
}
