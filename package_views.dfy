/** packages/views.py: `restock_package`, the staff endpoint that adds units
    to a package. Its guards run in a fixed order: authentication (the
    `IsAuthenticated` permission class), staff rights, then the package
    lookup, then the quantity. */
module PackageViews {
  import opened Common
  import opened Store
  import opened Accounts
  import opened Requests
  import opened PackageModels

  /** The responses of `restock_package`. */
  datatype RestockResponse =
    | NotAuthenticated                       // 403 'Authentication credentials were not provided.'
    | StaffRequired                          // 403 'Staff privileges required.'
    | PackageNotFound                        // 404 'Package not found.'
    | QuantityNotPositive                    // 400 'Quantity must be greater than 0.'
    | InvalidQuantity                        // 400 'Invalid quantity provided.' (ValueError)
    | ServerError                            // 500: a `TypeError` the view does not catch
    | StockAdded(quantity: nat, available: nat)  // 200
  {
    function HttpStatus(): nat {
      match this
      case NotAuthenticated => 403
      case StaffRequired => 403
      case PackageNotFound => 404
      case QuantityNotPositive => 400
      case InvalidQuantity => 400
      case ServerError => 500
      case StockAdded(_, _) => 200
    }
  }

  /** `int(request.data.get('quantity', 0))`: a missing quantity counts as 0. */
  function RequestedQuantity(data: RequestData): (r: Conversion<int>)
    ensures "quantity" !in data ==> r == Converted(0)
  {
    PyInt(Get(data, "quantity", SInt(0)))
  }

  /** The response the guards choose before any write: the answer of the
      endpoint except for the number it reports on success. */
  function RestockGuard(user: User, found: bool, quantity: Conversion<int>): (r: Option<RestockResponse>)
    ensures user.Anonymous? ==> r == Some(NotAuthenticated)
    ensures user.Member? && !user.IsStaff() ==> r == Some(StaffRequired)
    ensures user.IsStaff() && !found ==> r == Some(PackageNotFound)
    ensures r.None? <==> user.IsStaff() && found && quantity.Converted? && quantity.value > 0
  {
    if user.Anonymous? then Some(NotAuthenticated)
    else if !user.IsStaff() then Some(StaffRequired)
    else if !found then Some(PackageNotFound)
    else match quantity
      case RaisedTypeError => Some(ServerError)
      case RaisedValueError => Some(InvalidQuantity)
      case Converted(q) => if q <= 0 then Some(QuantityNotPositive) else None
  }

  /** `restock_package(request, package_id)`. */
  method RestockPackage(db: Database, user: User, packageId: nat, data: RequestData)
    returns (response: RestockResponse)
    requires db.Valid() && db.Lifecycle()
    modifies db
    ensures db.Valid() && db.Lifecycle()
    ensures StockWithinTotal(old(db.packages)) ==> StockWithinTotal(db.packages)
    ensures var quantity := RequestedQuantity(data);
            match RestockGuard(user, packageId in old(db.packages), quantity)
            case Some(refusal) =>
              response == refusal && db.packages == old(db.packages)
            case None =>
              && response == StockAdded(quantity.value, old(db.packages)[packageId].available + quantity.value)
              && db.packages == old(db.packages)[packageId := Restocked(old(db.packages)[packageId], quantity.value)]
    ensures db.applications == old(db.applications) && db.pickups == old(db.pickups)
            && db.nextPickupId == old(db.nextPickupId)
  {
    // `RestockGuard` takes the guards in the view's order; reading the
    // quantity early changes nothing, as `int()` has no effect.
    var quantity := RequestedQuantity(data);
    var refusal := RestockGuard(user, packageId in db.packages, quantity);
    if refusal.Some? {
      return refusal.value;
    }
    var available := AddStock(db, packageId, quantity.value);
    response := StockAdded(quantity.value, available);
  }

  /** `package.restock(quantity)` on the package the view looked up. No
      relation between the two counters is assumed (the package management
      views write both freely); a package within its total stays so. */
  method AddStock(db: Database, packageId: nat, quantity: nat) returns (available: nat)
    requires db.Valid() && db.Lifecycle() && packageId in db.packages
    modifies db
    ensures db.Valid() && db.Lifecycle()
    ensures StockWithinTotal(old(db.packages)) ==> StockWithinTotal(db.packages)
    ensures db.packages == old(db.packages)[packageId := Restocked(old(db.packages)[packageId], quantity)]
    ensures available == db.packages[packageId].available
    ensures db.applications == old(db.applications) && db.pickups == old(db.pickups)
            && db.nextPickupId == old(db.nextPickupId)
  {
    var package := new Package.Load(db, packageId);
    ghost var before := db.packages;
    if StockWithinTotal(before) {
      StockStaysWithinTotal(before, packageId, Restocked(before[packageId], quantity));
    }
    package.Restock(db, quantity);
    available := package.available;
  }

  /** Once a staff user names an existing package, a quantity that `int()`
      reads as zero or less (a missing one reads as 0), or text it cannot
      read, is refused with 400. */
  lemma BadQuantityRefused(user: User, quantity: Conversion<int>)
    requires user.IsStaff()
    requires !(quantity.Converted? && quantity.value > 0)
    requires quantity != RaisedTypeError
    ensures RestockGuard(user, true, quantity).Some?
    ensures RestockGuard(user, true, quantity).value.HttpStatus() == 400
  {
  }

  /** The lookup comes before the quantity is read: an unknown package gives
      404 whatever the quantity, and a non-staff user gets 403 before either. */
  lemma GuardOrder(user: User, found: bool, q1: Conversion<int>, q2: Conversion<int>)
    requires !user.IsStaff() || !found
    ensures RestockGuard(user, found, q1) == RestockGuard(user, found, q2)
    ensures RestockGuard(user, found, q1).value.HttpStatus() == if user.IsStaff() then 404 else 403
  {
  }
}
