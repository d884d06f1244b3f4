/** packages/models.py: a package type with its stock counters. `allocate`
    hands out one unit when there is one, `restock` adds units to both
    counters, and two derived flags tell whether the package can be chosen
    and whether its stock is low. */
module PackageModels {
  import opened Common
  import opened Store

  /** The fixed threshold of `is_low_stock`. */
  const LowStockThreshold: nat := 10

  /** `is_available`: active and with at least one unit left. */
  predicate IsAvailable(row: PackageRow) {
    row.isActive && row.available > 0
  }

  /** `is_low_stock`: at most `LowStockThreshold` units left. */
  predicate IsLowStock(row: PackageRow) {
    row.available <= LowStockThreshold
  }

  /** A package with no stock left is low on stock and cannot be chosen,
      whether or not it is active. */
  lemma OutOfStockFlags(row: PackageRow)
    requires row.available == 0
    ensures IsLowStock(row) && !IsAvailable(row)
  {
  }

  /** The effect of `allocate()` on a row: one unit fewer when there was one,
      with the answer whether a unit was handed out. */
  function Allocated(row: PackageRow): (r: (PackageRow, bool))
    ensures r.1 <==> row.available > 0
    ensures r.0.total == row.total
    ensures r.0.available == if r.1 then row.available - 1 else row.available
    ensures r.0 == row.(available := r.0.available)
  {
    if row.available > 0 then (row.(available := row.available - 1), true) else (row, false)
  }

  /** The effect of `restock(quantity)` on a row. */
  function Restocked(row: PackageRow, quantity: nat): (r: PackageRow)
    ensures r.available == row.available + quantity && r.total == row.total + quantity
    ensures r == row.(available := r.available, total := r.total)
  {
    row.(available := row.available + quantity, total := row.total + quantity)
  }

  /** One stock operation, as a caller issues it. */
  datatype StockOp = Allocate | Restock(quantity: nat)

  /** The row after a sequence of operations, applied in order. */
  function Replay(row: PackageRow, ops: seq<StockOp>): PackageRow
    decreases |ops|
  {
    if ops == [] then row
    else
      var next := match ops[0]
        case Allocate => Allocated(row).0
        case Restock(q) => Restocked(row, q);
      Replay(next, ops[1..])
  }

  /** How many of the operations in `ops` hand out a unit. */
  function HandedOut(row: PackageRow, ops: seq<StockOp>): nat
    decreases |ops|
  {
    if ops == [] then 0
    else match ops[0]
      case Allocate => (if Allocated(row).1 then 1 else 0) + HandedOut(Allocated(row).0, ops[1..])
      case Restock(q) => HandedOut(Restocked(row, q), ops[1..])
  }

  /** Whatever the operations, stock never exceeds what was received, and
      the units missing from the total are exactly those handed out. */
  lemma {:induction false} ReplayKeepsStockInvariant(row: PackageRow, ops: seq<StockOp>)
    requires row.available <= row.total
    ensures Replay(row, ops).available <= Replay(row, ops).total
    ensures Replay(row, ops).total - Replay(row, ops).available
         == row.total - row.available + HandedOut(row, ops)
    decreases |ops|
  {
    if ops != [] {
      match ops[0]
      case Allocate => ReplayKeepsStockInvariant(Allocated(row).0, ops[1..]);
      case Restock(q) => ReplayKeepsStockInvariant(Restocked(row, q), ops[1..]);
    }
  }

  /** `allocate` succeeds exactly as many times in a row as there are units:
      after `available` allocations the package is out of stock and the
      next one reports failure. */
  lemma {:induction false} AllocateUntilEmpty(row: PackageRow, n: nat)
    requires n <= row.available
    ensures Replay(row, seq(n, _ => Allocate)).available == row.available - n
    ensures HandedOut(row, seq(n, _ => Allocate)) == n
    decreases n
  {
    if n > 0 {
      var ops := seq(n, _ => Allocate);
      assert ops[0] == Allocate && ops[1..] == seq(n - 1, _ => Allocate);
      AllocateUntilEmpty(Allocated(row).0, n - 1);
    }
  }

  /** A package instance: the model object the views load, change and save. */
  class Package {
    const id: nat
    var name: string
    var packageType: string
    var description: string
    var cashAmount: int
    var itemsIncluded: Json
    var total: nat
    var available: nat
    var isActive: bool
    var items: seq<PackageItem>

    function Row(): PackageRow
      reads this
    {
      PackageRow(name, packageType, description, cashAmount, itemsIncluded, total, available, isActive, items)
    }

    /** The instance mirrors its stored row. */
    predicate InSync(db: Database)
      reads this, db
    {
      id in db.packages && db.packages[id] == Row()
    }

    /** `Package.objects.get(id=id)` for a key that exists. */
    constructor Load(db: Database, id: nat)
      requires id in db.packages
      ensures this.id == id && Row() == db.packages[id]
    {
      this.id := id;
      var row := db.packages[id];
      name := row.name;
      packageType := row.packageType;
      description := row.description;
      cashAmount := row.cashAmount;
      itemsIncluded := row.itemsIncluded;
      total := row.total;
      available := row.available;
      isActive := row.isActive;
      items := row.items;
    }

    /** `save()` of a loaded instance: its type is its own, so the update
        goes through. */
    method Save(db: Database)
      requires db.Valid() && id in db.packages && db.packages[id].packageType == packageType
      modifies db
      ensures db.Valid() && InSync(db)
      ensures db.packages == old(db.packages)[id := Row()]
      ensures db.applications == old(db.applications) && db.pickups == old(db.pickups)
              && db.nextPickupId == old(db.nextPickupId)
    {
      PackageTypeFree(db.packages, id);
      var ok := db.UpdatePackage(id, Row());
      assert ok;
    }

    /** `allocate()`: one unit fewer and `True` when there was one; `False`
        and no change otherwise. */
    method Allocate(db: Database) returns (ok: bool)
      requires db.Valid() && InSync(db)
      modifies this`available, db
      ensures Allocated(old(Row())) == (Row(), ok)
      ensures InSync(db)
      ensures db.packages == if ok then old(db.packages)[id := Row()] else old(db.packages)
      ensures db.Valid() && db.applications == old(db.applications) && db.pickups == old(db.pickups)
              && db.nextPickupId == old(db.nextPickupId)
    {
      if available > 0 {
        available := available - 1;
        Save(db);
        return true;
      }
      return false;
    }

    /** `restock(quantity)`: both counters grow by `quantity`. */
    method Restock(db: Database, quantity: nat)
      requires db.Valid() && InSync(db)
      modifies this`available, this`total, db
      ensures Row() == Restocked(old(Row()), quantity)
      ensures InSync(db) && db.packages == old(db.packages)[id := Row()]
      ensures db.Valid() && db.applications == old(db.applications) && db.pickups == old(db.pickups)
              && db.nextPickupId == old(db.nextPickupId)
    {
      available := available + quantity;
      total := total + quantity;
      Save(db);
    }
  }

  /** A stored package's own type is not another package's. */
  lemma PackageTypeFree(packages: map<nat, PackageRow>, k: nat)
    requires UniquePackageTypes(packages) && k in packages
    ensures !PackageTypeTaken(packages, packages[k].packageType, k)
  {
  }

  /** Writing back an allocated or restocked row keeps every package within
      its total. */
  lemma StockStaysWithinTotal(packages: map<nat, PackageRow>, k: nat, row: PackageRow)
    requires StockWithinTotal(packages) && k in packages
    requires row == Allocated(packages[k]).0 || exists q: nat :: row == Restocked(packages[k], q)
    ensures StockWithinTotal(packages[k := row])
  {
  }
}
