/** The database tables the core reads and writes: one row type per model,
    one map per table keyed by primary key, and the constraints the schema
    declares (unique columns, the one-to-one link from a pickup to its
    application, the Package.package_type choice being unique). A `save()`
    that would break one of them is refused as the database refuses it, with
    an `IntegrityError`; here the write reports `false` and changes nothing. */
module Store {
  import opened Common

  // ---------------------------------------------------------------------------
  // Rows
  // ---------------------------------------------------------------------------

  /** Application.STATUS_CHOICES (applications/models.py). */
  datatype ApplicationStatus = Pending | Approved | Rejected | PickedUp

  /** Pickup.STATUS_CHOICES (pickups/models.py). */
  datatype PickupStatus = Scheduled | Confirmed | Completed | Cancelled | NoShow

  /** The twenty columns a submission fills, in the order of
      `ApplicationSubmissionSerializer.Meta.fields`. */
  datatype ApplicantDetails = ApplicantDetails(
    firstName: string, lastName: string, phone: string, email: string, address: string,
    familySize: string, childrenCount: string, elderlyCount: string, employmentStatus: string,
    specialNeeds: string, tecMember: string, selectedPackage: string, packageFlexibility: bool,
    preferredDate: Day, preferredTime: string, alternativeDate: Option<Day>, alternativeTime: string,
    transportationHelp: bool, deliveryRequest: bool, termsAgreement: bool)

  /** A row of the Application table, without its `id` key. */
  datatype ApplicationRow = ApplicationRow(
    referenceNumber: string, details: ApplicantDetails, status: ApplicationStatus,
    reviewedBy: Option<UserId>, reviewedAt: Option<Moment>, reviewNotes: string, createdAt: Moment)

  /** A value of the dictionary a pickup's QR image encodes. */
  datatype QrValue = QrText(text: string) | QrDate(day: Day)

  type QrPayload = map<string, QrValue>

  /** A row of the Pickup table, without its `id` key. `qrImage` is the
      dictionary the stored PNG encodes, `None` while `qr_code_image` is blank;
      `createdDate` is the date of `created_at`. */
  datatype PickupRow = PickupRow(
    applicationId: UuidText, pickupCode: string, qrImage: Option<QrPayload>,
    scheduledDate: Day, scheduledTime: string, status: PickupStatus,
    pickedUpAt: Option<Moment>, pickedUpBy: Option<UserId>, notes: string, createdDate: Day)

  /** A JSON document, as a JSONField stores it; an object keeps its keys in
      insertion order. Numbers are integers. */
  datatype Json =
    | JNull
    | JBool(b: bool)
    | JInt(i: int)
    | JStr(s: string)
    | JArray(elems: seq<Json>)
    | JObject(members: seq<(string, Json)>)

  /** A row of PackageItem, held with the package it belongs to. */
  datatype PackageItem = PackageItem(itemName: string, quantity: string, order: nat)

  /** A row of the Package table, without its `id` key; `cashAmount` counts
      hundredths of a naira (`DecimalField(decimal_places=2)`). */
  datatype PackageRow = PackageRow(
    name: string, packageType: string, description: string, cashAmount: int,
    itemsIncluded: Json, total: nat, available: nat, isActive: bool, items: seq<PackageItem>)

  /** Another application than `except` holds `reference`. */
  predicate ReferenceTaken(apps: map<UuidText, ApplicationRow>, reference: string, except: UuidText) {
    exists a :: a in apps && a != except && apps[a].referenceNumber == reference
  }

  /** Another pickup than `except` holds `code`. */
  predicate CodeTaken(pickups: map<nat, PickupRow>, code: string, except: nat) {
    exists p :: p in pickups && p != except && pickups[p].pickupCode == code
  }

  /** Another pickup than `except` is linked to `app`. */
  predicate ApplicationTaken(pickups: map<nat, PickupRow>, app: UuidText, except: nat) {
    exists p :: p in pickups && p != except && pickups[p].applicationId == app
  }

  /** Another package than `except` has type `packageType`. */
  predicate PackageTypeTaken(packages: map<nat, PackageRow>, packageType: string, except: nat) {
    exists k :: k in packages && k != except && packages[k].packageType == packageType
  }

  /** No two applications share a reference number. */
  predicate UniqueReferences(apps: map<UuidText, ApplicationRow>) {
    forall a, b :: a in apps && b in apps && a != b ==> apps[a].referenceNumber != apps[b].referenceNumber
  }

  /** Every pickup key was issued by the auto-increment counter and every
      pickup belongs to a stored application. */
  predicate PickupsLinked(pickups: map<nat, PickupRow>, next: nat, apps: map<UuidText, ApplicationRow>) {
    forall p :: p in pickups ==> p < next && pickups[p].applicationId in apps
  }

  /** No two pickups share a code or an application. */
  predicate UniquePickups(pickups: map<nat, PickupRow>) {
    forall p, q :: p in pickups && q in pickups && p != q ==>
      pickups[p].pickupCode != pickups[q].pickupCode && pickups[p].applicationId != pickups[q].applicationId
  }

  /** No two packages share a type. */
  predicate UniquePackageTypes(packages: map<nat, PackageRow>) {
    forall k, l :: k in packages && l in packages && k != l ==> packages[k].packageType != packages[l].packageType
  }

  /** Every stored pickup carries its code and its image: `save()` assigns
      both before the first write, and neither is ever cleared. */
  predicate PickupsStamped(pickups: map<nat, PickupRow>) {
    forall p :: p in pickups ==> pickups[p].pickupCode != "" && pickups[p].qrImage.Some?
  }

  /** A pickup exists only for an application that was approved (and may
      since have been collected). */
  predicate PickupsApproved(pickups: map<nat, PickupRow>, apps: map<UuidText, ApplicationRow>) {
    forall p :: p in pickups ==>
      && pickups[p].applicationId in apps
      && (apps[pickups[p].applicationId].status.Approved? || apps[pickups[p].applicationId].status.PickedUp?)
  }

  /** Every stored application has its reference number: `save()` assigns
      one before the first write. */
  predicate ReferencesAssigned(apps: map<UuidText, ApplicationRow>) {
    forall a :: a in apps ==> apps[a].referenceNumber != ""
  }

  /** No package has more stock available than it ever received. The
      package management views write both counters freely, so this is not
      an invariant of the tables: allocation and restocking keep it when it
      holds. */
  predicate StockWithinTotal(packages: map<nat, PackageRow>) {
    forall k :: k in packages ==> packages[k].available <= packages[k].total
  }

  lemma StoreApplicationRow(apps: map<UuidText, ApplicationRow>, id: UuidText, row: ApplicationRow)
    requires UniqueReferences(apps) && !ReferenceTaken(apps, row.referenceNumber, id)
    ensures UniqueReferences(apps[id := row])
  {
  }

  lemma StorePickupRow(pickups: map<nat, PickupRow>, key: nat, row: PickupRow)
    requires UniquePickups(pickups)
    requires !CodeTaken(pickups, row.pickupCode, key) && !ApplicationTaken(pickups, row.applicationId, key)
    ensures UniquePickups(pickups[key := row])
  {
  }

  lemma LinkPickupRow(pickups: map<nat, PickupRow>, next: nat, apps: map<UuidText, ApplicationRow>, key: nat, row: PickupRow)
    requires PickupsLinked(pickups, next, apps) && key < next && row.applicationId in apps
    ensures PickupsLinked(pickups[key := row], next, apps)
  {
  }

  lemma GrowApplications(pickups: map<nat, PickupRow>, next: nat, apps: map<UuidText, ApplicationRow>, id: UuidText, row: ApplicationRow)
    requires PickupsLinked(pickups, next, apps)
    ensures PickupsLinked(pickups, next, apps[id := row])
  {
  }

  lemma RaiseCounter(pickups: map<nat, PickupRow>, next: nat, apps: map<UuidText, ApplicationRow>)
    requires PickupsLinked(pickups, next, apps)
    ensures PickupsLinked(pickups, next + 1, apps)
  {
  }

  /** Completing a pickup keeps its application, code and image, and its
      application becomes collected with its reference number unchanged:
      the invariants survive, and so does the approval link if it held. */
  lemma CompleteKeepsIssued(pickups: map<nat, PickupRow>, apps: map<UuidText, ApplicationRow>,
                            p: nat, row: PickupRow, appRow: ApplicationRow)
    requires PickupsStamped(pickups) && ReferencesAssigned(apps) && p in pickups && pickups[p].applicationId in apps
    requires row.applicationId == pickups[p].applicationId && row.pickupCode == pickups[p].pickupCode
    requires row.qrImage == pickups[p].qrImage
    requires appRow.status == PickedUp && appRow.referenceNumber == apps[row.applicationId].referenceNumber
    ensures PickupsStamped(pickups[p := row])
    ensures ReferencesAssigned(apps[row.applicationId := appRow])
    ensures PickupsApproved(pickups, apps) ==> PickupsApproved(pickups[p := row], apps[row.applicationId := appRow])
  {
  }

  /** Rewriting a pickup with its application, code and image unchanged. */
  lemma RestampKeepsIssued(pickups: map<nat, PickupRow>, apps: map<UuidText, ApplicationRow>, p: nat, row: PickupRow)
    requires PickupsStamped(pickups) && p in pickups
    requires row.applicationId == pickups[p].applicationId && row.pickupCode == pickups[p].pickupCode
    requires row.qrImage == pickups[p].qrImage
    ensures PickupsStamped(pickups[p := row])
    ensures PickupsApproved(pickups, apps) ==> PickupsApproved(pickups[p := row], apps)
  {
  }

  /** A new application has no pickup yet, so adding it keeps the approval
      link. */
  lemma GrowKeepsIssued(pickups: map<nat, PickupRow>, apps: map<UuidText, ApplicationRow>, id: UuidText, row: ApplicationRow)
    requires PickupsApproved(pickups, apps) && id !in apps
    ensures PickupsApproved(pickups, apps[id := row])
  {
  }

  /** Reviewing an application no pickup points to keeps the approval link. */
  lemma ReviewKeepsIssued(pickups: map<nat, PickupRow>, apps: map<UuidText, ApplicationRow>, id: UuidText, row: ApplicationRow)
    requires PickupsApproved(pickups, apps)
    requires forall p :: p in pickups ==> pickups[p].applicationId != id
    ensures PickupsApproved(pickups, apps[id := row])
  {
  }

  /** A pickup with its code and image, for an approved application. */
  lemma IssueKeepsIssued(pickups: map<nat, PickupRow>, apps: map<UuidText, ApplicationRow>, key: nat, row: PickupRow)
    requires PickupsStamped(pickups)
    requires row.applicationId in apps && apps[row.applicationId].status.Approved?
    requires row.pickupCode != "" && row.qrImage.Some?
    ensures PickupsStamped(pickups[key := row])
    ensures PickupsApproved(pickups, apps) ==> PickupsApproved(pickups[key := row], apps)
  {
  }

  /** A stored row with a reference number keeps every reference assigned. */
  lemma AssignReference(apps: map<UuidText, ApplicationRow>, id: UuidText, row: ApplicationRow)
    requires ReferencesAssigned(apps) && row.referenceNumber != ""
    ensures ReferencesAssigned(apps[id := row])
  {
  }

  lemma StorePackageRow(packages: map<nat, PackageRow>, key: nat, row: PackageRow)
    requires UniquePackageTypes(packages) && !PackageTypeTaken(packages, row.packageType, key)
    ensures UniquePackageTypes(packages[key := row])
  {
  }

  // ---------------------------------------------------------------------------
  // Tables
  // ---------------------------------------------------------------------------

  class Database {
    var applications: map<UuidText, ApplicationRow>
    var pickups: map<nat, PickupRow>
    /** The next value of the Pickup table's auto-increment key. */
    var nextPickupId: nat
    var packages: map<nat, PackageRow>

    /** The constraints the schema declares. */
    predicate Valid()
      reads this
    {
      && UniqueReferences(applications)
      && PickupsLinked(pickups, nextPickupId, applications)
      && UniquePickups(pickups)
      && UniquePackageTypes(packages)
    }

    /** What every write keeps true besides the schema, because every write
        goes through the models' `save()`: every pickup has a code and a QR
        image, and every application has its reference number. */
    predicate Lifecycle()
      reads this
    {
      PickupsStamped(pickups) && ReferencesAssigned(applications)
    }

    /** A pickup exists only for an approved or collected application. The
        views of the core keep this, but the admin site can change an
        application's status, so no view assumes it. */
    predicate PickupsFollowApproval()
      reads this
    {
      PickupsApproved(pickups, applications)
    }

    constructor ()
      ensures applications == map[] && pickups == map[] && packages == map[] && nextPickupId == 0
      ensures Valid() && Lifecycle() && PickupsFollowApproval() && StockWithinTotal(packages)
    {
      applications, pickups, packages, nextPickupId := map[], map[], map[], 0;
    }

    /** `Application.objects.get(id=id)` followed by reading the related pickup. */
    function PickupOf(app: UuidText): (r: Option<nat>)
      reads this
      requires Valid()
      ensures r.None? <==> forall p :: p in pickups ==> pickups[p].applicationId != app
      ensures r.Some? ==> r.value in pickups && pickups[r.value].applicationId == app
    {
      if exists p :: p in pickups && pickups[p].applicationId == app then
        var p :| p in pickups && pickups[p].applicationId == app; Some(p)
      else None
    }

    /** `Pickup.objects.get(pickup_code=code)`: the one pickup with that code. */
    function PickupWithCode(code: string): (r: Option<nat>)
      reads this
      requires Valid()
      ensures r.None? <==> forall p :: p in pickups ==> pickups[p].pickupCode != code
      ensures r.Some? ==> r.value in pickups && pickups[r.value].pickupCode == code
    {
      if exists p :: p in pickups && pickups[p].pickupCode == code then
        var p :| p in pickups && pickups[p].pickupCode == code; Some(p)
      else None
    }

    /** `Package.objects.filter(package_type=t, is_active=True).first()`. */
    function ActivePackageOfType(packageType: string): (r: Option<nat>)
      reads this
      requires Valid()
      ensures r.None? <==> forall k :: k in packages ==> !(packages[k].packageType == packageType && packages[k].isActive)
      ensures r.Some? ==> r.value in packages && packages[r.value].packageType == packageType && packages[r.value].isActive
    {
      if exists k :: k in packages && packages[k].packageType == packageType && packages[k].isActive then
        var k :| k in packages && packages[k].packageType == packageType && packages[k].isActive; Some(k)
      else None
    }

    /** The write `Model.save()` issues for an application: an INSERT when
        the instance is new (its `id` came from the `uuid4` default), an
        UPDATE of the row with that key otherwise. The unique
        `reference_number`, and for an INSERT the primary key, must be free. */
    method SaveApplication(id: UuidText, row: ApplicationRow, adding: bool) returns (ok: bool)
      requires Valid()
      modifies this
      ensures Valid()
      ensures ok <==> !(adding && id in old(applications)) && !ReferenceTaken(old(applications), row.referenceNumber, id)
      ensures applications == if ok then old(applications)[id := row] else old(applications)
      ensures pickups == old(pickups) && packages == old(packages) && nextPickupId == old(nextPickupId)
    {
      ok := !(adding && id in applications) && !ReferenceTaken(applications, row.referenceNumber, id);
      if ok {
        StoreApplicationRow(applications, id, row);
        GrowApplications(pickups, nextPickupId, applications, id, row);
        applications := applications[id := row];
      }
    }

    /** The INSERT of a new pickup: the key is the next auto-increment value;
        the code and the application must not belong to another pickup, and
        the application must exist. */
    method InsertPickup(row: PickupRow) returns (id: Option<nat>)
      requires Valid()
      modifies this
      ensures Valid()
      ensures id.Some? <==> row.applicationId in old(applications)
                            && !CodeTaken(old(pickups), row.pickupCode, old(nextPickupId))
                            && !ApplicationTaken(old(pickups), row.applicationId, old(nextPickupId))
      ensures id.Some? ==> id.value == old(nextPickupId) && id.value !in old(pickups)
                           && pickups == old(pickups)[id.value := row] && nextPickupId == old(nextPickupId) + 1
      ensures id.None? ==> pickups == old(pickups) && nextPickupId == old(nextPickupId)
      ensures applications == old(applications) && packages == old(packages)
    {
      if row.applicationId in applications && !CodeTaken(pickups, row.pickupCode, nextPickupId)
         && !ApplicationTaken(pickups, row.applicationId, nextPickupId) {
        id := Some(nextPickupId);
        StorePickupRow(pickups, nextPickupId, row);
        RaiseCounter(pickups, nextPickupId, applications);
        LinkPickupRow(pickups, nextPickupId + 1, applications, nextPickupId, row);
        pickups := pickups[nextPickupId := row];
        nextPickupId := nextPickupId + 1;
      } else {
        id := None;
      }
    }

    /** The UPDATE of an existing pickup, under the same constraints. */
    method UpdatePickup(id: nat, row: PickupRow) returns (ok: bool)
      requires Valid() && id in pickups
      modifies this
      ensures Valid()
      ensures ok <==> row.applicationId in old(applications)
                      && !CodeTaken(old(pickups), row.pickupCode, id) && !ApplicationTaken(old(pickups), row.applicationId, id)
      ensures pickups == if ok then old(pickups)[id := row] else old(pickups)
      ensures applications == old(applications) && packages == old(packages) && nextPickupId == old(nextPickupId)
    {
      ok := row.applicationId in applications && !CodeTaken(pickups, row.pickupCode, id)
            && !ApplicationTaken(pickups, row.applicationId, id);
      if ok {
        StorePickupRow(pickups, id, row);
        LinkPickupRow(pickups, nextPickupId, applications, id, row);
        pickups := pickups[id := row];
      }
    }

    /** The UPDATE of an existing package; `package_type` stays unique. */
    method UpdatePackage(id: nat, row: PackageRow) returns (ok: bool)
      requires Valid() && id in packages
      modifies this
      ensures Valid()
      ensures ok <==> !PackageTypeTaken(old(packages), row.packageType, id)
      ensures packages == if ok then old(packages)[id := row] else old(packages)
      ensures applications == old(applications) && pickups == old(pickups) && nextPickupId == old(nextPickupId)
    {
      ok := !PackageTypeTaken(packages, row.packageType, id);
      if ok {
        StorePackageRow(packages, id, row);
        packages := packages[id := row];
      }
    }
  }

  /** A stored row's own unique values are not taken by another row. */
  lemma StoredValuesFree(db: Database)
    requires db.Valid()
    ensures forall a :: a in db.applications ==> !ReferenceTaken(db.applications, db.applications[a].referenceNumber, a)
    ensures forall p :: p in db.pickups ==>
              !CodeTaken(db.pickups, db.pickups[p].pickupCode, p)
              && !ApplicationTaken(db.pickups, db.pickups[p].applicationId, p)
    ensures forall k :: k in db.packages ==> !PackageTypeTaken(db.packages, db.packages[k].packageType, k)
  {
  }

  /** A stored pickup's own code and application are not another pickup's. */
  lemma PickupValuesFree(pickups: map<nat, PickupRow>, p: nat)
    requires UniquePickups(pickups) && p in pickups
    ensures !CodeTaken(pickups, pickups[p].pickupCode, p)
    ensures !ApplicationTaken(pickups, pickups[p].applicationId, p)
  {
  }

  /** A stored application's own reference number is not another's. */
  lemma ReferenceFree(apps: map<UuidText, ApplicationRow>, a: UuidText)
    requires UniqueReferences(apps) && a in apps
    ensures !ReferenceTaken(apps, apps[a].referenceNumber, a)
  {
  }

  lemma OverwriteTwice<K, V>(m: map<K, V>, k: K, a: V, b: V)
    ensures m[k := a][k := b] == m[k := b]
  {
  }

  /** At most one pickup per application: the one-to-one link, read off the
      constraints. */
  lemma OnePickupPerApplication(db: Database, p: nat, q: nat)
    requires db.Valid() && p in db.pickups && q in db.pickups
    requires db.pickups[p].applicationId == db.pickups[q].applicationId
    ensures p == q
  {
  }

  /** While pickups follow approval, an application still under review or
      rejected has no pickup: approval is the only way to gain one. */
  lemma PendingHasNoPickup(db: Database, app: UuidText)
    requires db.Valid() && db.PickupsFollowApproval()
    requires app in db.applications && (db.applications[app].status.Pending? || db.applications[app].status.Rejected?)
    ensures db.PickupOf(app).None?
  {
  }
}
