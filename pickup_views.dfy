/** pickups/views.py: the scanner's verification of a code, the two ways a
    pickup is completed, and today's queue. */
module PickupViews {
  import opened Common
  import opened Text
  import opened Numerals
  import opened Lists
  import opened Store
  import opened Accounts
  import opened Requests
  import opened ApplicationModels
  import opened PickupModels
  import opened PickupSerializers

  // ---------------------------------------------------------------------------
  // Labels
  // ---------------------------------------------------------------------------

  /** `get_package_name(package_type)`: the label of a known package type,
      the type itself otherwise. */
  function GetPackageName(packageType: string): (r: string)
    ensures packageType == "small_basic" ==> r == "Small Family Basic"
    ensures packageType == "medium_basic" ==> r == "Medium Family Basic"
    ensures packageType == "large_basic" ==> r == "Large Family Basic"
    ensures packageType == "emergency" ==> r == "Emergency Relief"
    ensures packageType == "senior" ==> r == "Senior Citizen Special"
    ensures packageType !in {"small_basic", "medium_basic", "large_basic", "emergency", "senior"} ==> r == packageType
  {
    var names := map["small_basic" := "Small Family Basic", "medium_basic" := "Medium Family Basic",
                     "large_basic" := "Large Family Basic", "emergency" := "Emergency Relief",
                     "senior" := "Senior Citizen Special"];
    if packageType in names then names[packageType] else packageType
  }

  /** `get_time_display(time_slot)`: the hours of a known slot, the slot
      itself otherwise. */
  function GetTimeDisplay(slot: string): (r: string)
    ensures slot == "morning" ==> r == "9:00 AM - 12:00 PM"
    ensures slot == "afternoon" ==> r == "1:00 PM - 4:00 PM"
    ensures slot == "evening" ==> r == "4:00 PM - 6:00 PM"
    ensures slot !in {"morning", "afternoon", "evening"} ==> r == slot
  {
    var slots := map["morning" := "9:00 AM - 12:00 PM", "afternoon" := "1:00 PM - 4:00 PM",
                     "evening" := "4:00 PM - 6:00 PM"];
    if slot in slots then slots[slot] else slot
  }

  /** Both lookups give back any key they do not know, and no known key is
      its own label. */
  lemma LabelsEchoOnlyUnknownKeys(key: string)
    ensures GetPackageName(key) == key <==> key !in {"small_basic", "medium_basic", "large_basic", "emergency", "senior"}
    ensures GetTimeDisplay(key) == key <==> key !in {"morning", "afternoon", "evening"}
  {
  }

  // ---------------------------------------------------------------------------
  // Package contents
  // ---------------------------------------------------------------------------

  /** The entries `items_included` contributes: the elements of a list, the
      values of a dictionary in key order, nothing for any other document. */
  function IncludedEntries(j: Json): (r: seq<Json>)
    ensures j.JArray? ==> r == j.elems
    ensures j.JObject? ==> |r| == |j.members| && forall k :: 0 <= k < |r| ==> r[k] == j.members[k].1
    ensures !j.JArray? && !j.JObject? ==> r == []
  {
    match j
    case JArray(elems) => elems
    case JObject(members) => seq(|members|, k requires 0 <= k < |members| => members[k].1)
    case _ => []
  }

  /** `f"{item.quantity} {item.item_name}"` for each package item, in the
      order of their `order` field. */
  function ItemEntries(items: seq<PackageItem>): (r: seq<string>)
    ensures |r| == |items|
  {
    var sorted := SortBy(items, (a: PackageItem, b: PackageItem) => a.order <= b.order);
    seq(|sorted|, k requires 0 <= k < |sorted| => sorted[k].quantity + " " + sorted[k].itemName)
  }

  /** `f"₦{package.cash_amount:,} Cash"` when the amount is positive. */
  function CashEntries(cashAmount: int): (r: seq<string>)
    ensures |r| == (if cashAmount > 0 then 1 else 0)
  {
    if cashAmount > 0 then ["\U{20A6}" + FormatAmount(cashAmount) + " Cash"] else []
  }

  /** The list `get_package_contents` builds for a package, in order. */
  function ContentEntries(row: PackageRow): (r: seq<Json>)
    ensures |r| == |IncludedEntries(row.itemsIncluded)| + |row.items| + (if row.cashAmount > 0 then 1 else 0)
  {
    IncludedEntries(row.itemsIncluded) + AsJson(ItemEntries(row.items)) + AsJson(CashEntries(row.cashAmount))
  }

  function AsJson(ss: seq<string>): (r: seq<Json>)
    ensures |r| == |ss| && forall k :: 0 <= k < |r| ==> r[k] == JStr(ss[k])
  {
    seq(|ss|, k requires 0 <= k < |ss| => JStr(ss[k]))
  }

  predicate AllText(js: seq<Json>) {
    forall k :: 0 <= k < |js| ==> js[k].JStr?
  }

  function Texts(js: seq<Json>): (r: seq<string>)
    requires AllText(js)
    ensures |r| == |js| && forall k :: 0 <= k < |r| ==> js[k] == JStr(r[k])
  {
    seq(|js|, k requires 0 <= k < |js| => js[k].s)
  }

  /** What the lookup of a found package yields: `None` when the code goes on
      to the hard-coded table, either because there is nothing to show or
      because `', '.join` met a non-string entry (the `TypeError` is caught). */
  function PackageContentsOf(row: PackageRow): (r: Option<string>)
    ensures r.None? <==> (ContentEntries(row) == [] && row.description == "")
                         || (ContentEntries(row) != [] && !AllText(ContentEntries(row)))
    ensures ContentEntries(row) == [] && row.description != "" ==> r == Some(row.description)
    ensures ContentEntries(row) != [] && AllText(ContentEntries(row)) ==>
              r == Some(Join(Texts(ContentEntries(row)), ", "))
  {
    var entries := ContentEntries(row);
    if entries != [] then
      if AllText(entries) then Some(Join(Texts(entries), ", ")) else None
    else if row.description != "" then Some(row.description)
    else None
  }

  /** The hard-coded table of contents, keyed by package type. */
  function FallbackContents(packageType: string): (r: string)
    ensures packageType !in {"small_basic", "medium_basic", "large_basic", "emergency", "senior"} ==>
              r == "Package contents not specified"
    ensures r != ""
  {
    var table := map[
      "small_basic" := "5kg Rice, 2kg Beans, 1L Vegetable Oil, 1kg Salt, \U{20A6}5,000 Cash",
      "medium_basic" := "10kg Rice, 5kg Beans, 2L Vegetable Oil, 1kg Salt, 1kg Sugar, \U{20A6}8,000 Cash",
      "large_basic" := "25kg Rice, 10kg Beans, 3L Vegetable Oil, 2kg Salt, 2kg Sugar, \U{20A6}15,000 Cash",
      "emergency" := "Emergency Relief Package + \U{20A6}10,000 Cash",
      "senior" := "Senior Citizen Special Package + \U{20A6}6,000 Cash"];
    if packageType in table then table[packageType] else "Package contents not specified"
  }

  /** `get_package_contents(package_type)`: the contents of the active
      package of that type when it has any to show, else the hard-coded
      table. */
  function GetPackageContents(db: Database, packageType: string): string
    reads db
    requires db.Valid()
  {
    match db.ActivePackageOfType(packageType)
    case None => FallbackContents(packageType)
    case Some(k) => PackageContentsOf(db.packages[k]).GetOr(FallbackContents(packageType))
  }

  /** With no active package of the type, the hard-coded table answers. */
  lemma NoActivePackageFallsBack(db: Database, packageType: string)
    requires db.Valid()
    requires forall k :: k in db.packages ==> !(db.packages[k].packageType == packageType && db.packages[k].isActive)
    ensures GetPackageContents(db, packageType) == FallbackContents(packageType)
  {
  }

  /** The active package of the type answers whenever it has something to
      show: its entries, or else its description. */
  lemma ActivePackageAnswers(db: Database, k: nat)
    requires db.Valid() && k in db.packages && db.packages[k].isActive
    requires PackageContentsOf(db.packages[k]).Some?
    ensures GetPackageContents(db, db.packages[k].packageType) == PackageContentsOf(db.packages[k]).value
  {
    var t := db.packages[k].packageType;
    assert db.ActivePackageOfType(t) == Some(k);
  }

  /** A package whose entries are all text shows them joined by ", ":
      `items_included` first, then the items, then the cash. */
  lemma {:induction false} ContentsInOrder(row: PackageRow, included: seq<string>)
    requires IncludedEntries(row.itemsIncluded) == AsJson(included)
    requires included != [] || row.items != [] || row.cashAmount > 0
    ensures PackageContentsOf(row) == Some(Join(included + ItemEntries(row.items) + CashEntries(row.cashAmount), ", "))
  {
    var all := included + ItemEntries(row.items) + CashEntries(row.cashAmount);
    assert ContentEntries(row) == AsJson(all);
    assert AllText(AsJson(all));
    assert Texts(AsJson(all)) == all;
  }

  /** A single entry that is not text sends the lookup to the hard-coded
      table, even when the package has a description. */
  lemma NonTextEntryFallsBack(row: PackageRow, k: nat)
    requires k < |IncludedEntries(row.itemsIncluded)| && !IncludedEntries(row.itemsIncluded)[k].JStr?
    ensures PackageContentsOf(row).None?
  {
    assert ContentEntries(row)[k] == IncludedEntries(row.itemsIncluded)[k];
  }

  // ---------------------------------------------------------------------------
  // verify_qr_code
  // ---------------------------------------------------------------------------

  /** `request.data.get('pickup_code', '').strip()`; `None` when the member
      is not a string, whose missing `strip` raises `AttributeError`. */
  function ScannedCode(data: RequestData): (r: Option<string>)
    ensures r.None? <==> !Get(data, "pickup_code", SStr("")).SStr?
    ensures r.Some? ==> r.value == Strip(Get(data, "pickup_code", SStr("")).s, PySpace)
  {
    match Get(data, "pickup_code", SStr(""))
    case SStr(s) => Some(Strip(s, PySpace))
    case _ => None
  }

  /** The `data` member of a successful verification. */
  datatype PickupDetails = PickupDetails(
    pickupId: nat, pickupCode: string, applicantName: string, phone: string, referenceNumber: string,
    packageName: string, packageContents: string, scheduledDate: Day, scheduledTime: string,
    expiryDate: Day, status: PickupStatus, isExpired: bool)

  /** The responses of `verify_qr_code`. */
  datatype VerifyResponse =
    | CodeRequired                   // 400 'Pickup code is required.'
    | UnknownCode                    // 404 'Invalid pickup code. ...'
    | AlreadyCollected               // 400 'This package has already been collected.'
    | PickupCancelled                // 400 'This pickup has been cancelled.'
    | CodeExpired(validUntil: Day)   // 400 'This QR code has expired. Valid until {date}.'
    | CodeNotText                    // 500: `AttributeError` from `strip`
    | Verified(details: PickupDetails)  // 200
  {
    function HttpStatus(): nat {
      match this
      case CodeRequired => 400
      case UnknownCode => 404
      case AlreadyCollected => 400
      case PickupCancelled => 400
      case CodeExpired(_) => 400
      case CodeNotText => 500
      case Verified(_) => 200
    }
  }

  /** The guard chain and the report for the pickup the code names. */
  function VerifyPickup(db: Database, p: nat, today: Day): (r: VerifyResponse)
    reads db
    requires db.Valid() && p in db.pickups
    ensures var row := db.pickups[p];
            && (r == AlreadyCollected <==> row.status.Completed?)
            && (r == PickupCancelled <==> row.status.Cancelled?)
            && (r.CodeExpired? <==> !row.status.Completed? && !row.status.Cancelled? && IsExpired(row, today))
            && (r.CodeExpired? ==> r.validUntil == row.scheduledDate + 1)
            && (r.Verified? <==> !row.status.Completed? && !row.status.Cancelled? && !IsExpired(row, today))
    ensures r.Verified? ==>
              var row := db.pickups[p];
              var app := db.applications[row.applicationId];
              && r.details.pickupId == p && r.details.pickupCode == row.pickupCode
              && r.details.applicantName == FullName(app.details) && r.details.phone == app.details.phone
              && r.details.referenceNumber == app.referenceNumber
              && r.details.packageName == GetPackageName(app.details.selectedPackage)
              && r.details.packageContents == GetPackageContents(db, app.details.selectedPackage)
              && r.details.scheduledDate == row.scheduledDate
              && r.details.scheduledTime == GetTimeDisplay(row.scheduledTime)
              && r.details.expiryDate == row.scheduledDate + 7
              && r.details.status == row.status && !r.details.isExpired
  {
    var row := db.pickups[p];
    if row.status.Completed? then AlreadyCollected
    else if row.status.Cancelled? then PickupCancelled
    else if IsExpired(row, today) then CodeExpired(row.scheduledDate + 1)
    else
      var app := db.applications[row.applicationId];
      Verified(PickupDetails(
        p, row.pickupCode, FullName(app.details), app.details.phone, app.referenceNumber,
        GetPackageName(app.details.selectedPackage), GetPackageContents(db, app.details.selectedPackage),
        row.scheduledDate, GetTimeDisplay(row.scheduledTime), row.scheduledDate + 7, row.status,
        IsExpired(row, today)))
  }

  /** `verify_qr_code(request)` on the day `today`. It reads and never
      writes, so verifying twice gives the same answer. */
  function VerifyQrCode(db: Database, data: RequestData, today: Day): (r: VerifyResponse)
    reads db
    requires db.Valid()
    ensures r == CodeNotText <==> ScannedCode(data).None?
    ensures r == CodeRequired <==> ScannedCode(data) == Some("")
    ensures r == UnknownCode <==>
              (&& ScannedCode(data).Some? && ScannedCode(data).value != ""
               && forall p :: p in db.pickups ==> db.pickups[p].pickupCode != ScannedCode(data).value)
    ensures forall p :: p in db.pickups && ScannedCode(data) == Some(db.pickups[p].pickupCode) && db.pickups[p].pickupCode != "" ==>
              r == VerifyPickup(db, p, today)
  {
    match ScannedCode(data)
    case None => CodeNotText
    case Some(code) =>
      if code == "" then CodeRequired
      else match db.PickupWithCode(code)
        case None => UnknownCode
        case Some(p) => VerifyPickup(db, p, today)
  }

  /** A completed pickup is reported as collected whether or not it was
      cancelled before or has expired since: the status is checked first. */
  lemma CompletedWins(db: Database, data: RequestData, today: Day, p: nat)
    requires db.Valid() && p in db.pickups && db.pickups[p].status.Completed?
    requires ScannedCode(data) == Some(db.pickups[p].pickupCode) && db.pickups[p].pickupCode != ""
    ensures VerifyQrCode(db, data, today) == AlreadyCollected
  {
  }

  /** The scanner endpoint and the serializer's validator agree on every
      non-empty code except one of a cancelled pickup, which only the
      endpoint refuses. */
  lemma VerifyAgreesWithValidator(db: Database, data: RequestData, today: Day)
    requires db.Valid() && ScannedCode(data).Some? && ScannedCode(data).value != ""
    ensures var code := ScannedCode(data).value;
            VerifyQrCode(db, data, today).Verified? <==>
              ValidatePickupCode(db, code, today).Passed?
              && forall p :: p in db.pickups && db.pickups[p].pickupCode == code ==> !db.pickups[p].status.Cancelled?
  {
    var code := ScannedCode(data).value;
    match db.PickupWithCode(code)
    case None =>
    case Some(p) =>
      assert VerifyQrCode(db, data, today) == VerifyPickup(db, p, today);
      forall q | q in db.pickups && db.pickups[q].pickupCode == code ensures q == p {
      }
  }

  // ---------------------------------------------------------------------------
  // complete_pickup and confirm_pickup
  // ---------------------------------------------------------------------------

  /** Why a pickup may not be completed. */
  datatype CompletionBlock = AlreadyDone | PastExpiry

  /** The checks both completion endpoints make, in their order: a
      completed pickup, then an expired one. A cancelled pickup passes. */
  function CompletionGuard(row: PickupRow, today: Day): (r: Option<CompletionBlock>)
    ensures r == Some(AlreadyDone) <==> row.status.Completed?
    ensures r == Some(PastExpiry) <==> !row.status.Completed? && IsExpired(row, today)
    ensures r.None? <==> !row.status.Completed? && !IsExpired(row, today)
  {
    if row.status.Completed? then Some(AlreadyDone)
    else if IsExpired(row, today) then Some(PastExpiry)
    else None
  }

  /** The stored pickup once completed and, when the notes could be stored,
      with its notes replaced. */
  function CompletedRow(row: PickupRow, supervisor: UserId, now: Moment, notes: Option<string>): (r: PickupRow)
    ensures r.status == Completed && r.pickedUpAt == Some(now) && r.pickedUpBy == Some(supervisor)
    ensures r.notes == notes.GetOr(row.notes)
    ensures r.applicationId == row.applicationId && r.pickupCode == row.pickupCode && r.qrImage == row.qrImage
    ensures r.scheduledDate == row.scheduledDate && r.scheduledTime == row.scheduledTime
    ensures r.createdDate == row.createdDate
  {
    row.(status := Completed, pickedUpAt := Some(now), pickedUpBy := Some(supervisor), notes := notes.GetOr(row.notes))
  }

  /** The responses of `complete_pickup` and `confirm_pickup`. */
  datatype CompletionResponse =
    | PickupIdRequired                  // 400 'Pickup ID is required.'
    | PickupMissing(message: string)    // 404
    | Blocked(message: string)          // 400
    | ServerError                       // 500: an exception the view does not catch
    | Done(message: string, pickupCode: string, applicantName: string,
           completedAt: Moment, completedBy: string)  // 200
  {
    function HttpStatus(): nat {
      match this
      case PickupIdRequired => 400
      case PickupMissing(_) => 404
      case Blocked(_) => 400
      case ServerError => 500
      case Done(_, _, _, _, _) => 200
    }
  }

  /** `Pickup.objects.get(id=pickup_id)` and `pickup.complete_pickup(user)`:
      the pickup becomes completed and its application collected. */
  method LoadAndComplete(db: Database, pickupId: nat, supervisor: UserId, now: Moment, rnd: Randomness)
    returns (pickup: Pickup)
    requires db.Valid() && db.Lifecycle() && pickupId in db.pickups
    modifies db
    ensures fresh(pickup) && fresh(pickup.application)
    ensures pickup.id == Some(pickupId) && pickup.InSync(db)
    ensures pickup.application.id == old(db.pickups)[pickupId].applicationId
    ensures pickup.Row() == CompletedRow(old(db.pickups)[pickupId], supervisor, now, None)
    ensures pickup.application.details == old(db.applications)[pickup.application.id].details
    ensures db.pickups == old(db.pickups)[pickupId := pickup.Row()]
    ensures db.applications == old(db.applications)[pickup.application.id :=
              old(db.applications)[pickup.application.id].(status := PickedUp)]
    ensures db.packages == old(db.packages) && db.nextPickupId == old(db.nextPickupId)
    ensures old(db.PickupsFollowApproval()) ==> db.PickupsFollowApproval()
    ensures db.Valid() && db.Lifecycle()
  {
    ghost var pickups0, apps0 := db.pickups, db.applications;
    var row := db.pickups[pickupId];
    var application := new Application.Load(db, row.applicationId);
    var pickup' := new Pickup.Load(db, pickupId, application);
    pickup := pickup';
    pickup.CompletePickup(db, supervisor, now, rnd);
    CompleteKeepsIssued(pickups0, apps0, pickupId, pickup.Row(), application.Row());
  }

  /** `pickup.notes = notes` and `pickup.save()` on a stored pickup: its
      code and image are kept, so the save is an update of the notes. */
  method StoreNotes(db: Database, pickup: Pickup, notes: string, u: UuidText)
    requires db.Valid() && db.Lifecycle() && pickup.InSync(db)
    requires pickup.pickupCode != "" && pickup.qrImage.Some?
    modifies pickup`notes, pickup`pickupCode, pickup`id, pickup`qrImage, db
    ensures pickup.Row() == old(pickup.Row()).(notes := notes) && pickup.id == old(pickup.id)
    ensures db.pickups == old(db.pickups)[pickup.id.value := pickup.Row()]
    ensures db.applications == old(db.applications) && db.packages == old(db.packages)
            && db.nextPickupId == old(db.nextPickupId)
    ensures old(db.PickupsFollowApproval()) ==> db.PickupsFollowApproval()
    ensures db.Valid() && db.Lifecycle()
  {
    ghost var pickups0 := db.pickups;
    pickup.notes := notes;
    PickupValuesFree(db.pickups, pickup.id.value);
    var saved := pickup.Save(db, u);
    assert saved;
    RestampKeepsIssued(pickups0, db.applications, pickup.id.value, pickup.Row());
  }

  /** `pickup.complete_pickup(user)`, then `pickup.notes = notes` and
      `pickup.save()`. Notes that cannot be stored (`None` in a NOT NULL
      column) fail the second save, after the first has stored the
      completion: there is no transaction. */
  method FinishPickup(db: Database, pickupId: nat, supervisor: UserId, notes: Option<string>, now: Moment, rnd: Randomness)
    returns (pickupCode: string, applicantName: string)
    requires db.Valid() && db.Lifecycle() && pickupId in db.pickups
    modifies db
    ensures var row := old(db.pickups)[pickupId];
            var app := old(db.applications)[row.applicationId];
            && db.pickups == old(db.pickups)[pickupId := CompletedRow(row, supervisor, now, notes)]
            && db.applications == old(db.applications)[row.applicationId := app.(status := PickedUp)]
            && pickupCode == row.pickupCode && applicantName == FullName(app.details)
    ensures db.packages == old(db.packages) && db.nextPickupId == old(db.nextPickupId)
    ensures old(db.PickupsFollowApproval()) ==> db.PickupsFollowApproval()
    ensures db.Valid() && db.Lifecycle()
  {
    ghost var row := db.pickups[pickupId];
    ghost var apps1 := db.applications[row.applicationId := db.applications[row.applicationId].(status := PickedUp)];
    var pickup := LoadAndComplete(db, pickupId, supervisor, now, rnd);
    assert pickup.application.id == row.applicationId;
    assert db.applications == apps1;
    ghost var pickups1 := db.pickups;
    if notes.Some? {
      StoreNotes(db, pickup, notes.value, rnd.uuid);
      OverwriteTwice(old(db.pickups), pickupId, pickups1[pickupId], pickup.Row());
    }
    assert pickup.Row() == CompletedRow(row, supervisor, now, notes);
    pickupCode, applicantName := pickup.pickupCode, FullName(pickup.application.details);
  }

  /** `complete_pickup(request, pickup_id)` for an authenticated user (the
      endpoint's permission class turns anyone else away before the view
      runs). */
  method CompletePickupView(db: Database, user: User, pickupId: nat, data: RequestData, now: Moment, rnd: Randomness)
    returns (r: CompletionResponse)
    requires user.Member?
    requires db.Valid() && db.Lifecycle()
    modifies db
    ensures old(db.PickupsFollowApproval()) ==> db.PickupsFollowApproval()
    ensures db.Valid() && db.Lifecycle() && db.packages == old(db.packages) && db.nextPickupId == old(db.nextPickupId)
    ensures pickupId !in old(db.pickups) ==>
              r == PickupMissing("Pickup not found.")
              && db.pickups == old(db.pickups) && db.applications == old(db.applications)
    ensures pickupId in old(db.pickups) ==>
              var row := old(db.pickups)[pickupId];
              var app := old(db.applications)[row.applicationId];
              var notes := TextColumn(Get(data, "notes", SStr("")));
              match CompletionGuard(row, now.date)
              case Some(block) =>
                && r == Blocked(if block.AlreadyDone? then "This pickup has already been completed." else "This QR code has expired.")
                && db.pickups == old(db.pickups) && db.applications == old(db.applications)
              case None =>
                && db.pickups == old(db.pickups)[pickupId := CompletedRow(row, user.id, now, notes)]
                && db.applications == old(db.applications)[row.applicationId := app.(status := PickedUp)]
                && r == if notes.None? then ServerError
                        else Done("Pickup completed successfully!", row.pickupCode, FullName(app.details), now, user.FullName())
  {
    if pickupId !in db.pickups {
      return PickupMissing("Pickup not found.");
    }
    var guard := CompletionGuard(db.pickups[pickupId], now.date);
    if guard == Some(AlreadyDone) {
      return Blocked("This pickup has already been completed.");
    }
    if guard == Some(PastExpiry) {
      return Blocked("This QR code has expired.");
    }
    var notes := TextColumn(Get(data, "notes", SStr("")));
    var code, name := FinishPickup(db, pickupId, user.id, notes, now, rnd);
    if notes.None? {
      return ServerError;
    }
    r := Done("Pickup completed successfully!", code, name, now, user.FullName());
  }

  /** The pickup key `Pickup.objects.get(id=pickup_id)` looks for, once
      Django's integer field has converted the value; `None` when the
      conversion raises `ValueError`. */
  function PickupKey(v: Scalar): (r: Option<int>)
    ensures r.None? <==> PyInt(v).RaisedValueError? || PyInt(v).RaisedTypeError?
    ensures r.Some? ==> PyInt(v) == Converted(r.value)
  {
    match PyInt(v)
    case Converted(n) => Some(n)
    case _ => None
  }

  /** `confirm_pickup(request)`: open to anyone; an anonymous caller fails
      when `complete_pickup` assigns it to `picked_up_by`, before anything
      is saved. */
  method ConfirmPickup(db: Database, user: User, data: RequestData, now: Moment, rnd: Randomness)
    returns (r: CompletionResponse)
    requires db.Valid() && db.Lifecycle()
    modifies db
    ensures old(db.PickupsFollowApproval()) ==> db.PickupsFollowApproval()
    ensures db.Valid() && db.Lifecycle() && db.packages == old(db.packages) && db.nextPickupId == old(db.nextPickupId)
    ensures var id := Get(data, "pickup_id", SNull);
            var key := PickupKey(id);
            var found := Truthy(id) && key.Some? && key.value >= 0 && key.value in old(db.pickups);
            && (!Truthy(id) ==> r == PickupIdRequired)
            && (Truthy(id) && key.None? ==> r == ServerError)
            && (Truthy(id) && key.Some? && !found ==> r == PickupMissing("Pickup record not found."))
            && (!found ==> db.pickups == old(db.pickups) && db.applications == old(db.applications))
    ensures var id := Get(data, "pickup_id", SNull);
            var key := PickupKey(id);
            Truthy(id) && key.Some? && key.value >= 0 && key.value in old(db.pickups) ==>
              var row := old(db.pickups)[key.value];
              var app := old(db.applications)[row.applicationId];
              var notes := TextColumn(Get(data, "notes", SStr("Package collected via QR scanner")));
              match CompletionGuard(row, now.date)
              case Some(block) =>
                && r == Blocked(if block.AlreadyDone? then "This package has already been collected." else "This QR code has expired.")
                && db.pickups == old(db.pickups) && db.applications == old(db.applications)
              case None =>
                if user.Anonymous? then
                  r == ServerError && db.pickups == old(db.pickups) && db.applications == old(db.applications)
                else
                  && db.pickups == old(db.pickups)[key.value := CompletedRow(row, user.id, now, notes)]
                  && db.applications == old(db.applications)[row.applicationId := app.(status := PickedUp)]
                  && r == if notes.None? then ServerError
                          else Done("Pickup confirmed for " + FullName(app.details) + "!", row.pickupCode,
                                    FullName(app.details), now, user.DisplayName())
  {
    var id := Get(data, "pickup_id", SNull);
    var notes := TextColumn(Get(data, "notes", SStr("Package collected via QR scanner")));
    if !Truthy(id) {
      return PickupIdRequired;
    }
    var key := PickupKey(id);
    if key.None? {
      return ServerError;
    }
    if key.value < 0 || key.value !in db.pickups {
      return PickupMissing("Pickup record not found.");
    }
    var pickupId: nat := key.value;
    var guard := CompletionGuard(db.pickups[pickupId], now.date);
    if guard == Some(AlreadyDone) {
      return Blocked("This package has already been collected.");
    }
    if guard == Some(PastExpiry) {
      return Blocked("This QR code has expired.");
    }
    if user.Anonymous? {
      return ServerError;
    }
    var code, name := FinishPickup(db, pickupId, user.id, notes, now, rnd);
    if notes.None? {
      return ServerError;
    }
    r := Done("Pickup confirmed for " + name + "!", code, name, now, user.DisplayName());
  }

  /** Neither completion endpoint looks at cancellation: a cancelled pickup
      that has not expired is completed like any other. */
  lemma CancelledCanBeCompleted(row: PickupRow, today: Day)
    requires row.status.Cancelled? && !IsExpired(row, today)
    ensures CompletionGuard(row, today).None?
  {
  }

  /** The two endpoints differ only in the notes they default to when the
      request names none. */
  lemma DefaultNotesDiffer(data: RequestData)
    requires "notes" !in data
    ensures TextColumn(Get(data, "notes", SStr(""))) == Some("")
    ensures TextColumn(Get(data, "notes", SStr("Package collected via QR scanner"))) == Some("Package collected via QR scanner")
  {
  }

  // ---------------------------------------------------------------------------
  // today_pickup_queue
  // ---------------------------------------------------------------------------

  /** One entry of the queue. */
  datatype QueueEntry = QueueEntry(
    id: nat, applicantName: string, referenceNumber: string, pickupCode: string,
    scheduledTime: string, status: PickupStatus, packageType: string)

  /** The filter of the queue: scheduled for today and not yet resolved. */
  predicate InQueue(row: PickupRow, today: Day) {
    row.scheduledDate == today && (row.status.Scheduled? || row.status.Confirmed?)
  }

  /** The entry the view builds for a stored pickup. */
  function EntryOf(apps: map<UuidText, ApplicationRow>, pickups: map<nat, PickupRow>, p: nat): (e: QueueEntry)
    requires p in pickups && pickups[p].applicationId in apps
    ensures e.id == p && e.pickupCode == pickups[p].pickupCode && e.scheduledTime == pickups[p].scheduledTime
    ensures e.status == pickups[p].status
    ensures e.referenceNumber == apps[pickups[p].applicationId].referenceNumber
  {
    var row := pickups[p];
    var app := apps[row.applicationId];
    QueueEntry(p, FullName(app.details), app.referenceNumber, row.pickupCode, row.scheduledTime,
               row.status, app.details.selectedPackage)
  }

  /** `order_by('scheduled_time')`. */
  function ByTime(): (le: (QueueEntry, QueueEntry) -> bool)
    ensures forall a, b :: le(a, b) == LexLe(a.scheduledTime, b.scheduledTime)
  {
    (a: QueueEntry, b: QueueEntry) => LexLe(a.scheduledTime, b.scheduledTime)
  }

  lemma ByTimeIsTotalPreorder()
    ensures TotalPreorder(ByTime())
  {
    forall a: QueueEntry, b: QueueEntry ensures ByTime()(a, b) || ByTime()(b, a) {
      LexLeTotal(a.scheduledTime, b.scheduledTime);
    }
    forall a: QueueEntry, b: QueueEntry, c: QueueEntry | ByTime()(a, b) && ByTime()(b, c)
      ensures ByTime()(a, c)
    {
      LexLeTransitive(a.scheduledTime, b.scheduledTime, c.scheduledTime);
    }
  }

  /** The filter of the query, one stored pickup at a time: the entries of
      today's unresolved pickups, each once, in no particular order. */
  method CollectQueued(apps: map<UuidText, ApplicationRow>, pickups: map<nat, PickupRow>, today: Day)
    returns (queued: seq<QueueEntry>)
    requires forall p :: p in pickups ==> pickups[p].applicationId in apps
    ensures forall e :: e in queued ==> e.id in pickups && InQueue(pickups[e.id], today) && e == EntryOf(apps, pickups, e.id)
    ensures forall p :: p in pickups && InQueue(pickups[p], today) ==> EntryOf(apps, pickups, p) in queued
    ensures forall e :: multiset(queued)[e] <= 1
  {
    var remaining := pickups.Keys;
    queued := [];
    while remaining != {}
      invariant remaining <= pickups.Keys
      invariant forall e :: e in queued ==>
                  e.id in pickups && e.id !in remaining && InQueue(pickups[e.id], today) && e == EntryOf(apps, pickups, e.id)
      invariant forall p :: p in pickups && p !in remaining && InQueue(pickups[p], today) ==> EntryOf(apps, pickups, p) in queued
      invariant forall e :: multiset(queued)[e] <= 1
      decreases remaining
    {
      var p :| p in remaining;
      if InQueue(pickups[p], today) {
        var entry := EntryOf(apps, pickups, p);
        assert entry !in queued;
        AppendNew(queued, entry);
        queued := queued + [entry];
      }
      remaining := remaining - {p};
    }
  }

  /** `today_pickup_queue(request)` on the day `today`: an entry for each
      pickup scheduled today that is still `SCHEDULED` or `CONFIRMED`, each
      once, ordered by the text of its time slot, and their number. */
  method TodayPickupQueue(db: Database, today: Day) returns (entries: seq<QueueEntry>, totalCount: nat)
    requires db.Valid()
    ensures totalCount == |entries|
    ensures forall e :: e in entries ==> e.id in db.pickups && InQueue(db.pickups[e.id], today) && e == EntryOf(db.applications, db.pickups, e.id)
    ensures forall p :: p in db.pickups && InQueue(db.pickups[p], today) ==> EntryOf(db.applications, db.pickups, p) in entries
    ensures forall e :: multiset(entries)[e] <= 1
    ensures SortedBy(entries, ByTime())
  {
    var queued := CollectQueued(db.applications, db.pickups, today);
    entries := SortBy(queued, ByTime());
    SortByPermutes(queued, ByTime());
    ByTimeIsTotalPreorder();
    SortBySorted(queued, ByTime());
    assert forall e :: e in entries <==> e in queued by {
      forall e ensures e in entries <==> e in queued {
        assert e in entries <==> e in multiset(entries);
        assert e in queued <==> e in multiset(queued);
      }
    }
    totalCount := |entries|;
  }
}
