/** applications/views.py: the anonymous submission and the supervisors'
    approval and rejection. A review is allowed only from `PENDING`;
    approval then issues the application's one pickup. Each `save()` is its
    own write, with no transaction around them. */
module ApplicationViews {
  import opened Common
  import opened Store
  import opened Accounts
  import opened Requests
  import opened ApplicationModels
  import opened PickupModels
  import opened ApplicationSerializers

  // ---------------------------------------------------------------------------
  // submit_application
  // ---------------------------------------------------------------------------

  /** The responses of `submit_application`. */
  datatype SubmitResponse =
    | SubmissionInvalid(errors: FieldErrors)  // 400 'Please correct the errors below.'
    | SubmitFailed                            // 500: the INSERT is refused (`IntegrityError`)
    | Submitted(referenceNumber: string, id: UuidText, fullName: string, phone: string,
                selectedPackage: string, status: ApplicationStatus)  // 201
  {
    function HttpStatus(): nat {
      match this
      case SubmissionInvalid(_) => 400
      case SubmitFailed => 500
      case Submitted(_, _, _, _, _, _) => 201
    }
  }

  /** `submit_application(request)`: a valid submission is saved as a new
      application, which receives its key from `rnd.uuid` and its reference
      number from `now` and `rnd.digits`; an invalid one is answered with its
      field errors and nothing is saved. */
  method SubmitApplication(db: Database, s: Submission, now: Moment, rnd: Randomness) returns (r: SubmitResponse)
    requires db.Valid() && db.Lifecycle()
    modifies db
    ensures db.Valid() && db.Lifecycle()
    ensures old(db.PickupsFollowApproval()) ==> db.PickupsFollowApproval()
    ensures db.pickups == old(db.pickups) && db.packages == old(db.packages) && db.nextPickupId == old(db.nextPickupId)
    ensures !SubmissionErrors(s).Clean() ==> r == SubmissionInvalid(SubmissionErrors(s)) && db.applications == old(db.applications)
    ensures SubmissionErrors(s).Clean() ==>
              var reference := GenerateReferenceNumber(now, rnd.digits);
              var saved := rnd.uuid !in old(db.applications) && !ReferenceTaken(old(db.applications), reference, rnd.uuid);
              if saved then
                && db.applications == old(db.applications)[rnd.uuid := ApplicationRow(reference, CleanedDetails(s), Pending, None, None, "", now)]
                && r == Submitted(reference, rnd.uuid, FullName(CleanedDetails(s)), CleanedDetails(s).phone,
                                  s.details.selectedPackage, Pending)
              else
                r == SubmitFailed && db.applications == old(db.applications)
  {
    var errors := SubmissionErrors(s);
    if !errors.Clean() {
      return SubmissionInvalid(errors);
    }
    ghost var apps0 := db.applications;
    var application := new Application(rnd.uuid, CleanedDetails(s), now);
    var ok := application.Save(db, now, rnd.digits);
    if !ok {
      return SubmitFailed;
    }
    if PickupsApproved(db.pickups, apps0) {
      GrowKeepsIssued(db.pickups, apps0, application.id, application.Row());
    }
    AssignReference(apps0, application.id, application.Row());
    r := Submitted(application.referenceNumber, application.id, FullName(application.details),
                   application.details.phone, application.details.selectedPackage, application.status);
  }

  // ---------------------------------------------------------------------------
  // approve_application and reject_application
  // ---------------------------------------------------------------------------

  /** The responses of the two review endpoints. */
  datatype ReviewResponse =
    | ApplicationNotFound                 // 404 'Application not found.'
    | NotPending(message: string)         // 400 'Only pending applications can be ...'
    | ReviewFailed                        // 500: a `save()` is refused (`IntegrityError`)
    | ApprovedWithPickup(pickupCode: string)  // 200 'Application approved successfully!'
    | RejectionRecorded                   // 200 'Application rejected.'
  {
    function HttpStatus(): nat {
      match this
      case ApplicationNotFound => 404
      case NotPending(_) => 400
      case ReviewFailed => 500
      case ApprovedWithPickup(_) => 200
      case RejectionRecorded => 200
    }
  }

  /** The stored application once a supervisor has reviewed it. */
  function Reviewed(row: ApplicationRow, status: ApplicationStatus, reviewer: UserId, now: Moment, notes: string): (r: ApplicationRow)
    ensures r.status == status && r.reviewedBy == Some(reviewer) && r.reviewedAt == Some(now) && r.reviewNotes == notes
    ensures r.referenceNumber == row.referenceNumber && r.details == row.details && r.createdAt == row.createdAt
  {
    row.(status := status, reviewedBy := Some(reviewer), reviewedAt := Some(now), reviewNotes := notes)
  }

  /** The pickup row `Pickup.objects.create(...)` stores for an approved
      application: scheduled on the preferred date and slot, with the code
      drawn from `u` and the QR payload built from them. */
  function IssuedPickup(app: UuidText, details: ApplicantDetails, today: Day, u: UuidText): (r: PickupRow)
    ensures r.applicationId == app && r.status == Scheduled
    ensures r.scheduledDate == details.preferredDate && r.scheduledTime == details.preferredTime
    ensures r.pickupCode == GeneratePickupCode(u) && r.createdDate == today
    ensures r.qrImage == Some(QrPayloadOf(r.pickupCode, app, details, r.scheduledDate, r.scheduledTime))
    ensures r.pickedUpAt.None? && r.pickedUpBy.None? && r.notes == ""
  {
    var code := GeneratePickupCode(u);
    PickupRow(app, code, Some(QrPayloadOf(code, app, details, details.preferredDate, details.preferredTime)),
              details.preferredDate, details.preferredTime, Scheduled, None, None, "", today)
  }

  /** The guard both review endpoints share. */
  function ReviewGuard(apps: map<UuidText, ApplicationRow>, id: UuidText, verb: string): (r: Option<ReviewResponse>)
    ensures id !in apps ==> r == Some(ApplicationNotFound)
    ensures id in apps && !apps[id].status.Pending? ==> r == Some(NotPending("Only pending applications can be " + verb + "."))
    ensures r.None? <==> id in apps && apps[id].status.Pending?
  {
    if id !in apps then Some(ApplicationNotFound)
    else if !apps[id].status.Pending? then Some(NotPending("Only pending applications can be " + verb + "."))
    else None
  }

  /** The fields a review sets and the `save()` that stores them. While
      pickups follow approval, no pickup points to a pending application,
      so the link survives the review. */
  method MarkReviewed(db: Database, id: UuidText, status: ApplicationStatus, reviewer: UserId, now: Moment,
                      notes: string, digits: FourDigits) returns (application: Application)
    requires db.Valid() && db.Lifecycle() && id in db.applications && db.applications[id].status.Pending?
    requires status.Approved? || status.Rejected?
    modifies db
    ensures fresh(application) && application.id == id && !application.adding
    ensures db.applications == old(db.applications)[id := Reviewed(old(db.applications)[id], status, reviewer, now, notes)]
    ensures application.Row() == db.applications[id]
    ensures db.pickups == old(db.pickups) && db.packages == old(db.packages) && db.nextPickupId == old(db.nextPickupId)
    ensures db.Valid() && db.Lifecycle()
    ensures old(db.PickupsFollowApproval()) ==> db.PickupsFollowApproval()
  {
    ghost var apps0 := db.applications;
    application := new Application.Load(db, id);
    application.status := status;
    application.reviewedBy := Some(reviewer);
    application.reviewedAt := Some(now);
    application.reviewNotes := notes;
    ReferenceFree(db.applications, id);
    var ok := application.Save(db, now, digits);
    assert ok;
    if PickupsApproved(db.pickups, apps0) {
      ReviewKeepsIssued(db.pickups, apps0, id, application.Row());
    }
    AssignReference(apps0, id, application.Row());
  }

  /** `Pickup.objects.create(application=..., scheduled_date=...,
      scheduled_time=...)` for an approved application: the INSERT succeeds
      unless the drawn code is already taken or the application already has
      a pickup (the one-to-one link). */
  method IssuePickup(db: Database, application: Application, today: Day, u: UuidText) returns (ok: bool, code: string)
    requires db.Valid() && db.Lifecycle()
    requires application.id in db.applications && db.applications[application.id] == application.Row()
    requires application.status.Approved?
    modifies db
    ensures ok <==> !CodeTaken(old(db.pickups), GeneratePickupCode(u), old(db.nextPickupId))
                    && !ApplicationTaken(old(db.pickups), application.id, old(db.nextPickupId))
    ensures ok ==> db.pickups == old(db.pickups)[old(db.nextPickupId) := IssuedPickup(application.id, application.details, today, u)]
                   && db.nextPickupId == old(db.nextPickupId) + 1 && code == GeneratePickupCode(u)
    ensures !ok ==> db.pickups == old(db.pickups) && db.nextPickupId == old(db.nextPickupId)
    ensures db.applications == old(db.applications) && db.packages == old(db.packages)
    ensures db.Valid() && db.Lifecycle()
    ensures old(db.PickupsFollowApproval()) ==> db.PickupsFollowApproval()
  {
    var pickup := new Pickup(application, application.details.preferredDate, application.details.preferredTime, today);
    ok := pickup.Save(db, u);
    code := pickup.pickupCode;
    if ok {
      assert pickup.Row() == IssuedPickup(application.id, application.details, today, u);
      IssueKeepsIssued(old(db.pickups), db.applications, old(db.nextPickupId), pickup.Row());
    }
  }

  /** While pickups follow approval, a pending application holds no pickup,
      so approving it can fail only on a code that is already taken. */
  lemma PendingApprovalLinkFree(db: Database, id: UuidText)
    requires db.Valid() && db.PickupsFollowApproval()
    requires id in db.applications && db.applications[id].status.Pending?
    ensures !ApplicationTaken(db.pickups, id, db.nextPickupId)
  {
    PendingHasNoPickup(db, id);
  }

  /** `approve_application(request, application_id)` for an authenticated
      supervisor. */
  method ApproveApplication(db: Database, user: User, id: UuidText, data: RequestData, now: Moment, rnd: Randomness)
    returns (r: ReviewResponse)
    requires user.Member?
    requires db.Valid() && db.Lifecycle()
    modifies db
    ensures db.Valid() && db.Lifecycle() && db.packages == old(db.packages)
    ensures old(db.PickupsFollowApproval()) ==> db.PickupsFollowApproval()
    ensures ReviewGuard(old(db.applications), id, "approved").Some? ==>
              && r == ReviewGuard(old(db.applications), id, "approved").value
              && db.applications == old(db.applications) && db.pickups == old(db.pickups)
              && db.nextPickupId == old(db.nextPickupId)
    ensures ReviewGuard(old(db.applications), id, "approved").None? ==>
              var notes := TextColumn(Get(data, "notes", SStr("")));
              var app := old(db.applications)[id];
              if notes.None? then
                r == ReviewFailed && db.applications == old(db.applications) && db.pickups == old(db.pickups)
                && db.nextPickupId == old(db.nextPickupId)
              else
                && db.applications == old(db.applications)[id := Reviewed(app, Approved, user.id, now, notes.value)]
                && var issued := !CodeTaken(old(db.pickups), GeneratePickupCode(rnd.uuid), old(db.nextPickupId))
                                 && !ApplicationTaken(old(db.pickups), id, old(db.nextPickupId));
                   if issued then
                     && db.pickups == old(db.pickups)[old(db.nextPickupId) := IssuedPickup(id, app.details, now.date, rnd.uuid)]
                     && db.nextPickupId == old(db.nextPickupId) + 1
                     && r == ApprovedWithPickup(GeneratePickupCode(rnd.uuid))
                   else
                     r == ReviewFailed && db.pickups == old(db.pickups) && db.nextPickupId == old(db.nextPickupId)
  {
    var guard := ReviewGuard(db.applications, id, "approved");
    if guard.Some? {
      return guard.value;
    }
    var notes := TextColumn(Get(data, "notes", SStr("")));
    if notes.None? {
      return ReviewFailed;
    }
    var application := MarkReviewed(db, id, Approved, user.id, now, notes.value, rnd.digits);
    var ok, code := IssuePickup(db, application, now.date, rnd.uuid);
    if !ok {
      return ReviewFailed;
    }
    r := ApprovedWithPickup(code);
  }

  /** `reject_application(request, application_id)` for an authenticated
      supervisor: no pickup is created. */
  method RejectApplication(db: Database, user: User, id: UuidText, data: RequestData, now: Moment, digits: FourDigits)
    returns (r: ReviewResponse)
    requires user.Member?
    requires db.Valid() && db.Lifecycle()
    modifies db
    ensures db.Valid() && db.Lifecycle()
    ensures old(db.PickupsFollowApproval()) ==> db.PickupsFollowApproval()
    ensures db.pickups == old(db.pickups) && db.packages == old(db.packages) && db.nextPickupId == old(db.nextPickupId)
    ensures ReviewGuard(old(db.applications), id, "rejected").Some? ==>
              r == ReviewGuard(old(db.applications), id, "rejected").value && db.applications == old(db.applications)
    ensures ReviewGuard(old(db.applications), id, "rejected").None? ==>
              var notes := TextColumn(Get(data, "notes", SStr("")));
              if notes.None? then r == ReviewFailed && db.applications == old(db.applications)
              else
                && r == RejectionRecorded
                && db.applications == old(db.applications)[id := Reviewed(old(db.applications)[id], Rejected, user.id, now, notes.value)]
  {
    var guard := ReviewGuard(db.applications, id, "rejected");
    if guard.Some? {
      return guard.value;
    }
    var notes := TextColumn(Get(data, "notes", SStr("")));
    if notes.None? {
      return ReviewFailed;
    }
    var application := MarkReviewed(db, id, Rejected, user.id, now, notes.value, digits);
    r := RejectionRecorded;
  }

  /** Approving the same application twice: once the first call has
      approved it, the second finds it no longer pending and changes
      nothing, so the application keeps the one pickup the first call
      issued. */
  method ApproveTwice(db: Database, user: User, id: UuidText, data: RequestData, now: Moment, rnd1: Randomness, rnd2: Randomness)
    returns (first: ReviewResponse, second: ReviewResponse)
    requires user.Member?
    requires db.Valid() && db.Lifecycle()
    modifies db
    ensures first.ApprovedWithPickup? ==>
              && id in old(db.applications)
              && second == NotPending("Only pending applications can be approved.")
              && db.pickups == old(db.pickups)[old(db.nextPickupId) := IssuedPickup(id, old(db.applications)[id].details, now.date, rnd1.uuid)]
    ensures id !in old(db.applications) ==> first == ApplicationNotFound && second == ApplicationNotFound
    ensures db.Valid() && db.Lifecycle()
    ensures old(db.PickupsFollowApproval()) ==> db.PickupsFollowApproval()
  {
    first := ApproveApplication(db, user, id, data, now, rnd1);
    second := ApproveApplication(db, user, id, data, now, rnd2);
  }
}
