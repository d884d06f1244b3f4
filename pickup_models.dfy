/** pickups/models.py: the pickup voucher. Its code is drawn once from a
    `uuid4`, its QR image encodes a fixed dictionary, it expires by a rule
    with two thresholds, and completing it also marks its application
    collected. */
module PickupModels {
  import opened Common
  import opened Text
  import opened Store
  import opened ApplicationModels

  // ---------------------------------------------------------------------------
  // The pickup code
  // ---------------------------------------------------------------------------

  /** A slice of a UUID's text that holds no hyphen position. */
  lemma HyphenFreeSlice(u: UuidText, lo: int, hi: int)
    requires 0 <= lo <= hi <= 36
    requires hi <= 8 || (9 <= lo && hi <= 13) || (14 <= lo && hi <= 18) || (19 <= lo && hi <= 23) || 24 <= lo
    ensures RemoveChar(u[lo..hi], '-') == u[lo..hi]
  {
    forall k | 0 <= k < hi - lo ensures u[lo..hi][k] != '-' {
      assert u[lo..hi][k] == u[lo + k];
      assert lo + k !in {8, 13, 18, 23};
    }
    RemoveCharAbsent(u[lo..hi], '-');
  }

  /** Removing hyphens around one hyphen at `i`. */
  lemma RemoveAtHyphen(s: string, i: int)
    requires 0 <= i < |s| && s[i] == '-'
    ensures RemoveChar(s, '-') == RemoveChar(s[..i], '-') + RemoveChar(s[i + 1..], '-')
  {
    assert s == s[..i] + ([s[i]] + s[i + 1..]);
    RemoveCharConcat(s[..i], [s[i]] + s[i + 1..], '-');
    RemoveCharConcat([s[i]], s[i + 1..], '-');
    assert RemoveChar([s[i]], '-') == [];
  }

  /** The last three groups of a UUID's text, hyphens removed. */
  lemma UuidTailWithoutHyphens(u: UuidText)
    ensures RemoveChar(u[14..], '-') == u[14..18] + u[19..23] + u[24..]
  {
    var t2 := u[14..];
    assert t2[..4] == u[14..18] && t2[5..] == u[19..];
    RemoveAtHyphen(t2, 4);
    var t3 := u[19..];
    assert t3[..4] == u[19..23] && t3[5..] == u[24..];
    RemoveAtHyphen(t3, 4);
    HyphenFreeSlice(u, 14, 18);
    HyphenFreeSlice(u, 19, 23);
    HyphenFreeSlice(u, 24, 36);
    assert u[24..] == u[24..36];
  }

  /** The 32 hexadecimal digits of a UUID's text, hyphens removed. */
  lemma UuidWithoutHyphens(u: UuidText)
    ensures RemoveChar(u, '-') == u[..8] + u[9..13] + u[14..18] + u[19..23] + u[24..]
  {
    RemoveAtHyphen(u, 8);
    var t1 := u[9..];
    assert t1[..4] == u[9..13] && t1[5..] == u[14..];
    RemoveAtHyphen(t1, 4);
    UuidTailWithoutHyphens(u);
    HyphenFreeSlice(u, 0, 8);
    HyphenFreeSlice(u, 9, 13);
    assert u[..8] == u[0..8];
  }

  /** `generate_pickup_code()`: `GCR` and the first twelve characters of the
      `uuid4` text with its hyphens removed, upper-cased. The column holds 50. */
  function GeneratePickupCode(u: UuidText): (r: string)
    ensures |r| == 15 && |r| <= 50
    ensures r[..3] == "GCR"
    ensures forall k :: 3 <= k < 15 ==> IsUpperHex(r[k])
  {
    UuidWithoutHyphens(u);
    var hex := ToUpper(RemoveChar(u, '-'));
    assert forall k :: 0 <= k < 12 ==> hex[k] == UpperAscii(u[if k < 8 then k else k + 1]);
    "GCR" + hex[..12]
  }

  /** The twelve characters are the first two groups of the UUID: eight and
      four hexadecimal digits. */
  lemma PickupCodeFromUuid(u: UuidText)
    ensures GeneratePickupCode(u) == "GCR" + ToUpper(u[..8] + u[9..13])
  {
    UuidWithoutHyphens(u);
    var hex := RemoveChar(u, '-');
    assert hex[..12] == u[..8] + u[9..13];
  }

  // ---------------------------------------------------------------------------
  // Expiry
  // ---------------------------------------------------------------------------

  /** The last day a pickup is still valid: the later of the day after the
      scheduled date and a week after the pickup was created. */
  function ExpiryThreshold(p: PickupRow): (d: Day)
    ensures d >= p.scheduledDate + 1 && d >= p.createdDate + 7
    ensures d == p.scheduledDate + 1 || d == p.createdDate + 7
  {
    if p.scheduledDate + 1 >= p.createdDate + 7 then p.scheduledDate + 1 else p.createdDate + 7
  }

  /** `is_expired`, on the day `today`. */
  predicate IsExpired(p: PickupRow, today: Day) {
    today > ExpiryThreshold(p)
  }

  /** Expired exactly when both thresholds are passed. */
  lemma ExpiredIff(p: PickupRow, today: Day)
    ensures IsExpired(p, today) <==> today > p.scheduledDate + 1 && today > p.createdDate + 7
  {
  }

  /** Once expired, a pickup stays expired. */
  lemma ExpiredMonotone(p: PickupRow, today: Day, later: Day)
    requires IsExpired(p, today) && today <= later
    ensures IsExpired(p, later)
  {
  }

  /** No pickup expires within a week of its creation, whatever its date. */
  lemma NotExpiredWithinWeek(p: PickupRow, today: Day)
    requires today <= p.createdDate + 7
    ensures !IsExpired(p, today)
  {
  }

  /** The threshold day is the last valid day. */
  lemma ThresholdIsLastValidDay(p: PickupRow)
    ensures !IsExpired(p, ExpiryThreshold(p)) && IsExpired(p, ExpiryThreshold(p) + 1)
  {
  }

  /** The `expiry_date` the scanner reports, a week after the scheduled date,
      is the real threshold only for a pickup created on its scheduled date. */
  lemma ReportedExpiryMatchesOnlyWhenScheduledOnCreation(p: PickupRow)
    ensures p.scheduledDate + 7 == ExpiryThreshold(p) <==> p.createdDate == p.scheduledDate
  {
  }

  /** The date the expired message cites, the day after the scheduled date,
      is the real threshold only when the pickup is scheduled at least six
      days after its creation. */
  lemma CitedDateMatchesOnlyWhenScheduledLate(p: PickupRow)
    ensures p.scheduledDate + 1 == ExpiryThreshold(p) <==> p.createdDate + 6 <= p.scheduledDate
  {
  }

  // ---------------------------------------------------------------------------
  // The QR payload
  // ---------------------------------------------------------------------------

  const QrKeys: set<string> := {"code", "application_id", "name", "package", "date", "time"}

  /** The dictionary `generate_qr_code()` encodes. */
  function QrPayloadOf(code: string, app: UuidText, d: ApplicantDetails, date: Day, time: string): (q: QrPayload)
    ensures q.Keys == QrKeys
    ensures q["code"] == QrText(code) && q["application_id"] == QrText(app)
    ensures q["name"] == QrText(FullName(d)) && q["package"] == QrText(d.selectedPackage)
    ensures q["date"] == QrDate(date) && q["time"] == QrText(time)
  {
    map["code" := QrText(code), "application_id" := QrText(app), "name" := QrText(FullName(d)),
        "package" := QrText(d.selectedPackage), "date" := QrDate(date), "time" := QrText(time)]
  }

  // ---------------------------------------------------------------------------
  // The Pickup instance
  // ---------------------------------------------------------------------------

  class Pickup {
    /** The auto-increment key, `None` until the row is inserted. */
    var id: Option<nat>
    const application: Application
    var pickupCode: string
    var qrImage: Option<QrPayload>
    var scheduledDate: Day
    var scheduledTime: string
    var status: PickupStatus
    var pickedUpAt: Option<Moment>
    var pickedUpBy: Option<UserId>
    var notes: string
    var createdDate: Day

    function Row(): PickupRow
      reads this
    {
      PickupRow(application.id, pickupCode, qrImage, scheduledDate, scheduledTime, status,
                pickedUpAt, pickedUpBy, notes, createdDate)
    }

    /** `Pickup(application=…, scheduled_date=…, scheduled_time=…)`: no code
        and no image yet, status `SCHEDULED`, blank completion fields. */
    constructor (application: Application, scheduledDate: Day, scheduledTime: string, today: Day)
      ensures this.application == application && id.None?
      ensures Row() == PickupRow(application.id, "", None, scheduledDate, scheduledTime, Scheduled,
                                 None, None, "", today)
    {
      id := None;
      this.application := application;
      pickupCode := "";
      qrImage := None;
      this.scheduledDate := scheduledDate;
      this.scheduledTime := scheduledTime;
      status := Scheduled;
      pickedUpAt := None;
      pickedUpBy := None;
      notes := "";
      createdDate := today;
    }

    /** `Pickup.objects.get(id=id)`, with its application loaded alongside. */
    constructor Load(db: Database, id: nat, application: Application)
      requires id in db.pickups && db.pickups[id].applicationId == application.id
      ensures this.id == Some(id) && this.application == application && Row() == db.pickups[id]
    {
      this.id := Some(id);
      this.application := application;
      var row := db.pickups[id];
      pickupCode := row.pickupCode;
      qrImage := row.qrImage;
      scheduledDate := row.scheduledDate;
      scheduledTime := row.scheduledTime;
      status := row.status;
      pickedUpAt := row.pickedUpAt;
      pickedUpBy := row.pickedUpBy;
      notes := row.notes;
      createdDate := row.createdDate;
    }

    /** The instance mirrors its stored row and so does its application. */
    predicate InSync(db: Database)
      reads this, application, db
    {
      && id.Some? && id.value in db.pickups && db.pickups[id.value] == Row()
      && application.id in db.applications && db.applications[application.id] == application.Row()
      && !application.adding
    }

    /** `super().save()` inside `save()`: the INSERT of a new instance, which
        receives the next key, or the UPDATE of a stored one. */
    method WriteRow(db: Database) returns (ok: bool)
      requires db.Valid()
      requires id.Some? ==> id.value in db.pickups
      modifies this`id, db
      ensures var key := if old(id).Some? then old(id).value else old(db.nextPickupId);
              && (ok <==> application.id in old(db.applications)
                          && !CodeTaken(old(db.pickups), pickupCode, key)
                          && !ApplicationTaken(old(db.pickups), application.id, key))
              && id == (if ok then Some(key) else old(id))
              && db.pickups == (if ok then old(db.pickups)[key := Row()] else old(db.pickups))
              && db.nextPickupId == (if ok && old(id).None? then key + 1 else old(db.nextPickupId))
      ensures db.applications == old(db.applications) && db.packages == old(db.packages)
      ensures db.Valid()
    {
      if id.None? {
        var newId := db.InsertPickup(Row());
        ok := newId.Some?;
        if ok {
          id := newId;
        }
      } else {
        ok := db.UpdatePickup(id.value, Row());
      }
    }

    /** `generate_qr_code()`: the payload built from the saved code, the
        application and the schedule, stored with an update of the image. */
    method GenerateQrCode(db: Database)
      requires db.Valid() && id.Some? && id.value in db.pickups && db.pickups[id.value] == Row()
      modifies this`qrImage, db
      ensures qrImage == Some(QrPayloadOf(pickupCode, application.id, application.details, scheduledDate, scheduledTime))
      ensures db.pickups == old(db.pickups)[id.value := Row()]
      ensures db.applications == old(db.applications) && db.packages == old(db.packages)
              && db.nextPickupId == old(db.nextPickupId)
      ensures db.Valid()
    {
      qrImage := Some(QrPayloadOf(pickupCode, application.id, application.details, scheduledDate, scheduledTime));
      var stored := db.UpdatePickup(id.value, Row());
      assert stored;
    }

    /** `save()`: a code is generated only when there is none, so an assigned
        code is never replaced; the row is written; then, when there is no
        image yet, the QR payload is generated. */
    method Save(db: Database, u: UuidText) returns (ok: bool)
      requires db.Valid()
      requires id.Some? ==> id.value in db.pickups
      modifies this`pickupCode, this`id, this`qrImage, db
      ensures pickupCode == if old(pickupCode) == "" then GeneratePickupCode(u) else old(pickupCode)
      ensures var key := if old(id).Some? then old(id).value else old(db.nextPickupId);
              && (ok <==> application.id in old(db.applications)
                          && !CodeTaken(old(db.pickups), pickupCode, key)
                          && !ApplicationTaken(old(db.pickups), application.id, key))
              && (ok ==> id == Some(key) && db.pickups == old(db.pickups)[key := Row()])
              && db.nextPickupId == (if ok && old(id).None? then key + 1 else old(db.nextPickupId))
      ensures ok ==> qrImage == if old(qrImage).None?
                                then Some(QrPayloadOf(pickupCode, application.id, application.details, scheduledDate, scheduledTime))
                                else old(qrImage)
      ensures !ok ==> id == old(id) && qrImage == old(qrImage) && db.pickups == old(db.pickups)
      ensures db.applications == old(db.applications) && db.packages == old(db.packages)
      ensures db.Valid()
    {
      if pickupCode == "" {
        pickupCode := GeneratePickupCode(u);
      }
      ghost var code := pickupCode;
      ok := WriteRow(db);
      if ok && qrImage.None? {
        ghost var written, key := db.pickups, id.value;
        GenerateQrCode(db);
        assert id.value == key && pickupCode == code;
        OverwriteTwice(old(db.pickups), key, written[key], Row());
      }
    }

    /** The first half of `complete_pickup`: the pickup's own fields are
        stamped and the pickup is saved. Its code is kept, as is its image. */
    method SaveCompleted(db: Database, supervisor: UserId, now: Moment, u: UuidText)
      requires db.Valid() && id.Some? && id.value in db.pickups && db.pickups[id.value] == Row()
      requires application.id in db.applications
      requires pickupCode != "" && qrImage.Some?
      modifies this`status, this`pickedUpAt, this`pickedUpBy, this`pickupCode, this`id, this`qrImage, db
      ensures Row() == old(Row()).(status := Completed, pickedUpAt := Some(now), pickedUpBy := Some(supervisor))
      ensures id == old(id) && db.pickups == old(db.pickups)[id.value := Row()]
      ensures db.applications == old(db.applications) && db.packages == old(db.packages)
              && db.nextPickupId == old(db.nextPickupId)
      ensures db.Valid()
    {
      status := Completed;
      pickedUpAt := Some(now);
      pickedUpBy := Some(supervisor);
      ghost var key := id.value;
      PickupValuesFree(db.pickups, key);
      assert db.pickups[key].pickupCode == pickupCode && db.pickups[key].applicationId == application.id;
      assert !CodeTaken(db.pickups, pickupCode, key) && !ApplicationTaken(db.pickups, application.id, key);
      var saved := Save(db, u);
      assert saved;
    }

    /** `complete_pickup(supervisor_user)`: the pickup becomes `COMPLETED`,
        stamped with the moment and the supervisor, and is saved; then its
        application becomes `PICKED_UP` and is saved. The prior status is not
        checked. */
    method CompletePickup(db: Database, supervisor: UserId, now: Moment, rnd: Randomness)
      requires db.Valid() && InSync(db)
      requires pickupCode != "" && qrImage.Some? && application.referenceNumber != ""
      modifies this`status, this`pickedUpAt, this`pickedUpBy, this`pickupCode, this`id, this`qrImage
      modifies application, db
      ensures Row() == old(Row()).(status := Completed, pickedUpAt := Some(now), pickedUpBy := Some(supervisor))
      ensures application.Row() == old(application.Row()).(status := PickedUp)
      ensures id == old(id) && db.pickups == old(db.pickups)[id.value := Row()]
      ensures db.applications == old(db.applications)[application.id := application.Row()]
      ensures db.packages == old(db.packages) && db.nextPickupId == old(db.nextPickupId)
      ensures db.Valid() && InSync(db)
    {
      SaveCompleted(db, supervisor, now, rnd.uuid);
      ghost var completed, pickupsAfter := Row(), db.pickups;
      application.status := PickedUp;
      ReferenceFree(db.applications, application.id);
      var appSaved := application.Save(db, now, rnd.digits);
      assert appSaved;
      assert Row() == completed && db.pickups == pickupsAfter;
    }
  }
}
