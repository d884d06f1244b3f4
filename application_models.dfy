/** applications/models.py: an application instance, its full name and the
    reference number its first `save()` assigns. */
module ApplicationModels {
  import opened Common
  import opened Numerals
  import opened Store

  /** `generate_reference_number()`: `GCR`, the year and the month of `now`
      as `strftime('%y%m')` prints them, and four random digits. */
  function GenerateReferenceNumber(now: Moment, digits: FourDigits): (r: string)
    ensures |r| == 11 && |r| <= 20
    ensures r[..3] == "GCR" && AllDigits(r[3..])
    ensures r[7..] == digits
  {
    "GCR" + TwoDigits(now.year % 100) + TwoDigits(now.month) + digits
  }

  /** The parts a reference number is read back into. */
  datatype ReferenceParts = ReferenceParts(year2: nat, month: nat, digits: string)

  /** Reads `GCR`, two digits of year, two of month and four more back from a
      reference number; `None` for any other string. */
  function ParseReferenceNumber(s: string): (r: Option<ReferenceParts>)
    ensures r.Some? ==> |s| == 11 && s[..3] == "GCR"
  {
    if |s| == 11 && s[..3] == "GCR" && AllDigits(s[3..]) then
      Some(ReferenceParts(DecimalValue(s[3..5]), DecimalValue(s[5..7]), s[7..]))
    else None
  }

  lemma TwoDigitsOfValue(t: string)
    requires |t| == 2 && AllDigits(t)
    ensures DecimalValue(t) < 100 && TwoDigits(DecimalValue(t)) == t
  {
    assert t[..1][..0] == [];
    assert DecimalValue(t[..1]) == DigitValue(t[0]);
    var v := DecimalValue(t);
    assert v == DigitValue(t[0]) * 10 + DigitValue(t[1]);
    assert v / 10 == DigitValue(t[0]) && v % 10 == DigitValue(t[1]);
  }

  /** A generated reference number reads back to the year, month and digits
      it was made from. */
  lemma ReferenceNumberRoundTrip(now: Moment, digits: FourDigits)
    ensures ParseReferenceNumber(GenerateReferenceNumber(now, digits))
         == Some(ReferenceParts(now.year % 100, now.month, digits))
  {
    var r := GenerateReferenceNumber(now, digits);
    assert r[3..5] == TwoDigits(now.year % 100);
    assert r[5..7] == TwoDigits(now.month);
  }

  /** Conversely, every string that reads back as a reference number with
      a valid month is the one generated at any moment of that year and month. */
  lemma ParsedReferenceIsGenerated(s: string, now: Moment)
    requires ParseReferenceNumber(s).Some?
    requires now.year % 100 == ParseReferenceNumber(s).value.year2
    requires now.month == ParseReferenceNumber(s).value.month
    ensures |s[7..]| == 4 && AllDigits(s[7..])
    ensures GenerateReferenceNumber(now, s[7..]) == s
  {
    assert s[3..][..2] == s[3..5] && s[3..][2..4] == s[5..7];
    TwoDigitsOfValue(s[3..5]);
    TwoDigitsOfValue(s[5..7]);
    assert s == s[..3] + s[3..5] + s[5..7] + s[7..];
  }

  /** `get_full_name()`: first name, one space, last name, with nothing
      trimmed (unlike `User.get_full_name()`). */
  function FullName(d: ApplicantDetails): (r: string)
    ensures |r| == |d.firstName| + 1 + |d.lastName|
    ensures r[..|d.firstName|] == d.firstName && r[|d.firstName|] == ' '
    ensures r[|d.firstName| + 1..] == d.lastName
  {
    d.firstName + " " + d.lastName
  }

  /** An Application model instance. `adding` is Django's `_state.adding`:
      true until the first successful `save()` inserts the row. */
  class Application {
    const id: UuidText
    var adding: bool
    var referenceNumber: string
    var details: ApplicantDetails
    var status: ApplicationStatus
    var reviewedBy: Option<UserId>
    var reviewedAt: Option<Moment>
    var reviewNotes: string
    var createdAt: Moment

    /** The row `save()` writes. */
    function Row(): ApplicationRow
      reads this
    {
      ApplicationRow(referenceNumber, details, status, reviewedBy, reviewedAt, reviewNotes, createdAt)
    }

    /** `Application(**validated_data)`: the `uuid4` key, a blank reference
        number, status `PENDING` and blank review fields; `created_at` is the
        moment of the first save, which follows at once. */
    constructor (id: UuidText, details: ApplicantDetails, now: Moment)
      ensures this.id == id && adding
      ensures Row() == ApplicationRow("", details, Pending, None, None, "", now)
    {
      this.id := id;
      adding := true;
      referenceNumber := "";
      this.details := details;
      status := Pending;
      reviewedBy := None;
      reviewedAt := None;
      reviewNotes := "";
      createdAt := now;
    }

    /** `Application.objects.get(id=id)` for a key that exists. */
    constructor Load(db: Database, id: UuidText)
      requires id in db.applications
      ensures this.id == id && !adding && Row() == db.applications[id]
    {
      this.id := id;
      adding := false;
      var row := db.applications[id];
      referenceNumber := row.referenceNumber;
      details := row.details;
      status := row.status;
      reviewedBy := row.reviewedBy;
      reviewedAt := row.reviewedAt;
      reviewNotes := row.reviewNotes;
      createdAt := row.createdAt;
    }

    /** `save()`: a reference number is generated only when there is none,
        so an assigned one is never replaced; then the row is written. */
    method Save(db: Database, now: Moment, digits: FourDigits) returns (ok: bool)
      requires db.Valid()
      modifies this, db
      ensures referenceNumber == if old(referenceNumber) == "" then GenerateReferenceNumber(now, digits)
                                 else old(referenceNumber)
      ensures details == old(details) && status == old(status) && reviewedBy == old(reviewedBy)
              && reviewedAt == old(reviewedAt) && reviewNotes == old(reviewNotes) && createdAt == old(createdAt)
      ensures ok <==> !(old(adding) && id in old(db.applications))
                      && !ReferenceTaken(old(db.applications), referenceNumber, id)
      ensures db.applications == if ok then old(db.applications)[id := Row()] else old(db.applications)
      ensures db.pickups == old(db.pickups) && db.packages == old(db.packages)
              && db.nextPickupId == old(db.nextPickupId)
      ensures adding == (old(adding) && !ok)
      ensures db.Valid()
    {
      if referenceNumber == "" {
        referenceNumber := GenerateReferenceNumber(now, digits);
      }
      ok := db.SaveApplication(id, Row(), adding);
      if ok {
        adding := false;
      }
    }
  }
}
