/** pickups/serializers.py: `QRCodeVerificationSerializer.validate_pickup_code`,
    a guard chain over the pickup the code names. */
module PickupSerializers {
  import opened Common
  import opened Store
  import opened PickupModels

  /** The outcome of a field validator: the value it returns, or the message
      of the `ValidationError` it raises. */
  datatype Validation<T> = Passed(value: T) | Refused(message: string)

  /** `validate_pickup_code(value)` on the day `today`: an unknown code, a
      completed pickup and an expired one are refused, in that order; any
      other pickup, a cancelled one included, lets the code through. */
  function ValidatePickupCode(db: Database, value: string, today: Day): (r: Validation<string>)
    reads db
    requires db.Valid()
    ensures r.Passed? ==> r.value == value
    ensures r == Refused("Invalid QR code.") <==> forall p :: p in db.pickups ==> db.pickups[p].pickupCode != value
    ensures forall p :: p in db.pickups && db.pickups[p].pickupCode == value ==>
              && (r == Refused("This QR code has already been used.") <==> db.pickups[p].status.Completed?)
              && (r == Refused("This QR code has expired.") <==>
                    !db.pickups[p].status.Completed? && IsExpired(db.pickups[p], today))
              && (r.Passed? <==> !db.pickups[p].status.Completed? && !IsExpired(db.pickups[p], today))
  {
    match db.PickupWithCode(value)
    case None => Refused("Invalid QR code.")
    case Some(p) =>
      var pickup := db.pickups[p];
      if pickup.status.Completed? then Refused("This QR code has already been used.")
      else if IsExpired(pickup, today) then Refused("This QR code has expired.")
      else Passed(value)
  }

  /** A completed pickup is refused as used even when it has also expired:
      the status is checked first. */
  lemma UsedBeforeExpired(db: Database, p: nat, today: Day)
    requires db.Valid() && p in db.pickups && db.pickups[p].status.Completed?
    ensures ValidatePickupCode(db, db.pickups[p].pickupCode, today) == Refused("This QR code has already been used.")
  {
  }

  /** A cancelled pickup that has not expired passes the validator. */
  lemma CancelledPasses(db: Database, p: nat, today: Day)
    requires db.Valid() && p in db.pickups && db.pickups[p].status.Cancelled?
    requires !IsExpired(db.pickups[p], today)
    ensures ValidatePickupCode(db, db.pickups[p].pickupCode, today) == Passed(db.pickups[p].pickupCode)
  {
  }
}
