/**
 * The submit handler of the movement form (components/features/movements/movement-form.tsx).
 * It runs only on values the schema accepts, computes the fingerprint from the
 * soldier, the start time and the two locations, and creates the movement with status
 * pending. A duplicate with a known id is looked up again and shown to the user; any
 * other failure ends in an error message.
 */
module MovementForm {
  import opened Wrappers
  import opened Fingerprint
  import opened MovementSchema
  import opened Movements

  const FallbackErrorMessage: string := "An error occurred during submission"

  /** What the user sees after submitting. */
  datatype SubmitOutcome =
    | Recorded(data: Movement)
    | DuplicateShown(existing: Option<Movement>)
    | SubmitError(message: string)

  /** The values the handler passes to the create action: the form's values with status pending. */
  function Submission(v: MovementFormValues): (n: NewMovement)
    requires IsValid(v)
    ensures n.status == Pending && n.notes == v.notes
    ensures n.soldierId == v.soldierId && n.fromLocation == v.fromLocation && n.toLocation == v.toLocation
    ensures n.startTime == v.startTime.value && n.endTime == v.endTime.value && n.startTime < n.endTime
    ensures n.movementType == v.movementType && n.transportMode == v.transportMode && n.taAmount == v.taAmount
    ensures n.taAmount >= 0
  {
    NewMovement(v.soldierId, v.startTime.value, v.endTime.value, v.fromLocation, v.toLocation,
                v.movementType, v.transportMode, v.taAmount, v.notes, Pending)
  }

  /** A thrown error's message, or the generic one when it is empty. */
  function ErrorText(message: string): (t: string)
    ensures t != ""
    ensures message != "" ==> t == message
  {
    if message != "" then message else FallbackErrorMessage
  }

  /**
   * `onSubmit`. `startIso` is the ISO text of the start time that the fingerprint is
   * computed from. `fault` and `refetchFails` are the create action's backend failures;
   * `checkFault` is a failure of the duplicate look-up that follows a duplicate.
   */
  method OnSubmit(store: MovementStore, v: MovementFormValues, startIso: string, now: int,
                  fault: Option<string>, refetchFails: bool, checkFault: Option<string>)
    returns (outcome: SubmitOutcome)
    requires store.Valid() && IsValid(v)
    modifies store
    ensures store.Valid()
    ensures outcome.Recorded? ==>
      outcome.data == InsertedRow(old(store.nextId), Submission(v),
                                  GenerateMovementFingerprint(v.soldierId, startIso, v.fromLocation, v.toLocation), now)
      && store.rows == old(store.rows)[outcome.data.id := outcome.data]
    ensures outcome.Recorded? <==>
      fault.None? && old(store.Lookup(GenerateMovementFingerprint(v.soldierId, startIso, v.fromLocation, v.toLocation))).None?
    ensures outcome.DuplicateShown? <==>
      fault.None? && !refetchFails
      && old(store.Lookup(GenerateMovementFingerprint(v.soldierId, startIso, v.fromLocation, v.toLocation))).Some?
    ensures outcome.DuplicateShown? ==>
      outcome.existing == if checkFault.Some? then None
                          else old(store.Lookup(GenerateMovementFingerprint(v.soldierId, startIso, v.fromLocation, v.toLocation)))
    ensures outcome.SubmitError? ==>
      outcome.message == if fault.Some? then ErrorText(fault.value) else DuplicateMessage
    ensures !outcome.Recorded? ==> store.rows == old(store.rows) && store.nextId == old(store.nextId)
  {
    var fingerprint := GenerateMovementFingerprint(v.soldierId, startIso, v.fromLocation, v.toLocation);
    var result := store.Create(Submission(v), fingerprint, now, fault, refetchFails);
    match result
    case Created(m) =>
      outcome := Recorded(m);
    case Duplicate(message, existingId) =>
      if existingId.Some? {
        var existing := store.CheckMovementDuplicate(v.soldierId, startIso, v.fromLocation, v.toLocation, checkFault);
        outcome := DuplicateShown(existing);
      } else {
        outcome := SubmitError(ErrorText(message));
      }
    case Failed(message) =>
      outcome := SubmitError(ErrorText(message));
  }

  /**
   * Submitting the same values twice, the second time with a different time of day:
   * the first submission is recorded and the second is shown as its duplicate.
   */
  method SubmitSameMovementTwice(v: MovementFormValues, date: string, time1: string, time2: string, t1: int, t2: int)
    returns (first: SubmitOutcome, second: SubmitOutcome)
    requires IsValid(v) && 'T' !in date
    ensures first.Recorded? && first.data.status == Pending
    ensures second == DuplicateShown(Some(first.data))
  {
    var store := new MovementStore();
    first := OnSubmit(store, v, date + "T" + time1, t1, None, false, None);
    TimeOfDayIgnored(v.soldierId, date, time1, time2, v.fromLocation, v.toLocation);
    var fingerprint := GenerateMovementFingerprint(v.soldierId, date + "T" + time2, v.fromLocation, v.toLocation);
    assert store.rows[first.data.id].fingerprint == fingerprint;
    assert store.Lookup(fingerprint) == Some(first.data);
    second := OnSubmit(store, v, date + "T" + time2, t2, None, false, None);
  }
}
