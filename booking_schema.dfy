/**
 * The Booking record of the document store: its fields, their defaults, the
 * required fields and the status enumeration, and the validation the store
 * applies before it keeps a new record.
 */
module BookingSchema {
  import opened Wrappers

  /** The four values the `status` path's enumeration admits. */
  datatype Status = Pending | Confirmed | Rejected | Cancelled

  /** The string under which a status is stored. */
  function StatusName(st: Status): string {
    match st
    case Pending => "Pending"
    case Confirmed => "Confirmed"
    case Rejected => "Rejected"
    case Cancelled => "Cancelled"
  }

  /** The enumeration validator: a string is a status exactly when it is one of the four names. */
  function ParseStatus(s: string): (r: Option<Status>)
    ensures r.Some? ==> StatusName(r.value) == s
    ensures forall st :: StatusName(st) == s ==> r == Some(st)
  {
    if s == "Pending" then Some(Pending)
    else if s == "Confirmed" then Some(Confirmed)
    else if s == "Rejected" then Some(Rejected)
    else if s == "Cancelled" then Some(Cancelled)
    else None
  }

  /** A stored booking. `id` is the store's opaque identifier; the two timestamps are set on creation. */
  datatype Booking = Booking(
    id: nat,
    tourId: string,
    tourName: string,
    userId: Option<nat>,
    fullName: string,
    email: string,
    phone: Option<string>,
    travelDate: string,
    numberOfPeople: int,
    accommodationType: string,
    otherRequirements: Option<string>,
    status: Status,
    adminNotes: Option<string>,
    createdAt: int,
    updatedAt: int)

  /** A required string path is satisfied only by a present, non-empty string. */
  predicate RequiredPresent(v: Option<string>) {
    v.Some? && v.value != ""
  }

  /** What every stored booking satisfies: its required paths are non-empty. */
  predicate SatisfiesSchema(b: Booking) {
    b.tourId != "" && b.tourName != "" && b.fullName != "" &&
    b.email != "" && b.travelDate != ""
  }

  /** The document handed to the store's `create`; `None` marks a path that is not given. */
  datatype Draft = Draft(
    tourId: Option<string>,
    tourName: Option<string>,
    userId: Option<nat>,
    fullName: Option<string>,
    email: Option<string>,
    phone: Option<string>,
    travelDate: Option<string>,
    numberOfPeople: Option<int>,
    accommodationType: Option<string>,
    otherRequirements: Option<string>,
    status: Option<string>,
    adminNotes: Option<string>)

  /** A status path is valid when absent (the default applies) or one of the four names. */
  predicate StatusAccepted(s: Option<string>) {
    s.None? || ParseStatus(s.value).Some?
  }

  /** The paths that fail validation, in schema order. */
  function InvalidPaths(d: Draft): (paths: seq<string>)
    ensures paths == [] <==>
      RequiredPresent(d.tourId) && RequiredPresent(d.tourName) &&
      RequiredPresent(d.fullName) && RequiredPresent(d.email) &&
      RequiredPresent(d.travelDate) && StatusAccepted(d.status)
    ensures !RequiredPresent(d.tourName) ==> "tourName" in paths
    ensures !StatusAccepted(d.status) ==> "status" in paths
  {
    (if RequiredPresent(d.tourId) then [] else ["tourId"]) +
    (if RequiredPresent(d.tourName) then [] else ["tourName"]) +
    (if RequiredPresent(d.fullName) then [] else ["fullName"]) +
    (if RequiredPresent(d.email) then [] else ["email"]) +
    (if RequiredPresent(d.travelDate) then [] else ["travelDate"]) +
    (if StatusAccepted(d.status) then [] else ["status"])
  }

  /**
   * The store's `create`: validate the draft and fill in the schema defaults
   * (`userId` null, `numberOfPeople` 1, `accommodationType` 'Standard',
   * `status` 'Pending'), stamping both timestamps with `now`.
   * A draft that fails validation is refused with the failing paths.
   */
  function CreateRecord(d: Draft, id: nat, now: int): (r: Result<Booking, seq<string>>)
    ensures r.Err? <==> InvalidPaths(d) != []
    ensures r.Err? ==> r.error == InvalidPaths(d)
    ensures r.Ok? ==> SatisfiesSchema(r.value)
    ensures r.Ok? ==> r.value.id == id && r.value.createdAt == now && r.value.updatedAt == now
    ensures r.Ok? ==> Some(r.value.tourId) == d.tourId && Some(r.value.tourName) == d.tourName &&
                      Some(r.value.fullName) == d.fullName && Some(r.value.email) == d.email &&
                      Some(r.value.travelDate) == d.travelDate
    ensures r.Ok? ==> r.value.userId == d.userId && r.value.phone == d.phone &&
                      r.value.otherRequirements == d.otherRequirements &&
                      r.value.adminNotes == d.adminNotes
    ensures r.Ok? ==> r.value.numberOfPeople == d.numberOfPeople.GetOr(1)
    ensures r.Ok? ==> r.value.accommodationType == d.accommodationType.GetOr("Standard")
    ensures r.Ok? && d.status.None? ==> r.value.status == Pending
    ensures r.Ok? && d.status.Some? ==> StatusName(r.value.status) == d.status.value
  {
    var paths := InvalidPaths(d);
    if paths != [] then Err(paths)
    else
      Ok(Booking(
        id,
        d.tourId.value,
        d.tourName.value,
        d.userId,
        d.fullName.value,
        d.email.value,
        d.phone,
        d.travelDate.value,
        d.numberOfPeople.GetOr(1),
        d.accommodationType.GetOr("Standard"),
        d.otherRequirements,
        if d.status.None? then Pending else ParseStatus(d.status.value).value,
        d.adminNotes,
        now,
        now))
  }

  /** A draft that gives only the required paths is stored with every schema default. */
  lemma DefaultsOfMinimalDraft(tourId: string, tourName: string, fullName: string,
                               email: string, travelDate: string, id: nat, now: int)
    requires tourId != "" && tourName != "" && fullName != "" && email != "" && travelDate != ""
    ensures var r := CreateRecord(Draft(Some(tourId), Some(tourName), None, Some(fullName),
                                        Some(email), None, Some(travelDate), None, None, None,
                                        None, None), id, now);
            r.Ok? && r.value.status == Pending && r.value.userId == None &&
            r.value.numberOfPeople == 1 && r.value.accommodationType == "Standard" &&
            r.value.phone == None && r.value.otherRequirements == None
  {
  }
}
