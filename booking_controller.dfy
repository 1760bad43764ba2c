/**
 * The booking admission engine: normalising a travel date to a day key, admitting
 * a new booking under a per-(tour, day) capacity, reporting availability, and
 * listing the stored bookings newest first.
 *
 * Handlers run one at a time; the store is the only state.
 */
module BookingController {
  import opened Wrappers
  import opened JsDate
  import opened BookingSchema

  /** JavaScript truthiness of a string value: present and not empty. */
  predicate Truthy(v: Option<string>) {
    v.Some? && v.value != ""
  }

  /** The runtime's date parser; `None` is a date whose time value is NaN. */
  type DateParser = string -> Option<Instant>

  /** The day key of a travel date: the first 10 characters of its UTC ISO string. */
  function NormalizeDate(d: Option<string>, parse: DateParser): (r: Option<string>)
    ensures r.None? <==> !Truthy(d) || parse(d.value).None?
    ensures r.Some? ==> |r.value| == 10 && r.value <= IsoString(parse(d.value).value)
  {
    if !Truthy(d) then None
    else match parse(d.value)
      case None => None
      case Some(t) => Some(IsoString(t)[..10])
  }

  /** The capacity of one (tour, day): the configured value when one is set, otherwise 3. */
  function ResolveCapacity(setting: Option<int>): (cap: int)
    ensures setting.None? ==> cap == 3
    ensures setting.Some? ==> cap == setting.value
  {
    setting.GetOr(3)
  }

  /** Whether a stored booking belongs to the (tour, day) group. */
  predicate InGroup(b: Booking, tourId: string, day: string) {
    b.tourId == tourId && b.travelDate == day
  }

  /** The number of stored bookings, of any status, in the (tour, day) group. */
  function CountFor(s: seq<Booking>, tourId: string, day: string): (n: nat)
    ensures n <= |s|
  {
    if s == [] then 0
    else CountFor(s[1..], tourId, day) + (if InGroup(s[0], tourId, day) then 1 else 0)
  }

  /** Every (tour, day) group present in `s` holds at most `cap` bookings. */
  ghost predicate WithinCapacity(s: seq<Booking>, cap: int) {
    forall i {:trigger CountFor(s, s[i].tourId, s[i].travelDate)} ::
      0 <= i < |s| ==> CountFor(s, s[i].tourId, s[i].travelDate) <= cap
  }

  /** Every stored booking satisfies the schema and has its own identifier, below `nextId`. */
  ghost predicate StoreInvariant(s: seq<Booking>, nextId: nat) {
    (forall i :: 0 <= i < |s| ==> s[i].id < nextId && SatisfiesSchema(s[i])) &&
    (forall i, j :: 0 <= i < j < |s| ==> s[i].id != s[j].id)
  }

  /** A booking request body; `None` is a field the body does not carry. */
  datatype BookingRequest = BookingRequest(
    tourId: Option<string>,
    tourName: Option<string>,
    fullName: Option<string>,
    email: Option<string>,
    phone: Option<string>,
    travelDate: Option<string>,
    numberOfPeople: Option<int>,
    accommodationType: Option<string>,
    otherRequirements: Option<string>)

  /** The outcome of a create-booking request. */
  datatype CreateOutcome =
    | Created(booking: Booking)
    | BadRequest(message: string)
    | Conflict(day: string)
    | ServerError

  const MissingInfoMessage: string := "Required booking information missing"
  const InvalidDateMessage: string := "Invalid travel date"

  /** The HTTP status code the handler answers with. */
  function HttpStatus(o: CreateOutcome): int {
    match o
    case Created(_) => 201
    case BadRequest(_) => 400
    case Conflict(_) => 409
    case ServerError => 500
  }

  /** The error message of a refused request. */
  function ErrorMessage(o: CreateOutcome): string
    requires !o.Created?
  {
    match o
    case BadRequest(m) => m
    case Conflict(day) => "Tour fully booked for " + day
    case ServerError => "Server error"
  }

  /** The four fields the handler itself requires. */
  predicate HasRequiredFields(req: BookingRequest) {
    Truthy(req.tourId) && Truthy(req.fullName) && Truthy(req.email) && Truthy(req.travelDate)
  }

  /**
   * The document the handler passes to the store: the request's fields with the
   * handler's own defaults, the normalised day and status 'Pending'. No owning
   * user is set.
   */
  function DraftOf(req: BookingRequest, day: string): Draft {
    Draft(
      req.tourId,
      req.tourName,
      None,
      req.fullName,
      req.email,
      Some(req.phone.GetOr("")),
      Some(day),
      Some(req.numberOfPeople.GetOr(1)),
      Some(req.accommodationType.GetOr("Standard")),
      Some(req.otherRequirements.GetOr("")),
      Some(StatusName(Pending)),
      None)
  }

  /** What the create-booking handler decides for `req` against the stored `records`. */
  function Admission(records: seq<Booking>, req: BookingRequest, setting: Option<int>,
                     parse: DateParser, now: int, id: nat): (o: CreateOutcome)
    ensures !HasRequiredFields(req) ==> o == BadRequest(MissingInfoMessage)
    ensures HasRequiredFields(req) && NormalizeDate(req.travelDate, parse).None? ==>
              o == BadRequest(InvalidDateMessage)
    ensures o.BadRequest? <==>
              !HasRequiredFields(req) || NormalizeDate(req.travelDate, parse).None?
    ensures o.Conflict? <==>
              HasRequiredFields(req) && NormalizeDate(req.travelDate, parse).Some? &&
              CountFor(records, req.tourId.value, NormalizeDate(req.travelDate, parse).value)
                >= ResolveCapacity(setting)
    ensures o.Conflict? ==> o.day == NormalizeDate(req.travelDate, parse).value
    ensures o.Created? <==> HttpStatus(o) == 201
    ensures o.BadRequest? <==> HttpStatus(o) == 400
    ensures o.Conflict? <==> HttpStatus(o) == 409
    ensures o.ServerError? <==> HttpStatus(o) == 500
    ensures o.Conflict? ==>
              ErrorMessage(o) == "Tour fully booked for " + NormalizeDate(req.travelDate, parse).value
    ensures o.ServerError? ==> ErrorMessage(o) == "Server error"
    ensures o.ServerError? <==>
              HasRequiredFields(req) && NormalizeDate(req.travelDate, parse).Some? &&
              CountFor(records, req.tourId.value, NormalizeDate(req.travelDate, parse).value)
                < ResolveCapacity(setting) &&
              !Truthy(req.tourName)
    ensures o.Created? ==>
              var b := o.booking;
              b.status == Pending && b.userId == None && SatisfiesSchema(b) &&
              Some(b.travelDate) == NormalizeDate(req.travelDate, parse) &&
              Some(b.tourId) == req.tourId && Some(b.tourName) == req.tourName &&
              Some(b.fullName) == req.fullName && Some(b.email) == req.email &&
              b.phone == Some(req.phone.GetOr("")) &&
              b.numberOfPeople == req.numberOfPeople.GetOr(1) &&
              b.accommodationType == req.accommodationType.GetOr("Standard") &&
              b.otherRequirements == Some(req.otherRequirements.GetOr("")) &&
              b.adminNotes == None &&
              b.id == id && b.createdAt == now && b.updatedAt == now
  {
    if !HasRequiredFields(req) then BadRequest(MissingInfoMessage)
    else
      var day := NormalizeDate(req.travelDate, parse);
      if day.None? then BadRequest(InvalidDateMessage)
      else if CountFor(records, req.tourId.value, day.value) >= ResolveCapacity(setting) then
        Conflict(day.value)
      else
        match CreateRecord(DraftOf(req, day.value), id, now)
        case Ok(b) => Created(b)
        case Err(_) => ServerError
  }

  /** The store after a request: one record appended when it was created, unchanged otherwise. */
  function AfterAdmission(records: seq<Booking>, o: CreateOutcome): seq<Booking> {
    if o.Created? then records + [o.booking] else records
  }

  /** The availability handler's answer. */
  datatype AvailabilityOutcome =
    | Report(bookedCount: nat, capacity: int, isAvailable: bool)
    | InvalidQuery(message: string)

  const AvailabilityQueryMessage: string := "tourId and date required"

  /**
   * What the availability handler reports for `tourId` on `date`: a refusal for a
   * missing tour or an invalid date, otherwise the (tour, day) group's count, the
   * resolved capacity and whether the count is below it.
   */
  function AvailabilityOf(records: seq<Booking>, tourId: Option<string>, date: Option<string>,
                          setting: Option<int>, parse: DateParser): (a: AvailabilityOutcome)
    ensures a.InvalidQuery? <==> !Truthy(tourId) || NormalizeDate(date, parse).None?
    ensures a.InvalidQuery? ==> a.message == AvailabilityQueryMessage
    ensures a.Report? ==>
              a.bookedCount == CountFor(records, tourId.value, NormalizeDate(date, parse).value) &&
              a.capacity == ResolveCapacity(setting) &&
              (a.isAvailable <==> a.bookedCount < a.capacity)
  {
    var day := NormalizeDate(date, parse);
    if !Truthy(tourId) || day.None? then InvalidQuery(AvailabilityQueryMessage)
    else
      var booked := CountFor(records, tourId.value, day.value);
      var cap := ResolveCapacity(setting);
      Report(booked, cap, booked < cap)
  }

  /** Bookings ordered by creation time, newest first. */
  ghost predicate NewestFirst(s: seq<Booking>) {
    forall i, j :: 0 <= i < j < |s| ==> s[i].createdAt >= s[j].createdAt
  }

  /** `b` placed into a newest-first sequence at its position. */
  function InsertNewestFirst(b: Booking, s: seq<Booking>): (r: seq<Booking>)
    requires NewestFirst(s)
    ensures NewestFirst(r)
    ensures multiset(r) == multiset(s) + multiset{b}
    ensures |r| == |s| + 1
    ensures r[0] == b || (s != [] && r[0] == s[0])
  {
    if s == [] || b.createdAt >= s[0].createdAt then [b] + s
    else
      assert s == [s[0]] + s[1..];
      [s[0]] + InsertNewestFirst(b, s[1..])
  }

  /** The store's records sorted by `createdAt` descending. */
  function SortNewestFirst(s: seq<Booking>): (r: seq<Booking>)
    ensures NewestFirst(r)
    ensures multiset(r) == multiset(s)
    ensures |r| == |s|
  {
    if s == [] then []
    else
      assert s == [s[0]] + s[1..];
      InsertNewestFirst(s[0], SortNewestFirst(s[1..]))
  }
}
