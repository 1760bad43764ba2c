/**
 * The booking collection as the handlers see it: an object holding the stored
 * records, updated in place by the create-booking handler and read by the
 * availability and listing handlers.
 */
module BookingHandlers {
  import opened Wrappers
  import opened BookingSchema
  import opened BookingController
  import opened BookingProperties

  class BookingStore {
    /** The stored bookings, in insertion order. */
    var records: seq<Booking>
    /** The identifier the next stored booking receives. */
    var nextId: nat

    /** Every stored booking satisfies the schema and has its own identifier. */
    ghost predicate Valid()
      reads this
    {
      StoreInvariant(records, nextId)
    }

    /** An empty collection. */
    constructor ()
      ensures Valid() && records == [] && nextId == 0
    {
      records := [];
      nextId := 0;
    }

    /**
     * The create-booking handler: check the required fields, normalise the date,
     * resolve the capacity, count the (tour, day) group, then refuse with a
     * conflict or store one Pending booking. `setting` is the configured capacity,
     * `parse` the runtime's date parser and `now` the clock reading used for the
     * timestamps. Sending the confirmation email has no effect on the outcome.
     */
    method CreateBooking(req: BookingRequest, setting: Option<int>, parse: DateParser, now: int)
      returns (o: CreateOutcome)
      requires Valid()
      modifies this
      ensures Valid()
      ensures o == Admission(old(records), req, setting, parse, now, old(nextId))
      ensures records == AfterAdmission(old(records), o)
      ensures nextId == if o.Created? then old(nextId) + 1 else old(nextId)
      ensures WithinCapacity(old(records), ResolveCapacity(setting)) ==>
                WithinCapacity(records, ResolveCapacity(setting))
    {
      if !Truthy(req.tourId) || !Truthy(req.fullName) || !Truthy(req.email)
         || !Truthy(req.travelDate) {
        return BadRequest(MissingInfoMessage);
      }

      var day := NormalizeDate(req.travelDate, parse);
      if day.None? {
        return BadRequest(InvalidDateMessage);
      }

      var capacity := ResolveCapacity(setting);
      var existing := CountFor(records, req.tourId.value, day.value);
      if existing >= capacity {
        return Conflict(day.value);
      }

      var created := CreateRecord(DraftOf(req, day.value), nextId, now);
      if created.Err? {
        return ServerError;
      }
      var b := created.value;
      o := Created(b);
      assert o == Admission(records, req, setting, parse, now, nextId);
      AppendKeepsStoreInvariant(records, nextId, b);
      if WithinCapacity(records, capacity) {
        AdmissionKeepsCapacity(records, req, setting, parse, now, nextId);
      }
      records := records + [b];
      nextId := nextId + 1;
    }

    /**
     * The availability handler: refuses a missing tour or an invalid date,
     * otherwise reports the group's count, the capacity and whether another
     * booking may be admitted. It leaves the store unchanged.
     */
    method CheckAvailability(tourId: Option<string>, date: Option<string>, setting: Option<int>,
                             parse: DateParser)
      returns (r: AvailabilityOutcome)
      ensures r == AvailabilityOf(records, tourId, date, setting, parse)
      ensures r.InvalidQuery? <==> !Truthy(tourId) || NormalizeDate(date, parse).None?
      ensures r.Report? ==>
                r.bookedCount == CountFor(records, tourId.value, NormalizeDate(date, parse).value) &&
                r.capacity == ResolveCapacity(setting) &&
                (r.isAvailable <==> r.bookedCount < r.capacity)
    {
      var day := NormalizeDate(date, parse);
      if !Truthy(tourId) || day.None? {
        return InvalidQuery(AvailabilityQueryMessage);
      }
      var bookedCount := CountFor(records, tourId.value, day.value);
      var cap := ResolveCapacity(setting);
      r := Report(bookedCount, cap, bookedCount < cap);
    }

    /** The listing handler: every stored booking, newest first, the store unchanged. */
    method ListBookings() returns (r: seq<Booking>)
      ensures multiset(r) == multiset(records)
      ensures NewestFirst(r)
    {
      r := SortNewestFirst(records);
    }
  }
}
