/**
 * Properties of the booking admission engine: what the day key is, how the
 * per-(tour, day) count changes, that admission never pushes a group past the
 * capacity, and that the availability report agrees with admission.
 */
module BookingProperties {
  import opened Wrappers
  import opened JsDate
  import opened BookingSchema
  import opened BookingController

  // ----- The day key -----

  /** For years 0 to 9999 the day key is exactly `YYYY-MM-DD` of the UTC date. */
  lemma DayKeyOfCommonEraDate(d: string, parse: DateParser)
    requires d != "" && parse(d).Some? && 0 <= parse(d).value.year <= 9999
    // Pow10 facts: only so that the preconditions of Digits below can be proved.
    ensures Pow10(2) == 100 && Pow10(4) == 10000
    ensures var t := parse(d).value;
            NormalizeDate(Some(d), parse) ==
              Some(Digits(t.year, 4) + "-" + Digits(t.month, 2) + "-" + Digits(t.day, 2))
  {
    Pow10Small();
    var t := parse(d).value;
    assert |DatePart(t)| == 10;
    assert IsoString(t)[..10] == DatePart(t);
  }

  /** The time of day is discarded: two instants on the same UTC date give the same key. */
  lemma TimeOfDayDiscarded(d1: string, d2: string, parse: DateParser)
    requires d1 != "" && d2 != "" && parse(d1).Some? && parse(d2).Some?
    requires parse(d1).value.year == parse(d2).value.year
    requires parse(d1).value.month == parse(d2).value.month
    requires parse(d1).value.day == parse(d2).value.day
    ensures NormalizeDate(Some(d1), parse) == NormalizeDate(Some(d2), parse)
  {
    var t1, t2 := parse(d1).value, parse(d2).value;
    assert IsoString(t1)[..|DatePart(t1)|] == DatePart(t1);
    assert IsoString(t2)[..|DatePart(t2)|] == DatePart(t2);
    assert DatePart(t1) == DatePart(t2);
    assert |DatePart(t1)| >= 10;
    assert IsoString(t1)[..10] == DatePart(t1)[..10];
    assert IsoString(t2)[..10] == DatePart(t2)[..10];
  }

  /** For years 0 to 9999, two dates share a day key only when they fall on the same UTC date. */
  lemma DayKeyDeterminesDate(d1: string, d2: string, parse: DateParser)
    requires d1 != "" && d2 != "" && parse(d1).Some? && parse(d2).Some?
    requires 0 <= parse(d1).value.year <= 9999 && 0 <= parse(d2).value.year <= 9999
    requires NormalizeDate(Some(d1), parse) == NormalizeDate(Some(d2), parse)
    ensures parse(d1).value.year == parse(d2).value.year
    ensures parse(d1).value.month == parse(d2).value.month
    ensures parse(d1).value.day == parse(d2).value.day
  {
    Pow10Small();
    var t1, t2 := parse(d1).value, parse(d2).value;
    DayKeyOfCommonEraDate(d1, parse);
    DayKeyOfCommonEraDate(d2, parse);
    var k1 := Digits(t1.year, 4) + "-" + Digits(t1.month, 2) + "-" + Digits(t1.day, 2);
    var k2 := Digits(t2.year, 4) + "-" + Digits(t2.month, 2) + "-" + Digits(t2.day, 2);
    assert k1 == k2;
    assert k1[..4] == Digits(t1.year, 4) && k2[..4] == Digits(t2.year, 4);
    assert k1[5..7] == Digits(t1.month, 2) && k2[5..7] == Digits(t2.month, 2);
    assert k1[8..] == Digits(t1.day, 2) && k2[8..] == Digits(t2.day, 2);
    DigitsInjective(t1.year, t2.year, 4);
    DigitsInjective(t1.month, t2.month, 2);
    DigitsInjective(t1.day, t2.day, 2);
  }

  /**
   * Outside the years 0 to 9999 the ISO string starts with a signed six-digit year,
   * so its first 10 characters stop after the month: every day of that month shares
   * one day key and therefore one capacity group.
   */
  lemma ExtendedYearKeyOmitsDay(d1: string, d2: string, parse: DateParser)
    requires d1 != "" && d2 != "" && parse(d1).Some? && parse(d2).Some?
    requires !(0 <= parse(d1).value.year <= 9999)
    requires parse(d1).value.year == parse(d2).value.year
    requires parse(d1).value.month == parse(d2).value.month
    ensures NormalizeDate(Some(d1), parse) == NormalizeDate(Some(d2), parse)
  {
    ExtendedYearIsoPrefix(parse(d1).value);
    ExtendedYearIsoPrefix(parse(d2).value);
  }

  /** The first 10 characters of an extended-year ISO string: the signed year, a dash and the month. */
  lemma ExtendedYearIsoPrefix(t: Instant)
    requires !(0 <= t.year <= 9999)
    // Pow10 fact: only so that the precondition of Digits below can be proved.
    ensures Pow10(2) == 100
    ensures IsoString(t)[..10] == YearText(t.year) + "-" + Digits(t.month, 2)
  {
    Pow10Small();
    var p := YearText(t.year) + "-" + Digits(t.month, 2);
    assert IsoString(t) == p + ("-" + Digits(t.day, 2) + TimePart(t));
  }

  // ----- Counting -----

  /** Appending one booking adds one to its own group's count and nothing to any other. */
  lemma {:induction false} CountAppend(s: seq<Booking>, b: Booking, tourId: string, day: string)
    ensures CountFor(s + [b], tourId, day) ==
              CountFor(s, tourId, day) + (if InGroup(b, tourId, day) then 1 else 0)
  {
    if s != [] {
      assert (s + [b])[1..] == s[1..] + [b];
      CountAppend(s[1..], b, tourId, day);
    }
  }

  /** A group's count is zero exactly when no stored booking belongs to it. */
  lemma {:induction false} CountZeroIffAbsent(s: seq<Booking>, tourId: string, day: string)
    ensures CountFor(s, tourId, day) == 0 <==>
              forall i :: 0 <= i < |s| ==> !InGroup(s[i], tourId, day)
  {
    if s != [] {
      CountZeroIffAbsent(s[1..], tourId, day);
      assert forall i :: 1 <= i < |s| ==> s[i] == s[1..][i - 1];
    }
  }

  /**
   * The count ignores status: changing one booking's status (to Cancelled or
   * Rejected, say) leaves every group's count as it was.
   */
  lemma {:induction false} CountIgnoresStatus(s: seq<Booking>, i: nat, st: Status,
                                              tourId: string, day: string)
    requires i < |s|
    ensures CountFor(s[i := s[i].(status := st)], tourId, day) == CountFor(s, tourId, day)
  {
    var s' := s[i := s[i].(status := st)];
    assert s'[0] == (if i == 0 then s[0].(status := st) else s[0]);
    if i == 0 {
      assert s'[1..] == s[1..];
    } else {
      assert s'[1..] == s[1..][i - 1 := s[i].(status := st)];
      CountIgnoresStatus(s[1..], i - 1, st, tourId, day);
    }
  }

  /** A request refused for lack of capacity stays refused after any booking of the day is cancelled. */
  lemma CancellingDoesNotFreeCapacity(records: seq<Booking>, i: nat, req: BookingRequest,
                                      setting: Option<int>, parse: DateParser, now: int, id: nat)
    requires i < |records|
    requires Admission(records, req, setting, parse, now, id).Conflict?
    ensures Admission(records[i := records[i].(status := Cancelled)], req, setting, parse, now, id)
              .Conflict?
  {
    var day := NormalizeDate(req.travelDate, parse).value;
    CountIgnoresStatus(records, i, Cancelled, req.tourId.value, day);
  }

  // ----- Store invariant -----

  /** Storing a schema-valid booking under the next identifier keeps identifiers unique. */
  lemma AppendKeepsStoreInvariant(s: seq<Booking>, nextId: nat, b: Booking)
    requires StoreInvariant(s, nextId)
    requires b.id == nextId && SatisfiesSchema(b)
    ensures StoreInvariant(s + [b], nextId + 1)
  {
    var s' := s + [b];
    forall i, j | 0 <= i < j < |s'| ensures s'[i].id != s'[j].id {
      if j == |s| {
        assert s'[i] == s[i];
      }
    }
  }

  // ----- Capacity invariant -----

  /** Appending a booking to a group that is below capacity keeps every group within capacity. */
  lemma AppendWithinCapacity(s: seq<Booking>, b: Booking, cap: int)
    requires WithinCapacity(s, cap)
    requires CountFor(s, b.tourId, b.travelDate) < cap
    ensures WithinCapacity(s + [b], cap)
  {
    var after := s + [b];
    forall i | 0 <= i < |after|
      ensures CountFor(after, after[i].tourId, after[i].travelDate) <= cap
    {
      CountAppend(s, b, after[i].tourId, after[i].travelDate);
      if i < |s| {
        assert after[i] == s[i];
      }
    }
  }

  /** One admission keeps every (tour, day) group within the capacity it was decided under. */
  lemma AdmissionKeepsCapacity(records: seq<Booking>, req: BookingRequest, setting: Option<int>,
                               parse: DateParser, now: int, id: nat)
    requires WithinCapacity(records, ResolveCapacity(setting))
    ensures WithinCapacity(
              AfterAdmission(records, Admission(records, req, setting, parse, now, id)),
              ResolveCapacity(setting))
  {
    var o := Admission(records, req, setting, parse, now, id);
    if o.Created? {
      AppendWithinCapacity(records, o.booking, ResolveCapacity(setting));
    }
  }

  /**
   * The counting rule the admission uses: a created booking is one more in the
   * group of the request's tour and day, and no other group changes.
   */
  lemma AdmissionAddsOneToItsGroup(records: seq<Booking>, req: BookingRequest,
                                   setting: Option<int>, parse: DateParser, now: int, id: nat,
                                   tourId: string, day: string)
    requires Admission(records, req, setting, parse, now, id).Created?
    ensures var o := Admission(records, req, setting, parse, now, id);
            var t, d := req.tourId.value, NormalizeDate(req.travelDate, parse).value;
            CountFor(AfterAdmission(records, o), t, d) == CountFor(records, t, d) + 1
    ensures var o := Admission(records, req, setting, parse, now, id);
            CountFor(AfterAdmission(records, o), tourId, day) ==
              CountFor(records, tourId, day) + (if InGroup(o.booking, tourId, day) then 1 else 0)
  {
    var o := Admission(records, req, setting, parse, now, id);
    CountAppend(records, o.booking, tourId, day);
    CountAppend(records, o.booking, req.tourId.value, NormalizeDate(req.travelDate, parse).value);
  }

  // ----- Availability agrees with admission -----

  /**
   * For a request that has its required fields and a valid date, the availability
   * report counts the same group as admission; admission refuses with a conflict
   * exactly when the report says unavailable, and creates exactly when the report
   * says available and the tour name is given.
   */
  lemma AvailabilityAgreesWithAdmission(records: seq<Booking>, req: BookingRequest,
                                        setting: Option<int>, parse: DateParser,
                                        now: int, id: nat)
    requires HasRequiredFields(req) && NormalizeDate(req.travelDate, parse).Some?
    ensures var a := AvailabilityOf(records, req.tourId, req.travelDate, setting, parse);
            var o := Admission(records, req, setting, parse, now, id);
            a.Report? &&
            a.bookedCount == CountFor(records, req.tourId.value,
                                      NormalizeDate(req.travelDate, parse).value) &&
            (o.Conflict? <==> !a.isAvailable) &&
            (o.Created? <==> a.isAvailable && Truthy(req.tourName))
  {
  }

  // ----- Any sequence of requests -----

  /** One create-booking call: the request body and the clock reading when it is stored. */
  datatype Call = Call(request: BookingRequest, now: int)

  /** The store, the next identifier and the outcomes so far, after a sequence of calls. */
  datatype Run = Run(records: seq<Booking>, nextId: nat, outcomes: seq<CreateOutcome>)

  /** The calls handled one after another, each against the store its predecessors left. */
  function Replay(run: Run, calls: seq<Call>, setting: Option<int>, parse: DateParser): Run
    decreases |calls|
  {
    if calls == [] then run
    else
      Replay(Step(run, calls[0], setting, parse), calls[1..], setting, parse)
  }

  /** One step of `Replay`: the store and outcomes after the first call. */
  function Step(run: Run, call: Call, setting: Option<int>, parse: DateParser): Run {
    var o := Admission(run.records, call.request, setting, parse, call.now, run.nextId);
    Run(AfterAdmission(run.records, o), if o.Created? then run.nextId + 1 else run.nextId,
        run.outcomes + [o])
  }

  /**
   * Starting from a store where every group is within capacity, any sequence of
   * create-booking calls keeps every group within capacity.
   */
  lemma {:induction false} ReplayKeepsCapacity(run: Run, calls: seq<Call>, setting: Option<int>,
                                               parse: DateParser)
    requires WithinCapacity(run.records, ResolveCapacity(setting))
    ensures WithinCapacity(Replay(run, calls, setting, parse).records, ResolveCapacity(setting))
    decreases |calls|
  {
    if calls != [] {
      AdmissionKeepsCapacity(run.records, calls[0].request, setting, parse, calls[0].now,
                             run.nextId);
      var next := Step(run, calls[0], setting, parse);
      assert Replay(run, calls, setting, parse) == Replay(next, calls[1..], setting, parse);
      ReplayKeepsCapacity(next, calls[1..], setting, parse);
    }
  }

  /**
   * Any sequence of create-booking calls never alters or removes a stored booking,
   * adds at most one booking per call, and answers every call.
   */
  lemma {:induction false} ReplayOnlyAppends(run: Run, calls: seq<Call>, setting: Option<int>,
                                             parse: DateParser)
    ensures var r := Replay(run, calls, setting, parse);
            |run.records| <= |r.records| <= |run.records| + |calls| &&
            |r.outcomes| == |run.outcomes| + |calls| &&
            r.records[..|run.records|] == run.records &&
            r.outcomes[..|run.outcomes|] == run.outcomes
    decreases |calls|
  {
    if calls != [] {
      var next := Step(run, calls[0], setting, parse);
      assert Replay(run, calls, setting, parse) == Replay(next, calls[1..], setting, parse);
      ReplayOnlyAppends(next, calls[1..], setting, parse);
      var r := Replay(next, calls[1..], setting, parse);
      assert next.records[..|run.records|] == run.records;
      assert r.records[..|run.records|] == r.records[..|next.records|][..|run.records|];
      assert next.outcomes[..|run.outcomes|] == run.outcomes;
      assert r.outcomes[..|run.outcomes|] == r.outcomes[..|next.outcomes|][..|run.outcomes|];
    }
  }

  /**
   * With the default capacity of 3, the same valid request sent four times to an
   * empty store is created three times and refused with a conflict the fourth time.
   */
  lemma FourthBookingOfTheDayConflicts(req: BookingRequest, parse: DateParser)
    requires HasRequiredFields(req) && Truthy(req.tourName)
    requires NormalizeDate(req.travelDate, parse).Some?
    ensures var r := Replay(Run([], 0, []), [Call(req, 1), Call(req, 2), Call(req, 3), Call(req, 4)],
                            None, parse);
            |r.records| == 3 && |r.outcomes| == 4 &&
            r.outcomes[0].Created? && r.outcomes[1].Created? && r.outcomes[2].Created? &&
            r.outcomes[3] == Conflict(NormalizeDate(req.travelDate, parse).value)
  {
    var tourId, day := req.tourId.value, NormalizeDate(req.travelDate, parse).value;
    var calls := [Call(req, 1), Call(req, 2), Call(req, 3), Call(req, 4)];
    var r0 := Run([], 0, []);
    var r1 := Step(r0, calls[0], None, parse);
    CountAppend([], r1.outcomes[0].booking, tourId, day);
    var r2 := Step(r1, calls[1], None, parse);
    CountAppend(r1.records, r2.outcomes[1].booking, tourId, day);
    var r3 := Step(r2, calls[2], None, parse);
    CountAppend(r2.records, r3.outcomes[2].booking, tourId, day);
    assert CountFor(r3.records, tourId, day) == 3;
    var r4 := Step(r3, calls[3], None, parse);
    assert Replay(r0, calls, None, parse) == Replay(r1, calls[1..], None, parse);
    assert Replay(r1, calls[1..], None, parse) == Replay(r2, calls[2..], None, parse);
    assert Replay(r2, calls[2..], None, parse) == Replay(r3, calls[3..], None, parse);
    assert Replay(r3, calls[3..], None, parse) == Replay(r4, [], None, parse);
  }
}
