# Booking admission engine — a Dafny model

This project models the booking admission engine of a small travel-booking
backend: the create-booking, check-availability and list-bookings handlers of
`controllers/bookingController.js`, and the Booking record of
`models/Booking.js` that they store in the booking collection.

A booking request is admitted in this order:

1. the handler checks that `tourId`, `fullName`, `email` and `travelDate` are present and non-empty;
2. it normalises the travel date to a `YYYY-MM-DD` day key, the first 10 characters of the date's UTC ISO string;
3. it resolves the capacity: the configured value, otherwise 3;
4. it counts the stored bookings of the same `(tourId, day)`, whatever their status;
5. it either refuses with a conflict or stores one `Pending` booking.

The store's schema validation runs at that last step. It refuses a booking without a tour name, and the handler then answers with a server error.

Layout:

- `wrappers.dfy` (`Wrappers`): `Option` (absent = JavaScript `undefined`) and `Result`.
- `jsdate.dfy` (`JsDate`): how `Date.prototype.toISOString` writes UTC calendar fields. The year has four digits for years 0 to 9999 and otherwise a sign and six digits. Parsing and calendar arithmetic are left to the runtime: the model receives them as a `DateParser` function.
- `booking_schema.dfy` (`BookingSchema`): the status enumeration, the `Booking` record, and the store's `create`. That covers the required paths, the enumeration check and the defaults.
- `booking_controller.dfy` (`BookingController`): the specification functions of the handlers. `NormalizeDate`, `ResolveCapacity`, `CountFor`, `Admission`, `AvailabilityOf` and `SortNewestFirst` are among them.
- `booking_properties.dfy` (`BookingProperties`): the day-key lemmas, the counting lemmas, and the capacity invariant for one call and for any sequence of calls. It also holds the agreement between availability and admission.
- `booking_store.dfy` (`BookingHandlers`): class `BookingStore`. It holds the collection as a `seq<Booking>` and implements the three handlers as methods proved against those functions.

Points where the code departs from what a reader might expect; the model follows the code:

- The tour name is not checked by the handler. A request without one passes the capacity check and then fails the store's validation, so it gets a 500 and no record.
- The party size is not validated.
- The availability handler ignores any capacity in the query.
- Cancelled and rejected bookings still count against capacity.
- No owning user is ever set, so every booking is a guest booking.
- The listing carries no per-status statistics.
- No status-transition handler exists in the code.

## Model

| member | source | states |
|---|---|---|
| `JsDate.IsoString` | controllers/bookingController.js:9 | the ISO string is the year text plus 20 characters, with `T` after the date and a trailing `Z` |
| `BookingSchema.ParseStatus` | models/Booking.js:17-21 | the enumeration accepts a string exactly when it is one of the four status names, and gives back that status |
| `BookingSchema.InvalidPaths` | models/Booking.js:4-21 | validation fails exactly when a required path (`tourId`, `tourName`, `fullName`, `email`, `travelDate`) is missing or empty or the status is not one of the four names; a missing tour name is reported |
| `BookingSchema.CreateRecord` | models/Booking.js:3-24 | a draft is stored exactly when it validates; the stored record satisfies the schema, keeps the given fields and takes the defaults `userId` null, `numberOfPeople` 1, `accommodationType` 'Standard', `status` 'Pending', with both timestamps set at creation |
| `BookingSchema.DefaultsOfMinimalDraft` | models/Booking.js:6-20 | a draft with only the required paths is stored as a Pending guest booking for one person with 'Standard' accommodation |
| `BookingController.NormalizeDate` | controllers/bookingController.js:5-10 | null exactly for a missing or empty date or one the runtime cannot parse; otherwise a 10-character prefix of the date's UTC ISO string |
| `BookingController.ResolveCapacity` | controllers/bookingController.js:46-48 | the configured capacity when one is set, otherwise 3 |
| `BookingController.CountFor` | controllers/bookingController.js:50-53 | the group count never exceeds the number of stored bookings |
| `BookingProperties.CountZeroIffAbsent` | controllers/bookingController.js:50-53 | a group's count is zero exactly when no stored booking has that tour and day |
| `BookingController.Admission` | controllers/bookingController.js:13-87 | 400 'Required booking information missing' exactly when a required field is falsy; 400 'Invalid travel date' when the date does not normalise; 409 'Tour fully booked for <day>' exactly when the group count is at least the capacity; 500 'Server error' exactly when the request passes these checks but has no tour name; otherwise 201 with a Pending guest booking holding the normalised day, the request's fields and the handler's defaults |
| `BookingController.InsertNewestFirst` | controllers/bookingController.js:128 | inserting into a newest-first list keeps it newest first and adds exactly that booking |
| `BookingController.SortNewestFirst` | controllers/bookingController.js:128 | the result holds exactly the stored bookings, ordered by `createdAt` descending |
| `BookingProperties.DayKeyOfCommonEraDate` | controllers/bookingController.js:9 | for years 0 to 9999 the day key is the UTC date's zero-padded `YYYY-MM-DD` |
| `BookingProperties.TimeOfDayDiscarded` | controllers/bookingController.js:9 | two dates on the same UTC calendar day get the same day key |
| `BookingProperties.DayKeyDeterminesDate` | controllers/bookingController.js:9 | for years 0 to 9999 two dates get the same day key only when their UTC year, month and day agree |
| `BookingProperties.ExtendedYearKeyOmitsDay` | controllers/bookingController.js:9 | outside the years 0 to 9999 every day of one month gets the same key, so those days share one capacity group |
| `BookingProperties.ExtendedYearIsoPrefix` | controllers/bookingController.js:9 | outside the years 0 to 9999 the first 10 characters are the signed year, a dash and the month |
| `BookingProperties.AppendKeepsStoreInvariant` | controllers/bookingController.js:62-73 | storing a schema-valid booking under a fresh identifier keeps every stored booking valid with a unique identifier |
| `BookingProperties.CountAppend` | controllers/bookingController.js:50-53 | appending a booking adds one to its own group's count and leaves every other group's count unchanged |
| `BookingProperties.CountIgnoresStatus` | controllers/bookingController.js:50-53 | changing a stored booking's status changes no group's count |
| `BookingProperties.CancellingDoesNotFreeCapacity` | controllers/bookingController.js:50-60 | a request refused with a conflict is still refused after a booking is cancelled |
| `BookingProperties.AppendWithinCapacity` | controllers/bookingController.js:55-73 | storing a booking whose group is below the capacity keeps every group within the capacity |
| `BookingProperties.AdmissionKeepsCapacity` | controllers/bookingController.js:50-73 | if every group is within capacity before a create-booking call, every group is within capacity after it |
| `BookingProperties.AdmissionAddsOneToItsGroup` | controllers/bookingController.js:50-73 | a created booking adds one to the count of its request's tour and day; any other group's count is unchanged |
| `BookingProperties.AvailabilityAgreesWithAdmission` | controllers/bookingController.js:46-117 | for a request with its required fields and a valid date, availability counts the same group; admission conflicts exactly when availability says unavailable and creates exactly when it says available and a tour name is given |
| `BookingController.AvailabilityOf` | controllers/bookingController.js:95-117 | 400 'tourId and date required' exactly for a missing tour or an invalid date; otherwise the count of the (tour, day) group, the resolved capacity, and `isAvailable` exactly when the count is below the capacity |
| `BookingProperties.ReplayKeepsCapacity` | controllers/bookingController.js:50-73 | any sequence of create-booking calls started within capacity keeps every group within capacity |
| `BookingProperties.ReplayOnlyAppends` | controllers/bookingController.js:62-73 | any sequence of calls leaves the existing bookings in place, adds at most one booking per call and answers every call |
| `BookingProperties.FourthBookingOfTheDayConflicts` | controllers/bookingController.js:46-73 | with the default capacity, three identical valid requests on an empty store are created and the fourth gets a conflict for that day |
| `BookingHandlers.BookingStore.CreateBooking` | controllers/bookingController.js:13-87 | the outcome is `Admission` of the old store; the store gains exactly the created booking or stays unchanged; the store invariant and the capacity invariant are preserved |
| `BookingHandlers.BookingStore.CheckAvailability` | controllers/bookingController.js:90-122 | refuses exactly a missing tour or an invalid date; otherwise reports the group count used by admission, the resolved capacity and `isAvailable` exactly when the count is below it; the store is not changed |
| `BookingHandlers.BookingStore.ListBookings` | controllers/bookingController.js:126-134 | returns exactly the stored bookings, ordered by `createdAt` descending; the store is not changed |

## Left out

- Status transitions: `updateBookingStatus` is exported and routed but never declared in the controller, so there is no transition rule or admin-notes handling to model. Evaluating the export object at controllers/bookingController.js:136-141 throws a ReferenceError when the module is first loaded, so as written none of the three handlers can ever run. The model describes the handler bodies as if that name were defined.
- Concurrency: the handlers are modelled as running one at a time. The race between counting and inserting, which can let concurrent requests exceed the capacity, is not modelled.
- Date parsing and calendar arithmetic: `new Date(d)` and the conversion of a time value to UTC fields are a `DateParser` parameter (`None` for a NaN date). Only the formatting done by `toISOString` is modelled.
- Capacity configuration: the environment value is an optional integer parameter. A non-numeric value, which `parseInt` turns into NaN, is not modelled; with NaN every capacity comparison is false.
- Request values: body fields are strings or absent, and the party size is an integer. JSON `null`, values of other types and the store's type casting are not modelled. A `null` field is treated like an absent one.
- Storage failures: errors thrown by the document store other than schema validation are not modelled. Such an error would also end in a 500 with nothing stored.
- Identifiers and clock: the store's object identifiers are modelled as a counter (`nextId`). Creation timestamps come from a `now` parameter.
- Listing ties: the order of bookings with equal `createdAt` is left open. `ListBookings` promises only a newest-first order.
- Email and logging: the confirmation email (services/emailService.js does not export the function the controller calls) has no effect on the outcome. The console logging is left out.
- HTTP responses: the `success` flags and JSON shapes are reduced to the outcome datatypes and `HttpStatus`.
- The other controllers, the user model, the routes and the server are not part of this model.
