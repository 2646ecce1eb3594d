# Hotel room booking: availability rule and payment orchestration

A Dafny model of the two frontend controllers of a Laravel hotel-booking
application:

- **RoomController** answers whether a room is free for a stay
  `[check_in, check_out]`. The answer comes from a query over the booking table.
  A booking of the room conflicts when its check-in lies in the range, or its
  check-out lies in the range, or it spans the whole range. Both ends are
  inclusive. Module `Rooms` models it as pure functions.
- **BookingController** validates the booking form. When nobody is logged in,
  it creates an account and logs it in. It then branches on the payment method:
  - `cash` books at once;
  - `stripe` confirms a PaymentIntent and acts on its status;
  - `paypal` keeps the form in the session, creates an order and sends the
    browser to PayPal. PayPal's redirect back hits `paypalCallback`. It captures
    the order and books from the session's copy of the form when the capture
    status is `COMPLETED`.

  Module `Bookings` models the validation as functions. It models the
  controller as the class `BookingController`, whose fields hold the state:
  - the booking table;
  - the user table;
  - the logged-in user;
  - the session entry `booking_details`;
  - the requests sent to the payment providers;
  - a read-only room catalog.

  Module `Payments` models each provider's reply as an input and how the
  controller classifies it. Module `Models` holds the entities.

Dates are day numbers. ISO date strings sort the same way, so this keeps the
comparisons the query makes. The providers' answers are method parameters:
- a Stripe intent status with its redirect URL, or an exception message;
- the PayPal order id and `links` array, or an exception message;
- a PayPal capture status, or an exception message.

The random password of a provisioned account is a parameter too.

Points where the code's behaviour differs from what a reader might expect:

- The callback reads the session entry with `get` and never removes it. The
  session is unchanged after a callback, and a replayed callback captures
  again. `ReplayedCallbackBooksTwice` shows that two `COMPLETED` replies book
  the stay twice. A read-once entry would prevent the second booking; the
  code does not remove the entry.
- `handlePayPalPayment` writes the session entry before it creates the order.
  A failed order creation therefore leaves the entry behind.
- The overlap test is closed on both ends, so a stay ending on the requested
  check-in day conflicts, even though such stays do not share a night.
- The charge is a fixed 1000 cents USD, or "10.00" USD for PayPal, whatever the
  room. It is not a configurable amount.
- The payment methods are named `stripe`, `paypal` and `cash`.
- `store` never consults the booking table. `OverlappingCashBookingsBothStored`
  shows two overlapping cash bookings of one room both being stored.
- No account is looked up by email. `SameEmailTwoAccounts` shows this, on a
  schema with no unique index on the users' `email` column; with Laravel's
  default unique index the second `User::create` fails instead.

## Model

| member | source | states |
|---|---|---|
| Models.ParseMethod | app/Http/Controllers/Frontend/BookingController.php:50 | the `in:stripe,paypal,cash` rule accepts exactly the three names; an accepted name maps to the method whose column value it is |
| Models.ParseMethodName | app/Http/Controllers/Frontend/BookingController.php:50 | every payment method round-trips through its stored `payment_method` string |
| Models.FindRoom | app/Http/Controllers/Frontend/RoomController.php:17-21 | `findOrFail` yields a catalogued room with the requested id, and fails only when no room has that id |
| Rooms.Conflicting | app/Http/Controllers/Frontend/RoomController.php:33-42 | the query selects exactly the bookings of the requested room that meet the three-way overlap condition, and no more rows than the table has |
| Rooms.AvailabilityErrors | app/Http/Controllers/Frontend/RoomController.php:25-28 | `check_in` fails exactly when it is missing or not a date; `check_out` fails exactly when it is missing or not a date, or when `check_in` is a date and `check_out` is not strictly after it (`after:check_in` passes when `check_in` has no date); the list is empty exactly when both are dates and `check_in < check_out` |
| Rooms.CheckAvailability | app/Http/Controllers/Frontend/RoomController.php:23-45 | a validation error exactly when a date is missing or not a date, or `check_out` is not strictly after `check_in`; otherwise "not found" exactly when the room does not exist; otherwise `available` is true iff no booking of that room conflicts; it reads the booking table and writes nothing |
| Rooms.OverlapsIsIntersection | app/Http/Controllers/Frontend/RoomController.php:35-40 | for well-formed rows and requests the three-way condition is closed-interval intersection, `b.checkIn <= co && ci <= b.checkOut`; a stay ending on the requested check-in day conflicts |
| Rooms.ConflictingAppend | app/Http/Controllers/Frontend/RoomController.php:33-42 | the selected rows of a concatenated table are the concatenation of the selected rows of its parts, in table order |
| Rooms.OtherRoomsSelectNothing | app/Http/Controllers/Frontend/RoomController.php:33 | bookings of other rooms are never selected |
| Rooms.OnlyRequestedRoomCounts | app/Http/Controllers/Frontend/RoomController.php:33-44 | inserting or removing bookings of other rooms anywhere in the table changes neither the selected rows nor the answer |
| Rooms.InsertionNeverFrees | app/Http/Controllers/Frontend/RoomController.php:33-44 | inserting a booking anywhere never turns "unavailable" into "available"; removing one never turns "available" into "unavailable" |
| Rooms.WorkedExample | app/Http/Controllers/Frontend/RoomController.php:23-45 | with a booking of room 1 for days 10 to 15, days 12–20 are unavailable, days 16–18 are available, days 15–18 are unavailable, an unknown room is not found, a reversed range is a validation error, and a missing check-in fails on `check_in` alone |
| Payments.StripeOutcome | app/Http/Controllers/Frontend/BookingController.php:97-122 | succeeded books; requires_action and requires_source_action redirect to the intent's URL; requires_payment_method asks for a new method; any other status fails with "Payment failed."; an exception fails with its own message |
| Payments.ApprovalLink | app/Http/Controllers/Frontend/BookingController.php:154-159 | an approval URL exists exactly when the order has an id and a second link carrying an `href`; it is that second link's `href` |
| Payments.OrderOutcome | app/Http/Controllers/Frontend/BookingController.php:152-166 | order creation either redirects to the approval URL or fails, and never books; a missing id or link fails with "PayPal order creation failed."; an exception fails with its own message |
| Payments.CaptureOutcome | app/Http/Controllers/Frontend/BookingController.php:181-196 | only the exact capture status "COMPLETED" counts as paid; any other status fails with "Payment was not completed."; an exception fails with its own message |
| Bookings.GuestErrors | app/Http/Controllers/Frontend/BookingController.php:44-47 | `room_id` fails unless the room exists; `name`, `email` and `phone` each fail unless present and non-blank after PHP's `trim` |
| Bookings.StayErrors | app/Http/Controllers/Frontend/BookingController.php:48-49 | `check_in` fails exactly when it is missing or not a date; `check_out` fails exactly when it is missing or not a date, or when `check_in` is a date and `check_out` is not strictly after it (`after:check_in` passes when `check_in` has no date); no error exactly when both are dates and `check_in < check_out` |
| Bookings.PaymentErrors | app/Http/Controllers/Frontend/BookingController.php:50-51 | `payment_method` fails unless it is stripe, paypal or cash; `payment_method_id` fails only when the method is stripe and no non-blank token is present |
| Bookings.BlankIsNotFilled | app/Http/Controllers/Frontend/BookingController.php:45-47 | for every string: it fails `required` exactly when each of its characters is one PHP's `trim` strips, so the empty and all whitespace-only strings fail and every other string passes |
| Bookings.Filled | app/Http/Controllers/Frontend/BookingController.php:45-47 | definition, no contract: Laravel's `required` on a string field, present with a character `trim` keeps |
| Bookings.Trimmable | app/Http/Controllers/Frontend/BookingController.php:45-47 | definition, no contract: the characters PHP's `trim` strips by default, space, tab, newline, carriage return, NUL and vertical tab |
| Bookings.StoreErrors | app/Http/Controllers/Frontend/BookingController.php:43-52 | the list of failing fields is empty exactly when every rule holds |
| Bookings.Validate | app/Http/Controllers/Frontend/BookingController.php:43-52 | success iff every rule holds, and then the details are the form's own values with a catalogued room and `check_in < check_out`; otherwise the failing fields are reported |
| Bookings.NextUserId | app/Http/Controllers/Frontend/BookingController.php:57-61 | a new account's id is larger than every id in use |
| Bookings.ForUser | app/Http/Controllers/Frontend/BookingController.php:31 | the listing holds exactly the bookings whose `user_id` is the given user, each as many times as the table stores it, and no others |
| Bookings.ForUserAppend | app/Http/Controllers/Frontend/BookingController.php:31 | storing a booking adds exactly one copy of it to its owner's listing and nothing to anybody else's; no order is promised, as the query has no `orderBy` |
| Bookings.BookingController.constructor | app/Http/Controllers/Frontend/BookingController.php:22-27 | a controller over a consistent database, login and session, with no provider calls made yet |
| Bookings.BookingController.Index | app/Http/Controllers/Frontend/BookingController.php:29-33 | the bookings index lists exactly the logged-in user's bookings, each as many times as stored (duplicate rows included), and nothing when nobody is logged in, a case the `auth` middleware on the route (routes/web.php:52) keeps the source from reaching |
| Bookings.BookingController.StoreBooking | app/Http/Controllers/Frontend/BookingController.php:199-213 | appends exactly one row holding the details, the given user and the given payment method, changes nothing else, and returns the success redirect |
| Bookings.BookingController.HandleStripePayment | app/Http/Controllers/Frontend/BookingController.php:77-123 | sends one PaymentIntent request for 1000 cents USD with the form's token; books exactly one "stripe" row only on succeeded; otherwise a redirect or an error with the table unchanged; the session and login are untouched |
| Bookings.BookingController.HandlePayPalPayment | app/Http/Controllers/Frontend/BookingController.php:127-167 | sets the session entry to the details without the token, whatever the order reply; sends one order request for "10.00" USD returning to the callback and cancelling to the room's form; redirects to the approval URL or back to that room's form with the error; never books |
| Bookings.BookingController.PaypalCallback | app/Http/Controllers/Frontend/BookingController.php:169-197 | the session entry is left as it was; with no entry, an error and no capture request; otherwise one capture request with the query token, then exactly one "paypal" row from the session's details on COMPLETED, else an error to that room's form with the table unchanged |
| Bookings.BookingController.Store | app/Http/Controllers/Frontend/BookingController.php:41-75 | a validation failure changes nothing; otherwise it appends exactly one account with the form's name and email when nobody is logged in and makes it the logged-in user; it dispatches on the method (cash books at once with no provider call); at most one booking is added and existing ones are kept |
| Rooms.Overlaps | app/Http/Controllers/Frontend/RoomController.php:35-40 | definition, no contract: the three-way condition itself (check-in in range, check-out in range, or spanning the range, both ends inclusive) |
| Rooms.Available | app/Http/Controllers/Frontend/RoomController.php:42-44 | definition, no contract: `available` is the negation of the query's `exists()` |
| Models.RoomExists | app/Http/Controllers/Frontend/BookingController.php:44 | definition, no contract: the `exists:rooms,id` rule, as the room lookup succeeding |
| Bookings.RulesHold | app/Http/Controllers/Frontend/BookingController.php:43-52 | definition, no contract: the conjunction of all of `store`'s validation rules |
| Bookings.ResolvedUser | app/Http/Controllers/Frontend/BookingController.php:54-63 | definition, no contract: the logged-in user, or else the id of the account `store` creates |
| Models.BookingRow | app/Http/Controllers/Frontend/BookingController.php:201-210 | definition, no contract: the attributes passed to `Booking::create`, copied from the details with the given user and payment method |
| Bookings.NewUserKeepsConsistent | app/Http/Controllers/Frontend/BookingController.php:54-63 | appending an account with a fresh id and logging it in keeps ids distinct and every stored booking's owner present |
| Bookings.ReplayedCallbackBooksTwice | app/Http/Controllers/Frontend/BookingController.php:169-197 | a replayed callback whose capture is COMPLETED again stores the same stay twice, and the session entry survives |
| Bookings.OverlappingCashBookingsBothStored | app/Http/Controllers/Frontend/BookingController.php:41-75 | two cash requests for the same room with overlapping nights are both stored |
| Bookings.SameEmailTwoAccounts | app/Http/Controllers/Frontend/BookingController.php:54-63 | two anonymous submissions with the same email create two accounts with distinct ids, assuming no unique index on the users' `email` column |

The class invariant `Consistent` is kept by every method. It states:
- user ids are distinct;
- every booking points at a catalogued room and an existing user and has
  `check_in < check_out`;
- the logged-in user exists;
- a pending PayPal entry holds validated details and belongs to a logged-in
  session.

The last point is why the callback's `Auth::user()` is always a user in the
model.

## Left out

- RoomController `index` (`Room::all()`), BookingController `create`, the view rendering and the room columns other than id and name: they display data and decide nothing.
- Building the PayPal client, setting its credentials and fetching a token in the constructor, and the Stripe API key: these are network setup. The provider replies are parameters instead.
- `Log::` calls; `Hash::make(Str::random(8))`, which is modelled as an opaque password parameter.
- Laravel's format rules `email` and `date` are abstracted. A field they reject arrives as `None`, as an absent field does. The room id's `exists:rooms,id` rule is checked against the catalog.
- Bookings.PaypalCallback: the redirect for a missing session entry names no room, because the source passes none at line 177. Route generation failing for the missing `roomId` parameter is framework behaviour and is not modelled.
- Bookings.HandleStripePayment: a `requires_action` intent that has no `redirect_to_url` next action is not modelled. An intent always comes with the URL to redirect to.
- Logging out, which in Laravel also invalidates the session. The model never logs out, and the invariant relies on this.
- Bookings.NextUserId: the database's auto-increment counter is modelled as one plus the largest id in use. Only its freshness is used.
- Database failures in `Booking::create` or `User::create`, including the unique-index violation Laravel's default `users` migration would raise for a second account with the same email (the model assumes no such index), concurrent requests and the race between the availability check and a booking: each request is one sequential method call on in-memory tables.
- routes/web.php wiring; `updatePassword` has no implementation in the controller.
