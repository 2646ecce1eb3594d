/**
 * BookingController: validation of the booking form, silent provisioning of
 * a user, the three payment branches and the PayPal callback, over an
 * in-memory picture of the database, the login and the session.
 */
module Bookings {
  import opened Wrappers
  import opened Models
  import opened Payments

  // ----- The request and its validation -----

  /**
   * The submitted form. A field is None when it is absent or when its format
   * rule (`email`, `date`) rejects it; the room id's `exists:rooms,id` rule is
   * checked against the catalog.
   */
  datatype BookingRequest = BookingRequest(
    roomId: Option<RoomId>,
    name: Option<string>,
    email: Option<string>,
    phone: Option<string>,
    checkIn: Option<Day>,
    checkOut: Option<Day>,
    paymentMethod: Option<string>,
    paymentMethodId: Option<string>)

  /** The characters PHP's `trim` strips: space, tab, newline, carriage return, NUL and vertical tab. */
  predicate Trimmable(c: char)
  {
    c == ' ' || c == '\t' || c == '\n' || c == '\r' || c == '\0' || c == '\U{0B}'
  }

  /**
   * Laravel's `required` on a string field: present, and not blank once
   * trimmed, so some character is one `trim` keeps.
   */
  predicate Filled(f: Option<string>)
  {
    f.Some? && exists i :: 0 <= i < |f.value| && !Trimmable(f.value[i])
  }

  /** Empty and whitespace-only values do not fill a required field, and anything else does. */
  lemma BlankIsNotFilled(s: string)
    ensures !Filled(Some(s)) <==> forall i :: 0 <= i < |s| ==> Trimmable(s[i])
  {
  }

  /** The validated request: the booking details plus the Stripe payment-method token. */
  datatype ValidRequest = ValidRequest(details: BookingDetails, paymentMethodId: Option<string>)

  /** Failing rules among `room_id`, `name`, `email` and `phone`. */
  function GuestErrors(req: BookingRequest, rooms: seq<Room>): (errs: seq<Field>)
    ensures RoomIdField in errs <==> !(req.roomId.Some? && RoomExists(rooms, req.roomId.value))
    ensures NameField in errs <==> !Filled(req.name)
    ensures EmailField in errs <==> !Filled(req.email)
    ensures PhoneField in errs <==> !Filled(req.phone)
    ensures forall f :: f in errs ==> f in {RoomIdField, NameField, EmailField, PhoneField}
  {
    (if req.roomId.Some? && RoomExists(rooms, req.roomId.value) then [] else [RoomIdField])
    + (if Filled(req.name) then [] else [NameField])
    + (if Filled(req.email) then [] else [EmailField])
    + (if Filled(req.phone) then [] else [PhoneField])
  }

  /**
   * Failing rules among `check_in` and `check_out`. `after:check_in` is strict and,
   * as in the availability check, passes when the check-in date is missing or
   * unparseable.
   */
  function StayErrors(req: BookingRequest): (errs: seq<Field>)
    ensures CheckInField in errs <==> req.checkIn.None?
    ensures CheckOutField in errs <==>
            req.checkOut.None? || (req.checkIn.Some? && req.checkIn.value >= req.checkOut.value)
    ensures errs == [] <==> req.checkIn.Some? && req.checkOut.Some? && req.checkIn.value < req.checkOut.value
    ensures forall f :: f in errs ==> f in {CheckInField, CheckOutField}
  {
    (if req.checkIn.Some? then [] else [CheckInField])
    + (if req.checkOut.None? || (req.checkIn.Some? && req.checkIn.value >= req.checkOut.value) then [CheckOutField] else [])
  }

  /** Failing rules among `payment_method` and `payment_method_id` (`required_if:payment_method,stripe`). */
  function PaymentErrors(req: BookingRequest): (errs: seq<Field>)
    ensures PaymentMethodField in errs <==> !(req.paymentMethod.Some? && ParseMethod(req.paymentMethod.value).Some?)
    ensures PaymentMethodIdField in errs <==> (req.paymentMethod == Some("stripe") && !Filled(req.paymentMethodId))
    ensures forall f :: f in errs ==> f in {PaymentMethodField, PaymentMethodIdField}
  {
    (if req.paymentMethod.Some? && ParseMethod(req.paymentMethod.value).Some? then [] else [PaymentMethodField])
    + (if req.paymentMethod == Some("stripe") && !Filled(req.paymentMethodId) then [PaymentMethodIdField] else [])
  }

  /** The request passes exactly when every rule of `store`'s validator holds. */
  predicate RulesHold(req: BookingRequest, rooms: seq<Room>)
  {
    && req.roomId.Some? && RoomExists(rooms, req.roomId.value)
    && Filled(req.name) && Filled(req.email) && Filled(req.phone)
    && req.checkIn.Some? && req.checkOut.Some? && req.checkIn.value < req.checkOut.value
    && req.paymentMethod.Some? && req.paymentMethod.value in {"stripe", "paypal", "cash"}
    && (req.paymentMethod.value == "stripe" ==> Filled(req.paymentMethodId))
  }

  /**
   * The names of the fields whose rules fail, in the order the rules are
   * listed; which field fails for which reason is stated by the three parts.
   */
  function StoreErrors(req: BookingRequest, rooms: seq<Room>): (errs: seq<Field>)
    ensures errs == [] <==> RulesHold(req, rooms)
  {
    GuestErrors(req, rooms) + StayErrors(req) + PaymentErrors(req)
  }

  /** `$request->validate([...])`: the details copied from the form, or the failing fields. */
  function Validate(req: BookingRequest, rooms: seq<Room>): (r: Result<ValidRequest, seq<Field>>)
    ensures r.Success? <==> RulesHold(req, rooms)
    ensures r.Failure? ==> r.error == StoreErrors(req, rooms) && r.error != []
    ensures r.Success? ==>
      var d := r.value.details;
      && Some(d.roomId) == req.roomId && RoomExists(rooms, d.roomId)
      && Some(d.name) == req.name && Some(d.email) == req.email && Some(d.phone) == req.phone
      && Some(d.checkIn) == req.checkIn && Some(d.checkOut) == req.checkOut && d.checkIn < d.checkOut
      && Some(MethodName(d.paymentMethod)) == req.paymentMethod
      && r.value.paymentMethodId == req.paymentMethodId
  {
    var errs := StoreErrors(req, rooms);
    if errs != [] then Failure(errs)
    else
      var m := ParseMethod(req.paymentMethod.value).value;
      Success(ValidRequest(
        BookingDetails(req.roomId.value, req.name.value, req.email.value, req.phone.value,
                       req.checkIn.value, req.checkOut.value, m),
        req.paymentMethodId))
  }

  // ----- Responses -----

  /** The redirects the controller returns. */
  datatype Response =
    | RedirectIndexSuccess                                       // bookings index, flash "Booking successful!"
    | Redirect(url: string)                                      // Stripe's next-action URL
    | RedirectAway(url: string)                                  // PayPal approval page
    | BackWithErrors(fields: seq<Field>)                        // validation failure
    | BackWithError(message: string)                             // back()->withErrors(['error' => ...])
    | RedirectCreateWithError(roomId: Option<RoomId>, message: string) // booking form, with the room if one is passed

  // ----- Database and session invariants -----

  predicate HasUser(users: seq<User>, id: UserId)
  {
    exists u :: u in users && u.id == id
  }

  predicate DistinctIds(users: seq<User>)
  {
    forall i, j :: 0 <= i < j < |users| ==> users[i].id != users[j].id
  }

  /** Details that passed validation: a catalogued room and at least one night. */
  predicate DetailsOk(d: BookingDetails, rooms: seq<Room>)
  {
    RoomExists(rooms, d.roomId) && d.checkIn < d.checkOut
  }

  /** A stored booking points at a catalogued room and an existing user and lasts at least one night. */
  predicate RowOk(b: Booking, rooms: seq<Room>, users: seq<User>)
  {
    RoomExists(rooms, b.roomId) && b.checkIn < b.checkOut && HasUser(users, b.userId)
  }

  /**
   * What every request preserves: user ids are distinct, every booking row is
   * well formed, the logged-in user exists, and a pending PayPal booking holds
   * validated details and belongs to a logged-in browser session.
   */
  predicate Consistent(rooms: seq<Room>, bookings: seq<Booking>, users: seq<User>,
                       currentUser: Option<UserId>, session: Option<BookingDetails>)
  {
    && DistinctIds(users)
    && (forall b :: b in bookings ==> RowOk(b, rooms, users))
    && (currentUser.Some? ==> HasUser(users, currentUser.value))
    && (session.Some? ==> currentUser.Some? && DetailsOk(session.value, rooms))
  }

  /** The id the database gives a new user: larger than every id in use. */
  function NextUserId(users: seq<User>): (id: UserId)
    ensures forall u :: u in users ==> u.id < id
  {
    if users == [] then 1
    else
      var init, last := users[..|users| - 1], users[|users| - 1];
      assert users == init + [last];
      var rest := NextUserId(init);
      if rest > last.id then rest else last.id + 1
  }

  /** The user a request acts for: the logged-in one, or the account `store` creates. */
  function ResolvedUser(currentUser: Option<UserId>, users: seq<User>): UserId
  {
    if currentUser.Some? then currentUser.value else NextUserId(users)
  }

  /**
   * `Booking::where('user_id', id)->get()`: that user's bookings. The query has
   * no `orderBy`; returning them in table order is the model's choice, and the
   * contract promises only which rows, and how many of each, are listed.
   */
  function ForUser(bookings: seq<Booking>, uid: UserId): (r: seq<Booking>)
    ensures |r| <= |bookings|
    ensures forall b :: b in r <==> b in bookings && b.userId == uid
    ensures forall b :: multiset(r)[b] == if b.userId == uid then multiset(bookings)[b] else 0
  {
    if bookings == [] then []
    else
      var init, last := bookings[..|bookings| - 1], bookings[|bookings| - 1];
      assert bookings == init + [last];
      ForUser(init, uid) + (if last.userId == uid then [last] else [])
  }

  /** Storing a booking adds exactly one row to its owner's listing and none to anybody else's, in any order. */
  lemma ForUserAppend(bookings: seq<Booking>, b: Booking, uid: UserId)
    ensures multiset(ForUser(bookings + [b], uid))
         == multiset(ForUser(bookings, uid)) + (if b.userId == uid then multiset{b} else multiset{})
  {
  }

  // ----- How a provider reply settles a request -----

  /** The Stripe status switch applied to the booking table and the response. */
  ghost predicate StripeSettles(before: seq<Booking>, after: seq<Booking>, d: BookingDetails, uid: UserId,
                                reply: StripeReply, resp: Response)
  {
    match StripeOutcome(reply)
    case Succeeded => after == before + [BookingRow(d, uid, Stripe)] && resp == RedirectIndexSuccess
    case RequiresRedirect(url) => after == before && resp == Redirect(url)
    case RequiresNewMethod => after == before && resp == BackWithError("Payment method required.")
    case Failed(m) => after == before && resp == BackWithError(m)
  }

  /** The response to PayPal phase 1; it never books. */
  ghost predicate OrderSettles(d: BookingDetails, reply: OrderReply, resp: Response)
  {
    match OrderOutcome(reply)
    case RequiresRedirect(url) => resp == RedirectAway(url)
    case Failed(m) => resp == RedirectCreateWithError(Some(d.roomId), m)
    case _ => false
  }

  /** The capture status check of the callback, applied to the table and the response. */
  ghost predicate CaptureSettles(before: seq<Booking>, after: seq<Booking>, d: BookingDetails, uid: UserId,
                                 reply: CaptureReply, resp: Response)
  {
    match CaptureOutcome(reply)
    case Succeeded => after == before + [BookingRow(d, uid, Paypal)] && resp == RedirectIndexSuccess
    case Failed(m) => after == before && resp == RedirectCreateWithError(Some(d.roomId), m)
    case _ => false
  }

  // ----- The controller -----

  class BookingController {
    /** The room catalog, read only. */
    const rooms: seq<Room>
    /** The `bookings` table in insertion order. */
    var bookings: seq<Booking>
    /** The `users` table in insertion order. */
    var users: seq<User>
    /** `Auth::id()` of this browser session. */
    var currentUser: Option<UserId>
    /** The session entry `booking_details`. */
    var session: Option<BookingDetails>
    /** Every request sent to a payment provider, in order. */
    var calls: seq<ProviderCall>

    ghost predicate Valid()
      reads this
    {
      Consistent(rooms, bookings, users, currentUser, session)
    }

    constructor (rooms: seq<Room>, bookings: seq<Booking>, users: seq<User>,
                 currentUser: Option<UserId>, session: Option<BookingDetails>)
      requires Consistent(rooms, bookings, users, currentUser, session)
      ensures Valid()
      ensures this.rooms == rooms && this.bookings == bookings && this.users == users
      ensures this.currentUser == currentUser && this.session == session && calls == []
    {
      this.rooms := rooms;
      this.bookings := bookings;
      this.users := users;
      this.currentUser := currentUser;
      this.session := session;
      calls := [];
    }

    /**
     * `index`: the logged-in user's bookings. The route sits behind the `auth`
     * middleware, so the source never runs it logged out (its query would then
     * be a `whereNull('user_id')`); the model answers the empty listing there.
     */
    function Index(): (r: seq<Booking>)
      reads this
      ensures forall b :: b in r <==> b in bookings && currentUser == Some(b.userId)
      ensures forall b :: multiset(r)[b] == if currentUser == Some(b.userId) then multiset(bookings)[b] else 0
    {
      match currentUser
      case None => []
      case Some(uid) => ForUser(bookings, uid)
    }

    /** `storeBooking`: append one row built from the details and return the success redirect. */
    method StoreBooking(d: BookingDetails, uid: UserId, m: PaymentMethod) returns (resp: Response)
      requires Valid() && DetailsOk(d, rooms) && HasUser(users, uid)
      modifies this
      ensures Valid()
      ensures bookings == old(bookings) + [BookingRow(d, uid, m)]
      ensures users == old(users) && currentUser == old(currentUser)
      ensures session == old(session) && calls == old(calls)
      ensures resp == RedirectIndexSuccess
    {
      bookings := bookings + [BookingRow(d, uid, m)];
      resp := RedirectIndexSuccess;
    }

    /** `handleStripePayment`: charge the fixed amount, then act on the intent's status. */
    method HandleStripePayment(d: BookingDetails, uid: UserId, paymentMethodId: Option<string>,
                               reply: StripeReply) returns (resp: Response)
      requires Valid() && DetailsOk(d, rooms) && HasUser(users, uid)
      modifies this
      ensures Valid()
      ensures calls == old(calls) + [CreatePaymentIntent(StripeAmountCents, StripeCurrency, paymentMethodId)]
      ensures StripeSettles(old(bookings), bookings, d, uid, reply, resp)
      ensures users == old(users) && currentUser == old(currentUser) && session == old(session)
    {
      calls := calls + [CreatePaymentIntent(StripeAmountCents, StripeCurrency, paymentMethodId)];
      match StripeOutcome(reply)
      case Succeeded =>
        resp := StoreBooking(d, uid, Stripe);
      case RequiresRedirect(url) =>
        resp := Redirect(url);
      case RequiresNewMethod =>
        resp := BackWithError("Payment method required.");
      case Failed(m) =>
        resp := BackWithError(m);
    }

    /**
     * `handlePayPalPayment`: put the details in the session FIRST, then create
     * the order; the session entry stays even when order creation fails.
     */
    method HandlePayPalPayment(d: BookingDetails, reply: OrderReply) returns (resp: Response)
      requires Valid() && DetailsOk(d, rooms) && currentUser.Some?
      modifies this
      ensures Valid()
      ensures session == Some(d)
      ensures calls == old(calls) + [CreateOrder(PayPalValue, PayPalCurrency, PaypalCallbackRoute, BookingsCreate(d.roomId))]
      ensures OrderSettles(d, reply, resp)
      ensures bookings == old(bookings) && users == old(users) && currentUser == old(currentUser)
    {
      session := Some(d);
      calls := calls + [CreateOrder(PayPalValue, PayPalCurrency, PaypalCallbackRoute, BookingsCreate(d.roomId))];
      match OrderOutcome(reply)
      case RequiresRedirect(url) =>
        resp := RedirectAway(url);
      case Failed(m) =>
        resp := RedirectCreateWithError(Some(d.roomId), m);
    }

    /**
     * `paypalCallback`: read (never remove) the session entry; without one, fail
     * before any capture; otherwise capture and book from the SESSION's details.
     */
    method PaypalCallback(token: Option<string>, reply: CaptureReply) returns (resp: Response)
      requires Valid()
      modifies this
      ensures Valid()
      ensures session == old(session)
      ensures users == old(users) && currentUser == old(currentUser)
      ensures old(session).None? ==>
        && resp == RedirectCreateWithError(None, "Booking details not found in session.")
        && bookings == old(bookings) && calls == old(calls)
      ensures old(session).Some? ==>
        && calls == old(calls) + [CapturePaymentOrder(token)]
        && CaptureSettles(old(bookings), bookings, old(session).value, old(currentUser).value, reply, resp)
    {
      if session.None? {
        return RedirectCreateWithError(None, "Booking details not found in session.");
      }
      var d := session.value;
      calls := calls + [CapturePaymentOrder(token)];
      match CaptureOutcome(reply)
      case Succeeded =>
        resp := StoreBooking(d, currentUser.value, Paypal);
      case Failed(m) =>
        resp := RedirectCreateWithError(Some(d.roomId), m);
    }

    /**
     * `store`: validate; with nobody logged in, create an account from the
     * form's name and email (no lookup by email) and log it in; then branch on
     * the payment method. Existing bookings are never consulted.
     */
    method Store(req: BookingRequest, password: string, stripeReply: StripeReply, orderReply: OrderReply)
      returns (resp: Response)
      requires Valid()
      modifies this
      ensures Valid()
      ensures old(bookings) <= bookings && |bookings| <= |old(bookings)| + 1
      ensures Validate(req, rooms).Failure? ==>
        && resp == BackWithErrors(Validate(req, rooms).error)
        && bookings == old(bookings) && users == old(users) && currentUser == old(currentUser)
        && session == old(session) && calls == old(calls)
      ensures Validate(req, rooms).Success? ==>
        var v := Validate(req, rooms).value;
        var d := v.details;
        var uid := ResolvedUser(old(currentUser), old(users));
        && users == (if old(currentUser).None? then old(users) + [User(uid, d.name, d.email, password)] else old(users))
        && currentUser == Some(uid)
        && (d.paymentMethod == Cash ==>
              && bookings == old(bookings) + [BookingRow(d, uid, Cash)] && resp == RedirectIndexSuccess
              && session == old(session) && calls == old(calls))
        && (d.paymentMethod == Stripe ==>
              && StripeSettles(old(bookings), bookings, d, uid, stripeReply, resp)
              && session == old(session)
              && calls == old(calls) + [CreatePaymentIntent(StripeAmountCents, StripeCurrency, v.paymentMethodId)])
        && (d.paymentMethod == Paypal ==>
              && OrderSettles(d, orderReply, resp) && bookings == old(bookings) && session == Some(d)
              && calls == old(calls) + [CreateOrder(PayPalValue, PayPalCurrency, PaypalCallbackRoute, BookingsCreate(d.roomId))])
    {
      var v := Validate(req, rooms);
      if v.Failure? {
        return BackWithErrors(v.error);
      }
      var d := v.value.details;
      var uid: UserId;
      if currentUser.None? {
        uid := NextUserId(users);
        NewUserKeepsConsistent(rooms, bookings, users, User(uid, d.name, d.email, password));
        users := users + [User(uid, d.name, d.email, password)];
        currentUser := Some(uid);
      } else {
        uid := currentUser.value;
      }
      match d.paymentMethod
      case Stripe =>
        resp := HandleStripePayment(d, uid, v.value.paymentMethodId, stripeReply);
      case Paypal =>
        resp := HandlePayPalPayment(d, orderReply);
      case Cash =>
        resp := StoreBooking(d, uid, Cash);
    }
  }

  /** Appending an account with a fresh id keeps the database consistent with no one logged in. */
  lemma NewUserKeepsConsistent(rooms: seq<Room>, bookings: seq<Booking>, users: seq<User>, u: User)
    requires Consistent(rooms, bookings, users, None, None)
    requires u.id == NextUserId(users)
    ensures Consistent(rooms, bookings, users + [u], Some(u.id), None)
  {
  }

  // ----- Consequences for a client of the controller -----

  /** A PayPal form for room 1, nights 10 to 12. */
  function PaypalForm(email: string): BookingRequest
  {
    BookingRequest(Some(1), Some("Guest"), Some(email), Some("555-0100"), Some(10), Some(12), Some("paypal"), None)
  }

  /** A cash form for room 1. */
  function CashForm(name: string, email: string, checkIn: Day, checkOut: Day): BookingRequest
  {
    BookingRequest(Some(1), Some(name), Some(email), Some("1"), Some(checkIn), Some(checkOut), Some("cash"), None)
  }

  /** A string whose first character survives `trim` fills a required field. */
  lemma FilledByFirst(s: string)
    requires s != [] && !Trimmable(s[0])
    ensures Filled(Some(s))
  {
    assert Some(s).value[0] == s[0];
  }

  /** The example PayPal form passes validation with its own values. */
  lemma PaypalFormPasses()
    ensures Validate(PaypalForm("guest@example.com"), [Room(1, "Standard")])
         == Success(ValidRequest(BookingDetails(1, "Guest", "guest@example.com", "555-0100", 10, 12, Paypal), None))
  {
    FilledByFirst("Guest");
    FilledByFirst("guest@example.com");
    FilledByFirst("555-0100");
  }

  /** The example cash forms pass validation with their own values. */
  lemma CashFormPasses(name: string, email: string, checkIn: Day, checkOut: Day)
    requires name != [] && !Trimmable(name[0]) && email != [] && !Trimmable(email[0]) && checkIn < checkOut
    ensures Validate(CashForm(name, email, checkIn, checkOut), [Room(1, "Standard")])
         == Success(ValidRequest(BookingDetails(1, name, email, "1", checkIn, checkOut, Cash), None))
  {
    FilledByFirst(name);
    FilledByFirst(email);
    FilledByFirst("1");
  }


  /**
   * The callback does not consume the session entry: a replayed callback whose
   * capture is reported COMPLETED again books the same stay a second time.
   */
  method ReplayedCallbackBooksTwice(approval: string, token: Option<string>)
    returns (stored: seq<Booking>, pending: Option<BookingDetails>)
    ensures |stored| == 2 && stored[0] == stored[1] && stored[0].paymentMethod == Paypal
    ensures pending.Some? && pending.value.roomId == 1
  {
    var c := new BookingController([Room(1, "Standard")], [], [], None, None);
    var form := PaypalForm("guest@example.com");
    PaypalFormPasses();
    var r := c.Store(form, "opaque", StripeError("unused"), OrderResponse(Some("ORDER"), [Link(None), Link(Some(approval))]));
    assert r == RedirectAway(approval);
    r := c.PaypalCallback(token, CaptureResponse("COMPLETED"));
    r := c.PaypalCallback(token, CaptureResponse("COMPLETED"));
    stored, pending := c.bookings, c.session;
  }

  /**
   * `store` never consults existing bookings: two cash requests for the same
   * room and overlapping nights are both stored.
   */
  method OverlappingCashBookingsBothStored(name: string, email: string) returns (stored: seq<Booking>)
    requires name != [] && !Trimmable(name[0]) && email != [] && !Trimmable(email[0])
    ensures |stored| == 2 && stored[0].roomId == stored[1].roomId
    ensures stored[1].checkIn <= stored[0].checkOut && stored[0].checkIn <= stored[1].checkOut
  {
    var c := new BookingController([Room(1, "Standard")], [], [], None, None);
    CashFormPasses(name, email, 10, 15);
    CashFormPasses(name, email, 12, 20);
    var r := c.Store(CashForm(name, email, 10, 15), "opaque", StripeError("unused"), OrderError("unused"));
    r := c.Store(CashForm(name, email, 12, 20), "opaque", StripeError("unused"), OrderError("unused"));
    stored := c.bookings;
  }

  /**
   * No lookup by email: a second anonymous browser submitting the same email
   * gets a second account with a different id (assuming, as the model does,
   * that the email column carries no unique index; `User::create` failures are
   * not modelled).
   */
  method SameEmailTwoAccounts(name: string, email: string) returns (accounts: seq<User>)
    requires name != [] && !Trimmable(name[0]) && email != [] && !Trimmable(email[0])
    ensures |accounts| == 2 && accounts[0].email == accounts[1].email && accounts[0].id != accounts[1].id
  {
    var form := CashForm(name, email, 10, 15);
    var first := new BookingController([Room(1, "Standard")], [], [], None, None);
    CashFormPasses(name, email, 10, 15);
    var r := first.Store(form, "opaque", StripeError("unused"), OrderError("unused"));
    var second := new BookingController(first.rooms, first.bookings, first.users, None, None);
    r := second.Store(form, "opaque", StripeError("unused"), OrderError("unused"));
    accounts := second.users;
  }
}
