/**
 * The persistent entities the two frontend controllers read and write:
 * rooms (read only), users and bookings, and the payment-method names
 * accepted by the booking form.
 */
module Models {
  import opened Wrappers

  type RoomId = int
  type UserId = int

  /** A calendar date as a day number; ISO date strings compare like their day numbers. */
  type Day = int

  /** The three values of the `payment_method` column and form field. */
  datatype PaymentMethod = Stripe | Paypal | Cash

  /** The string stored in the `payment_method` column. */
  function MethodName(m: PaymentMethod): string
  {
    match m
    case Stripe => "stripe"
    case Paypal => "paypal"
    case Cash => "cash"
  }

  /** The validation rule `in:stripe,paypal,cash`: exactly the three names are accepted. */
  function ParseMethod(s: string): (r: Option<PaymentMethod>)
    ensures r.Some? <==> s in {"stripe", "paypal", "cash"}
    ensures r.Some? ==> MethodName(r.value) == s
  {
    if s == "stripe" then Some(Stripe)
    else if s == "paypal" then Some(Paypal)
    else if s == "cash" then Some(Cash)
    else None
  }

  /** Every payment method survives the round trip through its column value. */
  lemma ParseMethodName(m: PaymentMethod)
    ensures ParseMethod(MethodName(m)) == Some(m)
  {
  }

  /** The form fields a validation rule can reject. */
  datatype Field =
    | RoomIdField | NameField | EmailField | PhoneField
    | CheckInField | CheckOutField | PaymentMethodField | PaymentMethodIdField

  /** A catalogued room; the other columns (description, price, capacity, image) are not read by the core. */
  datatype Room = Room(id: RoomId, name: string)

  /** `Room::findOrFail($id)`: the room with that primary key, if the catalog has one. */
  function FindRoom(rooms: seq<Room>, id: RoomId): (r: Option<Room>)
    ensures r.Some? ==> r.value in rooms && r.value.id == id
    ensures r.None? ==> forall room :: room in rooms ==> room.id != id
  {
    if rooms == [] then None
    else if rooms[0].id == id then Some(rooms[0])
    else FindRoom(rooms[1..], id)
  }

  /** The validation rule `exists:rooms,id`. */
  predicate RoomExists(rooms: seq<Room>, id: RoomId)
  {
    FindRoom(rooms, id).Some?
  }

  /** A user account; the password is an opaque credential. */
  datatype User = User(id: UserId, name: string, email: string, password: string)

  /** A row of the `bookings` table. */
  datatype Booking = Booking(
    roomId: RoomId,
    userId: UserId,
    name: string,
    email: string,
    phone: string,
    checkIn: Day,
    checkOut: Day,
    paymentMethod: PaymentMethod)

  /**
   * The validated booking form without `payment_method_id`: what `store`
   * hands on and what the PayPal flow keeps in the session.
   */
  datatype BookingDetails = BookingDetails(
    roomId: RoomId,
    name: string,
    email: string,
    phone: string,
    checkIn: Day,
    checkOut: Day,
    paymentMethod: PaymentMethod)

  /** The attributes `storeBooking` passes to `Booking::create`. */
  function BookingRow(d: BookingDetails, userId: UserId, m: PaymentMethod): Booking
  {
    Booking(d.roomId, userId, d.name, d.email, d.phone, d.checkIn, d.checkOut, m)
  }
}
