/**
 * RoomController: the availability check of a room for a requested stay.
 * The check is a pure query over the booking table; the lookups `index`
 * and `show` reduce to the catalog and `FindRoom`.
 */
module Rooms {
  import opened Wrappers
  import opened Models

  /**
   * The three-way condition of the availability query: the booking's
   * check-in lies in [checkIn, checkOut], or its check-out does, or it
   * spans the whole request. Both ends are inclusive.
   */
  predicate Overlaps(b: Booking, checkIn: Day, checkOut: Day)
  {
    (checkIn <= b.checkIn <= checkOut)
    || (checkIn <= b.checkOut <= checkOut)
    || (b.checkIn <= checkIn && b.checkOut >= checkOut)
  }

  /** The rows the query selects: bookings of the room that meet the condition, in table order. */
  function Conflicting(bookings: seq<Booking>, roomId: RoomId, checkIn: Day, checkOut: Day): (r: seq<Booking>)
    ensures |r| <= |bookings|
    ensures forall b :: b in r <==> b in bookings && b.roomId == roomId && Overlaps(b, checkIn, checkOut)
  {
    if bookings == [] then []
    else
      var init, last := bookings[..|bookings| - 1], bookings[|bookings| - 1];
      assert bookings == init + [last];
      Conflicting(init, roomId, checkIn, checkOut)
      + (if last.roomId == roomId && Overlaps(last, checkIn, checkOut) then [last] else [])
  }

  /** `available` is the negation of the query's `exists()`. */
  predicate Available(bookings: seq<Booking>, roomId: RoomId, checkIn: Day, checkOut: Day)
  {
    Conflicting(bookings, roomId, checkIn, checkOut) == []
  }

  /** What the endpoint answers: the JSON body, a validation failure listing the fields, or "no such room". */
  datatype AvailabilityResponse = Json(available: bool) | Invalid(fields: seq<Field>) | NotFound

  /**
   * The rules `check_in: required|date` and `check_out: required|date|after:check_in`.
   * Laravel's `after:check_in` compares against the other field's date and passes
   * when that date is missing or unparseable, so only a present check-in can make
   * `check_out` fail for being too early.
   */
  function AvailabilityErrors(checkIn: Option<Day>, checkOut: Option<Day>): (errs: seq<Field>)
    ensures CheckInField in errs <==> checkIn.None?
    ensures CheckOutField in errs <==> checkOut.None? || (checkIn.Some? && checkIn.value >= checkOut.value)
    ensures errs == [] <==> checkIn.Some? && checkOut.Some? && checkIn.value < checkOut.value
    ensures forall f :: f in errs ==> f in {CheckInField, CheckOutField}
  {
    (if checkIn.None? then [CheckInField] else [])
    + (if checkOut.None? || (checkIn.Some? && checkIn.value >= checkOut.value) then [CheckOutField] else [])
  }

  /**
   * `checkAvailability(request, id)`: validate the dates, look the room up,
   * then answer whether no booking of that room conflicts with the stay.
   * Nothing is written: the booking table is an input only.
   */
  function CheckAvailability(rooms: seq<Room>, bookings: seq<Booking>, id: RoomId,
                             checkIn: Option<Day>, checkOut: Option<Day>): (r: AvailabilityResponse)
    ensures r.Invalid? <==> !(checkIn.Some? && checkOut.Some? && checkIn.value < checkOut.value)
    ensures r.Invalid? ==> r.fields == AvailabilityErrors(checkIn, checkOut) && r.fields != []
    ensures r.NotFound? <==> !r.Invalid? && !RoomExists(rooms, id)
    ensures r.Json? ==>
      (r.available <==> !exists b :: b in bookings && b.roomId == id && Overlaps(b, checkIn.value, checkOut.value))
  {
    var errs := AvailabilityErrors(checkIn, checkOut);
    if errs != [] then Invalid(errs)
    else
      match FindRoom(rooms, id)
      case None => NotFound
      case Some(room) =>
        var rows := Conflicting(bookings, room.id, checkIn.value, checkOut.value);
        assert rows != [] ==> rows[0] in rows;
        Json(rows == [])
  }

  /**
   * For well-formed rows and a well-formed request, the three-way condition is
   * closed-interval intersection; a stay that ends on the requested check-in
   * day therefore conflicts.
   */
  lemma OverlapsIsIntersection(b: Booking, checkIn: Day, checkOut: Day)
    requires b.checkIn <= b.checkOut && checkIn <= checkOut
    ensures Overlaps(b, checkIn, checkOut) <==> b.checkIn <= checkOut && checkIn <= b.checkOut
    ensures b.checkOut == checkIn ==> Overlaps(b, checkIn, checkOut)
  {
  }

  /** Appending one booking appends it to the selected rows exactly when it conflicts. */
  lemma ConflictingSnoc(s: seq<Booking>, x: Booking, roomId: RoomId, checkIn: Day, checkOut: Day)
    ensures Conflicting(s + [x], roomId, checkIn, checkOut)
         == Conflicting(s, roomId, checkIn, checkOut)
            + (if x.roomId == roomId && Overlaps(x, checkIn, checkOut) then [x] else [])
  {
    var t := s + [x];
    assert t[..|t| - 1] == s;
  }

  lemma ConcatAssociates(x: seq<Booking>, y: seq<Booking>, z: seq<Booking>)
    ensures (x + y) + z == x + (y + z)
  {
  }

  /** The query distributes over a split of the booking table. */
  lemma {:induction false} ConflictingAppend(a: seq<Booking>, c: seq<Booking>, roomId: RoomId, checkIn: Day, checkOut: Day)
    ensures Conflicting(a + c, roomId, checkIn, checkOut)
         == Conflicting(a, roomId, checkIn, checkOut) + Conflicting(c, roomId, checkIn, checkOut)
    decreases |c|
  {
    if c == [] {
      assert a + c == a;
    } else {
      var init, last := c[..|c| - 1], c[|c| - 1];
      var t := if last.roomId == roomId && Overlaps(last, checkIn, checkOut) then [last] else [];
      var left, right := Conflicting(a, roomId, checkIn, checkOut), Conflicting(init, roomId, checkIn, checkOut);
      assert c == init + [last];
      assert a + c == (a + init) + [last];
      ConflictingAppend(a, init, roomId, checkIn, checkOut);
      ConflictingSnoc(a + init, last, roomId, checkIn, checkOut);
      ConflictingSnoc(init, last, roomId, checkIn, checkOut);
      ConcatAssociates(left, right, t);
    }
  }

  /** Bookings of other rooms select nothing. */
  lemma OtherRoomsSelectNothing(extra: seq<Booking>, roomId: RoomId, checkIn: Day, checkOut: Day)
    requires forall b :: b in extra ==> b.roomId != roomId
    ensures Conflicting(extra, roomId, checkIn, checkOut) == []
  {
  }

  /**
   * Only the requested room's bookings are considered: inserting (read left to
   * right) or removing (right to left) bookings of other rooms anywhere in the
   * table leaves the selected rows, and so the answer, unchanged.
   */
  lemma OnlyRequestedRoomCounts(pre: seq<Booking>, extra: seq<Booking>, post: seq<Booking>,
                                roomId: RoomId, checkIn: Day, checkOut: Day)
    requires forall b :: b in extra ==> b.roomId != roomId
    ensures Conflicting(pre + extra + post, roomId, checkIn, checkOut)
         == Conflicting(pre + post, roomId, checkIn, checkOut)
    ensures Available(pre + extra + post, roomId, checkIn, checkOut)
        <==> Available(pre + post, roomId, checkIn, checkOut)
  {
    var big := Conflicting(pre + extra + post, roomId, checkIn, checkOut);
    var p := Conflicting(pre, roomId, checkIn, checkOut);
    var q := Conflicting(post, roomId, checkIn, checkOut);
    ConflictingAppend(pre + extra, post, roomId, checkIn, checkOut);
    ConflictingAppend(pre, extra, roomId, checkIn, checkOut);
    OtherRoomsSelectNothing(extra, roomId, checkIn, checkOut);
    assert Conflicting(pre + extra, roomId, checkIn, checkOut) == p;
    assert big == p + q;
    ConflictingAppend(pre, post, roomId, checkIn, checkOut);
  }

  /**
   * Monotonicity: inserting a booking anywhere can make the room unavailable
   * but never available; equivalently, removing one never makes it unavailable.
   */
  lemma InsertionNeverFrees(pre: seq<Booking>, b: Booking, post: seq<Booking>,
                            roomId: RoomId, checkIn: Day, checkOut: Day)
    ensures Available(pre + [b] + post, roomId, checkIn, checkOut) ==> Available(pre + post, roomId, checkIn, checkOut)
  {
    ConflictingAppend(pre + [b], post, roomId, checkIn, checkOut);
    ConflictingAppend(pre, [b], roomId, checkIn, checkOut);
    ConflictingAppend(pre, post, roomId, checkIn, checkOut);
  }

  /**
   * The worked example: room 1 holds a booking from day 10 to day 15. A request
   * for days 12 to 20 is refused, one for days 16 to 18 is granted, and one
   * starting on the check-out day 15 is refused.
   */
  lemma WorkedExample(b: Booking)
    requires b.roomId == 1 && b.checkIn == 10 && b.checkOut == 15
    ensures CheckAvailability([Room(1, "Standard")], [b], 1, Some(12), Some(20)) == Json(false)
    ensures CheckAvailability([Room(1, "Standard")], [b], 1, Some(16), Some(18)) == Json(true)
    ensures CheckAvailability([Room(1, "Standard")], [b], 1, Some(15), Some(18)) == Json(false)
    ensures CheckAvailability([Room(1, "Standard")], [b], 2, Some(16), Some(18)) == NotFound
    ensures CheckAvailability([Room(1, "Standard")], [b], 1, Some(18), Some(16)).Invalid?
    ensures CheckAvailability([Room(1, "Standard")], [b], 1, None, Some(12)) == Invalid([CheckInField])
  {
    assert b in [b];
  }
}
