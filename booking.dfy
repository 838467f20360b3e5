/**
 * process_booking_payment as a step on an abstract store: the venues with
 * their available capacity, the theatre_rows records, the bookings and the
 * payment_transactions tables, and the bookings id sequence.
 *
 * The payment gateway's answer (`paid`, random in the source) and the
 * generated transaction id are inputs. A transaction that is rolled back
 * leaves the store as it was, except the id sequence: a PostgreSQL sequence
 * is not rolled back, so the id an aborted INSERT drew stays used.
 *
 * Two versions: cinebook3 and smartshow ERROR_FREE decrement a comedy or
 * concert venue only under `available_capacity >= booked_seats` and roll back
 * otherwise (GuardedPayment); cinebook1 decrements unconditionally and, for a
 * movie, decrements the seat rows read back from row_details
 * (UnguardedPayment).
 */
module Booking {
  import opened Wrappers
  import opened Text
  import opened Pricing
  import opened SeatRows
  import opened SeatSelection
  import PaymentDetails

  /** A venue's total and still available capacity. */
  datatype Venue = Venue(capacity: int, available: int)

  /** A record of the bookings table. */
  datatype BookingRecord = BookingRecord(
    bookingId: int, userEmail: string, eventType: string, eventId: int, eventName: string,
    venueId: int, venueName: string, showDate: string, showTime: string, bookedSeats: int,
    totalAmount: int, seatNumbers: string, rowDetails: string, paymentMethod: string,
    status: string, transactionId: string, split: Breakdown)

  /** A record of the payment_transactions table. */
  datatype Transaction = Transaction(
    transactionId: string, bookingId: Option<int>, userEmail: string, amount: int,
    paymentMethod: string, status: string, cardLastDigits: Option<string>, upiId: Option<string>,
    failureReason: Option<string>)

  /** The arguments of process_booking_payment. */
  datatype Request = Request(
    userEmail: string, eventType: string, eventId: int, eventName: string, venueId: int,
    venueName: string, showDate: string, showTime: string, bookedSeats: int, totalAmount: int,
    seatNumbers: string, rowDetails: string, paymentMethod: string, paymentData: map<string, string>)

  datatype Store = Store(
    rows: seq<TheatreRow>, venues: map<int, Venue>, bookings: seq<BookingRecord>,
    transactions: seq<Transaction>, nextBookingId: int)

  /** The (success, booking_id, transaction_id) triple. */
  datatype Reply = Reply(success: bool, bookingId: Option<int>, transactionId: Option<string>)

  const Completed := "COMPLETED"
  const Success := "SUCCESS"
  const Failed := "FAILED"
  const GatewayError := "Payment gateway error"

  /** The booking inserted on a successful payment, with the profit split of its total. */
  function CompletedBooking(req: Request, bookingId: int, txnId: string): BookingRecord
  {
    BookingRecord(bookingId, req.userEmail, req.eventType, req.eventId, req.eventName, req.venueId,
      req.venueName, req.showDate, req.showTime, req.bookedSeats, req.totalAmount, req.seatNumbers,
      req.rowDetails, req.paymentMethod, Completed, txnId, ProfitBreakdown(req.totalAmount))
  }

  /**
   * The SUCCESS transaction: a UPI payment keeps payment_data.get('upi_id'), a
   * card payment the last four characters of the card number as typed.
   */
  function SuccessTransaction(req: Request, bookingId: int, txnId: string): Transaction
  {
    var upi := if req.paymentMethod == PaymentDetails.Upi && "upi_id" in req.paymentData
               then Some(req.paymentData["upi_id"]) else None;
    var card := if req.paymentMethod == PaymentDetails.Card
                then Some(PaymentDetails.Last4(PaymentDetails.Field(req.paymentData, "card_number"))) else None;
    Transaction(txnId, Some(bookingId), req.userEmail, req.totalAmount, req.paymentMethod, Success, card, upi, None)
  }

  /** The FAILED transaction of a declined payment. */
  function FailedTransaction(req: Request, txnId: string): Transaction
  {
    Transaction(txnId, None, req.userEmail, req.totalAmount, req.paymentMethod, Failed, None, None, Some(GatewayError))
  }

  /** Both inserts of a successful payment, with the next id drawn from the sequence. */
  function Committed(s: Store, req: Request, txnId: string): Store
  {
    s.(bookings := s.bookings + [CompletedBooking(req, s.nextBookingId, txnId)],
       transactions := s.transactions + [SuccessTransaction(req, s.nextBookingId, txnId)],
       nextBookingId := s.nextBookingId + 1)
  }

  /** A declined payment: one FAILED transaction, committed. */
  function Declined(s: Store, req: Request, txnId: string): Store
  {
    s.(transactions := s.transactions + [FailedTransaction(req, txnId)])
  }

  /**
   * UPDATE venues SET available_capacity = available_capacity - k WHERE
   * venue_id = id AND available_capacity >= k; the second component is the
   * row count.
   */
  function ConditionalDecrement(venues: map<int, Venue>, venueId: int, k: int): (r: (map<int, Venue>, nat))
    ensures r.1 <= 1
    ensures r.1 == 1 <==> venueId in venues && venues[venueId].available >= k
    ensures r.1 == 0 ==> r.0 == venues
    ensures r.1 == 1 ==> r.0 == venues[venueId := venues[venueId].(available := venues[venueId].available - k)]
  {
    if venueId in venues && venues[venueId].available >= k then
      (venues[venueId := venues[venueId].(available := venues[venueId].available - k)], 1)
    else (venues, 0)
  }

  /** The same UPDATE without the guard (cinebook1). */
  function UnconditionalDecrement(venues: map<int, Venue>, venueId: int, k: int): map<int, Venue>
  {
    if venueId in venues then venues[venueId := venues[venueId].(available := venues[venueId].available - k)]
    else venues
  }

  /** UPDATE venues SET available_capacity = available_capacity + k WHERE venue_id = id. */
  function RestoreCapacity(venues: map<int, Venue>, venueId: int, k: int): map<int, Venue>
  {
    if venueId in venues then venues[venueId := venues[venueId].(available := venues[venueId].available + k)]
    else venues
  }

  /** The events whose seats are a venue's capacity rather than theatre rows. */
  predicate VenueEvent(eventType: string)
  {
    eventType == "comedy" || eventType == "concert"
  }

  /** process_booking_payment of cinebook3 and smartshow ERROR_FREE. */
  function GuardedPayment(s: Store, req: Request, paid: bool, txnId: string): (Reply, Store)
  {
    if !paid then (Reply(false, None, Some(txnId)), Declined(s, req, txnId))
    else
      var id := s.nextBookingId;
      var c := Committed(s, req, txnId);
      if VenueEvent(req.eventType) then
        var (venues, count) := ConditionalDecrement(s.venues, req.venueId, req.bookedSeats);
        if count == 0 then (Reply(false, None, Some(txnId)), s.(nextBookingId := id + 1))
        else (Reply(true, Some(id), Some(txnId)), c.(venues := venues))
      else (Reply(true, Some(id), Some(txnId)), c)
  }

  // ---------------------------------------------------------------- theatre rows

  /** UPDATE theatre_rows SET available_seats = available_seats - k for the named row of the show. */
  function DecrementRows(rows: seq<TheatreRow>, venueId: int, showDate: string, showTime: string,
                         name: string, k: int): (r: seq<TheatreRow>)
    ensures |r| == |rows|
    ensures forall i :: 0 <= i < |rows| ==>
      r[i] == if OfShow(rows[i], venueId, showDate, showTime) && rows[i].rowName == name
              then rows[i].(availableSeats := rows[i].availableSeats - k) else rows[i]
  {
    seq(|rows|, i requires 0 <= i < |rows| =>
      if OfShow(rows[i], venueId, showDate, showTime) && rows[i].rowName == name
      then rows[i].(availableSeats := rows[i].availableSeats - k) else rows[i])
  }

  /** One UPDATE per (row, count) pair, in order. */
  function ApplyRowBookings(rows: seq<TheatreRow>, req: Request, pairs: seq<(string, int)>): seq<TheatreRow>
  {
    if pairs == [] then rows
    else
      var n := |pairs| - 1;
      DecrementRows(ApplyRowBookings(rows, req, pairs[..n]), req.venueId, req.showDate, req.showTime, pairs[n].0, pairs[n].1)
  }

  /** The seats the pairs take from the row with this name. */
  function Taken(pairs: seq<(string, int)>, name: string): int
  {
    if pairs == [] then 0
    else Taken(pairs[..|pairs| - 1], name) + (if pairs[|pairs| - 1].0 == name then pairs[|pairs| - 1].1 else 0)
  }

  /** Each row of the show loses exactly the seats booked under its name; nothing else changes. */
  lemma {:induction false} ApplyRowBookingsEffect(rows: seq<TheatreRow>, req: Request, pairs: seq<(string, int)>)
    ensures |ApplyRowBookings(rows, req, pairs)| == |rows|
    ensures forall i :: 0 <= i < |rows| ==>
      ApplyRowBookings(rows, req, pairs)[i] ==
        rows[i].(availableSeats := rows[i].availableSeats -
                   (if OfShow(rows[i], req.venueId, req.showDate, req.showTime) then Taken(pairs, rows[i].rowName) else 0))
  {
    if pairs != [] {
      ApplyRowBookingsEffect(rows, req, pairs[..|pairs| - 1]);
    }
  }

  /**
   * The movie branch of cinebook1: the rows after one UPDATE per (row, count)
   * pair read from row_details. As written (asWritten) the names read back are
   * "Row A", "Row B", ...; the corrected reading drops the "Row " prefix.
   */
  function MovieRows(rows: seq<TheatreRow>, req: Request, asWritten: bool): Option<seq<TheatreRow>>
  {
    match if asWritten then ParseRowDetailsAsWritten(req.rowDetails) else ParseRowDetails(req.rowDetails)
    case None => None
    case Some(pairs) => Some(ApplyRowBookings(rows, req, pairs))
  }

  /**
   * process_booking_payment of cinebook1: a movie takes its seats from the
   * theatre rows named in row_details (read as written, or with the corrected
   * reading), any other event from the venue, without a capacity guard. An
   * int() failure in row_details raises, rolls everything back and returns no
   * triple.
   */
  function UnguardedPayment(s: Store, req: Request, paid: bool, txnId: string, asWritten: bool): (Reply, Store)
  {
    if !paid then (Reply(false, None, Some(txnId)), Declined(s, req, txnId))
    else
      var id := s.nextBookingId;
      var c := Committed(s, req, txnId);
      if req.eventType == "movie" then
        match MovieRows(s.rows, req, asWritten)
        case None => (Reply(false, None, None), s.(nextBookingId := id + 1))
        case Some(rows) => (Reply(true, Some(id), Some(txnId)), c.(rows := rows))
      else (Reply(true, Some(id), Some(txnId)), c.(venues := UnconditionalDecrement(s.venues, req.venueId, req.bookedSeats)))
  }

  // ---------------------------------------------------------------- properties

  /** Every venue has a non-negative available capacity. */
  predicate CapacitiesNonNegative(venues: map<int, Venue>)
  {
    forall id :: id in venues ==> venues[id].available >= 0
  }

  /** Booking ids are below the sequence's next value and pairwise different. */
  predicate IdsFresh(s: Store)
  {
    (forall i :: 0 <= i < |s.bookings| ==> s.bookings[i].bookingId < s.nextBookingId) &&
    (forall i, j :: 0 <= i < j < |s.bookings| ==> s.bookings[i].bookingId != s.bookings[j].bookingId)
  }

  /** The guarded step can never drive a capacity negative. */
  lemma GuardedKeepsCapacityNonNegative(s: Store, req: Request, paid: bool, txnId: string)
    requires CapacitiesNonNegative(s.venues)
    ensures CapacitiesNonNegative(GuardedPayment(s, req, paid, txnId).1.venues)
  {
  }

  /**
   * A paid comedy or concert booking with enough capacity: that venue drops by
   * exactly the booked seats, no other venue and no seat row changes, and one
   * COMPLETED booking and one SUCCESS transaction carrying its id are added.
   */
  lemma GuardedSuccess(s: Store, req: Request, txnId: string)
    requires VenueEvent(req.eventType)
    requires req.venueId in s.venues && s.venues[req.venueId].available >= req.bookedSeats
    ensures var (reply, t) := GuardedPayment(s, req, true, txnId);
      && reply == Reply(true, Some(s.nextBookingId), Some(txnId))
      && t.venues.Keys == s.venues.Keys
      && t.venues[req.venueId].available == s.venues[req.venueId].available - req.bookedSeats
      && t.venues[req.venueId].capacity == s.venues[req.venueId].capacity
      && (forall id :: id in s.venues && id != req.venueId ==> t.venues[id] == s.venues[id])
      && t.rows == s.rows
      && |t.bookings| == |s.bookings| + 1 && t.bookings[..|s.bookings|] == s.bookings
      && t.bookings[|s.bookings|].status == Completed && t.bookings[|s.bookings|].bookingId == s.nextBookingId
      && |t.transactions| == |s.transactions| + 1 && t.transactions[..|s.transactions|] == s.transactions
      && t.transactions[|s.transactions|].status == Success
      && t.transactions[|s.transactions|].bookingId == Some(s.nextBookingId)
  {
    var (reply, t) := GuardedPayment(s, req, true, txnId);
    assert t.bookings[..|s.bookings|] == s.bookings;
    assert t.transactions[..|s.transactions|] == s.transactions;
  }

  /**
   * A paid comedy or concert booking the guard refuses is rolled back: no
   * booking, no transaction, no capacity change; only the id sequence moved.
   */
  lemma GuardedRollback(s: Store, req: Request, txnId: string)
    requires VenueEvent(req.eventType)
    requires !(req.venueId in s.venues && s.venues[req.venueId].available >= req.bookedSeats)
    ensures GuardedPayment(s, req, true, txnId) == (Reply(false, None, Some(txnId)), s.(nextBookingId := s.nextBookingId + 1))
  {
  }

  /** Movie bookings never touch seat rows or venues in the guarded version. */
  lemma GuardedMovieKeepsInventory(s: Store, req: Request, paid: bool, txnId: string)
    requires !VenueEvent(req.eventType)
    ensures GuardedPayment(s, req, paid, txnId).1.rows == s.rows
    ensures GuardedPayment(s, req, paid, txnId).1.venues == s.venues
    ensures paid ==> GuardedPayment(s, req, paid, txnId).0.success
  {
  }

  /**
   * In both versions a declined payment records exactly one FAILED transaction
   * without booking id, giving the gateway error as reason, and changes nothing else.
   */
  lemma DeclinedPayment(s: Store, req: Request, txnId: string, asWritten: bool)
    ensures GuardedPayment(s, req, false, txnId) == UnguardedPayment(s, req, false, txnId, asWritten)
    ensures var (reply, t) := GuardedPayment(s, req, false, txnId);
      && reply == Reply(false, None, Some(txnId))
      && t.rows == s.rows && t.venues == s.venues && t.bookings == s.bookings && t.nextBookingId == s.nextBookingId
      && t.transactions[..|s.transactions|] == s.transactions && |t.transactions| == |s.transactions| + 1
      && var f := t.transactions[|s.transactions|];
         f.status == Failed && f.bookingId == None && f.failureReason == Some(GatewayError) && f.transactionId == txnId
  {
    var t := GuardedPayment(s, req, false, txnId).1;
    assert t.transactions[..|s.transactions|] == s.transactions;
  }

  /** Both steps keep booking ids unique: each new booking takes a value the sequence never gave out. */
  lemma StepsKeepIdsFresh(s: Store, req: Request, paid: bool, txnId: string, asWritten: bool)
    requires IdsFresh(s)
    ensures IdsFresh(GuardedPayment(s, req, paid, txnId).1)
    ensures IdsFresh(UnguardedPayment(s, req, paid, txnId, asWritten).1)
  {
    var c := Committed(s, req, txnId);
    CommitKeepsIdsFresh(s, req, txnId);
    IdsFreshCarries(s, c, GuardedPayment(s, req, paid, txnId).1);
    IdsFreshCarries(s, c, UnguardedPayment(s, req, paid, txnId, asWritten).1);
  }

  /** Recording a booking under the sequence's next value keeps booking ids unique. */
  lemma CommitKeepsIdsFresh(s: Store, req: Request, txnId: string)
    requires IdsFresh(s)
    ensures IdsFresh(Committed(s, req, txnId))
  {
    var c := Committed(s, req, txnId);
    assert forall i :: 0 <= i < |s.bookings| ==> c.bookings[i] == s.bookings[i];
  }

  /** A state holding the old bookings, or the committed ones, has unique ids as those do. */
  lemma IdsFreshCarries(s: Store, c: Store, t: Store)
    requires IdsFresh(s) && IdsFresh(c) && c.nextBookingId >= s.nextBookingId
    requires (t.bookings == s.bookings || t.bookings == c.bookings) && t.nextBookingId >= s.nextBookingId
    requires t.bookings == c.bookings ==> t.nextBookingId >= c.nextBookingId
    ensures IdsFresh(t)
  {
  }

  /**
   * Where the guard refuses, cinebook1 books anyway and leaves the venue
   * below zero; the guarded version leaves it untouched.
   */
  lemma UnguardedOversells(s: Store, req: Request, txnId: string, asWritten: bool)
    requires VenueEvent(req.eventType)
    requires req.venueId in s.venues && 0 <= s.venues[req.venueId].available < req.bookedSeats
    ensures GuardedPayment(s, req, true, txnId).1.venues == s.venues
    ensures !GuardedPayment(s, req, true, txnId).0.success
    ensures UnguardedPayment(s, req, true, txnId, asWritten).0.success
    ensures UnguardedPayment(s, req, true, txnId, asWritten).1.venues[req.venueId].available < 0
  {
  }

  /** A conditional decrement that succeeded is undone by adding the seats back (test_seat_availability). */
  lemma DecrementRestoreRoundTrip(venues: map<int, Venue>, venueId: int, k: int)
    requires ConditionalDecrement(venues, venueId, k).1 == 1
    ensures RestoreCapacity(ConditionalDecrement(venues, venueId, k).0, venueId, k) == venues
    ensures ConditionalDecrement(venues, venueId, k).0[venueId].available >= 0 <== k <= venues[venueId].available
  {
    var v := venues[venueId];
    assert v.(available := v.available - k).(available := v.available - k + k) == v;
  }

  // ---------------------------------------------------------------- ticket caps and re-check

  /** The "Number of Tickets" input: 1..min(available, 10), offered only while seats are left. */
  predicate TicketChoice(available: int, numTickets: int)
  {
    available > 0 && 1 <= numTickets <= MaxSeats(available)
  }

  /** The fresh SELECT before "Proceed to Payment": the venue exists and still has num_tickets seats. */
  predicate CanProceed(venues: map<int, Venue>, venueId: int, numTickets: int)
  {
    venueId in venues && venues[venueId].available >= numTickets
  }

  /**
   * A ticket count the input allows passes the re-check against the same
   * venue state, and a paid booking that passed the re-check is not rolled
   * back and leaves the venue at a non-negative capacity.
   */
  lemma RecheckMeetsGuard(s: Store, req: Request, txnId: string)
    requires VenueEvent(req.eventType) && req.venueId in s.venues
    requires TicketChoice(s.venues[req.venueId].available, req.bookedSeats)
    ensures req.bookedSeats <= 10
    ensures CanProceed(s.venues, req.venueId, req.bookedSeats)
    ensures GuardedPayment(s, req, true, txnId).0.success
    ensures GuardedPayment(s, req, true, txnId).1.venues[req.venueId].available >= 0
  {
  }

  // ---------------------------------------------------------------- the row_details reading

  /** No template row is called "Row X": the cinebook1 UPDATE matches no row, so no seat is ever taken. */
  lemma AsWrittenTakesNoSeat(rows: seq<TheatreRow>, req: Request, names: seq<string>, counts: seq<nat>)
    requires |names| == |counts|
    requires forall i :: 0 <= i < |names| ==> IsRowLabel(names[i])
    requires forall i :: 0 <= i < |rows| ==> IsRowLabel(rows[i].rowName)
    requires req.rowDetails == Join(RowDetailEntries(names, counts), ", ")
    ensures MovieRows(rows, req, true) == Some(rows)
  {
    RowDetailsRoundTrip(names, counts);
    var pairs := WithRowPrefix(Booked(names, counts));
    forall i | 0 <= i < |pairs| ensures |pairs[i].0| >= 4 && pairs[i].0[..4] == "Row " {
      assert pairs[i].0 == "Row " + Booked(names, counts)[i].0;
    }
    forall i | 0 <= i < |rows| ensures Taken(pairs, rows[i].rowName) == 0 {
      NoPrefixedName(pairs, rows[i].rowName);
    }
    NothingTakenNothingChanges(rows, req, pairs);
  }

  lemma NothingTakenNothingChanges(rows: seq<TheatreRow>, req: Request, pairs: seq<(string, int)>)
    requires forall i :: 0 <= i < |rows| ==> Taken(pairs, rows[i].rowName) == 0
    ensures ApplyRowBookings(rows, req, pairs) == rows
  {
    ApplyRowBookingsEffect(rows, req, pairs);
    var after := ApplyRowBookings(rows, req, pairs);
    assert forall i :: 0 <= i < |rows| ==> after[i] == rows[i];
  }

  lemma {:induction false} NoPrefixedName(pairs: seq<(string, int)>, name: string)
    requires |name| == 1
    requires forall i :: 0 <= i < |pairs| ==> |pairs[i].0| >= 4 && pairs[i].0[..4] == "Row "
    ensures Taken(pairs, name) == 0
  {
    if pairs != [] {
      NoPrefixedName(pairs[..|pairs| - 1], name);
      var last := pairs[|pairs| - 1].0;
      assert last[..4] == "Row ";
      assert last != name;
    }
  }

  /**
   * As written, a paid movie booking made on the selection page is recorded
   * and charged, yet no theatre row loses a seat.
   */
  lemma AsWrittenPaymentTakesNoSeat(s: Store, req: Request, txnId: string, names: seq<string>, counts: seq<nat>)
    requires req.eventType == "movie"
    requires |names| == |counts|
    requires forall i :: 0 <= i < |names| ==> IsRowLabel(names[i])
    requires forall i :: 0 <= i < |s.rows| ==> IsRowLabel(s.rows[i].rowName)
    requires req.rowDetails == Join(RowDetailEntries(names, counts), ", ")
    ensures UnguardedPayment(s, req, true, txnId, true) ==
      (Reply(true, Some(s.nextBookingId), Some(txnId)), Committed(s, req, txnId))
  {
    AsWrittenTakesNoSeat(s.rows, req, names, counts);
    assert Committed(s, req, txnId).(rows := s.rows) == Committed(s, req, txnId);
  }

  /**
   * With the corrected reading, a paid movie booking made on the selection
   * page takes from each row of the show exactly the seats booked in it.
   */
  lemma CorrectedTakesBookedSeats(s: Store, req: Request, txnId: string, names: seq<string>, counts: seq<nat>)
    requires req.eventType == "movie"
    requires |names| == |counts|
    requires forall i :: 0 <= i < |names| ==> IsRowLabel(names[i])
    requires req.rowDetails == Join(RowDetailEntries(names, counts), ", ")
    ensures var (reply, t) := UnguardedPayment(s, req, true, txnId, false);
      && reply == Reply(true, Some(s.nextBookingId), Some(txnId))
      && |t.rows| == |s.rows|
      && forall i :: 0 <= i < |s.rows| ==>
           t.rows[i].availableSeats == s.rows[i].availableSeats -
             (if OfShow(s.rows[i], req.venueId, req.showDate, req.showTime) then Taken(Booked(names, counts), s.rows[i].rowName) else 0)
  {
    RowDetailsRoundTrip(names, counts);
    ApplyRowBookingsEffect(s.rows, req, Booked(names, counts));
  }

  // ---------------------------------------------------------------- venue status

  /** The availability badge of the admin venue list. */
  datatype Availability = FullAvailability | GoodAvailability | LimitedAvailability | SoldOut

  /** available == capacity, available > capacity * 0.5, available > 0, otherwise sold out. */
  function VenueStatus(v: Venue): Availability
  {
    if v.available == v.capacity then FullAvailability
    else if 2 * v.available > v.capacity then GoodAvailability
    else if v.available > 0 then LimitedAvailability
    else SoldOut
  }

  function Rank(a: Availability): nat
  {
    match a
    case FullAvailability => 0
    case GoodAvailability => 1
    case LimitedAvailability => 2
    case SoldOut => 3
  }

  /** Selling seats never improves a venue's badge, and a venue is sold out exactly when nothing is left of a positive capacity. */
  lemma VenueStatusMonotone(v: Venue, k: int)
    requires 0 <= v.available <= v.capacity && 0 <= k
    ensures Rank(VenueStatus(v)) <= Rank(VenueStatus(v.(available := v.available - k)))
    ensures v.capacity > 0 ==> (VenueStatus(v) == SoldOut <==> v.available == 0)
  {
  }

  /** UPDATE venues SET available_capacity = capacity. */
  function ResetCapacities(venues: map<int, Venue>): (r: map<int, Venue>)
    ensures r.Keys == venues.Keys
    ensures forall id :: id in r ==> r[id].capacity == venues[id].capacity && VenueStatus(r[id]) == FullAvailability
  {
    map id | id in venues :: venues[id].(available := venues[id].capacity)
  }
}
