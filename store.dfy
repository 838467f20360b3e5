/**
 * The database the booking app writes to, as an object whose tables are
 * fields. Each method runs the statements of one source function in order and
 * is proved to end in the state, and with the answer, that the corresponding
 * function of SeatRows or Booking describes. A transaction is a snapshot of
 * the fields taken when it starts; rollback writes the snapshot back, except
 * the id sequence.
 */
module Inventory {
  import opened Wrappers
  import opened Text
  import opened SeatRows
  import opened SeatSelection
  import opened Booking

  class Database {
    var rows: seq<TheatreRow>
    var venues: map<int, Venue>
    var bookings: seq<BookingRecord>
    var transactions: seq<Transaction>
    var nextBookingId: int

    function State(): Store
      reads this
    {
      Store(rows, venues, bookings, transactions, nextBookingId)
    }

    /** ensure_seat_data_exists of cinebook1: count the show's rows, insert the tier's template if there are none. */
    method EnsureSeatDataExists(theatreId: int, showDate: string, showTime: string) returns (created: bool)
      modifies this
      ensures (rows, created) == EnsureSeatData(old(rows), theatreId, showDate, showTime)
      ensures venues == old(venues) && bookings == old(bookings)
      ensures transactions == old(transactions) && nextBookingId == old(nextBookingId)
    {
      var existingCount := CountShowRows(rows, theatreId, showDate, showTime);
      if existingCount == 0 {
        var seatRows := TieredTemplate(theatreId);
        ghost var inserted := ShowRows(theatreId, showDate, showTime, seatRows);
        for k := 0 to |seatRows|
          invariant rows == old(rows) + inserted[..k]
          invariant venues == old(venues) && bookings == old(bookings)
          invariant transactions == old(transactions) && nextBookingId == old(nextBookingId)
        {
          var r := seatRows[k];
          rows := rows + [TheatreRow(theatreId, r.name, showDate, showTime, r.seats, r.seats, r.multTenths)];
          assert inserted[..k + 1] == inserted[..k] + [inserted[k]];
        }
        assert inserted[..|seatRows|] == inserted;
        return true;
      }
      return false;
    }

    /**
     * recreate_theatre_rows_data of smartshow enhanced: delete every row, then
     * insert the template of each theatre 1..5 for every date and show time.
     */
    method RecreateTheatreRowsData(showDates: seq<string>, showTimes: seq<string>)
      modifies this
      ensures rows == TheatresRows([1, 2, 3, 4, 5], showDates, showTimes)
      ensures venues == old(venues) && bookings == old(bookings)
      ensures transactions == old(transactions) && nextBookingId == old(nextBookingId)
    {
      var theatreIds := [1, 2, 3, 4, 5];
      rows := [];
      for i := 0 to |theatreIds|
        invariant rows == TheatresRows(theatreIds[..i], showDates, showTimes)
        invariant venues == old(venues) && bookings == old(bookings)
        invariant transactions == old(transactions) && nextBookingId == old(nextBookingId)
      {
        var forTheatre := InsertTheatreRows(theatreIds[i], showDates, showTimes);
        assert theatreIds[..i + 1][..i] == theatreIds[..i];
        rows := rows + forTheatre;
      }
      assert theatreIds[..|theatreIds|] == theatreIds;
    }

    /** The loops over dates and show times for one theatre. */
    static method InsertTheatreRows(theatreId: int, showDates: seq<string>, showTimes: seq<string>)
        returns (forTheatre: seq<TheatreRow>)
      ensures forTheatre == DatesRows(theatreId, showDates, showTimes)
    {
      var template := FiveTheatreTemplate(theatreId);
      forTheatre := [];
      for j := 0 to |showDates|
        invariant forTheatre == DatesRows(theatreId, showDates[..j], showTimes)
      {
        var forDate: seq<TheatreRow> := [];
        for k := 0 to |showTimes|
          invariant forDate == TimesRows(theatreId, showDates[j], showTimes[..k])
        {
          var forShow := InsertShowRows(theatreId, showDates[j], showTimes[k], template);
          assert showTimes[..k + 1][..k] == showTimes[..k];
          forDate := forDate + forShow;
        }
        assert showTimes[..|showTimes|] == showTimes;
        assert showDates[..j + 1][..j] == showDates[..j];
        forTheatre := forTheatre + forDate;
      }
      assert showDates[..|showDates|] == showDates;
    }

    /** The inner loop over a template: one INSERT per template row. */
    static method InsertShowRows(theatreId: int, showDate: string, showTime: string, template: seq<RowSpec>)
        returns (inserted: seq<TheatreRow>)
      ensures inserted == ShowRows(theatreId, showDate, showTime, template)
    {
      inserted := [];
      for m := 0 to |template|
        invariant inserted == ShowRows(theatreId, showDate, showTime, template)[..m]
      {
        var r := template[m];
        inserted := inserted + [TheatreRow(theatreId, r.name, showDate, showTime, r.seats, r.seats, r.multTenths)];
      }
    }

    /** "Reset All Venue Capacities": UPDATE venues SET available_capacity = capacity. */
    method ResetAllVenueCapacities()
      modifies this
      ensures venues == ResetCapacities(old(venues))
      ensures rows == old(rows) && bookings == old(bookings)
      ensures transactions == old(transactions) && nextBookingId == old(nextBookingId)
    {
      venues := map id | id in venues :: venues[id].(available := venues[id].capacity);
    }

    /** The two INSERTs of a successful payment. */
    method InsertBookingAndTransaction(req: Request, txnId: string) returns (bookingId: int)
      modifies this
      ensures State() == Committed(old(State()), req, txnId)
      ensures bookingId == old(nextBookingId)
    {
      bookingId := nextBookingId;
      nextBookingId := nextBookingId + 1;
      bookings := bookings + [CompletedBooking(req, bookingId, txnId)];
      transactions := transactions + [SuccessTransaction(req, bookingId, txnId)];
    }

    /** process_booking_payment of cinebook3 and smartshow ERROR_FREE. */
    method ProcessBookingPaymentGuarded(req: Request, paid: bool, txnId: string) returns (reply: Reply)
      modifies this
      ensures (reply, State()) == GuardedPayment(old(State()), req, paid, txnId)
    {
      if paid {
        var snapshot := State();
        var bookingId := InsertBookingAndTransaction(req, txnId);
        if req.eventType in ["comedy", "concert"] {
          var rowcount := 0;
          if req.venueId in venues && venues[req.venueId].available >= req.bookedSeats {
            venues := venues[req.venueId := venues[req.venueId].(available := venues[req.venueId].available - req.bookedSeats)];
            rowcount := 1;
          }
          if rowcount == 0 {
            rows, venues, bookings, transactions := snapshot.rows, snapshot.venues, snapshot.bookings, snapshot.transactions;
            return Reply(false, None, Some(txnId));
          }
        }
        return Reply(true, Some(bookingId), Some(txnId));
      } else {
        transactions := transactions + [FailedTransaction(req, txnId)];
        return Reply(false, None, Some(txnId));
      }
    }

    /** UPDATE theatre_rows SET available_seats = available_seats - k WHERE the row is the named row of the show. */
    method DecrementShowRow(venueId: int, showDate: string, showTime: string, name: string, k: int)
      modifies this
      ensures rows == DecrementRows(old(rows), venueId, showDate, showTime, name, k)
      ensures venues == old(venues) && bookings == old(bookings)
      ensures transactions == old(transactions) && nextBookingId == old(nextBookingId)
    {
      ghost var target := DecrementRows(rows, venueId, showDate, showTime, name, k);
      for j := 0 to |rows|
        invariant |rows| == |old(rows)|
        invariant forall i :: 0 <= i < j ==> rows[i] == target[i]
        invariant forall i :: j <= i < |rows| ==> rows[i] == old(rows)[i]
        invariant venues == old(venues) && bookings == old(bookings)
        invariant transactions == old(transactions) && nextBookingId == old(nextBookingId)
      {
        var r := rows[j];
        if r.theatreId == venueId && r.rowName == name && r.showDate == showDate && r.showTime == showTime {
          rows := rows[j := r.(availableSeats := r.availableSeats - k)];
        }
      }
    }

    /**
     * The movie branch of process_booking_payment in cinebook1: one UPDATE per
     * entry of row_details, the row name read as written ("Row A") or with the
     * corrected reading ("A"); false when an entry's count is not an integer,
     * in which case the caller rolls the rows back.
     */
    method ApplyRowDetails(req: Request, asWritten: bool) returns (parsed: bool)
      modifies this
      ensures parsed <==> MovieRows(old(rows), req, asWritten).Some?
      ensures parsed ==> rows == MovieRows(old(rows), req, asWritten).value
      ensures venues == old(venues) && bookings == old(bookings)
      ensures transactions == old(transactions) && nextBookingId == old(nextBookingId)
    {
      var entries := SplitOn(req.rowDetails, ", ");
      ghost var pairs: seq<(string, int)> := [];
      for i := 0 to |entries|
        invariant ParseEntries(entries[..i], asWritten) == Some(pairs)
        invariant rows == ApplyRowBookings(old(rows), req, pairs)
        invariant venues == old(venues) && bookings == old(bookings)
        invariant transactions == old(transactions) && nextBookingId == old(nextBookingId)
      {
        var entry := if asWritten then ParseRowEntryAsWritten(entries[i]) else ParseRowEntry(entries[i]);
        ParseStep(entries, asWritten, i, pairs);
        match entry {
          case Skip =>
          case Malformed =>
            AbortPropagates(entries, asWritten, i + 1);
            return false;
          case Entry(name, k) =>
            DecrementShowRow(req.venueId, req.showDate, req.showTime, name, k);
            pairs := pairs + [(name, k)];
        }
      }
      assert entries[..|entries|] == entries;
      return true;
    }

    /**
     * process_booking_payment of cinebook1: no capacity guard; a movie's rows
     * are decremented entry by entry of row_details, the names read back as
     * written or with the corrected reading; an int() failure rolls back.
     */
    method ProcessBookingPayment(req: Request, paid: bool, txnId: string, asWritten: bool) returns (reply: Reply)
      modifies this
      ensures (reply, State()) == UnguardedPayment(old(State()), req, paid, txnId, asWritten)
    {
      if !paid {
        transactions := transactions + [FailedTransaction(req, txnId)];
        return Reply(false, None, Some(txnId));
      }
      var snapshot := State();
      var bookingId := InsertBookingAndTransaction(req, txnId);
      if req.eventType == "movie" {
        var parsed := ApplyRowDetails(req, asWritten);
        if !parsed {
          rows, venues, bookings, transactions := snapshot.rows, snapshot.venues, snapshot.bookings, snapshot.transactions;
          return Reply(false, None, None);
        }
      } else {
        if req.venueId in venues {
          venues := venues[req.venueId := venues[req.venueId].(available := venues[req.venueId].available - req.bookedSeats)];
        }
      }
      return Reply(true, Some(bookingId), Some(txnId));
    }
  }

  /** Reading one more entry of row_details: it aborts, is skipped or adds its (row, count) pair. */
  lemma ParseStep(entries: seq<string>, asWritten: bool, i: nat, pairs: seq<(string, int)>)
    requires i < |entries| && ParseEntries(entries[..i], asWritten) == Some(pairs)
    ensures ParseEntries(entries[..i + 1], asWritten) ==
      match (if asWritten then ParseRowEntryAsWritten(entries[i]) else ParseRowEntry(entries[i]))
      case Malformed => None
      case Skip => Some(pairs)
      case Entry(name, k) => Some(pairs + [(name, k)])
  {
    assert entries[..i + 1][..i] == entries[..i];
  }

  /** Once one entry fails to parse, the whole of row_details fails. */
  lemma {:induction false} AbortPropagates(entries: seq<string>, asWritten: bool, i: nat)
    requires i <= |entries| && ParseEntries(entries[..i], asWritten) == None
    ensures ParseEntries(entries, asWritten) == None
    decreases |entries| - i
  {
    if i < |entries| {
      assert entries[..i + 1][..i] == entries[..i];
      AbortPropagates(entries, asWritten, i + 1);
    } else {
      assert entries[..i] == entries;
    }
  }
}
