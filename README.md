# Booking core of the Cinebook / SmartShow ticket app

The repository holds ten successive versions of a Streamlit + PostgreSQL
application that sells tickets for movies, comedy shows and concerts. This
Dafny project models the logic those versions share, with the differences
between versions kept as separate definitions:

- `Pricing`: the revenue split of a ticket total (`calculate_profit_breakdown`),
  the per-row seat price, and the movie, comedy and concert pricing strategies.
- `Validators`: the e-mail, password, UPI id, card number, CVV and card expiry
  checks in each version's variant, and `create_validator`.
- `PaymentDetails`: `process_payment_details`, the dispatch on payment method.
- `ShowTimes`: the fixed show-time tables and `calculate_show_times`, which
  shifts a category's base times by 0-45 minutes with wrap-around at midnight.
- `TheatreSelection`: the two ways of choosing three theatres of an area for a
  movie. One is a fixed index table reduced modulo the number of theatres; the
  other is cinebook1's spaced indices with duplicates made up.
- `SeatRows`: the seat-row templates by theatre id, `ensure_seat_data_exists`
  (insert if absent), and the rows `recreate_theatre_rows_data` creates.
- `SeatSelection`: cinebook1's movie seat selection (row caps, totals, seat
  labels numbered across rows, the `row_details` text) and how the payment
  step reads `row_details` back.
- `Booking`: `process_booking_payment` as a step function on an abstract
  store of venues, theatre rows, bookings, transactions and the booking id
  sequence. It comes in two versions: a conditional decrement with rollback,
  and cinebook1's unconditional decrement. It also covers the ticket cap and
  re-check on the comedy/concert pages and the admin venue status and reset.
- `Inventory`: the same store as a `Database` class whose methods run the
  source's statements in order. Each method is proved to end in the state
  the `SeatRows` / `Booking` step functions describe.
- `Advanced`: the helpers of the "advanced" versions. These are `memoize`
  (a class with a cache), `ImmutableConfig`, the validating `User` and
  `Booking` dataclasses, the strategies and `BookingFactory`, and the
  `BookingManager` singleton with its `process_booking`.
- `Wrappers`, `Arith`, `Collections`, `Text`: Option/Result, small arithmetic
  facts, distinctness and counting, and the Python string operations the code
  uses (`split`, `join`, `strip`, `endswith`, `int()`, `isdigit`).

The payment gateway's random outcome, generated transaction ids, the current
date and the weekday are parameters. Database tables are fields or sequences.

Where the source is wrong (see Findings below), the affected operations take an
`asWritten` flag: with it set they do what the code as written does, without it
what it evidently means to do. This applies to cinebook1's
`process_booking_payment` (`Inventory.Database.ProcessBookingPayment`,
`Inventory.Database.ApplyRowDetails`, `Booking.UnguardedPayment`,
`Booking.MovieRows`) and to the advanced versions' `process_booking`
(`Advanced.BookingManager.ProcessBooking`).

## Model

| member | source | states |
|---|---|---|
| Pricing.TruncDiv | cinebook3.py:280 | int() of a quotient truncates toward zero: bounds for positive and negative numerators |
| Pricing.ProfitBreakdown | cinebook3.py:277-299 | base + gst == total and fee + share + profit == base for every total; for total >= 0 all parts are >= 0, base is floor(100t/118), fee floor(b/10), share floor(6b/10), and 3*base <= 10*profit |
| Pricing.BreakdownBounded | smartshow_ultimate_ENHANCED_FINAL.py:276-299 | for total >= 0 no part exceeds the total and no share exceeds the base |
| Pricing.BreakdownOdd | smartshow_ultimate_complete_fixed.py:335-349 | the split of -t is the negation of the split of t (truncation toward zero) |
| Pricing.RowPrice | cinebook1.py:1934-1935 | int(base × multiplier) with the multiplier in tenths: within one of the exact product, at least the base for multipliers >= 1.0, at most it for multipliers <= 1.0 |
| Pricing.ComedyPrice | smartshow_ultimate_advanced_HIGHLIGHTED.py:514-519 | the comedy price is base × seats: it grows by one base per seat and is non-negative for non-negative inputs |
| Pricing.ConcertPrice | smartshow_ultimate_advanced_HIGHLIGHTED.py:525-531 | int(sum of seats copies of 1.5 × base): 0 for no seats, otherwise within one of 1.5 × base × seats and never below the comedy price |
| Pricing.MoviePrice | smartshow_ultimate_advanced_HIGHLIGHTED.py:494-508 | base × seats on weekdays; at weekends int(1.2 × base × seats), within one of the exact product; 0 for no seats |
| Validators.CreateValidator | smartshow_ultimate_advanced_HIGHLIGHTED.py:58-63 | the closure accepts exactly the strings with min <= len <= max |
| Validators.CreateValidatorInclusive | smartshow_ultimate_advanced.py:56-60 | both bounds are inclusive and one character over the maximum is rejected |
| Validators.EmailMin10Characterized | cinebook3.py:223-227 | valid_email accepts iff there is no space and the text ends with "@gmail.com" (the length test never decides) |
| Validators.EmailRulesDiffer | cinebook1.py:983-987 | the len > 10 rule accepts a subset of the len >= 10 rule, and they differ only on "@gmail.com" itself |
| Validators.EmailAdvancedCapped | smartshow_ultimate_advanced_HIGHLIGHTED.py:81-86 | validate_email of the advanced versions is the 10-character rule capped at 100 characters |
| Validators.UserEmailCompleteFixedAcceptsSpace | smartshow_ultimate_complete_fixed.py:387-393 | User.validate_email of complete_fixed accepts "a b@gmail.com", which every other e-mail rule rejects |
| Validators.PasswordAdvancedIsStrict | smartshow_ultimate_advanced_HIGHLIGHTED.py:88-96 | validate_password through password_validator is the same rule as valid_password (5..10 characters plus the four classes) |
| Validators.PasswordClassesNeedFour | cinebook3.py:229-233 | a password passing the upper/lower/digit/'@' test has at least four characters |
| Validators.PasswordRulesDiffer | cinebook1.py:989-993 | the 5..10 rule accepts a subset of cinebook1's max-10 rule, and they differ exactly on four-character passwords |
| Validators.FourCharPasswordSplitsRules | smartshow_ultimate_enhanced.py:738-742 | "Aa1@" passes the max-10 rule and fails the 5..10 rule |
| Validators.UpiCharacterized | smartshow_ultimate_ERROR_FREE.py:183-188 | validate_upi_id accepts iff the id ends with one of the listed handles, so "@paytm" alone passes |
| Validators.CleanCard | smartshow_ultimate_ENHANCED_15_SHOWS.py:274 | removing ' ' and '-' keeps every other character and only those |
| Validators.CardCharacterized | smartshow_ultimate_ENHANCED_15_SHOWS.py:271-276 | validate_card_number accepts iff only digits, spaces and dashes occur and 16 remain after cleaning |
| Validators.ExpiryCharacterized | smartshow_ultimate_ERROR_FREE.py:201-215 | an expiry passes iff both fields parse, the month is 1..12, the year is from this year to ten years on, and the month is not in the past |
| Validators.ExpiryOfFormChoices | smartshow_ultimate_FIXED.py:201-215 | for the months "01".."12" and years the form offers, a card passes iff it does not expire before the current month |
| PaymentDetails.Last4 | cinebook1.py:1050 | s[-4:] is the last four characters, or all of a shorter text |
| PaymentDetails.ProcessPaymentDetails | cinebook1.py:1037-1058 | UPI accepted iff the UPI id is valid; card iff number, CVV and expiry are valid; net banking iff bank and account are given; any other method gives (False, "Invalid payment method") |
| PaymentDetails.CardCheckOrder | smartshow_ultimate_enhanced.py:793-801 | the first failing card check, in the order number, CVV, expiry, names the rejection |
| PaymentDetails.CardAcceptedMessage | cinebook1.py:1049-1051 | an accepted card is reported as "Card ending in" the last four of its sixteen digits |
| PaymentDetails.RejectionReasons | cinebook1.py:1037-1058 | a rejection always carries one of the seven fixed reasons |
| ShowTimes.ToMinutes | smartshow_ultimate_advanced_HIGHLIGHTED.py:129-133 | a well-formed reading is 0..1439 minutes after midnight, before noon exactly for AM |
| ShowTimes.FromMinutes | smartshow_ultimate_advanced_HIGHLIGHTED.py:135-146 | the displayed hour and minute always form a well-formed "H:MM AM/PM" reading |
| ShowTimes.FromMinutesWraps | smartshow_ultimate_advanced_HIGHLIGHTED.py:135-136 | the reading shown for t minutes is t wrapped into one day |
| ShowTimes.ClockRoundTrip | smartshow_ultimate_advanced_HIGHLIGHTED.py:129-146 | converting a reading to minutes and back gives the same reading |
| ShowTimes.ParseFormat | smartshow_ultimate_advanced_HIGHLIGHTED.py:126-127 | splitting a formatted time on ':' and ' ' gives back its hour, minute and period |
| ShowTimes.ShiftTimeTextAgrees | smartshow_ultimate_advanced_HIGHLIGHTED.py:124-148 | one loop step on a formatted time is the formatted time shifted by the offset |
| ShowTimes.BaseTimesAreClocks | smartshow_ultimate_advanced_HIGHLIGHTED.py:103-108 | every base time of every category is a well-formed clock reading |
| ShowTimes.Offset | smartshow_ultimate_advanced_HIGHLIGHTED.py:121 | the offset ((id - 1) mod 4) × 15 is 0, 15, 30 or 45 |
| ShowTimes.CalculateShowTimes | smartshow_ultimate_advanced_HIGHLIGHTED.py:99-148 | the append loop returns each base time of the movie's category shifted by the offset |
| ShowTimes.ShiftTimes | smartshow_ultimate_advanced_HIGHLIGHTED.py:124-148 | when every time text shifts by the offset to a known h:mm AM/PM text, the loop yields exactly those texts, in order |
| ShowTimes.ShowTimesCount | smartshow_ultimate_advanced_HIGHLIGHTED.py:111-118 | ids 1-10 (romantic) get three shows, every other id four |
| ShowTimes.ShowTimesShifted | smartshow_ultimate_complete_fixed.py:621-667 | each show is its base time moved by the offset, wrapped into one day, and well formed |
| ShowTimes.ShowTimesUnshifted | smartshow_ultimate_advanced.py:91-139 | for id ≡ 1 (mod 4) the result is the base list unchanged |
| ShowTimes.ThreeShowTimesCount | smartshow_ultimate_ENHANCED_15_SHOWS.py:165-217 | every movie gets three show times, and ids outside 1-40 get the default list |
| ShowTimes.FourShowTimesExtends | smartshow_ultimate_FIXED.py:109-161 | ids 11-40 get four shows and the others three, and the first three are those of the three-show table |
| TheatreSelection.TheaterIndicesWellFormed | smartshow_ultimate_ENHANCED_15_SHOWS.py:135-151 | every mapping entry, and the default [1, 2, 3], holds three different indices in 1..7 |
| TheatreSelection.GetMovieSpecificTheaters | cinebook3.py:198-219 | fewer than three theatres come back unchanged; otherwise exactly three, the i-th being all[(idx_i - 1) mod n] |
| TheatreSelection.SelectTheatres | cinebook3.py:214-219 | the append loop yields, for each mapped index idx in order, the theatre at all[(idx - 1) mod n] |
| TheatreSelection.MappedTheatresDistinct | smartshow_ultimate_ENHANCED_15_SHOWS.py:229-242 | with seven or more distinct theatres the three chosen are distinct |
| TheatreSelection.MappedTheatresRepeat | smartshow_ultimate_ENHANCED_FINAL.py:207-220 | with three theatres, movie 11 gets the first theatre three times |
| TheatreSelection.RawIndex | cinebook1.py:260-264 | each spaced index ((i - 1) × 2 mod n + 2j) mod n lies in 0..n-1 |
| TheatreSelection.Dedup | cinebook1.py:267 | list(set(xs)) holds the same elements without repeats |
| TheatreSelection.ComputeTheatreIndices | cinebook1.py:256-274 | the loop yields three different indices below n that contain every spaced index, each made-up index being the smallest unused one |
| TheatreSelection.BuildTheatreMapping | cinebook1.py:253-275 | movie_theatre_mapping has exactly the keys 1..40, each with valid chosen indices |
| TheatreSelection.GetMovieSpecificTheatres | cinebook1.py:238-284 | fewer than three theatres come back unchanged; otherwise the three theatres at the chosen indices ([0, 1, 2] for an unmapped movie) |
| TheatreSelection.ChosenTheatresDistinct | cinebook1.py:276-282 | distinct theatres at distinct indices give three different theatres |
| TheatreSelection.RawIndicesDistinct | cinebook1.py:260-267 | the spaced indices collide only when there are exactly four theatres |
| TheatreSelection.FourTheatresFill | cinebook1.py:266-274 | with four theatres, movie 1 (spaced indices 0, 2, 0) ends up with the indices 0, 1 and 2 |
| SeatRows.TieredTemplateCapacity | cinebook1.py:1774-1789 | the eight tiers' rows add up to 120, 90, 105, 75, 60, 85, 70 and 70 seats, and every template is well formed |
| SeatRows.FiveTheatreMatchesTiers | smartshow_ultimate_enhanced.py:246-256 | theatres 1..5 use the first five tier templates (120, 90, 105, 75 and 60 seats) |
| SeatRows.ShowRows | cinebook1.py:1792-1797 | one record per template row, in order, for the show, with the row's name and available == total == the row's seats |
| SeatRows.CountShowRows | cinebook1.py:1765-1772 | the count is zero iff no record belongs to the show |
| SeatRows.EnsureSeatDataIdempotent | cinebook1.py:1761-1802 | True is returned iff the show had no rows; the old rows are kept as a prefix, the show then has rows, and a second call returns False and changes nothing |
| SeatRows.TheatresRowsCount | smartshow_ultimate_enhanced.py:246-265 | the nested loops insert dates × times × template rows records |
| SeatRows.TheatresRowsFresh | smartshow_ultimate_enhanced.py:258-265 | every inserted record is for a listed theatre, date and time, with all seats available |
| SeatRows.RecreatedRowsShape | smartshow_ultimate_enhanced.py:226-267 | after recreation there are 20 rows per date and show time, each fresh |
| SeatSelection.MaxSeats | cinebook1.py:1943-1955 | the widget cap is min(available, 10), and 0 (no widget) for a sold-out row |
| SeatSelection.MovieSeatSelection | cinebook1.py:1930-1963 | the loop gives the count of each row and total_seats = Σ count and total_amount = Σ count × row price |
| SeatSelection.SelectionWithinAvailability | cinebook1.py:1943-1955 | no row loses more seats than it has or more than ten |
| SeatSelection.AmountAtMostPremium | cinebook1.py:1934-1963 | the total is at most the premium row price per seat |
| SeatSelection.PrepareBookingDetails | cinebook1.py:1975-1998 | seat_numbers joins the labels and row_details joins one "Row X x k seats" entry per row with seats |
| SeatSelection.LabelsNumbered | cinebook1.py:1980-1984 | there is one label per booked seat, and the k-th label ends in seat number k + 1 |
| SeatSelection.LabelsExample | cinebook1.py:1980-1984 | two seats in A and two in B give the labels A1, A2, B3, B4 |
| SeatSelection.RowDetailsExample | cinebook1.py:1982-1986 | the same selection gives the row_details entries "Row A x 2 seats", "Row B x 2 seats" |
| SeatSelection.DropRowPrefix | cinebook1.py:1986 | removes exactly the "Row " written in front of the label, and leaves other text alone |
| SeatSelection.RowEntryRoundTrip | cinebook1.py:1281-1285 | reading an entry the page wrote gives ("Row " + label, k) as written and (label, k) when corrected |
| SeatSelection.RowDetailHasNoComma | cinebook1.py:1986 | an entry holds no comma, so the ", " split finds it whole |
| SeatSelection.EntriesRoundTrip | cinebook1.py:1281-1285 | reading back the entries gives the booked rows and counts, with "Row " kept in front as written |
| SeatSelection.RowDetailsRoundTrip | cinebook1.py:1280-1285 | the whole row_details text reads back as the booked rows, or with "Row " prefixes as written |
| SeatSelection.EntriesFromRows | cinebook1.py:1982-1986 | no entry the page writes into row_details holds a comma |
| SeatSelection.WithRowPrefix | cinebook1.py:1986 | the prefixed pairs put "Row " in front of each name and keep the counts |
| Booking.ConditionalDecrement | cinebook3.py:2434-2439 | the guarded UPDATE changes one row iff the venue has at least k seats left, and then lowers exactly that venue by k |
| Booking.DecrementRows | cinebook1.py:1287-1291 | the UPDATE lowers exactly the named row of the show by k and leaves every other record alone |
| Booking.ApplyRowBookingsEffect | cinebook1.py:1280-1291 | each row of the show loses exactly the seats booked under its name; nothing else changes |
| Booking.GuardedKeepsCapacityNonNegative | smartshow_ultimate_ERROR_FREE.py:2053-2066 | the guarded step never drives a capacity negative |
| Booking.GuardedSuccess | cinebook3.py:2395-2463 | with enough capacity, only that venue drops, by exactly the booked seats, and one COMPLETED booking and one SUCCESS transaction are added |
| Booking.GuardedRollback | cinebook3.py:2441-2444 | without enough capacity everything is rolled back and (False, None, txn) is returned; only the id sequence moved |
| Booking.GuardedMovieKeepsInventory | cinebook3.py:2432-2444 | a movie booking in the guarded versions touches neither seat rows nor venues |
| Booking.DeclinedPayment | cinebook3.py:2471-2481 | a declined payment adds one FAILED transaction with no booking id and reason 'Payment gateway error', in both versions, and changes nothing else |
| Booking.StepsKeepIdsFresh | cinebook1.py:1248-1262 | booking ids stay unique and below the sequence's next value |
| Booking.UnguardedOversells | cinebook1.py:1293-1299 | where the guard refuses, cinebook1 books anyway and leaves the venue below zero |
| Booking.DecrementRestoreRoundTrip | test_seat_availability.py:62-84 | a successful guarded decrement is undone by adding the seats back |
| Booking.RecheckMeetsGuard | cinebook3.py:1731-1752 | a ticket count the input allows (1..min(available, 10)) passes the re-check, and a paid booking then succeeds and keeps the capacity non-negative |
| Booking.AsWrittenTakesNoSeat | cinebook1.py:1281-1291 | as written, the names read back ("Row A") match no row, so a movie booking never takes a seat |
| Booking.AsWrittenPaymentTakesNoSeat | cinebook1.py:1232-1291 | as written, a paid movie booking from the selection page is recorded and charged (one booking, one SUCCESS transaction) while every theatre row keeps its seats |
| Booking.CorrectedTakesBookedSeats | cinebook1.py:1277-1291 | with the corrected reading, a paid movie booking takes from each row of the show exactly the seats booked in it |
| Booking.VenueStatusMonotone | cinebook3.py:2984-2995 | selling seats never improves a venue's badge; a venue with positive capacity is sold out iff nothing is left |
| Booking.ResetCapacities | cinebook3.py:3089 | every venue keeps its capacity and shows full availability again |
| Inventory.Database.EnsureSeatDataExists | cinebook1.py:1761-1802 | the count, the template choice and the insert loop end in the state EnsureSeatData describes |
| Inventory.Database.RecreateTheatreRowsData | smartshow_ultimate_enhanced.py:226-267 | after DELETE and the nested insert loops the rows are exactly those of theatres 1..5 for every date and time |
| Inventory.Database.InsertShowRows | cinebook1.py:1792-1797 | the insert loop over a template adds exactly ShowRows of the show |
| Inventory.Database.InsertTheatreRows | smartshow_ultimate_enhanced.py:259-267 | the date and show-time loops of one theatre add exactly the rows DatesRows lists |
| Inventory.Database.ResetAllVenueCapacities | smartshow_ultimate_ERROR_FREE.py:2364 | every venue's available capacity is reset to its capacity and nothing else changes |
| Inventory.Database.InsertBookingAndTransaction | cinebook3.py:2399-2428 | one booking and one SUCCESS transaction are appended under the next id |
| Inventory.Database.ProcessBookingPaymentGuarded | smartshow_ultimate_ERROR_FREE.py:2005-2102 | the inserts, the guarded UPDATE and the rollback end in the state and reply GuardedPayment describes |
| Inventory.Database.DecrementShowRow | cinebook1.py:1287-1291 | the UPDATE over theatre_rows ends in DecrementRows of the old rows |
| Inventory.Database.ProcessBookingPayment | cinebook1.py:1232-1336 | the inserts, the per-entry UPDATE loop (rolled back on an int() failure) and the venue UPDATE end in the state and reply UnguardedPayment describes, for the row names read back as written ("Row A") or with the corrected reading ("A") |
| Inventory.Database.ApplyRowDetails | cinebook1.py:1281-1291 | succeeds exactly when every entry of row_details reads back, and then leaves the rows MovieRows gives for the chosen reading (as written, "Row A" matches no stored row); venues, bookings and transactions are untouched |
| Inventory.AbortPropagates | cinebook1.py:1282-1284 | one entry failing int() makes the whole reading of row_details fail |
| Advanced.MemoStep | smartshow_ultimate_advanced_HIGHLIGHTED.py:66-74 | a cached key answers from the cache without running func; a new key runs func once and stores the result; no stored value changes |
| Advanced.MemoRunOncePerKey | smartshow_ultimate_advanced_HIGHLIGHTED.py:66-74 | after any calls the cache holds exactly the keys called, and func has run exactly once per distinct key |
| Advanced.MemoRunTransparent | smartshow_ultimate_complete_fixed.py:66-74 | every call returns what the final cache holds for its key, and func of its own argument when keys do not collide |
| Advanced.Memo.constructor | smartshow_ultimate_advanced_HIGHLIGHTED.py:66-68 | a new wrapper holds the function and an empty cache |
| Advanced.Memo.Call | smartshow_ultimate_advanced.py:62-70 | one wrapper call ends in the cache and answer MemoStep describes |
| Advanced.ConfigAssign | smartshow_ultimate_advanced_HIGHLIGHTED.py:178-182 | a frozen object refuses with "Cannot modify immutable config: key" and keeps its attributes; an unfrozen one stores the value |
| Advanced.FrozenConfigKeepsAttributes | smartshow_ultimate_complete_fixed.py:166-176 | once frozen, every assignment in any sequence raises and the attributes stay as constructed |
| Advanced.ImmutableConfig.constructor | smartshow_ultimate_advanced_HIGHLIGHTED.py:174-177 | the keyword arguments become the attributes and the object is frozen |
| Advanced.ImmutableConfig.SetAttr | smartshow_ultimate_advanced.py:158-168 | an assignment behaves as ConfigAssign on the current state and never unfreezes |
| Advanced.ImmutableConfig.GetAttr | smartshow_ultimate_advanced_HIGHLIGHTED.py:186-190 | a constructor argument stays readable; any other name is an AttributeError |
| Advanced.NewUser | smartshow_ultimate_advanced_HIGHLIGHTED.py:397-412 | a User is created iff the e-mail has no space, 10..100 characters and the suffix and the password passes the 5..10 rule; the e-mail is checked first |
| Advanced.NewUserCompleteFixed | smartshow_ultimate_complete_fixed.py:378-393 | a User is created iff 10 <= len(email) <= 100 and the suffix is present; the password is not checked |
| Advanced.UserVariantsDiffer | smartshow_ultimate_complete_fixed.py:387-389 | complete_fixed accepts every user the advanced versions accept, and also a short password they refuse |
| Advanced.CheckSeatsAndAmount | smartshow_ultimate_advanced_HIGHLIGHTED.py:469-473 | a Booking exists iff seats and amount are positive numbers; otherwise "Number of seats must be positive" is raised first, then "Total amount must be positive" |
| Advanced.CreateStrategy | smartshow_ultimate_advanced_HIGHLIGHTED.py:562-577 | MOVIE yields a movie strategy iff event_data has exactly the Movie fields; COMEDY always; CONCERT only where the branch exists (complete_fixed has no CONCERT branch and no process_booking, and nothing there calls the factory, so its ValueError would go uncaught) |
| Advanced.CalculatePricing | smartshow_ultimate_advanced_HIGHLIGHTED.py:494-531 | two numbers are priced by the strategy, and the price is positive iff the base is (for a positive seat count); text passes only comedy's str × int repetition |
| Advanced.AvailableTimes | smartshow_ultimate_advanced_HIGHLIGHTED.py:510-534 | comedy gives 6:00 PM and 8:30 PM, concert 7:00 PM and 9:30 PM, a movie its calculate_show_times list (3 or 4 entries) |
| Advanced.Repeat | smartshow_ultimate_advanced_HIGHLIGHTED.py:519 | Python's str × n has n copies of the text, none for n <= 0 |
| Advanced.BookWith | smartshow_ultimate_advanced_HIGHLIGHTED.py:604-641 | a stored booking has all required keys, positive seats and amount, the given transaction id and the profit split of its amount |
| Advanced.BookingOutcomeAsWritten | smartshow_ultimate_advanced_HIGHLIGHTED.py:601-647 | for comedy and concert the written code and the corrected one agree |
| Advanced.MovieBookingNeverSucceeds | smartshow_ultimate_advanced_HIGHLIGHTED.py:566-568 | as written, every MOVIE booking ends in "Booking failed due to system error" |
| Advanced.CreateStrategyForBooking | smartshow_ultimate_advanced_HIGHLIGHTED.py:562-577 | the corrected factory always yields the strategy of the requested event type |
| Advanced.BookingSucceedsIff | smartshow_ultimate_advanced_HIGHLIGHTED.py:601-641 | a booking succeeds iff the seven required keys are present and seats and base_price (defaults 1 and 300) are positive numbers; the stored booking carries the request's fields and the strategy's price |
| Advanced.BookingRejections | smartshow_ultimate_advanced.py:546-589 | with the keys present, non-positive seats or base price is reported with the dataclass's own message |
| Advanced.DefaultRequestBooks | smartshow_ultimate_advanced_HIGHLIGHTED.py:607-609 | a complete request without seats or base_price books one seat at 300 (360 for a weekend movie, 450 for a concert) |
| Advanced.BookingManager.constructor | smartshow_ultimate_advanced_HIGHLIGHTED.py:587-591 | a new instance has no bookings and is not yet initialised |
| Advanced.BookingManager.Init | smartshow_ultimate_advanced_HIGHLIGHTED.py:593-599 | __init__ sets up the empty bookings list only the first time |
| Advanced.BookingManager.ProcessBooking | smartshow_ultimate_advanced_HIGHLIGHTED.py:601-647 | on success exactly one booking is appended and (True, txn) returned; on a caught error nothing is appended and the error's message returned; with the factory as written (BookingOutcomeAsWritten) a MOVIE request therefore never appends, with the corrected one (BookingOutcome) a complete request does |
| Advanced.BookingManagerClass.constructor | smartshow_ultimate_advanced_HIGHLIGHTED.py:583-585 | before the first BookingManager() call there is no instance |
| Advanced.BookingManagerClass.Get | smartshow_ultimate_advanced_HIGHLIGHTED.py:580-599 | BookingManager() always returns the same instance, with its bookings kept, once one exists |

## Left out

- The Streamlit pages, navigation, charts, analytics, logging, OTP e-mail and ticket files are user interface and I/O. write_ticket catches its own errors, so it cannot change what process_booking returns.
- Database plumbing (connection, schema, seed data) is left out. The store is a set of fields and sequences, and each call is one sequential step. Concurrent bookings and the atomicity of SQL statements are not modelled.
- Only one database error is modelled: the int() failure in cinebook1's row_details loop. Other exceptions inside process_booking_payment (a lost connection, a constraint violation) are not.
- Randomness and the clock are parameters: the payment outcome, the transaction id, the current year and month, the weekday, and the dates of get_next_few_days.
- Inventory.Database.RecreateTheatreRowsData: the list of show times (the sorted union of get_movie_show_times over movies 1-20) and the dates are parameters, not computed.
- Pricing.RowPrice: the multiplier is exact tenths. Python multiplies by the float of a DECIMAL, which can land one below: int(90 * 0.7) is 62, not 63.
- Pricing.ProfitBreakdown: total / 1.18, base × 0.10 and base × 0.60 are exact rationals. The float results can differ by one where a quotient lands just below an integer.
- Pricing.MoviePrice: the weekend price uses an exact 1.2, where numpy sums float copies of base × 1.2.
- Advanced.CalculatePricing: numpy on arrays of text is taken to raise TypeError. Only integers and text are values: floats and booleans in booking_data are not modelled.
- Advanced.ImmutableConfig.constructor: a keyword argument named _frozen is excluded. Attribute values are values, so a nested dict that Python would let the caller change in place is not modelled; the _frozen flag itself is not readable through GetAttr.
- Advanced.Memo.Call: the key string is a parameter function, not Python's str() of the arguments. A func that raises is not modelled.
- Advanced.NewUser: the otp and created_at fields are not modelled.
- BookingContext and set_strategy are not modelled separately: a strategy is a value, and the context only forwards to it.
- Python int() is an optional sign and ASCII digits (no surrounding whitespace, no underscores); isdigit/isupper/islower are the ASCII classes.
- A missing dictionary entry and "" are treated alike by the validators, as Python's truthiness does.
- TheatreSelection.Dedup: list(set(...)) has no specified order. The model keeps first occurrences, and the contracts that depend on it speak only of which indices appear.
- SeatSelection.WidgetValues: the bounds the number inputs enforce (0..min(available, 10)) are a precondition of the selection loop, not modelled behaviour.
- cinebook1's own recreate_theatre_rows_data, the show-time pages and the admin dashboards are not modelled.

## Findings

| source | as written | input that shows it | evidently intended | confidence | as-written member | corrected member |
|---|---|---|---|---|---|---|
| cinebook1.py:1281-1291 | the movie branch reads the row name as the text before " x ", which is "Row A" for the entries written at cinebook1.py:1986, while theatre_rows stores "A"; the UPDATE matches no row | a paid movie booking with row_details "Row A x 2 seats" | row A of the show loses 2 available seats | not executed | Booking.AsWrittenTakesNoSeat | Booking.CorrectedTakesBookedSeats |
| smartshow_ultimate_advanced_HIGHLIGHTED.py:566-568 | the factory builds Movie(**booking_data): that raises TypeError unless booking_data holds exactly the Movie fields, and then booking_data['user_email'] raises KeyError (the same code is in smartshow_ultimate_advanced.py:516-520) | process_booking with event type MOVIE and any booking_data, e.g. the seven required keys | a movie booking with the required keys is stored and priced by the movie strategy | not executed | Advanced.MovieBookingNeverSucceeds | Advanced.DefaultRequestBooks |
