/**
 * The object-oriented helpers of the "advanced" smartshow versions: the
 * memoizing decorator, the configuration object that freezes itself after
 * construction, the validating User and Booking dataclasses, the pricing
 * strategies with their factory, and the singleton booking manager that keeps
 * its bookings in an in-memory list.
 *
 * A booking_data dict holds values of several Python types; the two that the
 * code distinguishes are numbers and text, so a value is a Num or a Text.
 * The transaction id, the weekday test and every exception the code catches
 * as "Exception" (KeyError, TypeError, ValueError) become parameters or the
 * single failure Crashed.
 */
module Advanced {
  import opened Wrappers
  import opened Text
  import opened Validators
  import opened Pricing
  import ShowTimes

  // ------------------------------------------------------------- memoize

  /** One call of the memoized wrapper: the value returned, the new cache, and how often func has run. */
  datatype MemoState<V> = MemoState(cache: map<string, V>, results: seq<V>, evaluations: nat)

  /**
   * The wrapper on one argument: a cached key answers from the cache,
   * a new key runs func once and stores the answer.
   */
  function MemoStep<A, V>(func: A -> V, keyOf: A -> string, s: MemoState<V>, a: A): (r: MemoState<V>)
    ensures keyOf(a) in r.cache && r.results == s.results + [r.cache[keyOf(a)]]
    ensures r.cache.Keys == s.cache.Keys + {keyOf(a)}
    ensures forall k :: k in s.cache ==> k in r.cache && r.cache[k] == s.cache[k]
    ensures keyOf(a) in s.cache ==> r.evaluations == s.evaluations
    ensures keyOf(a) !in s.cache ==> r.evaluations == s.evaluations + 1 && r.cache[keyOf(a)] == func(a)
  {
    var key := keyOf(a);
    if key in s.cache then MemoState(s.cache, s.results + [s.cache[key]], s.evaluations)
    else MemoState(s.cache[key := func(a)], s.results + [func(a)], s.evaluations + 1)
  }

  /** The state of a freshly decorated function after a sequence of calls. */
  function MemoRun<A, V>(func: A -> V, keyOf: A -> string, calls: seq<A>): MemoState<V>
  {
    if |calls| == 0 then MemoState(map[], [], 0)
    else MemoStep(func, keyOf, MemoRun(func, keyOf, calls[..|calls| - 1]), calls[|calls| - 1])
  }

  /** The keys of a sequence of calls. */
  function CallKeys<A>(keyOf: A -> string, calls: seq<A>): set<string> {
    set i | 0 <= i < |calls| :: keyOf(calls[i])
  }

  lemma CallKeysSnoc<A>(keyOf: A -> string, calls: seq<A>)
    requires |calls| > 0
    ensures CallKeys(keyOf, calls) == CallKeys(keyOf, calls[..|calls| - 1]) + {keyOf(calls[|calls| - 1])}
  {
    var init := calls[..|calls| - 1];
    forall k | k in CallKeys(keyOf, calls)
      ensures k in CallKeys(keyOf, init) + {keyOf(calls[|calls| - 1])}
    {
      var i :| 0 <= i < |calls| && keyOf(calls[i]) == k;
      if i < |calls| - 1 {
        assert init[i] == calls[i];
      }
    }
    forall k | k in CallKeys(keyOf, init)
      ensures k in CallKeys(keyOf, calls)
    {
      var i :| 0 <= i < |init| && keyOf(init[i]) == k;
      assert calls[i] == init[i];
    }
  }

  /**
   * The cache holds exactly the keys called so far, one result is returned per
   * call, and func has run exactly once per distinct key.
   */
  lemma {:induction false} MemoRunOncePerKey<A, V>(func: A -> V, keyOf: A -> string, calls: seq<A>)
    ensures MemoRun(func, keyOf, calls).cache.Keys == CallKeys(keyOf, calls)
    ensures |MemoRun(func, keyOf, calls).results| == |calls|
    ensures MemoRun(func, keyOf, calls).evaluations == |CallKeys(keyOf, calls)|
  {
    if |calls| > 0 {
      var init := calls[..|calls| - 1];
      var a := calls[|calls| - 1];
      MemoRunOncePerKey(func, keyOf, init);
      CallKeysSnoc(keyOf, calls);
      if keyOf(a) !in CallKeys(keyOf, init) {
        assert CallKeys(keyOf, calls) - {keyOf(a)} == CallKeys(keyOf, init);
      } else {
        assert CallKeys(keyOf, calls) == CallKeys(keyOf, init);
      }
    }
  }

  /**
   * Each call returns what the final cache holds for its key (a stored value
   * is never replaced), and when no two arguments share a key string every
   * call returns func of its own argument.
   */
  lemma {:induction false} MemoRunTransparent<A, V>(func: A -> V, keyOf: A -> string, calls: seq<A>)
    ensures |MemoRun(func, keyOf, calls).results| == |calls|
    ensures forall i :: 0 <= i < |calls| ==>
      keyOf(calls[i]) in MemoRun(func, keyOf, calls).cache &&
      MemoRun(func, keyOf, calls).results[i] == MemoRun(func, keyOf, calls).cache[keyOf(calls[i])]
    ensures (forall a, b :: keyOf(a) == keyOf(b) ==> a == b) ==>
      forall i :: 0 <= i < |calls| ==> MemoRun(func, keyOf, calls).results[i] == func(calls[i])
  {
    if |calls| > 0 {
      var init := calls[..|calls| - 1];
      MemoRunTransparent(func, keyOf, init);
      var before := MemoRun(func, keyOf, init);
      var after := MemoRun(func, keyOf, calls);
      assert after == MemoStep(func, keyOf, before, calls[|calls| - 1]);
      forall i | 0 <= i < |calls|
        ensures keyOf(calls[i]) in after.cache && after.results[i] == after.cache[keyOf(calls[i])]
      {
        if i < |calls| - 1 {
          assert calls[i] == init[i];
        }
      }
      if forall a, b :: keyOf(a) == keyOf(b) ==> a == b {
        forall i | 0 <= i < |calls|
          ensures after.results[i] == func(calls[i])
        {
          if i < |calls| - 1 {
            assert calls[i] == init[i];
          } else if keyOf(calls[i]) in before.cache {
            MemoRunOncePerKey(func, keyOf, init);
            var j := FindKey(keyOf, init, keyOf(calls[i]));
            assert init[j] == calls[i];
            assert before.results[j] == func(init[j]);
          }
        }
      }
    }
  }

  /** A call whose key is cached was made earlier. */
  lemma FindKey<A>(keyOf: A -> string, calls: seq<A>, key: string) returns (j: nat)
    requires key in CallKeys(keyOf, calls)
    ensures j < |calls| && keyOf(calls[j]) == key
  {
    j :| 0 <= j < |calls| && keyOf(calls[j]) == key;
  }

  /** A function decorated with @memoize: its cache and, for the proof, how often it ran. */
  class Memo<A, V> {
    const func: A -> V
    const keyOf: A -> string
    var cache: map<string, V>
    ghost var evaluations: nat

    /** memoize(func): an empty cache. keyOf is str(args) + str(sorted(kwargs.items())). */
    constructor(func: A -> V, keyOf: A -> string)
      ensures this.func == func && this.keyOf == keyOf
      ensures cache == map[] && evaluations == 0
    {
      this.func := func;
      this.keyOf := keyOf;
      cache := map[];
      evaluations := 0;
    }

    /** wrapper(*args): compute and store on a miss, then answer from the cache. */
    method Call(a: A) returns (v: V)
      modifies this
      ensures var s := MemoStep(func, keyOf, MemoState(old(cache), [], old(evaluations)), a);
        cache == s.cache && evaluations == s.evaluations && [v] == s.results
    {
      var key := keyOf(a);
      if key !in cache {
        cache := cache[key := func(a)];
        evaluations := evaluations + 1;
      }
      v := cache[key];
    }
  }

  // ------------------------------------------------------------- ImmutableConfig

  /** The AttributeError text of a refused assignment. */
  function ModifyError(key: string): string {
    "Cannot modify immutable config: " + key
  }

  /** __setattr__: refused once the object is frozen, otherwise stored. */
  function ConfigAssign<V>(frozen: bool, attrs: map<string, V>, key: string, value: V): (r: (Option<string>, map<string, V>))
    ensures frozen ==> r == (Some(ModifyError(key)), attrs)
    ensures !frozen ==> r.0 == None && key in r.1 && r.1[key] == value
    ensures !frozen ==> forall k :: k in attrs && k != key ==> k in r.1 && r.1[k] == attrs[k]
  {
    if frozen then (Some(ModifyError(key)), attrs) else (None, attrs[key := value])
  }

  /** A sequence of assignments: the error of each and the attributes at the end. */
  function ConfigAssignAll<V>(frozen: bool, attrs: map<string, V>, assigns: seq<(string, V)>): (seq<Option<string>>, map<string, V>)
  {
    if |assigns| == 0 then ([], attrs)
    else
      var (errors, before) := ConfigAssignAll(frozen, attrs, assigns[..|assigns| - 1]);
      var (error, after) := ConfigAssign(frozen, before, assigns[|assigns| - 1].0, assigns[|assigns| - 1].1);
      (errors + [error], after)
  }

  /** Once frozen, every assignment raises and the attributes never change. */
  lemma {:induction false} FrozenConfigKeepsAttributes<V>(attrs: map<string, V>, assigns: seq<(string, V)>)
    ensures ConfigAssignAll(true, attrs, assigns).1 == attrs
    ensures |ConfigAssignAll(true, attrs, assigns).0| == |assigns|
    ensures forall i :: 0 <= i < |assigns| ==>
      ConfigAssignAll(true, attrs, assigns).0[i] == Some(ModifyError(assigns[i].0))
  {
    if |assigns| > 0 {
      var init := assigns[..|assigns| - 1];
      FrozenConfigKeepsAttributes(attrs, init);
      forall i | 0 <= i < |assigns| - 1
        ensures ConfigAssignAll(true, attrs, assigns).0[i] == Some(ModifyError(assigns[i].0))
      {
        assert init[i] == assigns[i];
      }
    }
  }

  /** ImmutableConfig: the keyword arguments as attributes, frozen at the end of __init__. */
  class ImmutableConfig<V> {
    var attrs: map<string, V>
    var frozen: bool

    /** __init__(**kwargs): store every argument, then set _frozen. */
    constructor(kwargs: map<string, V>)
      requires "_frozen" !in kwargs
      ensures attrs == kwargs && frozen
    {
      attrs := kwargs;
      frozen := true;
    }

    /** config.key = value. */
    method SetAttr(key: string, value: V) returns (error: Option<string>)
      modifies this
      ensures (error, attrs) == ConfigAssign(old(frozen), old(attrs), key, value)
      ensures frozen == old(frozen)
    {
      if frozen {
        return Some(ModifyError(key));
      }
      attrs := attrs[key := value];
      return None;
    }

    /** config.key: the stored value, or None for AttributeError. */
    function GetAttr(key: string): (r: Option<V>)
      reads this
      ensures r.Some? <==> key in attrs
      ensures r.Some? ==> r.value == attrs[key]
    {
      if key in attrs then Some(attrs[key]) else None
    }
  }

  // ------------------------------------------------------------- dataclasses

  /** Why a booking attempt failed: a caught ValidationError/BookingError with its text, or any other exception. */
  datatype Failure = Rejected(message: string) | Crashed

  const SystemError := "Booking failed due to system error"

  function FailureMessage(f: Failure): string {
    match f
    case Rejected(m) => m
    case Crashed => SystemError
  }

  /** The User fields that __post_init__ looks at (otp and created_at are left out). */
  datatype User = User(name: string, email: string, area: string, password: string)

  /** User(...) of the advanced versions: the e-mail, then the password, must validate. */
  function NewUser(name: string, email: string, area: string, password: string): (r: Result<User, string>)
    ensures r.Ok? <==> (' ' !in email && 10 <= |email| <= 100 && EndsWith(email, GmailSuffix) &&
      5 <= |password| <= 10 && HasCharClasses(password))
    ensures r.Ok? ==> r.value == User(name, email, area, password)
    ensures r.Err? && EmailAdvanced(email) ==> r.error == "Password does not meet requirements"
    ensures r.Err? && !EmailAdvanced(email) ==> r.error == "Invalid email format: " + email
  {
    if !EmailAdvanced(email) then Err("Invalid email format: " + email)
    else if !PasswordAdvanced(password) then Err("Password does not meet requirements")
    else Ok(User(name, email, area, password))
  }

  /** User(...) of smartshow complete_fixed: only validate_email, no space test and no password test. */
  function NewUserCompleteFixed(name: string, email: string, area: string, password: string): (r: Result<User, string>)
    ensures r.Ok? <==> 10 <= |email| <= 100 && EndsWith(email, GmailSuffix)
    ensures r.Ok? ==> r.value == User(name, email, area, password)
    ensures r.Err? ==> r.error == "Invalid email format: " + email
  {
    if !UserEmailCompleteFixed(email) then Err("Invalid email format: " + email)
    else Ok(User(name, email, area, password))
  }

  /** Every user the advanced versions accept, complete_fixed accepts too, and a short password tells them apart. */
  lemma UserVariantsDiffer(name: string, email: string, area: string, password: string)
    ensures NewUser(name, email, area, password).Ok? ==> NewUserCompleteFixed(name, email, area, password).Ok?
    ensures EmailAdvanced(email) && |password| < 5 ==>
      NewUserCompleteFixed(name, email, area, password).Ok? &&
      NewUser(name, email, area, password) == Err("Password does not meet requirements")
  {
  }

  /** A booking_data value: the code tells numbers from text and nothing else. */
  datatype Value = Num(n: int) | Text(s: string)

  /** The Booking dataclass, with profit_breakdown filled in. */
  datatype BookingEntry = BookingEntry(
    userEmail: Value, eventType: string, eventId: Value, eventName: Value,
    venueId: Value, venueName: Value, showDate: Value, showTime: Value,
    bookedSeats: int, totalAmount: int,
    seatNumbers: Value, rowDetails: Value, paymentMethod: Value,
    transactionId: string, split: Breakdown)

  /**
   * Booking.__post_init__ on the seat count and the amount: a number must be
   * positive (BookingError); text cannot be compared with 0 (TypeError).
   */
  function CheckSeatsAndAmount(bookedSeats: Value, totalAmount: Value): (r: Result<(int, int), Failure>)
    ensures r.Ok? <==> bookedSeats.Num? && bookedSeats.n > 0 && totalAmount.Num? && totalAmount.n > 0
    ensures r.Ok? ==> r.value == (bookedSeats.n, totalAmount.n)
    ensures bookedSeats.Num? && bookedSeats.n <= 0 ==> r == Err(Rejected("Number of seats must be positive"))
    ensures bookedSeats.Num? && bookedSeats.n > 0 && totalAmount.Num? && totalAmount.n <= 0 ==>
      r == Err(Rejected("Total amount must be positive"))
    ensures bookedSeats.Text? || (bookedSeats.n > 0 && totalAmount.Text?) ==> r == Err(Crashed)
  {
    match bookedSeats
    case Text(_) => Err(Crashed)
    case Num(seats) =>
      if seats <= 0 then Err(Rejected("Number of seats must be positive"))
      else match totalAmount
        case Text(_) => Err(Crashed)
        case Num(amount) =>
          if amount <= 0 then Err(Rejected("Total amount must be positive")) else Ok((seats, amount))
  }

  // ------------------------------------------------------------- strategies and factory

  datatype EventType = Movie | Comedy | Concert

  /** EventType.value. */
  function EventTypeValue(e: EventType): string {
    match e
    case Movie => "movie"
    case Comedy => "comedy"
    case Concert => "concert"
  }

  /** The strategies; a movie strategy holds the Movie dataclass's fields. */
  datatype Strategy = MovieStrategy(movie: map<string, Value>) | ComedyStrategy | ConcertStrategy

  /** The fields of the Movie dataclass. */
  const MovieFields: set<string> := {"id", "name", "mood", "duration", "rating", "language"}

  /** The kind of event a strategy prices. */
  function StrategyKind(s: Strategy): EventType {
    match s
    case MovieStrategy(_) => Movie
    case ComedyStrategy => Comedy
    case ConcertStrategy => Concert
  }

  /**
   * BookingFactory.create_booking_strategy. Movie(**event_data) accepts
   * exactly the Movie fields and raises TypeError otherwise; smartshow
   * complete_fixed has no CONCERT branch and raises ValueError there.
   */
  function CreateStrategy(eventType: EventType, eventData: map<string, Value>, concertBranch: bool): (r: Result<Strategy, Failure>)
    ensures r.Ok? ==> StrategyKind(r.value) == eventType
    ensures eventType == Movie ==> (r.Ok? <==> eventData.Keys == MovieFields)
    ensures eventType == Movie && r.Ok? ==> r.value.movie == eventData
    ensures eventType == Comedy ==> r.Ok?
    ensures eventType == Concert ==> (r.Ok? <==> concertBranch)
    ensures r.Err? ==> r.error == Crashed
  {
    match eventType
    case Movie => if eventData.Keys == MovieFields then Ok(MovieStrategy(eventData)) else Err(Crashed)
    case Comedy => Ok(ComedyStrategy)
    case Concert => if concertBranch then Ok(ConcertStrategy) else Err(Crashed)
  }

  /** Python's str * int: the text repeated, empty for a count of zero or less. */
  function Repeat(t: string, n: int): (r: string)
    ensures |r| == if n <= 0 then 0 else n * |t|
    decreases n
  {
    if n <= 0 then "" else Repeat(t, n - 1) + t
  }

  /**
   * calculate_pricing. Comedy multiplies, which Python also allows between a
   * number and text (repetition); the numpy strategies need two numbers.
   * None is a TypeError.
   */
  function CalculatePricing(s: Strategy, basePrice: Value, seats: Value, weekend: bool): (r: Option<Value>)
    ensures basePrice.Num? && seats.Num? ==> r.Some? && r.value.Num?
    ensures basePrice.Num? && seats.Num? && seats.n > 0 && basePrice.n > 0 ==> r.value.n >= basePrice.n * seats.n
    ensures basePrice.Num? && seats.Num? && seats.n > 0 ==> (r.value.n > 0 <==> basePrice.n > 0)
    ensures s == ComedyStrategy && basePrice.Num? && seats.Num? ==> r.value.n == basePrice.n * seats.n
    ensures (basePrice.Text? || seats.Text?) ==> (r.Some? <==> s == ComedyStrategy && !(basePrice.Text? && seats.Text?))
  {
    match (basePrice, seats)
    case (Num(b), Num(n)) =>
      var p := match s
        case MovieStrategy(_) => MoviePrice(b, n, weekend)
        case ComedyStrategy => ComedyPrice(b, n)
        case ConcertStrategy => ConcertPrice(b, n);
      PriceSign(s, b, n, weekend);
      Some(Num(p))
    case (Text(t), Num(n)) => if s == ComedyStrategy then Some(Text(Repeat(t, n))) else None
    case (Num(b), Text(t)) => if s == ComedyStrategy then Some(Text(Repeat(t, b))) else None
    case (Text(_), Text(_)) => None
  }

  /** For a positive seat count every strategy charges something exactly when the base price is positive. */
  lemma PriceSign(s: Strategy, b: int, n: int, weekend: bool)
    ensures n > 0 ==> (ComedyPrice(b, n) > 0 <==> b > 0)
    ensures n > 0 ==> (ConcertPrice(b, n) > 0 <==> b > 0)
    ensures n > 0 ==> (MoviePrice(b, n, weekend) > 0 <==> b > 0)
  {
    if n > 0 {
      if b > 0 {
        MulAtLeastOne(b, n);
      } else if b < 0 {
        MulAtLeastOne(-b, n);
        assert ComedyPrice(b, n) == -ComedyPrice(-b, n);
        TruncDivNeg(15 * ComedyPrice(-b, n), 10);
        TruncDivNeg(12 * ComedyPrice(-b, n), 10);
        assert 15 * ComedyPrice(b, n) == -(15 * ComedyPrice(-b, n));
        assert 12 * ComedyPrice(b, n) == -(12 * ComedyPrice(-b, n));
      }
    }
  }

  lemma MulAtLeastOne(b: int, n: int)
    requires b > 0 && n > 0
    ensures b * n >= 1 && b * n >= b
  {
  }

  /** get_available_times: the movie's show times, or the fixed comedy and concert slots. None is a TypeError. */
  function AvailableTimes(s: Strategy): (r: Option<seq<string>>)
    ensures s == ComedyStrategy ==> r == Some(["6:00 PM", "8:30 PM"])
    ensures s == ConcertStrategy ==> r == Some(["7:00 PM", "9:30 PM"])
    ensures s.MovieStrategy? ==> (r.Some? <==> "id" in s.movie && s.movie["id"].Num?)
    ensures s.MovieStrategy? && r.Some? ==> |r.value| == if 1 <= s.movie["id"].n <= 10 then 3 else 4
  {
    match s
    case MovieStrategy(movie) =>
      if "id" in movie && movie["id"].Num? then
        ShowTimes.ShowTimesCount(movie["id"].n);
        Some(ShowTimes.ShowTimesOf(movie["id"].n))
      else None
    case ComedyStrategy => Some(["6:00 PM", "8:30 PM"])
    case ConcertStrategy => Some(["7:00 PM", "9:30 PM"])
  }

  // ------------------------------------------------------------- process_booking

  function Get(data: map<string, Value>, key: string, default: Value): Value {
    if key in data then data[key] else default
  }

  /** The keys process_booking reads with booking_data[...]; a missing one is a KeyError. */
  predicate HasRequiredKeys(data: map<string, Value>) {
    "user_email" in data && "event_id" in data && "event_name" in data && "venue_id" in data &&
    "venue_name" in data && "show_date" in data && "show_time" in data
  }

  /** Everything process_booking does after the factory: price, build the Booking, split the amount. */
  function BookWith(strategy: Result<Strategy, Failure>, data: map<string, Value>, eventType: EventType,
                    weekend: bool, txnId: string): (r: Result<BookingEntry, Failure>)
    ensures r.Ok? ==> strategy.Ok? && HasRequiredKeys(data)
    ensures r.Ok? ==> r.value.bookedSeats > 0 && r.value.totalAmount > 0
    ensures r.Ok? ==> r.value.split == ProfitBreakdown(r.value.totalAmount) && r.value.transactionId == txnId
  {
    match strategy
    case Err(f) => Err(f)
    case Ok(s) =>
      var seats := Get(data, "seats", Num(1));
      match CalculatePricing(s, Get(data, "base_price", Num(300)), seats, weekend)
      case None => Err(Crashed)
      case Some(total) =>
        if !HasRequiredKeys(data) then Err(Crashed)
        else match CheckSeatsAndAmount(seats, total)
          case Err(f) => Err(f)
          case Ok((n, amount)) =>
            Ok(BookingEntry(
              data["user_email"], EventTypeValue(eventType), data["event_id"], data["event_name"],
              data["venue_id"], data["venue_name"], data["show_date"], data["show_time"],
              n, amount,
              Get(data, "seat_numbers", Text("")), Get(data, "row_details", Text("")),
              Get(data, "payment_method", Text("UPI")),
              txnId, ProfitBreakdown(amount)))
  }

  /** process_booking as written: the factory is handed the whole booking_data. */
  function BookingOutcomeAsWritten(data: map<string, Value>, eventType: EventType, weekend: bool, txnId: string): (r: Result<BookingEntry, Failure>)
    ensures eventType != Movie ==> r == BookingOutcome(data, eventType, weekend, txnId)
  {
    BookWith(CreateStrategy(eventType, data, true), data, eventType, weekend, txnId)
  }

  /** A movie booking can never be made as written: the booking fields and the Movie fields exclude each other. */
  lemma MovieBookingNeverSucceeds(data: map<string, Value>, weekend: bool, txnId: string)
    ensures BookingOutcomeAsWritten(data, Movie, weekend, txnId) == Err(Crashed)
  {
    if data.Keys == MovieFields {
      assert "user_email" !in MovieFields;
    }
  }

  /** The Movie a movie booking is about: its id and name are the booking's event_id and event_name. */
  function MovieOfBooking(data: map<string, Value>): map<string, Value> {
    map["id" := Get(data, "event_id", Num(0)), "name" := Get(data, "event_name", Text(""))]
  }

  /** The factory with the movie built from the booking's event fields. */
  function CreateStrategyForBooking(eventType: EventType, data: map<string, Value>): (r: Result<Strategy, Failure>)
    ensures r.Ok? && StrategyKind(r.value) == eventType
  {
    match eventType
    case Movie => Ok(MovieStrategy(MovieOfBooking(data)))
    case Comedy => Ok(ComedyStrategy)
    case Concert => Ok(ConcertStrategy)
  }

  /** process_booking with the movie strategy built from the event fields (the rest of the model uses this). */
  function BookingOutcome(data: map<string, Value>, eventType: EventType, weekend: bool, txnId: string): (r: Result<BookingEntry, Failure>)
  {
    BookWith(CreateStrategyForBooking(eventType, data), data, eventType, weekend, txnId)
  }

  /** The price a strategy of this kind charges for numbers. */
  function PriceOf(eventType: EventType, b: int, n: int, weekend: bool): int {
    match eventType
    case Movie => MoviePrice(b, n, weekend)
    case Comedy => ComedyPrice(b, n)
    case Concert => ConcertPrice(b, n)
  }

  /**
   * A booking succeeds exactly when every required key is present and the
   * seat count and base price (defaults 1 and 300) are positive numbers; the
   * stored booking then carries the request's fields and the strategy's price.
   */
  lemma BookingSucceedsIff(data: map<string, Value>, eventType: EventType, weekend: bool, txnId: string)
    ensures var r := BookingOutcome(data, eventType, weekend, txnId);
      var seats := Get(data, "seats", Num(1));
      var base := Get(data, "base_price", Num(300));
      r.Ok? <==> HasRequiredKeys(data) && seats.Num? && seats.n > 0 && base.Num? && base.n > 0
    ensures var r := BookingOutcome(data, eventType, weekend, txnId);
      var seats := Get(data, "seats", Num(1));
      var base := Get(data, "base_price", Num(300));
      r.Ok? ==>
        r.value.bookedSeats == seats.n && r.value.totalAmount == PriceOf(eventType, base.n, seats.n, weekend) &&
        r.value.eventType == EventTypeValue(eventType) && r.value.userEmail == data["user_email"] &&
        r.value.eventId == data["event_id"] && r.value.venueId == data["venue_id"] &&
        r.value.showDate == data["show_date"] && r.value.showTime == data["show_time"]
  {
    var s := CreateStrategyForBooking(eventType, data).value;
    var seats := Get(data, "seats", Num(1));
    var base := Get(data, "base_price", Num(300));
    var total := CalculatePricing(s, base, seats, weekend);
    if base.Num? && seats.Num? {
      assert total.value.n == PriceOf(eventType, base.n, seats.n, weekend);
    }
  }

  /** With the keys present, a non-positive seat count or base price is refused with the dataclass's own message. */
  lemma BookingRejections(data: map<string, Value>, eventType: EventType, weekend: bool, txnId: string)
    requires HasRequiredKeys(data)
    ensures var seats := Get(data, "seats", Num(1));
      var base := Get(data, "base_price", Num(300));
      seats.Num? && seats.n <= 0 && base.Num? ==>
        BookingOutcome(data, eventType, weekend, txnId) == Err(Rejected("Number of seats must be positive"))
    ensures var seats := Get(data, "seats", Num(1));
      var base := Get(data, "base_price", Num(300));
      seats.Num? && seats.n > 0 && base.Num? && base.n <= 0 ==>
        BookingOutcome(data, eventType, weekend, txnId) == Err(Rejected("Total amount must be positive"))
  {
  }

  /** The corrected movie path books: a complete request with numeric defaults succeeds for every event type. */
  lemma DefaultRequestBooks(data: map<string, Value>, eventType: EventType, weekend: bool, txnId: string)
    requires HasRequiredKeys(data) && "seats" !in data && "base_price" !in data
    ensures BookingOutcome(data, eventType, weekend, txnId).Ok?
    ensures BookingOutcome(data, eventType, weekend, txnId).value.bookedSeats == 1
    ensures BookingOutcome(data, eventType, weekend, txnId).value.totalAmount ==
      match eventType case Movie => (if weekend then 360 else 300) case Comedy => 300 case Concert => 450
  {
    BookingSucceedsIff(data, eventType, weekend, txnId);
  }

  /** The singleton BookingManager: an initialised flag and the in-memory bookings list. */
  class BookingManager {
    var bookings: seq<BookingEntry>
    var initialized: bool

    /** __new__ on the first call: an instance whose _initialized is still the class default. */
    constructor()
      ensures bookings == [] && !initialized
    {
      bookings := [];
      initialized := false;
    }

    /** __init__: set up the bookings list only the first time. */
    method Init()
      modifies this
      ensures initialized
      ensures bookings == if old(initialized) then old(bookings) else []
    {
      if !initialized {
        bookings := [];
        initialized := true;
      }
    }

    /**
     * process_booking: append the booking on success; report the caught error
     * otherwise. As written (asWritten) the factory is handed the whole
     * booking_data; otherwise the movie is built from the event fields.
     */
    method ProcessBooking(data: map<string, Value>, eventType: EventType, weekend: bool, txnId: string, asWritten: bool)
        returns (success: bool, message: string)
      modifies this
      ensures initialized == old(initialized)
      ensures var r := if asWritten then BookingOutcomeAsWritten(data, eventType, weekend, txnId)
                       else BookingOutcome(data, eventType, weekend, txnId);
        if r.Ok? then success && message == txnId && bookings == old(bookings) + [r.value]
        else !success && message == FailureMessage(r.error) && bookings == old(bookings)
    {
      var r := if asWritten then BookingOutcomeAsWritten(data, eventType, weekend, txnId)
               else BookingOutcome(data, eventType, weekend, txnId);
      match r
      case Ok(booking) =>
        bookings := bookings + [booking];
        return true, booking.transactionId;
      case Err(f) =>
        return false, FailureMessage(f);
    }
  }

  /** The class attribute _instance of BookingManager. */
  class BookingManagerClass {
    var instance: BookingManager?

    constructor()
      ensures instance == null
    {
      instance := null;
    }

    predicate Valid()
      reads this, instance
    {
      instance != null ==> instance.initialized
    }

    /** BookingManager(): __new__ returns the one instance, then __init__ runs on it. */
    method Get() returns (m: BookingManager)
      requires Valid()
      modifies this, instance
      ensures Valid() && instance == m
      ensures old(instance) != null ==> m == old(instance) && m.bookings == old(instance.bookings)
      ensures old(instance) == null ==> fresh(m) && m.bookings == []
    {
      if instance == null {
        instance := new BookingManager();
      }
      m := instance;
      m.Init();
    }
  }
}
