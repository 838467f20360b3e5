/**
 * Show times. Two mechanisms appear across the versions:
 *  - get_movie_show_times: a fixed table from movie id to show times, with a
 *    three-show default; one table has three shows per movie, a later one
 *    adds a fourth show for ids 11-40;
 *  - calculate_show_times (advanced versions): a category base list picked by
 *    id range, each time shifted by ((id - 1) mod 4) * 15 minutes and
 *    re-formatted, wrapping around midnight.
 */
module ShowTimes {
  import opened Wrappers
  import opened Text
  import opened Arith

  // ---------------------------------------------------------------- clock values

  datatype Period = AM | PM

  /** A 12-hour clock reading "H:MM AM|PM". */
  datatype Clock = Clock(hour: int, minute: int, period: Period)

  predicate WellFormed(c: Clock) {
    1 <= c.hour <= 12 && 0 <= c.minute < 60
  }

  function PeriodText(p: Period): string {
    match p
    case AM => "AM"
    case PM => "PM"
  }

  /** f"{display_hour}:{new_minute:02d} {period}". */
  function Format(c: Clock): string
    requires WellFormed(c)
  {
    NatToString(c.hour) + ":" + Pad2(c.minute) + " " + PeriodText(c.period)
  }

  /** Minutes after midnight of a well-formed reading (12 AM is midnight, 12 PM is noon). */
  function ToMinutes(c: Clock): (t: int)
    requires WellFormed(c)
    ensures 0 <= t < 1440
    ensures (t < 720) <==> c.period == AM
  {
    (c.hour % 12) * 60 + c.minute + (if c.period == PM then 720 else 0)
  }

  /** The display conversion of calculate_show_times: hour (t // 60) % 24 and minute t % 60 on a 12-hour dial. */
  function FromMinutes(t: int): (c: Clock)
    ensures WellFormed(c)
  {
    var newHour := (t / 60) % 24;
    var newMinute := t % 60;
    if newHour == 0 then Clock(12, newMinute, AM)
    else if newHour < 12 then Clock(newHour, newMinute, AM)
    else if newHour == 12 then Clock(12, newMinute, PM)
    else Clock(newHour - 12, newMinute, PM)
  }

  lemma {:induction false} DayDecomposition(t: int)
    ensures ((t / 60) % 24) * 60 + t % 60 == t % 1440
  {
    var q, r := t / 1440, t % 1440;
    DivModUnique(t, 60, 24 * q + r / 60, r % 60);
    DivModUnique(t / 60, 24, q, r / 60);
  }

  /** The reading shown for t is t wrapped into one day. */
  lemma {:induction false} FromMinutesWraps(t: int)
    ensures ToMinutes(FromMinutes(t)) == t % 1440
  {
    DayDecomposition(t);
  }

  /** Converting a reading to minutes and back gives the same reading. */
  lemma {:induction false} ClockRoundTrip(c: Clock)
    requires WellFormed(c)
    ensures FromMinutes(ToMinutes(c)) == c
  {
    var t := ToMinutes(c);
    DivModUnique(t, 60, t / 60, c.minute);
    DivModUnique(t / 60, 24, 0, t / 60);
  }

  // ---------------------------------------------------------------- text

  /**
   * The parse of calculate_show_times: `hour, minute_period = s.split(':')`,
   * `minute, period = minute_period.split(' ')`, then int() of hour and
   * minute; None where Python raises ValueError.
   */
  function ParseTime(s: string): Option<(int, int, string)> {
    var parts := SplitOn(s, ":");
    if |parts| != 2 then None
    else
      var minutePeriod := SplitOn(parts[1], " ");
      if |minutePeriod| != 2 then None
      else match (ParseInt(parts[0]), ParseInt(minutePeriod[0]))
        case (Some(h), Some(m)) => Some((h, m, minutePeriod[1]))
        case _ => None
  }

  lemma NoCharIn(s: string, c: char)
    requires AllDigits(s) && !IsDigit(c)
    ensures c !in s
  {
  }

  /** Formatting then parsing gives back the hour, the minute and the period text. */
  lemma {:induction false} ParseFormat(c: Clock)
    requires WellFormed(c)
    ensures ParseTime(Format(c)) == Some((c.hour, c.minute, PeriodText(c.period)))
  {
    var h, m, p := NatToString(c.hour), Pad2(c.minute), PeriodText(c.period);
    NoCharIn(h, ':');
    NoCharIn(m, ':');
    NoCharIn(m, ' ');
    var rest := m + " " + p;
    assert Join([m, p], " ") == rest;
    SplitJoin([m, p], " ");
    assert ':' !in rest by {
      assert forall i :: 0 <= i < |rest| ==> rest[i] == ' ' || IsDigit(rest[i]) || IsUpper(rest[i]);
    }
    assert Format(c) == Join([h, rest], ":");
    SplitJoin([h, rest], ":");
    ParseIntOfNat(c.hour);
    assert ParseInt(m) == Some(c.minute);
  }

  /**
   * One step of the loop of calculate_show_times on a time string: minutes
   * from the parsed reading plus the offset (12 PM and 12 AM corrected), then
   * re-formatted. A period text other than "AM"/"PM" is passed over
   * unchanged, as in the source.
   */
  function ShiftTimeText(timeStr: string, offset: int): Option<string> {
    match ParseTime(timeStr)
    case None => None
    case Some((hour, minute, period)) =>
      var total := hour * 60 + minute + offset +
        (if period == "PM" && hour != 12 then 12 * 60
         else if period == "AM" && hour == 12 then -(12 * 60)
         else 0);
      Some(Format(FromMinutes(total)))
  }

  /** The clock-level meaning of one step. */
  function Shift(c: Clock, offset: int): (r: Clock)
    requires WellFormed(c)
    ensures WellFormed(r)
  {
    FromMinutes(ToMinutes(c) + offset)
  }

  lemma {:induction false} ShiftTimeTextAgrees(c: Clock, offset: int)
    requires WellFormed(c)
    ensures ShiftTimeText(Format(c), offset) == Some(Format(Shift(c, offset)))
  {
    ParseFormat(c);
    var total := c.hour * 60 + c.minute + offset +
      (if PeriodText(c.period) == "PM" && c.hour != 12 then 12 * 60
       else if PeriodText(c.period) == "AM" && c.hour == 12 then -(12 * 60)
       else 0);
    assert total == ToMinutes(c) + offset;
  }

  // ---------------------------------------------------------------- calculate_show_times

  datatype Category = Romantic | Action | Comedy | Family

  function CategoryOf(movieId: int): Category {
    if 1 <= movieId <= 10 then Romantic
    else if 11 <= movieId <= 20 then Action
    else if 21 <= movieId <= 30 then Comedy
    else Family
  }

  /** base_times[category]. */
  function BaseTimes(cat: Category): seq<string> {
    match cat
    case Romantic => ["2:00 PM", "5:30 PM", "8:45 PM"]
    case Action => ["12:30 PM", "4:00 PM", "7:30 PM", "10:45 PM"]
    case Comedy => ["1:30 PM", "4:30 PM", "7:00 PM", "9:30 PM"]
    case Family => ["11:00 AM", "2:30 PM", "6:00 PM", "9:00 PM"]
  }

  /** The base times as clock readings. */
  function BaseClocks(cat: Category): (r: seq<Clock>)
    ensures forall i :: 0 <= i < |r| ==> WellFormed(r[i])
  {
    match cat
    case Romantic => [Clock(2, 0, PM), Clock(5, 30, PM), Clock(8, 45, PM)]
    case Action => [Clock(12, 30, PM), Clock(4, 0, PM), Clock(7, 30, PM), Clock(10, 45, PM)]
    case Comedy => [Clock(1, 30, PM), Clock(4, 30, PM), Clock(7, 0, PM), Clock(9, 30, PM)]
    case Family => [Clock(11, 0, AM), Clock(2, 30, PM), Clock(6, 0, PM), Clock(9, 0, PM)]
  }

  lemma FormatText(h: nat, m: nat, p: Period, hText: string, mText: string)
    requires 1 <= h <= 12 && m < 60
    requires NatToString(h) == hText && Pad2(m) == mText
    ensures Format(Clock(h, m, p)) == hText + ":" + mText + " " + PeriodText(p)
  {
  }

  lemma SmallTexts()
    ensures Pad2(0) == "00" && Pad2(30) == "30" && Pad2(45) == "45"
    ensures NatToString(1) == "1" && NatToString(2) == "2" && NatToString(4) == "4"
    ensures NatToString(5) == "5" && NatToString(6) == "6" && NatToString(7) == "7"
    ensures NatToString(8) == "8" && NatToString(9) == "9"
    ensures NatToString(10) == "10" && NatToString(11) == "11" && NatToString(12) == "12"
  {
    assert NatToString(1) == [DigitChar(1)];
    assert NatToString(10) == NatToString(1) + [DigitChar(0)];
    assert NatToString(11) == NatToString(1) + [DigitChar(1)];
    assert NatToString(12) == NatToString(1) + [DigitChar(2)];
  }

  lemma RomanticTimesAreClocks()
    ensures BaseTimes(Romantic) == [Format(Clock(2, 0, PM)), Format(Clock(5, 30, PM)), Format(Clock(8, 45, PM))]
  {
    SmallTexts();
    FormatText(2, 0, PM, "2", "00");
    assert Format(Clock(2, 0, PM)) == "2:00 PM";
    FormatText(5, 30, PM, "5", "30");
    assert Format(Clock(5, 30, PM)) == "5:30 PM";
    FormatText(8, 45, PM, "8", "45");
    assert Format(Clock(8, 45, PM)) == "8:45 PM";
  }

  lemma ActionTimesAreClocks()
    ensures BaseTimes(Action) == [Format(Clock(12, 30, PM)), Format(Clock(4, 0, PM)), Format(Clock(7, 30, PM)), Format(Clock(10, 45, PM))]
  {
    SmallTexts();
    FormatText(12, 30, PM, "12", "30");
    assert Format(Clock(12, 30, PM)) == "12:30 PM";
    FormatText(4, 0, PM, "4", "00");
    assert Format(Clock(4, 0, PM)) == "4:00 PM";
    FormatText(7, 30, PM, "7", "30");
    assert Format(Clock(7, 30, PM)) == "7:30 PM";
    FormatText(10, 45, PM, "10", "45");
    assert Format(Clock(10, 45, PM)) == "10:45 PM";
  }

  lemma ComedyTimesAreClocks()
    ensures BaseTimes(Comedy) == [Format(Clock(1, 30, PM)), Format(Clock(4, 30, PM)), Format(Clock(7, 0, PM)), Format(Clock(9, 30, PM))]
  {
    SmallTexts();
    FormatText(1, 30, PM, "1", "30");
    assert Format(Clock(1, 30, PM)) == "1:30 PM";
    FormatText(4, 30, PM, "4", "30");
    assert Format(Clock(4, 30, PM)) == "4:30 PM";
    FormatText(7, 0, PM, "7", "00");
    assert Format(Clock(7, 0, PM)) == "7:00 PM";
    FormatText(9, 30, PM, "9", "30");
    assert Format(Clock(9, 30, PM)) == "9:30 PM";
  }

  lemma FamilyTimesAreClocks()
    ensures BaseTimes(Family) == [Format(Clock(11, 0, AM)), Format(Clock(2, 30, PM)), Format(Clock(6, 0, PM)), Format(Clock(9, 0, PM))]
  {
    SmallTexts();
    FormatText(11, 0, AM, "11", "00");
    assert Format(Clock(11, 0, AM)) == "11:00 AM";
    FormatText(2, 30, PM, "2", "30");
    assert Format(Clock(2, 30, PM)) == "2:30 PM";
    FormatText(6, 0, PM, "6", "00");
    assert Format(Clock(6, 0, PM)) == "6:00 PM";
    FormatText(9, 0, PM, "9", "00");
    assert Format(Clock(9, 0, PM)) == "9:00 PM";
  }

  lemma BaseTimesAreClocks(cat: Category)
    ensures |BaseTimes(cat)| == |BaseClocks(cat)|
    ensures forall i :: 0 <= i < |BaseClocks(cat)| ==> BaseTimes(cat)[i] == Format(BaseClocks(cat)[i])
  {
    match cat
    case Romantic => RomanticTimesAreClocks();
    case Action => ActionTimesAreClocks();
    case Comedy => ComedyTimesAreClocks();
    case Family => FamilyTimesAreClocks();
  }

  /** (movie_id - 1) % 4 * 15, with Python's non-negative remainder. */
  function Offset(movieId: int): (m: int)
    ensures m in {0, 15, 30, 45}
  {
    (movieId - 1) % 4 * 15
  }

  /** What calculate_show_times(movie_id) returns: each base time of the category shifted by the offset. */
  function ShowTimesOf(movieId: int): (r: seq<string>)
  {
    var base := BaseClocks(CategoryOf(movieId));
    seq(|base|, i requires 0 <= i < |base| => Format(Shift(base[i], Offset(movieId))))
  }

  /** calculate_show_times: the category's base times, each shifted by the movie's offset. */
  method CalculateShowTimes(movieId: int) returns (adjustedTimes: seq<string>)
    ensures adjustedTimes == ShowTimesOf(movieId)
  {
    var cat := CategoryOf(movieId);
    var times := BaseTimes(cat);
    var offset := Offset(movieId);
    ghost var shown := seq(|times|, j requires 0 <= j < |times| => Format(Shift(BaseClocks(cat)[j], offset)));
    forall j | 0 <= j < |times|
      ensures ShiftTimeText(times[j], offset) == Some(shown[j])
    {
      BaseTimesAreClocks(cat);
      ShiftTimeTextAgrees(BaseClocks(cat)[j], offset);
    }
    adjustedTimes := ShiftTimes(times, offset, shown);
    ShowTimesOfIs(movieId, adjustedTimes);
  }

  /** The loop of calculate_show_times, over time strings whose shifted forms are shown. */
  method ShiftTimes(times: seq<string>, offset: int, ghost shown: seq<string>) returns (adjustedTimes: seq<string>)
    requires |times| == |shown|
    requires forall j :: 0 <= j < |times| ==> ShiftTimeText(times[j], offset) == Some(shown[j])
    ensures adjustedTimes == shown
  {
    adjustedTimes := [];
    var i := 0;
    while i < |times|
      invariant 0 <= i <= |times|
      invariant adjustedTimes == shown[..i]
    {
      var shifted := ShiftTimeText(times[i], offset);
      adjustedTimes := adjustedTimes + [shifted.value];
      i := i + 1;
    }
  }

  lemma ShowTimesOfIs(movieId: int, r: seq<string>)
    requires |r| == |BaseClocks(CategoryOf(movieId))|
    requires forall j :: 0 <= j < |r| ==>
      r[j] == Format(Shift(BaseClocks(CategoryOf(movieId))[j], Offset(movieId)))
    ensures r == ShowTimesOf(movieId)
  {
  }

  /** Romantic movies get three shows, every other category four. */
  lemma ShowTimesCount(movieId: int)
    ensures |ShowTimesOf(movieId)| == if 1 <= movieId <= 10 then 3 else 4
  {
  }

  /** Each show is its base time moved forward by the offset, wrapped into one day, and reads back as a well-formed clock. */
  lemma {:induction false} ShowTimesShifted(movieId: int, i: int)
    requires 0 <= i < |ShowTimesOf(movieId)|
    ensures var base := BaseClocks(CategoryOf(movieId))[i];
      var shown := Shift(base, Offset(movieId));
      && ShowTimesOf(movieId)[i] == Format(shown)
      && WellFormed(shown)
      && ToMinutes(shown) == (ToMinutes(base) + Offset(movieId)) % 1440
      && ParseTime(ShowTimesOf(movieId)[i]) == Some((shown.hour, shown.minute, PeriodText(shown.period)))
  {
    var base := BaseClocks(CategoryOf(movieId))[i];
    FromMinutesWraps(ToMinutes(base) + Offset(movieId));
    ParseFormat(Shift(base, Offset(movieId)));
  }

  /** Movies 1, 5, 9, ... get their category's base times unchanged. */
  lemma {:induction false} ShowTimesUnshifted(movieId: int)
    requires (movieId - 1) % 4 == 0
    ensures ShowTimesOf(movieId) == BaseTimes(CategoryOf(movieId))
  {
    var cat := CategoryOf(movieId);
    BaseTimesAreClocks(cat);
    forall i | 0 <= i < |BaseClocks(cat)|
      ensures ShowTimesOf(movieId)[i] == BaseTimes(cat)[i]
    {
      ClockRoundTrip(BaseClocks(cat)[i]);
    }
  }

  // ---------------------------------------------------------------- get_movie_show_times

  const DefaultShowTimes := ["2:00 PM", "6:00 PM", "9:00 PM"]

  /** The three-show table (cinebook3, smartshow ENHANCED_15_SHOWS and ENHANCED_FINAL). */
  function ThreeShowTimes(movieId: int): seq<string> {
    match movieId
    case 1 => ["2:00 PM", "5:30 PM", "8:45 PM"]
    case 2 => ["1:45 PM", "5:15 PM", "8:30 PM"]
    case 3 => ["2:15 PM", "5:45 PM", "9:00 PM"]
    case 4 => ["1:30 PM", "5:00 PM", "8:15 PM"]
    case 5 => ["2:30 PM", "6:00 PM", "9:15 PM"]
    case 6 => ["2:45 PM", "6:15 PM", "9:30 PM"]
    case 7 => ["1:15 PM", "4:45 PM", "8:00 PM"]
    case 8 => ["3:00 PM", "6:30 PM", "9:45 PM"]
    case 9 => ["1:00 PM", "4:30 PM", "7:45 PM"]
    case 10 => ["2:20 PM", "5:50 PM", "9:20 PM"]
    case 11 => ["12:30 PM", "4:00 PM", "7:30 PM"]
    case 12 => ["12:15 PM", "3:45 PM", "7:15 PM"]
    case 13 => ["12:45 PM", "4:15 PM", "7:45 PM"]
    case 14 => ["1:00 PM", "4:30 PM", "8:00 PM"]
    case 15 => ["12:00 PM", "3:30 PM", "7:00 PM"]
    case 16 => ["11:45 AM", "3:15 PM", "6:45 PM"]
    case 17 => ["1:15 PM", "4:45 PM", "8:15 PM"]
    case 18 => ["11:30 AM", "3:00 PM", "6:30 PM"]
    case 19 => ["12:20 PM", "3:50 PM", "7:20 PM"]
    case 20 => ["11:15 AM", "2:45 PM", "6:15 PM"]
    case 21 => ["1:30 PM", "4:30 PM", "7:00 PM"]
    case 22 => ["1:15 PM", "4:15 PM", "6:45 PM"]
    case 23 => ["1:45 PM", "4:45 PM", "7:15 PM"]
    case 24 => ["2:00 PM", "5:00 PM", "7:30 PM"]
    case 25 => ["1:00 PM", "4:00 PM", "6:30 PM"]
    case 26 => ["1:20 PM", "4:20 PM", "6:50 PM"]
    case 27 => ["1:35 PM", "4:35 PM", "7:05 PM"]
    case 28 => ["1:50 PM", "4:50 PM", "7:20 PM"]
    case 29 => ["1:10 PM", "4:10 PM", "6:40 PM"]
    case 30 => ["1:25 PM", "4:25 PM", "6:55 PM"]
    case 31 => ["11:00 AM", "2:30 PM", "6:00 PM"]
    case 32 => ["10:45 AM", "2:15 PM", "5:45 PM"]
    case 33 => ["11:15 AM", "2:45 PM", "6:15 PM"]
    case 34 => ["10:30 AM", "2:00 PM", "5:30 PM"]
    case 35 => ["11:30 AM", "3:00 PM", "6:30 PM"]
    case 36 => ["10:15 AM", "1:45 PM", "5:15 PM"]
    case 37 => ["11:45 AM", "3:15 PM", "6:45 PM"]
    case 38 => ["10:00 AM", "1:30 PM", "5:00 PM"]
    case 39 => ["12:00 PM", "3:30 PM", "7:00 PM"]
    case 40 => ["10:20 AM", "1:50 PM", "5:20 PM"]
    case _ => DefaultShowTimes
  }

  /** The four-show table (cinebook1, smartshow FIXED and ERROR_FREE). */
  function FourShowTimes(movieId: int): seq<string> {
    match movieId
    case 1 => ["2:00 PM", "5:30 PM", "8:45 PM"]
    case 2 => ["1:45 PM", "5:15 PM", "8:30 PM"]
    case 3 => ["2:15 PM", "5:45 PM", "9:00 PM"]
    case 4 => ["1:30 PM", "5:00 PM", "8:15 PM"]
    case 5 => ["2:30 PM", "6:00 PM", "9:15 PM"]
    case 6 => ["2:45 PM", "6:15 PM", "9:30 PM"]
    case 7 => ["1:15 PM", "4:45 PM", "8:00 PM"]
    case 8 => ["3:00 PM", "6:30 PM", "9:45 PM"]
    case 9 => ["1:00 PM", "4:30 PM", "7:45 PM"]
    case 10 => ["2:20 PM", "5:50 PM", "9:20 PM"]
    case 11 => ["12:30 PM", "4:00 PM", "7:30 PM", "10:45 PM"]
    case 12 => ["12:15 PM", "3:45 PM", "7:15 PM", "10:30 PM"]
    case 13 => ["12:45 PM", "4:15 PM", "7:45 PM", "11:00 PM"]
    case 14 => ["1:00 PM", "4:30 PM", "8:00 PM", "11:15 PM"]
    case 15 => ["12:00 PM", "3:30 PM", "7:00 PM", "10:15 PM"]
    case 16 => ["11:45 AM", "3:15 PM", "6:45 PM", "10:00 PM"]
    case 17 => ["1:15 PM", "4:45 PM", "8:15 PM", "11:30 PM"]
    case 18 => ["11:30 AM", "3:00 PM", "6:30 PM", "9:45 PM"]
    case 19 => ["12:20 PM", "3:50 PM", "7:20 PM", "10:50 PM"]
    case 20 => ["11:15 AM", "2:45 PM", "6:15 PM", "9:30 PM"]
    case 21 => ["1:30 PM", "4:30 PM", "7:00 PM", "9:30 PM"]
    case 22 => ["1:15 PM", "4:15 PM", "6:45 PM", "9:15 PM"]
    case 23 => ["1:45 PM", "4:45 PM", "7:15 PM", "9:45 PM"]
    case 24 => ["2:00 PM", "5:00 PM", "7:30 PM", "10:00 PM"]
    case 25 => ["1:00 PM", "4:00 PM", "6:30 PM", "9:00 PM"]
    case 26 => ["1:20 PM", "4:20 PM", "6:50 PM", "9:20 PM"]
    case 27 => ["1:35 PM", "4:35 PM", "7:05 PM", "9:35 PM"]
    case 28 => ["1:50 PM", "4:50 PM", "7:20 PM", "9:50 PM"]
    case 29 => ["1:10 PM", "4:10 PM", "6:40 PM", "9:10 PM"]
    case 30 => ["1:25 PM", "4:25 PM", "6:55 PM", "9:25 PM"]
    case 31 => ["11:00 AM", "2:30 PM", "6:00 PM", "9:00 PM"]
    case 32 => ["10:45 AM", "2:15 PM", "5:45 PM", "8:45 PM"]
    case 33 => ["11:15 AM", "2:45 PM", "6:15 PM", "9:15 PM"]
    case 34 => ["10:30 AM", "2:00 PM", "5:30 PM", "8:30 PM"]
    case 35 => ["11:30 AM", "3:00 PM", "6:30 PM", "9:30 PM"]
    case 36 => ["10:15 AM", "1:45 PM", "5:15 PM", "8:15 PM"]
    case 37 => ["11:45 AM", "3:15 PM", "6:45 PM", "9:45 PM"]
    case 38 => ["10:00 AM", "1:30 PM", "5:00 PM", "8:00 PM"]
    case 39 => ["12:00 PM", "3:30 PM", "7:00 PM", "10:00 PM"]
    case 40 => ["10:20 AM", "1:50 PM", "5:20 PM", "8:20 PM"]
    case _ => DefaultShowTimes
  }

  /** Every listed movie has three shows; any other id gets the default three. */
  lemma ThreeShowTimesCount(movieId: int)
    ensures |ThreeShowTimes(movieId)| == 3
    ensures !(1 <= movieId <= 40) ==> ThreeShowTimes(movieId) == DefaultShowTimes
  {
  }

  /** The later table keeps the three shows of the earlier one and adds a late show for ids 11-40 only. */
  lemma FourShowTimesExtends(movieId: int)
    ensures |FourShowTimes(movieId)| == if 11 <= movieId <= 40 then 4 else 3
    ensures FourShowTimes(movieId)[..3] == ThreeShowTimes(movieId)
  {
    if 1 <= movieId <= 40 {
      ExtendsInBlock(movieId, (movieId - 1) / 5 * 5 + 1);
    }
  }

  /** The two tables compared on five consecutive movies at a time. */
  lemma ExtendsInBlock(movieId: int, lo: int)
    requires lo == 1 || lo == 6 || lo == 11 || lo == 16 || lo == 21 || lo == 26 || lo == 31 || lo == 36
    requires lo <= movieId < lo + 5
    ensures |FourShowTimes(movieId)| == if lo <= 6 then 3 else 4
    ensures FourShowTimes(movieId)[..3] == ThreeShowTimes(movieId)
  {
  }
}
