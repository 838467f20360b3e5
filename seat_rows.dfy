/**
 * Seat-row templates of the movie theatres and the theatre_rows records made
 * from them. cinebook1 picks a template by theatre-id tier (eight tiers of
 * seven theatres); smartshow enhanced has five theatres with one template each.
 * Price multipliers (1.5, 1.2, 1.0, 0.8, 0.7) are held in tenths.
 */
module SeatRows {

  /** One row of a template: its label, its number of seats and its price multiplier in tenths. */
  datatype RowSpec = RowSpec(name: string, seats: nat, multTenths: nat)

  /** A record of the theatre_rows table. */
  datatype TheatreRow = TheatreRow(theatreId: int, rowName: string, showDate: string, showTime: string,
                                   totalSeats: int, availableSeats: int, multTenths: nat)

  /** Seats of a template, summed. */
  function Seats(template: seq<RowSpec>): nat
  {
    if template == [] then 0 else Seats(template[..|template| - 1]) + template[|template| - 1].seats
  }

  const Rows120 := [RowSpec("A", 30, 15), RowSpec("B", 35, 12), RowSpec("C", 30, 10), RowSpec("D", 15, 8), RowSpec("E", 10, 7)]
  const Rows90 := [RowSpec("A", 25, 15), RowSpec("B", 30, 12), RowSpec("C", 20, 10), RowSpec("D", 15, 8)]
  const Rows105 := [RowSpec("A", 30, 15), RowSpec("B", 35, 12), RowSpec("C", 25, 10), RowSpec("D", 15, 8)]
  const Rows75 := [RowSpec("A", 20, 15), RowSpec("B", 25, 12), RowSpec("C", 20, 10), RowSpec("D", 10, 8)]
  const Rows60 := [RowSpec("A", 20, 15), RowSpec("B", 25, 12), RowSpec("C", 15, 10)]
  const Rows85 := [RowSpec("A", 25, 15), RowSpec("B", 30, 12), RowSpec("C", 20, 10), RowSpec("D", 10, 8)]
  const Rows70 := [RowSpec("A", 20, 15), RowSpec("B", 25, 12), RowSpec("C", 15, 10), RowSpec("D", 10, 8)]

  /** The template ensure_seat_data_exists inserts for a theatre of cinebook1. */
  function TieredTemplate(theatreId: int): seq<RowSpec>
  {
    if theatreId <= 7 then Rows120
    else if theatreId <= 14 then Rows90
    else if theatreId <= 21 then Rows105
    else if theatreId <= 28 then Rows75
    else if theatreId <= 35 then Rows60
    else if theatreId <= 42 then Rows85
    else Rows70
  }

  /** The template recreate_theatre_rows_data of smartshow enhanced uses for theatres 1..5. */
  function FiveTheatreTemplate(theatreId: int): seq<RowSpec>
  {
    if theatreId == 1 then Rows120
    else if theatreId == 2 then Rows90
    else if theatreId == 3 then Rows105
    else if theatreId == 4 then Rows75
    else Rows60
  }

  /**
   * A template lists rows "A", "B", ... in order, each with seats, priced from
   * 1.5 times the base down to at most 1.0 times it.
   */
  predicate WellFormedTemplate(template: seq<RowSpec>)
  {
    && 3 <= |template| <= 5
    && (forall k :: 0 <= k < |template| ==> template[k].name == ["ABCDE"[k]] && template[k].seats > 0)
    && template[0].multTenths == 15
    && (forall k :: 0 < k < |template| ==> template[k].multTenths < template[k - 1].multTenths)
    && template[|template| - 1].multTenths <= 10
  }

  /** The seats of each tier add up to the capacity its comment announces; every tier is well formed. */
  lemma TieredTemplateCapacity(theatreId: int)
    ensures Seats(TieredTemplate(theatreId)) ==
      if theatreId <= 7 then 120
      else if theatreId <= 14 then 90
      else if theatreId <= 21 then 105
      else if theatreId <= 28 then 75
      else if theatreId <= 35 then 60
      else if theatreId <= 42 then 85
      else 70
    ensures WellFormedTemplate(TieredTemplate(theatreId))
  {
    var t := TieredTemplate(theatreId);
    if |t| == 5 {
      SeatsOfFive(t[0], t[1], t[2], t[3], t[4]);
      assert t == [t[0], t[1], t[2], t[3], t[4]];
    } else if |t| == 4 {
      SeatsOfFour(t[0], t[1], t[2], t[3]);
      assert t == [t[0], t[1], t[2], t[3]];
    } else {
      SeatsOfThree(t[0], t[1], t[2]);
      assert t == [t[0], t[1], t[2]];
    }
  }

  lemma SeatsOfThree(a: RowSpec, b: RowSpec, c: RowSpec)
    ensures Seats([a, b, c]) == a.seats + b.seats + c.seats
  {
    assert [a][..0] == [];
    assert Seats([a]) == a.seats;
    assert [a, b][..1] == [a];
    assert Seats([a, b]) == a.seats + b.seats;
    assert [a, b, c][..2] == [a, b];
  }

  lemma SeatsOfFour(a: RowSpec, b: RowSpec, c: RowSpec, d: RowSpec)
    ensures Seats([a, b, c, d]) == a.seats + b.seats + c.seats + d.seats
  {
    assert [a, b, c, d][..3] == [a, b, c];
    SeatsOfThree(a, b, c);
  }

  lemma SeatsOfFive(a: RowSpec, b: RowSpec, c: RowSpec, d: RowSpec, e: RowSpec)
    ensures Seats([a, b, c, d, e]) == a.seats + b.seats + c.seats + d.seats + e.seats
  {
    assert [a, b, c, d, e][..4] == [a, b, c, d];
    SeatsOfFour(a, b, c, d);
  }

  /** The five theatres of smartshow enhanced use the templates of the first five cinebook1 tiers. */
  lemma FiveTheatreMatchesTiers(theatreId: int)
    ensures 1 <= theatreId <= 5 ==> FiveTheatreTemplate(theatreId) == TieredTemplate(7 * theatreId)
    ensures !(1 <= theatreId <= 4) ==> FiveTheatreTemplate(theatreId) == Rows60
    ensures Seats(FiveTheatreTemplate(theatreId)) in {120, 90, 105, 75, 60}
  {
    TieredTemplateCapacity(7 * theatreId);
    TieredTemplateCapacity(35);
  }

  /** The theatre_rows records inserted for one show: one per template row, all seats available. */
  function ShowRows(theatreId: int, showDate: string, showTime: string, template: seq<RowSpec>): (rows: seq<TheatreRow>)
    ensures |rows| == |template|
    ensures forall k :: 0 <= k < |rows| ==>
      rows[k].theatreId == theatreId && rows[k].showDate == showDate && rows[k].showTime == showTime &&
      rows[k].rowName == template[k].name && rows[k].totalSeats == rows[k].availableSeats == template[k].seats
  {
    seq(|template|, k requires 0 <= k < |template| =>
      TheatreRow(theatreId, template[k].name, showDate, showTime, template[k].seats, template[k].seats, template[k].multTenths))
  }

  /** A row belongs to the show (theatre, date, time). */
  predicate OfShow(r: TheatreRow, theatreId: int, showDate: string, showTime: string)
  {
    r.theatreId == theatreId && r.showDate == showDate && r.showTime == showTime
  }

  /** SELECT COUNT(*) FROM theatre_rows WHERE theatre_id, show_date, show_time match. */
  function CountShowRows(rows: seq<TheatreRow>, theatreId: int, showDate: string, showTime: string): (c: nat)
    ensures c == 0 <==> forall k :: 0 <= k < |rows| ==> !OfShow(rows[k], theatreId, showDate, showTime)
    ensures c <= |rows|
  {
    if rows == [] then 0
    else
      var before := CountShowRows(rows[..|rows| - 1], theatreId, showDate, showTime);
      if OfShow(rows[|rows| - 1], theatreId, showDate, showTime) then before + 1 else before
  }

  /**
   * ensure_seat_data_exists: when the show has no rows yet, append its
   * template's rows and answer true; otherwise change nothing and answer false.
   */
  function EnsureSeatData(rows: seq<TheatreRow>, theatreId: int, showDate: string, showTime: string)
    : (r: (seq<TheatreRow>, bool))
  {
    if CountShowRows(rows, theatreId, showDate, showTime) == 0 then
      (rows + ShowRows(theatreId, showDate, showTime, TieredTemplate(theatreId)), true)
    else (rows, false)
  }

  /**
   * Insert-if-absent: rows are created only for a show without any, the
   * existing rows stay as they are, and a second call right after the first
   * answers false and changes nothing.
   */
  lemma EnsureSeatDataIdempotent(rows: seq<TheatreRow>, theatreId: int, showDate: string, showTime: string)
    ensures var (first, created) := EnsureSeatData(rows, theatreId, showDate, showTime);
      && (created <==> forall k :: 0 <= k < |rows| ==> !OfShow(rows[k], theatreId, showDate, showTime))
      && first[..|rows|] == rows
      && CountShowRows(first, theatreId, showDate, showTime) > 0
      && EnsureSeatData(first, theatreId, showDate, showTime) == (first, false)
  {
    var (first, created) := EnsureSeatData(rows, theatreId, showDate, showTime);
    if created {
      TieredTemplateCapacity(theatreId);
      assert OfShow(first[|rows|], theatreId, showDate, showTime);
    }
  }

  /** The rows one theatre gets for one date: its template for every show time, in order. */
  function TimesRows(theatreId: int, showDate: string, showTimes: seq<string>): seq<TheatreRow>
  {
    if showTimes == [] then []
    else
      var n := |showTimes| - 1;
      TimesRows(theatreId, showDate, showTimes[..n]) +
        ShowRows(theatreId, showDate, showTimes[n], FiveTheatreTemplate(theatreId))
  }

  /** The rows one theatre gets over all dates. */
  function DatesRows(theatreId: int, showDates: seq<string>, showTimes: seq<string>): seq<TheatreRow>
  {
    if showDates == [] then []
    else
      var n := |showDates| - 1;
      DatesRows(theatreId, showDates[..n], showTimes) + TimesRows(theatreId, showDates[n], showTimes)
  }

  /** The rows recreate_theatre_rows_data inserts for the listed theatres. */
  function TheatresRows(theatreIds: seq<int>, showDates: seq<string>, showTimes: seq<string>): seq<TheatreRow>
  {
    if theatreIds == [] then []
    else
      var n := |theatreIds| - 1;
      TheatresRows(theatreIds[..n], showDates, showTimes) + DatesRows(theatreIds[n], showDates, showTimes)
  }

  /** A row as it is first inserted: for one of the listed shows, every seat available. */
  predicate FreshRowOf(r: TheatreRow, theatreIds: seq<int>, showDates: seq<string>, showTimes: seq<string>)
  {
    r.availableSeats == r.totalSeats > 0 && r.theatreId in theatreIds && r.showDate in showDates && r.showTime in showTimes
  }

  lemma Distribute(d: int, t: int, c: int, l: int)
    ensures d * (t * (c + l)) == d * (t * c) + d * (t * l)
  {
    assert t * (c + l) == t * c + t * l;
  }

  lemma MulSucc(a: int, b: int)
    ensures (a + 1) * b == a * b + b
  {
  }

  /** Every template of the five theatres is well formed. */
  lemma FiveTheatreWellFormed(theatreId: int)
    ensures WellFormedTemplate(FiveTheatreTemplate(theatreId))
  {
    FiveTheatreMatchesTiers(theatreId);
    TieredTemplateCapacity(7 * theatreId);
    TieredTemplateCapacity(35);
  }

  lemma {:induction false} TimesRowsCount(theatreId: int, showDate: string, showTimes: seq<string>)
    ensures |TimesRows(theatreId, showDate, showTimes)| == |showTimes| * |FiveTheatreTemplate(theatreId)|
  {
    if showTimes != [] {
      var n := |showTimes| - 1;
      TimesRowsCount(theatreId, showDate, showTimes[..n]);
      MulSucc(n, |FiveTheatreTemplate(theatreId)|);
    }
  }

  lemma {:induction false} TimesRowsFresh(theatreId: int, showDate: string, showTimes: seq<string>)
    ensures forall r :: r in TimesRows(theatreId, showDate, showTimes) ==> FreshRowOf(r, [theatreId], [showDate], showTimes)
  {
    if showTimes != [] {
      var n := |showTimes| - 1;
      TimesRowsFresh(theatreId, showDate, showTimes[..n]);
      var t := FiveTheatreTemplate(theatreId);
      FiveTheatreWellFormed(theatreId);
      var before := TimesRows(theatreId, showDate, showTimes[..n]);
      var added := ShowRows(theatreId, showDate, showTimes[n], t);
      forall r | r in before + added
        ensures FreshRowOf(r, [theatreId], [showDate], showTimes)
      {
        if r in before {
          assert FreshRowOf(r, [theatreId], [showDate], showTimes[..n]);
          assert r.showTime in showTimes[..n];
        } else {
          var k :| 0 <= k < |added| && r == added[k];
          assert r.totalSeats == t[k].seats > 0;
        }
      }
    }
  }

  lemma {:induction false} DatesRowsCount(theatreId: int, showDates: seq<string>, showTimes: seq<string>)
    ensures |DatesRows(theatreId, showDates, showTimes)| == |showDates| * (|showTimes| * |FiveTheatreTemplate(theatreId)|)
  {
    if showDates != [] {
      var n := |showDates| - 1;
      DatesRowsCount(theatreId, showDates[..n], showTimes);
      TimesRowsCount(theatreId, showDates[n], showTimes);
      MulSucc(n, |showTimes| * |FiveTheatreTemplate(theatreId)|);
    }
  }

  lemma {:induction false} DatesRowsFresh(theatreId: int, showDates: seq<string>, showTimes: seq<string>)
    ensures forall r :: r in DatesRows(theatreId, showDates, showTimes) ==> FreshRowOf(r, [theatreId], showDates, showTimes)
  {
    if showDates != [] {
      var n := |showDates| - 1;
      DatesRowsFresh(theatreId, showDates[..n], showTimes);
      TimesRowsFresh(theatreId, showDates[n], showTimes);
      forall r | r in DatesRows(theatreId, showDates, showTimes)
        ensures FreshRowOf(r, [theatreId], showDates, showTimes)
      {
        if r in DatesRows(theatreId, showDates[..n], showTimes) {
          assert FreshRowOf(r, [theatreId], showDates[..n], showTimes);
          assert r.showDate in showDates[..n];
        } else {
          assert FreshRowOf(r, [theatreId], [showDates[n]], showTimes);
        }
      }
    }
  }

  /** Template sizes of the listed theatres, summed. */
  function TemplateRowCount(theatreIds: seq<int>): nat
  {
    if theatreIds == [] then 0
    else TemplateRowCount(theatreIds[..|theatreIds| - 1]) + |FiveTheatreTemplate(theatreIds[|theatreIds| - 1])|
  }

  lemma {:induction false} TheatresRowsCount(theatreIds: seq<int>, showDates: seq<string>, showTimes: seq<string>)
    ensures |TheatresRows(theatreIds, showDates, showTimes)| == |showDates| * (|showTimes| * TemplateRowCount(theatreIds))
  {
    if theatreIds != [] {
      var n := |theatreIds| - 1;
      TheatresRowsCount(theatreIds[..n], showDates, showTimes);
      DatesRowsCount(theatreIds[n], showDates, showTimes);
      var d, t, l := |showDates|, |showTimes|, |FiveTheatreTemplate(theatreIds[n])|;
      var c := TemplateRowCount(theatreIds[..n]);
      assert TemplateRowCount(theatreIds) == c + l;
      var before := TheatresRows(theatreIds[..n], showDates, showTimes);
      var added := DatesRows(theatreIds[n], showDates, showTimes);
      assert |TheatresRows(theatreIds, showDates, showTimes)| == |before| + |added|;
      Distribute(d, t, c, l);
    }
  }

  lemma {:induction false} TheatresRowsFresh(theatreIds: seq<int>, showDates: seq<string>, showTimes: seq<string>)
    ensures forall r :: r in TheatresRows(theatreIds, showDates, showTimes) ==> FreshRowOf(r, theatreIds, showDates, showTimes)
  {
    if theatreIds != [] {
      var n := |theatreIds| - 1;
      TheatresRowsFresh(theatreIds[..n], showDates, showTimes);
      DatesRowsFresh(theatreIds[n], showDates, showTimes);
      forall r | r in TheatresRows(theatreIds, showDates, showTimes)
        ensures FreshRowOf(r, theatreIds, showDates, showTimes)
      {
        if r in TheatresRows(theatreIds[..n], showDates, showTimes) {
          assert FreshRowOf(r, theatreIds[..n], showDates, showTimes);
          assert r.theatreId in theatreIds[..n];
        } else {
          assert FreshRowOf(r, [theatreIds[n]], showDates, showTimes);
        }
      }
    }
  }

  /**
   * recreate_theatre_rows_data fills theatre_rows with 20 rows (5 + 4 + 4 + 4
   * + 3) per date and show time, every one for a theatre 1..5, a listed date
   * and show time, with all its seats available.
   */
  lemma RecreatedRowsShape(showDates: seq<string>, showTimes: seq<string>)
    ensures |TheatresRows([1, 2, 3, 4, 5], showDates, showTimes)| == 20 * |showDates| * |showTimes|
    ensures forall r :: r in TheatresRows([1, 2, 3, 4, 5], showDates, showTimes) ==>
      FreshRowOf(r, [1, 2, 3, 4, 5], showDates, showTimes)
  {
    var ids := [1, 2, 3, 4, 5];
    TheatresRowsCount(ids, showDates, showTimes);
    TheatresRowsFresh(ids, showDates, showTimes);
    FiveTheatresRowCount();
    Reassociate(|showDates|, |showTimes|, 20);
  }

  lemma Reassociate(d: int, t: int, c: int)
    ensures d * (t * c) == c * d * t
  {
  }

  /** Theatres 1-5 have 5, 4, 4, 4 and 3 template rows. */
  lemma FiveTheatresRowCount()
    ensures TemplateRowCount([1, 2, 3, 4, 5]) == 20
  {
    assert [1][..0] == [];
    assert TemplateRowCount([1]) == 5;
    assert [1, 2][..1] == [1];
    assert TemplateRowCount([1, 2]) == 9;
    assert [1, 2, 3][..2] == [1, 2];
    assert TemplateRowCount([1, 2, 3]) == 13;
    assert [1, 2, 3, 4, 5][..4] == [1, 2, 3, 4] && [1, 2, 3, 4][..3] == [1, 2, 3];
    assert TemplateRowCount([1, 2, 3, 4]) == 17;
  }
}
