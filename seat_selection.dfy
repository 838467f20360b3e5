/**
 * Movie seat selection of cinebook1: per-row prices and per-row caps, the
 * running totals, the seat labels numbered across rows, the row_details text
 * handed to the payment step, and how that step reads row_details back.
 */
module SeatSelection {
  import opened Wrappers
  import opened Text
  import opened Pricing
  import opened SeatRows

  /** The widget's upper bound for one row: min(available, 10), and no widget at all for a sold-out row. */
  function MaxSeats(available: int): (m: nat)
    ensures m <= 10
    ensures available > 0 ==> 1 <= m <= available
    ensures m == 0 <==> available <= 0
  {
    if available <= 0 then 0 else if available < 10 then available else 10
  }

  /** What the number inputs can hold: one value per row, within 0..MaxSeats where the row is on sale. */
  predicate WidgetValues(rows: seq<TheatreRow>, requested: seq<int>)
  {
    |requested| == |rows| &&
    forall i :: 0 <= i < |rows| ==> rows[i].availableSeats > 0 ==> 0 <= requested[i] <= MaxSeats(rows[i].availableSeats)
  }

  /** Seats of a selection, summed. */
  function SumSeats(counts: seq<nat>): nat
  {
    if counts == [] then 0 else SumSeats(counts[..|counts| - 1]) + counts[|counts| - 1]
  }

  /** Σ count × int(base_price × multiplier) over the rows. */
  function SumAmount(basePrice: int, rows: seq<TheatreRow>, counts: seq<nat>): int
    requires |counts| == |rows|
  {
    if counts == [] then 0
    else SumAmount(basePrice, rows[..|rows| - 1], counts[..|counts| - 1]) +
           counts[|counts| - 1] * RowPrice(basePrice, rows[|rows| - 1].multTenths)
  }

  /**
   * The pricing loop of movie_seat_selection: a sold-out row contributes 0
   * seats, any other row the widget's value; totals accumulate row by row.
   */
  method MovieSeatSelection(basePrice: int, rows: seq<TheatreRow>, requested: seq<int>)
      returns (counts: seq<nat>, totalAmount: int, totalSeats: nat)
    requires WidgetValues(rows, requested)
    ensures |counts| == |rows|
    ensures forall i :: 0 <= i < |rows| ==>
      counts[i] == (if rows[i].availableSeats > 0 then requested[i] else 0) &&
      counts[i] <= MaxSeats(rows[i].availableSeats)
    ensures totalSeats == SumSeats(counts)
    ensures totalAmount == SumAmount(basePrice, rows, counts)
  {
    counts := [];
    totalAmount := 0;
    totalSeats := 0;
    for i := 0 to |rows|
      invariant |counts| == i
      invariant forall j :: 0 <= j < i ==>
        counts[j] == (if rows[j].availableSeats > 0 then requested[j] else 0) &&
        counts[j] <= MaxSeats(rows[j].availableSeats)
      invariant totalSeats == SumSeats(counts)
      invariant totalAmount == SumAmount(basePrice, rows[..i], counts)
    {
      var rowPrice := RowPrice(basePrice, rows[i].multTenths);
      var selected: nat := 0;
      if rows[i].availableSeats > 0 {
        selected := requested[i];
      }
      TotalsStep(basePrice, rows, counts, selected);
      counts := counts + [selected];
      if selected > 0 {
        var rowTotal := selected * rowPrice;
        totalAmount := totalAmount + rowTotal;
        totalSeats := totalSeats + selected;
      }
    }
    assert rows[..|rows|] == rows;
  }

  /** Appending one row's count adds that count to the seats and count × row price to the amount. */
  lemma TotalsStep(basePrice: int, rows: seq<TheatreRow>, counts: seq<nat>, selected: nat)
    requires |counts| < |rows|
    ensures SumSeats(counts + [selected]) == SumSeats(counts) + selected
    ensures SumAmount(basePrice, rows[..|counts| + 1], counts + [selected]) ==
      SumAmount(basePrice, rows[..|counts|], counts) + selected * RowPrice(basePrice, rows[|counts|].multTenths)
    ensures selected == 0 ==>
      SumAmount(basePrice, rows[..|counts| + 1], counts + [selected]) == SumAmount(basePrice, rows[..|counts|], counts)
  {
    var i := |counts|;
    assert rows[..i + 1][..i] == rows[..i];
    assert (counts + [selected])[..i] == counts;
  }

  /** A selection never takes more seats from a row than it has, nor more than ten per row. */
  lemma {:induction false} SelectionWithinAvailability(rows: seq<TheatreRow>, counts: seq<nat>)
    requires |counts| == |rows|
    requires forall i :: 0 <= i < |rows| ==> counts[i] <= MaxSeats(rows[i].availableSeats)
    ensures forall i :: 0 <= i < |rows| ==> counts[i] == 0 || counts[i] <= rows[i].availableSeats
    ensures SumSeats(counts) <= 10 * |counts|
  {
    if counts != [] {
      SelectionWithinAvailability(rows[..|rows| - 1], counts[..|counts| - 1]);
    }
  }

  /** No seat is charged more than 1.5 times the base price, so the total is at most that rate per seat. */
  lemma {:induction false} AmountAtMostPremium(basePrice: int, rows: seq<TheatreRow>, counts: seq<nat>)
    requires basePrice >= 0 && |counts| == |rows|
    requires forall i :: 0 <= i < |rows| ==> rows[i].multTenths <= 15
    ensures 0 <= SumAmount(basePrice, rows, counts) <= SumSeats(counts) * RowPrice(basePrice, 15)
  {
    if counts != [] {
      var n := |counts| - 1;
      AmountAtMostPremium(basePrice, rows[..n], counts[..n]);
      var p := RowPrice(basePrice, rows[n].multTenths);
      var top := RowPrice(basePrice, 15);
      PriceBelowPremium(basePrice, rows[n].multTenths);
      ScaleBounded(counts[n], p, top);
      SumTimes(SumSeats(counts[..n]), counts[n], top);
    }
  }

  lemma PriceBelowPremium(basePrice: int, multTenths: nat)
    requires basePrice >= 0 && multTenths <= 15
    ensures 0 <= RowPrice(basePrice, multTenths) <= RowPrice(basePrice, 15)
  {
    ScaleBounded(basePrice, multTenths, 15);
    var p, top := RowPrice(basePrice, multTenths), RowPrice(basePrice, 15);
    assert 10 * p <= basePrice * multTenths <= basePrice * 15 < 10 * top + 10;
  }

  lemma ScaleBounded(c: nat, p: int, top: int)
    requires 0 <= p <= top
    ensures 0 <= c * p <= c * top
  {
  }

  lemma SumTimes(a: int, b: int, t: int)
    ensures (a + b) * t == a * t + b * t
  {
  }

  // ---------------------------------------------------------------- labels

  /** The labels of one row: row name followed by the running seat number. */
  function RowLabels(name: string, first: nat, count: nat): (labels: seq<string>)
    ensures |labels| == count
  {
    seq(count, k requires 0 <= k < count => name + NatToString(first + k))
  }

  /** All seat labels for the rows in order, numbered from 1 across rows (A1, A2, B3, ...). */
  function Labels(names: seq<string>, counts: seq<nat>): seq<string>
    requires |names| == |counts|
  {
    if names == [] then []
    else
      var n := |names| - 1;
      Labels(names[..n], counts[..n]) + RowLabels(names[n], 1 + SumSeats(counts[..n]), counts[n])
  }

  /** The row_details entry of one row. */
  function RowDetail(name: string, count: nat): string
  {
    "Row " + name + " x " + NatToString(count) + " seats"
  }

  /** One entry per row with seats, in row order. */
  function RowDetailEntries(names: seq<string>, counts: seq<nat>): seq<string>
    requires |names| == |counts|
  {
    if names == [] then []
    else
      var n := |names| - 1;
      RowDetailEntries(names[..n], counts[..n]) + (if counts[n] > 0 then [RowDetail(names[n], counts[n])] else [])
  }

  /** The seat_counter loop that builds seat_numbers and row_details on "Proceed to Payment". */
  method PrepareBookingDetails(names: seq<string>, counts: seq<nat>) returns (seatNumbers: string, rowDetails: string)
    requires |names| == |counts|
    ensures seatNumbers == Join(Labels(names, counts), ", ")
    ensures rowDetails == Join(RowDetailEntries(names, counts), ", ")
  {
    var labels: seq<string> := [];
    var details: seq<string> := [];
    var seatCounter: nat := 1;
    for i := 0 to |names|
      invariant labels == Labels(names[..i], counts[..i])
      invariant details == RowDetailEntries(names[..i], counts[..i])
      invariant seatCounter == 1 + SumSeats(counts[..i])
    {
      PrefixStep(names, counts, i);
      if counts[i] > 0 {
        labels := labels + RowLabels(names[i], seatCounter, counts[i]);
        details := details + [RowDetail(names[i], counts[i])];
        seatCounter := seatCounter + counts[i];
      }
    }
    assert names[..|names|] == names && counts[..|counts|] == counts;
    seatNumbers := Join(labels, ", ");
    rowDetails := Join(details, ", ");
  }

  /** Labels, entries and seat totals of the first i + 1 rows extend those of the first i rows by row i. */
  lemma PrefixStep(names: seq<string>, counts: seq<nat>, i: nat)
    requires |names| == |counts| && i < |names|
    ensures Labels(names[..i + 1], counts[..i + 1]) ==
      Labels(names[..i], counts[..i]) + RowLabels(names[i], 1 + SumSeats(counts[..i]), counts[i])
    ensures RowDetailEntries(names[..i + 1], counts[..i + 1]) ==
      RowDetailEntries(names[..i], counts[..i]) + (if counts[i] > 0 then [RowDetail(names[i], counts[i])] else [])
    ensures SumSeats(counts[..i + 1]) == SumSeats(counts[..i]) + counts[i]
    ensures counts[i] == 0 ==> Labels(names[..i + 1], counts[..i + 1]) == Labels(names[..i], counts[..i])
  {
    assert names[..i + 1][..i] == names[..i];
    assert counts[..i + 1][..i] == counts[..i];
  }

  /** There is one label per booked seat, and the k-th label carries seat number k + 1 after its row's name. */
  lemma {:induction false} LabelsNumbered(names: seq<string>, counts: seq<nat>)
    requires |names| == |counts|
    ensures |Labels(names, counts)| == SumSeats(counts)
    ensures forall k :: 0 <= k < |Labels(names, counts)| ==>
      exists r :: 0 <= r < |names| && Labels(names, counts)[k] == names[r] + NatToString(k + 1)
  {
    if names != [] {
      var n := |names| - 1;
      LabelsNumbered(names[..n], counts[..n]);
      var before := Labels(names[..n], counts[..n]);
      var row := RowLabels(names[n], 1 + SumSeats(counts[..n]), counts[n]);
      var all := Labels(names, counts);
      assert all == before + row;
      forall k | 0 <= k < |all|
        ensures exists r :: 0 <= r < |names| && all[k] == names[r] + NatToString(k + 1)
      {
        if k < |before| {
          var r :| 0 <= r < n && before[k] == names[..n][r] + NatToString(k + 1);
          assert all[k] == names[r] + NatToString(k + 1);
        } else {
          assert all[k] == names[n] + NatToString(k + 1);
        }
      }
    }
  }

  /** The labelling example: two seats in row A and two in row B are A1, A2, B3, B4. */
  lemma LabelsExample()
    ensures Labels(["A", "B"], [2, 2]) == ["A1", "A2", "B3", "B4"]
  {
    var names: seq<string> := ["A", "B"];
    var counts: seq<nat> := [2, 2];
    assert names[..1] == ["A"] && counts[..1] == [2];
    assert SumSeats([2]) == 2 by { assert [2][..0] == []; }
    assert Labels(["A"], [2]) == RowLabels("A", 1, 2) by { assert ["A"][..0] == [] && [2][..0] == []; }
    assert Labels(names, counts) == Labels(["A"], [2]) + RowLabels("B", 3, 2);
    RowLabelsExample();
  }

  /** The labels of the two rows of the example, numbered on from 1 and from 3. */
  lemma RowLabelsExample()
    ensures RowLabels("A", 1, 2) == ["A1", "A2"] && RowLabels("B", 3, 2) == ["B3", "B4"]
  {
    assert NatToString(1) == "1" && NatToString(2) == "2";
    assert NatToString(3) == "3" && NatToString(4) == "4";
    var la, lb := RowLabels("A", 1, 2), RowLabels("B", 3, 2);
    assert la[0] == "A" + NatToString(1) && la[1] == "A" + NatToString(2);
    assert lb[0] == "B" + NatToString(3) && lb[1] == "B" + NatToString(4);
    assert "A" + "1" == "A1" && "A" + "2" == "A2" && "B" + "3" == "B3" && "B" + "4" == "B4";
  }

  /** The row_details entries of the same example. */
  lemma RowDetailsExample()
    ensures RowDetailEntries(["A", "B"], [2, 2]) == ["Row A x 2 seats", "Row B x 2 seats"]
  {
    assert ["A", "B"][..1] == ["A"] && [2, 2][..1] == [2];
    assert ["A"][..0] == [] && [2][..0] == [];
    assert NatToString(2) == "2";
    assert RowDetail("A", 2) == "Row A x 2 seats";
    assert RowDetail("B", 2) == "Row B x 2 seats";
    assert RowDetailEntries(["A"], [2]) == ["Row A x 2 seats"];
  }

  // ---------------------------------------------------------------- reading row_details back

  /** What the payment step makes of one entry: skipped (no " x "), int() failing, or a row and a count. */
  datatype ParsedEntry = Skip | Malformed | Entry(name: string, count: int)

  /** The cinebook1 reading: name = text before " x ", stripped; count = int of the text before " seats". */
  function ParseRowEntryAsWritten(entry: string): ParsedEntry
  {
    if !ContainsSub(entry, " x ") then Skip
    else
      var parts := SplitOn(entry, " x ");
      var name := Strip(parts[0]);
      match ParseInt(SplitOn(parts[1], " seats")[0])
      case None => Malformed
      case Some(k) => Entry(name, k)
  }

  /** The label as theatre_rows stores it: the "Row " written in front of it removed. */
  function DropRowPrefix(s: string): (r: string)
    ensures |s| >= 4 && s[..4] == "Row " ==> s == "Row " + r
    ensures !(|s| >= 4 && s[..4] == "Row ") ==> r == s
  {
    if |s| >= 4 && s[..4] == "Row " then s[4..] else s
  }

  /** The reading that matches theatre_rows.row_name. */
  function ParseRowEntry(entry: string): ParsedEntry
  {
    match ParseRowEntryAsWritten(entry)
    case Entry(name, k) => Entry(DropRowPrefix(name), k)
    case other => other
  }

  /**
   * row_details.split(', ') read entry by entry, with the cinebook1 reading of
   * each entry or the corrected one; one int() failure aborts the whole reading.
   */
  function ParseEntries(entries: seq<string>, asWritten: bool): Option<seq<(string, int)>>
  {
    if entries == [] then Some([])
    else
      var n := |entries| - 1;
      match ParseEntries(entries[..n], asWritten)
      case None => None
      case Some(before) =>
        match if asWritten then ParseRowEntryAsWritten(entries[n]) else ParseRowEntry(entries[n])
        case Malformed => None
        case Skip => Some(before)
        case Entry(name, k) => Some(before + [(name, k)])
  }

  /** The (row, count) pairs process_booking_payment of cinebook1 reads from row_details. */
  function ParseRowDetailsAsWritten(rowDetails: string): Option<seq<(string, int)>>
  {
    ParseEntries(SplitOn(rowDetails, ", "), true)
  }

  /** The (row, count) pairs read with the label stripped of its "Row " prefix. */
  function ParseRowDetails(rowDetails: string): Option<seq<(string, int)>>
  {
    ParseEntries(SplitOn(rowDetails, ", "), false)
  }

  /** Pairs with "Row " written in front of each row name. */
  function WithRowPrefix(pairs: seq<(string, int)>): (r: seq<(string, int)>)
    ensures |r| == |pairs|
    ensures forall i :: 0 <= i < |r| ==> r[i] == ("Row " + pairs[i].0, pairs[i].1)
  {
    if pairs == [] then []
    else WithRowPrefix(pairs[..|pairs| - 1]) + [("Row " + pairs[|pairs| - 1].0, pairs[|pairs| - 1].1)]
  }

  /** The rows with seats and their counts, in row order. */
  function Booked(names: seq<string>, counts: seq<nat>): seq<(string, int)>
    requires |names| == |counts|
  {
    if names == [] then []
    else
      var n := |names| - 1;
      Booked(names[..n], counts[..n]) + (if counts[n] > 0 then [(names[n], counts[n] as int)] else [])
  }

  /** A template row label: one upper-case letter. */
  predicate IsRowLabel(name: string)
  {
    |name| == 1 && IsUpper(name[0])
  }

  /** t cannot occur in s when no position where t's second character would fall holds that character. */
  lemma {:induction false} NoSubWithout(s: string, t: string)
    requires |t| >= 2
    requires forall j :: 1 <= j && j + |t| <= |s| + 1 ==> s[j] != t[1]
    ensures !ContainsSub(s, t)
    decreases |s|
  {
    if |t| <= |s| {
      assert s[..|t|][1] == s[1];
      forall j | 1 <= j && j + |t| <= |s[1..]| + 1
        ensures s[1..][j] != t[1]
      {
        assert s[1..][j] == s[j + 1];
      }
      NoSubWithout(s[1..], t);
    }
  }

  /** In "Row A x" the separator " x " has not started yet. */
  lemma LabelPrefixFree(c: char)
    requires IsUpper(c)
    ensures !ContainsSub("Row " + [c] + " x", " x ")
  {
    var s := "Row " + [c] + " x";
    assert s[1] == 'o' && s[2] == 'w' && s[3] == ' ' && s[4] == c;
    NoSubWithout(s, " x ");
  }

  /** The " x " split of an entry cuts it between the prefixed label and the seat text. */
  lemma EntrySplitsAtX(name: string, count: nat)
    requires IsRowLabel(name)
    ensures SplitOn(RowDetail(name, count), " x ") == ["Row " + name, NatToString(count) + " seats"]
  {
    var a := "Row " + name;
    var b := NatToString(count) + " seats";
    assert RowDetail(name, count) == a + " x " + b;
    LabelBeforeX(name);
    SeatTextHasNoX(count);
    SplitAt(a, " x ", b);
  }

  /** No " x " is complete before the one written after the label. */
  lemma LabelBeforeX(name: string)
    requires IsRowLabel(name)
    ensures !ContainsSub("Row " + name + " x "[..2], " x ")
  {
    assert " x "[..2] == " x";
    assert name == [name[0]];
    assert "Row " + name + " x "[..2] == "Row " + [name[0]] + " x";
    LabelPrefixFree(name[0]);
  }

  /** The seat text "k seats" holds no " x ". */
  lemma SeatTextHasNoX(count: nat)
    ensures !ContainsSub(NatToString(count) + " seats", " x ")
  {
    var digits := NatToString(count);
    var b := digits + " seats";
    forall j | 1 <= j && j + 3 <= |b| + 1
      ensures b[j] != 'x'
    {
      if j < |digits| {
        assert IsDigit(digits[j]);
      } else {
        assert b[j] == " seats"[j - |digits|];
      }
    }
    NoSubWithout(b, " x ");
  }

  /** The " seats" split of the seat text leaves the digits of the count. */
  lemma SeatTextSplits(count: nat)
    ensures SplitOn(NatToString(count) + " seats", " seats")[0] == NatToString(count)
  {
    var digits := NatToString(count);
    assert ' ' !in digits by {
      assert forall i :: 0 <= i < |digits| ==> IsDigit(digits[i]);
    }
    NoStartIn(digits, " seats");
    SplitAt(digits, " seats", "");
    assert digits + " seats" + "" == digits + " seats";
  }

  /** The corrected reading gives back the row label and the count of an entry built by the selection page. */
  lemma RowEntryRoundTrip(name: string, count: nat)
    requires IsRowLabel(name)
    ensures ParseRowEntryAsWritten(RowDetail(name, count)) == Entry("Row " + name, count)
    ensures ParseRowEntry(RowDetail(name, count)) == Entry(name, count)
  {
    var a := "Row " + name;
    var entry := RowDetail(name, count);
    EntrySplitsAtX(name, count);
    SeatTextSplits(count);
    ParseIntOfNat(count);
    assert ContainsSub(entry, " x ");
    assert StripLeft(a) == a;
    assert Strip(a) == a;
    assert a[..4] == "Row " && a[4..] == name;
  }

  /** An entry built by the selection page holds no comma, so the ", " split finds it whole. */
  lemma RowDetailHasNoComma(name: string, count: nat)
    requires IsRowLabel(name)
    ensures ',' !in RowDetail(name, count)
  {
    var digits := NatToString(count);
    assert forall i :: 0 <= i < |digits| ==> IsDigit(digits[i]);
    assert RowDetail(name, count) == "Row " + name + " x " + digits + " seats";
  }

  /** Reading the entries of a selection back gives the rows with seats and their counts. */
  lemma {:induction false} EntriesRoundTrip(names: seq<string>, counts: seq<nat>)
    requires |names| == |counts|
    requires forall i :: 0 <= i < |names| ==> IsRowLabel(names[i])
    ensures ParseEntries(RowDetailEntries(names, counts), false) == Some(Booked(names, counts))
    ensures ParseEntries(RowDetailEntries(names, counts), true) == Some(WithRowPrefix(Booked(names, counts)))
  {
    if names != [] {
      var n := |names| - 1;
      EntriesRoundTrip(names[..n], counts[..n]);
      var before := RowDetailEntries(names[..n], counts[..n]);
      var booked := Booked(names[..n], counts[..n]);
      if counts[n] > 0 {
        var all := before + [RowDetail(names[n], counts[n])];
        assert RowDetailEntries(names, counts) == all;
        assert all[..|all| - 1] == before;
        RowEntryRoundTrip(names[n], counts[n]);
        assert Booked(names, counts) == booked + [(names[n], counts[n] as int)];
        var b := Booked(names, counts);
        assert b[..|b| - 1] == booked;
        assert WithRowPrefix(b) == WithRowPrefix(booked) + [("Row " + names[n], counts[n] as int)];
      } else {
        assert RowDetailEntries(names, counts) == before;
        assert Booked(names, counts) == booked;
      }
    }
  }

  /**
   * row_details as the selection page writes it reads back, with the corrected
   * reading, as exactly what was booked; the cinebook1 reading keeps "Row "
   * in front of every row name.
   */
  lemma RowDetailsRoundTrip(names: seq<string>, counts: seq<nat>)
    requires |names| == |counts|
    requires forall i :: 0 <= i < |names| ==> IsRowLabel(names[i])
    ensures ParseRowDetails(Join(RowDetailEntries(names, counts), ", ")) == Some(Booked(names, counts))
    ensures ParseRowDetailsAsWritten(Join(RowDetailEntries(names, counts), ", ")) ==
      Some(WithRowPrefix(Booked(names, counts)))
  {
    var entries := RowDetailEntries(names, counts);
    EntriesRoundTrip(names, counts);
    if entries == [] {
      assert SplitOn("", ", ") == [""];
      assert [""][..0] == [];
      assert ParseEntries([""], false) == Some([]);
      assert ParseEntries([""], true) == Some([]);
    } else {
      EntriesFromRows(names, counts);
      SplitJoin(entries, ", ");
    }
  }

  /** Every entry of a selection is the entry of some template row. */
  lemma {:induction false} EntriesFromRows(names: seq<string>, counts: seq<nat>)
    requires |names| == |counts|
    requires forall i :: 0 <= i < |names| ==> IsRowLabel(names[i])
    ensures forall e :: e in RowDetailEntries(names, counts) ==> ',' !in e
  {
    if names != [] {
      var n := |names| - 1;
      EntriesFromRows(names[..n], counts[..n]);
      RowDetailHasNoComma(names[n], counts[n]);
    }
  }
}
