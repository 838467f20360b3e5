/**
 * Which theatres of the user's area show a given movie. The theatres come
 * from the database ordered by id; they are a generic sequence here.
 *
 *  - get_movie_specific_theaters (cinebook3, smartshow ENHANCED_15_SHOWS and
 *    ENHANCED_FINAL): a fixed table of three 1-based indices per movie,
 *    reduced modulo the number of theatres;
 *  - get_movie_specific_theatres (cinebook1): three 0-based indices computed
 *    per movie, spaced two apart from a movie-dependent start, duplicates
 *    removed and made up with the smallest unused index.
 *
 * In both, fewer than three theatres are returned as they are.
 */
module TheatreSelection {
  import opened Wrappers
  import opened Arith
  import opened Collections

  // ---------------------------------------------------------------- fixed mapping

  /** MOVIE_THEATER_MAPPING. */
  function MovieTheaterMapping(movieId: int): Option<seq<int>> {
    match movieId
    case 1 => Some([1, 2, 3])
    case 2 => Some([2, 3, 4])
    case 3 => Some([3, 4, 5])
    case 4 => Some([4, 5, 6])
    case 5 => Some([5, 6, 7])
    case 6 => Some([6, 7, 1])
    case 7 => Some([7, 1, 2])
    case 8 => Some([1, 3, 5])
    case 9 => Some([2, 4, 6])
    case 10 => Some([3, 5, 7])
    case 11 => Some([1, 4, 7])
    case 12 => Some([2, 5, 1])
    case 13 => Some([3, 6, 2])
    case 14 => Some([4, 7, 3])
    case 15 => Some([5, 1, 4])
    case 16 => Some([6, 2, 5])
    case 17 => Some([7, 3, 6])
    case 18 => Some([1, 5, 7])
    case 19 => Some([2, 6, 1])
    case 20 => Some([3, 7, 2])
    case 21 => Some([2, 4, 6])
    case 22 => Some([3, 5, 7])
    case 23 => Some([4, 6, 1])
    case 24 => Some([5, 7, 2])
    case 25 => Some([6, 1, 3])
    case 26 => Some([7, 2, 4])
    case 27 => Some([1, 3, 5])
    case 28 => Some([2, 4, 6])
    case 29 => Some([3, 5, 7])
    case 30 => Some([4, 6, 1])
    case 31 => Some([1, 2, 7])
    case 32 => Some([2, 3, 1])
    case 33 => Some([3, 4, 2])
    case 34 => Some([4, 5, 3])
    case 35 => Some([5, 6, 4])
    case 36 => Some([6, 7, 5])
    case 37 => Some([7, 1, 6])
    case 38 => Some([1, 4, 7])
    case 39 => Some([2, 5, 1])
    case 40 => Some([3, 6, 2])
    case _ => None
  }

  /** MOVIE_THEATER_MAPPING.get(movie_id, [1, 2, 3]). */
  function TheaterIndices(movieId: int): seq<int> {
    MovieTheaterMapping(movieId).GetOr([1, 2, 3])
  }

  /** Every movie, listed or not, names three different theatres among the first seven. */
  lemma TheaterIndicesWellFormed(movieId: int)
    ensures |TheaterIndices(movieId)| == 3
    ensures Distinct(TheaterIndices(movieId))
    ensures forall a :: 0 <= a < 3 ==> 1 <= TheaterIndices(movieId)[a] <= 7
  {
    if 1 <= movieId <= 10 {
      MappingRangeGood(movieId, 1);
    } else if 11 <= movieId <= 20 {
      MappingRangeGood(movieId, 11);
    } else if 21 <= movieId <= 30 {
      MappingRangeGood(movieId, 21);
    } else if 31 <= movieId <= 40 {
      MappingRangeGood(movieId, 31);
    }
  }

  /** The mapping's entries for ten consecutive movies, checked one block at a time. */
  lemma MappingRangeGood(movieId: int, lo: int)
    requires lo == 1 || lo == 11 || lo == 21 || lo == 31
    requires lo <= movieId < lo + 10
    ensures GoodTriple(TheaterIndices(movieId))
  {
  }

  /** Three different indices among the first seven, written out without quantifiers. */
  predicate GoodTriple(s: seq<int>) {
    && |s| == 3
    && 1 <= s[0] <= 7 && 1 <= s[1] <= 7 && 1 <= s[2] <= 7
    && s[0] != s[1] && s[0] != s[2] && s[1] != s[2]
  }

  /** allTheaters[(idx - 1) % n] for each configured index idx. */
  function PickTheatres<T>(idx: seq<int>, allTheaters: seq<T>): (r: seq<T>)
    requires |allTheaters| > 0
    ensures |r| == |idx|
    ensures forall a :: 0 <= a < |idx| ==> r[a] == allTheaters[(idx[a] - 1) % |allTheaters|]
  {
    seq(|idx|, a requires 0 <= a < |idx| => allTheaters[(idx[a] - 1) % |allTheaters|])
  }

  /** The theatres get_movie_specific_theaters returns. */
  function MappedTheatres<T>(movieId: int, allTheaters: seq<T>): seq<T> {
    if |allTheaters| < 3 then allTheaters else PickTheatres(TheaterIndices(movieId), allTheaters)
  }

  /** The append loop of get_movie_specific_theaters over the configured indices. */
  method SelectTheatres<T>(theaterIndices: seq<int>, allTheaters: seq<T>) returns (selected: seq<T>)
    requires |allTheaters| > 0
    ensures selected == PickTheatres(theaterIndices, allTheaters)
  {
    selected := [];
    for i := 0 to |theaterIndices|
      invariant |selected| == i
      invariant forall a :: 0 <= a < i ==> selected[a] == allTheaters[(theaterIndices[a] - 1) % |allTheaters|]
    {
      var arrayIdx := (theaterIndices[i] - 1) % |allTheaters|;
      selected := selected + [allTheaters[arrayIdx]];
    }
  }

  /** get_movie_specific_theaters: the whole list when it is short, otherwise the mapped three. */
  method GetMovieSpecificTheaters<T>(movieId: int, allTheaters: seq<T>) returns (selected: seq<T>)
    ensures selected == MappedTheatres(movieId, allTheaters)
    ensures |allTheaters| < 3 ==> selected == allTheaters
    ensures |allTheaters| >= 3 ==> |selected| == 3
    ensures |allTheaters| >= 3 ==>
      forall a :: 0 <= a < 3 ==> selected[a] == allTheaters[(TheaterIndices(movieId)[a] - 1) % |allTheaters|]
  {
    if |allTheaters| < 3 {
      return allTheaters;
    }
    TheaterIndicesWellFormed(movieId);
    selected := SelectTheatres(TheaterIndices(movieId), allTheaters);
  }

  lemma {:induction false} MappedTheatresDistinct<T>(movieId: int, allTheaters: seq<T>)
    requires |allTheaters| >= 7 && Distinct(allTheaters)
    ensures Distinct(MappedTheatres(movieId, allTheaters))
  {
    TheaterIndicesWellFormed(movieId);
    PickDistinct(TheaterIndices(movieId), allTheaters);
  }

  lemma PickDistinct<T>(idx: seq<int>, allTheaters: seq<T>)
    requires |allTheaters| >= 7 && Distinct(allTheaters) && Distinct(idx)
    requires forall a :: 0 <= a < |idx| ==> 1 <= idx[a] <= 7
    ensures Distinct(seq(|idx|, a requires 0 <= a < |idx| => allTheaters[(idx[a] - 1) % |allTheaters|]))
  {
    var n := |allTheaters|;
    forall a | 0 <= a < |idx| ensures (idx[a] - 1) % n == idx[a] - 1 {
      DivModUnique(idx[a] - 1, n, 0, idx[a] - 1);
    }
  }

  /** With fewer than seven theatres the reduction can repeat a theatre: three theatres and movie 11 give the first one thrice. */
  lemma MappedTheatresRepeat<T>(t0: T, t1: T, t2: T)
    ensures MappedTheatres(11, [t0, t1, t2]) == [t0, t0, t0]
  {
    assert TheaterIndices(11) == [1, 4, 7];
  }

  // ---------------------------------------------------------------- computed indices (cinebook1)

  /** (start_idx + j * 2) % n with start_idx = ((i - 1) * 2) % n: the j-th spaced index of movie i. */
  function RawIndex(i: int, n: int, j: int): (k: int)
    requires n > 0
    ensures 0 <= k < n
  {
    (((i - 1) * 2) % n + j * 2) % n
  }

  function RawIndices(i: int, n: int): seq<int>
    requires n > 0
  {
    [RawIndex(i, n, 0), RawIndex(i, n, 1), RawIndex(i, n, 2)]
  }

  /**
   * list(set(xs)). Python leaves the order of a set unspecified; this keeps
   * first occurrences, and every contract that depends on it speaks only of
   * which elements appear.
   */
  function Dedup(xs: seq<int>): (r: seq<int>)
    ensures Distinct(r)
    ensures forall x :: x in r <==> x in xs
    ensures |r| <= |xs|
  {
    if xs == [] then []
    else
      var rest := Dedup(xs[..|xs| - 1]);
      if xs[|xs| - 1] in rest then rest else rest + [xs[|xs| - 1]]
  }

  /**
   * The three indices chosen for movie i among n theatres, up to order: three
   * different indices below n that include every spaced index, and any index
   * added to make up for a duplicate is the smallest one still unused.
   */
  predicate ChosenIndices(indices: seq<int>, i: int, n: int)
    requires n > 0
  {
    && |indices| == 3
    && Distinct(indices)
    && (forall a :: 0 <= a < 3 ==> 0 <= indices[a] < n)
    && (forall j :: 0 <= j < 3 ==> RawIndex(i, n, j) in indices)
    && (forall a :: 0 <= a < 3 && indices[a] !in RawIndices(i, n) ==>
          forall y :: 0 <= y < indices[a] ==> y in indices)
  }

  /** One pass of the `for i in range(1, 41)` loop of get_movie_specific_theatres. */
  method ComputeTheatreIndices(i: int, n: int) returns (indices: seq<int>)
    requires n >= 3
    ensures ChosenIndices(indices, i, n)
  {
    var startIdx := ((i - 1) * 2) % n;
    var selectedIndices: seq<int> := [];
    for j := 0 to 3
      invariant selectedIndices == RawIndices(i, n)[..j]
    {
      var idx := (startIdx + j * 2) % n;
      selectedIndices := selectedIndices + [idx];
    }
    var raw := selectedIndices;
    selectedIndices := Dedup(selectedIndices);
    while |selectedIndices| < 3 && |selectedIndices| < n
      invariant FillInvariant(selectedIndices, raw, n)
      decreases 3 - |selectedIndices|
    {
      Pigeonhole(selectedIndices, n);
      var k := 0;
      while k < n && k in selectedIndices
        invariant 0 <= k <= n
        invariant forall y :: 0 <= y < k ==> y in selectedIndices
      {
        k := k + 1;
      }
      AppendSmallestMissing(selectedIndices, raw, n, k);
      selectedIndices := selectedIndices + [k];
    }
    FillComplete(selectedIndices, i, n);
    indices := selectedIndices[..3];
  }

  /** What the make-up loop keeps: distinct indices below n, all spaced ones present, every made-up one minimal. */
  predicate FillInvariant(sel: seq<int>, raw: seq<int>, n: int) {
    && Distinct(sel) && |sel| <= 3
    && (forall x :: x in sel ==> 0 <= x < n)
    && (forall x :: x in raw ==> x in sel)
    && (forall x :: x in sel && x !in raw ==> forall y :: 0 <= y < x ==> y in sel)
  }

  lemma AppendSmallestMissing(sel: seq<int>, raw: seq<int>, n: int, k: int)
    requires FillInvariant(sel, raw, n) && |sel| < 3
    requires 0 <= k < n && k !in sel
    requires forall y :: 0 <= y < k ==> y in sel
    ensures FillInvariant(sel + [k], raw, n)
  {
  }

  lemma FillComplete(sel: seq<int>, i: int, n: int)
    requires n >= 3 && FillInvariant(sel, RawIndices(i, n)[..3], n)
    requires !(|sel| < 3 && |sel| < n)
    ensures ChosenIndices(sel, i, n) && sel[..3] == sel
  {
    assert RawIndices(i, n)[..3] == RawIndices(i, n);
    assert |sel| == 3;
    forall a | 0 <= a < 3 ensures 0 <= sel[a] < n {
      assert sel[a] in sel;
    }
    forall j | 0 <= j < 3 ensures RawIndex(i, n, j) in sel {
      assert RawIndices(i, n)[j] in RawIndices(i, n)[..3];
    }
  }

  /** movie_theatre_mapping: the chosen indices of every movie 1..40. */
  method BuildTheatreMapping(n: int) returns (mapping: map<int, seq<int>>)
    requires n >= 3
    ensures forall i :: i in mapping <==> 1 <= i <= 40
    ensures forall i :: i in mapping ==> ChosenIndices(mapping[i], i, n)
  {
    mapping := map[];
    for i := 1 to 41
      invariant forall m :: m in mapping <==> 1 <= m < i
      invariant forall m :: m in mapping ==> ChosenIndices(mapping[m], m, n)
    {
      var indices := ComputeTheatreIndices(i, n);
      mapping := mapping[i := indices];
    }
  }

  /**
   * get_movie_specific_theatres: the theatres at the chosen indices, or at
   * [0, 1, 2] for a movie outside 1..40. `indices` records which were taken.
   */
  method GetMovieSpecificTheatres<T>(movieId: int, allTheatres: seq<T>) returns (selected: seq<T>, ghost indices: seq<int>)
    ensures |allTheatres| < 3 ==> selected == allTheatres
    ensures |allTheatres| >= 3 ==>
      && |selected| == 3 == |indices|
      && (forall a :: 0 <= a < 3 ==> 0 <= indices[a] < |allTheatres| && selected[a] == allTheatres[indices[a]])
      && (1 <= movieId <= 40 ==> ChosenIndices(indices, movieId, |allTheatres|))
      && (!(1 <= movieId <= 40) ==> indices == [0, 1, 2])
  {
    if |allTheatres| < 3 {
      return allTheatres, [];
    }
    var mapping := BuildTheatreMapping(|allTheatres|);
    var theatreIndices := if movieId in mapping then mapping[movieId] else [0, 1, 2];
    indices := theatreIndices;
    assert |theatreIndices| == 3;
    assert forall b :: 0 <= b < 3 ==> 0 <= theatreIndices[b] < |allTheatres|;
    selected := [];
    for a := 0 to |theatreIndices|
      invariant |selected| == a
      invariant forall b :: 0 <= b < a ==> selected[b] == allTheatres[theatreIndices[b]]
    {
      var idx := theatreIndices[a];
      if idx < |allTheatres| {
        selected := selected + [allTheatres[idx]];
      }
    }
  }

  /** Distinct theatres at distinct indices: the three theatres shown are different ones. */
  lemma ChosenTheatresDistinct<T>(allTheatres: seq<T>, selected: seq<T>, indices: seq<int>)
    requires Distinct(allTheatres) && Distinct(indices) && |selected| == |indices|
    requires forall a :: 0 <= a < |indices| ==> 0 <= indices[a] < |allTheatres| && selected[a] == allTheatres[indices[a]]
    ensures Distinct(selected)
  {
  }

  /** The spaced indices collide only when there are exactly four theatres; otherwise no index is made up. */
  lemma {:induction false} RawIndicesDistinct(i: int, n: int)
    requires n >= 3 && n != 4
    ensures Distinct(RawIndices(i, n))
  {
    var s := ((i - 1) * 2) % n;
    forall a, b | 0 <= a < b < 3 ensures RawIndex(i, n, a) != RawIndex(i, n, b) {
      assert s + b * 2 == (s + a * 2) + 2 * (b - a);
      SameRemainder(s + a * 2, 2 * (b - a), n);
      if n == 3 && b - a == 2 {
        DivModUnique(4, 3, 1, 1);
      } else {
        DivModUnique(2 * (b - a), n, 0, 2 * (b - a));
      }
    }
  }

  /** With four theatres movie 1 spaces to 0, 2, 0, and the duplicate is made up with index 1. */
  lemma FourTheatresFill(indices: seq<int>)
    requires ChosenIndices(indices, 1, 4)
    ensures Elements(indices) == {0, 1, 2}
  {
    assert RawIndices(1, 4) == [0, 2, 0];
    assert 0 in indices && 2 in indices;
    var p0 :| 0 <= p0 < 3 && indices[p0] == 0;
    var p2 :| 0 <= p2 < 3 && indices[p2] == 2;
    var r := 3 - p0 - p2;
    assert indices[r] != 0 && indices[r] != 2 && indices[r] !in RawIndices(1, 4);
    assert indices[r] > 1 ==> 1 in indices;
    assert 1 in indices ==> indices[r] == 1;
    assert indices == [indices[0], indices[1], indices[2]];
  }
}
