/** The fixtures view: a fixed list of matches, each upcoming, confirmed or past, shown
    through a single-select filter tab (All, Upcoming, Past). */
module Fixtures {
  import opened Slot

  datatype MatchStatus = Upcoming | Confirmed | Past

  datatype Match = Match(
    id: string,
    opponent: string,
    date: string,
    time: string,
    venue: string,
    isHome: bool,
    status: MatchStatus,
    result: Option<string>,
    position: Option<string>)

  /** The filter tabs, in the order they are drawn. */
  datatype Filter = All | ShowUpcoming | ShowPast

  const Matches: seq<Match> := [
    Match("1", "Northern FC", "Dec 28", "3:00 PM", "City Stadium", true, Confirmed, None, Some("Starting ST")),
    Match("2", "Western United", "Jan 4", "7:30 PM", "United Arena", false, Upcoming, None, None),
    Match("3", "Coastal FC", "Jan 11", "3:00 PM", "City Stadium", true, Upcoming, None, None),
    Match("4", "Mountain Rangers", "Jan 18", "5:00 PM", "Rangers Ground", false, Upcoming, None, None),
    Match("5", "Valley Town", "Dec 21", "3:00 PM", "City Stadium", true, Past, Some("3-1 W"), Some("Started")),
    Match("6", "Harbor City", "Dec 14", "7:30 PM", "Harbor Park", false, Past, Some("2-2 D"), Some("Started"))
  ]

  /** The predicate handed to `filter`: All keeps everything, Upcoming everything not past
      (so confirmed matches too), Past only the past ones. */
  predicate Keeps(f: Filter, m: Match) {
    if f == All then true
    else if f == ShowUpcoming then m.status != Past
    else m.status == Past
  }

  /** Order-preserving embedding: `r` is `s` with some of its elements dropped. */
  predicate Subsequence<T(==)>(r: seq<T>, s: seq<T>)
    decreases |s|
  {
    if r == [] then true
    else if s == [] then false
    else (r[0] == s[0] && Subsequence(r[1..], s[1..])) || Subsequence(r, s[1..])
  }

  /** `matches.filter(...)` for the active tab. */
  function FilterMatches(ms: seq<Match>, f: Filter): (r: seq<Match>)
    ensures |r| <= |ms|
  {
    if ms == [] then []
    else (if Keeps(f, ms[0]) then [ms[0]] else []) + FilterMatches(ms[1..], f)
  }

  /** Whatever a tab shows is kept by that tab and is a match of the list, kept in the
      list's order; every match of the list the tab keeps is shown. */
  lemma {:induction false} FilterExact(ms: seq<Match>, f: Filter)
    ensures forall m :: m in FilterMatches(ms, f) <==> m in ms && Keeps(f, m)
    ensures Subsequence(FilterMatches(ms, f), ms)
  {
    if ms != [] {
      FilterExact(ms[1..], f);
      var rest := FilterMatches(ms[1..], f);
      assert ms == [ms[0]] + ms[1..];
      if Keeps(f, ms[0]) {
        assert FilterMatches(ms, f)[1..] == rest;
      } else {
        assert FilterMatches(ms, f) == rest;
      }
    }
  }

  /** The All tab shows the list unchanged, content and order. */
  lemma {:induction false} FilterAll(ms: seq<Match>)
    ensures FilterMatches(ms, All) == ms
  {
    if ms != [] {
      FilterAll(ms[1..]);
    }
  }

  /** Upcoming and Past split the list: together they hold every match exactly as often as
      the list does, so their lengths add up to the whole. */
  lemma {:induction false} UpcomingPastSplit(ms: seq<Match>)
    ensures multiset(FilterMatches(ms, ShowUpcoming)) + multiset(FilterMatches(ms, ShowPast)) == multiset(ms)
    ensures |FilterMatches(ms, ShowUpcoming)| + |FilterMatches(ms, ShowPast)| == |ms|
  {
    if ms != [] {
      UpcomingPastSplit(ms[1..]);
      var up, past := FilterMatches(ms[1..], ShowUpcoming), FilterMatches(ms[1..], ShowPast);
      assert ms == [ms[0]] + ms[1..];
      assert multiset(ms) == multiset{ms[0]} + multiset(ms[1..]);
      if ms[0].status == Past {
        assert FilterMatches(ms, ShowUpcoming) == up;
        assert FilterMatches(ms, ShowPast) == [ms[0]] + past;
        assert multiset(FilterMatches(ms, ShowPast)) == multiset{ms[0]} + multiset(past);
      } else {
        assert FilterMatches(ms, ShowUpcoming) == [ms[0]] + up;
        assert multiset(FilterMatches(ms, ShowUpcoming)) == multiset{ms[0]} + multiset(up);
        assert FilterMatches(ms, ShowPast) == past;
      }
    }
  }

  /** No match is shown both under Upcoming and under Past. */
  lemma UpcomingPastDisjoint(ms: seq<Match>)
    ensures forall m :: m in FilterMatches(ms, ShowUpcoming) ==> m !in FilterMatches(ms, ShowPast)
  {
    FilterExact(ms, ShowUpcoming);
    FilterExact(ms, ShowPast);
  }

  /** Filtering the shown list again by the same tab shows the same list. */
  lemma {:induction false} FilterIdempotent(ms: seq<Match>, f: Filter)
    ensures FilterMatches(FilterMatches(ms, f), f) == FilterMatches(ms, f)
  {
    if ms != [] {
      FilterIdempotent(ms[1..], f);
      var rest := FilterMatches(ms[1..], f);
      if Keeps(f, ms[0]) {
        assert FilterMatches(ms, f) == [ms[0]] + rest;
        assert ([ms[0]] + rest)[1..] == rest;
      } else {
        assert FilterMatches(ms, f) == rest;
      }
    }
  }

  /** One step of `filter` along a suffix: its head is kept or dropped, the rest filtered. */
  lemma FilterSuffix(ms: seq<Match>, k: nat, f: Filter)
    requires k < |ms|
    ensures FilterMatches(ms[k..], f) == (if Keeps(f, ms[k]) then [ms[k]] else []) + FilterMatches(ms[k + 1..], f)
  {
    assert ms[k..][1..] == ms[k + 1..];
  }

  /** Six matches of which the last two are past (the shape of the seed list): Past shows
      the last two, Upcoming the first four. */
  lemma FilterFourThenTwo(ms: seq<Match>)
    requires |ms| == 6
    requires forall i :: 0 <= i < 4 ==> ms[i].status != Past
    requires ms[4].status == Past && ms[5].status == Past
    ensures FilterMatches(ms, ShowPast) == [ms[4], ms[5]]
    ensures FilterMatches(ms, ShowUpcoming) == ms[..4]
  {
    assert ms[6..] == [];
    FilterSuffix(ms, 5, ShowPast);
    FilterSuffix(ms, 5, ShowUpcoming);
    FilterSuffix(ms, 4, ShowPast);
    FilterSuffix(ms, 4, ShowUpcoming);
    assert FilterMatches(ms[4..], ShowPast) == [ms[4], ms[5]];
    assert FilterMatches(ms[4..], ShowUpcoming) == [];
    FilterSuffix(ms, 3, ShowPast);
    FilterSuffix(ms, 3, ShowUpcoming);
    assert FilterMatches(ms[3..], ShowUpcoming) == ms[3..4];
    FilterSuffix(ms, 2, ShowPast);
    FilterSuffix(ms, 2, ShowUpcoming);
    assert FilterMatches(ms[2..], ShowUpcoming) == [ms[2]] + ms[3..4] == ms[2..4];
    FilterSuffix(ms, 1, ShowPast);
    FilterSuffix(ms, 1, ShowUpcoming);
    assert FilterMatches(ms[1..], ShowUpcoming) == [ms[1]] + ms[2..4] == ms[1..4];
    FilterSuffix(ms, 0, ShowPast);
    FilterSuffix(ms, 0, ShowUpcoming);
    assert FilterMatches(ms[0..], ShowUpcoming) == [ms[0]] + ms[1..4] == ms[..4];
    assert ms[0..] == ms;
  }

  /** The seed list: Past shows matches 5 and 6 in that order, Upcoming matches 1 to 4 (the
      confirmed match 1 included). */
  lemma SeedFilters()
    ensures FilterMatches(Matches, ShowPast) == [Matches[4], Matches[5]]
    ensures FilterMatches(Matches, ShowUpcoming) == Matches[..4]
  {
    FilterFourThenTwo(Matches);
  }

  /** The view's one state slot, the active filter tab. */
  class FixturesView {
    var activeFilter: Filter

    constructor ()
      ensures activeFilter == All
    {
      activeFilter := All;
    }

    /** A click on a filter tab. */
    method SetActiveFilter(f: Filter)
      modifies this
      ensures activeFilter == f
    {
      activeFilter := f;
    }

    /** The matches the view draws. */
    function FilteredMatches(): (r: seq<Match>)
      reads this
      ensures forall m :: m in r <==> m in Matches && Keeps(activeFilter, m)
      ensures Subsequence(r, Matches)
    {
      FilterExact(Matches, activeFilter);
      FilterMatches(Matches, activeFilter)
    }
  }
}
