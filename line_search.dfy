/**
 * The station search of the line list screen: every (station, line) pair
 * whose station name contains the query, ignoring letter case.
 */
module LineSearch {
  import opened Wrappers
  import opened JsText
  import opened MtaTypes
  import opened Seqs

  datatype SearchHit = SearchHit(station: Station, line: Line)

  /** The name test: the lower-cased name includes the lower-cased, untrimmed query. */
  predicate Matches(station: Station, query: string) {
    Includes(Lower(station.stationName), Lower(query))
  }

  /** The hits among the first `j` stations of `line`, in station order. */
  function LineHitsUpTo(line: Line, query: string, j: nat): seq<SearchHit>
    requires j <= |line.stations|
  {
    if j == 0 then []
    else
      LineHitsUpTo(line, query, j - 1)
      + (if Matches(line.stations[j - 1], query) then [SearchHit(line.stations[j - 1], line)] else [])
  }

  function LineHits(line: Line, query: string): seq<SearchHit> {
    LineHitsUpTo(line, query, |line.stations|)
  }

  /** All hits, line by line, each line's hits in station order. */
  function Hits(lines: seq<Line>, query: string): seq<SearchHit> {
    if lines == [] then []
    else Hits(lines[..|lines| - 1], query) + LineHits(lines[|lines| - 1], query)
  }

  /**
   * `searchResults`: `None` for a query that is empty once trimmed;
   * otherwise the nested loop over lines and their stations.
   */
  method SearchResults(lines: seq<Line>, searchQuery: string) returns (r: Option<seq<SearchHit>>)
    ensures r.None? <==> TrimsToEmpty(searchQuery)
    ensures r.Some? ==> r.value == Hits(lines, searchQuery)
  {
    if TrimsToEmpty(searchQuery) {
      return None;
    }
    var results: seq<SearchHit> := [];
    for i := 0 to |lines|
      invariant results == Hits(lines[..i], searchQuery)
    {
      var line := lines[i];
      for j := 0 to |line.stations|
        invariant results == Hits(lines[..i], searchQuery) + LineHitsUpTo(line, searchQuery, j)
      {
        var station := line.stations[j];
        if Includes(Lower(station.stationName), Lower(searchQuery)) {
          results := results + [SearchHit(station, line)];
        }
      }
      assert lines[..i + 1][..i] == lines[..i];
    }
    assert lines[..|lines|] == lines;
    return Some(results);
  }

  /** A line's hits are exactly its matching stations, each paired with the line. */
  lemma {:induction false} LineHitsMembership(line: Line, query: string, j: nat, hit: SearchHit)
    requires j <= |line.stations|
    ensures hit in LineHitsUpTo(line, query, j) <==>
              hit.line == line && Matches(hit.station, query)
              && exists k :: 0 <= k < j && line.stations[k] == hit.station
  {
    if j > 0 {
      LineHitsMembership(line, query, j - 1, hit);
    }
  }

  /** `hit` pairs a matching station with a line of `lines` that serves it. */
  predicate Listed(lines: seq<Line>, query: string, hit: SearchHit) {
    && (exists i :: 0 <= i < |lines| && lines[i] == hit.line)
    && (exists k :: 0 <= k < |hit.line.stations| && hit.line.stations[k] == hit.station)
    && Matches(hit.station, query)
  }

  /** Being listed among `lines` is being listed among all but the last, or on the last. */
  lemma ListedSnoc(lines: seq<Line>, query: string, hit: SearchHit)
    requires lines != []
    ensures var n := |lines| - 1;
            Listed(lines, query, hit)
            <==> Listed(lines[..n], query, hit)
                 || (hit.line == lines[n] && Matches(hit.station, query)
                     && exists k :: 0 <= k < |hit.line.stations| && hit.line.stations[k] == hit.station)
  {
    var n := |lines| - 1;
    var prefix := lines[..n];
    if exists i :: 0 <= i < |lines| && lines[i] == hit.line {
      var i :| 0 <= i < |lines| && lines[i] == hit.line;
      if i < n {
        assert prefix[i] == hit.line;
      }
    }
    if exists i :: 0 <= i < n && prefix[i] == hit.line {
      var i :| 0 <= i < n && prefix[i] == hit.line;
      assert lines[i] == hit.line;
    }
  }

  lemma HitsMembershipStep(lines: seq<Line>, query: string, hit: SearchHit)
    requires lines != []
    requires hit in Hits(lines[..|lines| - 1], query) <==> Listed(lines[..|lines| - 1], query, hit)
    ensures hit in Hits(lines, query) <==> Listed(lines, query, hit)
  {
    var n := |lines| - 1;
    assert Hits(lines, query) == Hits(lines[..n], query) + LineHits(lines[n], query);
    LineHitsMembership(lines[n], query, |lines[n].stations|, hit);
    ListedSnoc(lines, query, hit);
  }

  /**
   * A pair is a result exactly when the station belongs to that line and
   * its name matches the query.
   */
  lemma {:induction false} HitsMembership(lines: seq<Line>, query: string, hit: SearchHit)
    ensures hit in Hits(lines, query) <==>
              (exists i :: 0 <= i < |lines| && lines[i] == hit.line)
              && (exists k :: 0 <= k < |hit.line.stations| && hit.line.stations[k] == hit.station)
              && Matches(hit.station, query)
  {
    if lines != [] {
      HitsMembership(lines[..|lines| - 1], query, hit);
      HitsMembershipStep(lines, query, hit);
    }
  }

  /** Results come line by line: searching concatenated line lists concatenates the results. */
  lemma {:induction false} HitsConcat(a: seq<Line>, b: seq<Line>, query: string)
    ensures Hits(a + b, query) == Hits(a, query) + Hits(b, query)
    decreases |b|
  {
    if b == [] {
      assert a + b == a;
    } else {
      var n := |b| - 1;
      assert (a + b)[..|a + b| - 1] == a + b[..n];
      assert (a + b)[|a + b| - 1] == b[n];
      assert Hits(a + b, query) == Hits(a + b[..n], query) + LineHits(b[n], query);
      assert Hits(b, query) == Hits(b[..n], query) + LineHits(b[n], query);
      HitsConcat(a, b[..n], query);
    }
  }

  /** The hits for one particular station. */
  function AtStation(station: Station): SearchHit -> bool {
    (h: SearchHit) => h.station == station
  }

  /** `n` copies of `x`. */
  function Repeat<T>(x: T, n: nat): (r: seq<T>)
    ensures |r| == n && forall i :: 0 <= i < n ==> r[i] == x
  {
    if n == 0 then [] else Repeat(x, n - 1) + [x]
  }

  /** How often `station` occurs among the first `j` stations of `line`. */
  function CountUpTo(line: Line, station: Station, j: nat): nat
    requires j <= |line.stations|
  {
    if j == 0 then 0 else CountUpTo(line, station, j - 1) + (if line.stations[j - 1] == station then 1 else 0)
  }

  lemma {:induction false} CountUpToMultiset(line: Line, station: Station, j: nat)
    requires j <= |line.stations|
    ensures CountUpTo(line, station, j) == multiset(line.stations[..j])[station]
  {
    if j > 0 {
      CountUpToMultiset(line, station, j - 1);
      assert line.stations[..j] == line.stations[..j - 1] + [line.stations[j - 1]];
    }
  }

  /** The hit a single station contributes, filtered to `station`. */
  lemma FilterOneHit(station: Station, here: Station, line: Line, query: string)
    ensures Filter(AtStation(station), if Matches(here, query) then [SearchHit(here, line)] else [])
            == if here == station && Matches(station, query) then [SearchHit(station, line)] else []
  {
    assert [SearchHit(here, line)][1..] == [];
  }

  /** One step of counting by filtering: `c` copies so far, plus `d` more from the next element. */
  lemma FilterRepeatStep<T>(p: T -> bool, before: seq<T>, extra: seq<T>, x: T, c: nat, d: nat)
    requires d <= 1
    requires Filter(p, before) == Repeat(x, c)
    requires Filter(p, extra) == if d == 1 then [x] else []
    ensures Filter(p, before + extra) == Repeat(x, c + d)
  {
    FilterConcat(p, before, extra);
    if d == 1 {
      assert Repeat(x, c + 1) == Repeat(x, c) + [x];
    }
  }

  /** Among the first `j` stations of `line`, `station` is reported once per occurrence if it matches. */
  predicate CountedHits(line: Line, query: string, station: Station, j: nat)
    requires j <= |line.stations|
  {
    Filter(AtStation(station), LineHitsUpTo(line, query, j))
    == if Matches(station, query) then Repeat(SearchHit(station, line), CountUpTo(line, station, j)) else []
  }

  /** The hits of the first `j` stations are those of the first `j - 1`, then the `j`-th station's own. */
  lemma LineHitsUpToSplit(line: Line, query: string, station: Station, j: nat)
    requires 0 < j <= |line.stations|
    ensures var here := line.stations[j - 1];
            && LineHitsUpTo(line, query, j)
               == LineHitsUpTo(line, query, j - 1) + (if Matches(here, query) then [SearchHit(here, line)] else [])
            && CountUpTo(line, station, j) == CountUpTo(line, station, j - 1) + (if here == station then 1 else 0)
  {
  }

  lemma LineHitsAtStepMatched(line: Line, query: string, station: Station, j: nat)
    requires 0 < j <= |line.stations| && Matches(station, query)
    requires CountedHits(line, query, station, j - 1)
    ensures CountedHits(line, query, station, j)
  {
    var here := line.stations[j - 1];
    LineHitsUpToSplit(line, query, station, j);
    FilterOneHit(station, here, line, query);
    FilterRepeatStep(AtStation(station), LineHitsUpTo(line, query, j - 1),
                     if Matches(here, query) then [SearchHit(here, line)] else [],
                     SearchHit(station, line), CountUpTo(line, station, j - 1), if here == station then 1 else 0);
  }

  lemma LineHitsAtStepUnmatched(line: Line, query: string, station: Station, j: nat)
    requires 0 < j <= |line.stations| && !Matches(station, query)
    requires CountedHits(line, query, station, j - 1)
    ensures CountedHits(line, query, station, j)
  {
    var here := line.stations[j - 1];
    LineHitsUpToSplit(line, query, station, j);
    FilterOneHit(station, here, line, query);
    FilterRepeatStep(AtStation(station), LineHitsUpTo(line, query, j - 1),
                     if Matches(here, query) then [SearchHit(here, line)] else [],
                     SearchHit(station, line), 0, 0);
  }

  /**
   * Within one line, a station is reported once for each time it occurs
   * among the line's stations, provided its name matches.
   */
  lemma LineHitsAtZero(line: Line, query: string, station: Station)
    ensures CountedHits(line, query, station, 0)
  {
    assert LineHitsUpTo(line, query, 0) == [] && CountUpTo(line, station, 0) == 0;
    assert Filter(AtStation(station), []) == [];
  }

  lemma LineHitsAtStep(line: Line, query: string, station: Station, j: nat)
    requires 0 < j <= |line.stations|
    requires CountedHits(line, query, station, j - 1)
    ensures CountedHits(line, query, station, j)
  {
    if Matches(station, query) {
      LineHitsAtStepMatched(line, query, station, j);
    } else {
      LineHitsAtStepUnmatched(line, query, station, j);
    }
  }

  lemma {:induction false} LineHitsAt(line: Line, query: string, station: Station, j: nat)
    requires j <= |line.stations|
    ensures CountedHits(line, query, station, j)
  {
    if j == 0 {
      LineHitsAtZero(line, query, station);
    } else {
      LineHitsAt(line, query, station, j - 1);
      LineHitsAtStep(line, query, station, j);
    }
  }


  /** One hit for `station` per line, in line order. */
  function OnePerLine(lines: seq<Line>, station: Station): (r: seq<SearchHit>)
    ensures |r| == |lines|
    ensures forall i :: 0 <= i < |lines| ==> r[i] == SearchHit(station, lines[i])
  {
    if lines == [] then [] else OnePerLine(lines[..|lines| - 1], station) + [SearchHit(station, lines[|lines| - 1])]
  }

  /** A station occurring exactly once on a line is reported once for it. */
  lemma LineHitsOnce(line: Line, query: string, station: Station)
    requires multiset(line.stations)[station] == 1
    requires Matches(station, query)
    ensures Filter(AtStation(station), LineHits(line, query)) == [SearchHit(station, line)]
  {
    LineHitsAt(line, query, station, |line.stations|);
    CountUpToMultiset(line, station, |line.stations|);
    assert line.stations[..|line.stations|] == line.stations;
    assert Repeat(SearchHit(station, line), 1) == [SearchHit(station, line)];
  }

  lemma {:induction false} FilterHitsOnePerLine(lines: seq<Line>, station: Station, query: string)
    requires forall i :: 0 <= i < |lines| ==> multiset(lines[i].stations)[station] == 1
    requires Matches(station, query)
    ensures Filter(AtStation(station), Hits(lines, query)) == OnePerLine(lines, station)
  {
    if lines != [] {
      var n := |lines| - 1;
      FilterHitsOnePerLine(lines[..n], station, query);
      FilterConcat(AtStation(station), Hits(lines[..n], query), LineHits(lines[n], query));
      LineHitsOnce(lines[n], query, station);
    }
  }

  /**
   * A matching station that occurs once on each of several lines is
   * reported once per line, in line order.
   */
  lemma SharedStationOncePerLine(lines: seq<Line>, station: Station, query: string)
    requires forall i :: 0 <= i < |lines| ==> multiset(lines[i].stations)[station] == 1
    requires Matches(station, query)
    ensures var r := Filter(AtStation(station), Hits(lines, query));
            |r| == |lines| && forall i :: 0 <= i < |lines| ==> r[i] == SearchHit(station, lines[i])
  {
    FilterHitsOnePerLine(lines, station, query);
  }

  /** The two-line case, as a concrete instance. */
  lemma SharedStationOnTwoLines(first: Line, second: Line, station: Station, query: string)
    requires multiset(first.stations)[station] == 1 && multiset(second.stations)[station] == 1
    requires Matches(station, query)
    ensures Filter(AtStation(station), Hits([first, second], query)) == [SearchHit(station, first), SearchHit(station, second)]
  {
    SharedStationOncePerLine([first, second], station, query);
  }

  /** The search ignores letter case: "42 st" finds "Times Square - 42 St". */
  lemma TimesSquareFound(station: Station)
    requires station.stationName == "Times Square - 42 St"
    ensures Matches(station, "42 st")
  {
    var query := "42 st";
    assert Lower(query) == query;
    assert Lower("42 St") == query;
    assert "Times Square - " + "42 St" == station.stationName;
    LowerConcat("Times Square - ", "42 St");
    assert Lower(station.stationName) == Lower("Times Square - ") + query + "";
    IncludesMiddle(Lower("Times Square - "), query, "");
  }
}
