/** The bus service (`features/buses/service.ts`): which provider a city
    is served by, the stop search parameters, the route and stop-code
    checks, the selection of the stops next to a stop, and the shaping of
    arrival and location results. */
module BusService {
  import opened Wrappers
  import opened Text
  import opened BusTypes
  import opened Sorting
  import opened Seqs

  /** The city number that stands for Seoul. */
  const SEOUL_NUMBER: int := 99999

  /** What `retrieveStops` asks for: the Seoul provider with the keyword,
      or the TAGO provider by stop number or by stop name. */
  datatype StopQuery =
    | SeoulKeyword(keyword: string)
    | TagoByNumber(cityCode: int, nodeNo: nat)
    | TagoByName(cityCode: int, nodeNm: string)

  /** `string.isNumeric` of the utility package, taken here to accept a
      non-empty run of ASCII digits. */
  predicate IsNumeric(s: string) {
    IsNumeral(s)
  }

  /** The parameter choice of `retrieveStops`. */
  function RetrieveStopsQuery(cityNumber: int, keyword: string): (r: StopQuery)
    ensures r.SeoulKeyword? <==> cityNumber == SEOUL_NUMBER
    ensures r.SeoulKeyword? ==> r.keyword == keyword
    ensures r.TagoByNumber? ==> IsNumeric(keyword) && r.cityCode == cityNumber
    ensures r.TagoByName? ==> !IsNumeric(keyword) && r.cityCode == cityNumber && r.nodeNm == keyword
    ensures r.TagoByNumber? ==> r.nodeNo == DecimalValue(keyword)
    ensures r.TagoByNumber? ==> NatToString(r.nodeNo) == keyword || keyword[0] == '0'
  {
    if cityNumber == SEOUL_NUMBER then SeoulKeyword(keyword)
    else if IsNumeric(keyword) then
      NumberOfNumeral(keyword);
      TagoByNumber(cityNumber, DecimalValue(keyword))
    else TagoByName(cityNumber, keyword)
  }

  /** A numeric keyword with a leading zero asks for the same stop number
      as the keyword without it: "012" is sent as 12. */
  lemma LeadingZeroStopNumber(cityNumber: int, keyword: string)
    requires cityNumber != SEOUL_NUMBER && IsNumeric(keyword)
    ensures RetrieveStopsQuery(cityNumber, ['0'] + keyword)
      == TagoByNumber(cityNumber, RetrieveStopsQuery(cityNumber, keyword).nodeNo)
  {
    LeadingZeroIgnored(keyword);
  }

  /** `retrieveRoutes`: a stop served by no route is an invalid stop code. */
  function RetrieveRoutes(routes: seq<BusRoute>): (r: Result<seq<BusRoute>, Failure>)
    ensures r.Success? <==> routes != []
    ensures r.Success? ==> r.value == routes
    ensures r.Failure? ==> r.error == Http(Conflict("Invalid stop code")) && r.error.error.Code() == 409
  {
    if |routes| == 0 then Failure(Http(Conflict("Invalid stop code"))) else Success(routes)
  }

  // ---------------------------------------------------------------------
  // Neighbour stops
  // ---------------------------------------------------------------------

  /** `stops.find(stop => stop.code === stopCode)?.order`. */
  function FindOrder(stops: seq<SequentialStop>, stopCode: string): (r: Option<int>)
    ensures r.None? <==> forall s :: s in stops ==> s.code != stopCode
    ensures r.Some? ==>
      exists i :: 0 <= i < |stops| && stops[i].code == stopCode && stops[i].order == r.value
        && forall j :: 0 <= j < i ==> stops[j].code != stopCode
  {
    if stops == [] then None
    else if stops[0].code == stopCode then Some(stops[0].order)
    else
      var r := FindOrder(stops[1..], stopCode);
      assert forall s :: s in stops ==> s == stops[0] || s in stops[1..];
      if r.Some? then
        var i :| 0 <= i < |stops[1..]| && stops[1..][i].code == stopCode && stops[1..][i].order == r.value
          && forall j :: 0 <= j < i ==> stops[1..][j].code != stopCode;
        assert stops[i + 1].code == stopCode && stops[i + 1].order == r.value;
        assert forall j :: 0 <= j < i + 1 ==> stops[j].code != stopCode by {
          forall j | 0 <= j < i + 1
            ensures stops[j].code != stopCode
          {
            if j > 0 {
              assert stops[j] == stops[1..][j - 1];
            }
          }
        }
        r
      else r
  }

  /** The orders around `middle`, non-positive ones dropped. */
  function Window(middle: int): (r: seq<int>)
    ensures |r| <= 3
    ensures forall x :: x in r <==> (x == middle - 1 || x == middle || x == middle + 1) && x > 0
    ensures forall i, j :: 0 <= i < j < |r| ==> r[i] < r[j]
    ensures middle > 1 ==> r == [middle - 1, middle, middle + 1]
  {
    (if middle - 1 > 0 then [middle - 1] else [])
      + (if middle > 0 then [middle] else [])
      + (if middle + 1 > 0 then [middle + 1] else [])
  }

  function StopOrder(stop: SequentialStop): int {
    stop.order
  }

  /** The stops whose order is in the window, in their order. */
  function InWindow(stops: seq<SequentialStop>, window: seq<int>): (r: seq<SequentialStop>)
    ensures forall s :: s in r <==> s in stops && s.order in window
    ensures |r| <= |stops|
  {
    if stops == [] then []
    else
      assert stops == [stops[0]] + stops[1..];
      (if stops[0].order in window then [stops[0]] else []) + InWindow(stops[1..], window)
  }

  lemma {:induction false} InWindowAppend(a: seq<SequentialStop>, b: seq<SequentialStop>, window: seq<int>)
    ensures InWindow(a + b, window) == InWindow(a, window) + InWindow(b, window)
  {
    if a != [] {
      assert (a + b)[1..] == a[1..] + b;
      InWindowAppend(a[1..], b, window);
    } else {
      assert a + b == b;
    }
  }

  /** A window-filtered run of sorted stops is sorted. */
  lemma {:induction false} InWindowSorted(stops: seq<SequentialStop>, window: seq<int>)
    requires SortedBy(stops, StopOrder)
    ensures SortedBy(InWindow(stops, window), StopOrder)
  {
    if stops != [] {
      TailSorted(stops, StopOrder);
      InWindowSorted(stops[1..], window);
      var rest := InWindow(stops[1..], window);
      if stops[0].order in window {
        if rest != [] {
          assert rest[0] in stops[1..];
          var k :| 0 <= k < |stops[1..]| && stops[1..][k] == rest[0];
          assert StopOrder(stops[0]) <= StopOrder(stops[k + 1]);
        }
        ConsSorted(stops[0], rest, StopOrder);
      }
    }
  }

  lemma InWindowStep(stops: seq<SequentialStop>, i: nat, window: seq<int>)
    requires i < |stops|
    ensures InWindow(stops[..i + 1], window) ==
      InWindow(stops[..i], window) + (if stops[i].order in window then [stops[i]] else [])
  {
    assert stops[..i + 1] == stops[..i] + [stops[i]];
    InWindowAppend(stops[..i], [stops[i]], window);
    assert InWindow([stops[i]], window) == (if stops[i].order in window then [stops[i]] else []) by {
      assert [stops[i]][1..] == [];
    }
  }

  /** Once a prefix holds as many window stops as the window has entries,
      the rest of the stops cannot change the first that many. */
  lemma TakeAtFull(stops: seq<SequentialStop>, k: nat, window: seq<int>)
    requires k <= |stops|
    requires |InWindow(stops[..k], window)| == |window|
    ensures Take(InWindow(stops, window), |window|) == InWindow(stops[..k], window)
  {
    InWindowAppend(stops[..k], stops[k..], window);
    assert stops[..k] + stops[k..] == stops;
    var a := InWindow(stops[..k], window);
    var b := InWindow(stops[k..], window);
    assert (a + b)[..|a|] == a;
  }

  /** The `every` scan: collect the stops whose order is in the window and
      stop as soon as there are as many as the window has entries. */
  method SelectNeighbors(sorted: seq<SequentialStop>, window: seq<int>) returns (results: seq<SequentialStop>)
    ensures results == Take(InWindow(sorted, window), |window|)
  {
    results := [];
    var i := 0;
    while i < |sorted|
      invariant 0 <= i <= |sorted|
      invariant results == InWindow(sorted[..i], window)
      invariant |results| < |window| || window == []
      invariant window == [] ==> results == []
    {
      var stop := sorted[i];
      InWindowStep(sorted, i, window);
      if stop.order in window {
        results := results + [stop];
        if |results| >= |window| {
          TakeAtFull(sorted, i + 1, window);
          return;
        }
      }
      i := i + 1;
    }
    assert sorted[..i] == sorted;
  }

  /** A prefix of a sorted run is sorted. */
  lemma TakeSorted(s: seq<SequentialStop>, n: nat)
    requires SortedBy(s, StopOrder)
    ensures SortedBy(Take(s, n), StopOrder)
  {
    var r := Take(s, n);
    forall i, j | 0 <= i < j < |r|
      ensures StopOrder(r[i]) <= StopOrder(r[j])
    {
      assert r[i] == s[i] && r[j] == s[j];
    }
  }

  /** What the neighbour selection yields: at most three stops of the
      route, in ascending order, each at most one position from `middle`. */
  lemma NeighborsAround(stops: seq<SequentialStop>, middle: int)
    ensures var window := Window(middle);
      var r := Take(InWindow(SortBy(stops, StopOrder), window), |window|);
      && |r| <= 3
      && SortedBy(r, StopOrder)
      && (forall s :: s in r ==> s in stops && s.order > 0 && middle - 1 <= s.order <= middle + 1)
  {
    var window := Window(middle);
    var sorted := SortBy(stops, StopOrder);
    var selected := InWindow(sorted, window);
    InWindowSorted(sorted, window);
    TakeSorted(selected, |window|);
    var r := Take(selected, |window|);
    forall s | s in r
      ensures s in stops && s.order > 0 && middle - 1 <= s.order <= middle + 1
    {
      assert s in selected;
      assert s in multiset(sorted);
    }
  }

  /** `retrieveNeighborStops` (and its Seoul twin): the stops next to
      `stopCode` along the first route serving it, given the routes of the
      stop and the stops of that first route as the provider returns them. */
  method RetrieveNeighborStops(stopCode: string, routes: seq<BusRoute>, stopsOfFirstRoute: seq<SequentialStop>)
    returns (r: Result<seq<SequentialStop>, Failure>)
    ensures routes == [] ==> r == Failure(Http(Conflict("Invalid stop code")))
    ensures routes != [] && FindOrder(stopsOfFirstRoute, stopCode).None? ==>
      r == Failure(Http(Conflict("Invalid data")))
    ensures routes != [] && FindOrder(stopsOfFirstRoute, stopCode).Some? ==>
      var window := Window(FindOrder(stopsOfFirstRoute, stopCode).value);
      r == Success(Take(InWindow(SortBy(stopsOfFirstRoute, StopOrder), window), |window|))
    ensures r.Success? ==> |r.value| <= 3 && SortedBy(r.value, StopOrder)
    ensures r.Success? ==> forall s :: s in r.value ==> s in stopsOfFirstRoute && s.order > 0
  {
    var checked := RetrieveRoutes(routes);
    if checked.Failure? {
      return Failure(checked.error);
    }
    var middle := FindOrder(stopsOfFirstRoute, stopCode);
    if middle.None? {
      return Failure(Http(Conflict("Invalid data")));
    }
    var window := Window(middle.value);
    var sorted := SortBy(stopsOfFirstRoute, StopOrder);
    var results := SelectNeighbors(sorted, window);
    NeighborsAround(stopsOfFirstRoute, middle.value);
    r := Success(results);
  }

  // ---------------------------------------------------------------------
  // Arrival and location results
  // ---------------------------------------------------------------------

  /** `retrieveArrivalInfo` of the service: `{}` for no entry, otherwise
      the first entry's stop and every entry's bus, in order. */
  function RetrieveArrivalInfo(entries: seq<ArrivalInfo>): (r: StopArrivalInfo)
    ensures r.NoArrivalInfo? <==> entries == []
    ensures r.StopArrivals? ==>
      && r.stop == entries[0].stop
      && |r.buses| == |entries|
      && forall i :: 0 <= i < |entries| ==> r.buses[i] == entries[i].bus
  {
    if |entries| == 0 then NoArrivalInfo else StopArrivals(entries[0].stop, Map(entries, (e: ArrivalInfo) => e.bus))
  }

  /** `retrieveBusLocations`: the stop of every location, in order. It
      always queries the TAGO provider, Seoul included. */
  function RetrieveBusLocations(locations: seq<BusLocation>): (r: seq<BusStopInfo>)
    ensures |r| == |locations|
    ensures forall i :: 0 <= i < |locations| ==> r[i] == locations[i].stop
  {
    Map(locations, (l: BusLocation) => l.stop)
  }
}
