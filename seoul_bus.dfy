/** The converters of the Seoul bus provider (`lib/helpers/seoulBus.ts`):
    the records of the Seoul open-data API as the common bus records. */
module SeoulBus {
  import opened Wrappers
  import opened Text
  import opened BusTypes
  import opened Seqs
  import opened ProviderErrors

  /** The provider name `ensureNoXmlData` reports as unavailable: the
      `catch` block of every `fetch*` is `Rejection(thrown, PROVIDER_NAME)`. */
  const PROVIDER_NAME: string := "Seoul bus"

  /** The numeric string fields of the Seoul API. */
  type DigitString = s: string | AllDigits(s)

  /** `+s` on a digit string ('' gives 0). */
  function Num(s: DigitString): nat {
    DecimalValue(s)
  }

  datatype SeoulStop = SeoulStop(arsId: DigitString, stNm: string, tmX: real, tmY: real)

  datatype SeoulRoute = SeoulRoute(busRouteId: string, busRouteNm: string, busRouteType: DigitString)

  datatype SeoulSequentialStop = SeoulSequentialStop(
    arsId: DigitString, stationNm: string, gpsX: real, gpsY: real,
    /** The `seq` field: the position along the route. */
    sequence: DigitString, busRouteId: string)

  /** One record of the arrivals at a stop: the next two buses of one route. */
  datatype SeoulArrivalInfo = SeoulArrivalInfo(
    arsId: string, stNm: string, busRouteId: string, rtNm: string, routeType: DigitString,
    staOrd: DigitString,
    sectOrd1: DigitString, traTime1: DigitString, busType1: DigitString,
    sectOrd2: DigitString, traTime2: DigitString, busType2: DigitString)

  /** At most this many stations are returned by a search. */
  const MAX_STOPS: nat := 10

  const ROUTE_TYPES: seq<string> := ["공항", "마을", "간선", "지선", "순환", "광역", "인천", "경기", "폐지", "공용"]
  const VEHICLE_TYPES: seq<string> := ["일반버스", "저상버스", "굴절버스", "경기도버스"]

  /** `routeTypes[typeNumber]`, undefined outside the table. */
  function ToRouteType(typeNumber: int): (r: Option<string>)
    ensures r.Some? <==> 0 <= typeNumber < 10
    ensures r.Some? ==> r.value in ROUTE_TYPES && r.value == ROUTE_TYPES[typeNumber]
  {
    if 0 <= typeNumber < |ROUTE_TYPES| then Some(ROUTE_TYPES[typeNumber]) else None
  }

  /** `vehicleTypes[typeNumber]`, undefined outside the table. */
  function ToVehicleType(typeNumber: int): (r: Option<string>)
    ensures r.Some? <==> 0 <= typeNumber < 4
    ensures r.Some? ==> r.value in VEHICLE_TYPES && r.value == VEHICLE_TYPES[typeNumber]
  {
    if 0 <= typeNumber < |VEHICLE_TYPES| then Some(VEHICLE_TYPES[typeNumber]) else None
  }

  /** The route type codes are numbered from 1. */
  lemma RouteTypeCodes(route: SeoulRoute)
    ensures ConvertRoute(route).routeType.Some? <==> 1 <= Num(route.busRouteType) <= 10
    ensures 1 <= Num(route.busRouteType) <= 10 ==>
      ConvertRoute(route).routeType == Some(ROUTE_TYPES[Num(route.busRouteType) - 1])
    ensures Num(route.busRouteType) == 1 ==> ConvertRoute(route).routeType == Some("공항")
    ensures Num(route.busRouteType) == 3 ==> ConvertRoute(route).routeType == Some("간선")
    ensures Num(route.busRouteType) == 4 ==> ConvertRoute(route).routeType == Some("지선")
    ensures Num(route.busRouteType) == 10 ==> ConvertRoute(route).routeType == Some("공용")
  {
  }

  function ConvertStop(stop: SeoulStop): (r: BusStop)
    ensures r.code == stop.arsId && r.name == stop.stNm
    ensures r.number == Some(Num(stop.arsId))
    ensures r.coordinates == (stop.tmX, stop.tmY)
  {
    BusStop(stop.arsId, stop.stNm, Some(Num(stop.arsId)), (stop.tmX, stop.tmY))
  }

  /** The stop number is the stop code read as a number, so a code without
      a leading zero is the number's decimal text. */
  lemma StopNumberMatchesCode(stop: SeoulStop)
    requires stop.arsId != "" && stop.arsId[0] != '0'
    ensures NatToString(ConvertStop(stop).number.value) == ConvertStop(stop).code
  {
    NumberOfNumeral(stop.arsId);
  }

  /** `fetchStops` on the returned `itemList`: the first ten stations, in
      order, none for a null list. */
  function FetchStops(itemList: Option<seq<SeoulStop>>): (r: seq<BusStop>)
    ensures itemList.None? ==> r == []
    ensures itemList.Some? ==>
      && |r| == (if |itemList.value| < MAX_STOPS then |itemList.value| else MAX_STOPS)
      && forall i :: 0 <= i < |r| ==> r[i] == ConvertStop(itemList.value[i])
  {
    match itemList
    case None => []
    case Some(items) => Map(Take(items, MAX_STOPS), ConvertStop)
  }

  function ConvertRoute(route: SeoulRoute): (r: BusRoute)
    ensures r.code == route.busRouteId && r.name == route.busRouteNm
    ensures r.routeType == ToRouteType(Num(route.busRouteType) - 1)
  {
    BusRoute(route.busRouteId, route.busRouteNm, ToRouteType(Num(route.busRouteType) - 1))
  }

  function FetchRoutesByStop(itemList: Option<seq<SeoulRoute>>): (r: seq<BusRoute>)
    ensures itemList.None? ==> r == []
    ensures itemList.Some? ==> |r| == |itemList.value|
    ensures itemList.Some? ==> forall i :: 0 <= i < |r| ==> r[i] == ConvertRoute(itemList.value[i])
  {
    match itemList
    case None => []
    case Some(items) => Map(items, ConvertRoute)
  }

  function ConvertSequentialStop(stop: SeoulSequentialStop): (r: SequentialStop)
    ensures r.code == stop.arsId && r.name == stop.stationNm && r.number == Some(Num(stop.arsId))
    ensures r.coordinates == (stop.gpsX, stop.gpsY)
    ensures r.order == Num(stop.sequence) && r.routeCode == stop.busRouteId
  {
    SequentialStop(stop.arsId, stop.stationNm, Some(Num(stop.arsId)), (stop.gpsX, stop.gpsY), Num(stop.sequence), stop.busRouteId)
  }

  function FetchStopsByRoute(itemList: Option<seq<SeoulSequentialStop>>): (r: seq<SequentialStop>)
    ensures itemList.None? ==> r == []
    ensures itemList.Some? ==> |r| == |itemList.value|
    ensures itemList.Some? ==> forall i :: 0 <= i < |r| ==> r[i] == ConvertSequentialStop(itemList.value[i])
  {
    match itemList
    case None => []
    case Some(items) => Map(items, ConvertSequentialStop)
  }

  /** `convertArrivalInfo`: the first bus of the record, and the second one
      unless its travel time is '0'. */
  function ConvertArrivalInfo(info: SeoulArrivalInfo): (r: seq<ArrivalInfo>)
    ensures 1 <= |r| <= 2
    ensures |r| == 2 <==> info.traTime2 != "0"
    ensures forall e :: e in r ==>
      && e.stop == StopInfo(info.arsId, info.stNm)
      && e.bus.code == info.busRouteId && e.bus.name == info.rtNm
      && e.bus.routeType == ToRouteType(Num(info.routeType) - 1)
    ensures r[0].bus.arrivalTime == Num(info.traTime1)
    ensures r[0].bus.remainingStopCount == Num(info.staOrd) - Num(info.sectOrd1)
    ensures r[0].bus.vehicleType == ToVehicleType(Num(info.busType1))
    ensures |r| == 2 ==>
      && r[1].bus.arrivalTime == Num(info.traTime2)
      && r[1].bus.remainingStopCount == Num(info.staOrd) - Num(info.sectOrd2)
      && r[1].bus.vehicleType == ToVehicleType(Num(info.busType2))
  {
    var stop := StopInfo(info.arsId, info.stNm);
    var routeType := ToRouteType(Num(info.routeType) - 1);
    var currentOrder := Num(info.staOrd);
    var first := ArrivalInfo(BusArrivalInfo(info.busRouteId, info.rtNm, routeType,
      ToVehicleType(Num(info.busType1)), currentOrder - Num(info.sectOrd1), Num(info.traTime1)), stop);
    if info.traTime2 != "0" then
      var second := ArrivalInfo(BusArrivalInfo(info.busRouteId, info.rtNm, routeType,
        ToVehicleType(Num(info.busType2)), currentOrder - Num(info.sectOrd2), Num(info.traTime2)), stop);
      [first, second]
    else
      [first]
  }

  /** A record is kept unless its first travel time is '0'. */
  predicate HasFirstBus(info: SeoulArrivalInfo) {
    info.traTime1 != "0"
  }

  /** `fetchArrivalInfoByStop` on the returned `itemList`. */
  function FetchArrivalInfoByStop(itemList: Option<seq<SeoulArrivalInfo>>): (r: seq<ArrivalInfo>)
    ensures itemList.None? ==> r == []
    ensures itemList.Some? ==> forall e :: e in r ==>
      exists i :: 0 <= i < |itemList.value| && HasFirstBus(itemList.value[i])
        && e in ConvertArrivalInfo(itemList.value[i])
  {
    match itemList
    case None => []
    case Some(items) =>
      var kept := Filter(items, HasFirstBus);
      var converted := Map(kept, ConvertArrivalInfo);
      var r := Flatten(converted);
      forall e | e in r
        ensures exists i :: 0 <= i < |items| && HasFirstBus(items[i]) && e in ConvertArrivalInfo(items[i])
      {
        var k :| 0 <= k < |converted| && e in converted[k];
        assert kept[k] in items;
        var i :| 0 <= i < |items| && items[i] == kept[k];
      }
      r
  }

  /** A record yields its own entries, or none when its first travel time
      is '0'. */
  lemma ArrivalInfoOfOneRecord(info: SeoulArrivalInfo)
    ensures FetchArrivalInfoByStop(Some([info])) ==
      if HasFirstBus(info) then ConvertArrivalInfo(info) else []
  {
    var kept := Filter([info], HasFirstBus);
    assert kept == if HasFirstBus(info) then [info] else [];
    var converted := Map(kept, ConvertArrivalInfo);
    if HasFirstBus(info) {
      assert converted == [ConvertArrivalInfo(info)];
      assert converted[1..] == [];
      assert Flatten(converted) == ConvertArrivalInfo(info) + [];
    }
  }

  /** The vehicle type of each announced bus is its `busType` code looked up
      from 0 in the vehicle table; a code past the table gives none. */
  lemma VehicleTypeCodes(info: SeoulArrivalInfo)
    ensures ConvertArrivalInfo(info)[0].bus.vehicleType ==
      (if Num(info.busType1) < |VEHICLE_TYPES| then Some(VEHICLE_TYPES[Num(info.busType1)]) else None)
    ensures info.traTime2 != "0" ==>
      ConvertArrivalInfo(info)[1].bus.vehicleType ==
        (if Num(info.busType2) < |VEHICLE_TYPES| then Some(VEHICLE_TYPES[Num(info.busType2)]) else None)
    ensures Num(info.busType1) == 1 ==> ConvertArrivalInfo(info)[0].bus.vehicleType == Some("저상버스")
  {
  }

  /** The records' entries come out in the records' order. */
  lemma ArrivalInfoInOrder(a: seq<SeoulArrivalInfo>, b: seq<SeoulArrivalInfo>)
    ensures FetchArrivalInfoByStop(Some(a + b)) ==
      FetchArrivalInfoByStop(Some(a)) + FetchArrivalInfoByStop(Some(b))
  {
    FilterAppend(a, b, HasFirstBus);
    MapAppend(Filter(a, HasFirstBus), Filter(b, HasFirstBus), ConvertArrivalInfo);
    FlattenAppend(Map(Filter(a, HasFirstBus), ConvertArrivalInfo), Map(Filter(b, HasFirstBus), ConvertArrivalInfo));
  }
}
