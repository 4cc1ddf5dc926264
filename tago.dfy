/** The converters of the TAGO provider, the national public transport
    open-data service (`lib/helpers/tago.ts`). */
module Tago {
  import opened Wrappers
  import opened Text
  import opened BusTypes
  import opened Seqs
  import opened ProviderErrors

  /** The provider name `ensureNoXmlData` reports as unavailable: the
      `catch` block of every `fetch*` is `Rejection(thrown, PROVIDER_NAME)`. */
  const PROVIDER_NAME: string := "Tago"

  /** The `items` of a TAGO response body: '' when there is none, a bare
      object for exactly one, an array otherwise. */
  datatype Items<T> = NoItems | Single(item: T) | Many(items: seq<T>)

  /** The records `items` stands for, in order. */
  function Listed<T>(items: Items<T>): seq<T> {
    match items
    case NoItems => []
    case Single(item) => [item]
    case Many(all) => all
  }

  /** The normalisation every `fetch*` applies before converting. */
  function Normalize<T, U>(items: Items<T>, convert: T -> U): (r: seq<U>)
    ensures items.NoItems? ==> r == []
    ensures items.Single? ==> r == [convert(items.item)]
    ensures items.Many? ==> |r| == |items.items|
    ensures items.Many? ==> forall i :: 0 <= i < |r| ==> r[i] == convert(items.items[i])
  {
    match items
    case NoItems => []
    case Single(item) => [convert(item)]
    case Many(all) => Map(all, convert)
  }

  /** A bare item and a one-element array give the same list. */
  lemma SingleIsOneElementArray<T, U>(item: T, convert: T -> U)
    ensures Normalize(Single(item), convert) == Normalize(Many([item]), convert)
  {
  }

  /** `routeno`, which the API sends as a string or as a number. */
  datatype RouteNumber = AsString(text: string) | AsNumber(value: int)

  /** `${routeno}`. */
  function RouteName(routeNumber: RouteNumber): (r: string)
    ensures routeNumber.AsString? ==> r == routeNumber.text
    ensures routeNumber.AsNumber? && routeNumber.value >= 0 ==>
      IsNumeral(r) && DecimalValue(r) == routeNumber.value
  {
    match routeNumber
    case AsString(s) => s
    case AsNumber(n) =>
      if n >= 0 then
        DecimalValueOfNatToString(n);
        NatToString(n)
      else "-" + NatToString(-n)
  }

  datatype TagoStop = TagoStop(nodeid: string, nodenm: string, gpslati: real, gpslong: real, nodeno: Option<int>)

  datatype TagoRoute = TagoRoute(routeid: string, routeno: RouteNumber, routetp: string)

  /** A stop along a route: a stop with its position and its route. */
  datatype TagoSequentialStop = TagoSequentialStop(stop: TagoStop, nodeord: int, routeid: string)

  /** The coordinates of a bus location may be missing. */
  datatype TagoBusLocation = TagoBusLocation(
    routenm: string, routetp: string, vehicleno: string,
    nodeid: string, nodenm: string, nodeord: int,
    gpslati: Option<real>, gpslong: Option<real>)

  datatype TagoArrivalInfo = TagoArrivalInfo(
    arrprevstationcnt: int, arrtime: int, routeid: string, routeno: RouteNumber,
    routetp: string, vehicletp: string, nodeid: string, nodenm: string)

  /** `convertStop`: coordinates are (longitude, latitude). */
  function ConvertStop(stop: TagoStop): (r: BusStop)
    ensures r.code == stop.nodeid && r.name == stop.nodenm && r.number == stop.nodeno
    ensures r.coordinates.0 == stop.gpslong && r.coordinates.1 == stop.gpslati
  {
    BusStop(stop.nodeid, stop.nodenm, stop.nodeno, (stop.gpslong, stop.gpslati))
  }

  function ConvertRoute(route: TagoRoute): (r: BusRoute)
    ensures r.code == route.routeid && r.name == RouteName(route.routeno)
    ensures r.routeType == Some(route.routetp)
  {
    BusRoute(route.routeid, RouteName(route.routeno), Some(route.routetp))
  }

  /** `convertSequentialStop`: the converted stop, with its order and route. */
  function ConvertSequentialStop(stop: TagoSequentialStop): (r: SequentialStop)
    ensures var s := ConvertStop(stop.stop);
      r.code == s.code && r.name == s.name && r.number == s.number && r.coordinates == s.coordinates
    ensures r.order == stop.nodeord && r.routeCode == stop.routeid
  {
    var s := ConvertStop(stop.stop);
    SequentialStop(s.code, s.name, s.number, s.coordinates, stop.nodeord, stop.routeid)
  }

  /** A JavaScript number is truthy unless it is missing or 0. */
  predicate Truthy(x: Option<real>) {
    x.Some? && x.value != 0.0
  }

  /** `convertBusLocation`: coordinates only when both are truthy, so a 0
      counts as missing. */
  function ConvertBusLocation(location: TagoBusLocation): (r: BusLocation)
    ensures r.stop.coordinates.Some? <==> Truthy(location.gpslong) && Truthy(location.gpslati)
    ensures r.stop.coordinates.Some? ==>
      r.stop.coordinates.value == (location.gpslong.value, location.gpslati.value)
    ensures r.stop.code == location.nodeid && r.stop.name == location.nodenm && r.stop.order == location.nodeord
    ensures r.route == BusRouteInfo(location.routenm, location.routetp, location.vehicleno)
  {
    var coordinates := if Truthy(location.gpslong) && Truthy(location.gpslati)
      then Some((location.gpslong.value, location.gpslati.value)) else None;
    BusLocation(
      BusStopInfo(location.nodeid, location.nodenm, location.nodeord, coordinates),
      BusRouteInfo(location.routenm, location.routetp, location.vehicleno))
  }

  /** `convertArrivalInfo`. */
  function ConvertArrivalInfo(info: TagoArrivalInfo): (r: ArrivalInfo)
    ensures r.bus.arrivalTime == info.arrtime && r.bus.remainingStopCount == info.arrprevstationcnt
    ensures r.bus.code == info.routeid && r.bus.name == RouteName(info.routeno)
    ensures r.bus.routeType == Some(info.routetp) && r.bus.vehicleType == Some(info.vehicletp)
    ensures r.stop == StopInfo(info.nodeid, info.nodenm)
  {
    ArrivalInfo(
      BusArrivalInfo(info.routeid, RouteName(info.routeno), Some(info.routetp), Some(info.vehicletp),
        info.arrprevstationcnt, info.arrtime),
      StopInfo(info.nodeid, info.nodenm))
  }

  /** `fetchStops` and its siblings on the returned `items`: one converted
      record per record, in order. */
  function FetchStops(items: Items<TagoStop>): (r: seq<BusStop>)
    ensures |r| == |Listed(items)|
    ensures forall i :: 0 <= i < |r| ==> r[i] == ConvertStop(Listed(items)[i])
  {
    Normalize(items, ConvertStop)
  }

  function FetchRoutesByStop(items: Items<TagoRoute>): (r: seq<BusRoute>)
    ensures |r| == |Listed(items)|
    ensures forall i :: 0 <= i < |r| ==> r[i] == ConvertRoute(Listed(items)[i])
  {
    Normalize(items, ConvertRoute)
  }

  function FetchStopsByRoute(items: Items<TagoSequentialStop>): (r: seq<SequentialStop>)
    ensures |r| == |Listed(items)|
    ensures forall i :: 0 <= i < |r| ==> r[i] == ConvertSequentialStop(Listed(items)[i])
  {
    Normalize(items, ConvertSequentialStop)
  }

  function FetchBusLocationsByRoute(items: Items<TagoBusLocation>): (r: seq<BusLocation>)
    ensures |r| == |Listed(items)|
    ensures forall i :: 0 <= i < |r| ==> r[i] == ConvertBusLocation(Listed(items)[i])
  {
    Normalize(items, ConvertBusLocation)
  }

  function FetchArrivalInfoByStop(items: Items<TagoArrivalInfo>): (r: seq<ArrivalInfo>)
    ensures |r| == |Listed(items)|
    ensures forall i :: 0 <= i < |r| ==> r[i] == ConvertArrivalInfo(Listed(items)[i])
  {
    Normalize(items, ConvertArrivalInfo)
  }
}
