/** Records shared by the bus service, the provider converters and the
    notifier handlers (the `Types` namespace of the repository), and the
    HTTP error classes every layer throws. */
module BusTypes {
  import opened Wrappers

  /** `[longitude, latitude]`. */
  type Coordinates = (real, real)

  datatype StopInfo = StopInfo(code: string, name: string)

  datatype BusStop = BusStop(code: string, name: string, number: Option<int>, coordinates: Coordinates)

  datatype BusRoute = BusRoute(code: string, name: string, routeType: Option<string>)

  /** A stop on a route, with its position `order` along the route. */
  datatype SequentialStop = SequentialStop(
    code: string, name: string, number: Option<int>, coordinates: Coordinates,
    order: int, routeCode: string)

  datatype BusStopInfo = BusStopInfo(code: string, name: string, order: int, coordinates: Option<Coordinates>)

  datatype BusRouteInfo = BusRouteInfo(name: string, routeType: string, vehicleNumber: string)

  datatype BusLocation = BusLocation(stop: BusStopInfo, route: BusRouteInfo)

  /** One approaching bus; `arrivalTime` is in seconds. */
  datatype BusArrivalInfo = BusArrivalInfo(
    code: string, name: string, routeType: Option<string>, vehicleType: Option<string>,
    remainingStopCount: int, arrivalTime: int)

  datatype ArrivalInfo = ArrivalInfo(bus: BusArrivalInfo, stop: StopInfo)

  /** `NoArrivalInfo` is the empty object `{}` the service returns when a
      provider reports no bus at all. */
  datatype StopArrivalInfo = NoArrivalInfo | StopArrivals(stop: StopInfo, buses: seq<BusArrivalInfo>)

  /** The error classes of the errors package, each carrying an HTTP status. */
  datatype HttpError =
    | BadRequest(message: string)
    | Unauthorized(message: string)
    | Forbidden(message: string)
    | Conflict(message: string)
    | ServiceUnavailable(message: string)
  {
    function Code(): (c: int)
      ensures 400 <= c < 600
      ensures BadRequest? <==> c == 400
      ensures Unauthorized? <==> c == 401
      ensures Forbidden? <==> c == 403
      ensures Conflict? <==> c == 409
      ensures ServiceUnavailable? <==> c == 503
    {
      match this
      case BadRequest(_) => 400
      case Unauthorized(_) => 401
      case Forbidden(_) => 403
      case Conflict(_) => 409
      case ServiceUnavailable(_) => 503
    }
  }

  /** What a provider call can reject with: one of the HTTP error classes,
      or any other `Error` instance (a network failure, a type error). */
  datatype Failure = Http(error: HttpError) | OtherError
}
