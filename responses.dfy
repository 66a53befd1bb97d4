/**
 What a request gets back, as an abstract outcome instead of bytes on the wire,
 and the pure distance endpoint.
 */
module Responses {
  import opened Wrappers
  import opened Cities

  const Protocol := "http"

  datatype Outcome =
    | Unauthorized                                // 401 "Unauthorized"
    | TaggedCities(cities: seq<City>)             // 200 { cities }
    | DistanceReport(from: City, to: City, km: real) // 200 { from, to, unit: "km", distance }
    | CitiesNotFound                              // 404 "Cities not found"
    | AreaAccepted(resultsUrl: string)            // 202 { resultsUrl }
    | Processing                                  // 202 "Processing"
    | AreaResult(found: Option<seq<City>>)        // 200 { cities }; an absent field serialises as {}
    | ProcessingError                             // 500 "Error processing request"
    | UnknownStatus                               // 404 "Unknown status"
    | OperationNotFound                           // 404 "Operation not found"
    | AllCities(cities: seq<City>)                // 200, the whole dataset as an attachment
    | NotFound                                    // 404 "Not Found"
    | Crashed                                     // 404 "Not Found" written, then an uncaught TypeError

  function StatusCode(o: Outcome): int {
    match o
    case Unauthorized => 401
    case TaggedCities(_) => 200
    case DistanceReport(_, _, _) => 200
    case CitiesNotFound => 404
    case AreaAccepted(_) => 202
    case Processing => 202
    case AreaResult(_) => 200
    case ProcessingError => 500
    case UnknownStatus => 404
    case OperationNotFound => 404
    case AllCities(_) => 200
    case NotFound => 404
    case Crashed => 404
  }

  /** A template literal renders a missing `Host` header as the text "undefined". */
  function HostText(host: Option<string>): string {
    if host.Some? then host.value else "undefined"
  }

  function ResultsUrl(host: Option<string>, operationId: string): string {
    Protocol + "://" + HostText(host) + "/area-result/" + operationId
  }

  /** The distance endpoint: both guids must resolve (first match each), otherwise 404. */
  function DistanceResponse(cities: seq<City>, from: Option<string>, to: Option<string>, dist: DistanceFn): Outcome {
    var fromCity := FindByGuid(cities, from);
    var toCity := FindByGuid(cities, to);
    if fromCity.Some? && toCity.Some? then
      DistanceReport(fromCity.value, toCity.value, Distance(dist, fromCity.value, toCity.value))
    else
      CitiesNotFound
  }

  /**
   The distance endpoint answers 200 exactly when both guids occur in the dataset,
   reporting the first city carrying each requested guid and the distance between
   them; otherwise it answers 404.
   */
  lemma DistanceResponseResolves(cities: seq<City>, from: Option<string>, to: Option<string>, dist: DistanceFn)
    ensures StatusCode(DistanceResponse(cities, from, to, dist)) == 200 <==>
      (exists i :: 0 <= i < |cities| && from == Some(cities[i].guid)) &&
      (exists j :: 0 <= j < |cities| && to == Some(cities[j].guid))
    ensures DistanceResponse(cities, from, to, dist).DistanceReport? ==>
      var r := DistanceResponse(cities, from, to, dist);
      from == Some(r.from.guid) && to == Some(r.to.guid) && r.from in cities && r.to in cities &&
      r.from == FindByGuid(cities, from).value && r.to == FindByGuid(cities, to).value &&
      r.km == Distance(dist, r.from, r.to)
    ensures !DistanceResponse(cities, from, to, dist).DistanceReport? ==>
      DistanceResponse(cities, from, to, dist) == CitiesNotFound
  {
    FindByGuidFirst(cities, from);
    FindByGuidFirst(cities, to);
  }
}
