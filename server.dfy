/**
 The HTTP handler and its one piece of mutable state, the operation registry.

 `AreaService` holds the immutable dataset, the distance and `parseFloat`
 collaborators, the registry `operations`, and `timers`: the completions that
 `setTimeout` has scheduled and not yet run. All of them use the same delay, so
 they run in the order they were scheduled; `CompleteNext` runs the oldest one.
 */
module Server {
  import opened Wrappers
  import opened Arrays
  import opened Cities
  import opened Routing
  import opened Responses
  import opened Operations

  /** The query parameters the endpoints read; an absent parameter is `None`. */
  datatype Query = Query(
    tag: Option<string>,
    isActive: Option<string>,
    from: Option<string>,
    to: Option<string>,
    distance: Option<string>)

  datatype Request = Request(
    authorization: Option<string>,
    host: Option<string>,
    verb: string,
    path: string,
    query: Query)

  /** A scheduled timer callback: write `completed` with `found` under `operationId`. */
  datatype Completion = Completion(operationId: string, found: seq<City>)

  class AreaService {
    const cities: seq<City>
    const dist: DistanceFn
    /** `parseFloat`; `None` stands for `NaN`. */
    const parseFloat: Option<string> -> Option<real>

    var operations: map<string, Operation>
    var timers: seq<Completion>

    /**
     Every registry entry has one of the shapes the server writes, and every result,
     stored or still scheduled, is drawn from the dataset in dataset order. The only
     id ever written or scheduled is the constant `OperationId`.
     */
    ghost predicate Valid()
      reads this
    {
      && (forall id :: id in operations ==>
            WellFormed(operations[id]) &&
            (operations[id].status == "completed" ==> IsSubsequence(operations[id].cities.value, cities)))
      && (forall i :: 0 <= i < |timers| ==> IsSubsequence(timers[i].found, cities))
      && (forall id :: id in operations ==> id == OperationId)
      && (forall i :: 0 <= i < |timers| ==> timers[i].operationId == OperationId)
    }

    constructor (cities: seq<City>, dist: DistanceFn, parseFloat: Option<string> -> Option<real>)
      ensures Valid()
      ensures this.cities == cities && this.dist == dist && this.parseFloat == parseFloat
      ensures operations == map[] && timers == []
    {
      this.cities := cities;
      this.dist := dist;
      this.parseFloat := parseFloat;
      operations := map[];
      timers := [];
    }

    /**
     `processAreaRequest`: an unknown origin writes the error entry at once and
     schedules nothing; a known one schedules the completed write with the area result.
     */
    method ProcessAreaRequest(fromGuid: Option<string>, maxDistance: Option<string>, operationId: string)
      requires Valid()
      requires operationId == OperationId  // its one caller, the `/area` handler, passes the constant
      modifies this
      ensures Valid()
      ensures FindByGuid(cities, fromGuid).None? ==>
        operations == old(operations)[operationId := CityNotFound] && timers == old(timers)
      ensures FindByGuid(cities, fromGuid).Some? ==>
        operations == old(operations) &&
        timers == old(timers) + [Completion(operationId,
          AreaMatches(cities, FindByGuid(cities, fromGuid).value, parseFloat(maxDistance), dist))]
    {
      var fromCity := FindByGuid(cities, fromGuid);
      var maxKm := parseFloat(maxDistance);
      if fromCity.None? {
        operations := operations[operationId := CityNotFound];
        return;
      }
      var nearby := AreaMatches(cities, fromCity.value, maxKm, dist);
      FilterIsSubsequence(cities, AreaSelector(fromCity.value, maxKm, dist));
      timers := timers + [Completion(operationId, nearby)];
    }

    /** The `/area` endpoint: register the pending entry, process the request, answer 202 with the poll URL. */
    method SubmitArea(from: Option<string>, distance: Option<string>, host: Option<string>) returns (o: Outcome)
      requires Valid()
      modifies this
      ensures Valid()
      ensures o == AreaAccepted(ResultsUrl(host, OperationId)) && StatusCode(o) == 202
      ensures operations ==
        old(operations)[OperationId := if FindByGuid(cities, from).None? then CityNotFound else Pending]
      ensures FindByGuid(cities, from).None? ==> timers == old(timers)
      ensures FindByGuid(cities, from).Some? ==>
        timers == old(timers) + [Completion(OperationId,
          AreaMatches(cities, FindByGuid(cities, from).value, parseFloat(distance), dist))]
    {
      operations := operations[OperationId := Pending];
      ProcessAreaRequest(from, distance, OperationId);
      o := AreaAccepted(ResultsUrl(host, OperationId));
    }

    /** The oldest timer fires and overwrites its entry with `completed`, whatever the entry held. */
    method CompleteNext()
      requires Valid()
      requires timers != []
      modifies this
      ensures Valid()
      ensures operations == old(operations)[old(timers)[0].operationId := Completed(old(timers)[0].found)]
      ensures timers == old(timers)[1..]
    {
      var t := timers[0];
      operations := operations[t.operationId := Completed(t.found)];
      timers := timers[1..];
    }

    /**
     The `/area-result/:id` endpoint on the regex capture: a malformed path is 404,
     an unknown id "Operation not found", and otherwise the entry's status decides.
     */
    method Poll(capture: Option<string>) returns (o: Outcome)
      requires Valid()
      ensures o == PollResponse(operations, capture)
      ensures capture.None? <==> o == NotFound
      ensures capture.Some? && capture.value !in operations ==> o == OperationNotFound
      ensures capture.Some? && capture.value != OperationId ==> o == OperationNotFound
      ensures capture.Some? && capture.value in operations ==>
        var op := operations[capture.value];
        (op.status == "pending" ==> o == Processing && StatusCode(o) == 202) &&
        (op.status == "completed" ==> o == AreaResult(op.cities) && op.cities.Some? && StatusCode(o) == 200) &&
        (op.status == "error" ==> o == ProcessingError && StatusCode(o) == 500)
      ensures o != UnknownStatus && o != Crashed
    {
      o := PollResponse(operations, capture);
    }

    /** The request listener: authorization, then dispatch to the endpoint. */
    method Handle(req: Request) returns (o: Outcome)
      requires Valid()
      modifies this
      ensures Valid()
      ensures Route(req.authorization, req.verb, req.path) != AreaRoute ==>
        operations == old(operations) && timers == old(timers)
      ensures match Route(req.authorization, req.verb, req.path)
        case Denied => o == Unauthorized
        case CitiesByTagRoute => o == TaggedCities(TagMatches(cities, req.query.tag, req.query.isActive))
        case DistanceRoute => o == DistanceResponse(cities, req.query.from, req.query.to, dist)
        case AreaRoute =>
          o == AreaAccepted(ResultsUrl(req.host, OperationId)) &&
          operations == old(operations)[OperationId :=
            if FindByGuid(cities, req.query.from).None? then CityNotFound else Pending] &&
          timers == old(timers) + (if FindByGuid(cities, req.query.from).None? then [] else
            [Completion(OperationId, AreaMatches(cities, FindByGuid(cities, req.query.from).value,
                                                 parseFloat(req.query.distance), dist))])
        case AreaResultRoute(capture) => o == PollResponse(operations, capture)
        case AllCitiesRoute => o == AllCities(cities)
        case NoRoute => o == NotFound
    {
      match Route(req.authorization, req.verb, req.path)
      case Denied =>
        o := Unauthorized;
      case CitiesByTagRoute =>
        o := TaggedCities(TagMatches(cities, req.query.tag, req.query.isActive));
      case DistanceRoute =>
        o := DistanceResponse(cities, req.query.from, req.query.to, dist);
      case AreaRoute =>
        o := SubmitArea(req.query.from, req.query.distance, req.host);
      case AreaResultRoute(capture) =>
        o := Poll(capture);
      case AllCitiesRoute =>
        o := AllCities(cities);
      case NoRoute =>
        o := NotFound;
    }
  }

  /**
   Submit an area request to a fresh server and poll its id at once, then again
   after every scheduled completion has run. A known origin is first pending and
   then completed with the area result; an unknown origin is already an error
   when the submit returns, and stays one.
   */
  method SubmitThenPoll(
    cities: seq<City>, dist: DistanceFn, parseFloat: Option<string> -> Option<real>,
    from: Option<string>, distance: Option<string>)
    returns (immediate: Outcome, eventual: Outcome)
    ensures FindByGuid(cities, from).Some? ==>
      immediate == Processing &&
      eventual == AreaResult(Some(AreaMatches(cities, FindByGuid(cities, from).value, parseFloat(distance), dist)))
    ensures FindByGuid(cities, from).None? ==> immediate == ProcessingError && eventual == ProcessingError
  {
    var server := new AreaService(cities, dist, parseFloat);
    var _ := server.SubmitArea(from, distance, None);
    immediate := server.Poll(Some(OperationId));
    if server.timers != [] {
      server.CompleteNext();
    }
    eventual := server.Poll(Some(OperationId));
  }

  /**
   Because every area request shares one id, a second request with an unknown
   origin is overwritten by the first request's scheduled completion: whoever polls
   the second request's URL receives the first request's cities.
   */
  method SharedIdOverwrite(
    cities: seq<City>, dist: DistanceFn, parseFloat: Option<string> -> Option<real>,
    first: Option<string>, firstDistance: Option<string>,
    second: Option<string>, secondDistance: Option<string>)
    returns (beforeTimer: Outcome, afterTimer: Outcome)
    requires FindByGuid(cities, first).Some?
    requires FindByGuid(cities, second).None?
    ensures beforeTimer == ProcessingError
    ensures afterTimer ==
      AreaResult(Some(AreaMatches(cities, FindByGuid(cities, first).value, parseFloat(firstDistance), dist)))
  {
    var server := new AreaService(cities, dist, parseFloat);
    var _ := server.SubmitArea(first, firstDistance, None);
    var _ := server.SubmitArea(second, secondDistance, None);
    beforeTimer := server.Poll(Some(OperationId));
    server.CompleteNext();
    afterTimer := server.Poll(Some(OperationId));
  }
}
