/**
 Area-query operation records, how the poll endpoint reads one by id, and how it
 maps the record's status to an outcome.

 The registry is a plain JavaScript object literal. Reading `operations[id]` on it
 also finds the members every object inherits from `Object.prototype`, and the poll
 handler does not return after rejecting a malformed path; both behaviours are
 modelled as written (`LookupAsWritten`, `PollResponseAsWritten`) next to the
 corrected reading (`Lookup`, `PollResponse`) that the server model uses.
 */
module Operations {
  import opened Wrappers
  import opened Cities
  import opened Routing
  import opened Responses

  /** Every area request uses this one hard-coded id. */
  const OperationId := "2152f96f-50c7-4d76-9e18-f7033bd14428"

  /** A registry entry: its `status` text, its `cities` field and its `message` field (either may be absent). */
  datatype Operation = Operation(status: string, cities: Option<seq<City>>, message: Option<string>)

  const Pending := Operation("pending", Some([]), None)
  const CityNotFound := Operation("error", None, Some("City not found"))

  function Completed(found: seq<City>): Operation {
    Operation("completed", Some(found), None)
  }

  /** The three shapes the server ever writes into the registry. */
  predicate WellFormed(op: Operation) {
    op == Pending || op == CityNotFound || (op.status == "completed" && op.cities.Some? && op.message.None?)
  }

  /** What `operations[id]` evaluates to. */
  datatype Entry = Stored(op: Operation) | Inherited(name: string) | Absent

  /** The members of `Object.prototype`, which a plain object literal inherits. */
  const ObjectPrototypeMembers: set<string> := {
    "constructor", "hasOwnProperty", "isPrototypeOf", "propertyIsEnumerable",
    "toLocaleString", "toString", "valueOf",
    "__defineGetter__", "__defineSetter__", "__lookupGetter__", "__lookupSetter__", "__proto__"
  }

  /** `operations[id]` on the object literal: own entries first, then the inherited members. */
  function LookupAsWritten(operations: map<string, Operation>, id: string): Entry {
    if id in operations then Stored(operations[id])
    else if id in ObjectPrototypeMembers then Inherited(id)
    else Absent
  }

  /** An own-key lookup, as `Object.hasOwn` or a `Map` would give. */
  function Lookup(operations: map<string, Operation>, id: string): Entry {
    if id in operations then Stored(operations[id]) else Absent
  }

  /** The `!operation` test and the `switch (operation.status)`; an inherited member has no `status`. */
  function PollEntry(e: Entry): Outcome {
    match e
    case Absent => OperationNotFound
    case Inherited(_) => UnknownStatus
    case Stored(op) =>
      if op.status == "pending" then Processing
      else if op.status == "completed" then AreaResult(op.cities)
      else if op.status == "error" then ProcessingError
      else UnknownStatus
  }

  /**
   The poll endpoint as written: on a path the regex rejects it writes 404 but goes
   on to read `match[1]` of `null`, which throws out of the request listener.
   */
  function PollResponseAsWritten(operations: map<string, Operation>, capture: Option<string>): Outcome {
    match capture
    case None => Crashed
    case Some(id) => PollEntry(LookupAsWritten(operations, id))
  }

  /** The poll endpoint as intended: return after the 404, and look ids up among own keys only. */
  function PollResponse(operations: map<string, Operation>, capture: Option<string>): Outcome {
    match capture
    case None => NotFound
    case Some(id) => PollEntry(Lookup(operations, id))
  }

  /**
   Finding: every path that reaches the poll endpoint but fails the regex brings the
   server down; the bare prefix and the prefix with an empty id are two of them.
   */
  lemma MalformedPollCrashesAsWritten(operations: map<string, Operation>, path: string)
    ensures PollResponseAsWritten(operations, MatchAreaResult(path)) == Crashed <==> MatchAreaResult(path).None?
    ensures PollResponseAsWritten(operations, MatchAreaResult("/area-result/")) == Crashed
    ensures PollResponseAsWritten(operations, MatchAreaResult("/area-result")) == Crashed
  {
    MatchAreaResultExact("/area-result/", "");
    assert MatchAreaResult("/area-result/") == None;
  }

  /**
   Finding: polling an id named after an inherited member that was never written
   reports "Unknown status" (404), not "Operation not found"; `constructor` is one
   such id that the poll regex admits. The `default` branch is otherwise reached
   only by a stored entry whose status is none of the three known ones.
   */
  lemma PrototypeIdPollAsWritten(operations: map<string, Operation>, id: string)
    ensures id in ObjectPrototypeMembers && id !in operations ==>
      PollResponseAsWritten(operations, Some(id)) == UnknownStatus &&
      StatusCode(PollResponseAsWritten(operations, Some(id))) == 404
    ensures id in operations ==>
      (PollResponseAsWritten(operations, Some(id)) == UnknownStatus <==>
        operations[id].status !in {"pending", "completed", "error"})
    ensures MatchAreaResult("/area-result/constructor") == Some("constructor")
    ensures PollResponseAsWritten(map[], Some("constructor")) == UnknownStatus
  {
    MatchAreaResultExact("/area-result/constructor", "constructor");
    assert "/area-result/constructor" == PollPrefix + "constructor";
  }

  /** Corrected poll: never crashes, and answers "Not Found" exactly when the path is malformed. */
  lemma PollResponseNeverCrashes(operations: map<string, Operation>, path: string)
    ensures PollResponse(operations, MatchAreaResult(path)) != Crashed
    ensures PollResponse(operations, MatchAreaResult(path)) == NotFound <==> MatchAreaResult(path).None?
  {
  }

  /** Corrected poll: an id that was never written is "Operation not found", whatever its spelling. */
  lemma PollResponseUnknownId(operations: map<string, Operation>, id: string)
    ensures PollResponse(operations, Some(id)) == OperationNotFound <==> id !in operations
  {
  }

  /**
   On a registry holding only entries the server writes, a poll never reports
   "Unknown status": pending is 202, completed is 200 with the stored cities, error is 500.
   */
  lemma PollWellFormed(operations: map<string, Operation>, id: string)
    requires forall k :: k in operations ==> WellFormed(operations[k])
    ensures PollResponse(operations, Some(id)) != UnknownStatus
    ensures id in operations ==>
      var o := PollResponse(operations, Some(id));
      var op := operations[id];
      (o == Processing <==> op == Pending) &&
      (o == ProcessingError <==> op == CityNotFound) &&
      (o.AreaResult? <==> op.status == "completed") &&
      (o.AreaResult? ==> o.found == op.cities && o.found.Some?)
  {
  }

  /** The results URL the area endpoint hands out leads the poll endpoint back to the same id. */
  lemma ResultsPathRoundTrip()
    ensures MatchAreaResult(PollPrefix + OperationId) == Some(OperationId)
  {
    MatchAreaResultExact(PollPrefix + OperationId, OperationId);
  }
}
