/**
 Request classification: the static bearer-token check, then the exact paths in
 the order the handler tries them, then the `/area-result` prefix and its regular
 expression `^/area-result/([a-zA-Z0-9-]+)$`. Only GET requests reach an endpoint.
 */
module Routing {
  import opened Wrappers

  const BearerToken := "bearer dGhlc2VjcmV0dG9rZW4="
  const AreaResultPrefix := "/area-result"
  const PollPrefix := "/area-result/"

  /** Where a request goes; `AreaResultRoute` carries the regex capture, `None` when it did not match. */
  datatype Endpoint =
    | Denied
    | CitiesByTagRoute
    | DistanceRoute
    | AreaRoute
    | AreaResultRoute(capture: Option<string>)
    | AllCitiesRoute
    | NoRoute

  predicate StartsWith(s: string, prefix: string) {
    |prefix| <= |s| && s[..|prefix|] == prefix
  }

  /** The character class `[a-zA-Z0-9-]`. */
  predicate IsIdChar(ch: char) {
    ('a' <= ch <= 'z') || ('A' <= ch <= 'Z') || ('0' <= ch <= '9') || ch == '-'
  }

  /** `[a-zA-Z0-9-]+` spanning the whole of `s`: at least one character, all from the class. */
  predicate IdCharsPlus(s: string) {
    |s| > 0 && forall i :: 0 <= i < |s| ==> IsIdChar(s[i])
  }

  /** `path.match(/^\/area-result\/([a-zA-Z0-9-]+)$/)`, answering the capture group. */
  function MatchAreaResult(path: string): Option<string> {
    if StartsWith(path, PollPrefix) && IdCharsPlus(path[|PollPrefix|..]) then Some(path[|PollPrefix|..])
    else None
  }

  /** The regex accepts exactly `/area-result/` followed by one or more class characters and nothing else. */
  lemma MatchAreaResultExact(path: string, id: string)
    ensures MatchAreaResult(path) == Some(id) <==>
      path == PollPrefix + id && |id| > 0 && forall i :: 0 <= i < |id| ==> IsIdChar(id[i])
  {
    if path == PollPrefix + id {
      assert path[..|PollPrefix|] == PollPrefix && path[|PollPrefix|..] == id;
    }
    if MatchAreaResult(path) == Some(id) {
      assert path == path[..|PollPrefix|] + path[|PollPrefix|..];
    }
  }

  /** The handler's dispatch: authorization first, then each route in source order. */
  function Route(authorization: Option<string>, verb: string, path: string): (e: Endpoint)
    ensures e == Denied <==> authorization != Some(BearerToken)
    ensures e.AreaResultRoute? <==>
      authorization == Some(BearerToken) && verb == "GET" && StartsWith(path, AreaResultPrefix)
    ensures e.AreaResultRoute? ==> e.capture == MatchAreaResult(path)
    ensures e == CitiesByTagRoute <==>
      authorization == Some(BearerToken) && verb == "GET" && path == "/cities-by-tag"
    ensures e == DistanceRoute <==> authorization == Some(BearerToken) && verb == "GET" && path == "/distance"
    ensures e == AreaRoute <==> authorization == Some(BearerToken) && verb == "GET" && path == "/area"
    ensures e == AllCitiesRoute <==> authorization == Some(BearerToken) && verb == "GET" && path == "/all-cities"
    ensures e == NoRoute <==>
      authorization == Some(BearerToken) &&
      !(verb == "GET" &&
        (path in {"/cities-by-tag", "/distance", "/area", "/all-cities"} || StartsWith(path, AreaResultPrefix)))
    ensures verb != "GET" ==> e == Denied || e == NoRoute
  {
    // none of the exact paths begins with the poll prefix
    assert "/cities-by-tag"[1] != AreaResultPrefix[1] && "/distance"[1] != AreaResultPrefix[1];
    assert "/all-cities"[2] != AreaResultPrefix[2];
    // `!headers.authorization` rejects a missing or empty header before the comparison
    if authorization.None? || authorization.value == "" || authorization.value != BearerToken then Denied
    else if path == "/cities-by-tag" && verb == "GET" then CitiesByTagRoute
    else if path == "/distance" && verb == "GET" then DistanceRoute
    else if path == "/area" && verb == "GET" then AreaRoute
    else if StartsWith(path, AreaResultPrefix) && verb == "GET" then AreaResultRoute(MatchAreaResult(path))
    else if path == "/all-cities" && verb == "GET" then AllCitiesRoute
    else NoRoute
  }

  /**
   An authorized GET reaches the poll endpoint with operation id `id` exactly when the
   path is `/area-result/` followed by `id`, a non-empty run of `[a-zA-Z0-9-]`.
   */
  lemma PollPathAccepted(path: string, id: string)
    ensures Route(Some(BearerToken), "GET", path) == AreaResultRoute(Some(id)) <==>
      path == PollPrefix + id && |id| > 0 && forall i :: 0 <= i < |id| ==> IsIdChar(id[i])
  {
    MatchAreaResultExact(path, id);
    if path == PollPrefix + id {
      assert path[..|AreaResultPrefix|] == AreaResultPrefix;
    }
  }
}
