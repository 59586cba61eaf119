/** The API gateway's aggregating handlers: the unified read and update of a user, the
    user deletion with its `user.deleted` event, the CORS preflight and the configuration.

    Every upstream exchange is an oracle `upstream: Call -> UpstreamResult`; a handler returns
    the response it writes together with the requests it attempts (one whose construction
    failed, or the fire-and-forget `user.deleted` event, need not reach the network). The
    response writer's headers at entry (those the CORS layer set) are the parameter `h`. */
module Gateway {
  import opened Basics
  import opened Json
  import opened Headers
  import opened FieldRouting
  import opened ResponseMerge

  const StatusOK := 200
  const StatusBadRequest := 400
  const StatusUnauthorized := 401
  const StatusInternalServerError := 500
  const StatusServiceUnavailable := 503

  // ---------------------------------------------------------------- configuration

  datatype Config = Config(
    port: string,
    authServiceURL: string,
    profileServiceURL: string,
    orchestratorURL: string,
    jwtSecret: string)

  /** os.Getenv with a fallback: an unset variable reads as "", and "" selects the default. */
  function GetEnv(env: map<string, string>, key: string, defaultValue: string): (r: string)
    ensures key in env && env[key] != "" ==> r == env[key]
    ensures key !in env || env[key] == "" ==> r == defaultValue
  {
    if key in env && env[key] != "" then env[key] else defaultValue
  }

  /** The configuration read at start-up. */
  function LoadConfig(env: map<string, string>): Config
  {
    Config(
      GetEnv(env, "GATEWAY_PORT", "8000"),
      GetEnv(env, "AUTH_SERVICE_URL", "http://auth:3500"),
      GetEnv(env, "PROFILE_SERVICE_URL", "http://profiles:3600"),
      GetEnv(env, "ORCHESTRATOR_URL", "http://orchestrator:8080"),
      GetEnv(env, "JWT_SECRET", "mi_secreto_super_seguro"))
  }

  /** With no environment every setting takes its default, and no setting is ever empty. */
  lemma LoadConfigDefaults(env: map<string, string>)
    ensures LoadConfig(map[]) == Config("8000", "http://auth:3500", "http://profiles:3600",
                                        "http://orchestrator:8080", "mi_secreto_super_seguro")
    ensures var c := LoadConfig(env);
      c.port != "" && c.authServiceURL != "" && c.profileServiceURL != "" && c.orchestratorURL != "" && c.jwtSecret != ""
  {
  }

  // ---------------------------------------------------------------- requests and responses

  /** An inbound request. `body` is None when reading the body failed. */
  datatype Request = Request(verb: string, username: string, header: Headers, body: Option<Payload>)

  /** An outbound request to an upstream service; a None body is an empty one. */
  datatype Call = Call(verb: string, url: string, header: Headers, body: Option<Json>)

  /** How an upstream exchange ended: the request could not be built, the transport failed
      (or reading the reply did), or the service replied. */
  datatype UpstreamResult =
    | Unbuildable(err: string)
    | Failed(err: string)
    | Replied(status: int, header: Headers, body: Payload)
  {
    /** ServiceResponse.StatusCode, which stays 0 when no reply was read. */
    function StatusCode(): int
    {
      if Replied? then status else 0
    }
  }

  datatype Body =
    | NoBody
    | Raw(payload: Payload)   // bytes relayed verbatim
    | Text(text: string)      // http.Error's message line
    | Encoded(doc: Json)      // json.Encoder output of a document

  datatype Response = Response(status: int, header: Headers, body: Body)

  /** Header.Get: the first value under the key, or "". */
  function HeaderGet(h: Headers, key: string): string
  {
    if key in h && h[key] != [] then h[key][0] else ""
  }

  function Authorization(req: Request): string
  {
    HeaderGet(req.header, "Authorization")
  }

  /** http.Error: a plain-text message line with the given status. */
  function HttpError(h: Headers, msg: string, code: int): Response
  {
    Response(code, h["Content-Type" := ["text/plain; charset=utf-8"]]["X-Content-Type-Options" := ["nosniff"]],
             Text(msg + "\n"))
  }

  const AuthRequiredMessage := "{\"error\":\"Authorization header required\"}"

  // ---------------------------------------------------------------- CORS

  const CorsHeaders: Headers := map[
    "Access-Control-Allow-Origin" := ["*"],
    "Access-Control-Allow-Methods" := ["GET, POST, PUT, PATCH, DELETE, OPTIONS"],
    "Access-Control-Allow-Headers" := ["Content-Type, Authorization"]
  ]

  /** The CORS layer: set the three headers, answer a preflight itself, else run `next`. */
  function Cors(verb: string, h: Headers, next: Headers -> Response): Response
  {
    var h' := h + CorsHeaders;
    if verb == "OPTIONS" then Response(StatusOK, h', NoBody) else next(h')
  }

  /** A preflight gets 200 with the CORS headers and an empty body, whatever the handler would do. */
  lemma CorsPreflight(h: Headers, next: Headers -> Response, other: Headers -> Response)
    ensures Cors("OPTIONS", h, next) == Cors("OPTIONS", h, other)
    ensures Cors("OPTIONS", h, next).status == StatusOK && Cors("OPTIONS", h, next).body == NoBody
    ensures forall k | k in CorsHeaders :: k in Cors("OPTIONS", h, next).header && Cors("OPTIONS", h, next).header[k] == CorsHeaders[k]
  {
  }

  /** Any other method runs the handler, which starts from headers already holding the CORS values. */
  lemma CorsPassesThrough(verb: string, h: Headers, next: Headers -> Response)
    requires verb != "OPTIONS"
    ensures exists h' :: (Cors(verb, h, next) == next(h') && CorsHeaders.Keys <= h'.Keys &&
      (forall k | k in CorsHeaders :: h'[k] == CorsHeaders[k]) &&
      (forall k | k in h && k !in CorsHeaders :: k in h' && h'[k] == h[k]))
  {
    var h' := h + CorsHeaders;
    assert Cors(verb, h, next) == next(h');
  }

  // ---------------------------------------------------------------- unified read

  /** The two reads the unified read sends: the inbound method and headers, no body. */
  function ReadCalls(cfg: Config, req: Request): seq<Call>
  {
    [Call(req.verb, cfg.authServiceURL + "/accounts/" + req.username, Forwarded(req.header), None),
     Call(req.verb, cfg.profileServiceURL + "/profiles/" + req.username, Forwarded(req.header), None)]
  }

  /** The profile members usable for the merge: a 200 reply whose body decodes as an object
      (or `null`, which gives no members). */
  function ProfileData(res: UpstreamResult): Option<map<string, Json>>
  {
    if res.Replied? && res.status == StatusOK then
      match DecodeObject(res.body)
      case Some(doc) => Some(Members(doc))
      case None => None
    else None
  }

  /** The merged document: when profile data is usable and the document's `user` member is an
      object, that object gets the profile overlay; otherwise the document is unchanged. */
  function MergeInto(doc: Json, profile: Option<map<string, Json>>): Json
  {
    if profile.Some? && doc.JObject? && "user" in doc.members && doc.members["user"].JObject? then
      JObject(doc.members["user" := JObject(MergeUser(doc.members["user"].members, profile.value))])
    else doc
  }

  /** The unified read's decision once both replies are in. */
  function ReadOutcome(h: Headers, authRes: UpstreamResult, profileRes: UpstreamResult): Response
  {
    if !authRes.Replied? then HttpError(h, "Service unavailable", StatusServiceUnavailable)
    else if authRes.status != StatusOK then Response(authRes.status, h, Raw(authRes.body))
    else
      match DecodeObject(authRes.body)
      case None => HttpError(h, "Error processing response", StatusInternalServerError)
      case Some(doc) => Response(StatusOK, h["Content-Type" := ["application/json"]], Encoded(MergeInto(doc, ProfileData(profileRes))))
  }

  /** GET /users/{username}/profile: the response and the requests attempted. */
  function UnifiedRead(cfg: Config, req: Request, h: Headers, upstream: Call -> UpstreamResult): (Response, seq<Call>)
  {
    if Authorization(req) == "" then (HttpError(h, AuthRequiredMessage, StatusUnauthorized), [])
    else
      var calls := ReadCalls(cfg, req);
      (ReadOutcome(h, upstream(calls[0]), upstream(calls[1])), calls)
  }

  /** The results as they arrive, in the order the two replies came back. */
  function Arrival<T>(inOrder: seq<T>, reversed: bool): seq<T>
  {
    if reversed && |inOrder| == 2 then [inOrder[1], inOrder[0]] else inOrder
  }

  /** The collection loop: results keyed by service name, a later arrival under the same
      name replacing an earlier one. */
  method CollectResults(arrived: seq<(string, UpstreamResult)>) returns (results: map<string, UpstreamResult>)
    ensures forall k :: k in results <==> exists i | 0 <= i < |arrived| :: arrived[i].0 == k
    ensures forall i | 0 <= i < |arrived| && (forall j | i < j < |arrived| :: arrived[j].0 != arrived[i].0) ::
      results[arrived[i].0] == arrived[i].1
  {
    results := map[];
    for n := 0 to |arrived|
      invariant forall k :: k in results <==> exists i | 0 <= i < n :: arrived[i].0 == k
      invariant forall i | 0 <= i < n && (forall j | i < j < n :: arrived[j].0 != arrived[i].0) ::
        results[arrived[i].0] == arrived[i].1
    {
      results := results[arrived[n].0 := arrived[n].1];
    }
  }

  /** The two replies of the read, whichever arrived first, end up under their own names. */
  method CollectReadResults(authRes: UpstreamResult, profileRes: UpstreamResult, profileFirst: bool)
    returns (authResp: UpstreamResult, profileResp: UpstreamResult)
    ensures authResp == authRes && profileResp == profileRes
  {
    var arrived := Arrival([("auth", authRes), ("profile", profileRes)], profileFirst);
    var results := CollectResults(arrived);
    if profileFirst {
      assert arrived[1].0 == "auth" && arrived[0].0 == "profile";
    } else {
      assert arrived[0].0 == "auth" && arrived[1].0 == "profile";
    }
    authResp := results["auth"];
    profileResp := results["profile"];
  }

  /** The read's decision on the collected replies, merging the profile into `user` in place. */
  method DecideRead(h: Headers, authResp: UpstreamResult, profileResp: UpstreamResult) returns (resp: Response)
    ensures resp == ReadOutcome(h, authResp, profileResp)
  {
    if !authResp.Replied? {
      return HttpError(h, "Service unavailable", StatusServiceUnavailable);
    }
    if authResp.status != StatusOK {
      return Response(authResp.status, h, Raw(authResp.body));
    }
    var authData := DecodeObject(authResp.body);
    if authData.None? {
      return HttpError(h, "Error processing response", StatusInternalServerError);
    }
    var unified := authData.value;
    var profileData := ProfileData(profileResp);
    if profileData.Some? && unified.JObject? && "user" in unified.members && unified.members["user"].JObject? {
      var userObj := MergeProfileFields(unified.members["user"].members, profileData.value);
      unified := JObject(unified.members["user" := JObject(userObj)]);
    }
    resp := Response(StatusOK, h["Content-Type" := ["application/json"]], Encoded(unified));
  }

  /** The read handler, step by step: send both reads, collect the replies in arrival order,
      then decide. */
  method HandleGetUserUnified(cfg: Config, req: Request, h: Headers, upstream: Call -> UpstreamResult, profileFirst: bool)
    returns (resp: Response, calls: seq<Call>)
    ensures (resp, calls) == UnifiedRead(cfg, req, h, upstream)
  {
    if HeaderGet(req.header, "Authorization") == "" {
      return HttpError(h, AuthRequiredMessage, StatusUnauthorized), [];
    }
    var forwarded := AddAll(map[], req.header);
    var authCall := Call(req.verb, cfg.authServiceURL + "/accounts/" + req.username, forwarded, None);
    var profileCall := Call(req.verb, cfg.profileServiceURL + "/profiles/" + req.username, forwarded, None);
    calls := [authCall, profileCall];
    var authResp, profileResp := CollectReadResults(upstream(authCall), upstream(profileCall), profileFirst);
    resp := DecideRead(h, authResp, profileResp);
  }

  // ---------------------------------------------------------------- unified update

  /** Headers set on each update request (and copied by the proxy). */
  function UpdateHeaders(auth: string): Headers
  {
    map["Content-Type" := ["application/json"], "Authorization" := [auth]]
  }

  /** The update requests, each under its service name, in the order the handler starts them:
      PATCH to the auth service with the auth fields, PUT to the profile service with the
      translated profile fields; a service whose partition is empty is not called. */
  function UpdateCalls(cfg: Config, username: string, auth: string, authFields: map<string, Json>, profileFields: map<string, Json>)
    : seq<(string, Call)>
    requires AllProfileKeys(profileFields)
  {
    (if |authFields| > 0 then
       [("auth", Call("PATCH", cfg.authServiceURL + "/accounts/" + username, Forwarded(UpdateHeaders(auth)), Some(JObject(authFields))))]
     else []) +
    (if |profileFields| > 0 then
       [("profile", Call("PUT", cfg.profileServiceURL + "/profiles/me", Forwarded(UpdateHeaders(auth)), Some(JObject(Translate(profileFields)))))]
     else [])
  }

  /** Each started request paired with the exchange's outcome. */
  function Exchange(started: seq<(string, Call)>, upstream: Call -> UpstreamResult): (r: seq<(string, UpstreamResult)>)
    ensures |r| == |started|
    ensures forall i | 0 <= i < |r| :: r[i] == (started[i].0, upstream(started[i].1))
  {
    if started == [] then []
    else [(started[0].0, upstream(started[0].1))] + Exchange(started[1..], upstream)
  }

  /** The error line one collected result contributes, if any. */
  function ErrorFor(name: string, res: UpstreamResult): seq<string>
  {
    if res.Unbuildable? then [name + ": " + res.err]
    else if res.StatusCode() != StatusOK then [name + " returned status " + IntToString(res.StatusCode())]
    else []
  }

  /** The error lines of the collected results, in arrival order. */
  function ErrorsOf(arrived: seq<(string, UpstreamResult)>): seq<string>
  {
    if arrived == [] then []
    else ErrorsOf(arrived[..|arrived| - 1]) + ErrorFor(arrived[|arrived| - 1].0, arrived[|arrived| - 1].1)
  }

  function PartialFailureMessage(errors: seq<string>): string
  {
    "{\"error\":\"Partial update failed: " + Join(errors, "; ") + "\"}"
  }

  /** The requests of a list of started exchanges. */
  function CallsOf(started: seq<(string, Call)>): (r: seq<Call>)
    ensures |r| == |started|
    ensures forall i | 0 <= i < |r| :: r[i] == started[i].1
  {
    if started == [] then [] else [started[0].1] + CallsOf(started[1..])
  }

  /** After the updates were started: report any error lines, else answer with a fresh read. */
  function UpdateFinish(cfg: Config, req: Request, h: Headers, upstream: Call -> UpstreamResult, profileFirst: bool,
                        started: seq<(string, Call)>): (Response, seq<Call>)
  {
    var errors := ErrorsOf(Arrival(Exchange(started, upstream), profileFirst));
    if errors != [] then (HttpError(h, PartialFailureMessage(errors), StatusInternalServerError), CallsOf(started))
    else
      var (resp, reread) := UnifiedRead(cfg, req, h, upstream);
      (resp, CallsOf(started) + reread)
  }

  /** PATCH /users/{username}/profile: the response and every request attempted, the re-read's included. */
  function UnifiedUpdate(cfg: Config, req: Request, h: Headers, upstream: Call -> UpstreamResult, profileFirst: bool): (Response, seq<Call>)
  {
    var auth := Authorization(req);
    if auth == "" then (HttpError(h, AuthRequiredMessage, StatusUnauthorized), [])
    else if req.body.None? then (HttpError(h, "Error reading request body", StatusBadRequest), [])
    else
      match DecodeObject(req.body.value)
      case None => (HttpError(h, "Invalid JSON", StatusBadRequest), [])
      case Some(doc) =>
        var fields := Members(doc);
        var started := UpdateCalls(cfg, req.username, auth, Restrict(fields, AuthFieldNames), Restrict(fields, ProfileFieldNames));
        UpdateFinish(cfg, req, h, upstream, profileFirst, started)
  }

  /** The update's collection loop: every result that carries a reply is kept by name, and
      each failure adds its error line. */
  method CollectUpdateResults(arrived: seq<(string, UpstreamResult)>) returns (results: map<string, UpstreamResult>, errors: seq<string>)
    ensures errors == ErrorsOf(arrived)
    ensures forall k :: k in results <==> exists i | 0 <= i < |arrived| :: arrived[i].0 == k && !arrived[i].1.Unbuildable?
  {
    results := map[];
    errors := [];
    for n := 0 to |arrived|
      invariant errors == ErrorsOf(arrived[..n])
      invariant forall k :: k in results <==> exists i | 0 <= i < n :: arrived[i].0 == k && !arrived[i].1.Unbuildable?
    {
      assert arrived[..n + 1][..n] == arrived[..n];
      var (name, res) := arrived[n];
      if res.Unbuildable? {
        errors := errors + [name + ": " + res.err];
        continue;
      }
      results := results[name := res];
      if res.StatusCode() != StatusOK {
        errors := errors + [name + " returned status " + IntToString(res.StatusCode())];
      }
    }
    assert arrived[..|arrived|] == arrived;
  }

  /** Start one request per non-empty partition. */
  method StartUpdates(cfg: Config, username: string, auth: string, authFields: map<string, Json>, profileFields: map<string, Json>)
    returns (started: seq<(string, Call)>)
    requires AllProfileKeys(profileFields)
    ensures started == UpdateCalls(cfg, username, auth, authFields, profileFields)
  {
    var forwarded := AddAll(map[], UpdateHeaders(auth));
    started := [];
    if |authFields| > 0 {
      started := started + [("auth", Call("PATCH", cfg.authServiceURL + "/accounts/" + username, forwarded, Some(JObject(authFields))))];
    }
    if |profileFields| > 0 {
      var snake := TranslateProfileFields(profileFields);
      started := started + [("profile", Call("PUT", cfg.profileServiceURL + "/profiles/me", forwarded, Some(JObject(snake))))];
    }
  }

  /** Collect the started exchanges, then report the errors or re-read. */
  method FinishUpdate(cfg: Config, req: Request, h: Headers, upstream: Call -> UpstreamResult, profileFirst: bool,
                      started: seq<(string, Call)>)
    returns (resp: Response, calls: seq<Call>)
    ensures (resp, calls) == UpdateFinish(cfg, req, h, upstream, profileFirst, started)
  {
    calls := CallsOf(started);
    var results, errors := CollectUpdateResults(Arrival(Exchange(started, upstream), profileFirst));
    if |errors| > 0 {
      return HttpError(h, PartialFailureMessage(errors), StatusInternalServerError), calls;
    }
    var reread;
    resp, reread := HandleGetUserUnified(cfg, req, h, upstream, profileFirst);
    calls := calls + reread;
  }

  /** The update handler, step by step. */
  method HandleUpdateUserUnified(cfg: Config, req: Request, h: Headers, upstream: Call -> UpstreamResult, profileFirst: bool)
    returns (resp: Response, calls: seq<Call>)
    ensures (resp, calls) == UnifiedUpdate(cfg, req, h, upstream, profileFirst)
  {
    var auth := HeaderGet(req.header, "Authorization");
    if auth == "" {
      return HttpError(h, AuthRequiredMessage, StatusUnauthorized), [];
    }
    if req.body.None? {
      return HttpError(h, "Error reading request body", StatusBadRequest), [];
    }
    var updateData := DecodeObject(req.body.value);
    if updateData.None? {
      return HttpError(h, "Invalid JSON", StatusBadRequest), [];
    }
    var authFields, profileFields := SplitFields(Members(updateData.value));
    var started := StartUpdates(cfg, req.username, auth, authFields, profileFields);
    resp, calls := FinishUpdate(cfg, req, h, upstream, profileFirst, started);
  }

  // ---------------------------------------------------------------- delete

  /** The `user.deleted` event posted to the orchestrator; `now` is the RFC 3339 time of sending. */
  function DeletedEvent(cfg: Config, username: string, auth: string, now: string): Call
  {
    Call("POST", cfg.orchestratorURL + "/orchestrator/user-deleted",
         map["Content-Type" := ["application/json"], "Authorization" := [auth]],
         Some(JObject(map[
           "type" := JString("user.deleted"),
           "data" := JObject(map["username" := JString(username)]),
           "meta" := JObject(map["timestamp" := JString(now), "source" := JString("api-gateway")])])))
  }

  /** DELETE /users/{username}: relay the auth service's answer (its headers added to ours) and,
      on 200, fire the event; the event's own outcome is never looked at. */
  function DeleteUser(cfg: Config, req: Request, h: Headers, upstream: Call -> UpstreamResult, now: string): (Response, seq<Call>)
  {
    var auth := Authorization(req);
    if auth == "" then (HttpError(h, AuthRequiredMessage, StatusUnauthorized), [])
    else
      var del := Call(req.verb, cfg.authServiceURL + "/accounts/" + req.username, Forwarded(req.header), None);
      var res := upstream(del);
      if !res.Replied? then (HttpError(h, "Service unavailable", StatusServiceUnavailable), [del])
      else
        (Response(res.status, AddHeaders(h, res.header), Raw(res.body)),
         [del] + (if res.status == StatusOK then [DeletedEvent(cfg, req.username, auth, now)] else []))
  }

  /** The delete handler, step by step. */
  method HandleDeleteUser(cfg: Config, req: Request, h: Headers, upstream: Call -> UpstreamResult, now: string)
    returns (resp: Response, calls: seq<Call>)
    ensures (resp, calls) == DeleteUser(cfg, req, h, upstream, now)
  {
    var auth := HeaderGet(req.header, "Authorization");
    if auth == "" {
      return HttpError(h, AuthRequiredMessage, StatusUnauthorized), [];
    }
    var forwarded := AddAll(map[], req.header);
    var del := Call(req.verb, cfg.authServiceURL + "/accounts/" + req.username, forwarded, None);
    calls := [del];
    var res := upstream(del);
    if !res.Replied? {
      return HttpError(h, "Service unavailable", StatusServiceUnavailable), calls;
    }
    if res.status == StatusOK {
      calls := calls + [DeletedEvent(cfg, req.username, auth, now)];
    } else {
      assert calls == [del] + [];
    }
    var header := AddAll(h, res.header);
    resp := Response(res.status, header, Raw(res.body));
  }
}
