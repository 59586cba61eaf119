/** What the gateway's aggregating handlers guarantee, stated over the models in Gateway. */
module GatewayProperties {
  import opened Basics
  import opened Json
  import opened Headers
  import opened FieldRouting
  import opened ResponseMerge
  import opened Gateway

  // ---------------------------------------------------------------- credentials

  /** Without an Authorization value every aggregating handler answers 401 and calls nobody. */
  lemma MissingCredentials(cfg: Config, req: Request, h: Headers, upstream: Call -> UpstreamResult, profileFirst: bool, now: string)
    requires Authorization(req) == ""
    ensures UnifiedRead(cfg, req, h, upstream) == (HttpError(h, AuthRequiredMessage, StatusUnauthorized), [])
    ensures UnifiedUpdate(cfg, req, h, upstream, profileFirst) == (HttpError(h, AuthRequiredMessage, StatusUnauthorized), [])
    ensures DeleteUser(cfg, req, h, upstream, now) == (HttpError(h, AuthRequiredMessage, StatusUnauthorized), [])
    ensures HttpError(h, AuthRequiredMessage, StatusUnauthorized).status == 401
  {
  }

  // ---------------------------------------------------------------- unified read

  /** Both reads go out with the inbound method and headers: a re-read after an update is a PATCH. */
  lemma ReadCallsUseInboundMethod(cfg: Config, req: Request, h: Headers, upstream: Call -> UpstreamResult)
    requires Authorization(req) != ""
    ensures var calls := UnifiedRead(cfg, req, h, upstream).1;
      |calls| == 2 && calls[0].verb == req.verb && calls[1].verb == req.verb &&
      calls[0].body.None? && calls[1].body.None? &&
      calls[0].header == Forwarded(req.header) && calls[1].header == Forwarded(req.header)
    ensures var calls := UnifiedRead(cfg, req, h, upstream).1;
      calls[0].url == cfg.authServiceURL + "/accounts/" + req.username &&
      calls[1].url == cfg.profileServiceURL + "/profiles/" + req.username
  {
  }

  /** A failed auth exchange gives 503. */
  lemma ReadAuthUnavailable(cfg: Config, req: Request, h: Headers, upstream: Call -> UpstreamResult)
    requires Authorization(req) != ""
    requires !upstream(ReadCalls(cfg, req)[0]).Replied?
    ensures UnifiedRead(cfg, req, h, upstream).0 == HttpError(h, "Service unavailable", StatusServiceUnavailable)
  {
  }

  /** A non-200 auth reply is relayed verbatim, and the profile reply makes no difference. */
  lemma ReadRelaysAuthFailure(cfg: Config, req: Request, h: Headers, upstream: Call -> UpstreamResult, other: Call -> UpstreamResult)
    requires Authorization(req) != ""
    requires upstream(ReadCalls(cfg, req)[0]).Replied? && upstream(ReadCalls(cfg, req)[0]).status != StatusOK
    requires other(ReadCalls(cfg, req)[0]) == upstream(ReadCalls(cfg, req)[0])
    ensures var res := upstream(ReadCalls(cfg, req)[0]);
      UnifiedRead(cfg, req, h, upstream).0 == Response(res.status, h, Raw(res.body))
    ensures UnifiedRead(cfg, req, h, upstream).0 == UnifiedRead(cfg, req, h, other).0
  {
  }

  /** A 200 auth reply that is not a JSON object (or null) gives 500. */
  lemma ReadAuthUnparseable(cfg: Config, req: Request, h: Headers, upstream: Call -> UpstreamResult)
    requires Authorization(req) != ""
    requires var res := upstream(ReadCalls(cfg, req)[0]); res.Replied? && res.status == StatusOK && DecodeObject(res.body).None?
    ensures UnifiedRead(cfg, req, h, upstream).0 == HttpError(h, "Error processing response", StatusInternalServerError)
  {
  }

  /** A usable auth reply gives 200 with the auth document, merged when the profile is usable. */
  lemma ReadSucceeds(cfg: Config, req: Request, h: Headers, upstream: Call -> UpstreamResult)
    requires Authorization(req) != ""
    requires var res := upstream(ReadCalls(cfg, req)[0]); res.Replied? && res.status == StatusOK && DecodeObject(res.body).Some?
    ensures var resp := UnifiedRead(cfg, req, h, upstream).0;
      var doc := DecodeObject(upstream(ReadCalls(cfg, req)[0]).body).value;
      resp.status == StatusOK && resp.header["Content-Type"] == ["application/json"] &&
      resp.body == Encoded(MergeInto(doc, ProfileData(upstream(ReadCalls(cfg, req)[1]))))
  {
  }

  /** A profile reply other than 200, or one whose body is not an object, leaves the document as it was. */
  lemma UnusableProfileChangesNothing(doc: Json, res: UpstreamResult)
    requires !res.Replied? || res.status != StatusOK || DecodeObject(res.body).None?
    ensures MergeInto(doc, ProfileData(res)) == doc
  {
  }

  /** An auth document that is not an object, or has no `user` object, is answered unmerged
      whatever the profile holds. */
  lemma MergeNeedsUserObject(doc: Json, profile: Option<map<string, Json>>)
    requires !(doc.JObject? && "user" in doc.members && doc.members["user"].JObject?)
    ensures MergeInto(doc, profile) == doc
  {
  }

  // ---------------------------------------------------------------- merge

  /** The merge as a whole: the nine copies whose source is present land in `user` (a null value
      included), every other `user` entry is kept, `user` gains no other key, and every top-level
      member besides `user` is untouched. */
  lemma MergeIntoSpec(doc: Json, profile: map<string, Json>)
    requires doc.JObject? && "user" in doc.members && doc.members["user"].JObject?
    ensures var out := MergeInto(doc, Some(profile));
      out.JObject? && out.members.Keys == doc.members.Keys &&
      (forall k | k in doc.members && k != "user" :: out.members[k] == doc.members[k]) &&
      out.members["user"].JObject?
    ensures var user := doc.members["user"].members;
      var merged := MergeInto(doc, Some(profile)).members["user"].members;
      (forall i | 0 <= i < |MergePairs| && MergePairs[i].1 in profile ::
         MergePairs[i].0 in merged && merged[MergePairs[i].0] == profile[MergePairs[i].1]) &&
      (forall k | k in user && !Filled(k, profile, MergePairs) :: k in merged && merged[k] == user[k]) &&
      (forall k | k in merged :: k in user || Filled(k, profile, MergePairs))
  {
    MergePairsDistinct();
    OverlaySpec(doc.members["user"].members, profile, MergePairs);
  }

  /** A `user` key that is not one of the nine targets is never touched: id, username, email,
      role and status in particular. */
  lemma MergeKeepsOtherKeys(user: map<string, Json>, profile: map<string, Json>, k: string)
    requires k in user
    requires forall i | 0 <= i < |MergePairs| :: MergePairs[i].0 != k
    ensures k in MergeUser(user, profile) && MergeUser(user, profile)[k] == user[k]
  {
    MergePairsDistinct();
    OverlaySpec(user, profile, MergePairs);
  }

  lemma IdentityFieldsAreNotTargets()
    ensures forall i, k | 0 <= i < |MergePairs| && k in ["id", "username", "email", "role", "status"] :: MergePairs[i].0 != k
  {
  }

  /** An empty profile document changes nothing. */
  lemma EmptyProfileKeepsUser(user: map<string, Json>)
    ensures MergeUser(user, map[]) == user
  {
    MergePairsDistinct();
    OverlaySpec(user, map[], MergePairs);
  }

  /** Merging the same profile twice is merging it once. */
  lemma MergeIdempotent(user: map<string, Json>, profile: map<string, Json>)
    ensures MergeUser(MergeUser(user, profile), profile) == MergeUser(user, profile)
  {
    var once := MergeUser(user, profile);
    var twice := MergeUser(once, profile);
    MergePairsDistinct();
    OverlaySpec(user, profile, MergePairs);
    OverlaySpec(once, profile, MergePairs);
    forall k | k in twice ensures k in once && twice[k] == once[k] {
      if Filled(k, profile, MergePairs) {
        var i :| 0 <= i < |MergePairs| && MergePairs[i].0 == k && MergePairs[i].1 in profile;
      }
    }
  }

  /** Each field the read copies back is one the update writes, under the very name the update
      sends it. */
  lemma ReadBackNamesMatchUpdate()
    ensures forall i | 0 <= i < |MergePairs| :: MergePairs[i].0 in ProfileFieldNames && SnakeName(MergePairs[i].0) == MergePairs[i].1
  {
    forall i | 0 <= i < |MergePairs|
      ensures MergePairs[i].0 in ProfileFieldNames && SnakeName(MergePairs[i].0) == MergePairs[i].1
    {
    }
  }

  /** The other five profile fields are written by the update but never read back. */
  lemma WriteOnlyProfileFields(n: string)
    requires n in ["mailingAddress", "contactInfoPublic", "facebookUrl", "instagramUrl", "websiteUrl"]
    ensures n in ProfileFieldNames
    ensures forall i | 0 <= i < |MergePairs| :: MergePairs[i].1 != SnakeName(n)
  {
  }

  // ---------------------------------------------------------------- unified update

  /** A body that cannot be read, or that is not a JSON object, is refused before any call. */
  lemma UpdateRejectsBadBody(cfg: Config, req: Request, h: Headers, upstream: Call -> UpstreamResult, profileFirst: bool)
    requires Authorization(req) != ""
    ensures req.body.None? ==>
      UnifiedUpdate(cfg, req, h, upstream, profileFirst) == (HttpError(h, "Error reading request body", StatusBadRequest), [])
    ensures req.body.Some? && DecodeObject(req.body.value).None? ==>
      UnifiedUpdate(cfg, req, h, upstream, profileFirst) == (HttpError(h, "Invalid JSON", StatusBadRequest), [])
  {
  }

  /** A service is called only when its partition is non-empty: PATCH to the auth service with
      exactly the auth fields, PUT to the profile service with the translated profile fields. */
  lemma DispatchOnlyNonEmpty(cfg: Config, username: string, auth: string, authFields: map<string, Json>, profileFields: map<string, Json>)
    requires AllProfileKeys(profileFields)
    ensures var started := UpdateCalls(cfg, username, auth, authFields, profileFields);
      |started| == (if |authFields| > 0 then 1 else 0) + (if |profileFields| > 0 then 1 else 0)
    ensures var started := UpdateCalls(cfg, username, auth, authFields, profileFields);
      |authFields| > 0 ==> started[0] == ("auth", Call("PATCH", cfg.authServiceURL + "/accounts/" + username,
                                                       Forwarded(UpdateHeaders(auth)), Some(JObject(authFields))))
    ensures var started := UpdateCalls(cfg, username, auth, authFields, profileFields);
      |profileFields| > 0 ==> started[|started| - 1] == ("profile", Call("PUT", cfg.profileServiceURL + "/profiles/me",
                                                                      Forwarded(UpdateHeaders(auth)), Some(JObject(Translate(profileFields)))))
  {
  }

  /** With nothing started there is nothing to report, and the handler answers with the read. */
  lemma FinishWithNothingStarted(cfg: Config, req: Request, h: Headers, upstream: Call -> UpstreamResult, profileFirst: bool)
    ensures UpdateFinish(cfg, req, h, upstream, profileFirst, []) == UnifiedRead(cfg, req, h, upstream)
  {
    assert Arrival(Exchange([], upstream), profileFirst) == [];
    assert CallsOf([]) + UnifiedRead(cfg, req, h, upstream).1 == UnifiedRead(cfg, req, h, upstream).1;
  }

  /** A document with no allow-listed key starts no update and answers with the read. */
  lemma NothingToUpdateRereads(cfg: Config, req: Request, h: Headers, upstream: Call -> UpstreamResult, profileFirst: bool)
    requires Authorization(req) != "" && req.body.Some? && DecodeObject(req.body.value).Some?
    requires forall k | k in Members(DecodeObject(req.body.value).value) :: k !in AuthFieldNames && k !in ProfileFieldNames
    ensures UnifiedUpdate(cfg, req, h, upstream, profileFirst) == UnifiedRead(cfg, req, h, upstream)
  {
    var fields := Members(DecodeObject(req.body.value).value);
    assert Restrict(fields, AuthFieldNames) == map[];
    assert Restrict(fields, ProfileFieldNames) == map[];
    assert UpdateCalls(cfg, req.username, Authorization(req), map[], map[]) == [];
    FinishWithNothingStarted(cfg, req, h, upstream, profileFirst);
  }

  /** A result contributes an error line exactly when it is not a 200 reply. */
  lemma {:induction false} ErrorsEmptyIff(arrived: seq<(string, UpstreamResult)>)
    ensures ErrorsOf(arrived) == [] <==>
      forall i | 0 <= i < |arrived| :: arrived[i].1.Replied? && arrived[i].1.status == StatusOK
  {
    if arrived != [] {
      var init := arrived[..|arrived| - 1];
      ErrorsEmptyIff(init);
      forall i | 0 <= i < |init| ensures init[i] == arrived[i] {
      }
    }
  }

  /** At most one line per result. */
  lemma {:induction false} ErrorsBounded(arrived: seq<(string, UpstreamResult)>)
    ensures |ErrorsOf(arrived)| <= |arrived|
  {
    if arrived != [] {
      ErrorsBounded(arrived[..|arrived| - 1]);
    }
  }

  /** The three kinds of line: a request that could not be built names the error; a transport
      failure is reported as status 0, since the reply's error is never examined; any other
      non-200 reply names its status. */
  lemma ErrorLines(name: string, err: string, status: int, header: Headers, body: Payload)
    ensures ErrorFor(name, Unbuildable(err)) == [name + ": " + err]
    ensures ErrorFor(name, Failed(err)) == [name + " returned status 0"]
    ensures status != StatusOK ==> ErrorFor(name, Replied(status, header, body)) == [name + " returned status " + IntToString(status)]
    ensures ErrorFor(name, Replied(StatusOK, header, body)) == []
  {
    assert NatToString(0) == "0";
    assert name + " returned status " + "0" == name + " returned status 0";
  }

  /** The arrival order only reorders the error lines. */
  lemma ArrivalOnlyReorders(arrived: seq<(string, UpstreamResult)>)
    requires |arrived| <= 2
    ensures multiset(ErrorsOf(Arrival(arrived, true))) == multiset(ErrorsOf(arrived))
  {
    if |arrived| == 2 {
      var swapped := Arrival(arrived, true);
      assert swapped[..1] == [arrived[1]] && arrived[..1] == [arrived[0]];
      assert swapped[..0] == [] && arrived[..0] == [];
    }
  }

  /** With errors: 500 and the joined lines; the read is not repeated. */
  lemma UpdateReportsErrors(cfg: Config, req: Request, h: Headers, upstream: Call -> UpstreamResult, profileFirst: bool,
                            started: seq<(string, Call)>)
    requires ErrorsOf(Arrival(Exchange(started, upstream), profileFirst)) != []
    ensures var errors := ErrorsOf(Arrival(Exchange(started, upstream), profileFirst));
      var out := UpdateFinish(cfg, req, h, upstream, profileFirst, started);
      out.0.status == 500 && out.1 == CallsOf(started) && out.0.body == Text(PartialFailureMessage(errors) + "\n")
  {
  }

  /** Without errors the answer is the unified read, sent with the inbound method (the PATCH itself). */
  lemma UpdateSuccessRereads(cfg: Config, req: Request, h: Headers, upstream: Call -> UpstreamResult, profileFirst: bool,
                             started: seq<(string, Call)>)
    requires Authorization(req) != ""
    requires forall i | 0 <= i < |started| :: upstream(started[i].1).Replied? && upstream(started[i].1).status == StatusOK
    ensures var out := UpdateFinish(cfg, req, h, upstream, profileFirst, started);
      out.0 == UnifiedRead(cfg, req, h, upstream).0 &&
      |out.1| == |started| + 2 && out.1[|started|].verb == req.verb && out.1[|started| + 1].verb == req.verb
  {
    var arrived := Arrival(Exchange(started, upstream), profileFirst);
    forall i | 0 <= i < |arrived| ensures arrived[i].1.Replied? && arrived[i].1.status == StatusOK {
      if profileFirst && |started| == 2 {
        assert arrived[i] == Exchange(started, upstream)[1 - i];
      }
    }
    ErrorsEmptyIff(arrived);
  }

  // ---------------------------------------------------------------- delete

  /** The event is started exactly when the auth service answered 200; the reply is relayed either way. */
  lemma DeleteEventIffOK(cfg: Config, req: Request, h: Headers, upstream: Call -> UpstreamResult, now: string)
    requires Authorization(req) != ""
    requires upstream(DeleteUser(cfg, req, h, upstream, now).1[0]).Replied?
    ensures var (resp, calls) := DeleteUser(cfg, req, h, upstream, now);
      var res := upstream(calls[0]);
      resp.status == res.status && resp.body == Raw(res.body) &&
      (|calls| == 2 <==> res.status == StatusOK) && |calls| <= 2 &&
      (|calls| == 2 ==> calls[1] == DeletedEvent(cfg, req.username, Authorization(req), now))
  {
  }

  /** The event: a POST to the orchestrator naming the user, from the gateway. */
  lemma DeletedEventContents(cfg: Config, username: string, auth: string, now: string)
    ensures var e := DeletedEvent(cfg, username, auth, now);
      e.verb == "POST" && e.url == cfg.orchestratorURL + "/orchestrator/user-deleted" &&
      e.body.Some? && e.body.value.JObject? &&
      e.body.value.members["type"] == JString("user.deleted") &&
      e.body.value.members["data"] == JObject(map["username" := JString(username)]) &&
      e.body.value.members["meta"].members["source"] == JString("api-gateway") &&
      HeaderGet(e.header, "Authorization") == auth
  {
  }

  /** A failed delete exchange gives 503 and no event. */
  lemma DeleteUnavailable(cfg: Config, req: Request, h: Headers, upstream: Call -> UpstreamResult, now: string)
    requires Authorization(req) != ""
    requires !upstream(DeleteUser(cfg, req, h, upstream, now).1[0]).Replied?
    ensures DeleteUser(cfg, req, h, upstream, now).0 == HttpError(h, "Service unavailable", StatusServiceUnavailable)
    ensures |DeleteUser(cfg, req, h, upstream, now).1| == 1
  {
  }

  /** The response never depends on how the event exchange went. */
  lemma DeleteIgnoresEventOutcome(cfg: Config, req: Request, h: Headers, upstream: Call -> UpstreamResult,
                                  other: Call -> UpstreamResult, now: string)
    requires Authorization(req) != ""
    requires var del := DeleteUser(cfg, req, h, upstream, now).1[0]; other(del) == upstream(del)
    ensures DeleteUser(cfg, req, h, upstream, now) == DeleteUser(cfg, req, h, other, now)
  {
  }
}
