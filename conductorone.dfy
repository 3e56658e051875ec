/** The ConductorOne connector that runs on a schedule. It:
    - searches the open approval tasks of the last hours;
    - turns each task into an access request (the entitlement and its members
      without the requester, and the requester's profile);
    - comments on and approves tasks.

    The connector keeps one access token and renews it when it is missing or
    about to expire, as read from the token's own `exp` claim.

    The ConductorOne API sits behind `ApiClient`, which records every call in
    order. The server's answer to a call is a fixed function of the call. The
    clock, base64url decoding and JSON parsing are parameters. */
module ConductorOneCron {
  import opened Wrappers
  import opened Text
  import opened Dicts
  import opened JsonValue
  import opened Models

  // ---------------------------------------------------------------------------
  // The API client

  /** One task found by the search, as the client summarises it; every field
      is the raw API value (`null` when absent). */
  datatype TaskSummary = TaskSummary(
    id: Json,
    targetUserId: Json,
    appId: Json,
    appEntitlementId: Json,
    description: Json,
    duration: Json,
    policyStepId: Json)

  datatype ApiCall =
    | Authenticate
    | SearchTasks(token: string, createdAfter: string)
    | GetEntitlement(token: string, appId: Json, entitlementId: Json)
    | GetEntitlementMembers(token: string, appId: Json, entitlementId: Json)
    | GetUser(token: string, userId: Json)
    | CommentTask(token: string, taskId: Option<string>, comment: string)
    | ReassignTask(token: string, taskId: Option<string>, stepId: Json, assignee: Json)
    | GetTask(token: string, taskId: Option<string>)
    | ApproveTask(token: string, taskId: Option<string>, stepId: Json)

  /** What a call returns: a token, the task summaries, a JSON body, the
      entitlement's members keyed by e-mail address, or nothing. */
  datatype Response =
    | Token(token: string)
    | Tasks(summaries: seq<TaskSummary>)
    | Body(body: Json)
    | Members(members: Dict<string, MemberProfile>)
    | NoContent

  /** The server's answer to one call; an HTTP or decoding failure is an
      error. */
  type Exchange = ApiCall -> Result<Response>

  /** The client: each call goes to the server and is appended to `log`. */
  class ApiClient {
    const config: Json
    const exchange: Exchange
    var log: seq<ApiCall>

    constructor(config: Json, exchange: Exchange)
      ensures this.config == config && this.exchange == exchange && log == []
    {
      this.config := config;
      this.exchange := exchange;
      log := [];
    }

    method Send(call: ApiCall) returns (r: Result<Response>)
      modifies this
      ensures log == old(log) + [call]
      ensures r == exchange(call)
    {
      log := log + [call];
      r := exchange(call);
    }
  }

  /** Answers read as the kind each call returns; an answer of another kind
      is a TypeError. */
  function AsToken(r: Result<Response>): (t: Result<string>)
    ensures t.Ok? <==> r.Ok? && r.value.Token?
  {
    var resp :- r;
    if resp.Token? then Ok(resp.token) else Err(TypeError)
  }

  function AsTasks(r: Result<Response>): (t: Result<seq<TaskSummary>>)
    ensures t.Ok? <==> r.Ok? && r.value.Tasks?
  {
    var resp :- r;
    if resp.Tasks? then Ok(resp.summaries) else Err(TypeError)
  }

  function AsBody(r: Result<Response>): (t: Result<Json>)
    ensures t.Ok? <==> r.Ok? && r.value.Body?
  {
    var resp :- r;
    if resp.Body? then Ok(resp.body) else Err(TypeError)
  }

  function AsMembers(r: Result<Response>): (t: Result<Dict<string, MemberProfile>>)
    ensures t.Ok? <==> r.Ok? && r.value.Members?
  {
    var resp :- r;
    if resp.Members? then Ok(resp.members) else Err(TypeError)
  }

  function AsNothing(r: Result<Response>): (t: Result<()>)
    ensures t.Ok? <==> r.Ok? && r.value.NoContent?
  {
    var resp :- r;
    if resp.NoContent? then Ok(()) else Err(TypeError)
  }

  // ---------------------------------------------------------------------------
  // Token expiry

  /** The margin, in seconds, before `exp` from which a token counts as
      expired. */
  const DefaultMargin := 300

  /** `base64.urlsafe_b64decode` and `json.loads`, supplied by the caller;
      `None` is a decoding failure. */
  datatype JwtCodec = JwtCodec(b64decode: string -> Option<string>, loads: Loads)

  /** The padding appended before decoding: `"=" * (4 - len(s) % 4)`. */
  function Pad(s: string): (p: string)
    ensures 1 <= |p| <= 4
    ensures (|s| + |p|) % 4 == 0
    ensures forall i :: 0 <= i < |p| ==> p[i] == '='
  {
    PadFits(|s|);
    seq(4 - |s| % 4, i => '=')
  }

  lemma PadFits(n: nat)
    ensures (n + (4 - n % 4)) % 4 == 0
  {
    assert n + (4 - n % 4) == 4 * (n / 4 + 1);
  }

  /** The payload's `exp` claim compared with the clock: `now > exp - margin`.
      A payload without a usable claim counts as expired: no claim or `null`
      returns True; a payload that is not a dictionary, or a claim that is
      not a number, raises inside the `try` and is caught. `True` and `False`
      subtract as 1 and 0. */
  predicate ExpiredPayload(payload: Json, now: int, margin: int)
  {
    match payload
    case JObj(fs) =>
      var exp: Option<Json> := Get(fs, "exp");
      (match exp
       case Some(JNum(n)) => now as real > n - margin as real
       case Some(JBool(b)) => now > (if b then 1 else 0) - margin
       case _ => true)
    case _ => true
  }

  /** `_is_jwt_expired(jwt, margin)`: a token that does not have exactly
      three `.`-separated parts, or whose payload does not decode, counts as
      expired. */
  predicate IsJwtExpired(jwt: string, now: int, margin: int, codec: JwtCodec)
  {
    var parts := SplitBy(jwt, ".");
    if |parts| != 3 then true
    else
      match codec.b64decode(parts[1] + Pad(parts[1]))
      case None => true
      case Some(text) =>
        (match codec.loads(text)
         case None => true
         case Some(payload) => ExpiredPayload(payload, now, margin))
  }

  /** A token made of three parts is judged by its payload. */
  lemma JwtOfThreeParts(header: string, payload: string, signature: string, now: int, margin: int, codec: JwtCodec)
    requires '.' !in header && '.' !in payload && '.' !in signature
    ensures IsJwtExpired(header + "." + payload + "." + signature, now, margin, codec)
            <==> match codec.b64decode(payload + Pad(payload))
                 case None => true
                 case Some(text) => codec.loads(text).None? || ExpiredPayload(codec.loads(text).value, now, margin)
  {
    var xs := [header, payload, signature];
    assert Join(xs, ".") == header + "." + payload + "." + signature by {
      assert xs[1..] == [payload, signature];
      assert xs[1..][1..] == [signature];
      assert Join([signature], ".") == signature;
      assert Join([payload, signature], ".") == payload + "." + signature;
    }
    SplitByJoin(xs, '.');
  }

  /** A token with only two parts is always expired. */
  lemma JwtOfTwoPartsExpired(header: string, payload: string, now: int, margin: int, codec: JwtCodec)
    requires '.' !in header && '.' !in payload
    ensures IsJwtExpired(header + "." + payload, now, margin, codec)
  {
    var xs := [header, payload];
    assert Join(xs, ".") == header + "." + payload by {
      assert xs[1..] == [payload];
    }
    SplitByJoin(xs, '.');
  }

  /** With a numeric claim, a token is expired exactly from `exp - margin`
      on. */
  lemma JwtExpiryRule(payload: Json, now: int, margin: int, exp: real)
    requires payload.JObj? && Get(payload.fields, "exp") == Some(JNum(exp))
    ensures ExpiredPayload(payload, now, margin) <==> now as real + margin as real > exp
  {
  }

  /** Without an `exp` claim, a token is always expired. */
  lemma JwtWithoutClaimExpired(payload: Json, now: int, margin: int)
    requires payload.JObj? && "exp" !in Keys(payload.fields)
    ensures ExpiredPayload(payload, now, margin)
  {
  }

  /** An expired token stays expired as the clock moves on. */
  lemma JwtExpiredLater(jwt: string, now: int, later: int, margin: int, codec: JwtCodec)
    requires now <= later
    requires IsJwtExpired(jwt, now, margin, codec)
    ensures IsJwtExpired(jwt, later, margin, codec)
  {
  }

  // ---------------------------------------------------------------------------
  // The token cache

  /** `not self.access_token or self._is_jwt_expired(self.access_token)`. */
  predicate NeedsAuthentication(cache: Option<string>, now: int, codec: JwtCodec)
  {
    cache.None? || cache.value == [] || IsJwtExpired(cache.value, now, DefaultMargin, codec)
  }

  /** The calls a token lookup makes, the cached token afterwards, and the
      token handed out. */
  datatype TokenStep = TokenStep(calls: seq<ApiCall>, cache: Option<string>, result: Result<string>)

  function AccessToken(exchange: Exchange, cache: Option<string>, now: int, codec: JwtCodec): (t: TokenStep)
    ensures t.calls == [] || t.calls == [Authenticate]
  {
    if NeedsAuthentication(cache, now, codec) then
      match AsToken(exchange(Authenticate))
      case Ok(token) => TokenStep([Authenticate], Some(token), Ok(token))
      case Err(e) => TokenStep([Authenticate], cache, Err(e))
    else TokenStep([], cache, Ok(cache.value))
  }

  /** The cache authenticates exactly when its token is missing, empty or
      expired; otherwise it hands out the cached token and keeps it. Once a
      token is handed out, the cache holds it. */
  lemma AccessTokenSpec(exchange: Exchange, cache: Option<string>, now: int, codec: JwtCodec)
    ensures var t := AccessToken(exchange, cache, now, codec);
            (t.calls == [Authenticate] <==> NeedsAuthentication(cache, now, codec))
            && (!NeedsAuthentication(cache, now, codec) ==> t.result == Ok(cache.value) && t.cache == cache)
            && (t.result.Ok? ==> t.cache == Some(t.result.value))
            && (t.result.Err? ==> t.cache == cache)
  {
  }

  /** The server's answer is a function of the call, so a second lookup at the
      same instant hands out the token the first one did. */
  lemma TokenAgain(exchange: Exchange, cache: Option<string>, now: int, codec: JwtCodec)
    requires AccessToken(exchange, cache, now, codec).result.Ok?
    ensures var t := AccessToken(exchange, cache, now, codec);
            AccessToken(exchange, t.cache, now, codec).result == t.result
  {
  }

  /** A token that is neither empty nor expired is reused as long as the
      clock does not pass its margin. */
  lemma FreshTokenReused(exchange: Exchange, token: string, now: int, codec: JwtCodec)
    requires token != [] && !IsJwtExpired(token, now, DefaultMargin, codec)
    ensures AccessToken(exchange, Some(token), now, codec) == TokenStep([], Some(token), Ok(token))
  {
  }

  // ---------------------------------------------------------------------------
  // Building an access request from a task

  /** The text every entitlement name loses. */
  const GroupMemberSuffix := " Group Member"

  /** `response.get("appEntitlementView", {}).get("appEntitlement", {})`. */
  function EntitlementView(response: Json): (r: Result<Json>)
  {
    var view :- GetAttrOr(response, "appEntitlementView", JObj([]));
    GetAttrOr(view, "appEntitlement", JObj([]))
  }

  /** The entitlement name: `displayName` with every ` Group Member` removed;
      a missing or non-string name has no `replace` (AttributeError). */
  function EntitlementName(view: Json): (r: Result<string>)
    ensures r.Ok? <==> view.JObj? && GetAttrOrNull(view, "displayName").value.JStr?
    ensures r.Ok? ==> r.value == RemoveAll(GetAttrOrNull(view, "displayName").value.s, GroupMemberSuffix)
  {
    var display :- GetAttrOrNull(view, "displayName");
    if display.JStr? then Ok(RemoveAll(display.s, GroupMemberSuffix)) else Err(AttributeError)
  }

  function EntitlementOf(summary: TaskSummary, response: Json, members: Dict<string, MemberProfile>): (r: Result<Entitlement>)
    ensures r.Ok? ==> r.value.members == members
    ensures r.Ok? ==> EntitlementView(response).Ok? && EntitlementName(EntitlementView(response).value).Ok?
                      && r.value.name == Some(EntitlementName(EntitlementView(response).value).value)
  {
    var id :- OptString(summary.appEntitlementId);
    var appId :- OptString(summary.appId);
    var view :- EntitlementView(response);
    var name :- EntitlementName(view);
    var description :- OptString(GetAttrOrNull(view, "description").value);
    Ok(Entitlement(id, appId, Some(name), description, members))
  }

  /** `members.pop(email, None)`: a string key is removed if present; the
      members are keyed by e-mail strings, so a key of another hashable kind
      (`None` included) finds no member here; a list or a dictionary is
      unhashable (TypeError). */
  function WithoutRequester(members: Dict<string, MemberProfile>, email: Json): (r: Result<Dict<string, MemberProfile>>)
    ensures r.Ok? <==> !(email.JArr? || email.JObj?)
    ensures email.JStr? ==> r == Ok(Remove(members, email.s))
    ensures r.Ok? && !email.JStr? ==> r.value == members
  {
    match email
    case JStr(e) => Ok(Remove(members, e))
    case JArr(_) => Err(TypeError)
    case JObj(_) => Err(TypeError)
    case _ => Ok(members)
  }

  /** The requester as read from the user's profile. */
  function RequesterOf(summary: TaskSummary, profile: Json): (r: Result<Requester>)
  {
    var id :- OptString(summary.targetUserId);
    var mgmtChain :- GetAttrOrNull(profile, "mgmtChain");
    var manager :- GetAttrOrNull(profile, "manager");
    var managerId :- GetAttrOrNull(profile, "manager_id");
    var title :- GetAttrOrNull(profile, "title");
    var title :- OptString(title);
    var department :- GetAttrOrNull(profile, "department");
    var department :- OptString(department);
    var jobLevel :- GetAttrOrNull(profile, "globalJobLevel");
    var unit :- GetAttrOrNull(profile, "SupervisoryOrganization");
    var unit :- OptString(unit);
    var email :- GetAttrOrNull(profile, "email");
    var email :- OptString(email);
    Ok(NewRequester(id, mgmtChain, manager, managerId, title, department, jobLevel, unit, email))
  }

  /** The calls made while building one access request, and the request. */
  datatype Prepared = Prepared(calls: seq<ApiCall>, result: Result<AccessRequest>)

  /** The metadata the connector keeps with a request. */
  function Metadata(summary: TaskSummary): Dict<string, Json>
  {
    [Pair("policy_step_id", summary.policyStepId)]
  }

  /** `_prepare_context_objects(token, summary)`. */
  function Prepare(exchange: Exchange, token: string, summary: TaskSummary): (p: Prepared)
  {
    var c1 := GetEntitlement(token, summary.appId, summary.appEntitlementId);
    var c2 := GetEntitlementMembers(token, summary.appId, summary.appEntitlementId);
    var response := AsBody(exchange(c1));
    if response.Err? then Prepared([c1], Err(response.error))
    else
      var members := AsMembers(exchange(c2));
      if members.Err? then Prepared([c1, c2], Err(members.error))
      else
        var entitlement := EntitlementOf(summary, response.value, members.value);
        if entitlement.Err? then Prepared([c1, c2], Err(entitlement.error))
        else
          var c3 := GetUser(token, summary.targetUserId);
          Prepared([c1, c2, c3], Complete(summary, entitlement.value, AsBody(exchange(c3))))
  }

  /** What follows the last call: popping the requester from the members and
      building the requester and the request. */
  function Complete(summary: TaskSummary, entitlement: Entitlement, profile: Result<Json>): (r: Result<AccessRequest>)
  {
    var profile :- profile;
    var email :- GetAttrOrNull(profile, "email");
    var members :- WithoutRequester(entitlement.members, email);
    var requester :- RequesterOf(summary, profile);
    var id :- OptString(summary.id);
    var description :- OptString(summary.description);
    Ok(NewAccessRequest(id, description, summary.duration, requester,
                        entitlement.(members := members), Some(Metadata(summary))))
  }

  /** A request built without error: the three calls in order, the cleaned
      name, the members without the requester's address and with every other
      member untouched, and only the policy step kept as metadata. */
  lemma PrepareSpec(exchange: Exchange, token: string, summary: TaskSummary)
    ensures var p := Prepare(exchange, token, summary);
            p.result.Ok? ==>
              var members := AsMembers(exchange(GetEntitlementMembers(token, summary.appId, summary.appEntitlementId)));
              var profile := AsBody(exchange(GetUser(token, summary.targetUserId)));
              var response := AsBody(exchange(GetEntitlement(token, summary.appId, summary.appEntitlementId)));
              var e := p.result.value.entitlement;
              p.calls == [GetEntitlement(token, summary.appId, summary.appEntitlementId),
                          GetEntitlementMembers(token, summary.appId, summary.appEntitlementId),
                          GetUser(token, summary.targetUserId)]
              && members.Ok? && profile.Ok? && response.Ok?
              && EntitlementView(response.value).Ok?
              && EntitlementName(EntitlementView(response.value).value).Ok?
              && e.name == Some(EntitlementName(EntitlementView(response.value).value).value)
              && GetAttrOrNull(profile.value, "email").Ok?
              && WithoutRequester(members.value, GetAttrOrNull(profile.value, "email").value) == Ok(e.members)
              && p.result.value.igaMetadata == [Pair("policy_step_id", summary.policyStepId)]
  {
  }

  /** The requester's own address is gone from the members, and every other
      address keeps its profile. */
  lemma RequesterExcluded(exchange: Exchange, token: string, summary: TaskSummary, email: string)
    requires var profile := AsBody(exchange(GetUser(token, summary.targetUserId)));
             profile.Ok? && GetAttrOrNull(profile.value, "email") == Ok(JStr(email))
    ensures var p := Prepare(exchange, token, summary);
            p.result.Ok? ==>
              var members := AsMembers(exchange(GetEntitlementMembers(token, summary.appId, summary.appEntitlementId))).value;
              email !in Keys(p.result.value.entitlement.members)
              && forall k :: k != email ==> Get(p.result.value.entitlement.members, k) == Get(members, k)
  {
    PrepareSpec(exchange, token, summary);
  }

  // ---------------------------------------------------------------------------
  // Retrieval

  /** `timedelta(hours=16)`, in seconds: how far back the search looks. */
  const LookbackSeconds := 16 * 60 * 60

  /** The requests retrieved so far, the calls made and the cached token. */
  datatype Retrieved = Retrieved(calls: seq<ApiCall>, cache: Option<string>, result: Result<seq<AccessRequest>>)

  /** One pass of the loop: the calls, the cached token afterwards and the
      request built, if any. */
  datatype Fetched = Fetched(calls: seq<ApiCall>, cache: Option<string>, result: Result<AccessRequest>)

  /** The body of the loop over the summaries: a token lookup, then the
      request built from one summary. */
  function Fetch(exchange: Exchange, cache: Option<string>, now: int, codec: JwtCodec,
                 summary: TaskSummary): (f: Fetched)
  {
    var t := AccessToken(exchange, cache, now, codec);
    if t.result.Err? then Fetched(t.calls, t.cache, Err(t.result.error))
    else
      var p := Prepare(exchange, t.result.value, summary);
      Fetched(t.calls + p.calls, t.cache, p.result)
  }

  /** The loop over the task summaries, one request per summary. */
  function Collect(exchange: Exchange, cache: Option<string>, now: int, codec: JwtCodec,
                   summaries: seq<TaskSummary>): (r: Retrieved)
    decreases |summaries|
  {
    if summaries == [] then Retrieved([], cache, Ok([]))
    else
      var before := Collect(exchange, cache, now, codec, summaries[..|summaries| - 1]);
      if before.result.Err? then before
      else
        var f := Fetch(exchange, before.cache, now, codec, summaries[|summaries| - 1]);
        Retrieved(before.calls + f.calls, f.cache,
                  if f.result.Err? then Err(f.result.error) else Ok(before.result.value + [f.result.value]))
  }

  /** `retrieve_requests`: a token, the search, then the loop. */
  function Retrieve(exchange: Exchange, cache: Option<string>, now: int, codec: JwtCodec,
                    createdAfter: string): (r: Retrieved)
  {
    var t := AccessToken(exchange, cache, now, codec);
    if t.result.Err? then Retrieved(t.calls, t.cache, Err(t.result.error))
    else
      var search := SearchTasks(t.result.value, createdAfter);
      var summaries := AsTasks(exchange(search));
      if summaries.Err? then Retrieved(t.calls + [search], t.cache, Err(summaries.error))
      else
        var c := Collect(exchange, t.cache, now, codec, summaries.value);
        Retrieved(t.calls + [search] + c.calls, c.cache, c.result)
  }

  /** One pass of the loop extends the requests built so far. */
  lemma CollectNext(exchange: Exchange, cache: Option<string>, now: int, codec: JwtCodec,
                    summaries: seq<TaskSummary>, i: nat)
    requires i < |summaries|
    requires Collect(exchange, cache, now, codec, summaries[..i]).result.Ok?
    ensures var c := Collect(exchange, cache, now, codec, summaries[..i]);
            var f := Fetch(exchange, c.cache, now, codec, summaries[i]);
            var d := Collect(exchange, cache, now, codec, summaries[..i + 1]);
            d.calls == c.calls + f.calls && d.cache == f.cache
            && d.result == if f.result.Err? then Err(f.result.error) else Ok(c.result.value + [f.result.value])
  {
    assert summaries[..i + 1][..i] == summaries[..i];
  }

  lemma CallsAssociate(a: seq<ApiCall>, b: seq<ApiCall>, c: seq<ApiCall>)
    ensures a + b + c == a + (b + c)
  {
  }

  /** A request built from a summary carries its task's id and policy step. */
  lemma FetchKeepsTask(exchange: Exchange, cache: Option<string>, now: int, codec: JwtCodec,
                       summary: TaskSummary)
    ensures var f := Fetch(exchange, cache, now, codec, summary);
            f.result.Ok? ==>
              OptString(summary.id) == Ok(f.result.value.id)
              && f.result.value.igaMetadata == [Pair("policy_step_id", summary.policyStepId)]
  {
  }

  lemma {:induction false} CollectPrefixErr(exchange: Exchange, cache: Option<string>, now: int, codec: JwtCodec,
                                            summaries: seq<TaskSummary>, i: nat)
    requires i <= |summaries|
    requires Collect(exchange, cache, now, codec, summaries[..i]).result.Err?
    ensures Collect(exchange, cache, now, codec, summaries) == Collect(exchange, cache, now, codec, summaries[..i])
    decreases |summaries| - i
  {
    if i < |summaries| {
      var n := |summaries|;
      assert Collect(exchange, cache, now, codec, summaries[..n - 1]) == Collect(exchange, cache, now, codec, summaries[..i]) by {
        assert summaries[..n - 1][..i] == summaries[..i];
        CollectPrefixErr(exchange, cache, now, codec, summaries[..n - 1], i);
      }
    } else {
      assert summaries[..i] == summaries;
    }
  }

  /** A completed retrieval yields one request per summary, in order, each
      carrying its task's id and policy step. */
  lemma {:induction false} CollectSpec(exchange: Exchange, cache: Option<string>, now: int, codec: JwtCodec,
                                       summaries: seq<TaskSummary>)
    ensures var r := Collect(exchange, cache, now, codec, summaries);
            r.result.Ok? ==>
              |r.result.value| == |summaries|
              && forall i :: 0 <= i < |summaries| ==>
                   OptString(summaries[i].id) == Ok(r.result.value[i].id)
                   && r.result.value[i].igaMetadata == [Pair("policy_step_id", summaries[i].policyStepId)]
    decreases |summaries|
  {
    if summaries != [] {
      var n := |summaries| - 1;
      var front := summaries[..n];
      CollectSpec(exchange, cache, now, codec, front);
      var before := Collect(exchange, cache, now, codec, front);
      var r := Collect(exchange, cache, now, codec, summaries);
      if r.result.Ok? {
        var f := Fetch(exchange, before.cache, now, codec, summaries[n]);
        FetchKeepsTask(exchange, before.cache, now, codec, summaries[n]);
        assert r.result.value == before.result.value + [f.result.value];
        forall i | 0 <= i < |summaries|
          ensures OptString(summaries[i].id) == Ok(r.result.value[i].id)
          ensures r.result.value[i].igaMetadata == [Pair("policy_step_id", summaries[i].policyStepId)]
        {
          if i < n {
            assert summaries[i] == front[i];
          }
        }
      }
    }
  }

  // ---------------------------------------------------------------------------
  // Actions on a task

  /** The calls made by an action, the cached token afterwards and whether the
      action completed. */
  datatype Acted = Acted(calls: seq<ApiCall>, cache: Option<string>, result: Result<()>)

  /** The step the task is at after reassignment:
      `task.get("taskView").get("task", {}).get("policy", {}).get("current", {}).get("id")`. */
  function CurrentStepId(task: Json): (r: Result<Json>)
  {
    var view :- GetAttrOrNull(task, "taskView");
    var inner :- GetAttrOr(view, "task", JObj([]));
    var policy :- GetAttrOr(inner, "policy", JObj([]));
    var current :- GetAttrOr(policy, "current", JObj([]));
    GetAttrOrNull(current, "id")
  }

  /** `comment_request`: a token, then the comment. */
  function CommentSpec(exchange: Exchange, cache: Option<string>, now: int, codec: JwtCodec,
                       request: AccessRequest, comment: string): (a: Acted)
  {
    var t := AccessToken(exchange, cache, now, codec);
    if t.result.Err? then Acted(t.calls, t.cache, Err(t.result.error))
    else
      var call := CommentTask(t.result.value, request.id, comment);
      Acted(t.calls + [call], t.cache, AsNothing(exchange(call)))
  }

  /** `approve_request`: reassign the task, read the step it moved to, then
      approve that step; each call first looks up a token. */
  function ApproveSpec(exchange: Exchange, cache: Option<string>, now: int, codec: JwtCodec,
                       config: Json, request: AccessRequest): (a: Acted)
  {
    var t1 := AccessToken(exchange, cache, now, codec);
    if t1.result.Err? then Acted(t1.calls, t1.cache, Err(t1.result.error))
    else
      var assignee := GetAttrOrNull(config, "reassign_to_user");
      if assignee.Err? then Acted(t1.calls, t1.cache, Err(assignee.error))
      else
        var reassign := ReassignTask(t1.result.value, request.id,
                                     GetOr(request.igaMetadata, "policy_step_id", JNull), assignee.value);
        var moved := AsNothing(exchange(reassign));
        if moved.Err? then Acted(t1.calls + [reassign], t1.cache, Err(moved.error))
        else
          var rest := ReadAndApprove(exchange, t1.cache, now, codec, request);
          Acted(t1.calls + [reassign] + rest.calls, rest.cache, rest.result)
  }

  /** The second half of `approve_request`, after the reassignment. */
  function ReadAndApprove(exchange: Exchange, cache: Option<string>, now: int,
                          codec: JwtCodec, request: AccessRequest): (a: Acted)
  {
    var t2 := AccessToken(exchange, cache, now, codec);
    if t2.result.Err? then Acted(t2.calls, t2.cache, Err(t2.result.error))
    else
      var read := GetTask(t2.result.value, request.id);
      var task := AsBody(exchange(read));
      var step := if task.Err? then Err(task.error) else CurrentStepId(task.value);
      if step.Err? then Acted(t2.calls + [read], t2.cache, Err(step.error))
      else
        var t3 := AccessToken(exchange, t2.cache, now, codec);
        TokenAgain(exchange, cache, now, codec);
        var approve := ApproveTask(t3.result.value, request.id, step.value);
        Acted(t2.calls + [read] + t3.calls + [approve], t3.cache, AsNothing(exchange(approve)))
  }

  /** The calls other than authentication. */
  function WithoutAuthentication(calls: seq<ApiCall>): (r: seq<ApiCall>)
    ensures forall i :: 0 <= i < |r| ==> r[i] != Authenticate
    decreases |calls|
  {
    if calls == [] then []
    else WithoutAuthentication(calls[..|calls| - 1])
         + if calls[|calls| - 1] == Authenticate then [] else [calls[|calls| - 1]]
  }

  lemma WithoutAuthenticationAppend(a: seq<ApiCall>, b: seq<ApiCall>)
    ensures WithoutAuthentication(a + b) == WithoutAuthentication(a) + WithoutAuthentication(b)
    decreases |b|
  {
    if b != [] {
      var n := |b| - 1;
      assert (a + b)[..|a + b| - 1] == a + b[..n];
      WithoutAuthenticationAppend(a, b[..n]);
    } else {
      assert a + b == a;
    }
  }

  /** Dropping authentications around a call that is not one. */
  lemma WithoutAuthenticationAround(before: seq<ApiCall>, c: ApiCall, after: seq<ApiCall>)
    requires before == [] || before == [Authenticate]
    requires c != Authenticate
    ensures WithoutAuthentication(before + [c] + after) == [c] + WithoutAuthentication(after)
  {
    assert WithoutAuthentication(before + [c]) == [c] by {
      assert (before + [c])[..|before + [c]| - 1] == before;
      if before != [] {
        assert before[..0] == [];
      }
      assert WithoutAuthentication(before) == [];
    }
    WithoutAuthenticationAppend(before + [c], after);
  }

  /** Besides authentications, a completed second half reads the task and
      approves the step that read returned. */
  lemma ReadAndApproveSequence(exchange: Exchange, cache: Option<string>, now: int, codec: JwtCodec,
                               request: AccessRequest)
    ensures var a := ReadAndApprove(exchange, cache, now, codec, request);
            var w := WithoutAuthentication(a.calls);
            a.result.Ok? ==>
              |w| == 2 && w[0].GetTask? && w[0].taskId == request.id
              && w[1].ApproveTask? && w[1].taskId == request.id
              && AsBody(exchange(w[0])).Ok? && CurrentStepId(AsBody(exchange(w[0])).value) == Ok(w[1].stepId)
  {
    var a := ReadAndApprove(exchange, cache, now, codec, request);
    if a.result.Ok? {
      var t2 := AccessToken(exchange, cache, now, codec);
      var read := GetTask(t2.result.value, request.id);
      var t3 := AccessToken(exchange, t2.cache, now, codec);
      var approve := ApproveTask(t3.result.value, request.id, CurrentStepId(AsBody(exchange(read)).value).value);
      assert a.calls == t2.calls + [read] + t3.calls + [approve];
      WithoutAuthenticationPair(t2.calls, read, t3.calls, approve);
    }
  }

  /** Two calls that are not authentications, each after at most one
      authentication, are what is left of the sequence. */
  lemma WithoutAuthenticationPair(before: seq<ApiCall>, c: ApiCall, middle: seq<ApiCall>, d: ApiCall)
    requires before == [] || before == [Authenticate]
    requires middle == [] || middle == [Authenticate]
    requires c != Authenticate && d != Authenticate
    ensures WithoutAuthentication(before + [c] + middle + [d]) == [c, d]
  {
    var x := before + [c] + middle;
    assert WithoutAuthentication(x) == [c] by {
      WithoutAuthenticationAround(before, c, middle);
      if middle != [] {
        assert middle[..0] == [];
      }
    }
    assert (x + [d])[..|x + [d]| - 1] == x;
  }

  /** An approval that completes makes, besides authentications, exactly
      three calls: the reassignment to the configured user at the request's
      recorded step, the read of the task, and the approval of the step that
      read returned. */
  lemma ApproveSequence(exchange: Exchange, cache: Option<string>, now: int, codec: JwtCodec,
                        config: Json, request: AccessRequest)
    ensures var a := ApproveSpec(exchange, cache, now, codec, config, request);
            var w := WithoutAuthentication(a.calls);
            a.result.Ok? ==>
              |w| == 3
              && w[0].ReassignTask? && w[0].taskId == request.id
              && w[0].stepId == GetOr(request.igaMetadata, "policy_step_id", JNull)
              && GetAttrOrNull(config, "reassign_to_user") == Ok(w[0].assignee)
              && w[1].GetTask? && w[1].taskId == request.id
              && w[2].ApproveTask? && w[2].taskId == request.id
              && AsBody(exchange(w[1])).Ok? && CurrentStepId(AsBody(exchange(w[1])).value) == Ok(w[2].stepId)
  {
    var a := ApproveSpec(exchange, cache, now, codec, config, request);
    if a.result.Ok? {
      var t1 := AccessToken(exchange, cache, now, codec);
      var assignee := GetAttrOrNull(config, "reassign_to_user");
      var reassign := ReassignTask(t1.result.value, request.id,
                                   GetOr(request.igaMetadata, "policy_step_id", JNull), assignee.value);
      var rest := ReadAndApprove(exchange, t1.cache, now, codec, request);
      assert a.calls == t1.calls + [reassign] + rest.calls;
      ReadAndApproveSequence(exchange, t1.cache, now, codec, request);
      WithoutAuthenticationAround(t1.calls, reassign, rest.calls);
    }
  }

  // ---------------------------------------------------------------------------
  // The plugin

  class CronPlugin {
    const config: Json
    const client: ApiClient
    const codec: JwtCodec
    var accessToken: Option<string>

    constructor(config: Json, exchange: Exchange, codec: JwtCodec)
      ensures this.config == config && this.codec == codec && accessToken == None
      ensures fresh(client) && client.config == config && client.exchange == exchange && client.log == []
    {
      this.config := config;
      this.codec := codec;
      accessToken := None;
      client := new ApiClient(config, exchange);
    }

    /** `_get_access_token`, with `now` as `int(time.time())`. */
    method GetAccessToken(now: int) returns (r: Result<string>)
      modifies this, client
      ensures var t := AccessToken(client.exchange, old(accessToken), now, codec);
              r == t.result && accessToken == t.cache && client.log == old(client.log) + t.calls
    {
      if accessToken.None? || accessToken.value == [] || IsJwtExpired(accessToken.value, now, DefaultMargin, codec) {
        var answer := client.Send(Authenticate);
        var token := AsToken(answer);
        if token.Err? {
          return Err(token.error);
        }
        accessToken := Some(token.value);
      }
      r := Ok(accessToken.value);
    }

    /** `_prepare_context_objects(token, summary)`. */
    method PrepareContextObjects(token: string, summary: TaskSummary) returns (r: Result<AccessRequest>)
      modifies client
      ensures var p := Prepare(client.exchange, token, summary);
              r == p.result && client.log == old(client.log) + p.calls
    {
      var c1 := GetEntitlement(token, summary.appId, summary.appEntitlementId);
      var a1 := client.Send(c1);
      var response := AsBody(a1);
      if response.Err? {
        return Err(response.error);
      }
      var c2 := GetEntitlementMembers(token, summary.appId, summary.appEntitlementId);
      var a2 := client.Send(c2);
      var members := AsMembers(a2);
      if members.Err? {
        return Err(members.error);
      }
      var entitlement := EntitlementOf(summary, response.value, members.value);
      if entitlement.Err? {
        return Err(entitlement.error);
      }
      var c3 := GetUser(token, summary.targetUserId);
      var a3 := client.Send(c3);
      r := Complete(summary, entitlement.value, AsBody(a3));
    }

    /** One pass of the loop in `retrieve_requests`. */
    method FetchRequest(now: int, summary: TaskSummary) returns (r: Result<AccessRequest>)
      modifies this, client
      ensures var f := Fetch(client.exchange, old(accessToken), now, codec, summary);
              r == f.result && accessToken == f.cache && client.log == old(client.log) + f.calls
    {
      var t := GetAccessToken(now);
      if t.Err? {
        return Err(t.error);
      }
      r := PrepareContextObjects(t.value, summary);
    }

    /** One pass of the loop, stated against the requests built so far. */
    method NextRequest(now: int, summaries: seq<TaskSummary>, i: nat, ghost cache: Option<string>,
                       ghost start: seq<ApiCall>, ghost requests: seq<AccessRequest>)
      returns (r: Result<AccessRequest>)
      requires i < |summaries|
      requires var c := Collect(client.exchange, cache, now, codec, summaries[..i]);
               c.result == Ok(requests) && accessToken == c.cache && client.log == start + c.calls
      modifies this, client
      ensures var d := Collect(client.exchange, cache, now, codec, summaries[..i + 1]);
              accessToken == d.cache && client.log == start + d.calls
              && d.result == if r.Err? then Err(r.error) else Ok(requests + [r.value])
    {
      CollectNext(client.exchange, cache, now, codec, summaries, i);
      ghost var c := Collect(client.exchange, cache, now, codec, summaries[..i]);
      ghost var f := Fetch(client.exchange, accessToken, now, codec, summaries[i]);
      r := FetchRequest(now, summaries[i]);
      assert client.log == start + c.calls + f.calls;
      CallsAssociate(start, c.calls, f.calls);
    }

    /** `retrieve_requests`, with `now` as the clock and `stamp` as the
        `%Y-%m-%dT%H:%M:%SZ` rendering of a time. */
    method RetrieveRequests(now: int, stamp: int -> string) returns (r: Result<seq<AccessRequest>>)
      modifies this, client
      ensures var t := Retrieve(client.exchange, old(accessToken), now, codec, stamp(now - LookbackSeconds));
              r == t.result && accessToken == t.cache && client.log == old(client.log) + t.calls
    {
      var token := GetAccessToken(now);
      if token.Err? {
        return Err(token.error);
      }
      var search := SearchTasks(token.value, stamp(now - LookbackSeconds));
      var answer := client.Send(search);
      var found := AsTasks(answer);
      if found.Err? {
        return Err(found.error);
      }
      ghost var t := AccessToken(client.exchange, old(accessToken), now, codec);
      assert client.log == old(client.log) + (t.calls + [search]) by {
        CallsAssociate(old(client.log), t.calls, [search]);
      }
      ghost var c := Collect(client.exchange, accessToken, now, codec, found.value);
      r := CollectRequests(now, found.value);
      CallsAssociate(old(client.log), t.calls + [search], c.calls);
    }

    /** The loop of `retrieve_requests` over the task summaries. */
    method CollectRequests(now: int, summaries: seq<TaskSummary>) returns (r: Result<seq<AccessRequest>>)
      modifies this, client
      ensures var c := Collect(client.exchange, old(accessToken), now, codec, summaries);
              r == c.result && accessToken == c.cache && client.log == old(client.log) + c.calls
    {
      ghost var start := client.log;
      ghost var cache := accessToken;
      var requests: seq<AccessRequest> := [];
      var i := 0;
      while i < |summaries|
        invariant 0 <= i <= |summaries|
        invariant var c := Collect(client.exchange, cache, now, codec, summaries[..i]);
                  c.result == Ok(requests) && accessToken == c.cache && client.log == start + c.calls
      {
        var request := NextRequest(now, summaries, i, cache, start, requests);
        if request.Err? {
          CollectPrefixErr(client.exchange, cache, now, codec, summaries, i + 1);
          return Err(request.error);
        }
        requests := requests + [request.value];
        i := i + 1;
      }
      assert summaries[..i] == summaries;
      r := Ok(requests);
    }

    /** `comment_request`. */
    method CommentRequest(now: int, request: AccessRequest, comment: string) returns (r: Result<()>)
      modifies this, client
      ensures var a := CommentSpec(client.exchange, old(accessToken), now, codec, request, comment);
              r == a.result && accessToken == a.cache && client.log == old(client.log) + a.calls
    {
      var token := GetAccessToken(now);
      if token.Err? {
        return Err(token.error);
      }
      var answer := client.Send(CommentTask(token.value, request.id, comment));
      r := AsNothing(answer);
    }

    /** `approve_request`. */
    method ApproveRequest(now: int, request: AccessRequest) returns (r: Result<()>)
      modifies this, client
      ensures var a := ApproveSpec(client.exchange, old(accessToken), now, codec, config, request);
              r == a.result && accessToken == a.cache && client.log == old(client.log) + a.calls
    {
      var t1 := GetAccessToken(now);
      if t1.Err? {
        return Err(t1.error);
      }
      var assignee := GetAttrOrNull(config, "reassign_to_user");
      if assignee.Err? {
        return Err(assignee.error);
      }
      var reassign := ReassignTask(t1.value, request.id, GetOr(request.igaMetadata, "policy_step_id", JNull),
                                   assignee.value);
      var a1 := client.Send(reassign);
      var moved := AsNothing(a1);
      if moved.Err? {
        return Err(moved.error);
      }
      ghost var t := AccessToken(client.exchange, old(accessToken), now, codec);
      assert client.log == old(client.log) + (t.calls + [reassign]) by {
        CallsAssociate(old(client.log), t.calls, [reassign]);
      }
      ghost var rest := ReadAndApprove(client.exchange, accessToken, now, codec, request);
      r := ReadAndApproveRequest(now, request);
      CallsAssociate(old(client.log), t.calls + [reassign], rest.calls);
    }

    /** The read of the new step and the approval. */
    method ReadAndApproveRequest(now: int, request: AccessRequest) returns (r: Result<()>)
      modifies this, client
      ensures var a := ReadAndApprove(client.exchange, old(accessToken), now, codec, request);
              r == a.result && accessToken == a.cache && client.log == old(client.log) + a.calls
    {
      var t2 := GetAccessToken(now);
      if t2.Err? {
        return Err(t2.error);
      }
      var a2 := client.Send(GetTask(t2.value, request.id));
      var task := AsBody(a2);
      var step := if task.Err? then Err(task.error) else CurrentStepId(task.value);
      if step.Err? {
        return Err(step.error);
      }
      ghost var before := old(accessToken);
      TokenAgain(client.exchange, before, now, codec);
      ghost var first := AccessToken(client.exchange, before, now, codec).calls + [GetTask(t2.value, request.id)];
      assert client.log == old(client.log) + first by {
        CallsAssociate(old(client.log), AccessToken(client.exchange, before, now, codec).calls,
                       [GetTask(t2.value, request.id)]);
      }
      ghost var second := AccessToken(client.exchange, accessToken, now, codec).calls;
      var t3 := GetAccessToken(now);
      var approve := ApproveTask(t3.value, request.id, step.value);
      var a3 := client.Send(approve);
      r := AsNothing(a3);
      assert client.log == old(client.log) + (first + second + [approve]) by {
        CallsAssociate(old(client.log), first, second);
        CallsAssociate(old(client.log), first + second, [approve]);
      }
    }

    /** `deny_request` does nothing. */
    method DenyRequest(request: AccessRequest) returns (r: Result<()>)
      ensures r == Ok(())
    {
      r := Ok(());
    }
  }
}
