/** `doLookup`: normalise the URL, obtain a token, build one task per
    classified entity, run the batch and assemble the entries. */
module Lookup {
  import opened Outcomes
  import opened JsValues
  import opened Transport
  import opened TokenCaching
  import opened Authentication
  import opened LookupRequests
  import opened LookupResponses
  import opened ResultAssembly

  /** What `cb` receives: the auth wrapper error, the batch wrapper error or
      the entries; `Threw` when a TypeError escapes and `cb` is never called. */
  datatype LookupOutcome = AuthError | LookupError | Threw | Results(results: seq<LookupResult>)

  /** Everything after a token has been obtained. */
  function AfterAuth(entities: seq<Entity>, base: string, token: Value, server: Request -> Response): LookupOutcome
  {
    match Execute(Plan(entities, base, token), server)
    case None => LookupError
    case Some(results) =>
      match Assembly(results)
      case None => Threw
      case Some(entries) => Results(entries)
  }

  /** One `doLookup` call: the cache is read at `now` and the session reply,
      if a request is needed, arrives at `replyAt`. `authSent` are the session
      requests and `sent` the lookup requests. At most one session request is
      made for the whole batch, whatever its size, and none on a cache hit. */
  method DoLookup(cache: TokenCache, entities: seq<Entity>, url: string, securityToken: string, now: int,
                  replyAt: int, authServer: AuthRequest -> Response, server: Request -> Response)
    returns (r: LookupOutcome, authSent: seq<AuthRequest>, sent: seq<Request>)
    modifies cache
    ensures var base := NormalizeUrl(url);
      var step := Authenticate(old(cache.entries), base, securityToken, now, replyAt, authServer);
      cache.entries == step.entries && authSent == step.sent &&
      |authSent| <= 1 && (authSent == [] <==> Truthy(CachedValue(old(cache.entries), base + securityToken, now))) &&
      match step.outcome
      case AuthFailed => r == AuthError && sent == []
      case AuthThrew => r == Threw && sent == []
      case AuthOk(token) => sent == Plan(entities, base, token) && r == AfterAuth(entities, base, token, server)
  {
    var base := NormalizeUrl(url);
    var auth;
    auth, authSent := GetAuthToken(cache, base, securityToken, now, replyAt, authServer);
    match auth
    case AuthFailed =>
      r, sent := AuthError, [];
    case AuthThrew =>
      r, sent := Threw, [];
    case AuthOk(token) =>
      var tasks := BuildTasks(entities, base, token);
      sent := tasks;
      var batch := RunTasks(tasks, server);
      if batch.None? {
        r := LookupError;
      } else {
        var entries := Assemble(batch.value);
        r := if entries.None? then Threw else Results(entries.value);
      }
  }

  /** A successful batch keeps each task's entity in its result. */
  lemma ExecuteEntities(tasks: seq<Request>, server: Request -> Response)
    requires Execute(tasks, server).Some?
    ensures var results := Execute(tasks, server).value;
      |results| == |tasks| &&
      forall i :: 0 <= i < |results| && results[i].Found? ==> results[i].entity == tasks[i].entity
  {
    ExecuteOutcome(tasks, server);
  }

  /** A successful assembly keeps each result's entity in its entry. */
  lemma AssemblyEntities(results: seq<TaskResult>)
    requires Assembly(results).Some?
    ensures var entries := Assembly(results).value;
      |entries| == |results| &&
      forall i :: 0 <= i < |entries| ==> results[i].Found? && entries[i].entity == results[i].entity
  {
    AssemblyOutcome(results);
    forall i | 0 <= i < |results| {
      EntryData(results[i]);
    }
  }

  /** The entries correspond one to one, in order, to the tasks: at most one
      per entity, none for an entity that was filtered out or unclassified. */
  lemma ResultsFollowTasks(entities: seq<Entity>, base: string, token: Value, server: Request -> Response)
    requires AfterAuth(entities, base, token, server).Results?
    ensures var rs := AfterAuth(entities, base, token, server).results;
      var tasks := Plan(entities, base, token);
      |rs| == |tasks| <= |entities| &&
      forall i :: 0 <= i < |rs| ==>
        rs[i].entity == tasks[i].entity && rs[i].entity in entities &&
        RequestFor(rs[i].entity, base, token).Some?
  {
    var tasks := Plan(entities, base, token);
    ExecuteEntities(tasks, server);
    var results := Execute(tasks, server).value;
    AssemblyEntities(results);
    PlanBounded(entities, base, token);
    PlanSound(entities, base, token);
    assert forall i :: 0 <= i < |tasks| ==> tasks[i] in tasks;
  }

  /** The batch reports the lookup error exactly when some request meets a
      transport error. */
  lemma TransportErrorFailsBatch(entities: seq<Entity>, base: string, token: Value, server: Request -> Response)
    ensures AfterAuth(entities, base, token, server) == LookupError ==>
      exists i :: 0 <= i < |Plan(entities, base, token)| && server(Plan(entities, base, token)[i]).TransportError?
    ensures (exists i :: 0 <= i < |Plan(entities, base, token)| && server(Plan(entities, base, token)[i]).TransportError?) ==>
      AfterAuth(entities, base, token, server) == LookupError
  {
    ExecuteOutcome(Plan(entities, base, token), server);
  }

  /** Without a transport error, a single task answered with a status other
      than 200, 404 and 202 (a named error such as 429, or an unlisted one)
      makes the assembly throw: `cb` is never called, the named error is
      never reported. */
  lemma SwallowedStatusThrows(entities: seq<Entity>, base: string, token: Value, server: Request -> Response, k: nat)
    requires var tasks := Plan(entities, base, token);
      (forall i :: 0 <= i < |tasks| ==> server(tasks[i]).Reply?) &&
      k < |tasks| && server(tasks[k]).status != 200 && server(tasks[k]).status != 404 && server(tasks[k]).status != 202
    ensures AfterAuth(entities, base, token, server) == Threw
  {
    var tasks := Plan(entities, base, token);
    ExecuteOutcome(tasks, server);
    var results := Execute(tasks, server).value;
    StatusMapping(tasks[k], server(tasks[k]).status, server(tasks[k]).body);
    assert results[k].EmptyResult?;
    AssemblyOutcome(results);
  }

  const ScenarioIp := Entity("1.2.3.4", true, true, false, "IPv4")
  const ScenarioCve := Entity("CVE-2021-0001", false, false, false, "cve")
  const ScenarioAsset := Obj(map["data" := Arr([Obj(map["id" := Str("asset-1")])])])

  /** The mocked API of the scenario: one asset for an asset query, 404 for
      anything else. */
  function ScenarioServer(req: Request): Response
  {
    if req.uri == "https://x.com" + "/query/assets" then Reply(200, ScenarioAsset) else Reply(404, Null)
  }

  /** Two entities that both have a request give those two tasks. */
  lemma PlanOfTwo(a: Entity, b: Entity, base: string, token: Value)
    requires RequestFor(a, base, token).Some? && RequestFor(b, base, token).Some?
    ensures Plan([a, b], base, token) == [RequestFor(a, base, token).value, RequestFor(b, base, token).value]
  {
    var empty: seq<Entity> := [];
    assert [a, b][..1] == [a];
    assert [a][..0] == empty;
    assert Plan([a], base, token) == [RequestFor(a, base, token).value];
  }

  /** The two lookups of the scenario: the asset query gets the asset, the
      CVE query a null body. */
  lemma ScenarioBatch()
    ensures Execute(Plan([ScenarioIp, ScenarioCve], "https://x.com", Str("T")), ScenarioServer) ==
      Some([Found(ScenarioIp, ScenarioAsset), Found(ScenarioCve, Null)])
  {
    var ipReq := RequestFor(ScenarioIp, "https://x.com", Str("T")).value;
    var cveReq := RequestFor(ScenarioCve, "https://x.com", Str("T")).value;
    assert ScenarioIp.value !in IgnoredIps;
    IpRequest(ScenarioIp, "https://x.com", Str("T"));
    CveRequest(ScenarioCve, "https://x.com", Str("T"));
    PlanOfTwo(ScenarioIp, ScenarioCve, "https://x.com", Str("T"));
    assert cveReq.uri != "https://x.com" + "/query/assets" by {
      assert |cveReq.uri| == |"https://x.com"| + |"/query/cves"|;
    }
    var step := TaskStep(ScenarioServer);
    assert step(ipReq) == RunTask(ipReq, ScenarioServer(ipReq));
    assert step(cveReq) == RunTask(cveReq, ScenarioServer(cveReq));
    MapAllOfTwo(step, ipReq, cveReq);
  }

  /** An IPv4 address answered 200 with one asset and a CVE answered 404 give
      the asset's whole body as details and a null entry, in input order. */
  lemma EndToEndScenario()
    ensures AfterAuth([ScenarioIp, ScenarioCve], "https://x.com", Str("T"), ScenarioServer) ==
      Results([LookupResult(ScenarioIp, Details([], ScenarioAsset)), LookupResult(ScenarioCve, NoData)])
  {
    ScenarioBatch();
    var first := Found(ScenarioIp, ScenarioAsset);
    assert Get(ScenarioAsset, "data") == Some(Arr([Obj(map["id" := Str("asset-1")])]));
    assert EntryFor(first) == Some(LookupResult(ScenarioIp, Details([], ScenarioAsset)));
    MapAllOfTwo(EntryFor, first, Found(ScenarioCve, Null));
  }
}
