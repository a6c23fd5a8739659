/** The request-building half of `doLookup`: URL normalisation, the ignored-IP
    filter, classification of each entity (first match wins) and the request
    of each classified entity. */
module LookupRequests {
  import opened Outcomes
  import opened JsValues

  /** `IGNORED_IPS`. */
  const IgnoredIps: set<string> := {"127.0.0.1", "255.255.255.255", "0.0.0.0"}

  /** The entity fields the core reads. */
  datatype Entity = Entity(value: string, isIP: bool, isIPv4: bool, isDomain: bool, entityType: string)

  /** An endpoint path below the base URL and the search-expression text
      that comes before the phrase, which names the fields searched there. */
  datatype Query = Query(path: string, filterPrefix: string)

  /** A lookup request: the entity it was built for, its `uri`, its
      `qs.dsl_filter` and its `Authorization` header. The method (`GET`) and
      the `Content-Type` header are the same for every request. */
  datatype Request = Request(entity: Entity, uri: string, dslFilter: string, authorization: string)

  /** `url.endsWith('/') ? url.slice(0, -1) : url`: one final slash is removed. */
  function NormalizeUrl(url: string): (r: string)
    ensures EndsWith(url, "/") ==> url == r + "/"
    ensures !EndsWith(url, "/") ==> r == url
  {
    if EndsWith(url, "/") then url[..|url| - 1] else url
  }

  /** Only one slash is stripped: a URL ending in `//` keeps a final `/`, so
      normalising is not idempotent. */
  lemma NormalizeStripsOnlyOne(url: string)
    ensures EndsWith(url, "//") ==> EndsWith(NormalizeUrl(url), "/")
    ensures NormalizeUrl("x//") == "x/" && NormalizeUrl(NormalizeUrl("x//")) == "x"
  {
  }

  /** The `entities.filter(...)` predicate. */
  function PassesFilter(e: Entity): (r: bool)
    ensures r <==> !(e.isIP && e.value in IgnoredIps)
  {
    !e.isIP || (e.isIP && e.value !in IgnoredIps)
  }

  /** The `if / else if` chain: IPv4, then domain, then `type === 'cve'`. */
  function Classify(e: Entity): Option<Query>
  {
    if e.isIPv4 then
      Some(Query("/query/assets", "{\"search\":[{\"fields\":[\"compute.public_ips\",\"compute.private_ips\"],\"phrase\":\""))
    else if e.isDomain then
      Some(Query("/query/assets", "{\"search\":[{\"fields\":[\"compute.public_dnss\",\"compute.private_dnss\"],\"phrase\":\""))
    else if e.entityType == "cve" then
      Some(Query("/query/cves", "{\"search\":[{\"fields\":[\"cve_id\"],\"phrase\":\""))
    else None
  }

  const FilterSuffix := "\"}]}"

  /** The search expression sent as `dsl_filter`: the value is embedded
      verbatim, without escaping. */
  function DslFilter(prefix: string, phrase: string): string
  {
    prefix + phrase + FilterSuffix
  }

  function BearerHeader(token: Value): string
  {
    "Bearer " + ToJsString(token)
  }

  /** The request built for one entity, if any. */
  function RequestFor(e: Entity, base: string, token: Value): Option<Request>
  {
    if !PassesFilter(e) then None
    else
      match Classify(e)
      case None => None
      case Some(q) => Some(Request(e, base + q.path, DslFilter(q.filterPrefix, e.value), BearerHeader(token)))
  }

  /** An entity gets a request unless it is an ignored IP or matches no branch. */
  lemma RequestExistsIff(e: Entity, base: string, token: Value)
    ensures RequestFor(e, base, token).None? <==>
      (e.isIP && e.value in IgnoredIps) || (!e.isIPv4 && !e.isDomain && e.entityType != "cve")
  {
  }

  lemma IpRequest(e: Entity, base: string, token: Value)
    requires PassesFilter(e) && e.isIPv4
    ensures RequestFor(e, base, token) == Some(Request(e, base + "/query/assets",
      "{\"search\":[{\"fields\":[\"compute.public_ips\",\"compute.private_ips\"],\"phrase\":\"" + e.value + "\"}]}", "Bearer " + ToJsString(token)))
  {
  }

  lemma DomainRequest(e: Entity, base: string, token: Value)
    requires PassesFilter(e) && !e.isIPv4 && e.isDomain
    ensures RequestFor(e, base, token) == Some(Request(e, base + "/query/assets",
      "{\"search\":[{\"fields\":[\"compute.public_dnss\",\"compute.private_dnss\"],\"phrase\":\"" + e.value + "\"}]}", "Bearer " + ToJsString(token)))
  {
  }

  lemma CveRequest(e: Entity, base: string, token: Value)
    requires PassesFilter(e) && !e.isIPv4 && !e.isDomain && e.entityType == "cve"
    ensures RequestFor(e, base, token) == Some(Request(e, base + "/query/cves",
      "{\"search\":[{\"fields\":[\"cve_id\"],\"phrase\":\"" + e.value + "\"}]}", "Bearer " + ToJsString(token)))
  {
  }

  /** The tasks of one lookup, in entity order: the filter and then the
      classification, each classified entity contributing one request. */
  function Plan(entities: seq<Entity>, base: string, token: Value): seq<Request>
  {
    if entities == [] then []
    else
      Plan(entities[..|entities| - 1], base, token) + RequestList(entities[|entities| - 1], base, token)
  }

  /** The tasks one entity contributes: none or its request. */
  function RequestList(e: Entity, base: string, token: Value): seq<Request>
  {
    match RequestFor(e, base, token)
    case None => []
    case Some(r) => [r]
  }

  method BuildTasks(entities: seq<Entity>, base: string, token: Value) returns (tasks: seq<Request>)
    ensures tasks == Plan(entities, base, token)
  {
    tasks := [];
    var i := 0;
    while i < |entities|
      invariant 0 <= i <= |entities|
      invariant tasks == Plan(entities[..i], base, token)
    {
      var entity := entities[i];
      if PassesFilter(entity) {
        var q := Classify(entity);
        if q.Some? {
          var req := Request(entity, base + q.value.path, DslFilter(q.value.filterPrefix, entity.value), BearerHeader(token));
          tasks := tasks + [req];
        }
      }
      assert entities[..i + 1][..i] == entities[..i];
      i := i + 1;
    }
    assert entities[..i] == entities;
  }

  /** Building tasks for two lists one after the other is building them for
      the joined list: the tasks keep the order of the entities. */
  lemma {:induction false} PlanConcat(a: seq<Entity>, b: seq<Entity>, base: string, token: Value)
    ensures Plan(a + b, base, token) == Plan(a, base, token) + Plan(b, base, token)
  {
    if b == [] {
      assert a + b == a;
    } else {
      var init, last := b[..|b| - 1], b[|b| - 1];
      PlanConcat(a, init, base, token);
      assert (a + b)[..|a + b| - 1] == a + init;
      assert (a + b)[|a + b| - 1] == last;
      var tail := RequestList(last, base, token);
      assert Plan(a + b, base, token) == Plan(a + init, base, token) + tail;
      assert Plan(b, base, token) == Plan(init, base, token) + tail;
      assert (Plan(a, base, token) + Plan(init, base, token)) + tail ==
        Plan(a, base, token) + (Plan(init, base, token) + tail);
    }
  }

  /** At most one task per entity. */
  lemma {:induction false} PlanBounded(entities: seq<Entity>, base: string, token: Value)
    ensures |Plan(entities, base, token)| <= |entities|
  {
    if entities != [] {
      PlanBounded(entities[..|entities| - 1], base, token);
    }
  }

  /** Every task is the request of one of the entities, which passed the
      filter, and carries the same bearer token. */
  lemma {:induction false} PlanSound(entities: seq<Entity>, base: string, token: Value)
    ensures forall r :: r in Plan(entities, base, token) ==>
      r.entity in entities && RequestFor(r.entity, base, token) == Some(r) &&
      PassesFilter(r.entity) && r.authorization == "Bearer " + ToJsString(token)
  {
    if entities != [] {
      var init := entities[..|entities| - 1];
      PlanSound(init, base, token);
      assert forall e :: e in init ==> e in entities;
    }
  }

  /** Every entity that has a request has it among the tasks. */
  lemma {:induction false} PlanComplete(entities: seq<Entity>, base: string, token: Value)
    ensures forall e :: e in entities && RequestFor(e, base, token).Some? ==>
      RequestFor(e, base, token).value in Plan(entities, base, token)
  {
    if entities != [] {
      var init := entities[..|entities| - 1];
      PlanComplete(init, base, token);
      assert forall e :: e in entities ==> e in init || e == entities[|entities| - 1];
    }
  }

  /** An IP entity whose value is ignored never produces a task. */
  lemma IgnoredIpNeverQueried(entities: seq<Entity>, base: string, token: Value, e: Entity)
    requires e.isIP && e.value in IgnoredIps
    ensures forall r :: r in Plan(entities, base, token) ==> r.entity != e
  {
  }
}
