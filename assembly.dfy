/** The second `forEach` of `doLookup`: each task result becomes one
    `{entity, data}` entry. */
module ResultAssembly {
  import opened Outcomes
  import opened JsValues
  import opened LookupRequests
  import opened LookupResponses

  /** `null`, or `{summary: [], details: body}`. */
  datatype LookupData = NoData | Details(summary: seq<Value>, details: Value)

  datatype LookupResult = LookupResult(entity: Entity, data: LookupData)

  /** The entry for one task result; `None` when the condition
      `result.body === null || _isMiss(result.body.data) || _.isEmpty(result.body.data)`
      throws, which happens when `result.body` is undefined (the `{}` result,
      or a 200 with no body). */
  function EntryFor(result: TaskResult): Option<LookupResult>
  {
    match result
    case EmptyResult => None
    case Found(entity, body) =>
      if body.Null? then Some(LookupResult(entity, NoData))
      else
        match Get(body, "data")
        case None => None
        case Some(data) =>
          if IsMiss(data) || IsEmpty(data) then Some(LookupResult(entity, NoData))
          else Some(LookupResult(entity, Details([], body)))
  }

  /** All entries, or `None` when assembling one of them throws. */
  function Assembly(results: seq<TaskResult>): Option<seq<LookupResult>>
  {
    MapAll(EntryFor, results)
  }

  /** A result yields `data: null` exactly when its body is null or its
      `body.data` is empty; otherwise the WHOLE body is the details. A `{}`
      result and an undefined body throw. */
  lemma EntryData(result: TaskResult)
    ensures EntryFor(result).None? <==> result.EmptyResult? || result.body.Undefined?
    ensures EntryFor(result).Some? ==>
      EntryFor(result).value.entity == result.entity &&
      (EntryFor(result).value.data.NoData? <==>
        result.body.Null? || IsEmpty(Get(result.body, "data").value)) &&
      (EntryFor(result).value.data.Details? ==> EntryFor(result).value.data == Details([], result.body))
  {
  }

  /** Assembly throws exactly when one result throws, and otherwise yields
      one entry per result, in results order. */
  lemma AssemblyOutcome(results: seq<TaskResult>)
    ensures Assembly(results).None? <==>
      exists i :: 0 <= i < |results| && (results[i].EmptyResult? || results[i].body.Undefined?)
    ensures Assembly(results).Some? ==>
      |Assembly(results).value| == |results| &&
      forall i :: 0 <= i < |results| ==> Some(Assembly(results).value[i]) == EntryFor(results[i])
  {
    MapAllFailsIff(EntryFor, results);
    forall i | 0 <= i < |results| {
      EntryData(results[i]);
    }
    if Assembly(results).Some? {
      MapAllPointwise(EntryFor, results);
    }
  }

  method Assemble(results: seq<TaskResult>) returns (r: Option<seq<LookupResult>>)
    ensures r == Assembly(results)
  {
    var lookupResults := [];
    var i := 0;
    while i < |results|
      invariant 0 <= i <= |results|
      invariant Assembly(results[..i]) == Some(lookupResults)
    {
      var entry := EntryFor(results[i]);
      if entry.None? {
        MapAllFailsIff(EntryFor, results);
        return None;
      }
      MapAllSnoc(EntryFor, results[..i], results[i]);
      assert results[..i] + [results[i]] == results[..i + 1];
      lookupResults := lookupResults + [entry.value];
      i := i + 1;
    }
    assert results[..i] == results;
    r := Some(lookupResults);
  }
}
