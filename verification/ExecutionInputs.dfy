/**
 * The validated records the GraphQL layer uses to describe a pipeline run —
 * `PipelineSelector`, `ExecutionMetadata` and `ExecutionParams` — and their
 * serialisers to GraphQL input dicts. Construction applies the records'
 * parameter checks and either yields the record or the check error raised.
 */
module ExecutionInputs {
  import opened Wrappers
  import opened PyValue

  /** Which pipeline, and optionally which of its solids, to run. */
  datatype PipelineSelector = PipelineSelector(name: string, solidSubset: Option<seq<string>>)

  /** `PipelineSelector(name, solid_subset=None)`. */
  function NewPipelineSelector(name: Value, solidSubset: Value := VNone): (r: Result<PipelineSelector, PyError>)
    ensures r.Success? <==> IsStr(name) && IsOptStrList(solidSubset)
    ensures !IsStr(name) ==> r == Failure(CheckError("name"))
    ensures IsStr(name) && !IsOptStrList(solidSubset) ==> r == Failure(CheckError("solid_subset"))
    ensures r.Success? ==> VStr(r.value.name) == name && OptStrListValue(r.value.solidSubset) == solidSubset
  {
    var n :- StrParam(name, "name");
    if solidSubset.VNone? then Success(PipelineSelector(n, None))
    else
      var subset :- StrListParam(solidSubset, "solid_subset");
      Success(PipelineSelector(n, Some(subset)))
  }

  /** `to_graphql_input`: a dict holding the name and the solid subset (`None` when absent). */
  function SelectorToGraphqlInput(s: PipelineSelector): (input: Value)
    ensures input.VDict? && |input.entries| == 2
    ensures GetItem(input, "name") == Success(VStr(s.name))
    ensures GetItem(input, "solidSubset") == Success(OptStrListValue(s.solidSubset))
  {
    var entries := [Entry(VStr("name"), VStr(s.name)), Entry(VStr("solidSubset"), OptStrListValue(s.solidSubset))];
    LookupAt(entries, 1, "solidSubset");
    VDict(entries)
  }

  /** `PipelineSelector.from_dict(data)`: `data['name']` is required, `solidSubset` may be missing. */
  function SelectorFromDict(data: Value): (r: Result<PipelineSelector, PyError>)
    ensures !data.VDict? ==> r == Failure(NotSubscriptable)
    ensures data.VDict? && Lookup(data.entries, "name").None? ==> r == Failure(KeyError("name"))
    ensures data.VDict? && Lookup(data.entries, "name").Some? ==>
              r == NewPipelineSelector(Lookup(data.entries, "name").value,
                                       Lookup(data.entries, "solidSubset").GetOr(VNone))
  {
    var name :- GetItem(data, "name");
    // `data` is a dict once `data['name']` succeeded, so `data.get` is defined
    NewPipelineSelector(name, GetOrNone(data, "solidSubset").value)
  }

  /** Distinct optional string lists serialise differently. */
  lemma OptStrListValueInjective(a: Option<seq<string>>, b: Option<seq<string>>)
    requires OptStrListValue(a) == OptStrListValue(b)
    ensures a == b
  {
    if a.Some? {
      StringsOfStrList(a.value);
      StringsOfStrList(b.value);
    }
  }

  /** Parsing a serialised selector gives the selector back. */
  lemma SelectorRoundTrip(s: PipelineSelector)
    ensures SelectorFromDict(SelectorToGraphqlInput(s)) == Success(s)
  {
    var r := SelectorFromDict(SelectorToGraphqlInput(s));
    OptStrListValueInjective(r.value.solidSubset, s.solidSubset);
  }

  /** Serialising a parsed selector reproduces the fields it was read from,
      a missing `solidSubset` reading as `None`. */
  lemma SelectorFromDictThenSerialise(data: Value, s: PipelineSelector)
    requires SelectorFromDict(data) == Success(s)
    ensures GetItem(SelectorToGraphqlInput(s), "name") == GetItem(data, "name")
    ensures GetOrNone(SelectorToGraphqlInput(s), "solidSubset") == GetOrNone(data, "solidSubset")
  {
  }

  /** Identity and tags of a run; `tags` are the pairs of a str-to-str dict. */
  datatype ExecutionMetadata = ExecutionMetadata(
    runId: Option<string>,
    tags: seq<(string, string)>,
    rootRunId: Option<string>,
    parentRunId: Option<string>)

  /** `ExecutionMetadata(run_id, tags, root_run_id=None, parent_run_id=None)`; the
      parameters are checked in order and the first failing one is reported. */
  function NewExecutionMetadata(runId: Value, tags: Value, rootRunId: Value := VNone, parentRunId: Value := VNone)
    : (r: Result<ExecutionMetadata, PyError>)
    ensures r.Success? <==> IsOptStr(runId) && IsStrDict(tags) && IsOptStr(rootRunId) && IsOptStr(parentRunId)
    ensures !IsOptStr(runId) ==> r == Failure(CheckError("run_id"))
    ensures IsOptStr(runId) && !IsStrDict(tags) ==> r == Failure(CheckError("tags"))
    ensures IsOptStr(runId) && IsStrDict(tags) && !IsOptStr(rootRunId) ==> r == Failure(CheckError("root_run_id"))
    ensures IsOptStr(runId) && IsStrDict(tags) && IsOptStr(rootRunId) && !IsOptStr(parentRunId) ==>
              r == Failure(CheckError("parent_run_id"))
    ensures r.Success? ==>
              && OptStrValue(r.value.runId) == runId
              && StrDictValue(r.value.tags) == tags
              && OptStrValue(r.value.rootRunId) == rootRunId
              && OptStrValue(r.value.parentRunId) == parentRunId
  {
    var run :- OptStrParam(runId, "run_id");
    var pairs :- StrDictParam(tags, "tags");
    var root :- OptStrParam(rootRunId, "root_run_id");
    var parent :- OptStrParam(parentRunId, "parent_run_id");
    Success(ExecutionMetadata(run, pairs, root, parent))
  }

  /** A tag as a GraphQL `{key, value}` record. */
  function TagRecord(key: string, value: string): Value {
    VDict([Entry(VStr("key"), VStr(key)), Entry(VStr("value"), VStr(value))])
  }

  /** One `{key, value}` record per tag, in the dict's order. */
  function TagRecords(tags: seq<(string, string)>): (records: seq<Value>)
    ensures |records| == |tags|
    ensures forall i :: 0 <= i < |tags| ==> records[i] == TagRecord(tags[i].0, tags[i].1)
  {
    if |tags| == 0 then []
    else TagRecords(tags[..|tags| - 1]) + [TagRecord(tags[|tags| - 1].0, tags[|tags| - 1].1)]
  }

  /** `to_graphql_input`: the run ids unchanged and the tags as `{key, value}` records. */
  function MetadataToGraphqlInput(m: ExecutionMetadata): (input: Value)
    ensures input.VDict? && |input.entries| == 4
    ensures GetItem(input, "runId") == Success(OptStrValue(m.runId))
    ensures GetItem(input, "tags") == Success(VList(TagRecords(m.tags)))
    ensures GetItem(input, "rootRunId") == Success(OptStrValue(m.rootRunId))
    ensures GetItem(input, "parentRunId") == Success(OptStrValue(m.parentRunId))
  {
    var entries := [
      Entry(VStr("runId"), OptStrValue(m.runId)),
      Entry(VStr("tags"), VList(TagRecords(m.tags))),
      Entry(VStr("rootRunId"), OptStrValue(m.rootRunId)),
      Entry(VStr("parentRunId"), OptStrValue(m.parentRunId))
    ];
    LookupAt(entries, 1, "tags");
    LookupAt(entries, 2, "rootRunId");
    LookupAt(entries, 3, "parentRunId");
    VDict(entries)
  }

  /** Python's `d[key] = value` on a dict's items: an existing key keeps its
      position and takes the new value, a new key goes last. */
  function SetItem(entries: seq<Entry>, key: Value, value: Value): (r: seq<Entry>)
    ensures |r| == |entries| || |r| == |entries| + 1
  {
    if |entries| == 0 then [Entry(key, value)]
    else if entries[0].key == key then [Entry(key, value)] + entries[1..]
    else [entries[0]] + SetItem(entries[1..], key, value)
  }

  lemma {:induction false} SetItemFreshKey(entries: seq<Entry>, key: Value, value: Value)
    requires forall i :: 0 <= i < |entries| ==> entries[i].key != key
    ensures SetItem(entries, key, value) == entries + [Entry(key, value)]
  {
    if |entries| > 0 {
      SetItemFreshKey(entries[1..], key, value);
      assert entries == [entries[0]] + entries[1..];
    }
  }

  /** `{t['key']: t['value'] for t in records}`: how the reading side rebuilds
      the tag dict from the records. */
  function TagDictFromRecords(records: seq<Value>): (r: Result<seq<Entry>, PyError>)
  {
    if |records| == 0 then Success([])
    else
      var entries :- TagDictFromRecords(records[..|records| - 1]);
      var key :- GetItem(records[|records| - 1], "key");
      var value :- GetItem(records[|records| - 1], "value");
      Success(SetItem(entries, key, value))
  }

  /** No key appears twice: the pairs of an actual dict. */
  predicate DistinctKeys(pairs: seq<(string, string)>) {
    forall i, j :: 0 <= i < j < |pairs| ==> pairs[i].0 != pairs[j].0
  }

  lemma TagRecordFields(key: string, value: string)
    ensures GetItem(TagRecord(key, value), "key") == Success(VStr(key))
    ensures GetItem(TagRecord(key, value), "value") == Success(VStr(value))
  {
    LookupAt(TagRecord(key, value).entries, 1, "value");
  }

  lemma {:induction false} TagRecordsReadBack(tags: seq<(string, string)>)
    requires DistinctKeys(tags)
    ensures TagDictFromRecords(TagRecords(tags)) == Success(StrDictValue(tags).entries)
  {
    if |tags| > 0 {
      var front := tags[..|tags| - 1];
      var last := tags[|tags| - 1];
      var records := TagRecords(tags);
      assert records[..|tags| - 1] == TagRecords(front);
      assert records[|tags| - 1] == TagRecord(last.0, last.1);
      TagRecordsReadBack(front);
      TagRecordFields(last.0, last.1);
      var entries := StrDictValue(front).entries;
      forall i | 0 <= i < |entries|
        ensures entries[i].key != VStr(last.0)
      {
        assert entries[i].key == VStr(front[i].0);
        assert front[i] == tags[i];
      }
      SetItemFreshKey(entries, VStr(last.0), VStr(last.1));
    }
  }

  /** A reader of the GraphQL input, defined to state the round trip. */
  function MetadataFromGraphqlInput(input: Value): Result<ExecutionMetadata, PyError> {
    var runId :- GetItem(input, "runId");
    var tags :- GetItem(input, "tags");
    var rootRunId :- GetItem(input, "rootRunId");
    var parentRunId :- GetItem(input, "parentRunId");
    if !tags.VList? then Failure(CheckError("tags"))
    else
      var entries :- TagDictFromRecords(tags.items);
      NewExecutionMetadata(runId, VDict(entries), rootRunId, parentRunId)
  }

  /** Serialised metadata carries every field and every tag: reading it back
      yields the same record. */
  lemma MetadataRoundTrip(m: ExecutionMetadata)
    requires DistinctKeys(m.tags)
    ensures MetadataFromGraphqlInput(MetadataToGraphqlInput(m)) == Success(m)
  {
    TagRecordsReadBack(m.tags);
    var rebuilt := NewExecutionMetadata(OptStrValue(m.runId), StrDictValue(m.tags),
                                        OptStrValue(m.rootRunId), OptStrValue(m.parentRunId));
    assert rebuilt.Success?;
    StrDictValueInjective(rebuilt.value.tags, m.tags);
    OptStrValueInjective(rebuilt.value.runId, m.runId);
    OptStrValueInjective(rebuilt.value.rootRunId, m.rootRunId);
    OptStrValueInjective(rebuilt.value.parentRunId, m.parentRunId);
  }

  lemma OptStrValueInjective(a: Option<string>, b: Option<string>)
    requires OptStrValue(a) == OptStrValue(b)
    ensures a == b
  {
  }

  lemma StrDictValueInjective(a: seq<(string, string)>, b: seq<(string, string)>)
    requires StrDictValue(a) == StrDictValue(b)
    ensures a == b
  {
  }

  /** Everything a run needs: the selector, its config, mode, metadata and steps. */
  datatype ExecutionParams = ExecutionParams(
    selector: PipelineSelector,
    environmentDict: Value,
    mode: string,
    executionMetadata: ExecutionMetadata,
    stepKeys: Option<seq<string>>)

  /** `ExecutionParams(selector, environment_dict, mode, execution_metadata, step_keys)`;
      the checks run in the constructor's order: config, step keys, then mode. */
  function NewExecutionParams(selector: PipelineSelector, environmentDict: Value, mode: Value,
                              executionMetadata: ExecutionMetadata, stepKeys: Value)
    : (r: Result<ExecutionParams, PyError>)
    ensures r.Success? <==> IsStrKeyedDict(environmentDict) && IsOptStrList(stepKeys) && IsStr(mode)
    ensures !IsStrKeyedDict(environmentDict) ==> r == Failure(CheckError("environment_dict"))
    ensures IsStrKeyedDict(environmentDict) && !IsOptStrList(stepKeys) ==> r == Failure(CheckError("step_keys"))
    ensures IsStrKeyedDict(environmentDict) && IsOptStrList(stepKeys) && !IsStr(mode) ==>
              r == Failure(CheckError("mode"))
    ensures r.Success? ==>
              && r.value.selector == selector
              && r.value.environmentDict == environmentDict
              && VStr(r.value.mode) == mode
              && r.value.executionMetadata == executionMetadata
              && OptStrListValue(r.value.stepKeys) == stepKeys
  {
    if !IsStrKeyedDict(environmentDict) then Failure(CheckError("environment_dict"))
    else if !IsOptStrList(stepKeys) then Failure(CheckError("step_keys"))
    else
      var m :- StrParam(mode, "mode");
      var steps := if stepKeys.VNone? then None else Some(Strings(stepKeys.items));
      assert stepKeys.VList? ==> StrListValue(steps.value).items == stepKeys.items;
      Success(ExecutionParams(selector, environmentDict, m, executionMetadata, steps))
  }

  /** `to_graphql_input`: the selector and metadata in their own serialised forms,
      the config under `environmentConfigData`, mode and step keys unchanged. */
  function ExecutionParamsToGraphqlInput(p: ExecutionParams): (input: Value)
    ensures input.VDict? && |input.entries| == 5
    ensures GetItem(input, "selector") == Success(SelectorToGraphqlInput(p.selector))
    ensures GetItem(input, "environmentConfigData") == Success(p.environmentDict)
    ensures GetItem(input, "mode") == Success(VStr(p.mode))
    ensures GetItem(input, "executionMetadata") == Success(MetadataToGraphqlInput(p.executionMetadata))
    ensures GetItem(input, "stepKeys") == Success(OptStrListValue(p.stepKeys))
  {
    var entries := [
      Entry(VStr("selector"), SelectorToGraphqlInput(p.selector)),
      Entry(VStr("environmentConfigData"), p.environmentDict),
      Entry(VStr("mode"), VStr(p.mode)),
      Entry(VStr("executionMetadata"), MetadataToGraphqlInput(p.executionMetadata)),
      Entry(VStr("stepKeys"), OptStrListValue(p.stepKeys))
    ];
    LookupAt(entries, 1, "environmentConfigData");
    LookupAt(entries, 2, "mode");
    LookupAt(entries, 3, "executionMetadata");
    LookupAt(entries, 4, "stepKeys");
    VDict(entries)
  }

  /** The serialised params hand on what the constructor was given: the config
      dict, mode and step keys unchanged, the config under `environmentConfigData`,
      and the selector and metadata in their own serialised forms. */
  lemma ExecutionParamsInputPassesThrough(selector: PipelineSelector, environmentDict: Value, mode: Value,
                                          executionMetadata: ExecutionMetadata, stepKeys: Value)
    requires NewExecutionParams(selector, environmentDict, mode, executionMetadata, stepKeys).Success?
    ensures var input := ExecutionParamsToGraphqlInput(
              NewExecutionParams(selector, environmentDict, mode, executionMetadata, stepKeys).value);
            && GetItem(input, "selector") == Success(SelectorToGraphqlInput(selector))
            && GetItem(input, "environmentConfigData") == Success(environmentDict)
            && GetItem(input, "mode") == Success(mode)
            && GetItem(input, "executionMetadata") == Success(MetadataToGraphqlInput(executionMetadata))
            && GetItem(input, "stepKeys") == Success(stepKeys)
  {
  }

}
