# Dagster config check and GraphQL execution inputs, in Dafny

This project models two small data-transformation cores that sit behind
Dagster's GraphQL front end.

**The Dagit config editor** (`ConfigCodeEditorContainer.tsx`):

- `checkConfig` turns the server's answer to `isPipelineConfigValid` into the
  `ValidationResult` the YAML editor highlights. A missing (`null`) config is
  valid and is never sent. Any answer other than
  `PipelineConfigValidationInvalid` is valid. Otherwise each error's evaluation
  stack becomes a path: a field name for a path entry, the decimal text of the
  index for a list entry. An error with an empty path is then anchored to the
  document's first top-level key.
- `createTypeConfig` folds the pipeline's config types into a map from
  composite type name to its fields, and picks out the environment type's
  fields.

**The GraphQL layer's execution inputs** (`dagster_graphql/implementation/utils.py`):

- `PipelineSelector`, `ExecutionMetadata` and `ExecutionParams` are validated
  records. Their constructors apply `dagster.check` parameter checks, and each
  has a serialiser to a GraphQL input dict. `PipelineSelector.from_dict` parses
  such a dict back.
- `UserFacingGraphQLError` builds a `[Class] message` text.
- `capture_dauphin_error` turns every `Exception` a resolver raises into a
  returned error object. Exceptions that derive only from `BaseException`
  (`KeyboardInterrupt`, `SystemExit`) still propagate.

Modules:

- `Wrappers`: `Option` and `Result`.
- `Decimal`: the text `${n}` gives a GraphQL `Int`, and a parser for it.
- `ConfigCheck`: `checkConfig`.
- `TypeConfig`: `createTypeConfig`.
- `PyValue`: Python values and the `dagster.check` checks as `Result`-returning
  functions. A dict is its `items()` sequence.
- `ExecutionInputs`: the three records and their serialisers.
- `DauphinErrors`: `UserFacingGraphQLError` and `capture_dauphin_error`.

The GraphQL query in `checkConfig` is not executed. Its delivery, or the
rejection of the query, is an input (`Transport`). Every request the check
would send is recorded in its outcome, so "no request for a null config" and
"exactly one request otherwise" are stated facts.

Two details of `checkConfig` worth noting:

- An invalid answer with no errors gives `isValid: false` with an empty list,
  and so does `CheckConfig`.
- `reason` is copied verbatim, so it is a string here.

## Model

| member | source | states |
|---|---|---|
| ConfigCheck.CheckConfig | js_modules/dagit/src/configeditor/ConfigCodeEditorContainer.tsx:154-206 | a null config is valid and sends no request; a present one sends exactly one; a rejected query propagates as a failure; a non-Invalid answer is valid whatever the config; an Invalid answer gives one error per raw error, in order, message and reason verbatim, with the stack path or, for an empty stack, the first top-level key (empty when there are no keys) |
| ConfigCheck.OneRequestPerPresentConfig | js_modules/dagit/src/configeditor/ConfigCodeEditorContainer.tsx:159-176 | whatever the answer, the check sends one request for a present config and none for a null one (no cache, no retry) |
| ConfigCheck.Segment | js_modules/dagit/src/configeditor/ConfigCodeEditorContainer.tsx:187-190 | a path entry contributes its field name; a list entry contributes the canonical decimal text of its index (a minus sign exactly for negatives, no leading zero), which parses back to that index |
| ConfigCheck.StackPath | js_modules/dagit/src/configeditor/ConfigCodeEditorContainer.tsx:186-191 | the path has one segment per stack entry, in stack order: the field name for a path entry, the decimal index for a list entry |
| ConfigCheck.ConvertErrors | js_modules/dagit/src/configeditor/ConfigCodeEditorContainer.tsx:182-193 | before anchoring, one error per raw error in order, message and reason copied, path as long as the stack and segment j from entry j |
| ConfigCheck.AnchorTopLevel | js_modules/dagit/src/configeditor/ConfigCodeEditorContainer.tsx:195-203 | non-empty paths are untouched; an empty path becomes `[firstKey]` when the document has keys and stays empty otherwise; message and reason never change |
| ConfigCheck.AnchorTopLevelIdempotent | js_modules/dagit/src/configeditor/ConfigCodeEditorContainer.tsx:198-203 | anchoring twice equals anchoring once |
| ConfigCheck.ListIndicesRecoverable | js_modules/dagit/src/configeditor/ConfigCodeEditorContainer.tsx:186-191 | a list-index segment of an output path reads back as the reported index, so no index information is lost |
| ConfigCheck.ExamplePaths | js_modules/dagit/src/configeditor/ConfigCodeEditorContainer.tsx:182-205 | stack `[field a, index 2]` gives path `["a", "2"]`; an empty stack on keys `x, y` gives `["x"]`; on a keyless document, `[]` |
| Decimal.Format | js_modules/dagit/src/configeditor/ConfigCodeEditorContainer.tsx:190 | `${listIndex}` is a minus sign exactly for negative indices followed by decimal digits without a leading zero |
| Decimal.ParseFormat | js_modules/dagit/src/configeditor/ConfigCodeEditorContainer.tsx:190 | the decimal text of every 32-bit list index parses back to that index |
| Decimal.FormatInjective | js_modules/dagit/src/configeditor/ConfigCodeEditorContainer.tsx:190 | distinct list indices never give the same path segment |
| TypeConfig.CreateTypeConfig | js_modules/dagit/src/configeditor/ConfigCodeEditorContainer.tsx:97-122 | the map's keys are exactly the names of composite types; each name maps to the fields of the last composite type with that name; `environment` is the entry for the environment type name, or empty when there is none |
| TypeConfig.LastCompositeIndex | js_modules/dagit/src/configeditor/ConfigCodeEditorContainer.tsx:110-117 | the entry that decides a name's fields: a composite type of that name with no later one; none exactly when no composite type has that name |
| TypeConfig.FieldInfos | js_modules/dagit/src/configeditor/ConfigCodeEditorContainer.tsx:112-115 | one `{name, typeName}` per field, in order, with the field's name and its type's name |
| PyValue.GetItem | python_modules/dagster-graphql/dagster_graphql/implementation/utils.py:47 | `data['name']` succeeds exactly on a dict holding the key and then gives the value stored under it; raises KeyError on a dict without it, and a type error on a non-dict |
| PyValue.GetOrNone | python_modules/dagster-graphql/dagster_graphql/implementation/utils.py:47 | `data.get('solidSubset')` is defined exactly on dicts and gives `None` for a missing key |
| PyValue.StrParam | python_modules/dagster-graphql/dagster_graphql/implementation/utils.py:36 | the name check accepts exactly strings and otherwise raises a check error naming the parameter |
| PyValue.OptStrParam | python_modules/dagster-graphql/dagster_graphql/implementation/utils.py:82-85 | the run id checks accept exactly `None` or a string |
| PyValue.StrListParam | python_modules/dagster-graphql/dagster_graphql/implementation/utils.py:39 | the solid-subset check accepts exactly lists of strings and keeps the list as given |
| PyValue.StrDictParam | python_modules/dagster-graphql/dagster_graphql/implementation/utils.py:83 | the tags check accepts exactly str-to-str dicts and keeps the dict as given |
| ExecutionInputs.NewPipelineSelector | python_modules/dagster-graphql/dagster_graphql/implementation/utils.py:32-40 | construction succeeds iff `name` is a string and `solid_subset` is `None` or a list of strings; the first bad argument names the check error; an omitted subset is stored as `None`; the fields hold the arguments |
| ExecutionInputs.SelectorToGraphqlInput | python_modules/dagster-graphql/dagster_graphql/implementation/utils.py:42-43 | the input dict has exactly two keys: `name` is the selector's name and its `solidSubset` the subset as a list, or `None` when there is none |
| ExecutionInputs.SelectorFromDict | python_modules/dagster-graphql/dagster_graphql/implementation/utils.py:45-47 | a non-dict fails, a dict without `name` raises KeyError, otherwise the selector is built from `name` and `solidSubset`, a missing `solidSubset` counting as `None` |
| ExecutionInputs.SelectorRoundTrip | python_modules/dagster-graphql/dagster_graphql/implementation/utils.py:42-47 | `from_dict(s.to_graphql_input()) == s` for every selector |
| ExecutionInputs.SelectorFromDictThenSerialise | python_modules/dagster-graphql/dagster_graphql/implementation/utils.py:42-47 | serialising a parsed selector reproduces the `name` and `solidSubset` it was read from |
| ExecutionInputs.NewExecutionMetadata | python_modules/dagster-graphql/dagster_graphql/implementation/utils.py:78-86 | construction succeeds iff the run ids are `None` or strings and `tags` is a str-to-str dict; the first bad argument names the check error; the omitted root and parent run ids default to `None`; the fields hold the arguments |
| ExecutionInputs.MetadataToGraphqlInput | python_modules/dagster-graphql/dagster_graphql/implementation/utils.py:88-94 | the input dict has exactly four keys: `runId`, `rootRunId` and `parentRunId` are the run ids unchanged (`None` when absent) and its `tags` the tag records |
| ExecutionInputs.TagRecords | python_modules/dagster-graphql/dagster_graphql/implementation/utils.py:91 | one `{key, value}` record per tag, in the dict's order, each pairing a key with its own value |
| ExecutionInputs.TagRecordsReadBack | python_modules/dagster-graphql/dagster_graphql/implementation/utils.py:91 | rebuilding a dict from the tag records gives back the original tag dict |
| ExecutionInputs.MetadataRoundTrip | python_modules/dagster-graphql/dagster_graphql/implementation/utils.py:88-94 | reading serialised metadata back yields the same record: run ids pass through unchanged and no tag is lost |
| ExecutionInputs.NewExecutionParams | python_modules/dagster-graphql/dagster_graphql/implementation/utils.py:53-66 | construction succeeds iff the config is a dict with string keys, the step keys are `None` or a list of strings, and the mode is a string; checks run in that order; the fields hold the arguments, step keys as given |
| ExecutionInputs.ExecutionParamsToGraphqlInput | python_modules/dagster-graphql/dagster_graphql/implementation/utils.py:68-75 | the input dict has exactly five keys: `selector` and `executionMetadata` are those records' own serialisations, `environmentConfigData` is the config dict, and `mode` and `stepKeys` are unchanged |
| ExecutionInputs.ExecutionParamsInputPassesThrough | python_modules/dagster-graphql/dagster_graphql/implementation/utils.py:68-75 | the serialised params embed the selector's and metadata's own serialisations, send the config unchanged under `environmentConfigData`, and pass mode and step keys through unchanged |
| DauphinErrors.MessageText | python_modules/dagster-graphql/dagster_graphql/implementation/utils.py:27 | the formatted message is the `message` attribute, or the text `None` when the error has no such attribute |
| DauphinErrors.NewUserFacingGraphQLError | python_modules/dagster-graphql/dagster_graphql/implementation/utils.py:22-29 | the exception keeps its error object, and its text is `[`, the class name, `] `, then the message (or `None` when there is no message attribute) |
| DauphinErrors.UserFacingTextReadsBack | python_modules/dagster-graphql/dagster_graphql/implementation/utils.py:25-28 | for a class name without `]`, the class name and message text can be read back off the exception's text |
| DauphinErrors.MissingMessageLooksLikeNone | python_modules/dagster-graphql/dagster_graphql/implementation/utils.py:25-28 | an error without a message attribute renders the same as one whose message is the text `None` |
| DauphinErrors.CaptureCall | python_modules/dagster-graphql/dagster_graphql/implementation/utils.py:12-17 | the wrapped call returns exactly when the call returned or raised an `Exception`; a normal return passes through unchanged; a user-facing error yields its error object; any other `Exception` yields a Python error object; an exception deriving only from `BaseException` propagates unchanged |
| DauphinErrors.CaptureDauphinError | python_modules/dagster-graphql/dagster_graphql/implementation/utils.py:8-19 | for every argument the wrapped function raises only what `except Exception` lets through, agrees with the original wherever that one returns, returns the error object of a user-facing error and a Python error object for any other `Exception` |
| DauphinErrors.CaptureIdempotent | python_modules/dagster-graphql/dagster_graphql/implementation/utils.py:8-19 | wrapping an already wrapped call changes nothing |
| DauphinErrors.RaisingIsReturning | python_modules/dagster-graphql/dagster_graphql/implementation/utils.py:14-15 | raising a `UserFacingGraphQLError` and returning its error object look the same to the client |

## Left out

- The Apollo query, its `no-cache` fetch policy and the promise sequencing are not modelled: the answer (or the query's rejection) is an input.
- The React rendering (`render`, `Loading`, `ConfigCodeEditor`), the query texts and `Warning.tsx` are not modelled: they are presentation with no stateable logic.
- `BackfillTable.types.ts` is not modelled: it holds type declarations only.
- A config document is reduced to its top-level key sequence, taken as given. JavaScript's `Object.keys` ordering is not modelled, and neither are non-object configs or an `undefined` config (for which `Object.keys` would throw).
- TypeConfig.CreateTypeConfig: the type map is a plain map. A JavaScript object literal also answers inherited names such as `constructor`, so an environment type with such a name would read an inherited member. Assigning to the name `__proto__` replaces the object's prototype instead of adding a key, so a composite type of that name would be missing from the map. Neither case is modelled.
- Decimal.Format: list indices are GraphQL `Int`s (32-bit), so the exponent notation JavaScript uses from 1e21 upward never arises and is not modelled.
- `dagster.check` is modelled only through the checks these records use. All of its error classes are collapsed into one `CheckError` naming the parameter.
- The `inst_param` checks on `ExecutionParams`' selector and metadata hold by typing, because the model takes those arguments as typed records.
- `PyValue.Lookup` returns the first entry with the key. The model does not require dict keys to be distinct, except where a round trip needs it (`MetadataRoundTrip`).
- `ExecutionInputs.MetadataFromGraphqlInput` and `TagDictFromRecords` model the reading side that turns GraphQL input back into metadata. That side is not part of this model's source; these functions exist only to state the round trip.
- `serializable_error_info_from_exc_info` is not modelled: an arbitrary exception carries its serialisable error info (`ErrorInfo`) as an opaque value.
- DauphinErrors.NewUserFacingGraphQLError: the `message` attribute is modelled as a string. `str()` of a non-string message is not modelled.
- Concurrent calls of the check are not modelled: every operation here is a pure function, so calls cannot interfere.
