/**
 * The editor's config check: the validation service's answer about a config
 * document, turned into the `ValidationResult` the YAML editor highlights.
 * The GraphQL request itself is not modelled; its delivery (or failure) is an
 * input, and every request the check would send is recorded in its outcome.
 */
module ConfigCheck {
  import opened Wrappers
  import Decimal

  /** One step of a validation error's location trail. */
  datatype StackEntry =
    | EvaluationStackPathEntry(fieldName: string)
    | EvaluationStackListItemEntry(listIndex: Decimal.int32)

  /** An error as the `isPipelineConfigValid` query returns it. */
  datatype RawError = RawError(reason: string, message: string, entries: seq<StackEntry>)

  /** A `__typename` other than `PipelineConfigValidationInvalid`. */
  type OtherTypenameText = t: string | t != "PipelineConfigValidationInvalid" witness "PipelineConfigValidationValid"

  /** The `isPipelineConfigValid` answer, told apart by its `__typename`. */
  datatype RawValidity =
    | PipelineConfigValidationInvalid(errors: seq<RawError>)
    | OtherTypename(typename: OtherTypenameText)

  /** What the GraphQL client hands back: a delivered answer or a rejected query. */
  datatype Transport = Delivered(response: RawValidity) | QueryRejected(failure: string)

  /** A config document, reduced to its top-level keys in iteration order. */
  datatype ConfigDocument = ConfigDocument(keys: seq<string>)

  /** A validation request sent to the server. */
  datatype Request = Request(pipelineName: string, config: ConfigDocument)

  datatype ValidationError = ValidationError(message: string, reason: string, path: seq<string>)

  datatype ValidationResult = Valid | Invalid(errors: seq<ValidationError>)

  /** The requests a check sent, and what it resolved to (or rejected with). */
  datatype CheckOutcome = CheckOutcome(requests: seq<Request>, result: Result<ValidationResult, string>)

  /** The path segment one stack entry contributes. */
  function Segment(e: StackEntry): (segment: string)
    ensures e.EvaluationStackPathEntry? ==> segment == e.fieldName
    ensures e.EvaluationStackListItemEntry? ==> Decimal.Parse(segment) == Some(e.listIndex as int)
    ensures e.EvaluationStackListItemEntry? ==>
              && 0 < |segment|
              && (e.listIndex < 0 <==> segment[0] == '-')
              && (|segment| > 1 ==> segment[if e.listIndex < 0 then 1 else 0] != '0')
  {
    match e
    case EvaluationStackPathEntry(name) => name
    case EvaluationStackListItemEntry(index) =>
      Decimal.ParseFormat(index);
      Decimal.Format(index)
  }

  /** The path read off a stack: one segment per entry, outermost entry first. */
  function StackPath(entries: seq<StackEntry>): (path: seq<string>)
    ensures |path| == |entries|
    ensures forall i :: 0 <= i < |entries| ==> path[i] == Segment(entries[i])
  {
    if |entries| == 0 then []
    else StackPath(entries[..|entries| - 1]) + [Segment(entries[|entries| - 1])]
  }

  /** Each raw error as an editor error, before top-level errors are anchored. */
  function ConvertErrors(raw: seq<RawError>): (errs: seq<ValidationError>)
    ensures |errs| == |raw|
    ensures forall i :: 0 <= i < |raw| ==>
              errs[i].message == raw[i].message && errs[i].reason == raw[i].reason &&
              |errs[i].path| == |raw[i].entries| &&
              forall j :: 0 <= j < |raw[i].entries| ==> errs[i].path[j] == Segment(raw[i].entries[j])
  {
    if |raw| == 0 then []
    else
      var e := raw[|raw| - 1];
      ConvertErrors(raw[..|raw| - 1]) + [ValidationError(e.message, e.reason, StackPath(e.entries))]
  }

  /** Points every error with an empty path at the document's first top-level key. */
  function AnchorTopLevel(errs: seq<ValidationError>, keys: seq<string>): (out: seq<ValidationError>)
    ensures |out| == |errs|
    ensures forall i :: 0 <= i < |errs| ==>
              out[i].message == errs[i].message && out[i].reason == errs[i].reason
    ensures forall i :: 0 <= i < |errs| && |errs[i].path| > 0 ==> out[i].path == errs[i].path
    ensures forall i :: 0 <= i < |errs| && |errs[i].path| == 0 && |keys| > 0 ==> out[i].path == [keys[0]]
    ensures forall i :: 0 <= i < |errs| && |errs[i].path| == 0 && |keys| == 0 ==> out[i].path == []
  {
    if |errs| == 0 then []
    else
      var e := errs[|errs| - 1];
      var anchored := if |e.path| == 0 && |keys| > 0 then e.(path := [keys[0]]) else e;
      AnchorTopLevel(errs[..|errs| - 1], keys) + [anchored]
  }

  /** Anchoring a second time changes nothing: after one pass an error's path is
      empty only when the document has no key to anchor it to. */
  lemma AnchorTopLevelIdempotent(errs: seq<ValidationError>, keys: seq<string>)
    ensures AnchorTopLevel(AnchorTopLevel(errs, keys), keys) == AnchorTopLevel(errs, keys)
  {
  }

  /** How one raw error must appear in the editor, given the document's keys. */
  ghost predicate Normalised(raw: RawError, out: ValidationError, keys: seq<string>) {
    && out.message == raw.message
    && out.reason == raw.reason
    && (|raw.entries| > 0 ==>
          |out.path| == |raw.entries| &&
          forall j :: 0 <= j < |raw.entries| ==> out.path[j] == Segment(raw.entries[j]))
    && (|raw.entries| == 0 && |keys| > 0 ==> out.path == [keys[0]])
    && (|raw.entries| == 0 && |keys| == 0 ==> out.path == [])
  }

  /** The editor's config check, with the server's answer supplied as `transport`. */
  function CheckConfig(pipelineName: string, config: Option<ConfigDocument>, transport: Transport): (r: CheckOutcome)
    ensures config.None? ==> r.requests == [] && r.result == Success(Valid)
    ensures config.Some? ==> r.requests == [Request(pipelineName, config.value)]
    ensures config.Some? && transport.QueryRejected? ==> r.result == Failure(transport.failure)
    ensures config.Some? && transport.Delivered? && !transport.response.PipelineConfigValidationInvalid? ==>
              r.result == Success(Valid)
    ensures config.Some? && transport.Delivered? && transport.response.PipelineConfigValidationInvalid? ==>
              var raw := transport.response.errors;
              && r.result.Success? && r.result.value.Invalid?
              && |r.result.value.errors| == |raw|
              && forall i :: 0 <= i < |raw| ==> Normalised(raw[i], r.result.value.errors[i], config.value.keys)
  {
    match config
    case None => CheckOutcome([], Success(Valid))
    case Some(doc) =>
      var sent := [Request(pipelineName, doc)];
      match transport
      case QueryRejected(failure) => CheckOutcome(sent, Failure(failure))
      case Delivered(OtherTypename(_)) => CheckOutcome(sent, Success(Valid))
      case Delivered(PipelineConfigValidationInvalid(raw)) =>
        CheckOutcome(sent, Success(Invalid(AnchorTopLevel(ConvertErrors(raw), doc.keys))))
  }

  /** Whatever the answer, a config that is present is sent exactly once and a
      missing one never: the check neither caches nor retries. */
  lemma OneRequestPerPresentConfig(pipelineName: string, config: Option<ConfigDocument>, transport: Transport)
    ensures |CheckConfig(pipelineName, config, transport).requests| == if config.Some? then 1 else 0
  {
  }

  /** An error keeps every list index it was reported with: each list segment of
      its path reads back as that index. */
  lemma ListIndicesRecoverable(pipelineName: string, doc: ConfigDocument, raw: seq<RawError>, i: nat, j: nat)
    requires i < |raw| && j < |raw[i].entries| && raw[i].entries[j].EvaluationStackListItemEntry?
    ensures var r := CheckConfig(pipelineName, Some(doc), Delivered(PipelineConfigValidationInvalid(raw)));
            Decimal.Parse(r.result.value.errors[i].path[j]) == Some(raw[i].entries[j].listIndex as int)
  {
  }
  /** Worked cases: a field then a list index; a top-level error anchored to the
      first key; a top-level error on a document without keys. */
  lemma ExamplePaths()
    ensures var stack := [EvaluationStackPathEntry("a"), EvaluationStackListItemEntry(2)];
            var r := CheckConfig("p", Some(ConfigDocument(["x"])),
                                 Delivered(PipelineConfigValidationInvalid([RawError("R", "m", stack)])));
            r.result == Success(Invalid([ValidationError("m", "R", ["a", "2"])]))
    ensures var r := CheckConfig("p", Some(ConfigDocument(["x", "y"])),
                                 Delivered(PipelineConfigValidationInvalid([RawError("R", "m", [])])));
            r.result == Success(Invalid([ValidationError("m", "R", ["x"])]))
    ensures var r := CheckConfig("p", Some(ConfigDocument([])),
                                 Delivered(PipelineConfigValidationInvalid([RawError("R", "m", [])])));
            r.result == Success(Invalid([ValidationError("m", "R", [])]))
  {
    assert Decimal.Format(2) == "2";
    var stack := [EvaluationStackPathEntry("a"), EvaluationStackListItemEntry(2)];
    var nested := CheckConfig("p", Some(ConfigDocument(["x"])),
                              Delivered(PipelineConfigValidationInvalid([RawError("R", "m", stack)])));
    assert nested.result.value.errors[0].path == ["a", "2"];
    assert nested.result.value.errors == [ValidationError("m", "R", ["a", "2"])];
    var anchored := CheckConfig("p", Some(ConfigDocument(["x", "y"])),
                                Delivered(PipelineConfigValidationInvalid([RawError("R", "m", [])])));
    assert anchored.result.value.errors[0] == ValidationError("m", "R", ["x"]);
    assert anchored.result.value.errors == [ValidationError("m", "R", ["x"])];
    var bare := CheckConfig("p", Some(ConfigDocument([])),
                            Delivered(PipelineConfigValidationInvalid([RawError("R", "m", [])])));
    assert bare.result.value.errors[0] == ValidationError("m", "R", []);
    assert bare.result.value.errors == [ValidationError("m", "R", [])];
  }
}
