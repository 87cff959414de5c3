/** `POST /api/workflow`: checks that the body names a document and an
    action, then saves a draft, submits, or validates one step. The clock
    readings (`Date.now()` and `new Date().toISOString()`) are parameters. */
module WorkflowRoute {
  import opened Wrappers
  import opened Json
  import opened RequiredTags
  import Text

  /** The fields the handler reads from the parsed body (`None` = absent). */
  datatype WorkflowRequest = WorkflowRequest(
    documentId: Field,
    belongingRating: Field,
    selectedCategory: Field,
    selectedTags: Field,
    customTags: Field,    // destructured by the handler but never used
    action: Field,
    step: Field)

  datatype WorkflowResponse =
    | Rejected(status: int, error: string)
    | DraftSaved(message: string, workflowId: string, savedAt: string)
    | Submitted(message: string, workflowId: string, submittedAt: string, processingEstimate: string)
    | Validated(valid: bool, errors: map<string, string>)
  {
    /** The HTTP status code. */
    function Status(): int
    {
      if Rejected? then status else 200
    }

    /** The `success` flag of the JSON body. */
    predicate Success()
    {
      !Rejected?
    }
  }

  const MissingFields: string := "Missing required fields"
  const IncompleteData: string := "Incomplete workflow data"
  const InvalidAction: string := "Invalid action"

  /** `workflow_${documentId}_${Date.now()}`. */
  function WorkflowId(documentId: Json, nowMillis: nat): (id: string)
    ensures "workflow_" <= id
    ensures |Text.NatToDecimal(nowMillis)| < |id| &&
            id[|id| - |Text.NatToDecimal(nowMillis)|..] == Text.NatToDecimal(nowMillis)
  {
    "workflow_" + ToJsString(documentId) + "_" + Text.NatToDecimal(nowMillis)
  }

  /** Ids made for one document at different milliseconds differ. */
  lemma WorkflowIdsDiffer(documentId: Json, m: nat, n: nat)
    requires m != n
    ensures WorkflowId(documentId, m) != WorkflowId(documentId, n)
  {
    var prefix := "workflow_" + ToJsString(documentId) + "_";
    assert WorkflowId(documentId, m) == prefix + Text.NatToDecimal(m);
    assert WorkflowId(documentId, n) == prefix + Text.NatToDecimal(n);
    Text.PrefixedDecimalInjective(prefix, m, n);
  }

  /** `!selectedTags || !selectedTags[dim] || selectedTags[dim].length === 0`. */
  predicate TagSelectionMissing(tags: Field, dim: string)
  {
    !Truthy(tags) || !Truthy(Property(tags, dim)) || Property(Property(tags, dim), "length") == Some(Num(0))
  }

  /** The route's notion of a missing dimension, as a predicate on names. */
  function Unselected(tags: Field): string -> bool
  {
    (d: string) => TagSelectionMissing(tags, d)
  }

  /** The error map of the `validate` action. */
  function ValidationErrors(body: WorkflowRequest): (errors: map<string, string>)
    ensures forall k :: k in errors ==>
              errors[k] == if k == "belongingRating" then RatingMessage
                           else if k == "selectedCategory" then CategoryMessage
                           else MissingTagMessage(k)
    ensures body.step !in {Some(Str("A")), Some(Str("B")), Some(Str("C"))} ==> errors == map[]
  {
    if body.step == Some(Str("A")) then
      if Truthy(body.belongingRating) then map[] else map["belongingRating" := RatingMessage]
    else if body.step == Some(Str("B")) then
      if Truthy(body.selectedCategory) then map[] else map["selectedCategory" := CategoryMessage]
    else if body.step == Some(Str("C")) then
      TagErrorsExact(Unselected(body.selectedTags), RequiredDimensions);
      TagErrors(Unselected(body.selectedTags), RequiredDimensions)
    else map[]
  }

  /** The response the handler sends for `body`. */
  function Respond(body: WorkflowRequest, nowMillis: nat, isoNow: string): (r: WorkflowResponse)
    ensures r.Status() in {200, 400}
    ensures r.Rejected? ==> r.status == 400 && r.error in {MissingFields, IncompleteData, InvalidAction}
    ensures !r.Rejected? ==> Truthy(body.documentId) && Truthy(body.action)
    ensures r.Validated? ==> (r.valid <==> r.errors == map[])
  {
    if !Truthy(body.documentId) || !Truthy(body.action) then Rejected(400, MissingFields)
    else if body.action == Some(Str("save_draft")) then
      DraftSaved("Draft saved successfully", WorkflowId(body.documentId.value, nowMillis), isoNow)
    else if body.action == Some(Str("submit")) then
      if !Truthy(body.belongingRating) || !Truthy(body.selectedCategory) || !Truthy(body.selectedTags)
      then Rejected(400, IncompleteData)
      else Submitted("Workflow submitted successfully", WorkflowId(body.documentId.value, nowMillis),
                     isoNow, "5-10 minutes")
    else if body.action == Some(Str("validate")) then
      var errors := ValidationErrors(body);
      Validated(|errors| == 0, errors)
    else Rejected(400, InvalidAction)
  }

  /** The `validate` branch: an empty error record that each step's checks
      fill in place. */
  method CollectErrors(body: WorkflowRequest) returns (errors: map<string, string>)
    ensures errors == ValidationErrors(body)
  {
    errors := map[];
    if body.step == Some(Str("A")) && !Truthy(body.belongingRating) {
      errors := errors["belongingRating" := RatingMessage];
    }
    if body.step == Some(Str("B")) && !Truthy(body.selectedCategory) {
      errors := errors["selectedCategory" := CategoryMessage];
    }
    if body.step == Some(Str("C")) {
      errors := CollectTagErrors(body.selectedTags, RequiredDimensions);
    }
  }

  /** The step-C `forEach`, over the dimensions `dims` in their order. */
  method CollectTagErrors(tags: Field, dims: seq<string>) returns (errors: map<string, string>)
    ensures errors == TagErrors(Unselected(tags), dims)
  {
    errors := map[];
    for i := 0 to |dims|
      invariant errors == TagErrors(Unselected(tags), dims[..i])
    {
      assert dims[..i + 1][..i] == dims[..i];
      if TagSelectionMissing(tags, dims[i]) {
        errors := errors[dims[i] := MissingTagMessage(dims[i])];
      }
    }
    assert dims[..|dims|] == dims;
  }

  /** The handler, step by step as the source runs it: the `switch` on the
      action and, for `validate`, an error record filled in place. */
  method Post(body: WorkflowRequest, nowMillis: nat, isoNow: string) returns (r: WorkflowResponse)
    ensures r == Respond(body, nowMillis, isoNow)
  {
    if !Truthy(body.documentId) || !Truthy(body.action) {
      return Rejected(400, MissingFields);
    }
    var action := body.action.value;
    if action == Str("save_draft") {
      r := DraftSaved("Draft saved successfully", WorkflowId(body.documentId.value, nowMillis), isoNow);
    } else if action == Str("submit") {
      if !Truthy(body.belongingRating) || !Truthy(body.selectedCategory) || !Truthy(body.selectedTags) {
        return Rejected(400, IncompleteData);
      }
      r := Submitted("Workflow submitted successfully", WorkflowId(body.documentId.value, nowMillis),
                     isoNow, "5-10 minutes");
    } else if action == Str("validate") {
      var errors := CollectErrors(body);
      r := Validated(|errors| == 0, errors);
    } else {
      r := Rejected(400, InvalidAction);
    }
  }

  // ---- Properties of the handler ----

  /** A falsy `documentId` or `action` is a 400 whatever the action is. */
  lemma MissingFieldsRejected(body: WorkflowRequest, nowMillis: nat, isoNow: string)
    ensures !Truthy(body.documentId) || !Truthy(body.action) <==>
            Respond(body, nowMillis, isoNow) == Rejected(400, MissingFields)
  {
  }

  /** Once both are present, an action other than the three known strings is a
      400 "Invalid action", and a known one never is. */
  lemma UnknownActionRejected(body: WorkflowRequest, nowMillis: nat, isoNow: string)
    requires Truthy(body.documentId) && Truthy(body.action)
    ensures Respond(body, nowMillis, isoNow) == Rejected(400, InvalidAction) <==>
            body.action !in {Some(Str("save_draft")), Some(Str("submit")), Some(Str("validate"))}
  {
  }

  /** `save_draft` always succeeds once `documentId` and `action` are present,
      and its id names the document. */
  lemma SaveDraftSucceeds(body: WorkflowRequest, nowMillis: nat, isoNow: string)
    requires Truthy(body.documentId) && body.action == Some(Str("save_draft"))
    ensures var r := Respond(body, nowMillis, isoNow);
            r.DraftSaved? && r.Success() && r.Status() == 200 && r.savedAt == isoNow
    ensures body.documentId.value.Str? ==>
            Respond(body, nowMillis, isoNow).workflowId
            == "workflow_" + body.documentId.value.s + "_" + Text.NatToDecimal(nowMillis)
  {
  }

  /** `submit` is refused exactly when one of rating, category and tags is
      falsy; a rating of `0` is refused, an empty tag object `{}` is not. */
  lemma SubmitRequiresCompleteData(body: WorkflowRequest, nowMillis: nat, isoNow: string)
    requires Truthy(body.documentId) && body.action == Some(Str("submit"))
    ensures Respond(body, nowMillis, isoNow) == Rejected(400, IncompleteData) <==>
            !Truthy(body.belongingRating) || !Truthy(body.selectedCategory) || !Truthy(body.selectedTags)
    ensures !Respond(body, nowMillis, isoNow).Rejected? ==> Respond(body, nowMillis, isoNow).Submitted?
    ensures body.belongingRating == Some(Num(0)) ==> !Respond(body, nowMillis, isoNow).Success()
    ensures (Truthy(body.belongingRating) && Truthy(body.selectedCategory) &&
             body.selectedTags == Some(Obj(map[]))) ==> Respond(body, nowMillis, isoNow).Success()
    ensures var r := Respond(body, nowMillis, isoNow);
            r.Submitted? ==>
            && r.Status() == 200
            && r.submittedAt == isoNow
            && r.processingEstimate == "5-10 minutes"
            && (body.documentId.value.Str? ==>
                  r.workflowId == "workflow_" + body.documentId.value.s + "_" + Text.NatToDecimal(nowMillis))
  {
  }

  /** `validate` always reports success, and `valid` holds exactly when the
      error map is empty. */
  lemma ValidateReportsValidity(body: WorkflowRequest, nowMillis: nat, isoNow: string)
    requires Truthy(body.documentId) && body.action == Some(Str("validate"))
    ensures var r := Respond(body, nowMillis, isoNow);
            r.Validated? && r.Success() && r.Status() == 200 && (r.valid <==> r.errors == map[])
  {
    var errors := ValidationErrors(body);
    assert |errors| == 0 <==> errors == map[] by {
      if |errors| == 0 {
        assert errors.Keys == {};
      }
    }
  }

  /** The error keys of `validate`, step by step: step A has the rating key
      exactly when the rating is falsy, step B the category key exactly when
      the category is falsy, step C exactly the required dimensions whose
      selection is missing, and any other step none. */
  lemma {:induction false} ValidationErrorKeys(body: WorkflowRequest)
    ensures body.step == Some(Str("A")) ==>
            ValidationErrors(body).Keys == if Truthy(body.belongingRating) then {} else {"belongingRating"}
    ensures body.step == Some(Str("B")) ==>
            ValidationErrors(body).Keys == if Truthy(body.selectedCategory) then {} else {"selectedCategory"}
    ensures body.step == Some(Str("C")) ==>
            forall d :: d in ValidationErrors(body) <==>
                        d in RequiredDimensions && TagSelectionMissing(body.selectedTags, d)
    ensures body.step == Some(Str("C")) ==>
            forall d :: d in ValidationErrors(body) ==> ValidationErrors(body)[d] == MissingTagMessage(d)
    ensures body.step !in {Some(Str("A")), Some(Str("B")), Some(Str("C"))} ==> ValidationErrors(body) == map[]
  {
    TagErrorsExact(Unselected(body.selectedTags), RequiredDimensions);
  }

  /** Without a `selectedTags` field, step C reports all three required
      dimensions. */
  lemma {:induction false} StepCWithoutTagsMissesAll(body: WorkflowRequest)
    requires body.step == Some(Str("C")) && body.selectedTags.None?
    ensures forall d :: d in ValidationErrors(body) <==> d in RequiredDimensions
  {
    assert ValidationErrors(body) == TagErrors(Unselected(None), RequiredDimensions);
    TagErrorsWithoutTags(RequiredDimensions);
  }

  /** With no tag selection every visited dimension is reported. */
  lemma {:induction false} TagErrorsWithoutTags(dims: seq<string>)
    ensures forall d :: d in TagErrors(Unselected(None), dims) <==> d in dims
  {
    TagErrorsExact(Unselected(None), dims);
  }
}
