/** The store's `validateStep` and the route's `validate` action apply the
    same rules to the same fields, with one difference: the store treats
    only a `null` rating as missing, the route treats every falsy rating as
    missing, so a rating of `0` passes step A in the store and fails it at
    the route. This module sends the store's fields to the route as the JSON
    a client would post and compares the two error maps. */
module StoreRouteAgreement {
  import opened Wrappers
  import opened Json
  import opened Entities
  import opened RequiredTags
  import WorkflowStore
  import WorkflowRoute

  /** The rating as JSON: `null` while unset. */
  function RatingJson(rating: Option<int>): Field
  {
    Some(if rating.None? then Null else Num(rating.value))
  }

  /** The category as JSON: `null` while unset, otherwise an object of its
      required fields (only its truthiness matters to the route). */
  function CategoryJson(category: Option<Category>): Field
  {
    Some(
      if category.None? then Null
      else
        var c := category.value;
        Obj(map[
          "id" := Str(c.id),
          "name" := Str(c.name),
          "description" := Str(c.description),
          "examples" := Arr(seq(|c.examples|, i requires 0 <= i < |c.examples| => Str(c.examples[i]))),
          "isHighValue" := Bool(c.isHighValue),
          "impact" := Str(c.impact)]))
  }

  /** The tag ids of one dimension as a JSON array. */
  function IdsJson(ids: seq<string>): (j: Json)
    ensures j.Arr? && |j.items| == |ids|
  {
    Arr(seq(|ids|, i requires 0 <= i < |ids| => Str(ids[i])))
  }

  /** The tag selection as a JSON object of arrays. */
  function TagsJson(tags: map<string, seq<string>>): Field
  {
    Some(Obj(map k | k in tags :: IdsJson(tags[k])))
  }

  /** The `validate` request for the store's current fields. */
  function ValidateRequest(documentId: string, rating: Option<int>, category: Option<Category>,
                           tags: map<string, seq<string>>, step: string): WorkflowRoute.WorkflowRequest
  {
    WorkflowRoute.WorkflowRequest(
      Some(Str(documentId)), RatingJson(rating), CategoryJson(category), TagsJson(tags),
      None, Some(Str("validate")), Some(Str(step)))
  }

  /** Both validators consider the same dimensions unselected. */
  lemma TagSelectionAgrees(tags: map<string, seq<string>>, dim: string)
    ensures WorkflowStore.TagSelectionMissing(tags, dim) == WorkflowRoute.TagSelectionMissing(TagsJson(tags), dim)
  {
  }

  /** Hence their step-C `forEach` loops record the same errors. */
  lemma StepCTagErrorsAgree(tags: map<string, seq<string>>, dims: seq<string>)
    ensures TagErrors(WorkflowStore.Unselected(tags), dims)
         == TagErrors(WorkflowRoute.Unselected(TagsJson(tags)), dims)
  {
    forall d | d in dims
      ensures WorkflowStore.Unselected(tags)(d) == WorkflowRoute.Unselected(TagsJson(tags))(d)
    {
      TagSelectionAgrees(tags, d);
    }
    TagErrorsAgree(WorkflowStore.Unselected(tags), WorkflowRoute.Unselected(TagsJson(tags)), dims);
  }

  /** Step A: the errors agree unless the rating is `0`. */
  lemma {:induction false} StepAAgrees(documentId: string, rating: Option<int>, category: Option<Category>,
                                       tags: map<string, seq<string>>)
    ensures var body := ValidateRequest(documentId, rating, category, tags, "A");
            WorkflowRoute.ValidationErrors(body) == WorkflowStore.StepErrors(rating, category, tags, "A")
            <==> rating != Some(0)
  {
    var body := ValidateRequest(documentId, rating, category, tags, "A");
    assert body.step == Some(Str("A"));
    if rating == Some(0) {
      assert "belongingRating" in WorkflowRoute.ValidationErrors(body);
    }
  }

  /** Step B: the errors agree. */
  lemma {:induction false} StepBAgrees(documentId: string, rating: Option<int>, category: Option<Category>,
                                       tags: map<string, seq<string>>)
    ensures WorkflowRoute.ValidationErrors(ValidateRequest(documentId, rating, category, tags, "B"))
         == WorkflowStore.StepErrors(rating, category, tags, "B")
  {
    var body := ValidateRequest(documentId, rating, category, tags, "B");
    assert body.step == Some(Str("B")) && body.step != Some(Str("A"));
    assert Truthy(body.selectedCategory) <==> category.Some?;
  }

  /** Step C: the errors agree. */
  lemma {:induction false} StepCAgrees(documentId: string, rating: Option<int>, category: Option<Category>,
                                       tags: map<string, seq<string>>)
    ensures WorkflowRoute.ValidationErrors(ValidateRequest(documentId, rating, category, tags, "C"))
         == WorkflowStore.StepErrors(rating, category, tags, "C")
  {
    var body := ValidateRequest(documentId, rating, category, tags, "C");
    assert body.step == Some(Str("C")) && body.step != Some(Str("A")) && body.step != Some(Str("B"));
    StepCTagErrorsAgree(tags, RequiredDimensions);
  }

  /** A well-formed `validate` request is answered with its error map. */
  lemma ValidateAnswersWithErrors(body: WorkflowRoute.WorkflowRequest)
    requires Truthy(body.documentId) && body.action == Some(Str("validate"))
    ensures var errors := WorkflowRoute.ValidationErrors(body);
            WorkflowRoute.Respond(body, 0, "") == WorkflowRoute.Validated(|errors| == 0, errors)
  {
  }

  /** The route answers `validate` for the store's fields with the store's own
      error map, except exactly for step A with a rating of `0`. */
  lemma ValidatorsAgreeExceptZeroRating(documentId: string, rating: Option<int>, category: Option<Category>,
                                        tags: map<string, seq<string>>, step: string)
    requires documentId != ""
    ensures var r := WorkflowRoute.Respond(ValidateRequest(documentId, rating, category, tags, step), 0, "");
            r.Validated? &&
            (r.errors == WorkflowStore.StepErrors(rating, category, tags, step) <==> !(step == "A" && rating == Some(0)))
  {
    var body := ValidateRequest(documentId, rating, category, tags, step);
    ValidateAnswersWithErrors(body);
    if step == "A" {
      StepAAgrees(documentId, rating, category, tags);
    } else if step == "B" {
      StepBAgrees(documentId, rating, category, tags);
    } else if step == "C" {
      StepCAgrees(documentId, rating, category, tags);
    } else {
      assert body.step !in {Some(Str("A")), Some(Str("B")), Some(Str("C"))};
    }
  }

  /** The divergence itself: with rating `0` the store's step-A check passes
      and the route's fails. */
  lemma ZeroRatingDiverges(documentId: string, category: Option<Category>, tags: map<string, seq<string>>)
    requires documentId != ""
    ensures WorkflowStore.StepErrors(Some(0), category, tags, "A") == map[]
    ensures var r := WorkflowRoute.Respond(ValidateRequest(documentId, Some(0), category, tags, "A"), 0, "");
            r.Validated? && !r.valid && "belongingRating" in r.errors
  {
  }
}
