/** The client-side workflow store: one mutable record holding the wizard's
    progress (current step, the document, the step-A rating, the step-B
    category, the step-C tag selection, completed steps, validation errors
    and draft status), the actions that update it, and the projection that
    is persisted across reloads. The clock is a parameter of every action
    that stamps `lastSaved`. */
module WorkflowStore {
  import opened Wrappers
  import opened Entities
  import opened Sequences
  import opened RequiredTags

  datatype Step = A | B | C | Complete

  /** A required dimension counts as unselected when its key is absent or its
      list of tag ids is empty. */
  predicate TagSelectionMissing(tags: map<string, seq<string>>, dim: string)
  {
    dim !in tags || |tags[dim]| == 0
  }

  /** The store's notion of a missing dimension, as a predicate on names. */
  function Unselected(tags: map<string, seq<string>>): string -> bool
  {
    (d: string) => TagSelectionMissing(tags, d)
  }

  /** The error map `validateStep(step)` computes from the current fields. */
  function StepErrors(rating: Option<int>, category: Option<Category>,
                      tags: map<string, seq<string>>, step: string): (errors: map<string, string>)
    ensures step == "A" ==> errors.Keys <= {"belongingRating"}
    ensures step == "A" ==> ("belongingRating" in errors <==> rating.None?)
    ensures step == "A" && "belongingRating" in errors ==> errors["belongingRating"] == RatingMessage
    ensures step == "B" ==> errors.Keys <= {"selectedCategory"}
    ensures step == "B" ==> ("selectedCategory" in errors <==> category.None?)
    ensures step == "B" && "selectedCategory" in errors ==> errors["selectedCategory"] == CategoryMessage
    ensures step == "C" ==> forall d :: d in errors <==> d in RequiredDimensions && TagSelectionMissing(tags, d)
    ensures step == "C" ==> forall d :: d in errors ==> errors[d] == MissingTagMessage(d)
    ensures step !in {"A", "B", "C"} ==> errors == map[]
  {
    if step == "A" then
      if rating.None? then map["belongingRating" := RatingMessage] else map[]
    else if step == "B" then
      if category.None? then map["selectedCategory" := CategoryMessage] else map[]
    else if step == "C" then
      TagErrorsExact(Unselected(tags), RequiredDimensions);
      TagErrors(Unselected(tags), RequiredDimensions)
    else map[]
  }

  /** What `partialize` keeps: every field except `currentStep` and
      `validationErrors`. */
  datatype PersistedState = PersistedState(
    currentDocument: Option<Document>,
    belongingRating: Option<int>,
    selectedCategory: Option<Category>,
    selectedTags: map<string, seq<string>>,
    customTags: seq<Tag>,
    completedSteps: seq<string>,
    isDraft: bool,
    lastSaved: Option<string>)

  class Store {
    var currentStep: Step
    var currentDocument: Option<Document>
    var belongingRating: Option<int>
    var selectedCategory: Option<Category>
    var selectedTags: map<string, seq<string>>
    var customTags: seq<Tag>
    var completedSteps: seq<string>
    var validationErrors: map<string, string>
    var isDraft: bool
    var lastSaved: Option<string>

    /** The store's invariant: no step is recorded as completed twice. */
    ghost predicate Valid()
      reads this`completedSteps
    {
      NoDuplicates(completedSteps)
    }

    /** Every field other than `currentDocument` holds its initial value. */
    ghost predicate Cleared()
      reads this`currentStep, this`belongingRating, this`selectedCategory, this`selectedTags,
            this`customTags, this`completedSteps, this`validationErrors, this`isDraft, this`lastSaved
    {
      && currentStep == A
      && belongingRating == None
      && selectedCategory == None
      && selectedTags == map[]
      && customTags == []
      && completedSteps == []
      && validationErrors == map[]
      && !isDraft
      && lastSaved == None
    }

    /** `partialize`: the snapshot written to local storage. */
    function Persisted(): (p: PersistedState)
      reads this`currentDocument, this`belongingRating, this`selectedCategory, this`selectedTags,
            this`customTags, this`completedSteps, this`isDraft, this`lastSaved
      ensures Valid() ==> NoDuplicates(p.completedSteps)
    {
      PersistedState(currentDocument, belongingRating, selectedCategory, selectedTags,
                     customTags, completedSteps, isDraft, lastSaved)
    }

    /** The initial state. */
    constructor ()
      ensures Valid() && Cleared() && currentDocument == None
    {
      currentStep := A;
      currentDocument := None;
      belongingRating := None;
      selectedCategory := None;
      selectedTags := map[];
      customTags := [];
      completedSteps := [];
      validationErrors := map[];
      isDraft := false;
      lastSaved := None;
    }

    /** `setCurrentDocument`: switches document and goes back to step A; the
        selections are left as they are. */
    method SetCurrentDocument(document: Document)
      requires Valid()
      modifies this`currentDocument, this`currentStep
      ensures Valid()
      ensures currentDocument == Some(document) && currentStep == A
    {
      currentDocument, currentStep := Some(document), A;
    }

    /** `setCurrentStep`: only the step changes, so nothing persisted does. */
    method SetCurrentStep(step: Step)
      requires Valid()
      modifies this`currentStep
      ensures Valid()
      ensures currentStep == step
      ensures Persisted() == old(Persisted())
    {
      currentStep := step;
    }

    /** `saveDraft`: marks the draft dirty and stamps it with the clock. */
    method SaveDraft(now: string)
      requires Valid()
      modifies this`isDraft, this`lastSaved
      ensures Valid()
      ensures isDraft && lastSaved == Some(now)
    {
      isDraft, lastSaved := true, Some(now);
    }

    /** `setBelongingRating`. */
    method SetBelongingRating(rating: int, now: string)
      requires Valid()
      modifies this`belongingRating, this`isDraft, this`lastSaved
      ensures Valid()
      ensures belongingRating == Some(rating) && isDraft && lastSaved == Some(now)
    {
      belongingRating, isDraft := Some(rating), true;
      SaveDraft(now);
    }

    /** `setSelectedCategory`. */
    method SetSelectedCategory(category: Category, now: string)
      requires Valid()
      modifies this`selectedCategory, this`isDraft, this`lastSaved
      ensures Valid()
      ensures selectedCategory == Some(category) && isDraft && lastSaved == Some(now)
    {
      selectedCategory, isDraft := Some(category), true;
      SaveDraft(now);
    }

    /** `setSelectedTags`: replaces the selection of one dimension; every other
        dimension keeps its entry, or its absence. */
    method SetSelectedTags(dimensionId: string, tags: seq<string>, now: string)
      requires Valid()
      modifies this`selectedTags, this`isDraft, this`lastSaved
      ensures Valid()
      ensures selectedTags == old(selectedTags)[dimensionId := tags]
      ensures forall d :: d != dimensionId ==>
                (d in selectedTags <==> d in old(selectedTags)) &&
                (d in selectedTags ==> selectedTags[d] == old(selectedTags)[d])
      ensures isDraft && lastSaved == Some(now)
    {
      var tagsByDimension := selectedTags;
      tagsByDimension := tagsByDimension[dimensionId := tags];
      selectedTags, isDraft := tagsByDimension, true;
      SaveDraft(now);
    }

    /** `addCustomTag`: appends the tag to the custom tags and its id to the
        selection of `dimensionId`, starting from an empty selection when the
        dimension has none. The source pushes into the list object that the
        previous state also references; here the new state receives a new
        sequence and earlier snapshots are unaffected. */
    method AddCustomTag(dimensionId: string, tag: Tag, now: string)
      requires Valid()
      modifies this`customTags, this`selectedTags, this`isDraft, this`lastSaved
      ensures Valid()
      ensures customTags == old(customTags) + [tag]
      ensures dimensionId in selectedTags
      ensures selectedTags[dimensionId] ==
                (if dimensionId in old(selectedTags) then old(selectedTags)[dimensionId] else []) + [tag.id]
      ensures forall d :: d != dimensionId ==>
                (d in selectedTags <==> d in old(selectedTags)) &&
                (d in selectedTags ==> selectedTags[d] == old(selectedTags)[d])
      ensures isDraft && lastSaved == Some(now)
    {
      var tags := customTags + [tag];
      var tagsByDimension := selectedTags;
      if dimensionId !in tagsByDimension {
        tagsByDimension := tagsByDimension[dimensionId := []];
      }
      tagsByDimension := tagsByDimension[dimensionId := tagsByDimension[dimensionId] + [tag.id]];
      customTags, selectedTags, isDraft := tags, tagsByDimension, true;
      SaveDraft(now);
    }

    /** `markStepComplete`: appends `step` unless it is already recorded, so a
        second call with the same step changes nothing. */
    method MarkStepComplete(step: string)
      requires Valid()
      modifies this`completedSteps
      ensures Valid()
      ensures step in completedSteps
      ensures step in old(completedSteps) ==> completedSteps == old(completedSteps)
      ensures step !in old(completedSteps) ==> completedSteps == old(completedSteps) + [step]
    {
      var steps := completedSteps;
      if step !in steps {
        steps := steps + [step];
      }
      completedSteps := steps;
    }

    /** `validateStep`: records the errors of `step` and reports whether there
        are none. Nothing persisted changes. */
    method ValidateStep(step: string) returns (ok: bool)
      requires Valid()
      modifies this`validationErrors
      ensures Valid()
      ensures validationErrors == StepErrors(belongingRating, selectedCategory, selectedTags, step)
      ensures ok <==> validationErrors == map[]
      ensures Persisted() == old(Persisted())
    {
      var errors: map<string, string> := map[];
      if step == "A" {
        if belongingRating.None? {
          errors := errors["belongingRating" := RatingMessage];
        }
      } else if step == "B" {
        if selectedCategory.None? {
          errors := errors["selectedCategory" := CategoryMessage];
        }
      } else if step == "C" {
        for i := 0 to |RequiredDimensions|
          invariant errors == TagErrors(Unselected(selectedTags), RequiredDimensions[..i])
        {
          var dim := RequiredDimensions[i];
          assert RequiredDimensions[..i + 1][..i] == RequiredDimensions[..i];
          if TagSelectionMissing(selectedTags, dim) {
            errors := errors[dim := MissingTagMessage(dim)];
          }
        }
        assert RequiredDimensions[..|RequiredDimensions|] == RequiredDimensions;
      }
      validationErrors := errors;
      ok := |errors| == 0;
    }

    /** `resetWorkflow`: everything but the document returns to its initial
        value. */
    method ResetWorkflow()
      requires Valid()
      modifies this`currentStep, this`belongingRating, this`selectedCategory, this`selectedTags,
               this`customTags, this`completedSteps, this`validationErrors, this`isDraft, this`lastSaved
      ensures Valid() && Cleared()
    {
      currentStep := A;
      belongingRating := None;
      selectedCategory := None;
      selectedTags := map[];
      customTags := [];
      completedSteps := [];
      validationErrors := map[];
      isDraft := false;
      lastSaved := None;
    }

    /** `submitWorkflow`, the state after its simulated delay: the workflow is
        complete, no longer a draft, and all three steps are recorded. */
    method SubmitWorkflow(now: string)
      requires Valid()
      modifies this`currentStep, this`isDraft, this`completedSteps, this`lastSaved
      ensures Valid()
      ensures currentStep == Complete && !isDraft
      ensures completedSteps == ["A", "B", "C"] && lastSaved == Some(now)
    {
      currentStep, isDraft := Complete, false;
      completedSteps, lastSaved := ["A", "B", "C"], Some(now);
    }
  }
}
