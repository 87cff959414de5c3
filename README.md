# Document categorization workflow — a Dafny model

This project models the logic of a three-step document categorization
wizard (step A: a belonging rating, step B: a primary category, step C:
tags along several dimensions):

- **The workflow store** (`WorkflowStore.Store`): the client-side record of
  the wizard's progress, with one method per store action
  (`setCurrentDocument` … `submitWorkflow`), its step validator and the
  projection (`Persisted`) that survives a reload. The store's invariant
  (`Valid`) is that no step is recorded as completed twice.
- **The workflow endpoint** (`WorkflowRoute`): `POST /api/workflow` as a
  function (`Respond`) from a request body to a response, and as the
  handler's own step-by-step computation (`Post`), proved equal to it.
  Bodies are JSON values (`Json.Json`) so that JavaScript truthiness is
  modelled exactly: `0`, `""`, `false`, `null` and absent are falsy, `[]`
  and `{}` are truthy.
- **The resource endpoints** (`DocumentsRoute`, `TagsRoute`,
  `CategoriesRoute`): each `GET` narrows a collection with optional query
  parameters, and each `POST` checks required fields and builds a record.
  The collections are parameters.
- **Store versus endpoint** (`StoreRouteAgreement`): the route's
  `validate` action, given the store's fields as JSON, returns the store's
  own error map, except for one case. A rating of `0` passes step A in the
  store, which checks `=== null`, and fails it at the route, which checks
  `!belongingRating`.

Clock readings (`new Date().toISOString()`, `Date.now()`) are parameters:
`now` for the store, and `nowMillis`/`isoNow` for the endpoints.

Two points of this revision of the code that a reader might expect otherwise:
- `POST /api/workflow` (src/app/api/workflow/route.ts:16-85) has no
  bearer-token authentication, no 401 answer and no upsert. It answers from
  the body alone.
- `resetWorkflow` keeps `currentDocument` (src/stores/workflow-store.ts:184-196).

## Model

| member | source | states |
|---|---|---|
| `WorkflowStore.Store.Persisted` | src/stores/workflow-store.ts:215-224 | The snapshot of a valid store has no repeated completed step. Its frame, which reads the eight fields `partialize` copies, leaves out `currentStep` and `validationErrors`. |
| `WorkflowStore.Store.constructor` | src/stores/workflow-store.ts:90-100 | Initial state: step A, no rating, no category, no tags, no custom tags, no completed steps and no errors. The draft flag is off, there is no save time and no document. |
| `WorkflowStore.Store.SetCurrentDocument` | src/stores/workflow-store.ts:103-105 | Sets the document and returns to step A. The frame leaves every selection field unchanged. |
| `WorkflowStore.Store.SetCurrentStep` | src/stores/workflow-store.ts:107-109 | Only the step changes. The persisted snapshot is identical before and after. |
| `WorkflowStore.Store.SaveDraft` | src/stores/workflow-store.ts:177-182 | Sets `isDraft` and stamps `lastSaved` with the supplied clock value. |
| `WorkflowStore.Store.SetBelongingRating` | src/stores/workflow-store.ts:111-114 | Sets the rating, `isDraft` and `lastSaved`. No other field changes. |
| `WorkflowStore.Store.SetSelectedCategory` | src/stores/workflow-store.ts:116-119 | Sets the category, `isDraft` and `lastSaved`. No other field changes. |
| `WorkflowStore.Store.SetSelectedTags` | src/stores/workflow-store.ts:121-126 | Replaces only the entry of the given dimension. Every other dimension keeps its entry or its absence. Sets `isDraft` and `lastSaved`. |
| `WorkflowStore.Store.AddCustomTag` | src/stores/workflow-store.ts:128-137 | Appends the tag to `customTags`. Appends its id to the dimension's selection, starting from empty when the dimension has none. Other dimensions are unchanged, and the draft is marked and stamped. |
| `WorkflowStore.Store.MarkStepComplete` | src/stores/workflow-store.ts:139-145 | Appends a step not yet recorded. A step already recorded leaves the list unchanged, so the call is idempotent. The no-duplicates invariant is kept. |
| `WorkflowStore.Store.ValidateStep` | src/stores/workflow-store.ts:147-175 | Stores exactly `StepErrors` of the current fields. Returns true iff that map is empty. Nothing persisted changes. |
| `WorkflowStore.StepErrors` | src/stores/workflow-store.ts:151-171 | Step A has the key `belongingRating` iff the rating is null, with the rating message. Step B has `selectedCategory` iff the category is null, with the category message. Step C has exactly the required dimensions that are absent or empty, each with its message. Any other step has no errors. |
| `WorkflowStore.Store.ResetWorkflow` | src/stores/workflow-store.ts:184-196 | Every field except `currentDocument` returns to its initial value, as the constructor gives it. The document is left unchanged. |
| `WorkflowStore.Store.SubmitWorkflow` | src/stores/workflow-store.ts:204-210 | Ends with step `complete`, `isDraft` false, completed steps `[A, B, C]` and a fresh `lastSaved`. |
| `RequiredTags.MissingTagMessageDisclosure` | src/stores/workflow-store.ts:167 | `MissingTagMessage`, the template of the tag message, replaces the first hyphen of the dimension name: "at least one disclosure risk tag". |
| `RequiredTags.MissingTagMessageIntendedUse` | src/app/api/workflow/route.ts:69 | The message for `intended-use` reads "at least one intended use tag". |
| `RequiredTags.UnhyphenatedName` | src/app/api/workflow/route.ts:69 | `MissingTagMessage` of any name without a hyphen is "Please select at least one <name> tag": the name appears unchanged. |
| `RequiredTags.MissingTagMessageAuthorship` | src/app/api/workflow/route.ts:69 | The message for `authorship` reads "Please select at least one authorship tag". |
| `Text.ReplaceFirstChangesFirstOnly` | src/stores/workflow-store.ts:167 | `Text.ReplaceFirst`, the model of `replace('-', ' ')`, keeps the length and changes exactly the first hyphen, if there is one, and nothing else. |
| `Json.Truthy` | src/app/api/workflow/route.ts:16 | `!x` holds exactly for `undefined`, `null`, `false`, `0` and `""`. Every other value, `[]` and `{}` included, is truthy. |
| `Json.Property` | src/app/api/workflow/route.ts:68 | `selectedTags[dim]` of an object is that own field's value, and absent iff the object has no such key. `.length` of an array or string is its length, and any other key of one is absent. A boolean or number has no property. |
| `Json.ToJsString` | src/app/api/workflow/route.ts:28 | `${v}` renders `null` as `null`, a boolean as `true` or `false`, a string as itself, an integer in decimal with a leading `-` when negative, an object as `[object Object]` and an empty array as the empty string. Non-empty arrays are comma-joined with `null` elements as the empty string, which its body gives and no `ensures` states. |
| `WorkflowRoute.WorkflowId` | src/app/api/workflow/route.ts:47 | `workflow_${documentId}_${Date.now()}` starts with `workflow_` and ends with the decimal milliseconds. |
| `WorkflowRoute.WorkflowIdsDiffer` | src/app/api/workflow/route.ts:28 | Ids made for the same document at different milliseconds differ, through the decimal round trip. |
| `WorkflowRoute.Respond` | src/app/api/workflow/route.ts:16-85 | Every answer is 200 or 400. A 400 carries one of the three error strings, and any other answer needs a truthy `documentId` and `action`. A `validate` answer is valid iff its error map is empty. |
| `WorkflowRoute.ValidationErrors` | src/app/api/workflow/route.ts:53-72 | Every key of the error record carries its own message: the rating message, the category message, or the dimension's tag message. A step other than A, B or C gives no errors. |
| `WorkflowRoute.Post` | src/app/api/workflow/route.ts:16-85 | The handler's switch, with the `validate` loop that fills the error record, gives exactly `Respond`. |
| `WorkflowRoute.CollectErrors` | src/app/api/workflow/route.ts:53-72 | The `validate` branch's in-place error record ends equal to `ValidationErrors` of the body. |
| `WorkflowRoute.CollectTagErrors` | src/app/api/workflow/route.ts:66-71 | The `forEach` over the dimensions, adding an entry per missing selection, ends equal to `TagErrors` of all of them. |
| `WorkflowRoute.MissingFieldsRejected` | src/app/api/workflow/route.ts:16-21 | A falsy `documentId` or `action` gives 400 "Missing required fields" whatever the action, and only then. |
| `WorkflowRoute.UnknownActionRejected` | src/app/api/workflow/route.ts:80-84 | With both present, the answer is 400 "Invalid action" iff the action is not one of `save_draft`, `submit` or `validate`. |
| `WorkflowRoute.SaveDraftSucceeds` | src/app/api/workflow/route.ts:24-31 | `save_draft` always succeeds with status 200. The id is `workflow_<documentId>_<millis>` for a string document id. |
| `WorkflowRoute.SubmitRequiresCompleteData` | src/app/api/workflow/route.ts:33-51 | `submit` gives 400 "Incomplete workflow data" iff the rating, category or tags is falsy, and succeeds otherwise with status 200, the clock string as `submittedAt`, the estimate `5-10 minutes` and, for a string document id, the id `workflow_<documentId>_<millis>`. Rating `0` is refused. An empty tag object `{}` is accepted. |
| `WorkflowRoute.ValidateReportsValidity` | src/app/api/workflow/route.ts:74-78 | `validate` always has success true and status 200. `valid` holds iff the error map is empty. |
| `WorkflowRoute.ValidationErrorKeys` | src/app/api/workflow/route.ts:55-72 | Step A has the rating key iff the rating is falsy. Step B has the category key iff the category is falsy. Step C has exactly the required dimensions whose selection is absent, falsy or of length 0. Any other step has an empty map. |
| `RequiredTags.TagErrorsExact` | src/app/api/workflow/route.ts:66-71 | `RequiredTags.TagErrors`, the step-C `forEach` that the store (src/stores/workflow-store.ts:164-169) and the route each run, records a dimension iff it was visited and its selection is missing, with that dimension's message. |
| `RequiredTags.TagErrorsAgree` | src/stores/workflow-store.ts:164-169 | Two validators that agree on which visited dimensions are missing record the same step-C errors. |
| `WorkflowRoute.TagErrorsWithoutTags` | src/app/api/workflow/route.ts:68 | With no tag selection at all, the error keys are exactly the visited dimensions. |
| `WorkflowRoute.StepCWithoutTagsMissesAll` | src/app/api/workflow/route.ts:68 | Without `selectedTags`, all three required dimensions are error keys. |
| `StoreRouteAgreement.TagSelectionAgrees` | src/app/api/workflow/route.ts:68 | A dimension absent from the store's selection, or with no ids, is exactly one whose JSON array the route finds falsy or of length 0. |
| `StoreRouteAgreement.StepCTagErrorsAgree` | src/app/api/workflow/route.ts:65-72 | For the store's tag selection sent as JSON, the route's step-C errors equal the store's. |
| `StoreRouteAgreement.StepAAgrees` | src/app/api/workflow/route.ts:57 | For step A, the route's errors equal the store's iff the rating is not `0`. |
| `StoreRouteAgreement.StepBAgrees` | src/app/api/workflow/route.ts:61 | For step B, the route's errors equal the store's. |
| `StoreRouteAgreement.StepCAgrees` | src/stores/workflow-store.ts:162-169 | For step C, the route's errors equal the store's. |
| `StoreRouteAgreement.ValidatorsAgreeExceptZeroRating` | src/stores/workflow-store.ts:147-175 | For any step, `validate` on the store's fields returns the store's error map, except exactly for step A with rating `0`. |
| `StoreRouteAgreement.ZeroRatingDiverges` | src/stores/workflow-store.ts:153 | With rating `0`, the store finds no step-A error. The route answers `valid=false` with a `belongingRating` error. |
| `DocumentsRoute.Get` | src/app/api/documents/route.ts:10-29 | The two successive filters give exactly one `filter` by "passes the search and the status filter": an order-preserving subsequence of the collection holding only passing documents, and each passing document as often as the collection holds it. `total` is its length. With no search and no status, or with status `all`, the whole collection is returned. |
| `Text.ToLower` | src/app/api/documents/route.ts:15-16 | `toLowerCase` keeps the length, turns each ASCII capital into its small letter, and keeps every other character. |
| `DocumentsRoute.SearchIgnoresQueryCase` | src/app/api/documents/route.ts:13-18 | A document matches a query iff it matches the lowered query. |
| `Text.ContainsIffOccurs` | src/app/api/documents/route.ts:15-16 | `Text.Contains`, the model of `includes`, holds iff the needle occurs at some position of the string. |
| `DocumentsRoute.Post` | src/app/api/documents/route.ts:43-65 | 400 iff `title`, `content`, `summary` or `authorId` is falsy. Otherwise 201 with a `pending` document that echoes all four fields. Its id is `doc_` and the milliseconds, and its `createdAt` is the clock string before the first `T`. |
| `Text.BeforeFirst` | src/app/api/documents/route.ts:58 | `split('T')[0]` is the longest prefix that does not contain the separator. |
| `DocumentsRoute.CreatedIdsDiffer` | src/app/api/documents/route.ts:53 | Documents created at different milliseconds get different ids. |
| `Text.DecimalRoundTrip` | src/app/api/documents/route.ts:53 | Reading back `Text.NatToDecimal`, the decimal rendering of `${Date.now()}`, gives the timestamp. |
| `TagsRoute.Get` | src/app/api/tags/route.ts:10-28 | The two successive filters give exactly one `filter` by both conditions: an order-preserving subsequence of the dimensions keeping every copy of each match. `dimension` keeps equal ids. `required=true` keeps required dimensions and `required=false` keeps the others. Any other value filters nothing. `total` is the length. |
| `TagsRoute.RequiredSplitsDimensions` | src/app/api/tags/route.ts:18-22 | The `required=true` and `required=false` results together have as many entries as the collection. |
| `TagsRoute.Post` | src/app/api/tags/route.ts:41-62 | 400 iff `dimensionId`, `name` or `description` is falsy. Otherwise 201 echoing the name, description and dimension id, with the id `custom_` and the milliseconds (line 52). The risk level is kept iff it is truthy. |
| `TagsRoute.ZeroRiskLevelDropped` | src/app/api/tags/route.ts:55 | A risk level of `0` is absent from the created tag. |
| `CategoriesRoute.Get` | src/app/api/categories/route.ts:10-17 | The result is one `filter` by the flag: `highValue=true` keeps only high-value categories and `highValue=false` only the others, each as often as the collection holds it and in its order. Any other or absent value returns all of them. `total` is its length. |
| `CategoriesRoute.HighValueSplitsCategories` | src/app/api/categories/route.ts:13-16 | The high-value and the other categories together are as many as all categories. |
| `Sequences.Filter` | src/app/api/tags/route.ts:14 | `filter` returns an order-preserving subsequence. It holds only elements that pass the predicate and misses none of them. |
| `Sequences.FilterCounts` | src/app/api/tags/route.ts:14 | `filter` keeps every copy of a matching value and no copy of any other value. |
| `Sequences.FilterTwice` | src/app/api/documents/route.ts:14-23 | Two chained filters are one filter by the conjunction of their predicates. |

## Left out

- `persist` middleware and local storage: only the `partialize` projection is modelled, as `WorkflowStore.Store.Persisted`. Rehydration is not modelled.
- Timers: the 2 s delays (src/stores/workflow-store.ts:202, src/app/api/workflow/route.ts:43) are omitted. Each action is modelled as the state after its last `await`.
- Clocks: `Date.now()` and `toISOString()` are parameters, not modelled behaviour.
- The setters as two notifications: `set` and then `saveDraft` are two successive state changes in the source. The model treats each setter as one step and does not expose the state in between.
- `WorkflowStore.Store.AddCustomTag`: does not model the aliasing. The source spreads `selectedTags` shallowly and then pushes into the inner array object, which the previous state also references. Here the new state receives a new sequence, so earlier snapshots stay as they were.
- Error records: JavaScript objects keep insertion order; the model's `map` does not.
- JSON parsing and the catch-all 500 answers of every handler are left out. So are `NextRequest`/`NextResponse`.
- Numbers are integers. Fractional ratings, NaN and exponent formatting of large numbers are not modelled.
- `WorkflowStore.Store.AddCustomTag`: a dimension id the source finds on `Object.prototype`, such as `"toString"`, is treated as an absent key. In the source, `selectedTags[dimensionId]` (src/stores/workflow-store.ts:131) is then the inherited function, which is truthy, so the `[]` default is skipped and the `push` at :134 throws. The model appends to a new empty selection instead.
- `WorkflowStore.Store.SetSelectedTags`: the dimension id `"__proto__"` adds an ordinary entry in the model. In the source the assignment at src/stores/workflow-store.ts:123 replaces the object's prototype.
- `Json.ToJsString`: no `ensures` states the rendering of a non-empty array (its elements comma-joined, `null` as the empty string). Only the body gives it.
- `Json.ToJsString`: renders every object as `[object Object]`. For an object with its own `toString` key, such as a `documentId` of `{"toString": 1}`, the template literals at src/app/api/workflow/route.ts:28 and :47 throw, and the catch at :86-90 answers 500. `WorkflowRoute.Respond` answers 200 with `workflow_[object Object]_…` there.
- `Json.Property` models own properties of objects and `length` of strings and arrays. Numeric indexing and inherited properties are not modelled; the keys the handlers use are never numeric.
- `toLowerCase` is modelled as ASCII lowering. Unicode case mapping is not modelled.
- The random analytics of `GET /api/categories` (`includeAnalytics`) are left out because they are non-deterministic placeholders. The result is modelled without them.
- `StoreRouteAgreement.CategoryJson` encodes only the category's required fields. The route looks only at its truthiness.
- `src/components/server/StepBServer.tsx`, `src/components/server/StepCServer.tsx` and the layouts are UI composition. They are not part of this model.
- The mock data fixtures are not part of this model. The collections are parameters of the `Get` functions.
