/** `GET /api/tags` narrows the tag dimensions by id and by their `required`
    flag; `POST /api/tags` checks the required fields and builds a custom
    tag. The collection and the clock are parameters. */
module TagsRoute {
  import opened Wrappers
  import opened Json
  import opened Entities
  import opened Sequences
  import Text

  /** The `dimension` and `required` query parameters. */
  datatype TagQuery = TagQuery(dimension: Option<string>, required: Option<string>)

  datatype DimensionList = DimensionList(dimensions: seq<TagDimension>, total: int)

  /** `if (dimension)`. */
  predicate DimensionApplies(q: TagQuery)
  {
    q.dimension.Some? && q.dimension.value != ""
  }

  /** A dimension passes every filter the query turns on; a `required` value
      other than `'true'` and `'false'` turns none on. */
  predicate Selected(q: TagQuery, d: TagDimension)
  {
    (DimensionApplies(q) ==> d.id == q.dimension.value) &&
    (q.required == Some("true") ==> d.required) &&
    (q.required == Some("false") ==> !d.required)
  }

  /** The predicates the handler passes to `filter`. */
  function IdFilter(id: string): TagDimension -> bool
  {
    (d: TagDimension) => d.id == id
  }

  function RequiredFilter(required: bool): TagDimension -> bool
  {
    (d: TagDimension) => d.required == required
  }

  /** `Selected` as one predicate. */
  function Selection(q: TagQuery): TagDimension -> bool
  {
    (d: TagDimension) => Selected(q, d)
  }

  /** The GET handler. The two successive filters are one filter by
      `Selected`. */
  function Get(all: seq<TagDimension>, q: TagQuery): (r: DimensionList)
    ensures r.total == |r.dimensions|
    ensures r.dimensions == Filter(all, Selection(q))
    ensures IsSubsequence(r.dimensions, all)
    ensures forall d :: d in r.dimensions ==> Selected(q, d)
    ensures forall i :: 0 <= i < |all| && Selected(q, all[i]) ==> all[i] in r.dimensions
    ensures !DimensionApplies(q) && q.required !in {Some("true"), Some("false")} ==> r.dimensions == all
  {
    var byId := if DimensionApplies(q) then Filter(all, IdFilter(q.dimension.value)) else all;
    var byRequired :=
      if q.required == Some("true") then Filter(byId, RequiredFilter(true))
      else if q.required == Some("false") then Filter(byId, RequiredFilter(false))
      else byId;
    assert byRequired == Filter(all, Selection(q)) by {
      var flagApplies := q.required in {Some("true"), Some("false")};
      var flag := q.required == Some("true");
      if DimensionApplies(q) && flagApplies {
        FilterTwice(all, IdFilter(q.dimension.value), RequiredFilter(flag), Selection(q));
      } else if DimensionApplies(q) {
        FilterExtensional(all, IdFilter(q.dimension.value), Selection(q));
      } else if flagApplies {
        FilterExtensional(all, RequiredFilter(flag), Selection(q));
      } else {
        FilterKeepsAll(all, Selection(q));
      }
    }
    DimensionList(byRequired, |byRequired|)
  }

  /** `required=true` and `required=false` split the dimensions between them. */
  lemma RequiredSplitsDimensions(all: seq<TagDimension>)
    ensures |Get(all, TagQuery(None, Some("true"))).dimensions| +
            |Get(all, TagQuery(None, Some("false"))).dimensions| == |all|
  {
    FilterComplementLength(all, RequiredFilter(true), RequiredFilter(false));
  }

  /** The fields the POST handler reads from the parsed body. */
  datatype CreateTagRequest = CreateTagRequest(
    dimensionId: Field, name: Field, description: Field, riskLevel: Field)

  /** The custom tag the POST handler echoes back. */
  datatype NewTag = NewTag(id: string, name: Json, description: Json, riskLevel: Field)

  datatype CreateTagResponse =
    | TagCreated(tag: NewTag, dimensionId: Json)
    | TagRejected(status: int, error: string)
  {
    function Status(): int
    {
      if TagCreated? then 201 else status
    }

    predicate Success()
    {
      TagCreated?
    }
  }

  /** The POST handler; `nowMillis` is `Date.now()`. */
  function Post(body: CreateTagRequest, nowMillis: nat): (r: CreateTagResponse)
    ensures r.TagRejected? <==> !Truthy(body.dimensionId) || !Truthy(body.name) || !Truthy(body.description)
    ensures r.TagRejected? ==> r == TagRejected(400, "Missing required fields")
    ensures r.TagCreated? ==>
            && r.Status() == 201
            && Some(r.tag.name) == body.name
            && Some(r.tag.description) == body.description
            && Some(r.dimensionId) == body.dimensionId
            && (r.tag.riskLevel.Some? <==> Truthy(body.riskLevel))
            && (r.tag.riskLevel.Some? ==> r.tag.riskLevel == body.riskLevel)
    ensures r.TagCreated? ==> r.tag.id == "custom_" + Text.NatToDecimal(nowMillis)
  {
    if !Truthy(body.dimensionId) || !Truthy(body.name) || !Truthy(body.description) then
      TagRejected(400, "Missing required fields")
    else
      TagCreated(
        NewTag("custom_" + Text.NatToDecimal(nowMillis), body.name.value, body.description.value,
               if Truthy(body.riskLevel) then body.riskLevel else None),
        body.dimensionId.value)
  }

  /** A risk level of `0` is dropped from the created tag. */
  lemma ZeroRiskLevelDropped(body: CreateTagRequest, nowMillis: nat)
    requires Truthy(body.dimensionId) && Truthy(body.name) && Truthy(body.description)
    requires body.riskLevel == Some(Num(0))
    ensures Post(body, nowMillis).TagCreated? && Post(body, nowMillis).tag.riskLevel == None
  {
  }
}
