/** `GET /api/documents` narrows the document collection by a
    case-insensitive search over title and summary and by status;
    `POST /api/documents` checks the four required fields and builds a
    pending document. The collection and the clock are parameters. */
module DocumentsRoute {
  import opened Wrappers
  import opened Json
  import opened Entities
  import opened Sequences
  import Text

  /** The `search` and `status` query parameters (`None` when not given). */
  datatype DocumentQuery = DocumentQuery(search: Option<string>, status: Option<string>)

  datatype DocumentList = DocumentList(documents: seq<Document>, total: int)

  /** `if (search)`: the search filter applies to a non-empty string. */
  predicate SearchApplies(q: DocumentQuery)
  {
    q.search.Some? && q.search.value != ""
  }

  /** `if (status && status !== 'all')`. */
  predicate StatusApplies(q: DocumentQuery)
  {
    q.status.Some? && q.status.value != "" && q.status.value != "all"
  }

  /** The lowered search string occurs in the lowered title or summary. */
  predicate MatchesSearch(doc: Document, search: string)
  {
    Text.Contains(Text.ToLower(doc.title), Text.ToLower(search)) ||
    Text.Contains(Text.ToLower(doc.summary), Text.ToLower(search))
  }

  predicate HasStatus(doc: Document, status: string)
  {
    Entities.StatusName(doc.status) == status
  }

  /** A document passes every filter the query turns on. */
  predicate Selected(q: DocumentQuery, doc: Document)
  {
    (SearchApplies(q) ==> MatchesSearch(doc, q.search.value)) &&
    (StatusApplies(q) ==> HasStatus(doc, q.status.value))
  }

  /** The predicates the handler passes to `filter`. */
  function SearchFilter(search: string): Document -> bool
  {
    (doc: Document) => MatchesSearch(doc, search)
  }

  function StatusFilter(status: string): Document -> bool
  {
    (doc: Document) => HasStatus(doc, status)
  }

  /** `Selected` as one predicate. */
  function Selection(q: DocumentQuery): Document -> bool
  {
    (doc: Document) => Selected(q, doc)
  }

  /** The GET handler: the documents in collection order that pass the
      filters, and their number. The two successive filters are one filter
      by `Selected`. */
  function Get(all: seq<Document>, q: DocumentQuery): (r: DocumentList)
    ensures r.total == |r.documents|
    ensures r.documents == Filter(all, Selection(q))
    ensures IsSubsequence(r.documents, all)
    ensures forall d :: d in r.documents ==> Selected(q, d)
    ensures forall i :: 0 <= i < |all| && Selected(q, all[i]) ==> all[i] in r.documents
    ensures !SearchApplies(q) && !StatusApplies(q) ==> r.documents == all
  {
    var afterSearch := if SearchApplies(q) then Filter(all, SearchFilter(q.search.value)) else all;
    var afterStatus := if StatusApplies(q) then Filter(afterSearch, StatusFilter(q.status.value))
                       else afterSearch;
    assert afterStatus == Filter(all, Selection(q)) by {
      if SearchApplies(q) && StatusApplies(q) {
        FilterTwice(all, SearchFilter(q.search.value), StatusFilter(q.status.value), Selection(q));
      } else if SearchApplies(q) {
        FilterExtensional(all, SearchFilter(q.search.value), Selection(q));
      } else if StatusApplies(q) {
        FilterExtensional(all, StatusFilter(q.status.value), Selection(q));
      } else {
        FilterKeepsAll(all, Selection(q));
      }
    }
    DocumentList(afterStatus, |afterStatus|)
  }

  /** The search ignores the case of the query string. */
  lemma SearchIgnoresQueryCase(doc: Document, search: string)
    ensures MatchesSearch(doc, search) == MatchesSearch(doc, Text.ToLower(search))
  {
    Text.ToLowerIdempotent(search);
  }

  /** The fields the POST handler reads from the parsed body. */
  datatype CreateDocumentRequest = CreateDocumentRequest(
    title: Field, content: Field, summary: Field, authorId: Field)

  /** The document the POST handler echoes back; its fields carry whatever
      JSON the request supplied. */
  datatype NewDocument = NewDocument(
    id: string,
    title: Json,
    content: Json,
    summary: Json,
    authorId: Json,
    createdAt: string,
    status: DocumentStatus)

  datatype CreateDocumentResponse =
    | DocumentCreated(document: NewDocument)
    | DocumentRejected(status: int, error: string)
  {
    function Status(): int
    {
      if DocumentCreated? then 201 else status
    }

    predicate Success()
    {
      DocumentCreated?
    }
  }

  /** The POST handler. `nowMillis` is `Date.now()` and `isoNow` is
      `new Date().toISOString()`. */
  function Post(body: CreateDocumentRequest, nowMillis: nat, isoNow: string): (r: CreateDocumentResponse)
    ensures r.DocumentRejected? <==>
            !Truthy(body.title) || !Truthy(body.content) || !Truthy(body.summary) || !Truthy(body.authorId)
    ensures r.DocumentRejected? ==> r == DocumentRejected(400, "Missing required fields")
    ensures r.DocumentCreated? ==>
            && r.Status() == 201
            && r.document.status == Pending
            && Some(r.document.title) == body.title
            && Some(r.document.content) == body.content
            && Some(r.document.summary) == body.summary
            && Some(r.document.authorId) == body.authorId
    ensures r.DocumentCreated? ==> r.document.id == "doc_" + Text.NatToDecimal(nowMillis)
    ensures r.DocumentCreated? ==> r.document.createdAt == Text.BeforeFirst(isoNow, 'T')
  {
    if !Truthy(body.title) || !Truthy(body.content) || !Truthy(body.summary) || !Truthy(body.authorId) then
      DocumentRejected(400, "Missing required fields")
    else
      DocumentCreated(NewDocument(
        "doc_" + Text.NatToDecimal(nowMillis),
        body.title.value, body.content.value, body.summary.value, body.authorId.value,
        Text.BeforeFirst(isoNow, 'T'),
        Pending))
  }

  /** Documents created at different milliseconds get different ids. */
  lemma CreatedIdsDiffer(b1: CreateDocumentRequest, b2: CreateDocumentRequest, t1: nat, t2: nat, iso1: string, iso2: string)
    requires t1 != t2
    requires Post(b1, t1, iso1).DocumentCreated? && Post(b2, t2, iso2).DocumentCreated?
    ensures Post(b1, t1, iso1).document.id != Post(b2, t2, iso2).document.id
  {
    Text.PrefixedDecimalInjective("doc_", t1, t2);
  }
}
