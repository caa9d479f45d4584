/** The server actions of `src/lib/actions.ts`: the snake_case to camelCase
    record transforms, and for each action the mapping from the HTTP
    response to the `{ value?, error? }` reply. The request itself is not
    modelled: each action takes the response it got as an `HttpOutcome`. */
module Actions {
  import opened Wrappers
  import opened Types
  import opened JsText

  /** How a request ended. `Rejected` stands for every error the action's
      `try` catches: `fetch` rejecting, or a success body that does not parse. */
  datatype HttpOutcome<+T, +D> =
    | Rejected
    | Received(payload: T)
    | HttpError(status: int, statusText: string, body: ErrorBody<D>)

  /** The body of a non-ok response: not JSON (the action then uses
      `{ detail: statusText }`), or JSON with an optional `detail`. */
  datatype ErrorBody<+D> = NotJson | JsonBody(detail: Option<D>)

  const NotAvailableHtml := "<p>HTML content not available for this page.</p>"
  const NoContentHtml := "<p>No HTML content available for this page.</p>"
  const NoReportHtml := "<p>Report content is not available.</p>"
  const NameTooShort := "Proposal name must be at least 3 characters."
  const NameNotString := "Expected string, received null"

  /** A reply carries a value or an error, never both and never neither. */
  predicate OneOf<T>(r: Reply<T>)
  {
    r.value.Some? != r.error.Some?
  }

  function ErrorReply<T>(message: string): (r: Reply<T>)
    ensures OneOf(r) && r.error == Some(message)
  {
    Reply(None, Some(message))
  }

  function ValueReply<T>(v: T): (r: Reply<T>)
    ensures OneOf(r) && r.value == Some(v)
  {
    Reply(Some(v), None)
  }

  /** The `detail` of `errorData`: the body's own, or the status text when the
      body is not JSON. */
  function Detail<D>(statusText: D, body: ErrorBody<D>): Option<D>
  {
    match body
    case NotJson => Some(statusText)
    case JsonBody(d) => d
  }

  /** `errorData.detail || "Failed to <what>: HTTP <status>"`. */
  function DetailOrStatus(status: int, statusText: string, body: ErrorBody<string>, what: string): (r: string)
    ensures Truthy(Detail(statusText, body)) ==> r == Detail(statusText, body).value
    ensures !Truthy(Detail(statusText, body)) ==> r == "Failed to " + what + ": HTTP " + IntToString(status)
  {
    OrElse(Detail(statusText, body), "Failed to " + what + ": HTTP " + IntToString(status))
  }

  // ---------------------------------------------------------------------
  // Record transforms
  // ---------------------------------------------------------------------

  /** Signature from the API. `parseFloat` stands for JavaScript's parser,
      `None` meaning NaN. The signature takes the id of the document it is
      listed under, not its own `document_id`. */
  function TransformApiSignature(s: ApiSignature, documentId: int, parseFloat: string -> Option<real>): (r: Signature)
    ensures r.documentId == documentId
    ensures r.id == s.id && r.pageId == s.page_id && r.stakeholderId == s.stakeholder_id
    ensures s.ai_confidence.None? ==> r.confidence.None?
    ensures s.ai_confidence.Some? && parseFloat(s.ai_confidence.value).None? ==> r.confidence.None?
    ensures s.ai_confidence.Some? && parseFloat(s.ai_confidence.value).Some? ==>
              r.confidence == parseFloat(s.ai_confidence.value)
    ensures r.coordinates == s.bounding_box_json && r.analysisNotes == s.analysis_notes
    ensures r.aiSignatureId == s.ai_signature_id
    ensures r.isConsistentWithStakeholderGroup == s.is_consistent_with_stakeholder_group
    ensures r.isUniqueAmongStakeholders == s.is_unique_among_stakeholders
    ensures r.imageUrl.None?
  {
    var confidence := if s.ai_confidence.Some? then parseFloat(s.ai_confidence.value) else None;
    Signature(s.id, s.page_id, documentId, s.stakeholder_id, s.ai_signature_id, confidence,
              s.bounding_box_json, s.is_consistent_with_stakeholder_group,
              s.is_unique_among_stakeholders, s.analysis_notes, None)
  }

  /** `xs || []`. */
  function OrEmpty<T>(xs: Option<seq<T>>): (r: seq<T>)
    ensures xs.None? ==> r == []
    ensures xs.Some? ==> r == xs.value
  {
    if xs.Some? then xs.value else []
  }

  function TransformApiPage(p: ApiPage, documentId: int, parseFloat: string -> Option<real>): (r: Page)
    ensures r.id == p.id && r.pageNumber == p.page_number && r.documentId == p.document_id
    ensures r.htmlContent == p.generated_form_html && r.textContent == p.text_content
    ensures |r.signatures| == |OrEmpty(p.signatures)|
    ensures forall i :: 0 <= i < |r.signatures| ==>
              r.signatures[i] == TransformApiSignature(OrEmpty(p.signatures)[i], documentId, parseFloat)
  {
    var sigs := OrEmpty(p.signatures);
    Page(p.id, p.page_number, p.generated_form_html, p.text_content,
         seq(|sigs|, i requires 0 <= i < |sigs| => TransformApiSignature(sigs[i], documentId, parseFloat)),
         p.document_id)
  }

  function TransformApiDocument(d: ApiDocument, parseFloat: string -> Option<real>): (r: Document)
    ensures r.id == d.id && r.name == d.file_name && r.uploadedAt == d.created_at
    ensures r.totalPages == d.total_pages && r.projectId == d.project_id
    ensures r.chatSessionId.None?
    ensures d.pages.None? ==> r.pages == []
    ensures |r.pages| == |OrEmpty(d.pages)|
    ensures forall i :: 0 <= i < |r.pages| ==> r.pages[i] == TransformApiPage(OrEmpty(d.pages)[i], d.id, parseFloat)
  {
    var pages := OrEmpty(d.pages);
    Document(d.id, d.file_name, d.created_at, d.total_pages, d.project_id,
             seq(|pages|, i requires 0 <= i < |pages| => TransformApiPage(pages[i], d.id, parseFloat)),
             None)
  }

  function TransformApiProposal(p: ApiProposal, parseFloat: string -> Option<real>): (r: Proposal)
    ensures r.id == p.id && r.name == p.name
    ensures r.applicationNumber == p.application_number && r.createdAt == p.created_at
    ensures r.signatureAnalysisStatus == p.signature_analysis_status
    ensures r.signatureAnalysisReportHtml == p.signature_analysis_report_html
    ensures r.chatSessionId.None?
    ensures |r.documents| == |p.documents|
    ensures forall i :: 0 <= i < |r.documents| ==> r.documents[i] == TransformApiDocument(p.documents[i], parseFloat)
  {
    Proposal(p.id, p.application_number, p.name, p.created_at,
             seq(|p.documents|, i requires 0 <= i < |p.documents| => TransformApiDocument(p.documents[i], parseFloat)),
             p.signature_analysis_status, p.signature_analysis_report_html, None)
  }

  /** Every signature of a transformed proposal carries the id of the
      document it is listed under. */
  lemma SignaturesCarryTheirDocumentId(p: ApiProposal, parseFloat: string -> Option<real>)
    ensures var r := TransformApiProposal(p, parseFloat);
      forall k, i, j ::
        0 <= k < |r.documents| && 0 <= i < |r.documents[k].pages| && 0 <= j < |r.documents[k].pages[i].signatures| ==>
          r.documents[k].pages[i].signatures[j].documentId == r.documents[k].id == p.documents[k].id
  {
  }

  /** The API signature's own `document_id` has no effect on the result. */
  lemma SignatureIgnoresOwnDocumentId(s: ApiSignature, other: int, documentId: int, parseFloat: string -> Option<real>)
    ensures TransformApiSignature(s.(document_id := other), documentId, parseFloat)
         == TransformApiSignature(s, documentId, parseFloat)
  {
  }

  // ---------------------------------------------------------------------
  // Actions
  // ---------------------------------------------------------------------

  function GetProposalsAction(o: HttpOutcome<seq<ApiProposal>, string>, parseFloat: string -> Option<real>): (r: Reply<seq<Proposal>>)
    ensures OneOf(r)
    ensures r.value.Some? <==> o.Received?
    ensures o.Received? ==> |r.value.value| == |o.payload|
    ensures o.Received? ==>
              forall i :: 0 <= i < |o.payload| ==> r.value.value[i] == TransformApiProposal(o.payload[i], parseFloat)
    ensures o.HttpError? ==> r.error == Some("Failed to fetch proposals: " + o.statusText)
    ensures o.Rejected? ==> r.error == Some("An unexpected error occurred while fetching proposals.")
  {
    match o
    case Rejected => ErrorReply("An unexpected error occurred while fetching proposals.")
    case HttpError(_, statusText, _) => ErrorReply("Failed to fetch proposals: " + statusText)
    case Received(ps) =>
      ValueReply(seq(|ps|, i requires 0 <= i < |ps| => TransformApiProposal(ps[i], parseFloat)))
  }

  function GetProposalByIdAction(o: HttpOutcome<ApiProposal, string>, parseFloat: string -> Option<real>): (r: Reply<Proposal>)
    ensures OneOf(r)
    ensures r.error == Some("Proposal not found.") <==> o.HttpError? && o.status == 404
    ensures o.HttpError? && o.status != 404 ==> r.error == Some("Failed to fetch proposal: " + o.statusText)
    ensures o.Rejected? ==> r.error == Some("An unexpected error occurred while fetching the proposal.")
    ensures r.value.Some? <==> o.Received?
    ensures o.Received? ==> r.value == Some(TransformApiProposal(o.payload, parseFloat))
  {
    match o
    case Rejected => ErrorReply("An unexpected error occurred while fetching the proposal.")
    case HttpError(status, statusText, _) =>
      if status == 404 then ErrorReply("Proposal not found.")
      else ErrorReply("Failed to fetch proposal: " + statusText)
    case Received(p) => ValueReply(TransformApiProposal(p, parseFloat))
  }

  /** `{ name: [message] }`, the flattened field errors of the form schema. */
  function FieldErrors(message: string): Json
  {
    JObject(map["name" := JArray([JString(message)])])
  }

  /** The form schema: the name must be a string of at least 3 characters. */
  function ValidateName(name: Option<string>): (r: Option<Json>)
    ensures r.None? <==> name.Some? && |name.value| >= 3
    ensures name.None? ==> r == Some(FieldErrors(NameNotString))
    ensures name.Some? && |name.value| < 3 ==> r == Some(FieldErrors(NameTooShort))
  {
    if name.None? then Some(FieldErrors(NameNotString))
    else if |name.value| < 3 then Some(FieldErrors(NameTooShort))
    else None
  }

  /** `createProposalAction`. The name is checked before any request, so an
      invalid name gives the same reply whatever the outcome would have been. */
  function CreateProposalAction(name: Option<string>, o: HttpOutcome<ApiProposal, Json>, parseFloat: string -> Option<real>): (r: CreateReply)
    ensures r.proposal.Some? != r.error.Some?
    ensures ValidateName(name).Some? ==> r == CreateReply(None, ValidateName(name))
    ensures r.proposal.Some? <==> ValidateName(name).None? && o.Received?
    ensures r.proposal.Some? ==> r.proposal.value == TransformApiProposal(o.payload, parseFloat)
    ensures ValidateName(name).None? && o.HttpError? ==>
              var detail := Detail(JString(o.statusText), o.body);
              r.error == Some(if detail.Some? && JsonTruthy(detail.value) then detail.value
                              else JString("Failed to create proposal: HTTP " + IntToString(o.status)))
    ensures ValidateName(name).None? && o.Rejected? ==>
              r.error == Some(JString("Failed to create proposal due to a network or unexpected error."))
    ensures r.error.Some? ==> JsonTruthy(r.error.value)
  {
    var invalid := ValidateName(name);
    if invalid.Some? then CreateReply(None, invalid)
    else match o
      case Rejected => CreateReply(None, Some(JString("Failed to create proposal due to a network or unexpected error.")))
      case HttpError(status, statusText, body) =>
        var detail := Detail(JString(statusText), body);
        var fallback := JString("Failed to create proposal: HTTP " + IntToString(status));
        assert fallback.s != "";
        CreateReply(None, Some(if detail.Some? && JsonTruthy(detail.value) then detail.value else fallback))
      case Received(p) => CreateReply(Some(TransformApiProposal(p, parseFloat)), None)
  }

  /** `addDocumentToProposalAction`. A zero proposal id or a missing file is
      reported before any request; of the documents returned only the first
      is used. */
  function AddDocumentToProposalAction(proposalId: int, file: Option<UploadFile>, o: HttpOutcome<seq<ApiDocument>, string>,
                                       parseFloat: string -> Option<real>): (r: Reply<Document>)
    ensures OneOf(r)
    ensures proposalId == 0 ==> r.error == Some("Proposal ID is required.")
    ensures proposalId != 0 && file.None? ==> r.error == Some("File is required.")
    ensures r.value.Some? <==> proposalId != 0 && file.Some? && o.Received? && |o.payload| > 0
    ensures r.value.Some? ==> r.value.value == TransformApiDocument(o.payload[0], parseFloat)
    ensures proposalId != 0 && file.Some? && o.Received? && |o.payload| == 0 ==>
              r.error == Some("No document data returned from API.")
    ensures proposalId != 0 && file.Some? && o.HttpError? ==>
              r.error == Some(DetailOrStatus(o.status, o.statusText, o.body, "upload document"))
    ensures proposalId != 0 && file.Some? && o.Rejected? ==>
              r.error == Some("An unexpected error occurred while adding the document.")
  {
    if proposalId == 0 then ErrorReply("Proposal ID is required.")
    else if file.None? then ErrorReply("File is required.")
    else match o
      case Rejected => ErrorReply("An unexpected error occurred while adding the document.")
      case HttpError(status, statusText, body) => ErrorReply(DetailOrStatus(status, statusText, body, "upload document"))
      case Received(docs) =>
        if |docs| > 0 then ValueReply(TransformApiDocument(docs[0], parseFloat))
        else ErrorReply("No document data returned from API.")
  }

  /** `startSignatureAnalysisAction`; the payload is the reply's `message`. */
  function StartSignatureAnalysisAction(proposalId: int, o: HttpOutcome<Option<string>, string>): (r: Reply<string>)
    ensures OneOf(r)
    ensures proposalId == 0 ==> r.error == Some("Proposal ID is required.")
    ensures r.value.Some? <==> proposalId != 0 && o.Received?
    ensures r.value.Some? ==> r.value.value == OrElse(o.payload, "Signature analysis started.") && r.value.value != ""
    ensures proposalId != 0 && o.HttpError? ==>
              r.error == Some(DetailOrStatus(o.status, o.statusText, o.body, "start signature analysis"))
    ensures proposalId != 0 && o.Rejected? ==>
              r.error == Some("Signature analysis failed to start due to an unexpected error.")
  {
    if proposalId == 0 then ErrorReply("Proposal ID is required.")
    else match o
      case Rejected => ErrorReply("Signature analysis failed to start due to an unexpected error.")
      case HttpError(status, statusText, body) => ErrorReply(DetailOrStatus(status, statusText, body, "start signature analysis"))
      case Received(message) => ValueReply(OrElse(message, "Signature analysis started."))
  }

  /** `extractHtmlAction`; a missing page number is `None`. */
  function ExtractHtmlAction(proposalId: int, documentId: int, pageNumber: Option<int>,
                             o: HttpOutcome<Option<string>, string>): (r: Reply<string>)
    ensures OneOf(r)
    ensures proposalId == 0 || documentId == 0 || pageNumber.None? ==> r.error == Some("Missing parameters.")
    ensures r.value.Some? <==> proposalId != 0 && documentId != 0 && pageNumber.Some? && o.Received?
    ensures r.value.Some? ==> r.value.value == OrElse(o.payload, "HTML extraction process started.") && r.value.value != ""
    ensures proposalId != 0 && documentId != 0 && pageNumber.Some? && o.HttpError? ==>
              r.error == Some(DetailOrStatus(o.status, o.statusText, o.body, "trigger HTML extraction"))
    ensures proposalId != 0 && documentId != 0 && pageNumber.Some? && o.Rejected? ==>
              r.error == Some("Failed to extract HTML due to an unexpected error.")
  {
    if proposalId == 0 || documentId == 0 || pageNumber.None? then ErrorReply("Missing parameters.")
    else match o
      case Rejected => ErrorReply("Failed to extract HTML due to an unexpected error.")
      case HttpError(status, statusText, body) => ErrorReply(DetailOrStatus(status, statusText, body, "trigger HTML extraction"))
      case Received(message) => ValueReply(OrElse(message, "HTML extraction process started."))
  }

  /** The segments of a path written one after the other. */
  function Concat(segments: seq<string>): string
  {
    if segments == [] then "" else segments[0] + Concat(segments[1..])
  }

  /** Writing one more segment at the end extends the path by it. */
  lemma {:induction false} ConcatSnoc(segments: seq<string>, last: string)
    ensures Concat(segments + [last]) == Concat(segments) + last
  {
    if segments != [] {
      assert (segments + [last])[1..] == segments[1..] + [last];
      ConcatSnoc(segments[1..], last);
    }
  }

  /** The URL of an API endpoint, `${API_BASE_URL}<path>`, built one
      template segment at a time from the left. */
  function Endpoint(apiBase: string, path: seq<string>): (r: string)
    ensures r == apiBase + Concat(path)
  {
    if path == [] then apiBase
    else
      var init := path[..|path| - 1];
      assert path == init + [path[|path| - 1]];
      ConcatSnoc(init, path[|path| - 1]);
      Endpoint(apiBase, init) + path[|path| - 1]
  }

  function SignatureImagePath(proposalId: int, signatureId: int): seq<string>
  {
    ["/proposals/", IntToString(proposalId), "/signatures/", IntToString(signatureId), "/image"]
  }

  function PagePdfPath(proposalId: int, documentId: int, pageNumber: int): seq<string>
  {
    ["/proposals/", IntToString(proposalId), "/documents/", IntToString(documentId),
     "/pages/", IntToString(pageNumber), "/pdf"]
  }

  /** A five-segment path written out. */
  lemma Concat5(a: string, b: string, c: string, d: string, e: string)
    ensures Concat([a, b, c, d, e]) == a + b + c + d + e
  {
    assert [a, b, c, d, e][1..] == [b, c, d, e] && [b, c, d, e][1..] == [c, d, e];
    assert [c, d, e][1..] == [d, e] && [d, e][1..] == [e] && [e][1..] == [];
    assert Concat([e]) == e;
    assert Concat([d, e]) == d + e;
    assert Concat([c, d, e]) == c + d + e;
    assert Concat([b, c, d, e]) == b + c + d + e;
  }

  /** A seven-segment path written out. */
  lemma Concat7(a: string, b: string, c: string, d: string, e: string, f: string, g: string)
    ensures Concat([a, b, c, d, e, f, g]) == a + b + c + d + e + f + g
  {
    assert [a, b, c, d, e, f, g][1..] == [b, c, d, e, f, g] && [b, c, d, e, f, g][1..] == [c, d, e, f, g];
    Concat5(c, d, e, f, g);
  }

  /** The signature image endpoint is the template literal of the action. */
  lemma SignatureImageUrl(apiBase: string, proposalId: int, signatureId: int)
    ensures Endpoint(apiBase, SignatureImagePath(proposalId, signatureId)) ==
            apiBase + "/proposals/" + IntToString(proposalId) + "/signatures/" + IntToString(signatureId) + "/image"
  {
    Concat5("/proposals/", IntToString(proposalId), "/signatures/", IntToString(signatureId), "/image");
  }

  /** The page PDF endpoint is the template literal of the action. */
  lemma PagePdfUrl(apiBase: string, proposalId: int, documentId: int, pageNumber: int)
    ensures Endpoint(apiBase, PagePdfPath(proposalId, documentId, pageNumber)) ==
            apiBase + "/proposals/" + IntToString(proposalId) + "/documents/" + IntToString(documentId) +
            "/pages/" + IntToString(pageNumber) + "/pdf"
  {
    Concat7("/proposals/", IntToString(proposalId), "/documents/", IntToString(documentId),
            "/pages/", IntToString(pageNumber), "/pdf");
  }

  /** `getSignatureImageUrlAction`: on success the URL is the endpoint that
      was requested (the body is not read). */
  function GetSignatureImageUrlAction(apiBase: string, proposalId: int, signatureId: int, o: HttpOutcome<(), string>): (r: Reply<string>)
    ensures OneOf(r)
    ensures r.value.Some? <==> o.Received?
    ensures o.Received? ==>
              r.value.value == apiBase + "/proposals/" + IntToString(proposalId) + "/signatures/" +
                               IntToString(signatureId) + "/image"
    ensures o.HttpError? ==> r.error == Some("Failed to fetch signature image: " + o.statusText)
    ensures o.Rejected? ==> r.error == Some("An unexpected error occurred fetching signature image.")
  {
    match o
    case Rejected => ErrorReply("An unexpected error occurred fetching signature image.")
    case HttpError(_, statusText, _) => ErrorReply("Failed to fetch signature image: " + statusText)
    case Received(_) =>
      SignatureImageUrl(apiBase, proposalId, signatureId);
      ValueReply(Endpoint(apiBase, SignatureImagePath(proposalId, signatureId)))
  }

  /** `getDocumentPagePdfUrlAction`. */
  function GetDocumentPagePdfUrlAction(apiBase: string, proposalId: int, documentId: int, pageNumber: int,
                                       o: HttpOutcome<(), string>): (r: Reply<string>)
    ensures OneOf(r)
    ensures r.value.Some? <==> o.Received?
    ensures o.Received? ==>
              r.value.value == apiBase + "/proposals/" + IntToString(proposalId) + "/documents/" +
                               IntToString(documentId) + "/pages/" + IntToString(pageNumber) + "/pdf"
    ensures r.error == Some("PDF page not found.") <==> o.HttpError? && o.status == 404
    ensures o.HttpError? && o.status != 404 ==> r.error == Some("Failed to load PDF page: " + o.statusText)
    ensures o.Rejected? ==> r.error == Some("An unexpected error occurred while fetching PDF page.")
  {
    match o
    case Rejected => ErrorReply("An unexpected error occurred while fetching PDF page.")
    case HttpError(status, statusText, _) =>
      if status == 404 then ErrorReply("PDF page not found.") else ErrorReply("Failed to load PDF page: " + statusText)
    case Received(_) =>
      PagePdfUrl(apiBase, proposalId, documentId, pageNumber);
      ValueReply(Endpoint(apiBase, PagePdfPath(proposalId, documentId, pageNumber)))
  }

  /** `getDocumentPageHtmlAction`; the payload is the body's `html_content`.
      A 404 is not an error: it yields a "not available" placeholder. */
  function GetDocumentPageHtmlAction(o: HttpOutcome<Option<string>, string>): (r: Reply<string>)
    ensures OneOf(r)
    ensures r.error.None? <==> o.Received? || (o.HttpError? && o.status == 404)
    ensures o.HttpError? && o.status == 404 ==> r.value == Some(NotAvailableHtml)
    ensures o.Received? && Truthy(o.payload) ==> r.value == o.payload
    ensures o.Received? && !Truthy(o.payload) ==> r.value == Some(NoContentHtml)
    ensures o.HttpError? && o.status != 404 ==> r.error == Some("Failed to fetch HTML content: " + o.statusText)
    ensures o.Rejected? ==> r.error == Some("An unexpected error occurred fetching HTML content.")
    ensures r.value.Some? ==> r.value.value != ""
  {
    match o
    case Rejected => ErrorReply("An unexpected error occurred fetching HTML content.")
    case HttpError(status, statusText, _) =>
      if status == 404 then ValueReply(NotAvailableHtml) else ErrorReply("Failed to fetch HTML content: " + statusText)
    case Received(html) => ValueReply(OrElse(html, NoContentHtml))
  }

  /** `getSignatureAnalysisReportAction`; the payload is the response text. */
  function GetSignatureAnalysisReportAction(o: HttpOutcome<string, string>): (r: Reply<string>)
    ensures OneOf(r)
    ensures r.value.Some? <==> o.Received?
    ensures o.Received? ==> r.value.value == (if o.payload != "" then o.payload else NoReportHtml)
    ensures r.error == Some("Report not found or analysis not complete.") <==> o.HttpError? && o.status == 404
    ensures o.HttpError? && o.status != 404 ==>
              r.error == Some("Failed to fetch signature analysis report: " + o.statusText)
    ensures o.Rejected? ==> r.error == Some("An unexpected error occurred fetching the signature analysis report.")
  {
    match o
    case Rejected => ErrorReply("An unexpected error occurred fetching the signature analysis report.")
    case HttpError(status, statusText, _) =>
      if status == 404 then ErrorReply("Report not found or analysis not complete.")
      else ErrorReply("Failed to fetch signature analysis report: " + statusText)
    case Received(text) => ValueReply(if text != "" then text else NoReportHtml)
  }
}
