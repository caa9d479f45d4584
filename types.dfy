/** The domain records: the snake_case shapes the remote API sends
    (`Api*`) and the camelCase shapes the client works with. Optional and
    nullable fields are `Option`s; numbers the client uses as ids, page
    numbers and counts are integers. */
module Types {
  import opened Wrappers
  import JsText

  datatype BoundingBox = BoundingBox(x: real, y: real, width: real, height: real)

  // ---- shapes received from the API (field names as on the wire) ----

  datatype ApiSignature = ApiSignature(
    id: int,
    page_id: int,
    document_id: int,
    stakeholder_id: Option<int>,
    ai_signature_id: Option<string>,
    ai_confidence: Option<string>,
    bounding_box_json: Option<BoundingBox>,
    is_consistent_with_stakeholder_group: Option<bool>,
    is_unique_among_stakeholders: Option<bool>,
    analysis_notes: Option<string>)

  datatype ApiPage = ApiPage(
    id: int,
    page_number: int,
    document_id: int,
    generated_form_html: Option<string>,
    text_content: Option<string>,
    signatures: Option<seq<ApiSignature>>)

  datatype ApiDocument = ApiDocument(
    id: int,
    file_name: string,
    created_at: string,
    total_pages: int,
    project_id: int,
    chat_session_id: Option<string>,
    pages: Option<seq<ApiPage>>)

  datatype ApiProposal = ApiProposal(
    id: int,
    name: string,
    application_number: Option<string>,
    created_at: string,
    signature_analysis_status: Option<string>,
    signature_analysis_report_html: Option<string>,
    chat_session_id: Option<string>,
    documents: seq<ApiDocument>)

  // ---- client-side shapes ----

  datatype Signature = Signature(
    id: int,
    pageId: int,
    documentId: int,
    stakeholderId: Option<int>,
    aiSignatureId: Option<string>,
    confidence: Option<real>,
    coordinates: Option<BoundingBox>,
    isConsistentWithStakeholderGroup: Option<bool>,
    isUniqueAmongStakeholders: Option<bool>,
    analysisNotes: Option<string>,
    imageUrl: Option<string>)

  datatype Page = Page(
    id: int,
    pageNumber: int,
    htmlContent: Option<string>,
    textContent: Option<string>,
    signatures: seq<Signature>,
    documentId: int)

  datatype Document = Document(
    id: int,
    name: string,
    uploadedAt: string,
    totalPages: int,
    projectId: int,
    pages: seq<Page>,
    chatSessionId: Option<string>)

  datatype Proposal = Proposal(
    id: int,
    applicationNumber: Option<string>,
    name: string,
    createdAt: string,
    documents: seq<Document>,
    signatureAnalysisStatus: Option<string>,
    signatureAnalysisReportHtml: Option<string>,
    chatSessionId: Option<string>)

  // ---- chat ----

  datatype Role = User | Model

  datatype ChatMessage = ChatMessage(
    id: string,
    role: Role,
    content: string,
    timestamp: Option<string>,
    file_uri: Option<string>,
    file_mime_type: Option<string>)

  datatype ChatSessionInfo = ChatSessionInfo(id: string, title: string, created_at: string)

  datatype ChatHistoryResponse = ChatHistoryResponse(session: ChatSessionInfo, messages: seq<ChatMessage>)

  // ---- values handed over by the browser ----

  /** The parts of a browser `File` the code reads. */
  datatype UploadFile = UploadFile(name: string, mimeType: string, size: int)

  // ---- untyped JSON, for error values whose shape is not fixed ----

  datatype Json =
    | JNull
    | JBool(b: bool)
    | JNumber(n: int)
    | JString(s: string)
    | JArray(items: seq<Json>)
    | JObject(fields: map<string, Json>)

  /** JavaScript truthiness of a JSON value. */
  predicate JsonTruthy(j: Json)
  {
    match j
    case JNull => false
    case JBool(b) => b
    case JNumber(n) => n != 0
    case JString(s) => s != ""
    case JArray(_) => true
    case JObject(_) => true
  }

  /** `String(j)`: arrays are joined with "," (null items become empty),
      objects print as "[object Object]". */
  function JsonToString(j: Json): (r: string)
    ensures j.JString? ==> r == j.s
    ensures j.JArray? && |j.items| == 1 && j.items[0].JString? ==> r == j.items[0].s
  {
    match j
    case JNull => "null"
    case JBool(b) => if b then "true" else "false"
    case JNumber(n) => JsText.IntToString(n)
    case JString(s) => s
    case JArray(items) =>
      JsText.Join(seq(|items|, i requires 0 <= i < |items| =>
                        if items[i].JNull? then "" else JsonToString(items[i])), ",")
    case JObject(_) => "[object Object]"
  }

  /** `items.join(sep)` on a JSON array. */
  function JoinJson(items: seq<Json>, sep: string): (r: string)
    ensures |items| == 1 && items[0].JString? ==> r == items[0].s
  {
    JsText.Join(seq(|items|, i requires 0 <= i < |items| =>
                      if items[i].JNull? then "" else JsonToString(items[i])), sep)
  }

  /** The CreateProposal reply: its error is a message or a field-error object. */
  datatype CreateReply = CreateReply(proposal: Option<Proposal>, error: Option<Json>)
}
