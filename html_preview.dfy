/** The HTML preview of a document page (`HtmlPreview.tsx`): loading the
    extracted HTML of the current page, keeping earlier content when a later
    load fails, triggering a new extraction and re-loading after it. The
    actions' results are inputs; the 5-second delayed re-load is a method
    the environment calls. */
module HtmlPreview {
  import opened Wrappers
  import opened JsText
  import Actions

  /** The content a page load leaves, given the content before and the
      awaited `getDocumentPageHtmlAction` result. */
  function ContentAfterFetch(content: Option<string>, result: Outcome<Reply<string>>): (r: Option<string>)
    ensures Truthy(r)
    ensures result.Returned? && !Truthy(result.value.error) ==> r == Some(OrElse(result.value.value, Actions.NoContentHtml))
    ensures result.Returned? && Truthy(result.value.error) && Truthy(content) && result.value.value != Some(Actions.NotAvailableHtml) ==>
              r == content
    ensures result.Returned? && Truthy(result.value.error) && (!Truthy(content) || result.value.value == Some(Actions.NotAvailableHtml)) ==>
              r == Some(Actions.NoContentHtml)
    ensures result.Threw? ==> r == Some(Actions.NoContentHtml)
  {
    match result
    case Returned(reply) =>
      if Truthy(reply.error) then
        if reply.value == Some(Actions.NotAvailableHtml) || !Truthy(content) then Some(Actions.NoContentHtml) else content
      else Some(OrElse(reply.value, Actions.NoContentHtml))
    case Threw(_) => Some(Actions.NoContentHtml)
  }

  /** The error a page load leaves. */
  function ErrorAfterFetch(result: Outcome<Reply<string>>): (r: Option<string>)
    ensures r.None? <==> result.Returned? && !Truthy(result.value.error)
    ensures result.Returned? && r.Some? ==> r == result.value.error
  {
    match result
    case Returned(reply) => if Truthy(reply.error) then reply.error else None
    case Threw(message) => Some("Failed to fetch HTML content: " + message)
  }

  /** The extract button's text: "Re-extract HTML" exactly when there is
      content other than the "no content" placeholder. */
  function ButtonLabel(content: Option<string>): (r: string)
    ensures r == "Re-extract HTML" <==> Truthy(content) && content.value != Actions.NoContentHtml
    ensures r == "Extract HTML" <==> !(Truthy(content) && content.value != Actions.NoContentHtml)
  {
    if Truthy(content) && content.value != Actions.NoContentHtml then "Re-extract HTML" else "Extract HTML"
  }

  /** Loading with the real action: a page the server does not have (404)
      is no error; it shows the "not available" placeholder and offers a
      re-extraction. Because the action never pairs HTML with an error, the
      placeholder test in the error branch never applies. */
  lemma NotFoundPageOffersReextract(content: Option<string>, statusText: string, body: Actions.ErrorBody<string>)
    ensures var reply := Actions.GetDocumentPageHtmlAction(Actions.HttpError(404, statusText, body));
      && ErrorAfterFetch(Returned(reply)) == None
      && ContentAfterFetch(content, Returned(reply)) == Some(Actions.NotAvailableHtml)
      && ButtonLabel(ContentAfterFetch(content, Returned(reply))) == "Re-extract HTML"
  {
  }

  /** With the real action, a failed load keeps any content there was. */
  lemma FailedLoadKeepsContent(content: Option<string>, o: Actions.HttpOutcome<Option<string>, string>)
    requires Truthy(content)
    requires !o.Received? && !(o.HttpError? && o.status == 404)
    ensures ContentAfterFetch(content, Returned(Actions.GetDocumentPageHtmlAction(o))) == content
    ensures ErrorAfterFetch(Returned(Actions.GetDocumentPageHtmlAction(o))).Some?
  {
  }

  class Preview {
    const proposalId: int
    const documentId: int
    var currentPage: int
    var htmlContent: Option<string>
    var isLoading: bool
    var error: Option<string>
    var isExtracting: bool
    /** The page a delayed re-load will fetch, if one is pending. */
    var refetchScheduled: Option<int>

    constructor (proposalId: int, documentId: int, currentPage: int)
      ensures this.proposalId == proposalId && this.documentId == documentId && this.currentPage == currentPage
      ensures htmlContent == None && !isLoading && error == None && !isExtracting && refetchScheduled == None
    {
      this.proposalId := proposalId;
      this.documentId := documentId;
      this.currentPage := currentPage;
      htmlContent := None;
      isLoading := false;
      error := None;
      isExtracting := false;
      refetchScheduled := None;
    }

    function Label(): (r: string)
      reads this
      ensures r == ButtonLabel(htmlContent)
    {
      ButtonLabel(htmlContent)
    }

    /** The extract button is enabled only when nothing is in flight. */
    predicate CanExtract()
      reads this
    {
      !isExtracting && !isLoading
    }

    /** The synchronous start of `fetchHtmlContent`: loading begins, the
        error is cleared, and the extract button is disabled. */
    method BeginFetch()
      modifies this
      ensures isLoading && error == None && !CanExtract()
      ensures htmlContent == old(htmlContent) && isExtracting == old(isExtracting)
      ensures currentPage == old(currentPage) && refetchScheduled == old(refetchScheduled)
    {
      isLoading := true;
      error := None;
    }

    /** The rest of `fetchHtmlContent`, given what the awaited
        `getDocumentPageHtmlAction` did. Afterwards there is always some
        content, a failed load sets its error, and loading is over. */
    method FinishFetch(result: Outcome<Reply<string>>)
      modifies this
      ensures htmlContent == ContentAfterFetch(old(htmlContent), result) && Truthy(htmlContent)
      ensures error == (if ErrorAfterFetch(result).Some? then ErrorAfterFetch(result) else old(error))
      ensures !isLoading
      ensures isExtracting == old(isExtracting) && currentPage == old(currentPage) && refetchScheduled == old(refetchScheduled)
    {
      match result {
        case Returned(reply) =>
          if Truthy(reply.error) {
            error := reply.error;
            if reply.value == Some(Actions.NotAvailableHtml) || !Truthy(htmlContent) {
              htmlContent := Some(Actions.NoContentHtml);
            }
          } else {
            htmlContent := Some(OrElse(reply.value, Actions.NoContentHtml));
          }
        case Threw(message) =>
          error := Some("Failed to fetch HTML content: " + message);
          htmlContent := Some(Actions.NoContentHtml);
      }
      isLoading := false;
    }

    /** `fetchHtmlContent(pageToFetch)` run to its end, as the effects call
        it. */
    method FetchHtmlContent(pageToFetch: int, result: Outcome<Reply<string>>)
      modifies this
      ensures htmlContent == ContentAfterFetch(old(htmlContent), result) && Truthy(htmlContent)
      ensures error == ErrorAfterFetch(result)
      ensures !isLoading
      ensures isExtracting == old(isExtracting) && currentPage == old(currentPage) && refetchScheduled == old(refetchScheduled)
    {
      BeginFetch();
      FinishFetch(result);
    }

    /** The parent moved to another page; the effect loads it. */
    method PageChanged(newPage: int, result: Outcome<Reply<string>>)
      modifies this
      ensures currentPage == newPage
      ensures htmlContent == ContentAfterFetch(old(htmlContent), result) && error == ErrorAfterFetch(result)
      ensures !isLoading && refetchScheduled == old(refetchScheduled)
    {
      currentPage := newPage;
      FetchHtmlContent(newPage, result);
    }

    /** The synchronous start of `handleExtractHtml`, reachable only through
        the extract button, which is enabled only when nothing is in flight.
        Extraction begins and the error is cleared. */
    method BeginExtract()
      requires CanExtract()
      modifies this
      ensures isExtracting && error == None && !CanExtract()
      ensures htmlContent == old(htmlContent) && isLoading == old(isLoading)
      ensures currentPage == old(currentPage) && refetchScheduled == old(refetchScheduled)
    {
      isExtracting := true;
      error := None;
    }

    /** The rest of `handleExtractHtml`, given what the awaited
        `extractHtmlAction` did: a success schedules a re-load of the current
        page, a failure sets the error and schedules nothing; extraction is
        over on every path. */
    method FinishExtract(result: Outcome<Reply<string>>)
      modifies this
      ensures result.Returned? && !Truthy(result.value.error) ==>
                refetchScheduled == Some(currentPage) && error == old(error)
      ensures result.Returned? && Truthy(result.value.error) ==>
                refetchScheduled == old(refetchScheduled) && error == result.value.error
      ensures result.Threw? ==>
                refetchScheduled == old(refetchScheduled) &&
                error == Some("An unexpected error occurred during HTML extraction: " + result.message)
      ensures !isExtracting
      ensures htmlContent == old(htmlContent) && isLoading == old(isLoading) && currentPage == old(currentPage)
    {
      match result {
        case Returned(reply) =>
          if Truthy(reply.error) {
            error := reply.error;
          } else {
            refetchScheduled := Some(currentPage);
          }
        case Threw(message) =>
          error := Some("An unexpected error occurred during HTML extraction: " + message);
      }
      isExtracting := false;
    }

    /** The delayed re-load fires for the page it was scheduled for. */
    method RunScheduledRefetch(result: Outcome<Reply<string>>)
      requires refetchScheduled.Some?
      modifies this
      ensures htmlContent == ContentAfterFetch(old(htmlContent), result) && error == ErrorAfterFetch(result)
      ensures refetchScheduled == None && !isLoading && currentPage == old(currentPage)
    {
      var page := refetchScheduled.value;
      refetchScheduled := None;
      FetchHtmlContent(page, result);
    }
  }
}
