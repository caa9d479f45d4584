# Proposal signature analysis front end — a Dafny model

The repository is a Next.js front end for managing *proposals*: sets of PDF
documents whose pages are checked for signatures by a backend API. This
project models the logic of its core in Dafny and proves properties of it:

- **Server actions** (`src/lib/actions.ts`). These convert the API's
  snake_case records into the client's camelCase records. For each action
  the model maps the HTTP outcome to the reply the action returns:
  `{ value }` or `{ error }`, never both. The request itself is not
  modelled. Each action takes the way its request ended as an input:
  rejected, received, or a non-ok status with its body.
- **Mock store** (`src/lib/mockData.ts`). This is the in-memory fake
  backend: the sample proposals and the store with its lookups and
  updates. The store is a class whose methods reassign its list of
  proposals.
- **Components.** Each React component is a class whose fields are its
  state variables. The synchronous parts of its handlers are methods. The
  awaited part of a handler is a method that takes the awaited result as
  an input: `Returned(value)` or `Threw(message)`. Timers are methods the
  environment calls. The components are:
  - the proposal card;
  - the dashboard page (search filter, list refresh, local removal);
  - the chat panel (history load, optimistic send with rollback);
  - the chat bubble (time-zone normalisation, layout, attachment);
  - the PDF upload control (simulated progress);
  - the page image viewer (zoom, paging, image states);
  - the HTML preview (load, keep on failure, re-extract);
  - the "New Proposal" dialog (its reading of every error shape).

Shared pieces:

- `Wrappers`: `Option`, `Outcome`, `Reply`, `Ack`.
- `JsText`: the string operations the code relies on, written out:
  - ASCII case mapping, `includes`, `startsWith`/`endsWith`;
  - `trim` with JavaScript's whitespace set;
  - truthiness and `||` on optional strings;
  - decimal printing, with a read-back proof.
- `Seqs`: `filter`, subsequences, `find` as an index.
- `Types`: the records of `src/types/index.ts`, plus a JSON value for
  untyped error payloads.

## Model

| member | source | states |
|---|---|---|
| Actions.TransformApiSignature | src/lib/actions.ts:47-67 | The id, page id, stakeholder, AI signature id, box, consistency and uniqueness flags and notes are copied. The signature gets the id of the document it is listed under. Its confidence is absent when `ai_confidence` is absent or unparsable, else the parsed number. It has no image URL. |
| Actions.TransformApiPage | src/lib/actions.ts:34-43 | The page fields are copied. There is one signature per API signature, in order, or none when the list is missing. Each carries the given document id. |
| Actions.TransformApiDocument | src/lib/actions.ts:22-31 | The file name, creation time, page count and project are carried over. There is one page per API page, in order, or none when `pages` is missing. There is no chat session. |
| Actions.TransformApiProposal | src/lib/actions.ts:10-19 | The scalar fields are carried over. There is one document per API document, in the same order, each transformed. |
| Actions.SignaturesCarryTheirDocumentId | src/lib/actions.ts:22-58 | In a transformed proposal, every signature of every page names the document it sits in. |
| Actions.SignatureIgnoresOwnDocumentId | src/lib/actions.ts:47-58 | The API signature's own `document_id` never affects the result. |
| Actions.DetailOrStatus | src/lib/actions.ts:151-152 | Gives the error body's truthy `detail` (the status text when the body is not JSON), else "Failed to …: HTTP <status>". |
| Actions.GetProposalsAction | src/lib/actions.ts:70-82 | Exactly one of value or error. A list comes back exactly on success: one transformed proposal per API proposal, in order. Each failure kind has its own message. |
| Actions.GetProposalByIdAction | src/lib/actions.ts:84-97 | Exactly one of value or error. "Proposal not found." comes back if and only if the status is 404. Other statuses report the status text, and a rejection reports a fixed message. |
| Actions.ValidateName | src/lib/actions.ts:100-103 | A name passes if and only if it is a string of at least 3 characters. Otherwise the result is the flattened field errors, with the "too short" or "expected string" message. |
| Actions.CreateProposalAction | src/lib/actions.ts:105-135 | An invalid name gives the field errors whatever the server would say. A proposal comes back exactly when the name is valid and the request succeeded, and never together with an error. A non-ok response gives its truthy detail or "HTTP <status>". Every error is truthy. |
| Actions.AddDocumentToProposalAction | src/lib/actions.ts:137-164 | A zero proposal id or a missing file is reported first. A document comes back exactly on success with a non-empty list, and it is the first document returned. An empty list, an HTTP error and a rejection each have their message. |
| Actions.StartSignatureAnalysisAction | src/lib/actions.ts:167-185 | A zero id is refused. On success the reply is the server's message or a default, never empty. The failure messages use the detail or the status. |
| Actions.ExtractHtmlAction | src/lib/actions.ts:187-212 | A missing id or page number gives "Missing parameters.". On success the reply is the server's message or a default, never empty. The failures are as for the other actions. |
| Actions.Endpoint | src/lib/actions.ts:246 | Building the URL one path segment at a time from the end gives the API base followed by all the segments in order. |
| Actions.SignatureImageUrl | src/lib/actions.ts:216-226 | The signature image endpoint is `<base>/proposals/<proposalId>/signatures/<signatureId>/image`, with the ids in decimal. |
| Actions.PagePdfUrl | src/lib/actions.ts:238-246 | The page PDF endpoint is `<base>/proposals/<proposalId>/documents/<documentId>/pages/<pageNumber>/pdf`, with the numbers in decimal. |
| Actions.GetSignatureImageUrlAction | src/lib/actions.ts:214-231 | A URL comes back if and only if the request succeeded. It is `<base>/proposals/<proposalId>/signatures/<signatureId>/image`, the URL that was requested. |
| Actions.GetDocumentPagePdfUrlAction | src/lib/actions.ts:233-251 | A URL comes back if and only if the request succeeded. It is `<base>/proposals/<proposalId>/documents/<documentId>/pages/<pageNumber>/pdf`. "PDF page not found." comes back if and only if the status is 404. |
| Actions.GetDocumentPageHtmlAction | src/lib/actions.ts:253-266 | The reply has no error if and only if the request succeeded or got a 404. A 404 gives the "not available" placeholder, and empty HTML gives the "no content" placeholder. Any HTML returned is non-empty. |
| Actions.GetSignatureAnalysisReportAction | src/lib/actions.ts:269-283 | Report text comes back if and only if the request succeeded, with a placeholder for an empty body. "Report not found…" comes back if and only if the status is 404. |
| MockData.LookupProposal | src/lib/mockData.ts:74-76 | Returns none if and only if no proposal has the id. Otherwise it returns a stored proposal with that id, and an equal record occurs at or before every position holding the id. |
| MockData.GetProposalByIdAsWritten | src/lib/mockData.ts:74-76 | The deep copy of the `find` result fails with a `SyntaxError` if and only if the id is unknown, and otherwise it is the found proposal. |
| MockData.UnknownIdRejects | src/lib/mockData.ts:74-76 | For the id "prop_404" on an empty store, the as-written lookup fails, where the declared lookup gives none. |
| MockData.MockPageCount | src/lib/mockData.ts:100 | For a random number in [0, 1) the page count is between 1 and 20. |
| MockData.NewProposal | src/lib/mockData.ts:79-86 | A new proposal has the given name, no documents and the status "Not Started". Its id starts with `prop_` and its application number with `APP-`. |
| MockData.NewDocument | src/lib/mockData.ts:95-104 | A new document is a PDF with the file's name and size, 1 to 20 pages and nothing extracted. Its id starts with `doc_`. |
| MockData.WithDocument | src/lib/mockData.ts:105 | Only the chosen proposal changes, and it gains the document at the end of its list. |
| MockData.WithPageHtml | src/lib/mockData.ts:123-132 | Only the chosen page of the chosen document of the chosen proposal changes. Every other proposal, document and field stays as it was. |
| MockData.SameIdsSameIndex | src/lib/mockData.ts:74-121 | Lookups depend only on ids: stores with the same ids at the same positions find the same index. |
| MockData.AppendedProposalIsFound | src/lib/mockData.ts:74-89 | After a proposal with a fresh id is appended, its id finds it and every other id finds what it found before. |
| MockData.AddDocumentKeepsLookups | src/lib/mockData.ts:91-107 | After a document is added, the proposal's id finds it with the document at the end. Every other id finds what it found before. |
| MockData.UpdateKeepsLookups | src/lib/mockData.ts:109-116 | After an update, the updated id finds the new record and every other id finds what it found before. |
| MockData.MockProposals | src/lib/mockData.ts:5-65 | There are three sample proposals, `prop_001` to `prop_003`. Every application number starts with `APP-` and every document has 1 to 20 pages. |
| MockData.ProposalStore.constructor | src/lib/mockData.ts:68 | The store starts as the seed list. |
| MockData.ProposalStore.GetProposals | src/lib/mockData.ts:70-72 | Returns the stored list. |
| MockData.ProposalStore.GetProposalById | src/lib/mockData.ts:74-76 | Gives the declared lookup (none for an unknown id); see Findings. |
| MockData.ProposalStore.CreateProposal | src/lib/mockData.ts:78-89 | The store is the old list with the new proposal appended, and the new proposal is returned. |
| MockData.ProposalStore.AddDocumentToProposal | src/lib/mockData.ts:91-107 | An unknown proposal gives none and leaves the store unchanged. Otherwise the new document is appended to that proposal and returned. |
| MockData.ProposalStore.UpdateProposal | src/lib/mockData.ts:109-116 | An unknown id gives none and leaves the store unchanged. Otherwise the first proposal with that id is replaced and the update is returned. |
| MockData.ProposalStore.GetDocumentById | src/lib/mockData.ts:118-121 | Built on the corrected lookup of `getProposalById` (see Findings; as written an unknown proposal makes the call reject). Returns none for an unknown proposal. Otherwise it returns the first document of that proposal with the id, if there is one. |
| MockData.ProposalStore.SetDocumentExtractedHtml | src/lib/mockData.ts:123-132 | An unknown proposal or document leaves the store unchanged. Otherwise exactly that page's HTML is set. |
| ProposalCard.DisplayedStatus | src/components/proposals/ProposalCard.tsx:49 | The status text is never empty: the status when truthy, else "Not Started". |
| ProposalCard.BadgeClassifies | src/components/proposals/ProposalCard.tsx:55-67 | `Badge` (the if-chain of lines 55-67): the badge variant is decided by the category of the lower-cased status. The three known categories have fixed texts, and any other status is shown as it is with the outline badge. |
| ProposalCard.IconAgreesWithBadge | src/components/proposals/ProposalCard.tsx:30-67 | For every status, `StatusIcon` (the switch of lines 30-45) and `Badge` fall in the same category. |
| ProposalCard.BadgeIgnoresCase | src/components/proposals/ProposalCard.tsx:55-67 | Statuses that lower-case alike get the same badge variant, and the same text when the status is known. |
| ProposalCard.DocumentCountLabel | src/components/proposals/ProposalCard.tsx:98 | The label's leading digits read back as the count. The label says " document" if and only if the count is 1, and " documents" otherwise. |
| ProposalCard.CardState.constructor | src/components/proposals/ProposalCard.tsx:52-53 | A card starts with no deletion running and the dialog closed. |
| ProposalCard.CardState.DeleteLabel | src/components/proposals/ProposalCard.tsx:119 | The button reads "Deleting..." if and only if a deletion is running. |
| ProposalCard.CardState.OpenDialog | src/components/proposals/ProposalCard.tsx:115-117 | The confirmation dialog opens unless a delete runs, when the trigger is disabled and nothing changes. |
| ProposalCard.CardState.BeginDelete | src/components/proposals/ProposalCard.tsx:70 | The deleting flag is raised. |
| ProposalCard.CardState.FinishDelete | src/components/proposals/ProposalCard.tsx:71-85 | The parent is told the card's id if and only if the delete succeeded. The notice is destructive if and only if it failed, and its text follows the failure kind. The flag is lowered and the dialog closed on every path. |
| Dashboard.MatchesIffOccurs | src/app/page.tsx:57-60 | `Matches` (the filter's test): a proposal matches if and only if the lower-cased term occurs in its lower-cased name or in its non-empty application number. |
| Dashboard.SearchFilterKeepsMatches | src/app/page.tsx:57-60 | `SearchFilter` (`filteredProposals`) holds exactly the proposals that satisfy `Matches`, each as many times as the list holds it, as a subsequence of the list. |
| Dashboard.EmptyTermKeepsAll | src/app/page.tsx:57-60 | An empty search term keeps the whole list. |
| Dashboard.SearchIgnoresCase | src/app/page.tsx:57-60 | Terms that lower-case alike filter alike. |
| Dashboard.WithoutIdRemovesOnlyThatId | src/app/page.tsx:50-53 | `WithoutId` (the `filter` of line 51) drops every proposal with the deleted id and keeps every occurrence of all others, in order. A list without that id is unchanged. |
| Dashboard.DashboardState.constructor | src/app/page.tsx:17-20 | The page starts with no proposals, loading, no error and an empty search. |
| Dashboard.DashboardState.EmptyHint | src/app/page.tsx:101 | The "adjust your search" hint shows if and only if a search term is set. |
| Dashboard.DashboardState.SetSearchTerm | src/app/page.tsx:78 | Only the search term changes. |
| Dashboard.DashboardState.FetchProposals | src/app/page.tsx:22-40 | An error reply or a throw leaves an empty list and the error. Success takes the returned list. Loading ends on every path. |
| Dashboard.DashboardState.HandleProposalDeleted | src/app/page.tsx:50-54 | The list loses exactly the deleted proposal; see `WithoutIdRemovesOnlyThatId`. |
| ChatInterface.AfterHistory | src/components/chat/ChatInterface.tsx:36-55 | There is no error if and only if the history came back. A failed reply clears messages and session with a non-empty error. A throw keeps them. |
| ChatInterface.RollbackRestores | src/components/chat/ChatInterface.tsx:69-93 | `WithoutMessage` (the rollback `filter`) removing the optimistic message restores the list it was appended to, when no earlier message has its id. |
| ChatInterface.RollbackKeepsOthers | src/components/chat/ChatInterface.tsx:82-93 | `WithoutMessage` leaves no message with the temporary id and keeps every occurrence of every other message, in order. |
| ChatInterface.TempId | src/components/chat/ChatInterface.tsx:70 | A temporary id starts with `temp-` followed by something. |
| ChatInterface.ChatPanel.constructor | src/components/chat/ChatInterface.tsx:22-27 | The panel starts empty, loading history, not sending and with no error. |
| ChatInterface.ChatPanel.Title | src/components/chat/ChatInterface.tsx:99 | The title is never empty: the session's title, else the prop, else "Chat". |
| ChatInterface.ChatPanel.ShownPane | src/components/chat/ChatInterface.tsx:111-133 | Bubbles show if and only if the panel is not loading, has no error and has messages. An error alert shows the error. |
| ChatInterface.ChatPanel.SetInput | src/components/chat/ChatInterface.tsx:143-144 | Typing sets the input unless history loads or a message is being sent, when the input is disabled and nothing changes. Nothing else changes. |
| ChatInterface.ChatPanel.FetchHistory | src/components/chat/ChatInterface.tsx:36-55 | The new messages, session and error are those of `AfterHistory`. The spinner is touched only when asked for. |
| ChatInterface.ChatPanel.BeginSend | src/components/chat/ChatInterface.tsx:65-78 | Blank input or a send in flight changes nothing, and whenever the send button is enabled (`CanSend`, line 148) the send goes ahead. Otherwise one user message with the typed text is appended, the input is cleared and sending starts. |
| ChatInterface.ChatPanel.FinishSend | src/components/chat/ChatInterface.tsx:80-96 | A failed or thrown send removes the optimistic message and sets the error. Success reloads the history quietly. Sending ends on every path. |
| ChatInterface.SendThenFail | src/components/chat/ChatInterface.tsx:65-96 | A send that fails leaves the message list as it was before the send, and the panel can send again. |
| ChatMessageBubble.DateInput | src/components/chat/ChatMessageBubble.tsx:17-26 | There is no date if and only if the timestamp is missing or empty. The result always names a zone, begins with the timestamp, and is the timestamp plus `Z` exactly when it had no zone. |
| ChatMessageBubble.DateInputIdempotent | src/components/chat/ChatMessageBubble.tsx:17-26 | Normalising twice is normalising once. |
| ChatMessageBubble.RelativeTime | src/components/chat/ChatMessageBubble.tsx:28-30 | Empty without a timestamp, else the formatted normalised date. |
| ChatMessageBubble.HoverTitle | src/components/chat/ChatMessageBubble.tsx:73 | The local date string of the normalised date, else the raw timestamp. |
| ChatMessageBubble.BubbleLayout | src/components/chat/ChatMessageBubble.tsx:15-84 | User messages sit at the end with the user avatar, and model messages at the start with the bot avatar. Exactly one avatar shows. |
| ChatMessageBubble.AttachmentLabel | src/components/chat/ChatMessageBubble.tsx:55-67 | A link shows if and only if there is a file URI. Its text is "Attached file (" + MIME type or "unknown type" + ")". |
| DocumentUpload.ShownAfterTicks | src/components/documents/DocumentUpload.tsx:55-63 | Ticks show ten per tick in steps of ten, and stop at 90 if and only if there have been nine ticks or more. |
| DocumentUpload.AtLeastHalf | src/components/documents/DocumentUpload.tsx:70 | After an error the bar is at least 50 and never lower than before. |
| DocumentUpload.UploadControl.constructor | src/components/documents/DocumentUpload.tsx:27-29 | The control starts idle, with no progress and a valid state. |
| DocumentUpload.UploadControl.ButtonLabel | src/components/documents/DocumentUpload.tsx:124 | The button reads "Uploading..." if and only if an upload is pending. |
| DocumentUpload.UploadControl.HandleFileChange | src/components/documents/DocumentUpload.tsx:32-48 | An upload starts if and only if a PDF was chosen. A non-PDF only clears the input. No file changes nothing. |
| DocumentUpload.UploadControl.StartUpload | src/components/documents/DocumentUpload.tsx:50-55 | The progress panel shows the file at 0% uploading. The upload is pending and the ticker runs. |
| DocumentUpload.UploadControl.Tick | src/components/documents/DocumentUpload.tsx:56-62 | The counter grows by 10, the bar follows it up to 90, and the ticker stops once the counter passes 90. |
| DocumentUpload.UploadControl.RunTicker | src/components/documents/DocumentUpload.tsx:55-63 | After n ticks the bar shows `ShownAfterTicks(n)`, and the ticker is still running if and only if n < 10. The bar stays at most 90 while uploading. |
| DocumentUpload.UploadControl.Complete | src/components/documents/DocumentUpload.tsx:65-101 | The document is handed on if and only if the upload succeeded, and a success fills the bar and schedules the reset. An error keeps the bar at least half full. The ticker stops and pending ends on every path. |
| DocumentUpload.UploadControl.ResetAfterSuccess | src/components/documents/DocumentUpload.tsx:83-88 | The panel and the file input are cleared. |
| PdfViewer.ZoomedIn | src/components/documents/PdfViewer.tsx:45 | Zooming in adds one step up to the maximum and stays in range. |
| PdfViewer.ZoomedOut | src/components/documents/PdfViewer.tsx:46 | Zooming out takes one step down to the minimum and stays in range. |
| PdfViewer.ZoomInOutReturns | src/components/documents/PdfViewer.tsx:45-46 | Below the top step, zooming in then out returns to the same level. |
| PdfViewer.PrevPageRequest | src/components/documents/PdfViewer.tsx:79-84 | A previous page is asked for if and only if the page is past the first and nothing is loading. |
| PdfViewer.NextPageRequest | src/components/documents/PdfViewer.tsx:91-96 | A next page is asked for if and only if the page is before the last and nothing is loading. |
| PdfViewer.PageRequestsStayInRange | src/components/documents/PdfViewer.tsx:79-96 | From a page in range, both buttons only ask for pages in range. |
| PdfViewer.ImageErrorMessage | src/components/documents/PdfViewer.tsx:56 | The message is "Failed to load image for page ", the page number in decimal (whose digits read back as the page), and ". Check network or API response.". |
| PdfViewer.Viewer.constructor | src/components/documents/PdfViewer.tsx:20-23 | The viewer starts loading at zoom 1 with no URL and no error. |
| PdfViewer.Viewer.FetchPageImage | src/components/documents/PdfViewer.tsx:25-39 | An error or a missing URL sets the error, drops the URL and ends loading. A URL is kept and loading goes on. The zoom stays in range. |
| PdfViewer.Viewer.PageChanged | src/components/documents/PdfViewer.tsx:41-43 | The new page is fetched. Under the corrected mount rule (see Findings; as written line 106 mounts the image only when not loading), the image is mounted if and only if the reply has a URL and no error. |
| PdfViewer.Viewer.ZoomIn | src/components/documents/PdfViewer.tsx:45 | The zoom never decreases and stays in range. |
| PdfViewer.Viewer.ZoomOut | src/components/documents/PdfViewer.tsx:46 | The zoom never increases and stays in range. |
| PdfViewer.Viewer.ResetZoom | src/components/documents/PdfViewer.tsx:47 | The zoom returns to 1. |
| PdfViewer.Viewer.ImageLoad | src/components/documents/PdfViewer.tsx:49-52 | Loading ends with no error and the image shown. |
| PdfViewer.Viewer.ImageError | src/components/documents/PdfViewer.tsx:54-58 | Loading ends, the URL is dropped and the error names the page. |
| PdfViewer.UnawaitedFetchAlwaysFails | src/components/documents/PdfViewer.tsx:25-39 | As written, every fetch ends in "Failed to construct page image URL." and no image, even when the server built a URL. |
| PdfViewer.AwaitedFetchShowsPage | src/components/documents/PdfViewer.tsx:25-58 | With the reply awaited and the image mounted while loading, a page the server has is shown at its endpoint URL. |
| PdfViewer.FetchedPageStaysHiddenAsWritten | src/components/documents/PdfViewer.tsx:25-106 | As written, a fetched URL leaves the viewer loading, so `ImageMountedAsWritten` (line 106: mounted only when not loading, with a URL and no error) is false and `ShowsImage` never holds. |
| PdfViewer.FetchedPageShowsOnceLoaded | src/components/documents/PdfViewer.tsx:25-106 | Under `ImageMounted` (mounted whenever there is a URL and no error, loading or not), a fetched URL is shown (`ShowsImage`) once the image loads. |
| HtmlPreview.ContentAfterFetch | src/components/documents/HtmlPreview.tsx:26-47 | There is always content after a load. Success takes the HTML or the placeholder. A failed load keeps earlier content unless there is none or the reply was the "not available" text. A throw shows the placeholder. |
| HtmlPreview.ErrorAfterFetch | src/components/documents/HtmlPreview.tsx:26-47 | There is no error if and only if the reply came back without one. |
| HtmlPreview.ButtonLabel | src/components/documents/HtmlPreview.tsx:84 | The button reads "Re-extract HTML" if and only if there is content other than the placeholder. |
| HtmlPreview.NotFoundPageOffersReextract | src/components/documents/HtmlPreview.tsx:26-47 | With the real action, a 404 page is no error: it shows "not available" and offers re-extraction. |
| HtmlPreview.FailedLoadKeepsContent | src/components/documents/HtmlPreview.tsx:31-37 | With the real action, a failed load (other than a 404) keeps the content shown and sets an error. |
| HtmlPreview.Preview.constructor | src/components/documents/HtmlPreview.tsx:20-23 | The preview starts with no content, not loading, no error and no re-load scheduled. |
| HtmlPreview.Preview.Label | src/components/documents/HtmlPreview.tsx:84 | Gives the label for the current content. |
| HtmlPreview.Preview.BeginFetch | src/components/documents/HtmlPreview.tsx:27-28 | Loading starts and the error is cleared, which disables the extract button (line 82). |
| HtmlPreview.Preview.FinishFetch | src/components/documents/HtmlPreview.tsx:29-46 | The content is that of `ContentAfterFetch`, and there is always content. A failed load sets the error of `ErrorAfterFetch`; a successful one leaves the error alone. Loading ends. |
| HtmlPreview.Preview.FetchHtmlContent | src/components/documents/HtmlPreview.tsx:26-47 | The content and error are those of `ContentAfterFetch` and `ErrorAfterFetch`. Loading ends, and there is always content. |
| HtmlPreview.Preview.PageChanged | src/components/documents/HtmlPreview.tsx:49-51 | The new page is loaded as by `FetchHtmlContent`. |
| HtmlPreview.Preview.BeginExtract | src/components/documents/HtmlPreview.tsx:53-55 | Reachable only while the extract button is enabled (nothing loading or extracting, line 82). Extraction starts, the error is cleared and the button is disabled. |
| HtmlPreview.Preview.FinishExtract | src/components/documents/HtmlPreview.tsx:56-71 | Success schedules a re-load of the current page and leaves the error alone. Failure sets the error and schedules nothing. Extraction ends on every path. |
| HtmlPreview.Preview.RunScheduledRefetch | src/components/documents/HtmlPreview.tsx:64 | The scheduled re-load runs once, as a `FetchHtmlContent`. |
| CreateProposalDialog.ErrorMessage | src/components/proposals/CreateProposalDialog.tsx:42-53 | Tries, in order: a string; a string-led array joined; a truthy `detail` stringified; a `name` array joined; else "An unknown error occurred.". |
| CreateProposalDialog.FieldErrorsReadBack | src/components/proposals/CreateProposalDialog.tsx:51-52 | The action's field errors read back as the validation message itself. |
| CreateProposalDialog.DetailReadBack | src/components/proposals/CreateProposalDialog.tsx:49-50 | A `{ detail }` error reads as its detail. |
| CreateProposalDialog.ActionErrorsAreReported | src/components/proposals/CreateProposalDialog.tsx:41-53 | Every error the action returns is truthy and so is reported. A short name is reported with the schema's message. |
| CreateProposalDialog.DialogCheckMatchesSchema | src/components/proposals/CreateProposalDialog.tsx:32-35 | The dialog's length check rejects exactly the names the action's schema rejects. |
| CreateProposalDialog.Dialog.constructor | src/components/proposals/CreateProposalDialog.tsx:24-26 | The dialog starts closed, empty and not pending. |
| CreateProposalDialog.Dialog.SaveLabel | src/components/proposals/CreateProposalDialog.tsx:105 | The button reads "Saving..." if and only if a save is pending. |
| CreateProposalDialog.Dialog.SetName | src/components/proposals/CreateProposalDialog.tsx:93-98 | Typing sets the name unless a save is pending, when the input is disabled and nothing changes. |
| CreateProposalDialog.Dialog.SetOpen | src/components/proposals/CreateProposalDialog.tsx:71 | Only the open flag changes. |
| CreateProposalDialog.Dialog.Cancel | src/components/proposals/CreateProposalDialog.tsx:103 | Cancel closes the dialog unless a save is pending, when the button is disabled and nothing changes. |
| CreateProposalDialog.Dialog.BeginSubmit | src/components/proposals/CreateProposalDialog.tsx:30-37 | A validation toast comes back if and only if the name is shorter than 3, and then nothing changes. Otherwise the dialog is pending: the button reads "Saving..." and cannot be pressed. |
| CreateProposalDialog.Dialog.FinishSubmit | src/components/proposals/CreateProposalDialog.tsx:40-67 | A truthy error is shown as its message. The parent is notified exactly when a proposal was created, which also closes and clears the dialog and leads to the proposal's page; on every other path the dialog stays as it was. A throw is reported. Pending ends on every path. |
| CreateProposalDialog.SubmitPlainObjectAsWritten | src/components/proposals/CreateProposalDialog.tsx:38-41 | As written, a valid name ends in an unexpected-error toast carrying the thrown message, the parent is not notified, and the dialog stays open with the name. |
| CreateProposalDialog.SubmitFormDataCreates | src/components/proposals/CreateProposalDialog.tsx:30-68 | With the name passed as the action expects, a valid name the server accepts notifies the parent, closes and clears the dialog and leads to the new proposal. |

## Left out

- Network I/O. The model does not issue requests; every action takes the outcome as an input. A success body that does not parse counts as `Rejected`, the same path the action's `catch` takes. `API_BASE_URL` is the parameter `apiBase`.
- Toasts, console logging, scrolling, focus and styling. A toast is returned only where the handler's outcome depends on it (card, dialog). The router push is returned as the `Created` effect, and the `onProposalCreated` call as the `notifyParent` result of `FinishSubmit`.
- Timers. `setInterval` and `setTimeout` callbacks are methods the environment calls. The model does not capture interleavings of several handlers in flight at once, or responses that arrive after unmount.
- Clock and randomness. `Date.now`, `toISOString`, the mock store's random ids and `Math.random` are parameters.
- Date parsing and formatting (`new Date`, `formatDistanceToNow`, `toLocaleString`). These are parameters; an invalid date that makes the formatter throw is not modelled.
- `parseFloat` is a parameter, with `None` standing for NaN. Non-integer JSON numbers are not modelled.
- Floating point. Zoom levels are exact reals, so the rounding of repeated ±0.1 steps is not modelled.
- Case mapping. `toLowerCase` and `toUpperCase` map ASCII letters only.
- String length. Dafny counts characters where JavaScript counts UTF-16 code units, so the "at least 3 characters" checks differ for characters outside the Basic Multilingual Plane.
- MockData: `JSON.parse(JSON.stringify(x))` copies are the values themselves. The sharing of the sample document arrays between records is not modelled. The `if (!doc.extractedHtml)` guard is not modelled because the map is always present.
- MockData.ProposalStore.UpdateProposal: `updateProposal` returns the stored object itself, not a copy, so a caller that mutates the result mutates the store. The model returns a value, so this aliasing is not captured.
- MockData: the store keeps no invariant that ids are distinct. The lookup lemmas state freshness as a precondition instead.
- Actions.TransformApiProposal: the `...apiProposal` spread also copies the snake_case fields into the client record. The model's `Proposal` holds only the declared fields.
- ProposalCard, ChatInterface: `deleteProposalAction`, `getChatHistoryAction` and `sendChatMessageAction` are imported from `src/lib/actions.ts`, which does not define them. Their results are inputs.
- HtmlPreview.Preview.FetchHtmlContent: `htmlContent` is in the callback's dependencies, so a content change re-creates the callback and the effect loads the page again. The model runs one load per page change or scheduled re-load.
- DocumentUpload.UploadControl.ResetAfterSuccess: the 3-second reset also clears the panel of a newer upload started within that time. The model allows this (the reset has no guard) but no lemma is stated about it.
- The card's header text (application number or "N/A", formatted date) and the document list items are presentation only.
- The AI flows under `src/ai/`, the layout components, the signature viewer and the proposal, document and report pages are not part of this model.

## Findings

| source | as written | input that shows it | evidently intended | confidence | as-written member | corrected member |
|---|---|---|---|---|---|---|
| src/lib/mockData.ts:74-76 | The proposal that `find` returns is deep-copied with `JSON.parse(JSON.stringify(…))`. For an unknown id, `JSON.stringify(undefined)` is `undefined`, and `JSON.parse` then throws a `SyntaxError`. | `getProposalById("prop_404")` on a store without that id | Resolve to `undefined`, as the declared `Promise<Proposal \| undefined>` and the `proposal?.` in `getDocumentById` expect. | high, not executed | MockData.GetProposalByIdAsWritten, MockData.UnknownIdRejects | MockData.LookupProposal, MockData.ProposalStore.GetProposalById, MockData.ProposalStore.GetDocumentById |
| src/components/documents/PdfViewer.tsx:29 | The async `getDocumentPagePdfUrlAction` is called without `await`. The result is a promise, whose `error` and `url` are both undefined, so the error branch always runs. | Any page, including one the server serves | Await the reply and use its URL. | high, not executed | PdfViewer.UnawaitedFetchAlwaysFails | PdfViewer.AwaitedFetchShowsPage |
| src/components/documents/PdfViewer.tsx:106 | Once a URL is set, loading is left on until the image's `onLoad`/`onError`. But the image is rendered only when nothing is loading, so neither event can fire and the skeleton stays. | Any reply with a URL and no error | Mount the image while it loads (behind the skeleton) so that its load event ends the loading state. | high, not executed | PdfViewer.FetchedPageStaysHiddenAsWritten | PdfViewer.FetchedPageShowsOnceLoaded, PdfViewer.Viewer.PageChanged |
| src/components/proposals/CreateProposalDialog.tsx:38-41 | The dialog passes a plain `{ name }` object to `createProposalAction`, which calls `formData.get('name')` before its `try`. The call throws a `TypeError` (its message depends on the build), and the dialog shows "An unexpected error occurred". | Submitting the name "Alpha" | Pass the name in the form the action reads, so that a valid name creates the proposal. | high, not executed | CreateProposalDialog.SubmitPlainObjectAsWritten | CreateProposalDialog.SubmitFormDataCreates |
