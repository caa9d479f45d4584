/** The page viewer of a document (`PdfViewer.tsx`): the page image URL and
    its loading and error states, the zoom buttons and the page buttons.
    The current and total page are the parent's; this component only asks
    for a page change. The URL action's reply and the image element's load
    and error events are inputs. */
module PdfViewer {
  import opened Wrappers
  import opened JsText
  import Actions

  const MinZoom: real := 0.5
  const MaxZoom: real := 2.0
  const ZoomStep: real := 0.1

  /** `Math.min(prev + 0.1, 2)`. */
  function ZoomedIn(z: real): (r: real)
    ensures r <= MaxZoom && r <= z + ZoomStep
    ensures z <= MaxZoom - ZoomStep ==> r == z + ZoomStep
    ensures MinZoom <= z <= MaxZoom ==> MinZoom <= r && z <= r
  {
    if z + ZoomStep < MaxZoom then z + ZoomStep else MaxZoom
  }

  /** `Math.max(prev - 0.1, 0.5)`. */
  function ZoomedOut(z: real): (r: real)
    ensures r >= MinZoom && r >= z - ZoomStep
    ensures z >= MinZoom + ZoomStep ==> r == z - ZoomStep
    ensures MinZoom <= z <= MaxZoom ==> r <= MaxZoom && r <= z
  {
    if z - ZoomStep > MinZoom then z - ZoomStep else MinZoom
  }

  /** Zooming in and then out from a level at least one step below the
      maximum comes back to the same level. */
  lemma ZoomInOutReturns(z: real)
    requires MinZoom <= z <= MaxZoom - ZoomStep
    ensures ZoomedOut(ZoomedIn(z)) == z
  {
  }

  /** The page the previous-page button asks for, if it is enabled. */
  function PrevPageRequest(currentPage: int, isLoading: bool): (r: Option<int>)
    ensures r.Some? <==> currentPage > 1 && !isLoading
    ensures r.Some? ==> r.value == currentPage - 1
  {
    if currentPage <= 1 || isLoading then None else Some(currentPage - 1)
  }

  /** The page the next-page button asks for, if it is enabled. */
  function NextPageRequest(currentPage: int, totalPages: int, isLoading: bool): (r: Option<int>)
    ensures r.Some? <==> currentPage < totalPages && !isLoading
    ensures r.Some? ==> r.value == currentPage + 1
  {
    if currentPage >= totalPages || isLoading then None else Some(currentPage + 1)
  }

  /** From a page in range, both buttons only ever ask for a page in range. */
  lemma PageRequestsStayInRange(currentPage: int, totalPages: int, isLoading: bool)
    requires 1 <= currentPage <= totalPages
    ensures var p := PrevPageRequest(currentPage, isLoading); p.Some? ==> 1 <= p.value <= totalPages
    ensures var n := NextPageRequest(currentPage, totalPages, isLoading); n.Some? ==> 1 <= n.value <= totalPages
  {
  }

  const ImageErrorPrefix := "Failed to load image for page "
  const ImageErrorSuffix := ". Check network or API response."

  /** The message set when the page image fails to load: it names the page,
      whose decimal digits read back as the page number. */
  function ImageErrorMessage(page: int): (r: string)
    ensures StartsWith(r, ImageErrorPrefix)
    ensures var k := |IntToString(page)|;
      && |ImageErrorPrefix| + k + |ImageErrorSuffix| == |r|
      && r[|ImageErrorPrefix| + k..] == ImageErrorSuffix
      && (page >= 0 ==>
            AllDigits(r[|ImageErrorPrefix|..|ImageErrorPrefix| + k]) &&
            DigitsValue(r[|ImageErrorPrefix|..|ImageErrorPrefix| + k]) == page)
      && (page < 0 ==>
            r[|ImageErrorPrefix|] == '-' &&
            AllDigits(r[|ImageErrorPrefix| + 1..|ImageErrorPrefix| + k]) &&
            DigitsValue(r[|ImageErrorPrefix| + 1..|ImageErrorPrefix| + k]) == -page)
  {
    var digits := IntToString(page);
    var r := ImageErrorPrefix + digits + ImageErrorSuffix;
    assert r[|ImageErrorPrefix|..|ImageErrorPrefix| + |digits|] == digits;
    assert r[|ImageErrorPrefix| + 1..|ImageErrorPrefix| + |digits|] == digits[1..];
    assert r[|ImageErrorPrefix| + |digits|..] == ImageErrorSuffix;
    r
  }

  class Viewer {
    const proposalId: int
    const documentId: int
    var totalPages: int
    var currentPage: int
    var pageImageUrl: Option<string>
    var isLoading: bool
    var error: Option<string>
    var zoomLevel: real

    /** The zoom stays within its clamps. */
    predicate Valid()
      reads this
    {
      MinZoom <= zoomLevel <= MaxZoom
    }

    constructor (proposalId: int, documentId: int, totalPages: int, currentPage: int)
      ensures Valid()
      ensures this.proposalId == proposalId && this.documentId == documentId
      ensures this.totalPages == totalPages && this.currentPage == currentPage
      ensures pageImageUrl == None && isLoading && error == None && zoomLevel == 1.0
    {
      this.proposalId := proposalId;
      this.documentId := documentId;
      this.totalPages := totalPages;
      this.currentPage := currentPage;
      pageImageUrl := None;
      isLoading := true;
      error := None;
      zoomLevel := 1.0;
    }

    /** Line 106 as written: the image element exists only when nothing is
        loading, there is no error and there is a URL. */
    predicate ImageMountedAsWritten()
      reads this
    {
      !isLoading && !Truthy(error) && Truthy(pageImageUrl)
    }

    /** The image element exists whenever there is a URL and no error; while
        loading it sits behind the skeleton, so its load event can end the
        loading state. */
    predicate ImageMounted()
      reads this
    {
      !Truthy(error) && Truthy(pageImageUrl)
    }

    /** The page image is visible: mounted and no longer loading. */
    predicate ShowsImage()
      reads this
    {
      !isLoading && ImageMounted()
    }

    /** `fetchPageImage`, given the reply of `getDocumentPagePdfUrlAction`: an
        error or a missing URL sets the error, drops the URL and ends loading;
        a URL is kept and loading goes on until the image reports back. */
    method FetchPageImage(result: Reply<string>)
      requires Valid()
      modifies this
      ensures Valid()
      ensures Truthy(result.error) || !Truthy(result.value) ==>
                error == Some(OrElse(result.error, "Failed to construct page image URL.")) &&
                pageImageUrl == None && !isLoading
      ensures !Truthy(result.error) && Truthy(result.value) ==>
                error == None && pageImageUrl == result.value && isLoading
      ensures zoomLevel == old(zoomLevel) && currentPage == old(currentPage) && totalPages == old(totalPages)
    {
      isLoading := true;
      error := None;
      if Truthy(result.error) || !Truthy(result.value) {
        error := Some(OrElse(result.error, "Failed to construct page image URL."));
        pageImageUrl := None;
        isLoading := false;
      } else {
        pageImageUrl := result.value;
      }
    }

    /** The parent moved to another page; the effect fetches it. */
    method PageChanged(newPage: int, result: Reply<string>)
      requires Valid()
      modifies this
      ensures Valid()
      ensures currentPage == newPage && zoomLevel == old(zoomLevel)
      ensures ImageMounted() <==> !Truthy(result.error) && Truthy(result.value)
    {
      currentPage := newPage;
      FetchPageImage(result);
    }

    method ZoomIn()
      requires Valid()
      modifies this
      ensures Valid() && zoomLevel == ZoomedIn(old(zoomLevel)) && zoomLevel >= old(zoomLevel)
      ensures isLoading == old(isLoading) && error == old(error) && pageImageUrl == old(pageImageUrl)
    {
      zoomLevel := ZoomedIn(zoomLevel);
    }

    method ZoomOut()
      requires Valid()
      modifies this
      ensures Valid() && zoomLevel == ZoomedOut(old(zoomLevel)) && zoomLevel <= old(zoomLevel)
      ensures isLoading == old(isLoading) && error == old(error) && pageImageUrl == old(pageImageUrl)
    {
      zoomLevel := ZoomedOut(zoomLevel);
    }

    method ResetZoom()
      modifies this
      ensures Valid() && zoomLevel == 1.0
      ensures isLoading == old(isLoading) && error == old(error) && pageImageUrl == old(pageImageUrl)
    {
      zoomLevel := 1.0;
    }

    /** The image's load event, which only a mounted image fires. */
    method ImageLoad()
      requires ImageMounted()
      modifies this
      ensures !isLoading && error == None && pageImageUrl == old(pageImageUrl)
      ensures ShowsImage() && zoomLevel == old(zoomLevel)
    {
      isLoading := false;
      error := None;
    }

    /** The image's error event: loading ends, the broken URL is dropped and
        the error names the page. */
    method ImageError()
      requires ImageMounted()
      modifies this
      ensures !isLoading && pageImageUrl == None && error == Some(ImageErrorMessage(currentPage))
      ensures !ShowsImage() && zoomLevel == old(zoomLevel)
    {
      isLoading := false;
      error := Some(ImageErrorMessage(currentPage));
      pageImageUrl := None;
    }
  }

  /** What line 29 reads from the action's result: the call is not awaited,
      so the result is a promise, which has neither an `error` nor a `url`. */
  const UnawaitedResult: Reply<string> := Reply(None, None)

  /** As written, whatever the server answers, even a built URL, the viewer
      ends every fetch with the "could not construct" error and no image. */
  method UnawaitedFetchAlwaysFails(apiBase: string, proposalId: int, documentId: int, pageNumber: int,
                                   o: Actions.HttpOutcome<(), string>) returns (v: Viewer)
    ensures Actions.GetDocumentPagePdfUrlAction(apiBase, proposalId, documentId, pageNumber, o).value.Some? <==> o.Received?
    ensures v.error == Some("Failed to construct page image URL.") && v.pageImageUrl == None
    ensures !v.isLoading && !v.ShowsImage()
  {
    v := new Viewer(proposalId, documentId, pageNumber, pageNumber);
    v.FetchPageImage(UnawaitedResult);
  }

  /** With the call awaited and the image mounted behind the skeleton, a
      page the server has is shown at its endpoint URL once the image
      loads. */
  method AwaitedFetchShowsPage(apiBase: string, proposalId: int, documentId: int, pageNumber: int,
                               o: Actions.HttpOutcome<(), string>) returns (v: Viewer)
    requires o.Received?
    ensures v.ShowsImage() && !v.isLoading && v.error == None
    ensures v.pageImageUrl == Some(apiBase + "/proposals/" + IntToString(proposalId) + "/documents/" +
                                   IntToString(documentId) + "/pages/" + IntToString(pageNumber) + "/pdf")
  {
    v := new Viewer(proposalId, documentId, pageNumber, pageNumber);
    var reply := Actions.GetDocumentPagePdfUrlAction(apiBase, proposalId, documentId, pageNumber, o);
    v.FetchPageImage(reply);
    v.ImageLoad();
  }

  /** As written, a page whose URL was built is never shown: the fetch leaves
      the viewer loading, and the image whose load event would end that is
      not mounted while loading, so neither image event can fire. */
  method FetchedPageStaysHiddenAsWritten(url: string) returns (v: Viewer)
    requires url != ""
    ensures v.isLoading && !v.ImageMountedAsWritten() && !v.ShowsImage()
  {
    v := new Viewer(1, 1, 3, 1);
    v.FetchPageImage(Reply(Some(url), None));
  }

  /** With the image mounted behind the skeleton, a page whose URL was built
      is shown as soon as the image loads. */
  method FetchedPageShowsOnceLoaded(url: string) returns (v: Viewer)
    requires url != ""
    ensures !v.isLoading && v.ShowsImage() && v.pageImageUrl == Some(url)
  {
    v := new Viewer(1, 1, 3, 1);
    v.FetchPageImage(Reply(Some(url), None));
    v.ImageLoad();
  }
}
