/** The PDF upload control of a proposal (`DocumentUpload.tsx`). Progress is
    simulated: a ticker adds 10 every 100 ms and holds at 90 until the
    upload action answers. The ticker and the delayed reset are methods the
    environment calls; the awaited action's result is an input. */
module DocumentUpload {
  import opened Wrappers
  import opened JsText
  import opened Types

  datatype UploadStatus = Uploading | Success | Error

  datatype UploadProgress = UploadProgress(fileName: string, progress: int, status: UploadStatus, error: Option<string>)

  const PdfMime := "application/pdf"

  /** The progress bar after `n` ticks of a fresh ticker: ten per tick,
      never above 90. */
  function ShownAfterTicks(n: nat): (p: int)
    ensures 0 <= p <= 90 && p % 10 == 0
    ensures p == 90 <==> n >= 9
    ensures n < 9 ==> p == 10 * n
  {
    if n >= 9 then 90 else 10 * n
  }

  /** `prev.progress > 50 ? prev.progress : 50`. */
  function AtLeastHalf(p: int): (r: int)
    ensures r >= 50 && r >= p && (r == p || r == 50)
  {
    if p > 50 then p else 50
  }

  class UploadControl {
    const proposalId: int
    var isPending: bool
    var progress: Option<UploadProgress>
    /** The ticker's own counter, `currentProgress`. */
    var currentProgress: int
    /** The interval has not been cleared. */
    var tickerRunning: bool
    /** The file input still holds the chosen file. */
    var inputHoldsFile: bool
    /** The 3-second reset after a success is pending. */
    var resetScheduled: bool

    /** Progress stays a percentage, and while uploading it never passes 90. */
    predicate Valid()
      reads this
    {
      && 0 <= currentProgress <= 100 && currentProgress % 10 == 0
      && (tickerRunning ==> currentProgress <= 90)
      && (progress.Some? ==> 0 <= progress.value.progress <= 100)
      && (progress.Some? && progress.value.status == Uploading ==> progress.value.progress <= 90)
    }

    constructor (proposalId: int)
      ensures Valid()
      ensures this.proposalId == proposalId && !isPending && progress == None
      ensures !tickerRunning && !inputHoldsFile && !resetScheduled
    {
      this.proposalId := proposalId;
      isPending := false;
      progress := None;
      currentProgress := 0;
      tickerRunning := false;
      inputHoldsFile := false;
      resetScheduled := false;
    }

    /** The input and the button are disabled while an upload is pending or
        shown as uploading. */
    predicate Disabled()
      reads this
    {
      isPending || (progress.Some? && progress.value.status == Uploading)
    }

    function ButtonLabel(): (r: string)
      reads this
      ensures r == "Uploading..." <==> isPending
    {
      if isPending then "Uploading..." else "Upload PDF"
    }

    /** `handleFileChange`: no file does nothing; a file that is not a PDF
        only clears the input; a PDF starts an upload. The browser delivers
        no change event while the input is disabled. */
    method HandleFileChange(file: Option<UploadFile>) returns (started: bool)
      requires Valid() && !Disabled()
      modifies this
      ensures Valid()
      ensures started <==> file.Some? && file.value.mimeType == PdfMime
      ensures file.None? ==>
                inputHoldsFile == old(inputHoldsFile) && progress == old(progress) && isPending == old(isPending) &&
                tickerRunning == old(tickerRunning)
      ensures file.Some? && !started ==>
                !inputHoldsFile && progress == old(progress) && isPending == old(isPending) &&
                tickerRunning == old(tickerRunning)
      ensures started ==>
                inputHoldsFile && isPending && tickerRunning && currentProgress == 0 &&
                progress == Some(UploadProgress(file.value.name, 0, Uploading, None))
      ensures resetScheduled == old(resetScheduled)
    {
      started := false;
      if file.Some? {
        inputHoldsFile := true;
        if file.value.mimeType != PdfMime {
          inputHoldsFile := false;
          return;
        }
        StartUpload(file.value);
        started := true;
      }
    }

    /** The synchronous start of `handleUpload`. */
    method StartUpload(file: UploadFile)
      requires Valid()
      modifies this
      ensures Valid()
      ensures progress == Some(UploadProgress(file.name, 0, Uploading, None))
      ensures isPending && tickerRunning && currentProgress == 0
      ensures inputHoldsFile == old(inputHoldsFile) && resetScheduled == old(resetScheduled)
    {
      progress := Some(UploadProgress(file.name, 0, Uploading, None));
      isPending := true;
      currentProgress := 0;
      tickerRunning := true;
    }

    /** One run of the interval callback: add 10, show it while it is at
        most 90, and otherwise clear the interval. */
    method Tick()
      requires Valid() && tickerRunning
      modifies this
      ensures Valid()
      ensures currentProgress == old(currentProgress) + 10
      ensures tickerRunning <==> currentProgress <= 90
      ensures tickerRunning && old(progress).Some? ==> progress == Some(old(progress).value.(progress := currentProgress))
      ensures !tickerRunning || old(progress).None? ==> progress == old(progress)
      ensures isPending == old(isPending) && inputHoldsFile == old(inputHoldsFile) && resetScheduled == old(resetScheduled)
    {
      currentProgress := currentProgress + 10;
      if currentProgress <= 90 {
        if progress.Some? {
          progress := Some(progress.value.(progress := currentProgress));
        }
      } else {
        tickerRunning := false;
      }
    }

    /** `n` runs of the interval on a fresh ticker, or fewer if it clears
        itself first: the bar shows ten per tick and holds at 90. */
    method RunTicker(n: nat)
      requires Valid() && tickerRunning && currentProgress == 0
      requires progress.Some? && progress.value.status == Uploading
      modifies this
      ensures Valid()
      ensures progress == Some(old(progress).value.(progress := if n == 0 then old(progress).value.progress else ShownAfterTicks(n)))
      ensures tickerRunning <==> n < 10
      ensures isPending == old(isPending)
    {
      var k := 0;
      while k < n && tickerRunning
        invariant Valid()
        invariant 0 <= k <= n && k <= 10
        invariant currentProgress == 10 * k
        invariant tickerRunning <==> k < 10
        invariant isPending == old(isPending)
        invariant progress == Some(old(progress).value.(progress := if k == 0 then old(progress).value.progress else ShownAfterTicks(k)))
      {
        Tick();
        k := k + 1;
      }
    }

    /** The awaited part of `handleUpload`, given what
        `addDocumentToProposalAction` did. The ticker stops; an error keeps
        the bar at least half full, a success fills it and hands the document
        on, a thrown error leaves the bar as it was; the upload is no longer
        pending on any path. */
    method Complete(result: Outcome<Reply<Document>>) returns (uploaded: Option<Document>)
      requires Valid()
      modifies this
      ensures Valid()
      ensures !tickerRunning && !isPending
      ensures uploaded.Some? <==> result.Returned? && !Truthy(result.value.error) && result.value.value.Some?
      ensures uploaded.Some? ==> uploaded == result.value.value && resetScheduled
      ensures uploaded.None? ==> resetScheduled == old(resetScheduled)
      ensures old(progress).None? ==> progress == None
      ensures old(progress).Some? && uploaded.Some? ==> progress == Some(old(progress).value.(status := Success, progress := 100))
      ensures old(progress).Some? && uploaded.None? && result.Returned? ==>
                progress == Some(old(progress).value.(status := Error,
                                                      error := Some(OrElse(result.value.error, "Upload failed.")),
                                                      progress := AtLeastHalf(old(progress).value.progress)))
      ensures old(progress).Some? && result.Threw? ==>
                progress == Some(old(progress).value.(status := Error,
                                                      error := Some("An unexpected error occurred: " + result.message)))
      ensures inputHoldsFile == old(inputHoldsFile)
    {
      tickerRunning := false;
      uploaded := None;
      match result {
        case Returned(reply) =>
          if Truthy(reply.error) || reply.value.None? {
            if progress.Some? {
              var prev := progress.value;
              progress := Some(prev.(status := Error, error := Some(OrElse(reply.error, "Upload failed.")),
                                     progress := AtLeastHalf(prev.progress)));
            }
          } else {
            if progress.Some? {
              progress := Some(progress.value.(status := Success, progress := 100));
            }
            uploaded := reply.value;
            resetScheduled := true;
          }
        case Threw(message) =>
          if progress.Some? {
            progress := Some(progress.value.(status := Error, error := Some("An unexpected error occurred: " + message)));
          }
      }
      isPending := false;
    }

    /** The delayed reset after a success: the panel and the input are
        cleared. */
    method ResetAfterSuccess()
      requires Valid() && resetScheduled
      modifies this
      ensures Valid()
      ensures progress == None && !inputHoldsFile && !resetScheduled
      ensures isPending == old(isPending) && tickerRunning == old(tickerRunning)
    {
      progress := None;
      inputHoldsFile := false;
      resetScheduled := false;
    }
  }
}
