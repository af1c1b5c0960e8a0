/** `PlaygroundsPDFManager`: "processing" a selected file records its name,
    raises the busy flag and schedules a completion that, two seconds later,
    stores the canned document. The delay is not modelled: each scheduled
    completion is counted in `pendingExtractions` and runs when
    `CompleteExtraction` is called. */
module PDFManager {
  import opened Base
  import opened DemoDocument

  class PlaygroundsPDFManager {
    var extractedText: string
    var isProcessing: bool
    var error: Option<string>
    var fileName: string
    /** Completions scheduled by `ProcessSelectedFile` that have not run yet. */
    var pendingExtractions: nat

    /** The manager never records an error: every operation keeps `error` nil. */
    predicate NeverFailed()
      reads this
    {
      error == None
    }

    constructor ()
      ensures extractedText == "" && !isProcessing && error == None && fileName == ""
      ensures pendingExtractions == 0
      ensures NeverFailed()
    {
      extractedText := "";
      isProcessing := false;
      error := None;
      fileName := "";
      pendingExtractions := 0;
    }

    /** `processSelectedFile(fileName:)`: the name, the busy flag and the cleared
        error are set at once; the text is left as it was until the completion runs. */
    method ProcessSelectedFile(name: string)
      modifies this
      ensures fileName == name && isProcessing && error == None
      ensures extractedText == old(extractedText)
      ensures pendingExtractions == old(pendingExtractions) + 1
      ensures NeverFailed()
    {
      fileName := name;
      isProcessing := true;
      error := None;
      pendingExtractions := pendingExtractions + 1;
    }

    /** The delayed completion: the canned document, whatever file name was given,
        and the busy flag cleared. */
    method CompleteExtraction()
      requires pendingExtractions > 0
      modifies this
      ensures extractedText == DemoText && !isProcessing
      ensures fileName == old(fileName) && error == old(error)
      ensures pendingExtractions == old(pendingExtractions) - 1
      ensures old(NeverFailed()) ==> NeverFailed()
    {
      extractedText := DemoText;
      isProcessing := false;
      pendingExtractions := pendingExtractions - 1;
    }
  }
}
