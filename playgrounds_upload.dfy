/** The document upload screen: the student's name, a simulated file pick, and
    the three-stage pipeline (extracting, analyzing, complete) driven by the PDF
    manager's delayed completion and the analyser's delayed summary. Both delays
    are explicit completion steps: the manager counts its own pending
    completions, and each summary the screen has asked for waits, with the text
    it was asked for, in `pendingSummaries` until `SummaryCompleted` runs. */
module PlaygroundsUpload {
  import opened Base
  import opened TextOps
  import opened Analyser
  import opened DemoDocument
  import opened PDFManager

  datatype Stage = NotStarted | Extracting | Analyzing | Complete

  /** The stage that follows each stage in an uninterrupted run. */
  function Succ(stage: Stage): Stage {
    match stage
    case NotStarted => Extracting
    case Extracting => Analyzing
    case Analyzing => Complete
    case Complete => Complete
  }

  /** The screen's state together with the manager's, as one value. */
  datatype UploadSnapshot = UploadSnapshot(
    studentName: string,
    hasFile: bool,
    summary: string,
    stage: Stage,
    pendingSummaries: seq<string>,
    fileName: string,
    text: string,
    processing: bool,
    pendingExtractions: nat)

  const DemoName := "Emma Johnson"
  const NoFileTitle := "Select Document First"
  const AnalyzeTitle := "Analyze Document"
  const GeneratingTitle := "Generating Summary..."
  /** The completed title as the source spells it: the check mark's UTF-8 bytes
      read back as three Windows-1252 characters. */
  const CompleteTitle := "Analysis Complete \U{E2}\U{153}\U{201C}"

  /** The name `simulateFileSelection` gives the picked file: "sample-iep-", the
      student's name with every space turned into '-', then ".pdf"; with no name,
      "sample-iep-document.pdf". */
  function FileNameFor(name: string): (r: string)
    ensures name == [] ==> r == "sample-iep-document.pdf"
    ensures name != [] ==> |r| == |name| + 15 && r[..11] == "sample-iep-" && EndsWith(r, ".pdf")
    ensures name != [] ==> forall i :: 0 <= i < |name| ==> r[11 + i] == (if name[i] == ' ' then '-' else name[i])
    ensures ' ' !in r
  {
    if name == [] then "sample-iep-document.pdf"
    else
      ReplaceCharPointwise(name, ' ', '-');
      var middle := ReplaceAll(name, " ", "-");
      assert forall i :: 0 <= i < |middle| ==> middle[i] != ' ';
      var r := "sample-iep-" + middle + ".pdf";
      assert forall i :: 0 <= i < |r| ==> r[i] != ' ' by {
        forall i | 0 <= i < |r|
          ensures r[i] != ' '
        {
          if i < 11 {
            assert r[i] == "sample-iep-"[i];
          } else if i < 11 + |middle| {
            assert r[i] == middle[i - 11];
          } else {
            assert r[i] == ".pdf"[i - 11 - |middle|];
          }
        }
      }
      r
  }

  /** `canProcess` */
  predicate CanProcess(s: UploadSnapshot) {
    s.hasFile && s.studentName != []
  }

  /** The spinner is shown, and the button held, while a run is in flight. */
  predicate Busy(s: UploadSnapshot) {
    s.stage == Extracting || s.stage == Analyzing
  }

  /** The process button's enabled condition. */
  predicate ProcessEnabled(s: UploadSnapshot) {
    CanProcess(s) && (s.stage == NotStarted || s.stage == Complete)
  }

  /** Whether "Ask Questions About This IEP" is offered. */
  predicate AskVisible(s: UploadSnapshot) {
    s.hasFile && s.text != [] && s.summary != []
  }

  /** `getButtonTitle`: the first of no file, no text, no summary that holds decides. */
  function ButtonTitle(s: UploadSnapshot): (r: string)
    ensures r == NoFileTitle <==> !s.hasFile
    ensures r == AnalyzeTitle <==> s.hasFile && s.text == []
    ensures r == GeneratingTitle <==> s.hasFile && s.text != [] && s.summary == []
  {
    if !s.hasFile then NoFileTitle
    else if s.text == [] then AnalyzeTitle
    else if s.summary == [] then GeneratingTitle
    else CompleteTitle
  }

  // ---------------------------------------------------------------
  // The screen's actions as functions on the state
  // ---------------------------------------------------------------

  /** "Use Demo" fills in the demo student's name. */
  function UseDemoName(s: UploadSnapshot): UploadSnapshot {
    s.(studentName := DemoName)
  }

  function SelectFile(s: UploadSnapshot): UploadSnapshot {
    s.(hasFile := true, fileName := FileNameFor(s.studentName))
  }

  /** `processDocument`: guarded by the file alone; it hands the manager the
      name it already holds. */
  function Process(s: UploadSnapshot): UploadSnapshot {
    if !s.hasFile then s
    else s.(stage := Extracting, processing := true, pendingExtractions := s.pendingExtractions + 1)
  }

  /** The manager's completion stores `delivered`; the `onChange` handler then
      fires only if the text really changed, and acts only if the new text is
      non-empty and the screen is extracting. */
  function DeliverExtraction(s: UploadSnapshot, delivered: string): UploadSnapshot
    requires s.pendingExtractions > 0
  {
    var t := s.(text := delivered, processing := false, pendingExtractions := s.pendingExtractions - 1);
    if delivered != s.text && delivered != [] && s.stage == Extracting then
      t.(stage := Analyzing, pendingSummaries := s.pendingSummaries + [delivered])
    else t
  }

  /** The oldest requested summary arrives. */
  function DeliverSummary(s: UploadSnapshot): UploadSnapshot
    requires s.pendingSummaries != []
  {
    s.(summary := Summary(s.pendingSummaries[0]), stage := Complete, pendingSummaries := s.pendingSummaries[1..])
  }

  // ---------------------------------------------------------------
  // Properties
  // ---------------------------------------------------------------

  /** The title reads "complete" exactly when the question button is offered. */
  lemma CompleteTitleIffAsk(s: UploadSnapshot)
    ensures ButtonTitle(s) == CompleteTitle <==> AskVisible(s)
  {
  }

  /** The button is enabled exactly when the screen can process and no run is in flight. */
  lemma EnabledWhenIdle(s: UploadSnapshot)
    ensures ProcessEnabled(s) <==> CanProcess(s) && !Busy(s)
  {
  }

  /** Without a file processing changes nothing; with one it starts extracting,
      keeps the file name, and ignores the student's name entirely. */
  lemma ProcessNeedsOnlyFile(s: UploadSnapshot, name: string)
    ensures !s.hasFile ==> Process(s) == s
    ensures s.hasFile ==> Process(s).stage == Extracting && Process(s).processing
    ensures Process(s).fileName == s.fileName && Process(s).text == s.text && Process(s).summary == s.summary
    ensures Process(s.(studentName := name)) == Process(s).(studentName := name)
  {
  }

  /** A completion moves the stage by at most one step, and it reaches
      `Analyzing` from `Extracting` exactly when the delivered text is new and
      non-empty. A summary always lands on `Complete`. */
  lemma NoStageSkipped(s: UploadSnapshot, delivered: string)
    requires s.pendingExtractions > 0
    ensures var t := DeliverExtraction(s, delivered); t.stage == s.stage || t.stage == Succ(s.stage)
    ensures var t := DeliverExtraction(s, delivered);
      t.stage != s.stage <==> s.stage == Extracting && delivered != s.text && delivered != []
    ensures DeliverExtraction(s, delivered).text == delivered && !DeliverExtraction(s, delivered).processing
    ensures s.pendingSummaries != [] && s.stage == Analyzing ==> DeliverSummary(s).stage == Succ(s.stage)
  {
  }

  /** The screen as it first appears: nothing typed, picked, extracted or pending. */
  const Initial := UploadSnapshot([], false, [], NotStarted, [], [], [], false, 0)

  /** The states the screen reaches when the process button is pressed only
      while it is enabled: at most one extraction and one summary are in
      flight, an extraction only while extracting and with no summary
      outstanding, and a summary only while analyzing. */
  predicate Reachable(s: UploadSnapshot) {
    s.pendingExtractions <= 1 && |s.pendingSummaries| <= 1 &&
    (s.pendingExtractions > 0 ==> s.stage == Extracting && s.pendingSummaries == []) &&
    (s.pendingSummaries != [] ==> s.stage == Analyzing)
  }

  /** The first appearance is reachable, and every action the screen offers
      keeps it so: typing the demo name, picking a file, pressing the enabled
      button, and either delayed completion. */
  lemma ReachableKept(s: UploadSnapshot, delivered: string)
    requires Reachable(s)
    ensures Reachable(Initial)
    ensures Reachable(UseDemoName(s)) && Reachable(SelectFile(s))
    ensures ProcessEnabled(s) ==> Reachable(Process(s))
    ensures s.pendingExtractions > 0 ==> Reachable(DeliverExtraction(s, delivered))
    ensures s.pendingSummaries != [] ==> Reachable(DeliverSummary(s))
  {
  }

  /** In a reachable state a summary can only be waiting while analyzing, so
      its arrival moves the stage exactly one step, to `Complete`: a run never
      jumps from `Extracting` or an idle stage to `Complete`. */
  lemma SummaryFollowsAnalysis(s: UploadSnapshot)
    requires Reachable(s) && s.pendingSummaries != []
    ensures s.stage == Analyzing && s.pendingExtractions == 0
    ensures DeliverSummary(s).stage == Succ(s.stage) == Complete
    ensures DeliverSummary(s).summary == Summary(s.pendingSummaries[0]) && DeliverSummary(s).pendingSummaries == []
  {
  }

  /** A first run on a selected file, with nothing pending, passes through every
      stage in order and ends complete with the summary of the delivered text,
      the question button offered and the process button enabled again if the
      screen could process to begin with. */
  lemma FirstRunCompletes(s: UploadSnapshot, delivered: string)
    requires s.hasFile && s.stage == NotStarted && s.pendingExtractions == 0 && s.pendingSummaries == []
    requires delivered != [] && delivered != s.text
    ensures var p := Process(s); p.stage == Extracting
    ensures var e := DeliverExtraction(Process(s), delivered); e.stage == Analyzing && e.pendingSummaries == [delivered]
    ensures var r := DeliverSummary(DeliverExtraction(Process(s), delivered));
      r.stage == Complete && r.text == delivered && r.summary == Summary(delivered)
    ensures var r := DeliverSummary(DeliverExtraction(Process(s), delivered));
      AskVisible(r) && ButtonTitle(r) == CompleteTitle && (ProcessEnabled(r) <==> CanProcess(s))
    ensures var r := DeliverSummary(DeliverExtraction(Process(s), delivered));
      r.pendingExtractions == 0 && r.pendingSummaries == []
  {
    SummaryFrame(delivered);
  }

  /** The same for the manager's canned document, delivered into an empty text. */
  lemma DemoRunCompletes(s: UploadSnapshot, text: string)
    requires text == DemoText
    requires s.hasFile && s.stage == NotStarted && s.pendingExtractions == 0 && s.pendingSummaries == [] && s.text == []
    ensures var r := DeliverSummary(DeliverExtraction(Process(s), text));
      r.stage == Complete && r.summary == Summary(text) && AskVisible(r)
  {
    DemoTextNotEmpty(text);
    FirstRunCompletes(s, text);
  }

  /** Processing again after a completed run stalls: the manager delivers the
      same text, the change handler does not fire, and the screen stays in
      `Extracting` with the button disabled and nothing left pending. */
  lemma ReanalysisStalls(s: UploadSnapshot, delivered: string)
    requires s.hasFile && s.stage == Complete && s.pendingExtractions == 0 && s.pendingSummaries == []
    requires s.text == delivered
    ensures var r := DeliverExtraction(Process(s), delivered);
      r.stage == Extracting && !ProcessEnabled(r) && Busy(r)
    ensures var r := DeliverExtraction(Process(s), delivered);
      r.pendingExtractions == 0 && r.pendingSummaries == []
    ensures var r := DeliverExtraction(Process(s), delivered);
      SelectFile(r).stage == Extracting && UseDemoName(r).stage == Extracting
  {
  }

  // ---------------------------------------------------------------
  // The screen
  // ---------------------------------------------------------------

  class PlaygroundsUploadScreen {
    var studentName: string
    var hasSelectedFile: bool
    var documentSummary: string
    var processingStage: Stage
    /** Summaries requested by the change handler that have not arrived yet. */
    var pendingSummaries: seq<string>
    const pdfManager: PlaygroundsPDFManager

    function Snapshot(): UploadSnapshot
      reads this, pdfManager
    {
      UploadSnapshot(studentName, hasSelectedFile, documentSummary, processingStage, pendingSummaries,
                     pdfManager.fileName, pdfManager.extractedText, pdfManager.isProcessing,
                     pdfManager.pendingExtractions)
    }

    constructor ()
      ensures Snapshot() == Initial
      ensures fresh(pdfManager) && pdfManager.NeverFailed()
    {
      studentName := [];
      hasSelectedFile := false;
      documentSummary := [];
      processingStage := NotStarted;
      pendingSummaries := [];
      pdfManager := new PlaygroundsPDFManager();
    }

    method UseDemo()
      modifies this
      ensures Snapshot() == UseDemoName(old(Snapshot()))
    {
      studentName := DemoName;
    }

    method SimulateFileSelection()
      modifies this, pdfManager
      ensures Snapshot() == SelectFile(old(Snapshot()))
      ensures pdfManager.error == old(pdfManager.error)
    {
      hasSelectedFile := true;
      pdfManager.fileName := FileNameFor(studentName);
    }

    method ProcessDocument()
      modifies this, pdfManager
      ensures Snapshot() == Process(old(Snapshot()))
      ensures old(hasSelectedFile) ==> pdfManager.error == None
      ensures !old(hasSelectedFile) ==> pdfManager.error == old(pdfManager.error)
    {
      if !hasSelectedFile {
        return;
      }
      processingStage := Extracting;
      pdfManager.ProcessSelectedFile(pdfManager.fileName);
    }

    /** The manager's delayed completion, followed by the change handler. */
    method ExtractionCompleted()
      requires pdfManager.pendingExtractions > 0
      modifies this, pdfManager
      ensures Snapshot() == DeliverExtraction(old(Snapshot()), DemoText)
      ensures old(pdfManager.NeverFailed()) ==> pdfManager.NeverFailed()
    {
      var before := pdfManager.extractedText;
      pdfManager.CompleteExtraction();
      var after := pdfManager.extractedText;
      if after != before && after != [] && processingStage == Extracting {
        processingStage := Analyzing;
        pendingSummaries := pendingSummaries + [after];
      }
    }

    /** The oldest requested summary arrives and completes the run. */
    method SummaryCompleted()
      requires pendingSummaries != []
      modifies this
      ensures Snapshot() == DeliverSummary(old(Snapshot()))
    {
      var summary := GenerateSummary(pendingSummaries[0]);
      documentSummary := summary;
      processingStage := Complete;
      pendingSummaries := pendingSummaries[1..];
    }
  }
}
