/** The basic upload form: a student's name, a file or a shared-drive link,
    and an upload that, after two delays, loads the sample IEP and opens the
    analysis screen. Each delay is an explicit completion step, counted by
    `pendingUploads` and `pendingRedirects` until it runs. */
module Upload {
  import opened Base
  import opened Session

  datatype UploadMethod = File | Link

  const DemoName := "Emma Johnson"
  const DemoLink := "https://drive.google.com/file/d/demo-iep-document"

  /** The form's state together with the shared application state, as one value. */
  datatype FormSnapshot = FormSnapshot(
    uploadMethod: UploadMethod,
    studentName: string,
    hasFile: bool,
    sharedLink: string,
    isUploading: bool,
    uploadSuccess: bool,
    pendingUploads: nat,
    pendingRedirects: nat,
    app: AppSnapshot)

  /** `canSubmit` */
  predicate CanSubmit(s: FormSnapshot) {
    s.studentName != [] && (s.hasFile || s.sharedLink != []) && !s.isUploading
  }

  function SwitchMethod(s: FormSnapshot, m: UploadMethod): FormSnapshot {
    s.(uploadMethod := m)
  }

  function UseDemoName(s: FormSnapshot): FormSnapshot {
    s.(studentName := DemoName)
  }

  /** "Choose File or Use Demo PDF" */
  function ChooseFile(s: FormSnapshot): FormSnapshot {
    s.(hasFile := true)
  }

  /** "Use Demo Shared Link" */
  function UseDemoLink(s: FormSnapshot): FormSnapshot {
    s.(sharedLink := DemoLink)
  }

  /** `handleUpload`: only the busy flag is set at once; the first delayed step is scheduled. */
  function StartUpload(s: FormSnapshot): FormSnapshot {
    s.(isUploading := true, pendingUploads := s.pendingUploads + 1)
  }

  /** The first delayed step: success, the sample IEP, and the redirect scheduled. */
  function FinishUpload(s: FormSnapshot): FormSnapshot
    requires s.pendingUploads > 0
  {
    s.(isUploading := false, uploadSuccess := true, app := LoadSample(s.app),
       pendingUploads := s.pendingUploads - 1, pendingRedirects := s.pendingRedirects + 1)
  }

  /** The second delayed step: open the analysis screen. */
  function FinishRedirect(s: FormSnapshot): FormSnapshot
    requires s.pendingRedirects > 0
  {
    s.(app := Navigate(s.app, Analysis), pendingRedirects := s.pendingRedirects - 1)
  }

  /** Switching between file and link keeps both inputs, so it never changes
      whether the form can be submitted. */
  lemma SwitchKeepsInputs(s: FormSnapshot, m: UploadMethod)
    ensures SwitchMethod(s, m).hasFile == s.hasFile && SwitchMethod(s, m).sharedLink == s.sharedLink
    ensures CanSubmit(SwitchMethod(s, m)) <==> CanSubmit(s)
    ensures SwitchMethod(s, m).(uploadMethod := s.uploadMethod) == s
  {
  }

  /** With a name and no upload running, either demo action enables submission. */
  lemma DemoActionsEnableSubmit(s: FormSnapshot)
    requires s.studentName != [] && !s.isUploading
    ensures CanSubmit(ChooseFile(s)) && CanSubmit(UseDemoLink(s))
    ensures CanSubmit(ChooseFile(UseDemoName(s.(studentName := []))))
  {
  }

  /** Once an upload has started the button is disabled until its first step
      completes, and submitting needs a name and a file or a link. */
  lemma SubmitGuard(s: FormSnapshot)
    ensures !CanSubmit(StartUpload(s))
    ensures CanSubmit(s) ==> s.studentName != [] && (s.hasFile || s.sharedLink != [])
    ensures s.studentName == [] ==> !CanSubmit(s)
    ensures !s.hasFile && s.sharedLink == [] ==> !CanSubmit(s)
  {
  }

  /** A whole upload: after both steps the sample IEP is loaded, the analysis
      screen is showing and the form is idle with success shown; login, role and
      demo flag are untouched. */
  lemma UploadRun(s: FormSnapshot)
    requires s.pendingUploads == 0 && s.pendingRedirects == 0
    ensures var r := FinishRedirect(FinishUpload(StartUpload(s)));
      r.app.iep == Some(SampleIEP) && r.app.screen == Analysis && !r.isUploading && r.uploadSuccess
    ensures var r := FinishRedirect(FinishUpload(StartUpload(s)));
      r.app.loggedIn == s.app.loggedIn && r.app.role == s.app.role && r.app.demoMode == s.app.demoMode
    ensures var r := FinishRedirect(FinishUpload(StartUpload(s)));
      r.pendingUploads == 0 && r.pendingRedirects == 0 && (CanSubmit(r) <==> CanSubmit(s.(isUploading := false)))
  {
  }

  class UploadScreen {
    var uploadMethod: UploadMethod
    var studentName: string
    var hasFile: bool
    var sharedLink: string
    var isUploading: bool
    var uploadSuccess: bool
    var pendingUploads: nat
    var pendingRedirects: nat
    const appState: AppState

    function Snapshot(): FormSnapshot
      reads this, appState
    {
      FormSnapshot(uploadMethod, studentName, hasFile, sharedLink, isUploading, uploadSuccess,
                   pendingUploads, pendingRedirects, appState.Snapshot())
    }

    constructor (state: AppState)
      ensures appState == state
      ensures Snapshot() == FormSnapshot(File, [], false, [], false, false, 0, 0, state.Snapshot())
    {
      uploadMethod := File;
      studentName := [];
      hasFile := false;
      sharedLink := [];
      isUploading := false;
      uploadSuccess := false;
      pendingUploads := 0;
      pendingRedirects := 0;
      appState := state;
    }

    method SelectMethod(m: UploadMethod)
      modifies this
      ensures Snapshot() == SwitchMethod(old(Snapshot()), m)
    {
      uploadMethod := m;
    }

    method FillDemoName()
      modifies this
      ensures Snapshot() == UseDemoName(old(Snapshot()))
    {
      studentName := DemoName;
    }

    method PickFile()
      modifies this
      ensures Snapshot() == ChooseFile(old(Snapshot()))
    {
      hasFile := true;
    }

    method FillDemoLink()
      modifies this
      ensures Snapshot() == UseDemoLink(old(Snapshot()))
    {
      sharedLink := DemoLink;
    }

    method HandleUpload()
      modifies this
      ensures Snapshot() == StartUpload(old(Snapshot()))
    {
      isUploading := true;
      pendingUploads := pendingUploads + 1;
    }

    method UploadStepCompleted()
      requires pendingUploads > 0
      modifies this, appState
      ensures Snapshot() == FinishUpload(old(Snapshot()))
    {
      isUploading := false;
      uploadSuccess := true;
      appState.LoadSampleIEP();
      pendingUploads := pendingUploads - 1;
      pendingRedirects := pendingRedirects + 1;
    }

    method RedirectStepCompleted()
      requires pendingRedirects > 0
      modifies this, appState
      ensures Snapshot() == FinishRedirect(old(Snapshot()))
    {
      appState.NavigateTo(Analysis);
      pendingRedirects := pendingRedirects - 1;
    }
  }
}
