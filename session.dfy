/** The application state shared by every screen (`AppState`), the records it
    holds, and the sidebar rule of the root view. */
module Session {
  import opened Base
  import opened TextOps

  datatype Screen = Landing | RoleSelection | Login | Dashboard | Upload | Analysis | QA | Settings | Profile

  datatype UserRole = Parent | Teacher | Counselor

  /** The raw value each role is declared with. */
  function RawValue(role: UserRole): string {
    match role
    case Parent => "parent"
    case Teacher => "teacher"
    case Counselor => "counselor"
  }

  /** `displayName`: the capitalised raw value. */
  function DisplayName(role: UserRole): string {
    Capitalized(RawValue(role))
  }

  /** The display names are "Parent", "Teacher" and "Counselor". */
  lemma DisplayNameValues()
    ensures DisplayName(Parent) == "Parent"
    ensures DisplayName(Teacher) == "Teacher"
    ensures DisplayName(Counselor) == "Counselor"
  {
  }

  /** Lower-casing a display name gives back the raw value. */
  lemma DisplayNameLowers(role: UserRole)
    ensures Lower(DisplayName(role)) == RawValue(role)
  {
    CapitalizedSameLetters(RawValue(role));
    assert Lower(RawValue(role)) == RawValue(role);
  }

  datatype GoalStatus = OnTrack | NeedsAttention | Behind

  datatype IEPGoal = IEPGoal(area: string, goal: string, status: GoalStatus, progress: int)

  datatype IEPService = IEPService(service: string, frequency: string, provider: string)

  /** An IEP record; the upload date is not modelled. */
  datatype IEPData = IEPData(
    studentName: string,
    fileName: string,
    notes: string,
    overallScore: int,
    summary: string,
    strengths: seq<string>,
    concerns: seq<string>,
    recommendations: seq<string>,
    goals: seq<IEPGoal>,
    services: seq<IEPService>)

  /** A chat message; the random identifier becomes a number and the timestamp is dropped. */
  datatype Message = Message(id: nat, text: string, isFromUser: bool)

  /** The record `loadSampleIEP` installs. */
  const SampleIEP := IEPData(
    "Emma Johnson",
    "sample-iep.pdf",
    "Updated with new goals for this semester",
    85,
    "This IEP shows strong alignment with the student's needs in " +
    "reading comprehension and social skills development. Key " +
    "areas of focus include phonemic awareness, reading fluency, " +
    "and peer interaction skills.",
    [
      "Clear, measurable goals for reading comprehension",
      "Appropriate accommodations for testing situations",
      "Strong parent-school collaboration documented",
      "Regular progress monitoring schedule established"
    ],
    [
      "Math goals could be more specific and measurable",
      "Transition planning needs more detail for high school",
      "Limited assistive technology considerations"
    ],
    [
      "Consider adding specific math intervention strategies",
      "Include more detailed transition goals for post-secondary",
      "Evaluate need for assistive technology assessment",
      "Schedule more frequent team meetings during transitions"
    ],
    [
      IEPGoal("Reading", "Improve reading comprehension to grade level", OnTrack, 75),
      IEPGoal("Math", "Master basic multiplication facts", NeedsAttention, 45),
      IEPGoal("Social Skills", "Initiate peer interactions appropriately", OnTrack, 80)
    ],
    [
      IEPService("Speech Therapy", "2x/week", "School SLP"),
      IEPService("Resource Room", "Daily", "Special Ed Teacher"),
      IEPService("Counseling", "1x/week", "School Counselor")
    ])

  /** The sample record's shape: score 85, three goals, three services, four strengths,
      three concerns and four recommendations, every goal's progress a percentage. */
  lemma SampleIEPShape()
    ensures SampleIEP.studentName == "Emma Johnson" && SampleIEP.overallScore == 85
    ensures |SampleIEP.goals| == 3 && |SampleIEP.services| == 3
    ensures |SampleIEP.strengths| == 4 && |SampleIEP.concerns| == 3 && |SampleIEP.recommendations| == 4
    ensures forall k :: 0 <= k < |SampleIEP.goals| ==> 0 <= SampleIEP.goals[k].progress <= 100
  {
  }

  // -----------------------------------------------------------------
  // The state as a value, and the operations as functions on it
  // -----------------------------------------------------------------

  datatype AppSnapshot = AppSnapshot(
    screen: Screen,
    role: Option<UserRole>,
    loggedIn: bool,
    iep: Option<IEPData>,
    demoMode: bool)

  const Initial := AppSnapshot(Landing, None, false, None, false)

  function Navigate(s: AppSnapshot, to: Screen): AppSnapshot {
    s.(screen := to)
  }

  function SignIn(s: AppSnapshot, role: UserRole): AppSnapshot {
    s.(role := Some(role), loggedIn := true, screen := Dashboard)
  }

  function SignOut(s: AppSnapshot): AppSnapshot {
    s.(role := None, loggedIn := false, iep := None, screen := Landing)
  }

  function LoadSample(s: AppSnapshot): AppSnapshot {
    s.(iep := Some(SampleIEP))
  }

  /** The screens that carry the sidebar once the user is logged in. */
  const MainScreens: set<Screen> := {Dashboard, Upload, Analysis, QA, Settings, Profile}

  /** `shouldShowSidebar` */
  predicate ShowsSidebar(s: AppSnapshot) {
    s.loggedIn && s.screen != Landing && s.screen != RoleSelection && s.screen != Login
  }

  /** The sidebar shows exactly on the six main screens, and only when logged in. */
  lemma SidebarOnMainScreens(s: AppSnapshot)
    ensures ShowsSidebar(s) <==> s.loggedIn && s.screen in MainScreens
  {
  }

  /** Navigation changes only the screen; the later of two navigations wins. */
  lemma NavigateOverrides(s: AppSnapshot, a: Screen, b: Screen)
    ensures Navigate(Navigate(s, a), b) == Navigate(s, b)
    ensures Navigate(s, a).(screen := s.screen) == s
  {
  }

  /** Signing in lands on the dashboard with the sidebar and leaves the IEP untouched. */
  lemma SignInShowsSidebar(s: AppSnapshot, role: UserRole)
    ensures ShowsSidebar(SignIn(s, role))
    ensures SignIn(s, role).iep == s.iep && SignIn(s, role).demoMode == s.demoMode
  {
  }

  /** Signing out gives the same state from any two states with the same demo flag,
      hides the sidebar, and a second sign-out changes nothing. */
  lemma SignOutResets(s: AppSnapshot, t: AppSnapshot)
    requires s.demoMode == t.demoMode
    ensures SignOut(s) == SignOut(t)
    ensures SignOut(SignOut(s)) == SignOut(s)
    ensures !ShowsSidebar(SignOut(s))
    ensures SignOut(s).(demoMode := false) == Initial
  {
  }

  /** Loading the sample changes only the IEP, and loading it twice is loading it once. */
  lemma LoadSampleOnlyIEP(s: AppSnapshot)
    ensures LoadSample(s).(iep := s.iep) == s
    ensures LoadSample(LoadSample(s)) == LoadSample(s)
    ensures LoadSample(s).iep == Some(SampleIEP)
  {
  }

  /** Nothing ties the IEP to being logged in: loading the sample while logged out
      gives an IEP with nobody logged in, and signing in keeps it. */
  lemma IEPWithoutLogin()
    ensures var s := LoadSample(Initial); !s.loggedIn && s.iep.Some?
    ensures SignIn(LoadSample(Initial), Parent).iep == Some(SampleIEP)
  {
  }

  // -----------------------------------------------------------------
  // The observable object
  // -----------------------------------------------------------------

  class AppState {
    var currentScreen: Screen
    var userRole: Option<UserRole>
    var isLoggedIn: bool
    var currentIEP: Option<IEPData>
    var demoMode: bool

    function Snapshot(): AppSnapshot
      reads this
    {
      AppSnapshot(currentScreen, userRole, isLoggedIn, currentIEP, demoMode)
    }

    predicate ShouldShowSidebar()
      reads this
    {
      ShowsSidebar(Snapshot())
    }

    constructor ()
      ensures Snapshot() == Initial
      ensures currentScreen == Landing && userRole == None && !isLoggedIn && currentIEP == None && !demoMode
    {
      currentScreen := Landing;
      userRole := None;
      isLoggedIn := false;
      currentIEP := None;
      demoMode := false;
    }

    method NavigateTo(screen: Screen)
      modifies this
      ensures Snapshot() == Navigate(old(Snapshot()), screen)
    {
      currentScreen := screen;
    }

    method LoginAs(role: UserRole)
      modifies this
      ensures Snapshot() == SignIn(old(Snapshot()), role)
    {
      userRole := Some(role);
      isLoggedIn := true;
      currentScreen := Dashboard;
    }

    method Logout()
      modifies this
      ensures Snapshot() == SignOut(old(Snapshot()))
    {
      userRole := None;
      isLoggedIn := false;
      currentIEP := None;
      currentScreen := Landing;
    }

    method LoadSampleIEP()
      modifies this
      ensures Snapshot() == LoadSample(old(Snapshot()))
    {
      currentIEP := Some(SampleIEP);
    }
  }
}
