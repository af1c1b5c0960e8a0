# IEP companion app: the behavioural core

This project models the part of a SwiftUI demo app for Individualized
Education Programs (IEPs) whose behaviour can be stated precisely, and proves
properties of it in Dafny:

- **The mock text analyser** (`PlaygroundsLLMService`, modules `Analyser`,
  `LineCollect` and `TextOps`). It has line-based keyword extractors for the
  student name, grade, goals, services and accommodations, each with a fixed
  fallback list. It builds a templated summary from keyword flags. It routes a
  question to an answer by the first matching category. The extractors and the
  summary builder are loops that append to a local list or string, so they
  are methods. Each method is proved equal to a specification function, and
  the properties are proved about that function.
- **The canned document** (`PlaygroundsPDFManager.generateDemoIEPText`, module
  `DemoDocument`). It is stored as its 38 lines, and the facts the analyser
  depends on are proved about it.
- **Session and navigation state** (`AppState`, `shouldShowSidebar`,
  `UserRole.displayName`, modules `Session` and `Navigator`). `AppState` is a
  class with the five published fields. The demo navigator steps over the
  fixed list of nine screens.
- **The two processing screens** (modules `PDFManager`, `PlaygroundsUpload`
  and `Upload`). The PDF manager is a class whose delayed completion is an
  explicit method. The Playgrounds upload screen moves through
  none → extracting → analyzing → complete. The simpler upload form submits,
  then loads the sample IEP, then redirects to the analysis screen.
- **The two chat screens** (modules `Chat`, `PlaygroundsQA` and `QA`). Their
  message lists only grow. Sending is guarded on empty input, and a keyword
  responder answers.
- **Small derived computations** (modules `Services`, `Goals`, `Profile` and
  `Base`):
  - the service totals and the fixed service dataset;
  - the expand/collapse set toggles;
  - 50-character truncation;
  - the first-word domain label;
  - the `prefix(3)` header;
  - the two-per-row metric grid;
  - the profile initials and the Edit/Save switch.

Each screen that changes state in place is a class, and every method states
its whole new state. Most do so as `Snapshot() == Step(old(Snapshot()))`,
where `Step` is a pure function on a snapshot datatype, and the lemmas reason
about the step functions. The rest state it field by field:
`PDFManager.PlaygroundsPDFManager.ProcessSelectedFile` and `CompleteExtraction`,
`Services.ServicesTab.ToggleCategory`, `Goals.GoalsTab.ToggleDomain`,
`Profile.ProfileScreen.ToggleEditing`, and `Navigator.DemoNavigator.Expand` and
`Collapse`, whose frame leaves the app state untouched. `ExitDemoMode` states
its new snapshot as the old one with `demoMode` cleared. Each delayed callback (`DispatchQueue.main.asyncAfter`, `Task`) is
a completion method. Callbacks that have been scheduled but not yet run are
recorded in real fields: a counter, or a queue in first-in-first-out order. A
completion method requires that one is pending.

Modelling assumptions about text:
- A string is a sequence of characters.
- `lowercased()` maps ASCII `A`–`Z` only.
- `components(separatedBy: .newlines)` splits on `'\n'`.
- `trimmingCharacters(in: .whitespaces)` removes spaces and tabs.
- `count` counts characters.

## Where the design description and the code differ

The model follows the code in each case.

- **Plan while logged out.** A loaded plan is meant to exist only when a user
  is logged in. `loadSampleIEP` has no guard, though, so the plan can be set
  while logged out (`Session.IEPWithoutLogin`).
- **Student name.** Processing is described as needing a student name, but
  `processDocument` checks only that a file is selected. The name is needed
  only by the button's `disabled` condition
  (`PlaygroundsUpload.ProcessNeedsOnlyFile`, `PlaygroundsUpload.EnabledWhenIdle`).
- **Completed button title.** The source file holds the bytes of a mis-encoded
  check mark, so the title is "Analysis Complete " followed by U+00E2 U+0153
  U+201C. The model uses those three characters (`PlaygroundsUpload.CompleteTitle`).
- **Re-processing after completion.** The stage advances only in
  `onChange(of: extractedText)`, and the canned text is always the same. So
  processing a second time after completion leaves the stage at "extracting",
  with the button disabled and nothing left to advance it
  (`PlaygroundsUpload.ReanalysisStalls`).
- **Typing indicator.** Pressing return bypasses the send button's `isTyping`
  guard. With two questions in flight, the first answer clears the typing
  indicator while the second is still pending (`Chat.TypingClearedEarly`).

## Model

| member | source | states |
|---|---|---|
| Analyser.FirstLineMentioning | PlaygroundsLLMService.swift:162-180 | The index found is the first line whose lower-cased form contains the key, and no earlier line does; there is no index exactly when no line contains it |
| Analyser.ExtractStudentName | PlaygroundsLLMService.swift:162-170 | The loop returns the first line mentioning "student:" with every "Student:" removed and the rest trimmed, or none when no line mentions it |
| Analyser.ExtractGrade | PlaygroundsLLMService.swift:172-180 | The loop returns the first line mentioning "grade", trimmed, or none |
| Analyser.NameOfSingleLine | PlaygroundsLLMService.swift:165-166 | On a one-line document the name is that line with "Student:" removed and trimmed; a lower-case "student:" label is not removed, so the whole line is kept |
| Analyser.Goals | PlaygroundsLLMService.swift:182-196 | The goal list is never empty |
| Analyser.GoalTextAfterFirstColon | PlaygroundsLLMService.swift:188 | A goal's text is everything after the first colon, later colons kept, trimmed |
| Analyser.HeadingGivesNoGoal | PlaygroundsLLMService.swift:187-190 | A heading that ends at its only colon yields an empty text and contributes no goal |
| Analyser.GoalsCharacterised | PlaygroundsLLMService.swift:182-196 | The goals found are the result when there are any, else the three defaults; each goal found is longer than 20 characters and is the text of some goal line, and every qualifying line's text is returned |
| Analyser.ExtractGoals | PlaygroundsLLMService.swift:182-196 | The loop returns the goals specified by `Goals` |
| Analyser.Services | PlaygroundsLLMService.swift:198-213 | The service list is never empty |
| Analyser.ServiceLineNeverTrimsToEmpty | PlaygroundsLLMService.swift:204-206 | A service line keeps its colon when trimmed, so the emptiness test never rejects it |
| Analyser.ServicesAreServiceLines | PlaygroundsLLMService.swift:198-213 | The services found are exactly the service lines, whole and trimmed, in document order |
| Analyser.ExtractServices | PlaygroundsLLMService.swift:198-213 | The loop returns the services specified by `Services` |
| Analyser.Accommodations | PlaygroundsLLMService.swift:215-230 | The accommodation list is never empty |
| Analyser.AccommodationLineNeverTrimsToEmpty | PlaygroundsLLMService.swift:219-223 | An accommodation line of more than 15 characters that names a keyword never trims to empty |
| Analyser.AccommodationsAreAccommodationLines | PlaygroundsLLMService.swift:215-230 | The accommodations found are exactly the accommodation lines, trimmed, in document order |
| Analyser.ExtractAccommodations | PlaygroundsLLMService.swift:215-230 | The loop returns the accommodations specified by `Accommodations` |
| Analyser.SummaryFrame | PlaygroundsLLMService.swift:35-89 | The summary starts with the analysis header and ends with the fixed closing sentence |
| Analyser.SectionsFollowFlags | PlaygroundsLLMService.swift:29-76 | Each of the student, goal, service and accommodation sections is present exactly when its keyword flags hold |
| Analyser.ComponentsInFixedOrder | PlaygroundsLLMService.swift:82-88 | The closing list names each component exactly when it was detected, strictly in the order goals, services, accommodations, progress |
| Analyser.AppendBullets | PlaygroundsLLMService.swift:62-64 | The loop appends one "• item" line per item, in order |
| Analyser.AppendGoalBullets | PlaygroundsLLMService.swift:52-54 | The loop appends "• **Goal n:** text" lines numbered from 1 in extraction order |
| Analyser.AppendStudentSection | PlaygroundsLLMService.swift:38-46 | The code appends the student section, with a name line and a grade line when present, exactly as specified |
| Analyser.AppendGoalSection | PlaygroundsLLMService.swift:49-56 | The code appends the goal section exactly as specified |
| Analyser.AppendServiceSection | PlaygroundsLLMService.swift:59-66 | The code appends the service section exactly as specified |
| Analyser.AppendAccommodationSection | PlaygroundsLLMService.swift:69-76 | The code appends the accommodation section exactly as specified |
| Analyser.AppendAssessment | PlaygroundsLLMService.swift:79-89 | The code appends the assessment paragraph with the components joined by ", " |
| Analyser.GenerateSummary | PlaygroundsLLMService.swift:25-92 | The whole `summary +=` builder returns the specified summary |
| Analyser.RouteIsFirstMatch | PlaygroundsLLMService.swift:94-158 | The if/else-if chain equals the reference rule: the first category, in the fixed order, whose keywords the question contains, else the topic menu |
| Analyser.FirstAskedWins | PlaygroundsLLMService.swift:94-158 | Over an order without repeats, a category is chosen if and only if the question asks about it and about no earlier one; the menu is chosen if and only if it asks about none |
| Analyser.RouteFirstMatchWins | PlaygroundsLLMService.swift:94-158 | The router, for each of its six categories, chooses it if and only if it is the first one asked about; it answers with the menu if and only if none is |
| Analyser.GoalBeatsService | PlaygroundsLLMService.swift:98-112 | A question that names both goals and services gets the goal answer |
| Analyser.GoalAnswerAlwaysLists | PlaygroundsLLMService.swift:98-110 | The goal answer always lists the goals, because the "no goals" branch is unreachable |
| Analyser.ListAnswersAlwaysList | PlaygroundsLLMService.swift:112-138 | The service and accommodation answers always list items; their "unreadable" branches are unreachable |
| Analyser.ProgressAnswerDependsOnlyOnKeyword | PlaygroundsLLMService.swift:140-146 | The progress answer depends only on whether the document mentions "progress" |
| Analyser.AppendNumberedGoals | PlaygroundsLLMService.swift:104-106 | The loop appends "n. goal" paragraphs numbered from 1 |
| Analyser.GoalResponse | PlaygroundsLLMService.swift:98-110 | The code builds the specified goal answer |
| Analyser.ServiceResponse | PlaygroundsLLMService.swift:112-124 | The code builds the specified service answer |
| Analyser.AccommodationResponse | PlaygroundsLLMService.swift:126-138 | The code builds the specified accommodation answer |
| Analyser.GenerateResponse | PlaygroundsLLMService.swift:94-159 | The dispatch returns the answer for the routed category |
| LineCollect.CollectLines | PlaygroundsLLMService.swift:186-193 | The `for line in lines { if … { append } }` loop keeps the rendered qualifying lines, in order |
| LineCollect.CollectEmpty | PlaygroundsLLMService.swift:195 | The collected list is empty if and only if no line qualifies, which is when the fallback applies |
| DemoDocument.DemoStudentName | PlaygroundsPDFManager.swift:25-27 | Name extraction on the canned document yields "Emma Johnson" |
| DemoDocument.DemoGoalHeadingsGiveNothing | PlaygroundsPDFManager.swift:35-44 | Each canned line that mentions "goal" ends at its colon, so none of them contributes a goal |
| DemoDocument.NameFromOpening | PlaygroundsPDFManager.swift:25-27 | Any document that opens with the canned title, blank line and student line yields "Emma Johnson" |
| PDFManager.PlaygroundsPDFManager.constructor | PlaygroundsPDFManager.swift:4-7 | Starts with empty text and file name, not processing, no error |
| PDFManager.PlaygroundsPDFManager.ProcessSelectedFile | PlaygroundsPDFManager.swift:10-16 | Stores the file name, sets processing, clears the error and schedules one extraction; the text is unchanged |
| PDFManager.PlaygroundsPDFManager.CompleteExtraction | PlaygroundsPDFManager.swift:16-20 | Sets the canned text, whatever the file name, and stops processing; the error is never set |
| Session.DisplayNameValues | ContentView.swift:5-11 | The display names are "Parent", "Teacher" and "Counselor" |
| Session.DisplayNameLowers | ContentView.swift:5-11 | Lower-casing a display name gives back the raw value |
| Session.SampleIEPShape | ContentView.swift:122-158 | The sample plan has score 85, 3 goals, 3 services, 4 strengths, 3 concerns and 4 recommendations, and every goal's progress lies in 0..100 |
| Session.SidebarOnMainScreens | ContentView.swift:166-171 | The sidebar is shown if and only if the user is logged in and the screen is not landing, role selection or login |
| Session.NavigateOverrides | ContentView.swift:105-107 | Navigating changes only the screen, and the second of two navigations wins |
| Session.SignInShowsSidebar | ContentView.swift:109-113 | Logging in always shows the sidebar and keeps the plan and demo mode |
| Session.SignOutResets | ContentView.swift:115-120 | Logging out gives the same state whatever came before, except demo mode; it is idempotent and hides the sidebar |
| Session.LoadSampleOnlyIEP | ContentView.swift:122-158 | Loading the sample changes only the plan, and loading it twice is the same as once |
| Session.IEPWithoutLogin | ContentView.swift:122-158 | The sample plan can be loaded while logged out, and logging in keeps it |
| Session.AppState.constructor | ContentView.swift:86-91 | Initial state: landing screen, no role, logged out, no plan, not in demo mode |
| Session.AppState.NavigateTo | ContentView.swift:105-107 | The new state is the old one with the given screen |
| Session.AppState.LoginAs | ContentView.swift:109-113 | The new state has the role set, logged in, on the dashboard; the rest is unchanged |
| Session.AppState.Logout | ContentView.swift:115-120 | The new state has no role, logged out, no plan, on the landing screen |
| Session.AppState.LoadSampleIEP | ContentView.swift:122-158 | The new state holds the sample plan and nothing else changes |
| Navigator.FirstIndexOf | DemoNavigatorView.swift:127-129 | The index is that of the first entry for the screen; it is absent if and only if no entry has the screen |
| Navigator.ScreensTableComplete | DemoNavigatorView.swift:7-17 | The table has nine entries and every screen is listed, so the "Unknown" name never shows |
| Navigator.ScreensDistinct | DemoNavigatorView.swift:7-17 | No screen is listed twice |
| Navigator.IndexOfEntry | DemoNavigatorView.swift:127-129 | The current index of each listed screen is its position in the table |
| Navigator.StepLimits | DemoNavigatorView.swift:135-141 | Going back is possible if and only if the screen is not the first; going forward if and only if it is not the last |
| Navigator.StepsAreAdjacent | DemoNavigatorView.swift:143-153 | A step moves to the adjacent entry, and at the ends it changes nothing |
| Navigator.NextThenPrevious | DemoNavigatorView.swift:143-153 | Forward then back returns to any non-last screen; back then forward returns to any non-first one |
| Navigator.DemoNavigator.GoToPrevious | DemoNavigatorView.swift:143-147 | The app navigates to the previous entry's screen |
| Navigator.DemoNavigator.GoToNext | DemoNavigatorView.swift:149-153 | The app navigates to the next entry's screen |
| Navigator.DemoNavigator.Pick | DemoNavigatorView.swift:39-42 | Picking an entry navigates to its screen and collapses the list |
| Navigator.DemoNavigator.Expand | DemoNavigatorView.swift:92 | The list is expanded and the app state is untouched |
| Navigator.DemoNavigator.Collapse | DemoNavigatorView.swift:30 | The list is collapsed and the app state is untouched |
| Navigator.DemoNavigator.ExitDemoMode | DemoNavigatorView.swift:75-77 | Only demo mode changes, to off |
| PlaygroundsUpload.FileNameFor | PlaygroundsUploadScreenView.swift:269-272 | An empty name gives "sample-iep-document.pdf"; otherwise the result is "sample-iep-", then the name with each space replaced by '-', then ".pdf"; it holds no space |
| PlaygroundsUpload.ButtonTitle | PlaygroundsUploadScreenView.swift:257-267 | Each title is shown exactly under its priority condition: no file, then no text, then no summary |
| PlaygroundsUpload.CompleteTitleIffAsk | PlaygroundsUploadScreenView.swift:209 | The completed title is shown if and only if "Ask Questions" is offered |
| PlaygroundsUpload.EnabledWhenIdle | PlaygroundsUploadScreenView.swift:227 | The button is enabled if and only if a file and a name are present and the stage is none or complete |
| PlaygroundsUpload.ProcessNeedsOnlyFile | PlaygroundsUploadScreenView.swift:274-279 | Processing without a file changes nothing; with a file it starts extraction; it ignores the student name |
| PlaygroundsUpload.NoStageSkipped | PlaygroundsUploadScreenView.swift:239-249 | Each extraction delivery leaves the stage or moves it to the next one; it advances to analyzing exactly when new non-empty text arrives while extracting |
| PlaygroundsUpload.ReachableKept | PlaygroundsUploadScreenView.swift:227 | The states reached by pressing the button only while enabled hold at most one extraction and one summary in flight, an extraction only while extracting and a summary only while analyzing; the first appearance and every offered action keep this |
| PlaygroundsUpload.SummaryFollowsAnalysis | PlaygroundsUploadScreenView.swift:239-249 | In a reachable state a waiting summary means the stage is analyzing, and its arrival moves it one step to complete with that text's summary |
| PlaygroundsUpload.FirstRunCompletes | PlaygroundsUploadScreenView.swift:239-249 | A first run goes extracting, analyzing, complete; it ends with the analyser's summary of the delivered text, the completed title, "Ask Questions" offered and nothing pending, and the button is enabled again exactly when a name is present |
| PlaygroundsUpload.DemoRunCompletes | PlaygroundsUploadScreenView.swift:239-249 | On the canned document the first run ends complete, with the "Ask Questions" action offered |
| PlaygroundsUpload.ReanalysisStalls | PlaygroundsUploadScreenView.swift:239-241 | Processing again after completion leaves the stage at extracting, the button disabled and nothing pending |
| PlaygroundsUpload.PlaygroundsUploadScreen.UseDemo | PlaygroundsUploadScreenView.swift:90-92 | The name becomes "Emma Johnson" and nothing else changes |
| PlaygroundsUpload.PlaygroundsUploadScreen.SimulateFileSelection | PlaygroundsUploadScreenView.swift:269-272 | Marks a file as selected and names it with `FileNameFor` |
| PlaygroundsUpload.PlaygroundsUploadScreen.ProcessDocument | PlaygroundsUploadScreenView.swift:274-279 | Applies the processing step to the screen and its manager; with a file the manager's error is cleared, without one it is kept |
| PlaygroundsUpload.PlaygroundsUploadScreen.ExtractionCompleted | PlaygroundsUploadScreenView.swift:239-243 | The canned text arrives and the stage advances as specified |
| PlaygroundsUpload.PlaygroundsUploadScreen.SummaryCompleted | PlaygroundsUploadScreenView.swift:243-247 | The analyser's summary of the oldest delivered text is stored and the stage becomes complete |
| Upload.SwitchKeepsInputs | UploadScreenView.swift:43-54 | Switching the method changes only the method and does not change whether the form can be submitted |
| Upload.DemoActionsEnableSubmit | UploadScreenView.swift:142-158 | With a name and no upload running, either demo action enables submission |
| Upload.SubmitGuard | UploadScreenView.swift:223-225 | Submission needs a name and a file or link, and is refused while an upload runs |
| Upload.UploadRun | UploadScreenView.swift:227-238 | Submit, then both completions: the upload has succeeded, the sample plan is loaded and the screen is the analysis screen |
| Upload.UploadScreen.SelectMethod | UploadScreenView.swift:43-54 | Only the method changes |
| Upload.UploadScreen.FillDemoName | UploadScreenView.swift:82-84 | The name becomes "Emma Johnson" |
| Upload.UploadScreen.PickFile | UploadScreenView.swift:142-144 | A file is marked as chosen |
| Upload.UploadScreen.FillDemoLink | UploadScreenView.swift:156-158 | The link becomes the fixed demo URL |
| Upload.UploadScreen.HandleUpload | UploadScreenView.swift:227-228 | The upload starts and its first step is scheduled |
| Upload.UploadScreen.UploadStepCompleted | UploadScreenView.swift:229-233 | The upload stops and succeeds, the sample plan is loaded and the redirect is scheduled |
| Upload.UploadScreen.RedirectStepCompleted | UploadScreenView.swift:234-236 | The app navigates to the analysis screen |
| Chat.PostKeepsIdsFresh | PlaygroundsQAScreeenView.swift:141 | Appending a message keeps every message id below the next id |
| Chat.SendAppendsOne | PlaygroundsQAScreeenView.swift:146-153 | Empty input changes nothing; otherwise exactly one user message with the input is appended, earlier ones are kept, the input is cleared, typing starts and the question is queued |
| Chat.ReplyAppendsOne | PlaygroundsQAScreeenView.swift:155-161 | Exactly one non-user message with the answer is appended, earlier ones are kept, typing stops and the oldest question leaves the queue |
| Chat.TypingClearedEarly | PlaygroundsQAScreeenView.swift:117-125 | Return-key sending bypasses the button's guard: two questions can be queued, and the first answer clears typing while one is still pending |
| PlaygroundsQA.AppearAddsAtMostOnce | PlaygroundsQAScreeenView.swift:134-143 | Appearing adds the welcome only to an empty list, and appearing again adds nothing |
| PlaygroundsQA.TappedSuggestionIsSent | PlaygroundsQAScreeenView.swift:83-95 | A tapped suggestion is sent and queued, after which the suggestions are hidden |
| PlaygroundsQA.PlaygroundsQAScreen.OnAppear | PlaygroundsQAScreeenView.swift:134-143 | Applies the appearance step |
| PlaygroundsQA.PlaygroundsQAScreen.SendMessage | PlaygroundsQAScreeenView.swift:146-153 | Applies the send step |
| PlaygroundsQA.PlaygroundsQAScreen.ResponseCompleted | PlaygroundsQAScreeenView.swift:155-161 | Appends the analyser's response to the oldest queued question |
| PlaygroundsQA.PlaygroundsQAScreen.TapSuggested | PlaygroundsQAScreeenView.swift:92-95 | Fills the input with the suggestion and sends it |
| QA.ReplyIsFirstMatch | QAScreenView.swift:135-146 | Each reply is chosen if and only if its keywords appear and no earlier test matched, so "goal" wins over "accommodation" |
| QA.ReplyIgnoresCase | QAScreenView.swift:135-137 | Questions that differ only in letter case get the same reply |
| QA.OpeningHasGreeting | QAScreenView.swift:5-11 | The session opens with one non-user greeting, with the suggestions shown and sending disabled |
| QA.TapOnlyFillsInput | QAScreenView.swift:74-76 | A tap sends nothing: messages, queue and typing flag are kept; sending becomes possible unless an answer is being typed; a following send posts and queues exactly the tapped suggestion |
| QA.QAScreen.constructor | QAScreenView.swift:5-11 | The screen starts in the opening state |
| QA.QAScreen.TapSuggested | QAScreenView.swift:74-76 | The new snapshot is `Tap` of the old one: the input becomes the suggestion |
| QA.QAScreen.SendMessage | QAScreenView.swift:119-126 | Applies the send step |
| QA.QAScreen.ResponseCompleted | QAScreenView.swift:127-132 | Appends the keyword reply to the oldest queued question |
| Services.HighCount | EnhancedServicesTabView.swift:31-33 | The high-priority count is at most the number of needs, and equals it exactly when every need is high priority |
| Services.TotalsArePerCategorySums | EnhancedServicesTabView.swift:19-29 | The flattened totals of services, needs and weekly minutes equal the sums over the categories |
| Services.HighIsPerCategorySum | EnhancedServicesTabView.swift:31-33 | The high-priority total equals the sum of the per-category counts |
| Services.HighPriorityBounded | EnhancedServicesTabView.swift:31-33 | There are never more high-priority needs than needs |
| Services.DatasetTotals | EnhancedServicesTabView.swift:361-614 | The fixed dataset has 6 current services, 11 needs, 3655 weekly minutes and 9 high-priority needs |
| Services.ServicesTab.ToggleCategory | EnhancedServicesTabView.swift:706-714 | Only the given id's membership flips |
| Base.ToggleTwice | EnhancedServicesTabView.swift:706-714 | Toggling an id twice restores the set |
| Base.ToggleCommutes | EnhancedGoalsTabView.swift:365-373 | Toggles of two ids commute |
| Goals.GoalsTab.ToggleDomain | EnhancedGoalsTabView.swift:365-373 | An absent id is added and a present one removed; other ids are unchanged |
| Goals.Truncated | EnhancedGoalsTabView.swift:519 | Texts of at most 50 characters are unchanged; longer ones become their first 50 characters plus "...", 53 in all |
| Goals.TruncatedKeepsPrefix | EnhancedGoalsTabView.swift:535 | Long texts that agree on their first 50 characters are shown the same |
| Goals.DomainLabelIsFirstWord | EnhancedGoalsTabView.swift:353 | The label is the title up to its first space, or the whole title when it has none; it never holds a space |
| Goals.HeaderDomains | EnhancedGoalsTabView.swift:334 | The header shows the first three domains in order, or all of them when there are fewer |
| Goals.Rows | EnhancedGoalsTabView.swift:631-641 | The grid has half the metrics, rounded up, as rows |
| Goals.RowPlacesPair | EnhancedGoalsTabView.swift:631-641 | Row i holds metric 2i and, when it exists, metric 2i+1 |
| Goals.GridShowsEachMetricOnce | EnhancedGoalsTabView.swift:631-641 | Reading the grid row by row gives back the metrics exactly once each, in order |
| Profile.Initials | ProfileScreenView.swift:42 | The initials are the first letters of the first two non-empty words (fewer when there are fewer words) |
| Profile.LeadingSpaceIgnored | ProfileScreenView.swift:42 | Empty words from extra spaces contribute nothing, so a leading space does not change the initials |
| Profile.WordInitials | ProfileScreenView.swift:42 | One word gives its first letter; two words, such as "John Doe", give their two first letters |
| Profile.ThreeWordInitials | ProfileScreenView.swift:42 | Only the first two of three words contribute |
| Profile.ProfileScreen.constructor | ProfileScreenView.swift:5-6 | The screen starts not editing, with the name "John Doe" |
| Profile.ProfileScreen.ToggleEditing | ProfileScreenView.swift:26-27 | Editing flips, and the button reads "Save" while editing and "Edit" otherwise |

## Left out

- View bodies, styling, colours, icons, animations and layout have no behaviour to state. The purely presentational files are not part of this model: the summary, goals, services and insights tabs, the message bubble, the typing indicator, and the role, plan, feature and profile-field cards. The landing, dashboard, settings and analysis screens are not part of this model either; they only call `AppState` operations that are modelled.
- Timing is not modelled: the delays of `DispatchQueue.main.asyncAfter` and `Task.sleep`, `MainActor.run`, and the `isLoading` flag of the service's async wrappers `generateSummary` and `askQuestion`. Each callback is a completion method, and pending callbacks complete oldest first. Interleavings in which answers arrive in another order are not modelled.
- Floating-point progress values are not modelled: `progressValue`, `overallProgress` and the progress bars.
- Foundation types are abstracted: message `UUID`s become natural-number ids, category and domain `UUID`s become numbers, and `Date` timestamps are dropped.
- Unicode is simplified: lower-casing is ASCII only, `count` and `prefix` count characters rather than grapheme clusters, and only `'\n'` breaks lines and only space and tab are trimmed.
- The long canned answers, the welcome message and the summary headings are kept as constants. Only their selection and concatenation are reasoned about.
- DemoDocument.DemoGoalHeadingsGiveNothing: proves that each goal line of the canned document contributes nothing. It does not prove that goal extraction on the whole document returns the three defaults, because evaluating that over the 38-line text is beyond the verifier's budget. The grade found in the canned document is not stated either.
- Profile.WordInitials: states the two-word case for any two words. The concrete "John Doe" result and the empty name are not stated as separate lemmas.
- Goals.Truncated: cites one of the three identical truncation expressions (lines 519, 535 and 551) and counts characters rather than grapheme clusters.
- Chat.TypingClearedEarly: models the return-key path as a second send while an answer is pending. The keyboard itself is not modelled.
- The text field bindings (typing characters into the name, link or question fields) are modelled only as assignments of whole strings.
