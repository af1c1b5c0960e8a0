/** The mock text analyser (`PlaygroundsLLMService`): keyword-driven
    extraction of the student's name, grade, goals, services and
    accommodations from a document, the templated summary built from
    keyword-presence flags, and the first-match-wins question router.
    The async wrappers with their artificial delay are not modelled;
    these are the synchronous functions they call. */
module Analyser {
  import opened Base
  import opened TextOps
  import opened LineCollect

  /** `text.components(separatedBy: .newlines)`, with '\n' as the only line break. */
  function Lines(text: string): seq<string> {
    Split(text, '\n')
  }

  /** The document, lower-cased, contains `key`. */
  predicate Mentions(text: string, key: string) {
    Contains(Lower(text), key)
  }

  // =================================================================
  // Name and grade: the first line that mentions a key
  // =================================================================

  /** Index of the first line whose lower-cased form contains `key`. */
  function FirstLineMentioning(lines: seq<string>, key: string): (r: Option<nat>)
    ensures r.Some? ==> r.value < |lines| && Mentions(lines[r.value], key)
    ensures r.Some? ==> forall k :: 0 <= k < r.value ==> !Mentions(lines[k], key)
    ensures r.None? <==> forall k :: 0 <= k < |lines| ==> !Mentions(lines[k], key)
    decreases |lines|
  {
    if lines == [] then None
    else if Mentions(lines[0], key) then Some(0)
    else
      var rest := FirstLineMentioning(lines[1..], key);
      assert forall k :: 1 <= k < |lines| ==> lines[k] == lines[1..][k - 1];
      match rest
      case None => None
      case Some(k) => Some(k + 1)
  }

  /** What `extractStudentName` returns: the first line mentioning
      "student:", with every case-sensitive "Student:" removed, trimmed. */
  function StudentName(text: string): Option<string> {
    var lines := Lines(text);
    match FirstLineMentioning(lines, "student:")
    case None => None
    case Some(k) => Some(Trim(ReplaceAll(lines[k], "Student:", "")))
  }

  /** What `extractGrade` returns: the first line mentioning "grade", trimmed. */
  function Grade(text: string): Option<string> {
    var lines := Lines(text);
    match FirstLineMentioning(lines, "grade")
    case None => None
    case Some(k) => Some(Trim(lines[k]))
  }

  /** The `for line in lines { if … { return … } }; return nil` search. */
  method FindFirstLine(lines: seq<string>, key: string) returns (r: Option<nat>)
    ensures r == FirstLineMentioning(lines, key)
  {
    var i := 0;
    while i < |lines|
      invariant 0 <= i <= |lines|
      invariant forall k :: 0 <= k < i ==> !Mentions(lines[k], key)
    {
      if Mentions(lines[i], key) {
        return Some(i);
      }
      i := i + 1;
    }
    return None;
  }

  method ExtractStudentName(text: string) returns (name: Option<string>)
    ensures name == StudentName(text)
  {
    var lines := Lines(text);
    var k := FindFirstLine(lines, "student:");
    if k.Some? {
      name := Some(Trim(ReplaceAll(lines[k.value], "Student:", "")));
    } else {
      name := None;
    }
  }

  method ExtractGrade(text: string) returns (grade: Option<string>)
    ensures grade == Grade(text)
  {
    var lines := Lines(text);
    var k := FindFirstLine(lines, "grade");
    if k.Some? {
      grade := Some(Trim(lines[k.value]));
    } else {
      grade := None;
    }
  }

  /** On a one-line document, the name is the line itself with every
      "Student:" removed and trimmed; the removal is case-sensitive, so a
      line whose label is written in another case keeps it. */
  lemma NameOfSingleLine(line: string)
    requires '\n' !in line && Mentions(line, "student:")
    ensures StudentName(line) == Some(Trim(ReplaceAll(line, "Student:", "")))
    ensures !Contains(line, "Student:") ==> StudentName(line) == Some(Trim(line))
  {
    SplitWithoutSeparator(line, '\n');
    assert Lines(line) == [line];
  }

  // =================================================================
  // Goals
  // =================================================================

  const DefaultGoals: seq<string> :=
    ["Reading comprehension improvement", "Mathematical reasoning development", "Social skills enhancement"]

  /** A line that mentions "goal" (any case) and holds a colon. */
  predicate IsGoalLine(line: string) {
    Mentions(line, "goal") && ':' in line
  }

  /** `line.components(separatedBy: ":").dropFirst().joined(separator: ":")`, trimmed. */
  function GoalText(line: string): string {
    Trim(Join(Split(line, ':')[1..], ":"))
  }

  /** A goal line contributes its text when that text has more than 20 characters. */
  predicate KeepsGoal(line: string) {
    IsGoalLine(line) && GoalText(line) != "" && |GoalText(line)| > 20
  }

  /** What `extractGoals` returns: the goals found, or the three defaults. */
  function Goals(text: string): (r: seq<string>)
    ensures r != []
  {
    var found := Collect(Lines(text), KeepsGoal, GoalText);
    if found == [] then DefaultGoals else found
  }

  /** The goal is everything after the first colon, later colons kept, trimmed. */
  lemma GoalTextAfterFirstColon(line: string)
    requires ':' in line
    ensures GoalText(line) == Trim(line[FirstIndex(line, ':') + 1..])
  {
    AfterFirstSeparator(line, ':');
  }

  /** A heading that ends at its only colon, such as "ANNUAL GOALS:", contributes no goal. */
  lemma HeadingGivesNoGoal(heading: string)
    requires ':' !in heading
    ensures GoalText(heading + ":") == "" && !KeepsGoal(heading + ":")
  {
    SplitAtSeparator(heading, "", ':');
    assert heading + [':'] + "" == heading + ":";
    assert Split(heading + ":", ':')[1..] == [""];
  }

  /** The goals found are exactly the texts of the qualifying goal lines, in
      document order: each comes from a goal line and is longer than 20
      characters, and every qualifying line's text is among them. When some
      line qualifies they are the result; otherwise the defaults come back,
      in their fixed order. */
  lemma GoalsCharacterised(text: string)
    ensures var found := Collect(Lines(text), KeepsGoal, GoalText);
      (found == [] ==> Goals(text) == DefaultGoals) &&
      (found != [] ==> Goals(text) == found)
    ensures forall g :: g in Collect(Lines(text), KeepsGoal, GoalText) ==>
      |g| > 20 && exists k :: 0 <= k < |Lines(text)| && IsGoalLine(Lines(text)[k]) && GoalText(Lines(text)[k]) == g
    ensures forall k :: 0 <= k < |Lines(text)| && KeepsGoal(Lines(text)[k]) ==> GoalText(Lines(text)[k]) in Goals(text)
  {
    var lines := Lines(text);
    forall g | g in Collect(lines, KeepsGoal, GoalText)
      ensures |g| > 20 && exists k :: 0 <= k < |lines| && IsGoalLine(lines[k]) && GoalText(lines[k]) == g
    {
      CollectSound(lines, KeepsGoal, GoalText, g);
    }
    forall k | 0 <= k < |lines| && KeepsGoal(lines[k])
      ensures GoalText(lines[k]) in Goals(text)
    {
      CollectComplete(lines, KeepsGoal, GoalText, k);
    }
  }

  method ExtractGoals(text: string) returns (goals: seq<string>)
    ensures goals == Goals(text)
  {
    goals := CollectLines(Lines(text), KeepsGoal, GoalText);
    if goals == [] {
      goals := DefaultGoals;
    }
  }

  // =================================================================
  // Services
  // =================================================================

  const DefaultServices: seq<string> :=
    ["Resource room support", "Speech-language therapy", "Occupational therapy"]

  /** A line mentioning therapy, resource or support (any case) that holds a colon. */
  predicate IsServiceLine(line: string) {
    (Mentions(line, "therapy") || Mentions(line, "resource") || Mentions(line, "support")) && ':' in line
  }

  predicate KeepsService(line: string) {
    IsServiceLine(line) && Trim(line) != ""
  }

  /** What `extractServices` returns: the service lines, trimmed, or the three defaults. */
  function Services(text: string): (r: seq<string>)
    ensures r != []
  {
    var found := Collect(Lines(text), KeepsService, Trim);
    if found == [] then DefaultServices else found
  }

  /** The emptiness test on a trimmed service line never rejects: the colon survives trimming. */
  lemma ServiceLineNeverTrimsToEmpty(line: string)
    requires IsServiceLine(line)
    ensures KeepsService(line) && ':' in Trim(line)
  {
    TrimKeeps(line, ':');
  }

  /** So the services found are exactly the service lines, whole and trimmed, in document order. */
  lemma ServicesAreServiceLines(lines: seq<string>)
    ensures Collect(lines, KeepsService, Trim) == Collect(lines, IsServiceLine, Trim)
  {
    forall k | 0 <= k < |lines| ensures KeepsService(lines[k]) == IsServiceLine(lines[k]) {
      if IsServiceLine(lines[k]) {
        ServiceLineNeverTrimsToEmpty(lines[k]);
      }
    }
    CollectAgrees(lines, KeepsService, IsServiceLine, Trim);
  }

  method ExtractServices(text: string) returns (services: seq<string>)
    ensures services == Services(text)
  {
    services := CollectLines(Lines(text), KeepsService, Trim);
    if services == [] {
      services := DefaultServices;
    }
  }

  // =================================================================
  // Accommodations
  // =================================================================

  const DefaultAccommodations: seq<string> :=
    ["Extended time for assignments", "Preferential seating", "Frequent breaks"]

  /** A line mentioning extended, preferential, break or time (any case)
      whose untrimmed length exceeds 15. */
  predicate IsAccommodationLine(line: string) {
    && (Mentions(line, "extended") || Mentions(line, "preferential") || Mentions(line, "break") || Mentions(line, "time"))
    && |line| > 15
  }

  predicate KeepsAccommodation(line: string) {
    IsAccommodationLine(line) && Trim(line) != ""
  }

  /** What `extractAccommodations` returns: the accommodation lines, trimmed, or the three defaults. */
  function Accommodations(text: string): (r: seq<string>)
    ensures r != []
  {
    var found := Collect(Lines(text), KeepsAccommodation, Trim);
    if found == [] then DefaultAccommodations else found
  }

  /** A line that mentions a keyword made of letters holds a character that is not blank. */
  lemma MentionHasLetter(line: string, key: string)
    requires |key| > 0 && 'a' <= key[0] <= 'z'
    requires Mentions(line, key)
    ensures Trim(line) != ""
  {
    var i :| 0 <= i <= |Lower(line)| - |key| && OccursAt(Lower(line), key, i);
    assert Lower(line)[i] == Lower(line)[i..i + |key|][0] == key[0];
    assert !IsBlank(line[i]);
  }

  /** The emptiness test on a trimmed accommodation line never rejects either. */
  lemma AccommodationLineNeverTrimsToEmpty(line: string)
    requires IsAccommodationLine(line)
    ensures KeepsAccommodation(line)
  {
    if Mentions(line, "extended") {
      MentionHasLetter(line, "extended");
    } else if Mentions(line, "preferential") {
      MentionHasLetter(line, "preferential");
    } else if Mentions(line, "break") {
      MentionHasLetter(line, "break");
    } else {
      MentionHasLetter(line, "time");
    }
  }

  /** So the accommodations found are exactly the accommodation lines, trimmed, in document order. */
  lemma AccommodationsAreAccommodationLines(lines: seq<string>)
    ensures Collect(lines, KeepsAccommodation, Trim) == Collect(lines, IsAccommodationLine, Trim)
  {
    forall k | 0 <= k < |lines| ensures KeepsAccommodation(lines[k]) == IsAccommodationLine(lines[k]) {
      if IsAccommodationLine(lines[k]) {
        AccommodationLineNeverTrimsToEmpty(lines[k]);
      }
    }
    CollectAgrees(lines, KeepsAccommodation, IsAccommodationLine, Trim);
  }

  method ExtractAccommodations(text: string) returns (accommodations: seq<string>)
    ensures accommodations == Accommodations(text)
  {
    accommodations := CollectLines(Lines(text), KeepsAccommodation, Trim);
    if accommodations == [] {
      accommodations := DefaultAccommodations;
    }
  }

  // =================================================================
  // Summary
  // =================================================================

  predicate HasStudentInfo(text: string) { Mentions(text, "student:") || Mentions(text, "name:") }
  predicate HasGoals(text: string) { Mentions(text, "goal") && Mentions(text, "annual") }
  predicate HasServices(text: string) { Mentions(text, "service") || Mentions(text, "therapy") }
  predicate HasAccommodations(text: string) { Mentions(text, "accommodation") || Mentions(text, "modification") }
  predicate HasProgress(text: string) { Mentions(text, "progress") || Mentions(text, "monitoring") }

  const SummaryHeader := "## 📋 IEP Document Analysis\n\n"
  const GoalsHeading := "**🎯 Educational Goals Identified:**\n"
  const ServicesHeading := "**🏫 Special Education Services:**\n"
  const AccommodationsHeading := "**⚙️ Accommodations & Modifications:**\n"
  const AssessmentHeading := "**📊 Overall Assessment:**\n"
  const AssessmentIntro :=
    "This IEP demonstrates a comprehensive "
        + "approach to supporting the student's "
        + "educational needs with "
  const ClosingSentence := ". The plan appears well-structured for "
      + "supporting student success."

  /** The four component names, in the order the closing paragraph lists them. */
  const ComponentOrder: seq<string> :=
    ["measurable goals", "appropriate services", "necessary accommodations", "progress monitoring"]

  function GoalBullet(n: nat, goal: string): string { "• **Goal " + Decimal(n) + ":** " + goal + "\n" }
  function Bullet(item: string): string { "• " + item + "\n" }

  /** `• **Goal n:** text` lines, numbered from 1 in extraction order. */
  function GoalBullets(goals: seq<string>): seq<string> {
    seq(|goals|, k requires 0 <= k < |goals| => GoalBullet(k + 1, goals[k]))
  }

  /** `• text` lines, one per item. */
  function Bullets(items: seq<string>): seq<string> {
    seq(|items|, k requires 0 <= k < |items| => Bullet(items[k]))
  }

  function NameLine(name: string): string { "**👤 Student:** " + name + "\n" }
  function GradeLine(grade: string): string { "**🎓 Grade Level:** " + grade + "\n" }

  function StudentPart(text: string): string {
    if !HasStudentInfo(text) then ""
    else
      (match StudentName(text) case Some(n) => NameLine(n) case None => "")
      + (match Grade(text) case Some(g) => GradeLine(g) case None => "")
      + "\n"
  }

  function GoalsPart(text: string): string {
    if HasGoals(text) then GoalsHeading + Concat(GoalBullets(Goals(text))) + "\n" else ""
  }

  function ServicesPart(text: string): string {
    if HasServices(text) then ServicesHeading + Concat(Bullets(Services(text))) + "\n" else ""
  }

  function AccommodationsPart(text: string): string {
    if HasAccommodations(text) then AccommodationsHeading + Concat(Bullets(Accommodations(text))) + "\n" else ""
  }

  /** The components detected, in the fixed order. */
  function Components(text: string): seq<string> {
    (if HasGoals(text) then [ComponentOrder[0]] else [])
    + (if HasServices(text) then [ComponentOrder[1]] else [])
    + (if HasAccommodations(text) then [ComponentOrder[2]] else [])
    + (if HasProgress(text) then [ComponentOrder[3]] else [])
  }

  function AssessmentPart(text: string): string {
    AssessmentHeading + AssessmentIntro + Join(Components(text), ", ") + ClosingSentence
  }

  /** What `generateIntelligentSummary` returns: the header, then each section in turn. */
  function Summary(text: string): string {
    SummaryHeader + StudentPart(text) + GoalsPart(text) + ServicesPart(text) + AccommodationsPart(text) + AssessmentPart(text)
  }

  /** The summary opens with the analysis header and closes with the fixed closing sentence. */
  lemma SummaryFrame(text: string)
    ensures |Summary(text)| > |SummaryHeader| + |ClosingSentence|
    ensures SummaryHeader <= Summary(text)
    ensures EndsWith(Summary(text), ClosingSentence)
  {
    var opening := AssessmentHeading + AssessmentIntro + Join(Components(text), ", ");
    Framed(SummaryHeader, StudentPart(text), GoalsPart(text), ServicesPart(text), AccommodationsPart(text), opening, ClosingSentence);
  }

  /** The shape of the summary: a header, four sections, then a paragraph ending in a fixed sentence. */
  lemma Framed(h: string, a: string, b: string, c: string, d: string, e: string, z: string)
    requires e != []
    ensures var w := h + a + b + c + d + (e + z);
      |w| > |h| + |z| && h <= w && EndsWith(w, z)
  {
    var w := h + a + b + c + d + (e + z);
    assert w == h + (a + b + c + d + e) + z;
  }

  /** Each section is present exactly when its keyword flags hold. */
  lemma SectionsFollowFlags(text: string)
    ensures GoalsPart(text) != "" <==> HasGoals(text)
    ensures ServicesPart(text) != "" <==> HasServices(text)
    ensures AccommodationsPart(text) != "" <==> HasAccommodations(text)
    ensures StudentPart(text) != "" <==> HasStudentInfo(text)
  {
  }

  /** The rank of a component name in the fixed order. */
  function Rank(name: string): int {
    if name == ComponentOrder[0] then 0
    else if name == ComponentOrder[1] then 1
    else if name == ComponentOrder[2] then 2
    else if name == ComponentOrder[3] then 3
    else 4
  }

  /** The closing list names each component exactly when it was detected,
      and lists them in the fixed order goals, services, accommodations, progress. */
  lemma ComponentsInFixedOrder(text: string)
    ensures ComponentOrder[0] in Components(text) <==> HasGoals(text)
    ensures ComponentOrder[1] in Components(text) <==> HasServices(text)
    ensures ComponentOrder[2] in Components(text) <==> HasAccommodations(text)
    ensures ComponentOrder[3] in Components(text) <==> HasProgress(text)
    ensures forall i, j :: 0 <= i < j < |Components(text)| ==> Rank(Components(text)[i]) < Rank(Components(text)[j])
  {
  }

  /** `for item in items { text += "• \(item)\n" }` */
  method AppendBullets(prefix: string, items: seq<string>) returns (text: string)
    ensures text == prefix + Concat(Bullets(items))
  {
    ghost var lines := Bullets(items);
    text := prefix;
    for i := 0 to |items|
      invariant text == prefix + Concat(lines[..i])
    {
      ConcatStep(lines, i);
      text := text + Bullet(items[i]);
    }
    assert lines[..|items|] == lines;
  }

  /** `for (index, goal) in goals.enumerated() { summary += "• **Goal \(index + 1):** \(goal)\n" }` */
  method AppendGoalBullets(prefix: string, goals: seq<string>) returns (text: string)
    ensures text == prefix + Concat(GoalBullets(goals))
  {
    ghost var lines := GoalBullets(goals);
    text := prefix;
    for index := 0 to |goals|
      invariant text == prefix + Concat(lines[..index])
    {
      ConcatStep(lines, index);
      text := text + GoalBullet(index + 1, goals[index]);
    }
    assert lines[..|goals|] == lines;
  }

  /** The student section in terms of the name and grade found. */
  lemma StudentPartOf(text: string, name: Option<string>, grade: Option<string>)
    requires name == StudentName(text) && grade == Grade(text)
    ensures HasStudentInfo(text) ==>
      StudentPart(text) == (if name.Some? then NameLine(name.value) else "") + (if grade.Some? then GradeLine(grade.value) else "") + "\n"
    ensures !HasStudentInfo(text) ==> StudentPart(text) == ""
  {
  }

  method AppendStudentSection(summary: string, text: string) returns (s: string)
    ensures s == summary + StudentPart(text)
  {
    s := summary;
    if HasStudentInfo(text) {
      var name := ExtractStudentName(text);
      var nameLine := "";
      if name.Some? {
        nameLine := NameLine(name.value);
      }
      s := s + nameLine;
      var grade := ExtractGrade(text);
      var gradeLine := "";
      if grade.Some? {
        gradeLine := GradeLine(grade.value);
      }
      s := s + gradeLine;
      s := s + "\n";
      StudentPartOf(text, name, grade);
      AppendRegroup(summary, nameLine, gradeLine, "\n");
    } else {
      StudentPartOf(text, StudentName(text), Grade(text));
    }
  }

  method AppendGoalSection(summary: string, text: string) returns (s: string)
    ensures s == summary + GoalsPart(text)
  {
    s := summary;
    if HasGoals(text) {
      var goals := ExtractGoals(text);
      s := AppendGoalBullets(s + GoalsHeading, goals);
      s := s + "\n";
    }
  }

  method AppendServiceSection(summary: string, text: string) returns (s: string)
    ensures s == summary + ServicesPart(text)
  {
    s := summary;
    if HasServices(text) {
      var services := ExtractServices(text);
      s := AppendBullets(s + ServicesHeading, services);
      s := s + "\n";
    }
  }

  method AppendAccommodationSection(summary: string, text: string) returns (s: string)
    ensures s == summary + AccommodationsPart(text)
  {
    s := summary;
    if HasAccommodations(text) {
      var accommodations := ExtractAccommodations(text);
      s := AppendBullets(s + AccommodationsHeading, accommodations);
      s := s + "\n";
    }
  }

  method AppendAssessment(summary: string, text: string) returns (s: string)
    ensures s == summary + AssessmentPart(text)
  {
    var components: seq<string> := [];
    if HasGoals(text) { components := components + ["measurable goals"]; }
    if HasServices(text) { components := components + ["appropriate services"]; }
    if HasAccommodations(text) { components := components + ["necessary accommodations"]; }
    if HasProgress(text) { components := components + ["progress monitoring"]; }
    assert components == Components(text);
    s := summary + (AssessmentHeading + AssessmentIntro + Join(components, ", ") + ClosingSentence);
  }

  /** The `summary += …` builder of `generateIntelligentSummary`. */
  method GenerateSummary(text: string) returns (summary: string)
    ensures summary == Summary(text)
  {
    summary := AppendStudentSection(SummaryHeader, text);
    summary := AppendGoalSection(summary, text);
    summary := AppendServiceSection(summary, text);
    summary := AppendAccommodationSection(summary, text);
    summary := AppendAssessment(summary, text);
  }

  // =================================================================
  // Question router
  // =================================================================

  /** The answer categories, in the order the router tests them. */
  datatype Topic = GoalTopic | ServiceTopic | AccommodationTopic | ProgressTopic | HomeTopic | MeetingTopic | MenuTopic

  const TopicOrder: seq<Topic> :=
    [GoalTopic, ServiceTopic, AccommodationTopic, ProgressTopic, HomeTopic, MeetingTopic]

  /** The keywords that select each category. */
  function Keywords(t: Topic): seq<string> {
    match t
    case GoalTopic => ["goal", "objective"]
    case ServiceTopic => ["service"]
    case AccommodationTopic => ["accommodation", "modification"]
    case ProgressTopic => ["progress", "data", "monitor"]
    case HomeTopic => ["parent", "home", "support"]
    case MeetingTopic => ["meeting", "review"]
    case MenuTopic => []
  }

  /** The question, lower-cased, contains one of the category's keywords. */
  predicate Asks(question: string, t: Topic) {
    exists k :: 0 <= k < |Keywords(t)| && Mentions(question, Keywords(t)[k])
  }

  /** The `if … else if …` chain of `generateIntelligentResponse`. */
  function Route(question: string): Topic {
    if Mentions(question, "goal") || Mentions(question, "objective") then GoalTopic
    else if Mentions(question, "service") then ServiceTopic
    else if Mentions(question, "accommodation") || Mentions(question, "modification") then AccommodationTopic
    else if Mentions(question, "progress") || Mentions(question, "data") || Mentions(question, "monitor") then ProgressTopic
    else if Mentions(question, "parent") || Mentions(question, "home") || Mentions(question, "support") then HomeTopic
    else if Mentions(question, "meeting") || Mentions(question, "review") then MeetingTopic
    else MenuTopic
  }

  /** Reference rule: the first category in `order` that the question asks about, else the menu. */
  function FirstAsked(question: string, order: seq<Topic>): (r: Topic)
    ensures r == MenuTopic || r in order
    decreases |order|
  {
    if order == [] then MenuTopic
    else if Asks(question, order[0]) then order[0]
    else FirstAsked(question, order[1..])
  }

  /** The router is the first-match-wins rule over the fixed category order. */
  lemma RouteIsFirstMatch(question: string)
    ensures Route(question) == FirstAsked(question, TopicOrder)
  {
    assert Asks(question, GoalTopic) <==> Mentions(question, "goal") || Mentions(question, "objective") by {
      assert Keywords(GoalTopic)[0] == "goal" && Keywords(GoalTopic)[1] == "objective";
    }
    assert Asks(question, ServiceTopic) <==> Mentions(question, "service") by {
      assert Keywords(ServiceTopic)[0] == "service";
    }
    assert Asks(question, AccommodationTopic) <==> Mentions(question, "accommodation") || Mentions(question, "modification") by {
      assert Keywords(AccommodationTopic)[0] == "accommodation" && Keywords(AccommodationTopic)[1] == "modification";
    }
    assert Asks(question, ProgressTopic) <==> Mentions(question, "progress") || Mentions(question, "data") || Mentions(question, "monitor") by {
      assert Keywords(ProgressTopic)[0] == "progress" && Keywords(ProgressTopic)[1] == "data" && Keywords(ProgressTopic)[2] == "monitor";
    }
    assert Asks(question, HomeTopic) <==> Mentions(question, "parent") || Mentions(question, "home") || Mentions(question, "support") by {
      assert Keywords(HomeTopic)[0] == "parent" && Keywords(HomeTopic)[1] == "home" && Keywords(HomeTopic)[2] == "support";
    }
    assert Asks(question, MeetingTopic) <==> Mentions(question, "meeting") || Mentions(question, "review") by {
      assert Keywords(MeetingTopic)[0] == "meeting" && Keywords(MeetingTopic)[1] == "review";
    }
    assert TopicOrder[1..] == [ServiceTopic, AccommodationTopic, ProgressTopic, HomeTopic, MeetingTopic];
    assert TopicOrder[1..][1..] == [AccommodationTopic, ProgressTopic, HomeTopic, MeetingTopic];
    assert TopicOrder[1..][1..][1..] == [ProgressTopic, HomeTopic, MeetingTopic];
    assert TopicOrder[1..][1..][1..][1..] == [HomeTopic, MeetingTopic];
    assert TopicOrder[1..][1..][1..][1..][1..] == [MeetingTopic];
  }

  /** No category appears twice in `order`. */
  predicate Distinct(order: seq<Topic>) {
    forall i, j :: 0 <= i < j < |order| ==> order[i] != order[j]
  }

  /** First match wins: over an order without repeats, a category is chosen exactly
      when the question asks about it and about no category tested before it;
      the menu exactly when it asks about none. */
  lemma {:induction false} FirstAskedWins(question: string, order: seq<Topic>)
    requires MenuTopic !in order && Distinct(order)
    ensures forall i :: 0 <= i < |order| ==>
      (FirstAsked(question, order) == order[i] <==> Asks(question, order[i]) && forall j :: 0 <= j < i ==> !Asks(question, order[j]))
    ensures FirstAsked(question, order) == MenuTopic <==> forall j :: 0 <= j < |order| ==> !Asks(question, order[j])
    decreases |order|
  {
    if order != [] {
      var rest := order[1..];
      assert forall i :: 1 <= i < |order| ==> order[i] == rest[i - 1];
      FirstAskedWins(question, rest);
      assert order[0] !in rest;
      forall i | 0 <= i < |order|
        ensures FirstAsked(question, order) == order[i] <==> Asks(question, order[i]) && forall j :: 0 <= j < i ==> !Asks(question, order[j])
      {
        if i > 0 && !Asks(question, order[0]) {
          assert forall j :: 1 <= j < i ==> order[j] == rest[j - 1];
        }
      }
    }
  }

  /** The router tests six distinct categories, and the menu is not among them. */
  lemma TopicOrderDistinct()
    ensures Distinct(TopicOrder) && MenuTopic !in TopicOrder
  {
  }

  /** The router picks a category exactly when the question asks about it and
      about none tested before it, and the menu exactly when it asks about none. */
  lemma RouteFirstMatchWins(question: string)
    ensures forall i :: 0 <= i < |TopicOrder| ==>
      (Route(question) == TopicOrder[i] <==> Asks(question, TopicOrder[i]) && forall j :: 0 <= j < i ==> !Asks(question, TopicOrder[j]))
    ensures Route(question) == MenuTopic <==> forall j :: 0 <= j < |TopicOrder| ==> !Asks(question, TopicOrder[j])
  {
    RouteIsFirstMatch(question);
    TopicOrderDistinct();
    FirstAskedWins(question, TopicOrder);
  }

  /** A question naming both goals and services gets the goal answer. */
  lemma GoalBeatsService(question: string)
    requires Mentions(question, "goal") && Mentions(question, "service")
    ensures Route(question) == GoalTopic
  {
  }

  // ----- the answers -----

  const GoalsUnreadable :=
    "I can see this document discusses "
        + "educational planning, but I'd need to "
        + "look more closely at the specific goal "
        + "sections to provide detailed "
        + "information about the learning "
        + "objectives."
  const GoalsOutro := "Each goal should include specific "
      + "criteria for measuring progress and "
      + "target dates for achievement."
  const ServicesUnreadable :=
    "The document mentions educational "
        + "services, but I'd need to examine the "
        + "services section more carefully to "
        + "provide specific details about "
        + "frequency and providers."
  const ServicesIntro := "The IEP outlines the following special "
      + "education services:\n\n"
  const ServicesOutro :=
    "\nThese services are designed to provide "
        + "targeted support in areas where the "
        + "student needs additional assistance."
  const AccommodationsUnreadable :=
    "The IEP should include accommodations "
        + "to help the student access the "
        + "curriculum. I'd need to review the "
        + "accommodations section to provide "
        + "specific details."
  const AccommodationsIntro := "The following accommodations are "
      + "included in this IEP:\n\n"
  const AccommodationsOutro :=
    "\nThese accommodations are designed to "
        + "level the playing field and help the "
        + "student demonstrate their knowledge "
        + "effectively."
  const ProgressTracked :=
    "Progress monitoring is essential for "
        + "tracking the student's advancement "
        + "toward IEP goals. Based on the "
        + "document, progress appears to be "
        + "tracked through regular assessments, "
        + "data collection, and periodic reviews. "
        + "This helps ensure the student is making "
        + "appropriate progress and allows for "
        + "adjustments if needed."
  const ProgressUndefined :=
    "Progress monitoring should be clearly "
        + "defined in the IEP, including how often "
        + "data will be collected, what methods "
        + "will be used, and how progress will be "
        + "reported to parents."
  const HomeAnswer :=
    "Parent involvement is crucial for IEP "
        + "success. You can support your child at "
        + "home by:\n\n• Reinforcing skills being "
        + "taught at school\n• Maintaining "
        + "consistent routines\n• Communicating "
        + "regularly with the IEP team\n• "
        + "Practicing IEP goals in natural "
        + "settings\n• Celebrating progress and "
        + "achievements\n\nConsider asking the team "
        + "for specific home strategies that align "
        + "with the school-based interventions."
  const MeetingAnswer :=
    "IEP meetings should occur at least "
        + "annually, but can be called more "
        + "frequently if needed. During meetings, "
        + "the team reviews progress, discusses "
        + "any concerns, and makes necessary "
        + "adjustments to goals or services. As a "
        + "parent/team member, you have the right "
        + "to request meetings and provide input "
        + "on all decisions."
  const TopicMenu :=
    "I can help you understand various "
        + "aspects of this IEP document. Feel free "
        + "to ask about specific topics like:\n\n• "
        + "Educational goals and objectives\n• "
        + "Special education services\n• "
        + "Accommodations and modifications\n• "
        + "Progress monitoring procedures\n• Home "
        + "support strategies\n• Meeting schedules "
        + "and procedures\n\nWhat specific aspect "
        + "would you like to explore further?"

  function GoalsIntro(count: nat): string {
    "Based on the IEP document, I've "
        + "identified " + Decimal(count) + " main educational goals:\n\n"
  }

  function NumberedGoal(n: nat, goal: string): string { Decimal(n) + ". " + goal + "\n\n" }

  /** `n. text` paragraphs, numbered from 1 in extraction order. */
  function NumberedGoals(goals: seq<string>): seq<string> {
    seq(|goals|, k requires 0 <= k < |goals| => NumberedGoal(k + 1, goals[k]))
  }

  /** The answer text for each category, with the lists extracted from the document. */
  function Answer(t: Topic, document: string): string {
    match t
    case GoalTopic =>
      var goals := Goals(document);
      if goals == [] then GoalsUnreadable else GoalsIntro(|goals|) + Concat(NumberedGoals(goals)) + GoalsOutro
    case ServiceTopic =>
      var services := Services(document);
      if services == [] then ServicesUnreadable else ServicesIntro + Concat(Bullets(services)) + ServicesOutro
    case AccommodationTopic =>
      var accommodations := Accommodations(document);
      if accommodations == [] then AccommodationsUnreadable
      else AccommodationsIntro + Concat(Bullets(accommodations)) + AccommodationsOutro
    case ProgressTopic =>
      if Mentions(document, "progress") then ProgressTracked else ProgressUndefined
    case HomeTopic => HomeAnswer
    case MeetingTopic => MeetingAnswer
    case MenuTopic => TopicMenu
  }

  /** What `generateIntelligentResponse` returns. */
  function Response(question: string, document: string): string {
    Answer(Route(question), document)
  }

  /** The goal answer's "no goals" branch is unreachable, because `Goals` is never
      empty: the answer always states how many goals there are and lists them. */
  lemma GoalAnswerAlwaysLists(document: string)
    ensures Answer(GoalTopic, document)
      == GoalsIntro(|Goals(document)|) + Concat(NumberedGoals(Goals(document))) + GoalsOutro
  {
  }

  /** The service and accommodation answers never take their "unreadable" branch either. */
  lemma ListAnswersAlwaysList(document: string)
    ensures Answer(ServiceTopic, document) == ServicesIntro + Concat(Bullets(Services(document))) + ServicesOutro
    ensures Answer(AccommodationTopic, document)
      == AccommodationsIntro + Concat(Bullets(Accommodations(document))) + AccommodationsOutro
  {
  }

  /** The progress answer depends on nothing but whether the document mentions "progress". */
  lemma ProgressAnswerDependsOnlyOnKeyword(d1: string, d2: string)
    requires Mentions(d1, "progress") == Mentions(d2, "progress")
    ensures Answer(ProgressTopic, d1) == Answer(ProgressTopic, d2)
    ensures Answer(ProgressTopic, d1) == (if Mentions(d1, "progress") then ProgressTracked else ProgressUndefined)
  {
  }

  /** `for (index, goal) in goals.enumerated() { response += "\(index + 1). \(goal)\n\n" }` */
  method AppendNumberedGoals(prefix: string, goals: seq<string>) returns (text: string)
    ensures text == prefix + Concat(NumberedGoals(goals))
  {
    ghost var paragraphs := NumberedGoals(goals);
    text := prefix;
    for index := 0 to |goals|
      invariant text == prefix + Concat(paragraphs[..index])
    {
      ConcatStep(paragraphs, index);
      text := text + NumberedGoal(index + 1, goals[index]);
    }
    assert paragraphs[..|goals|] == paragraphs;
  }

  method GoalResponse(document: string) returns (response: string)
    ensures response == Answer(GoalTopic, document)
  {
    var goals := ExtractGoals(document);
    if goals == [] {
      response := GoalsUnreadable;
    } else {
      response := AppendNumberedGoals(GoalsIntro(|goals|), goals);
      response := response + GoalsOutro;
    }
  }

  method ServiceResponse(document: string) returns (response: string)
    ensures response == Answer(ServiceTopic, document)
  {
    var services := ExtractServices(document);
    if services == [] {
      response := ServicesUnreadable;
    } else {
      response := AppendBullets(ServicesIntro, services);
      response := response + ServicesOutro;
    }
  }

  method AccommodationResponse(document: string) returns (response: string)
    ensures response == Answer(AccommodationTopic, document)
  {
    var accommodations := ExtractAccommodations(document);
    if accommodations == [] {
      response := AccommodationsUnreadable;
    } else {
      response := AppendBullets(AccommodationsIntro, accommodations);
      response := response + AccommodationsOutro;
    }
  }

  /** The `if … else if …` dispatch of `generateIntelligentResponse`. */
  method GenerateResponse(question: string, document: string) returns (response: string)
    ensures response == Response(question, document)
  {
    var topic := Route(question);
    match topic {
      case GoalTopic => response := GoalResponse(document);
      case ServiceTopic => response := ServiceResponse(document);
      case AccommodationTopic => response := AccommodationResponse(document);
      case ProgressTopic =>
        if Mentions(document, "progress") {
          response := ProgressTracked;
        } else {
          response := ProgressUndefined;
        }
      case HomeTopic => response := HomeAnswer;
      case MeetingTopic => response := MeetingAnswer;
      case MenuTopic => response := TopicMenu;
    }
  }
}
