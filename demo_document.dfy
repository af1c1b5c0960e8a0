/** The canned document that stands in for PDF text extraction
    (`generateDemoIEPText`), kept line by line. */
module DemoDocument {
  import opened Base
  import opened TextOps
  import opened Analyser

  // The lines of the canned document, in order; Swift strips the literal's
  // common indentation, so the blank lines are empty.
  const Line00 := "INDIVIDUALIZED EDUCATION PROGRAM (IEP)"
  const Line01 := ""
  const Line02 := "Student: Emma Johnson"
  const Line03 := "Date of Birth: March 15, 2015"
  const Line04 := "Grade: 3rd Grade"
  const Line05 := "School: Lincoln Elementary School"
  const Line06 := ""
  const Line07 := "PRESENT LEVELS OF PERFORMANCE:"
  const Line08 := "Emma demonstrates strengths in verbal "
      + "communication and social interaction "
      + "with peers. She shows enthusiasm for "
      + "learning and participates actively in "
      + "group discussions. However, Emma "
      + "experiences significant challenges in "
      + "reading comprehension and mathematical "
      + "reasoning that impact her academic "
      + "performance across multiple subjects."
  const Line09 := ""
  const Line10 := "ANNUAL GOALS:"
  const Line11 := ""
  const Line12 := "Goal 1 - Reading Comprehension:"
  const Line13 := "By the end of the school year, when "
      + "given grade-level text, Emma will "
      + "demonstrate improved reading "
      + "comprehension by correctly answering 4 "
      + "out of 5 questions about main idea, "
      + "supporting details, and story sequence, "
      + "as measured by teacher-created "
      + "assessments administered monthly."
  const Line14 := ""
  const Line15 := "Goal 2 - Mathematics:"
  const Line16 := "By the end of the school year, Emma "
      + "will solve two-digit addition and "
      + "subtraction problems with regrouping "
      + "with 80% accuracy over three "
      + "consecutive trials, as measured by "
      + "weekly math assessments."
  const Line17 := ""
  const Line18 := "Goal 3 - Social Skills:"
  const Line19 := "Emma will initiate appropriate social "
      + "interactions with peers during "
      + "unstructured activities (recess, lunch) "
      + "at least 3 times per day, documented "
      + "through teacher observation logs "
      + "collected weekly."
  const Line20 := ""
  const Line21 := "SPECIAL EDUCATION SERVICES:"
  const Line22 := "- Resource Room Support: 45 minutes "
      + "daily for reading and math instruction"
  const Line23 := "- Speech-Language Therapy: 30 minutes "
      + "twice weekly for language processing"
  const Line24 := "- Occupational Therapy: 30 minutes "
      + "weekly for fine motor skills"
  const Line25 := ""
  const Line26 := "ACCOMMODATIONS:"
  const Line27 := "- Extended time (50% additional) for "
      + "all tests and assignments"
  const Line28 := "- Preferential seating near the teacher"
  const Line29 := "- Frequent breaks during lengthy "
      + "assignments"
  const Line30 := "- Use of manipulatives for math problems"
  const Line31 := "- Text-to-speech software for reading "
      + "assignments"
  const Line32 := ""
  const Line33 := "PROGRESS MONITORING:"
  const Line34 := "Progress will be monitored monthly "
      + "through curriculum-based measurements, "
      + "teacher observations, and standardized "
      + "assessment tools. Parents will receive "
      + "progress reports quarterly."
  const Line35 := ""
  const Line36 := "TRANSITION SERVICES:"
  const Line37 := "Age-appropriate transition activities "
      + "will be developed focusing on "
      + "self-advocacy skills and independence "
      + "in academic tasks."

  const DemoLines: seq<string> := [
    Line00, Line01, Line02, Line03, Line04, Line05, Line06, Line07,
    Line08, Line09, Line10, Line11, Line12, Line13, Line14, Line15,
    Line16, Line17, Line18, Line19, Line20, Line21, Line22, Line23,
    Line24, Line25, Line26, Line27, Line28, Line29, Line30, Line31,
    Line32, Line33, Line34, Line35, Line36, Line37
  ]

  /** The canned document: its lines joined by newlines, without a trailing newline. */
  const DemoText: string := Join(DemoLines, "\n")

  /** A line without a colon mentions no key that holds one. */
  lemma NoColonNoMention(line: string, key: string, j: int)
    requires 0 <= j < |key| && key[j] == ':' && ':' !in line
    ensures !Mentions(line, key)
  {
    if Mentions(line, key) {
      ContainsHasChar(Lower(line), key, j);
      LowerKeepsOthers(line, ':');
    }
  }

  /** `parts.joined(separator:)` over two or more parts: the first part, the separator, the rest joined. */
  lemma JoinFirst(parts: seq<string>, sep: string)
    requires |parts| >= 2
    ensures Join(parts, sep) == parts[0] + sep + Join(parts[1..], sep)
  {
  }

  /** The first three parts of a join, each followed by the separator, then the rest joined. */
  lemma JoinOpening(parts: seq<string>, sep: string)
    requires |parts| >= 4
    ensures Join(parts, sep) == parts[0] + sep + (parts[1] + sep + (parts[2] + sep + Join(parts[3..], sep)))
  {
    JoinFirst(parts, sep);
    assert parts[1..][0] == parts[1] && parts[1..][1..] == parts[2..];
    JoinFirst(parts[1..], sep);
    assert parts[2..][0] == parts[2] && parts[2..][1..] == parts[3..];
    JoinFirst(parts[2..], sep);
  }

  /** The title line holds neither a line break nor a colon. */
  lemma TitleLine()
    ensures '\n' !in Line00 && ':' !in Line00
  {
  }

  /** The canned document is its title, a blank line and the student line, then the rest. */
  lemma OpeningLines()
    ensures DemoText == Line00 + "\n" + (Line01 + "\n" + (Line02 + "\n" + Join(DemoLines[3..], "\n")))
  {
    assert DemoLines[0] == Line00 && DemoLines[1] == Line01 && DemoLines[2] == Line02;
    JoinOpening(DemoLines, "\n");
  }

  /** A text made of three lines without breaks and then anything has those three as its first lines. */
  lemma LeadingLines(text: string, a: string, b: string, c: string, rest: string)
    requires text == a + "\n" + (b + "\n" + (c + "\n" + rest))
    requires '\n' !in a && '\n' !in b && '\n' !in c
    ensures |Lines(text)| >= 3 && Lines(text)[..3] == [a, b, c]
  {
    SplitAtSeparator(c, rest, '\n');
    SplitAtSeparator(b, c + "\n" + rest, '\n');
    SplitAtSeparator(a, b + "\n" + (c + "\n" + rest), '\n');
  }

  /** Removing the label from the student line leaves the name after a space. */
  lemma StudentLineUnlabelled()
    ensures ReplaceAll(Line02, "Student:", "") == " Emma Johnson"
  {
    var rest := " Emma Johnson";
    assert Line02 == "Student:" + rest;
    assert Line02[..8] == "Student:" && Line02[8..] == rest;
    assert !Contains(rest, "Student:") by {
      if Contains(rest, "Student:") {
        ContainsHasChar(rest, "Student:", 7);
      }
    }
  }

  lemma NameTrimmed()
    ensures Trim(" Emma Johnson") == "Emma Johnson"
  {
    var x := "Emma Johnson";
    assert " Emma Johnson" == " " + x;
    TrimOneSpace(x);
  }

  /** Any document that opens with the canned title, a blank line and the student
      line names "Emma Johnson": the title has no colon, so the third line is the
      first to mention "student:". */
  lemma NameFromOpening(text: string)
    requires |Lines(text)| >= 3 && Lines(text)[..3] == [Line00, Line01, Line02]
    ensures StudentName(text) == Some("Emma Johnson")
  {
    var lines := Lines(text);
    assert lines[0] == Line00 && lines[1] == Line01 && lines[2] == Line02;
    TitleLine();
    NoColonNoMention(Line00, "student:", 7);
    assert !Mentions(Line01, "student:");
    assert OccursAt(Lower(Line02), "student:", 0);
    assert FirstLineMentioning(lines, "student:") == Some(2);
    StudentLineUnlabelled();
    NameTrimmed();
  }

  /** Name extraction on the canned document yields "Emma Johnson". */
  lemma DemoStudentName(text: string)
    requires text == DemoText
    ensures StudentName(text) == Some("Emma Johnson")
  {
    OpeningLines();
    TitleLine();
    assert '\n' !in Line02;
    LeadingLines(text, Line00, Line01, Line02, Join(DemoLines[3..], "\n"));
    NameFromOpening(text);
  }

  /** The canned document is not empty, so delivering it always changes an empty text. */
  lemma DemoTextNotEmpty(text: string)
    requires text == DemoText
    ensures |text| > |Line00|
  {
    OpeningLines();
  }

  /** The canned goal headings all end at their only colon, so none of them contributes a goal. */
  lemma DemoGoalHeadingsGiveNothing(line: string)
    requires line == Line10 || line == Line12 || line == Line15 || line == Line18
    ensures !KeepsGoal(line)
  {
    var heading := line[..|line| - 1];
    assert line == heading + ":";
    assert ':' !in heading;
    HeadingGivesNoGoal(heading);
  }
}
