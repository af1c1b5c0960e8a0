/** The stand-alone question-and-answer screen: it opens with one greeting and
    answers from a fixed set of four replies chosen by keywords in the question. */
module QA {
  import opened TextOps
  import opened Session
  import opened Chat

  const SuggestedQuestions: seq<string> := [
    "What are the main goals in this IEP?",
    "Are the accommodations appropriate?",
    "How can I support these goals at home?",
    "What services are being provided?",
    "When is the next review meeting?",
    "What does this assessment data mean?"
  ]

  const Greeting :=
    "Hello! I'm here to help you understand and work with the " +
    "IEP. You can ask me questions about goals, accommodations, " +
    "services, or any specific concerns you have."

  /** The session's opening state: the greeting alone. */
  const Opening := ChatSnapshot([Message(0, Greeting, false)], [], false, [], 1)

  /** Which of the four replies a question gets. */
  datatype Canned = GoalReply | AccommodationReply | HomeReply | FallbackReply

  /** The keyword tests of `getAIResponse`, taken in order on the lower-cased question. */
  function ReplyFor(question: string): Canned {
    var q := Lower(question);
    if Contains(q, "goal") then GoalReply
    else if Contains(q, "accommodation") then AccommodationReply
    else if Contains(q, "home") || Contains(q, "support") then HomeReply
    else FallbackReply
  }

  function ReplyText(r: Canned): string {
    match r
    case GoalReply =>
      "Based on the IEP analysis, the main goals focus on reading " +
      "comprehension (75% progress), math skills (45% progress), " +
      "and social skills development (80% progress). The reading " +
      "goal aims to improve comprehension to grade level, while the " +
      "math goal focuses on mastering basic multiplication facts."
    case AccommodationReply =>
      "The IEP includes several accommodations: extended time for " +
      "tests, preferential seating, and breaks during long " +
      "activities. These accommodations are appropriate for " +
      "supporting the student's learning needs and helping them " +
      "access the curriculum effectively."
    case HomeReply =>
      "To support these goals at home, you can: 1) Practice reading " +
      "together daily for 15-20 minutes, 2) Use visual aids and " +
      "manipulatives for math practice, 3) Encourage social " +
      "interactions through structured playdates, and 4) Maintain " +
      "consistent routines that support the school strategies."
    case FallbackReply =>
      "That's a great question! Based on the IEP document, I can " +
      "help you understand the specific details. Could you be more " +
      "specific about what aspect you'd like me to explain further?"
  }

  /** `getAIResponse(for:)` */
  function AIResponse(question: string): string {
    ReplyText(ReplyFor(question))
  }

  /** Each reply is chosen exactly when its keywords appear and no earlier
      test matched: "goal" wins over everything, so a question naming both goals
      and accommodations gets the goal reply. */
  lemma ReplyIsFirstMatch(question: string)
    ensures var q := Lower(question); ReplyFor(question) == GoalReply <==> Contains(q, "goal")
    ensures var q := Lower(question);
      ReplyFor(question) == AccommodationReply <==> !Contains(q, "goal") && Contains(q, "accommodation")
    ensures var q := Lower(question);
      ReplyFor(question) == HomeReply <==> !Contains(q, "goal") && !Contains(q, "accommodation") && (Contains(q, "home") || Contains(q, "support"))
    ensures var q := Lower(question);
      ReplyFor(question) == FallbackReply <==> !Contains(q, "goal") && !Contains(q, "accommodation") && !Contains(q, "home") && !Contains(q, "support")
  {
  }

  /** Upper- and lower-case spellings of a question get the same reply. */
  lemma ReplyIgnoresCase(a: string, b: string)
    requires Lower(a) == Lower(b)
    ensures ReplyFor(a) == ReplyFor(b)
  {
  }

  /** The screen opens with exactly one message, the greeting, not from the user,
      and shows the suggestions. */
  lemma OpeningHasGreeting()
    ensures |Opening.messages| == 1 && !Opening.messages[0].isFromUser && Opening.messages[0].text == Greeting
    ensures IdsFresh(Opening) && SuggestionsVisible(Opening) && !SendEnabled(Opening)
  {
  }

  /** Tapping one of the first three suggestions puts it in the input field. */
  function Tap(s: ChatSnapshot, k: nat): ChatSnapshot
    requires k < 3
  {
    s.(input := SuggestedQuestions[k])
  }

  /** Tapping a suggestion sends nothing: the conversation, the queue and the
      typing flag stay as they were, and the send button becomes available
      unless an answer is being typed. Sending afterwards posts exactly that
      suggestion as the user's next message and queues it. */
  lemma TapOnlyFillsInput(s: ChatSnapshot, k: nat)
    requires k < 3
    ensures var t := Tap(s, k);
      t.messages == s.messages && t.typing == s.typing && t.pending == s.pending && t.nextId == s.nextId
    ensures SendEnabled(Tap(s, k)) <==> !s.typing
    ensures var u := Send(Tap(s, k));
      u.messages == s.messages + [Message(s.nextId, SuggestedQuestions[k], true)] &&
      u.pending == s.pending + [SuggestedQuestions[k]] && u.input == [] && u.typing
  {
    assert SuggestedQuestions[k] != [];
  }

  class QAScreen {
    var messages: seq<Message>
    var inputText: string
    var isTyping: bool
    /** Questions whose answers have not arrived yet, oldest first. */
    var pendingQuestions: seq<string>
    var nextId: nat

    function Snapshot(): ChatSnapshot
      reads this
    {
      ChatSnapshot(messages, inputText, isTyping, pendingQuestions, nextId)
    }

    constructor ()
      ensures Snapshot() == Opening
    {
      messages := [Message(0, Greeting, false)];
      inputText := [];
      isTyping := false;
      pendingQuestions := [];
      nextId := 1;
    }

    method TapSuggested(k: nat)
      requires k < 3
      modifies this
      ensures Snapshot() == Tap(old(Snapshot()), k)
    {
      inputText := SuggestedQuestions[k];
    }

    method SendMessage()
      modifies this
      ensures Snapshot() == Send(old(Snapshot()))
    {
      if inputText == [] {
        return;
      }
      messages := messages + [Message(nextId, inputText, true)];
      nextId := nextId + 1;
      pendingQuestions := pendingQuestions + [inputText];
      inputText := [];
      isTyping := true;
    }

    /** The delayed answer to the oldest question arrives. */
    method ResponseCompleted()
      requires pendingQuestions != []
      modifies this
      ensures Snapshot() == Reply(old(Snapshot()), AIResponse(old(pendingQuestions[0])))
    {
      var response := AIResponse(pendingQuestions[0]);
      messages := messages + [Message(nextId, response, false)];
      nextId := nextId + 1;
      isTyping := false;
      pendingQuestions := pendingQuestions[1..];
    }
  }
}
