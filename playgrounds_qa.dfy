/** The question-and-answer screen opened from the upload screen: it greets the
    user once on appearing and answers each question with the analyser's
    response for the extracted document. */
module PlaygroundsQA {
  import opened Session
  import opened Analyser
  import opened Chat

  const SuggestedQuestions: seq<string> := [
    "What are the main educational goals?",
    "What services are being provided?",
    "What accommodations are included?",
    "How is progress being measured?",
    "How can I support these goals at home?",
    "What should I expect in the next review?"
  ]

  /** The welcome message, naming the student. */
  function Welcome(studentName: string): string {
    "Hello! I've analyzed " + studentName + "'s IEP document and " +
    "I'm ready to answer your questions. I can help explain goals, " +
    "services, accommodations, or any other aspects of the " +
    "educational plan. What would you like to know?"
  }

  /** `onAppear`: the welcome message, only into an empty list. */
  function Appear(s: ChatSnapshot, studentName: string): ChatSnapshot {
    if s.messages == [] then Post(s, Welcome(studentName), false) else s
  }

  /** Tapping one of the first three suggestions fills the input and sends it. */
  function TapSuggestion(s: ChatSnapshot, k: nat): ChatSnapshot
    requires k < 3
  {
    Send(s.(input := SuggestedQuestions[k]))
  }

  /** Appearing leaves at least one message, adds the greeting only to an empty
      list, and appearing again adds nothing. */
  lemma AppearAddsAtMostOnce(s: ChatSnapshot, studentName: string)
    ensures Appear(Appear(s, studentName), studentName) == Appear(s, studentName)
    ensures s.messages == [] ==> Appear(s, studentName).messages == [Message(s.nextId, Welcome(studentName), false)]
    ensures s.messages != [] ==> Appear(s, studentName) == s
    ensures |Appear(s, studentName).messages| >= 1
  {
    if s.messages == [] {
      var w := Welcome(studentName);
      var a := Post(s, w, false);
      assert Appear(s, studentName) == a;
      assert a.messages == [Message(s.nextId, w, false)];
    }
  }

  /** A tapped suggestion is sent as the user's message and queued for an
      answer; the suggestions are then gone, since the list holds the greeting
      and the question. */
  lemma TappedSuggestionIsSent(s: ChatSnapshot, studentName: string, k: nat)
    requires k < 3 && s.messages == []
    ensures var t := TapSuggestion(Appear(s, studentName), k);
      t.pending == s.pending + [SuggestedQuestions[k]] && t.messages[1].text == SuggestedQuestions[k]
    ensures SuggestionsVisible(Appear(s, studentName)) && !SuggestionsVisible(TapSuggestion(Appear(s, studentName), k))
  {
    var a := Appear(s, studentName);
    assert SuggestedQuestions[k] != [];
    SendAppendsOne(a.(input := SuggestedQuestions[k]));
  }

  class PlaygroundsQAScreen {
    const documentText: string
    const studentName: string
    var messages: seq<Message>
    var inputText: string
    var isTyping: bool
    /** Questions whose answers have not arrived yet, oldest first. */
    var pendingQuestions: seq<string>
    var nextId: nat

    function Snapshot(): ChatSnapshot
      reads this
    {
      ChatSnapshot(messages, inputText, isTyping, pendingQuestions, nextId)
    }

    constructor (document: string, name: string)
      ensures documentText == document && studentName == name
      ensures Snapshot() == ChatSnapshot([], [], false, [], 0)
    {
      documentText := document;
      studentName := name;
      messages := [];
      inputText := [];
      isTyping := false;
      pendingQuestions := [];
      nextId := 0;
    }

    method OnAppear()
      modifies this
      ensures Snapshot() == Appear(old(Snapshot()), studentName)
    {
      if messages == [] {
        messages := messages + [Message(nextId, Welcome(studentName), false)];
        nextId := nextId + 1;
      }
    }

    method SendMessage()
      modifies this
      ensures Snapshot() == Send(old(Snapshot()))
    {
      if inputText == [] {
        return;
      }
      messages := messages + [Message(nextId, inputText, true)];
      nextId := nextId + 1;
      pendingQuestions := pendingQuestions + [inputText];
      inputText := [];
      isTyping := true;
    }

    /** The oldest question's answer arrives. */
    method ResponseCompleted()
      requires pendingQuestions != []
      modifies this
      ensures Snapshot() == Reply(old(Snapshot()), Response(old(pendingQuestions[0]), documentText))
    {
      var response := GenerateResponse(pendingQuestions[0], documentText);
      messages := messages + [Message(nextId, response, false)];
      nextId := nextId + 1;
      isTyping := false;
      pendingQuestions := pendingQuestions[1..];
    }

    method TapSuggested(k: nat)
      requires k < 3
      modifies this
      ensures Snapshot() == TapSuggestion(old(Snapshot()), k)
    {
      inputText := SuggestedQuestions[k];
      SendMessage();
    }
  }
}
