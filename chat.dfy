/** What the two question-and-answer screens share: a message list that only
    grows, an input field, a typing flag, and questions waiting for their
    delayed answers. Each message gets the next number from a counter where the
    app draws a fresh UUID; answers are delivered in the order the questions
    were asked. */
module Chat {
  import opened Session

  datatype ChatSnapshot = ChatSnapshot(
    messages: seq<Message>,
    input: string,
    typing: bool,
    pending: seq<string>,
    nextId: nat)

  /** Every message has its own identifier, drawn below the counter. */
  predicate IdsFresh(s: ChatSnapshot) {
    (forall k :: 0 <= k < |s.messages| ==> s.messages[k].id < s.nextId) &&
    (forall i, j :: 0 <= i < j < |s.messages| ==> s.messages[i].id != s.messages[j].id)
  }

  /** Append one message with a fresh identifier. */
  function Post(s: ChatSnapshot, text: string, fromUser: bool): ChatSnapshot {
    s.(messages := s.messages + [Message(s.nextId, text, fromUser)], nextId := s.nextId + 1)
  }

  /** `sendMessage`: nothing on an empty input; otherwise the user's message is
      shown, the input cleared, the typing flag raised and the question queued.
      The typing flag is not consulted. */
  function Send(s: ChatSnapshot): ChatSnapshot {
    if s.input == [] then s
    else Post(s, s.input, true).(input := [], typing := true, pending := s.pending + [s.input])
  }

  /** The delayed completion of the oldest question, with the answer it produced. */
  function Reply(s: ChatSnapshot, answer: string): ChatSnapshot
    requires s.pending != []
  {
    Post(s, answer, false).(typing := false, pending := s.pending[1..])
  }

  /** The send button's enabled condition. */
  predicate SendEnabled(s: ChatSnapshot) {
    s.input != [] && !s.typing
  }

  /** Suggested questions are shown while there is at most one message. */
  predicate SuggestionsVisible(s: ChatSnapshot) {
    |s.messages| <= 1
  }

  /** Posting keeps every identifier distinct and below the counter. */
  lemma PostKeepsIdsFresh(s: ChatSnapshot, text: string, fromUser: bool)
    requires IdsFresh(s)
    ensures IdsFresh(Post(s, text, fromUser))
  {
    var t := Post(s, text, fromUser);
    assert forall k :: 0 <= k < |s.messages| ==> t.messages[k] == s.messages[k];
  }

  /** Sending an empty input changes nothing. Otherwise exactly one user message
      carrying the input is appended, earlier messages stay in place, and the
      question joins the end of the queue. */
  lemma SendAppendsOne(s: ChatSnapshot)
    ensures s.input == [] ==> Send(s) == s
    ensures s.input != [] ==> |Send(s).messages| == |s.messages| + 1 && s.messages <= Send(s).messages
    ensures s.input != [] ==> Send(s).messages[|s.messages|].text == s.input && Send(s).messages[|s.messages|].isFromUser
    ensures s.input != [] ==> Send(s).input == [] && Send(s).typing && Send(s).pending == s.pending + [s.input]
    ensures IdsFresh(s) ==> IdsFresh(Send(s))
  {
    if s.input != [] && IdsFresh(s) {
      PostKeepsIdsFresh(s, s.input, true);
    }
  }

  /** A reply appends exactly one message, not from the user, clears the typing
      flag and retires the oldest question; nothing earlier is removed or moved. */
  lemma ReplyAppendsOne(s: ChatSnapshot, answer: string)
    requires s.pending != []
    ensures |Reply(s, answer).messages| == |s.messages| + 1 && s.messages <= Reply(s, answer).messages
    ensures Reply(s, answer).messages[|s.messages|].text == answer && !Reply(s, answer).messages[|s.messages|].isFromUser
    ensures !Reply(s, answer).typing && Reply(s, answer).input == s.input
    ensures [s.pending[0]] + Reply(s, answer).pending == s.pending
    ensures IdsFresh(s) ==> IdsFresh(Reply(s, answer))
  {
    if IdsFresh(s) {
      PostKeepsIdsFresh(s, answer, false);
    }
  }

  /** Submitting from the keyboard while an answer is on its way queues a second
      question; the first answer then clears the typing flag although the second
      is still waiting. */
  lemma TypingClearedEarly(s: ChatSnapshot, question: string, answer: string)
    requires s.pending == [] && s.typing == false && s.input != [] && question != []
    ensures var t := Send(Send(s).(input := question)); t.typing && |t.pending| == 2
    ensures var t := Send(Send(s).(input := question)); !Reply(t, answer).typing && Reply(t, answer).pending == [question]
    ensures !SendEnabled(Send(s).(input := question))
  {
  }
}
