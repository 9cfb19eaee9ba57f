/** The chat assistant "Cura": the user sends a trimmed question and, after a
    delay, one of five canned answers is appended. The delayed callback is
    the separate method `Reply`, and its random draw is the parameter
    `random` in [0, 1). */
module AIAssistant {
  import opened Wrappers
  import opened Text

  datatype Role = User | Assistant

  datatype Message = Message(role: Role, content: string)

  const Greeting := "Hi! I'm Cura, your AI health assistant. How can I help you today?"

  /** The five canned answers, in the order the draw indexes them. */
  const Responses: seq<string> := [
    "Based on your query, I recommend maintaining a heart-healthy diet rich in omega-3 fatty acids, fiber, and antioxidants.",
    "Regular exercise of 30 minutes daily can significantly reduce heart disease risk. Start with walking and gradually increase intensity.",
    "Monitoring your blood pressure and cholesterol levels regularly is crucial for heart health. Consider scheduling a checkup.",
    "Stress management through meditation, deep breathing, or yoga can help lower blood pressure and improve heart health.",
    "Adequate sleep of 7-8 hours is essential for cardiovascular health. Poor sleep can increase heart disease risk."
  ]

  /** `Math.floor(Math.random() * responses.length)`. */
  function ResponseIndex(random: real): (i: int)
    requires 0.0 <= random < 1.0
    ensures 0 <= i < |Responses|
  {
    (random * 5.0).Floor
  }

  /** Every canned answer can be drawn. */
  lemma EveryResponseIsDrawn(i: int)
    requires 0 <= i < |Responses|
    ensures 0.0 <= i as real / 5.0 < 1.0 && ResponseIndex(i as real / 5.0) == i
  {
    assert (i as real / 5.0) * 5.0 == i as real;
  }

  /** How many messages in `msgs` have the given role. */
  function CountRole(msgs: seq<Message>, role: Role): (n: nat)
    ensures n <= |msgs|
    ensures n == 0 <==> forall i :: 0 <= i < |msgs| ==> msgs[i].role != role
  {
    if msgs == [] then 0
    else CountRole(msgs[..|msgs| - 1], role) + (if msgs[|msgs| - 1].role == role then 1 else 0)
  }

  /** Appending a message adds one to its role's count and leaves the other
      role's count alone. */
  lemma CountRoleAppend(msgs: seq<Message>, m: Message, role: Role)
    ensures CountRole(msgs + [m], role) == CountRole(msgs, role) + (if m.role == role then 1 else 0)
  {
    assert (msgs + [m])[..|msgs|] == msgs;
  }

  /** Every message is the user's or the assistant's: the two counts add up
      to the length of the conversation. */
  lemma {:induction false} RoleCountsPartition(msgs: seq<Message>)
    ensures CountRole(msgs, User) + CountRole(msgs, Assistant) == |msgs|
  {
    if msgs != [] {
      RoleCountsPartition(msgs[..|msgs| - 1]);
    }
  }

  /** A question as `trim` leaves it: not empty, and neither starting nor
      ending with whitespace. */
  predicate Trimmed(q: string) {
    q != [] && !IsWhitespace(q[0]) && !IsWhitespace(q[|q| - 1])
  }

  /** What `handleSend` makes of the input box: nothing for blank input,
      otherwise the trimmed question. */
  function Question(input: string): (q: Option<string>)
    ensures q.None? <==> IsBlank(input)
    ensures q.Some? ==> q.value == Trim(input) && Trimmed(q.value)
  {
    TrimEmptyIffBlank(input);
    var t := Trim(input);
    if t == [] then None else Some(t)
  }

  /** The conversation invariant: every user message holds a trimmed
      question, and every question is answered or awaiting its answer
      (questions = answers after the greeting + pending replies). */
  ghost predicate Conversation(msgs: seq<Message>, pending: nat) {
    && (forall i :: 0 <= i < |msgs| && msgs[i].role == User ==> Trimmed(msgs[i].content))
    && CountRole(msgs, User) + 1 == CountRole(msgs, Assistant) + pending
  }

  /** A question keeps the invariant with one more pending reply. */
  lemma AskKeepsConversation(msgs: seq<Message>, pending: nat, question: string)
    requires Conversation(msgs, pending)
    requires Trimmed(question)
    ensures Conversation(msgs + [Message(User, question)], pending + 1)
  {
    var m := Message(User, question);
    CountRoleAppend(msgs, m, User);
    CountRoleAppend(msgs, m, Assistant);
  }

  /** A canned answer keeps the invariant with one fewer pending reply. */
  lemma AnswerKeepsConversation(msgs: seq<Message>, pending: nat, k: int)
    requires Conversation(msgs, pending) && pending > 0 && 0 <= k < |Responses|
    ensures Conversation(msgs + [Message(Assistant, Responses[k])], pending - 1)
  {
    var m := Message(Assistant, Responses[k]);
    CountRoleAppend(msgs, m, User);
    CountRoleAppend(msgs, m, Assistant);
  }

  class ChatWindow {
    var messages: seq<Message>
    var input: string
    var isLoading: bool
    /** Replies scheduled and not yet delivered. */
    var pendingReplies: nat

    /** The conversation invariant holds, and loading is only shown while a
        reply is pending. */
    ghost predicate Valid()
      reads this
    {
      Conversation(messages, pendingReplies) && (isLoading ==> pendingReplies > 0)
    }

    constructor ()
      ensures Valid() && messages == [Message(Assistant, Greeting)]
      ensures input == "" && !isLoading && pendingReplies == 0
    {
      messages := [Message(Assistant, Greeting)];
      input := "";
      isLoading := false;
      pendingReplies := 0;
      assert [Message(Assistant, Greeting)][..0] == [];
    }

    /** Typing in the box. */
    method SetInput(text: string)
      requires Valid()
      modifies this
      ensures Valid() && input == text
      ensures messages == old(messages) && isLoading == old(isLoading) && pendingReplies == old(pendingReplies)
    {
      input := text;
    }

    /** `handleSend`: blank input does nothing; otherwise the trimmed input is
        appended as a user message, the box is cleared, loading is shown and
        one reply is scheduled. */
    method Send()
      requires Valid()
      modifies this
      ensures Valid()
      ensures Question(old(input)).None? ==>
                messages == old(messages) && input == old(input)
                && isLoading == old(isLoading) && pendingReplies == old(pendingReplies)
      ensures Question(old(input)).Some? ==>
                && messages == old(messages) + [Message(User, Question(old(input)).value)]
                && input == "" && isLoading && pendingReplies == old(pendingReplies) + 1
    {
      var question := Question(input);
      if question.None? {
        return;
      }
      var userMessage := question.value;
      AskKeepsConversation(messages, pendingReplies, userMessage);
      input := "";
      messages := messages + [Message(User, userMessage)];
      isLoading := true;
      pendingReplies := pendingReplies + 1;
    }

    /** The delayed callback of one `handleSend`: a canned answer is appended
        and loading ends. */
    method Reply(random: real)
      requires Valid() && pendingReplies > 0 && 0.0 <= random < 1.0
      modifies this
      ensures Valid()
      ensures messages == old(messages) + [Message(Assistant, Responses[ResponseIndex(random)])]
      ensures !isLoading && input == old(input) && pendingReplies == old(pendingReplies) - 1
    {
      var answer := Message(Assistant, Responses[ResponseIndex(random)]);
      AnswerKeepsConversation(messages, pendingReplies, ResponseIndex(random));
      messages := messages + [answer];
      isLoading := false;
      pendingReplies := pendingReplies - 1;
    }
  }

  /** Once every reply has been delivered, every question has its answer: the
      conversation holds exactly one more assistant message than user
      messages. */
  lemma AllAnswered(chat: ChatWindow)
    requires chat.Valid() && chat.pendingReplies == 0
    ensures CountRole(chat.messages, Assistant) == CountRole(chat.messages, User) + 1
    ensures |chat.messages| == 2 * CountRole(chat.messages, User) + 1
    ensures !chat.isLoading
  {
    RoleCountsPartition(chat.messages);
  }
}
