/** The conversation state of the chat page and `handleSendMessage`: a send
    appends the user's message at once, and a deferred callback later appends
    the coach's reply. The callback is the separate step `Complete`; the
    values its closure captured are handed to it as a `Pending` record. */
module Chat {
  import opened Text
  import opened Responder

  /** A chat message; the timestamp is not modelled. */
  datatype Message = Message(id: int, text: string, isUser: bool)

  /** What the deferred callback captured when the send was accepted: the input
      as it was (not trimmed) and the length of the message list before the
      user's message was added. */
  datatype Pending = Pending(captured: string, baseLength: nat)

  /** The result of a send: rejected (the blank-input notice), or accepted with
      a reply still to come. */
  datatype SendOutcome = Rejected | Scheduled(job: Pending)

  /** The greeting the conversation starts with. */
  const Greeting: string :=
    "Hello! 👋 I'm your Personal Health Coach. I'm here to help you on your wellness journey. Whether you want to improve your nutrition, build better exercise habits, sleep better, or manage stress, I'm here to support you.\n\n" +
    "How can I help you today?"

  /** Every message's id is its 1-based position in the list. */
  predicate IdsArePositions(messages: seq<Message>) {
    forall i :: 0 <= i < |messages| ==> messages[i].id == i + 1
  }

  /** Appending a message whose id is the new length keeps ids equal to positions. */
  lemma AppendNextId(messages: seq<Message>, m: Message)
    requires IdsArePositions(messages) && m.id == |messages| + 1
    ensures IdsArePositions(messages + [m])
  {
  }

  /** Appending two messages one after the other, with ids the next two
      positions, gives the list extended by both and keeps ids equal to
      positions. */
  lemma TwoAppended(messages: seq<Message>, m1: Message, m2: Message)
    ensures messages + [m1] + [m2] == messages + [m1, m2]
    ensures IdsArePositions(messages) && m1.id == |messages| + 1 && m2.id == |messages| + 2 ==>
      IdsArePositions(messages + [m1, m2])
  {
    if IdsArePositions(messages) && m1.id == |messages| + 1 && m2.id == |messages| + 2 {
      AppendNextId(messages, m1);
      AppendNextId(messages + [m1], m2);
    }
  }

  class ChatSession {
    var messages: seq<Message>
    var input: string
    var isTyping: bool

    /** The initial state: the greeting alone, with id 1, an empty input box
        and no reply pending. */
    constructor ()
      ensures messages == [Message(1, Greeting, false)]
      ensures input == "" && !isTyping
      ensures IdsArePositions(messages)
    {
      messages := [Message(1, Greeting, false)];
      input := "";
      isTyping := false;
    }

    /** The input box's change handler (and the quick-action buttons): the
        typed text replaces the input; nothing else changes. */
    method SetInput(text: string)
      modifies this
      ensures input == text
      ensures messages == old(messages) && isTyping == old(isTyping)
    {
      input := text;
    }

    /** `handleSendMessage` up to the deferred callback. Blank input is rejected
        and nothing changes. Otherwise the untrimmed input is appended as a user
        message whose id is the list's old length plus one, the input is
        cleared, typing is shown, and the input and the old length are
        captured for the reply. */
    method Send() returns (outcome: SendOutcome)
      modifies this
      ensures outcome.Rejected? <==> IsBlank(old(input))
      ensures outcome.Rejected? ==>
        messages == old(messages) && input == old(input) && isTyping == old(isTyping)
      ensures outcome.Scheduled? ==>
        outcome.job == Pending(old(input), |old(messages)|) &&
        messages == old(messages) + [Message(|old(messages)| + 1, old(input), true)] &&
        input == "" && isTyping
      ensures IdsArePositions(old(messages)) ==> IdsArePositions(messages)
    {
      if IsBlank(input) {
        outcome := Rejected;
        return;
      }
      var userMessage := Message(|messages| + 1, input, true);
      outcome := Scheduled(Pending(input, |messages|));
      if IdsArePositions(messages) {
        AppendNextId(messages, userMessage);
      }
      messages := messages + [userMessage];
      input := "";
      isTyping := true;
    }

    /** The deferred callback: appends the coach's reply to the captured input,
        with id the captured length plus two, and hides the typing indicator.
        The input box is left as it is (it is outside the frame). */
    method Complete(job: Pending)
      modifies this`messages, this`isTyping
      ensures messages == old(messages) + [Message(job.baseLength + 2, Respond(job.captured), false)]
      ensures !isTyping
      ensures IdsArePositions(old(messages)) && |old(messages)| == job.baseLength + 1 ==>
        IdsArePositions(messages)
    {
      var reply := Message(job.baseLength + 2, Respond(job.captured), false);
      if IdsArePositions(messages) && |messages| == job.baseLength + 1 {
        AppendNextId(messages, reply);
      }
      messages := messages + [reply];
      isTyping := false;
    }

    /** One exchange as the page allows it (its controls are disabled while a
        reply is pending): typing a non-blank `text`, sending it and letting the
        reply arrive before anything else happens appends exactly the user's
        message and then the reply and leaves the input empty; when ids were
        positions before, they still are. */
    method Exchange(text: string)
      requires !IsBlank(text)
      modifies this
      ensures messages == old(messages) + [
        Message(|old(messages)| + 1, text, true),
        Message(|old(messages)| + 2, Respond(text), false)]
      ensures IdsArePositions(old(messages)) ==> IdsArePositions(messages)
      ensures input == "" && !isTyping
    {
      ghost var start := messages;
      SetInput(text);
      var outcome := Send();
      assert outcome.job == Pending(text, |start|);
      Complete(outcome.job);
      TwoAppended(start, Message(|start| + 1, text, true), Message(|start| + 2, Respond(text), false));
    }
  }
}
