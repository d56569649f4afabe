/**
 * The customization assistant's chat in the studio customize form
 * (`handleChatSubmit`): a non-blank message sent while no reply is awaited
 * is appended as the user's, the input is cleared, and exactly one
 * assistant message follows — the assistant's answer, or a fixed apology
 * when the call throws. The conversation therefore alternates user,
 * assistant, user, … and reads as a list of question/answer pairs.
 */
module AssistantChat {
  import opened Wrappers
  import opened Text
  import opened Types

  datatype Role = User | Assistant

  datatype ChatMessage = ChatMessage(role: Role, content: string)

  const Apology := "Sorry, I'm having trouble connecting. Please try again later."

  /** How the call to `customizationAssistant` ends: with a reply, or by throwing. */
  datatype Outcome = Replied(text: string) | Threw

  /** What is sent to the assistant: the message and three fields of the profile. */
  datatype Request = Request(prompt: string, username: Option<string>, bio: Option<string>, accentColor: Option<string>)

  /** The assistant message an outcome appends. */
  function AnswerText(outcome: Outcome): string {
    match outcome
    case Replied(t) => t
    case Threw => Apology
  }

  /**
   * Messages alternate user, assistant, user, …, and their count is odd
   * exactly while a reply is awaited.
   */
  predicate Alternates(ms: seq<ChatMessage>, loading: bool) {
    && (forall i :: 0 <= i < |ms| ==> ms[i].role == (if i % 2 == 0 then User else Assistant))
    && |ms| % 2 == (if loading then 1 else 0)
  }

  /** In a settled conversation every user message is answered by the very next message. */
  lemma UserMessagesAnswered(ms: seq<ChatMessage>, i: nat)
    requires Alternates(ms, false) && i < |ms| && ms[i].role == User
    ensures i + 1 < |ms| && ms[i + 1].role == Assistant
  {
  }

  /** A settled conversation as question/answer pairs. */
  function Pairs(ms: seq<ChatMessage>): (ps: seq<(string, string)>)
    requires Alternates(ms, false)
    ensures |ps| * 2 == |ms|
    ensures forall k :: 0 <= k < |ps| ==> ps[k] == (ms[2 * k].content, ms[2 * k + 1].content)
    decreases |ms|
  {
    if ms == [] then []
    else
      var rest := ms[2..];
      assert forall i :: 0 <= i < |rest| ==> rest[i] == ms[i + 2];
      [(ms[0].content, ms[1].content)] + Pairs(rest)
  }

  /** One exchange adds one pair: the message sent and the answer shown. */
  lemma {:induction false} ExchangeAddsPair(ms: seq<ChatMessage>, prompt: string, answer: string)
    requires Alternates(ms, false)
    ensures Alternates(ms + [ChatMessage(User, prompt)], true)
    ensures Alternates(ms + [ChatMessage(User, prompt), ChatMessage(Assistant, answer)], false)
    ensures Pairs(ms + [ChatMessage(User, prompt), ChatMessage(Assistant, answer)]) == Pairs(ms) + [(prompt, answer)]
  {
    var ms' := ms + [ChatMessage(User, prompt), ChatMessage(Assistant, answer)];
    assert |ms'| == |ms| + 2;
    var ps := Pairs(ms');
    var qs := Pairs(ms) + [(prompt, answer)];
    assert |ps| == |qs|;
    forall k | 0 <= k < |ps| ensures ps[k] == qs[k] {
      if k < |Pairs(ms)| {
        assert ms'[2 * k] == ms[2 * k] && ms'[2 * k + 1] == ms[2 * k + 1];
      } else {
        assert 2 * k == |ms|;
      }
    }
  }

  class AssistantChat {
    /** The profile the page was rendered with. */
    const profile: Profile
    var messages: seq<ChatMessage>
    /** The input's text (`currentMessage`). */
    var current: string
    /** `isAssistantLoading`. */
    var loading: bool

    constructor (profile: Profile)
      ensures this.profile == profile
      ensures messages == [] && current == "" && !loading
      ensures Alternates(messages, loading)
    {
      this.profile := profile;
      messages := [];
      current := "";
      loading := false;
    }

    /** Typing in the input, which is disabled while a reply is awaited. */
    method Type(text: string)
      requires !loading
      modifies this
      ensures current == text && messages == old(messages) && !loading
    {
      current := text;
    }

    /**
     * `handleChatSubmit` up to the call: ignored for a blank message or
     * while loading; otherwise the user's message is appended, the input
     * cleared, loading set, and the request built from the message typed.
     */
    method Submit() returns (request: Option<Request>)
      modifies this
      ensures IsBlank(old(current)) || old(loading) ==> request.None? && unchanged(this)
      ensures !IsBlank(old(current)) && !old(loading) ==>
        && request == Some(Request(old(current), profile.username, profile.bio, profile.accent_color))
        && messages == old(messages) + [ChatMessage(User, old(current))]
        && current == "" && loading
      ensures Alternates(old(messages), old(loading)) ==> Alternates(messages, loading)
    {
      if IsBlank(current) || loading {
        return None;
      }
      request := Some(Request(current, profile.username, profile.bio, profile.accent_color));
      messages := messages + [ChatMessage(User, current)];
      current := "";
      loading := true;
    }

    /** The call ends: exactly one assistant message is appended and loading is reset. */
    method Answered(outcome: Outcome)
      requires loading
      modifies this
      ensures messages == old(messages) + [ChatMessage(Assistant, AnswerText(outcome))]
      ensures outcome.Threw? ==> messages[|messages| - 1].content == Apology
      ensures current == old(current) && !loading
      ensures Alternates(old(messages), true) ==> Alternates(messages, false)
    {
      messages := messages + [ChatMessage(Assistant, AnswerText(outcome))];
      loading := false;
    }
  }

  /**
   * A full exchange from a settled conversation: the conversation gains
   * exactly the pair (message typed, answer) and is settled again.
   */
  method Exchange(chat: AssistantChat, outcome: Outcome) returns (request: Request)
    requires Alternates(chat.messages, chat.loading) && !chat.loading && !IsBlank(chat.current)
    modifies chat
    ensures request.prompt == old(chat.current)
    ensures Alternates(chat.messages, chat.loading) && !chat.loading && chat.current == ""
    ensures Pairs(chat.messages) == Pairs(old(chat.messages)) + [(old(chat.current), AnswerText(outcome))]
  {
    var sent := chat.Submit();
    request := sent.value;
    chat.Answered(outcome);
    ExchangeAddsPair(old(chat.messages), old(chat.current), AnswerText(outcome));
  }
}
