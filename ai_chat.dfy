/** The support chat: the transcript, the input box and the "typing" flag;
    a send appends the user's message, asks the service with the earlier
    transcript as context, and appends exactly one reply or error message. */
module AIChat {
  import opened Wrappers
  import opened Types
  import opened Seqs
  import JsText
  import Fetch
  import GeminiService
  import Server

  const WelcomeText := "Hi, I'm your MindPulse assistant. I'm here to listen if you're feeling overwhelmed, stressed, or just need to chat. How are you feeling right now?"
  const ListeningText := "I'm listening. Could you tell me more?"
  const GenericErrorText := "I'm having trouble connecting right now. Please try again later."
  const MissingKeyText := "SYSTEM ERROR: API Key missing in server/.env file. The backend cannot call Gemini."
  const ConnectionErrorPrefix := "Connection Error: "

  /** `historyContext`: each message's role kept and its text wrapped as the only part. */
  function HistoryContext(messages: seq<ChatMessage>): (r: seq<HistoryMessage>)
    ensures |r| == |messages|
    ensures forall i :: 0 <= i < |r| ==> r[i].role == messages[i].role.Name() && r[i].parts == [messages[i].text]
  {
    Map(messages, (m: ChatMessage) => HistoryMessage(m.role.Name(), [m.text], ""))
  }

  /** The provider's role for a transcript message. */
  function ProviderRoleOf(role: ChatRole): string {
    match role
    case UserRole => "user"
    case ModelRole => "assistant"
  }

  /** The server turns the context the chat sends into the transcript itself,
      with `model` renamed `assistant`, followed by the new message. */
  lemma ContextReachesServerIntact(messages: seq<ChatMessage>, text: string)
    ensures var turns := Server.ChatTurns(Some(HistoryContext(messages)), text);
            && |turns| == |messages| + 1
            && (forall i :: 0 <= i < |messages| ==>
                  turns[i] == Server.Turn(ProviderRoleOf(messages[i].role), messages[i].text))
            && turns[|messages|] == Server.Turn("user", text)
  {
    var h := HistoryContext(messages);
    var turns := Server.ChatTurns(Some(h), text);
    forall i | 0 <= i < |messages|
      ensures turns[i] == Server.Turn(ProviderRoleOf(messages[i].role), messages[i].text)
    {
      assert h[i].parts == [messages[i].text];
      assert Server.Content(h[i]) == messages[i].text;
    }
  }

  /** The message shown for an error thrown by the service. */
  function ErrorText(message: string): (t: string)
    ensures message == GeminiService.MissingApiKey ==> t == MissingKeyText
    ensures message != GeminiService.MissingApiKey && message != "" ==> t == ConnectionErrorPrefix + message
    ensures message == "" ==> t == GenericErrorText
  {
    if message == GeminiService.MissingApiKey then MissingKeyText
    else if message != "" then ConnectionErrorPrefix + message
    else GenericErrorText
  }

  /** The model message appended for the service's outcome: the reply, the
      listening prompt for an empty or missing reply, or the error text. */
  function ReplyText(outcome: Result<Option<string>>): (t: string)
    ensures t != ""
    ensures outcome.Ok? && outcome.value.Some? && outcome.value.value != "" ==> t == outcome.value.value
    ensures outcome.Ok? && (outcome.value.None? || outcome.value.value == "") ==> t == ListeningText
    ensures outcome.Err? ==> t == ErrorText(outcome.message)
  {
    match outcome
    case Ok(reply) => if reply.Some? && reply.value != "" then reply.value else ListeningText
    case Err(message) => ErrorText(message)
  }

  /** A server without an API key answers 503, and the chat then shows the
      system-error text; any other failure is shown as a connection error. */
  lemma MissingKeyShownAsSystemError(response: Fetch.Response<GeminiService.ChatJson>)
    ensures response.Received? && response.status == 503 ==>
              ReplyText(GeminiService.GetChatResponse(response)) == MissingKeyText
    ensures response.Received? && !Fetch.IsOk(response.status) && response.status != 503 ==>
              var t := ReplyText(GeminiService.GetChatResponse(response));
              t == MissingKeyText || ConnectionErrorPrefix <= t
  {
  }

  /** What a send asks the service: the earlier transcript and the new text. */
  datatype ChatRequest = ChatRequest(history: seq<HistoryMessage>, message: string)

  class Chat {
    var messages: seq<ChatMessage>
    var input: string
    var isTyping: bool

    constructor ()
      ensures messages == [ChatMessage(ModelRole, WelcomeText)]
      ensures input == "" && !isTyping
    {
      messages := [ChatMessage(ModelRole, WelcomeText)];
      input := "";
      isTyping := false;
    }

    method SetInput(text: string)
      modifies this
      ensures input == text
      ensures messages == old(messages) && isTyping == old(isTyping)
    {
      input := text;
    }

    /** The send button is enabled, and the form submits, only for a
        non-blank input while no reply is pending. */
    predicate CanSend()
      reads this
    {
      JsText.Trim(input) != "" && !isTyping
    }

    /** The synchronous part of `handleSend`. */
    method BeginSend() returns (request: Option<ChatRequest>)
      modifies this
      ensures !old(CanSend()) ==> request.None? && messages == old(messages) && input == old(input) && isTyping == old(isTyping)
      ensures old(CanSend()) ==>
                && request == Some(ChatRequest(HistoryContext(old(messages)), old(input)))
                && messages == old(messages) + [ChatMessage(UserRole, old(input))]
                && input == ""
                && isTyping
    {
      if !CanSend() {
        return None;
      }
      request := Some(ChatRequest(HistoryContext(messages), input));
      messages := messages + [ChatMessage(UserRole, input)];
      input := "";
      isTyping := true;
    }

    /** The continuation of `handleSend` once the service settles. */
    method FinishSend(outcome: Result<Option<string>>)
      modifies this
      ensures messages == old(messages) + [ChatMessage(ModelRole, ReplyText(outcome))]
      ensures !isTyping && input == old(input)
    {
      messages := messages + [ChatMessage(ModelRole, ReplyText(outcome))];
      isTyping := false;
    }

    /** `handleSend`, given the chat endpoint's response: a handled send adds
        the user's message and then exactly one model message. */
    method HandleSend(response: Fetch.Response<GeminiService.ChatJson>) returns (request: Option<ChatRequest>)
      modifies this
      ensures request.Some? <==> old(CanSend())
      ensures request.None? ==> messages == old(messages) && input == old(input) && isTyping == old(isTyping)
      ensures request.Some? ==>
                && request.value == ChatRequest(HistoryContext(old(messages)), old(input))
                && messages == old(messages) + [ChatMessage(UserRole, old(input)),
                                                 ChatMessage(ModelRole, ReplyText(GeminiService.GetChatResponse(response)))]
                && input == ""
                && !isTyping
    {
      request := BeginSend();
      if request.Some? {
        FinishSend(GeminiService.GetChatResponse(response));
      }
    }
  }
}
