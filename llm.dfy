/**
 * rag_app_apis/utils.py, query_llm: send the system prompt and the user input
 * to the chat model and return its reply stripped, or a fixed apology when
 * anything raises. The chat model itself is outside the model: its answer to
 * the two messages arrives as a `Result<string>`.
 */
module Llm {
  import opened Common
  import opened PyStr

  const SystemPrompt: string := "You are an AI assistant that provides helpful responses."
  const FallbackReply: string := "Error processing request. Please try again later."

  /** The messages sent to the chat model. */
  datatype ChatMessage = System(content: string) | Human(content: string)

  /** The chat model: its reply to a list of messages, or the exception it raised. */
  type ChatModel = seq<ChatMessage> -> Result<string>

  /** What query_llm sends: the system prompt, then the user input. */
  function ChatMessages(userInput: string): seq<ChatMessage>
  {
    [System(SystemPrompt), Human(userInput)]
  }

  lemma FallbackIsStripped()
    ensures IsStripped(FallbackReply)
  {
    assert FallbackReply == "Error processing request." + " Please try again later.";
    assert FallbackReply[0] == 'E';
    assert FallbackReply[48] == '.';
  }

  /**
   * query_llm: the reply stripped, or the fallback text when the model raises.
   * Either way the answer has no whitespace at its ends.
   */
  function QueryLlm(llm: ChatModel, userInput: string): (r: string)
    ensures IsStripped(r)
    ensures llm(ChatMessages(userInput)).Ok? ==> r == Strip(llm(ChatMessages(userInput)).value)
    ensures llm(ChatMessages(userInput)).Raised? ==> r == FallbackReply
  {
    match llm(ChatMessages(userInput))
    case Ok(content) => Strip(content)
    case Raised(_) => FallbackIsStripped(); FallbackReply
  }

  /** A reply surrounded by whitespace comes back without it. */
  lemma QueryLlmDropsPadding(llm: ChatModel, userInput: string, before: string, content: string, after: string)
    requires llm(ChatMessages(userInput)) == Ok(before + content + after)
    requires AllSpace(before) && AllSpace(after) && IsStripped(content)
    ensures QueryLlm(llm, userInput) == content
  {
    StripOfPadded(before, content, after);
  }

  /** A model that answers with the fallback text cannot be told apart from a failing one. */
  lemma FallbackIsAmbiguous(llm: ChatModel, userInput: string)
    requires llm(ChatMessages(userInput)) == Ok(FallbackReply)
    ensures QueryLlm(llm, userInput) == FallbackReply
  {
    FallbackIsStripped();
    StripOfPadded([], FallbackReply, []);
    assert [] + FallbackReply + [] == FallbackReply;
  }
}
