/**
 * The chat window of `components/Chatbot.tsx`: a log of messages that starts with one
 * greeting from the model, an input line, and a loading flag. A send that passes its guard
 * logs the question, waits for the chat session, and logs exactly one answer: the reply
 * text, or a scripted apology chosen from what the session threw.
 */
module Chatbot {
  import opened Wrappers
  import opened Js
  import opened Types

  const Greeting := "Hello! I am RiskBot, your AI assistant. Ask me anything about the extracted data from the document."
  const GenericErrorText := "Sorry, I encountered an error. Please try again."
  const OverloadedErrorText := "The AI assistant is currently overloaded. Please wait a moment before sending your message again."

  /** The log a freshly mounted window shows. */
  const InitialMessages: seq<ChatMessage> := [ChatMessage(Model, Greeting)]

  /** What `sendMessage` did: resolved with a reply text, or threw. */
  datatype Reply = Answered(text: string) | Failed(err: Thrown)

  /** The words in an error's `toString()` that mark an overloaded service. */
  predicate SaysOverloaded(s: string) {
    Contains(s, "503") || Contains(s, "UNAVAILABLE") || Contains(s, "overloaded")
  }

  /** The apology logged for a failed send. */
  function ErrorReplyText(err: Thrown): string {
    if err.ErrorInstance? && SaysOverloaded(ErrorToString(err.name, err.message)) then OverloadedErrorText
    else GenericErrorText
  }

  /**
   * The "overloaded" text is chosen exactly for an `Error` whose `toString()` mentions
   * `503`, `UNAVAILABLE` or `overloaded`; every other thrown value gets the generic apology.
   */
  lemma ErrorReplyTextIff(err: Thrown)
    ensures ErrorReplyText(err) == OverloadedErrorText
            <==> err.ErrorInstance? && SaysOverloaded(ErrorToString(err.name, err.message))
    ensures ErrorReplyText(err) == OverloadedErrorText || ErrorReplyText(err) == GenericErrorText
  {
    assert |OverloadedErrorText| != |GenericErrorText|;
  }

  /** In particular an `Error` whose message mentions `503` is reported as an overload. */
  lemma ServiceUnavailableIsOverload(name: string, message: string)
    requires Contains(message, "503")
    ensures ErrorReplyText(ErrorInstance(name, message)) == OverloadedErrorText
  {
    ErrorToStringKeepsMessage(name, message, "503");
  }

  /** The text of the model message a send logs. */
  function ReplyText(reply: Reply): string {
    match reply
    case Answered(text) => text
    case Failed(err) => ErrorReplyText(err)
  }

  class ChatWindow {
    var messages: seq<ChatMessage>
    var input: string
    var isLoading: bool
    var isOpen: bool
    /** Whether `chatRef.current` holds a session: it is created only when there is an API key. */
    var hasSession: bool

    /** Mounting, with the session effect run once: the greeting, an empty input, idle. */
    constructor (apiKey: Option<string>)
      ensures messages == InitialMessages
      ensures input == "" && !isLoading && !isOpen
      ensures hasSession <==> TruthyText(apiKey)
    {
      messages := InitialMessages;
      input := "";
      isLoading := false;
      isOpen := false;
      hasSession := TruthyText(apiKey);
    }

    /** The floating button opens and closes the window. */
    method ToggleOpen()
      modifies this`isOpen
      ensures isOpen == !old(isOpen)
    {
      isOpen := !isOpen;
    }

    /** Typing into the input line. */
    method SetInput(text: string)
      modifies this`input
      ensures input == text
    {
      input := text;
    }

    /** The guard of `handleSendMessage`: a non-blank input, no reply pending, a session. */
    predicate CanSend()
      reads this
    {
      Trim(input) != "" && !isLoading && hasSession
    }

    /**
     * The synchronous part of `handleSendMessage`: when the guard fails nothing changes;
     * otherwise the question is logged, the input cleared and loading set.
     */
    method BeginSend() returns (question: Option<string>)
      modifies this`messages, this`input, this`isLoading
      ensures question.Some? <==> old(CanSend())
      ensures question.None? ==> unchanged(this)
      ensures question.Some? ==>
                && question.value == old(input)
                && messages == old(messages) + [ChatMessage(User, old(input))]
                && input == "" && isLoading
    {
      if Trim(input) == "" || isLoading || !hasSession {
        return None;
      }
      question := Some(input);
      messages := messages + [ChatMessage(User, input)];
      input := "";
      isLoading := true;
    }

    /**
     * The part after the `await`: the reply or the apology is logged and loading cleared,
     * whatever the session did.
     */
    method CompleteSend(reply: Reply)
      modifies this`messages, this`isLoading
      ensures messages == old(messages) + [ChatMessage(Model, ReplyText(reply))]
      ensures !isLoading
    {
      match reply {
        case Answered(text) =>
          messages := messages + [ChatMessage(Model, text)];
        case Failed(err) =>
          var errorMessageText := GenericErrorText;
          if err.ErrorInstance? {
            var message := ErrorToString(err.name, err.message);
            if Contains(message, "503") || Contains(message, "UNAVAILABLE") || Contains(message, "overloaded") {
              errorMessageText := OverloadedErrorText;
            }
          }
          messages := messages + [ChatMessage(Model, errorMessageText)];
      }
      isLoading := false;
    }

    /**
     * `handleSendMessage` run to completion; `chat` is the session, answering a question.
     * An accepted send grows the log by exactly two messages, the question and then one
     * answer, and leaves everything logged before untouched.
     */
    method HandleSendMessage(chat: string -> Reply) returns (accepted: bool)
      modifies this`messages, this`input, this`isLoading
      ensures accepted <==> old(CanSend())
      ensures !accepted ==> unchanged(this)
      ensures accepted ==>
                && messages == old(messages) + [ChatMessage(User, old(input)), ChatMessage(Model, ReplyText(chat(old(input))))]
                && input == "" && !isLoading
    {
      var question := BeginSend();
      if question.None? {
        return false;
      }
      CompleteSend(chat(question.value));
      accepted := true;
    }
  }
}
