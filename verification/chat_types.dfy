/** The shapes of the widget's conversation data: messages, languages and the
    aggregate chat state. */
module ChatTypes {

  datatype Sender = Bot | User

  /** An entry of the language registry. */
  datatype Language = Language(code: string, name: string, flag: string)

  datatype Theme = Light | Dark

  /** Keys of the per-language translation table that conversation messages
      are drawn from. The table itself (and its fallback to English for an
      unknown code) is opaque to the model. */
  datatype Phrase =
    | Offline
    | RateLimited
    | SelectQuestion
    | ConnectingHuman
    | HumanConnected
    | ThanksFeedback
    | LanguageChanged
    | VoiceNotSupported
    | StillThere
    | NetworkError

  /** What a message says: either a fixed string written into the widget, or
      a phrase of the translation table looked up under a language code. */
  datatype Content = Literal(text: string) | Translated(phrase: Phrase, code: string)

  /** A chat message. The widget derives both the id and the timestamp from
      the clock reading taken when the message is added, so one instant
      `stamp` stands for both; `language` is the code the message is tagged
      with. */
  datatype Message = Message(stamp: int, content: Content, sender: Sender, language: string)

  datatype ChatState = ChatState(
    isOpen: bool,
    messages: seq<Message>,
    currentLanguage: Language,
    isTyping: bool,
    hasNewMessages: bool,
    theme: Theme)

  /** The state the widget starts in, with `first` the first registry entry. */
  function InitialChat(first: Language): ChatState {
    ChatState(false, [], first, false, false, Light)
  }

  /** The notification badge only ever points at a bot message: whenever
      `hasNewMessages` is set, the log is non-empty and its last message came
      from the bot. */
  predicate BadgeConsistent(s: ChatState) {
    s.hasNewMessages ==> |s.messages| > 0 && s.messages[|s.messages| - 1].sender == Bot
  }
}
