/** The chat widget's event handlers as pure transitions over an immutable
    `Widget`. Clock readings (`now`, milliseconds), the browser's online flag
    and the presence of a speech recogniser are passed in. A handler returns
    the new widget together with the deferred callbacks (`Timer`s) it
    schedules; a deferred callback runs only when `Fire` is applied to it. */
module Chatbot {
  import opened Text
  import opened ChatTypes
  import opened Conversation
  import opened Replies

  /** The chat state plus the widget's session-local flags. */
  datatype Widget = Widget(
    chat: ChatState,
    input: string,
    showFeedback: bool,
    showQuestions: bool,
    networkError: bool,
    isListening: bool,
    connectedToHuman: bool,
    lastMessageTime: int)

  function Initial(first: Language): Widget {
    Widget(InitialChat(first), "", false, false, false, false, false, 0)
  }

  /** Minimum gap, in milliseconds, between two accepted sends. */
  const RateLimitMs := 1000

  const WelcomeText := "Hello! I'm LinguaBot, your AI assistant. How can I help you today?"
  const LanguageHintText := "You can change the language using the globe icon in the header above."
  const FollowUpText := "Is there anything else I can help you with today?"

  /** A deferred callback. `code` is the language code current when it was
      scheduled: the callback adds its message through the handler of that
      moment, so the message is tagged (and its phrase looked up) with that
      code. */
  datatype Timer =
    | Welcome(code: string)                                // 500 ms after opening
    | Reply(userMessage: string, code: string)             // 1 to 3 s after a send while online
    | LanguageConfirmation(newCode: string, code: string)  // 300 ms after a language change
    | HumanJoined(code: string)                            // 2000 ms after asking for a human
    | QuestionSend(question: string, code: string)         // 100 ms after picking a common question
    | FollowUp(code: string)                               // 1000 ms after feedback

  datatype Outcome = Outcome(after: Widget, scheduled: seq<Timer>)

  /** `b` is a possible successor of `a`: the log only grows, the badge keeps
      pointing at a bot message, and the feedback panel is never switched on. */
  predicate Evolves(a: Widget, b: Widget) {
    && a.chat.messages <= b.chat.messages
    && (BadgeConsistent(a.chat) ==> BadgeConsistent(b.chat))
    && (b.showFeedback ==> a.showFeedback)
  }

  lemma EvolvesTransitive(a: Widget, b: Widget, c: Widget)
    requires Evolves(a, b) && Evolves(b, c)
    ensures Evolves(a, c)
  {
  }

  /** Add a message to the widget's chat and change nothing else. */
  function Post(w: Widget, content: Content, sender: Sender, now: int, code: string): (r: Widget)
    ensures Appended(w.chat, r.chat, Message(now, content, sender, code))
    ensures r.(chat := w.chat) == w
    ensures Evolves(w, r)
  {
    w.(chat := AddMessage(w.chat, content, sender, now, code))
  }

  /** `toggleChat`: flip the panel; opening schedules the welcome message. */
  function ToggleChat(w: Widget): (r: Outcome)
    ensures r.after.chat.isOpen == !w.chat.isOpen
    ensures w.chat.isOpen ==> !r.after.chat.hasNewMessages && r.scheduled == []
    ensures !w.chat.isOpen ==>
              r.after.chat.hasNewMessages == w.chat.hasNewMessages
              && r.scheduled == [Welcome(w.chat.currentLanguage.code)]
    ensures r.after.chat.messages == w.chat.messages
    ensures r.after.chat.isTyping == w.chat.isTyping
    ensures r.after.chat.currentLanguage == w.chat.currentLanguage
    ensures r.after.chat.theme == w.chat.theme
    ensures r.after.(chat := w.chat) == w
    ensures Evolves(w, r.after)
  {
    Outcome(w.(chat := Toggle(w.chat)),
            if w.chat.isOpen then [] else [Welcome(w.chat.currentLanguage.code)])
  }

  /** The start of `simulateBotResponse`: show the typing indicator; when the
      browser is offline, hide it again at once and post the offline phrase
      without consulting the reply selector; otherwise schedule the reply. */
  function BeginResponse(w: Widget, userMessage: string, now: int, online: bool, code: string): (r: Outcome)
    ensures online ==>
              && r.after.chat == w.chat.(isTyping := true)
              && r.scheduled == [Reply(userMessage, code)]
    ensures !online ==>
              && Appended(w.chat.(isTyping := false), r.after.chat, Message(now, Translated(Offline, code), Bot, code))
              && r.scheduled == []
    ensures r.after.(chat := w.chat) == w
    ensures r.after.chat.isOpen == w.chat.isOpen
    ensures r.after.chat.currentLanguage == w.chat.currentLanguage
    ensures Evolves(w, r.after)
  {
    var typing := w.(chat := SetTyping(w.chat, true));
    if !online then
      var idle := typing.(chat := SetTyping(typing.chat, false));
      Outcome(Post(idle, Translated(Offline, code), Bot, now, code), [])
    else
      Outcome(typing, [Reply(userMessage, code)])
  }

  /** The end of `simulateBotResponse`, after the simulated delay: hide the
      typing indicator and post the keyword-selected reply. The handoff flag
      is not consulted. */
  function DeliverReply(w: Widget, userMessage: string, now: int, code: string): (r: Widget)
    ensures Appended(w.chat.(isTyping := false), r.chat,
                     Message(now, Literal(ReplyText(SelectReply(userMessage))), Bot, code))
    ensures !r.networkError
    ensures r.(chat := w.chat, networkError := w.networkError) == w
    ensures Evolves(w, r)
  {
    var idle := w.(chat := SetTyping(w.chat, false));
    var response := SelectReply(userMessage);
    Post(idle, Literal(ReplyText(response)), Bot, now, code).(networkError := false)
  }

  /** The accepted branch of `handleSendMessage`: record the clock reading,
      clear the input, hide the question list, post the trimmed input as a
      user message and begin the response. */
  function AcceptSend(w: Widget, now: int, online: bool): (r: Outcome)
    ensures r.after.lastMessageTime == now
    ensures r.after.input == ""
    ensures !r.after.showQuestions
    ensures var code := w.chat.currentLanguage.code;
            var sent := Message(now, Literal(Trim(w.input)), User, code);
            online ==>
              && r.after.chat == w.chat.(messages := w.chat.messages + [sent], isTyping := true, hasNewMessages := false)
              && r.scheduled == [Reply(Trim(w.input), code)]
    ensures var code := w.chat.currentLanguage.code;
            var sent := Message(now, Literal(Trim(w.input)), User, code);
            !online ==>
              && r.after.chat == w.chat.(messages := w.chat.messages + [sent, Message(now, Translated(Offline, code), Bot, code)],
                                         isTyping := false, hasNewMessages := !w.chat.isOpen)
              && r.scheduled == []
    ensures r.after.(input := w.input, showQuestions := w.showQuestions,
                     lastMessageTime := w.lastMessageTime, chat := w.chat) == w
    ensures r.after.chat.isOpen == w.chat.isOpen
    ensures r.after.chat.currentLanguage == w.chat.currentLanguage
    ensures Evolves(w, r.after)
  {
    var code := w.chat.currentLanguage.code;
    var message := Trim(w.input);
    var accepted := w.(lastMessageTime := now, input := "", showQuestions := false);
    var posted := Post(accepted, Literal(message), User, now, code);
    var r := BeginResponse(posted, message, now, online, code);
    EvolvesTransitive(w, posted, r.after);
    r
  }

  /** `handleSendMessage`. Nothing happens when the trimmed input is empty.
      Within `RateLimitMs` of the last accepted send, only the rate-limit
      phrase is posted and nothing else changes. Otherwise the send is
      accepted. */
  function HandleSendMessage(w: Widget, now: int, online: bool): (r: Outcome)
    ensures AllSpace(w.input) ==> r == Outcome(w, [])
    ensures !AllSpace(w.input) && now - w.lastMessageTime < RateLimitMs ==>
              var code := w.chat.currentLanguage.code;
              && Appended(w.chat, r.after.chat, Message(now, Translated(RateLimited, code), Bot, code))
              && r.after.(chat := w.chat) == w
              && r.scheduled == []
    ensures !AllSpace(w.input) && now - w.lastMessageTime >= RateLimitMs ==> r == AcceptSend(w, now, online)
    ensures r.after.chat.isOpen == w.chat.isOpen
    ensures r.after.chat.currentLanguage == w.chat.currentLanguage
    ensures Evolves(w, r.after)
  {
    var code := w.chat.currentLanguage.code;
    if Trim(w.input) == [] then
      Outcome(w, [])
    else if now - w.lastMessageTime < RateLimitMs then
      Outcome(Post(w, Translated(RateLimited, code), Bot, now, code), [])
    else
      AcceptSend(w, now, online)
  }

  /** The send button is enabled when the trimmed input is non-empty and the
      widget is neither typing nor listening. */
  predicate SendEnabled(w: Widget) {
    Trim(w.input) != [] && !w.chat.isTyping && !w.isListening
  }

  /** Pressing an enabled send button always posts something. */
  lemma EnabledSendPosts(w: Widget, now: int, online: bool)
    requires SendEnabled(w)
    ensures |HandleSendMessage(w, now, online).after.chat.messages| > |w.chat.messages|
  {
  }

  /** `handleLanguageChange`: switch language at once and schedule the
      confirmation phrase in the new language. */
  function HandleLanguageChange(w: Widget, lang: Language): (r: Outcome)
    ensures r.after.chat.currentLanguage == lang
    ensures r.after.chat.messages == w.chat.messages
    ensures r.scheduled == [LanguageConfirmation(lang.code, w.chat.currentLanguage.code)]
    ensures r.after.(chat := w.chat) == w
    ensures r.after.chat.(currentLanguage := w.chat.currentLanguage) == w.chat
    ensures Evolves(w, r.after)
  {
    Outcome(w.(chat := SetLanguage(w.chat, lang)),
            [LanguageConfirmation(lang.code, w.chat.currentLanguage.code)])
  }

  /** `handleVoiceInput`: without a recogniser post the not-supported phrase;
      otherwise start or stop listening. */
  function HandleVoiceInput(w: Widget, recognizerPresent: bool, now: int): (r: Widget)
    ensures !recognizerPresent ==>
              var code := w.chat.currentLanguage.code;
              && Appended(w.chat, r.chat, Message(now, Translated(VoiceNotSupported, code), Bot, code))
              && r.(chat := w.chat) == w
    ensures recognizerPresent ==> r == w.(isListening := !w.isListening)
    ensures r.chat.isOpen == w.chat.isOpen
    ensures Evolves(w, r)
  {
    var code := w.chat.currentLanguage.code;
    if !recognizerPresent then
      Post(w, Translated(VoiceNotSupported, code), Bot, now, code)
    else if w.isListening then
      w.(isListening := false)
    else
      w.(isListening := true)
  }

  /** With a recogniser present, pressing the microphone twice restores the
      widget. */
  lemma VoiceToggleTwice(w: Widget, now: int, later: int)
    ensures HandleVoiceInput(HandleVoiceInput(w, true, now), true, later) == w
  {
  }

  /** The recogniser's result callback: the transcript replaces the input. */
  function Recognized(w: Widget, transcript: string): (r: Widget)
    ensures r.input == transcript && !r.isListening
    ensures r.(input := w.input, isListening := w.isListening) == w
    ensures Evolves(w, r)
  {
    w.(input := transcript, isListening := false)
  }

  /** The recogniser's error callback: stop listening and post the
      not-supported phrase. */
  function RecognitionFailed(w: Widget, now: int): (r: Widget)
    ensures !r.isListening
    ensures var code := w.chat.currentLanguage.code;
            Appended(w.chat, r.chat, Message(now, Translated(VoiceNotSupported, code), Bot, code))
    ensures r.(isListening := w.isListening, chat := w.chat) == w
    ensures r.chat.isOpen == w.chat.isOpen
    ensures Evolves(w, r)
  {
    var code := w.chat.currentLanguage.code;
    Post(w.(isListening := false), Translated(VoiceNotSupported, code), Bot, now, code)
  }

  /** The recogniser's end callback: stop listening. */
  function RecognitionEnded(w: Widget): (r: Widget)
    ensures !r.isListening
    ensures r.(isListening := w.isListening) == w
    ensures Evolves(w, r)
  {
    w.(isListening := false)
  }

  /** `handleQuickAction`: "common" shows the question list, "language" posts
      a hint, "human" raises the handoff flag, posts the connecting phrase and
      schedules the connected phrase; any other action does nothing. */
  function HandleQuickAction(w: Widget, action: string, now: int): (r: Outcome)
    ensures var code := w.chat.currentLanguage.code;
            action == "common" ==>
              && r.after.showQuestions
              && Appended(w.chat, r.after.chat, Message(now, Translated(SelectQuestion, code), Bot, code))
              && r.after.(showQuestions := w.showQuestions, chat := w.chat) == w
              && r.scheduled == []
    ensures var code := w.chat.currentLanguage.code;
            action == "language" ==>
              && Appended(w.chat, r.after.chat, Message(now, Literal(LanguageHintText), Bot, code))
              && r.after.(chat := w.chat) == w
              && r.scheduled == []
    ensures var code := w.chat.currentLanguage.code;
            action == "human" ==>
              && r.after.connectedToHuman
              && Appended(w.chat, r.after.chat, Message(now, Translated(ConnectingHuman, code), Bot, code))
              && r.after.(connectedToHuman := w.connectedToHuman, chat := w.chat) == w
              && r.scheduled == [HumanJoined(code)]
    ensures action != "common" && action != "language" && action != "human" ==> r == Outcome(w, [])
    ensures r.after.chat.isOpen == w.chat.isOpen
    ensures Evolves(w, r.after)
  {
    var code := w.chat.currentLanguage.code;
    if action == "common" then
      Outcome(Post(w.(showQuestions := true), Translated(SelectQuestion, code), Bot, now, code), [])
    else if action == "language" then
      Outcome(Post(w, Literal(LanguageHintText), Bot, now, code), [])
    else if action == "human" then
      Outcome(Post(w.(connectedToHuman := true), Translated(ConnectingHuman, code), Bot, now, code),
              [HumanJoined(code)])
    else
      Outcome(w, [])
  }

  /** `handleQuestionSelect`: hide the list, copy the question into the input
      and schedule its sending. */
  function HandleQuestionSelect(w: Widget, question: string): (r: Outcome)
    ensures !r.after.showQuestions && r.after.input == question
    ensures r.after.(showQuestions := w.showQuestions, input := w.input) == w
    ensures r.scheduled == [QuestionSend(question, w.chat.currentLanguage.code)]
    ensures Evolves(w, r.after)
  {
    Outcome(w.(showQuestions := false, input := question),
            [QuestionSend(question, w.chat.currentLanguage.code)])
  }

  /** `handleFeedback`: hide the feedback panel, thank the user and schedule
      the follow-up question. The rating and comment are only logged to the
      console, which is not modelled. */
  function HandleFeedback(w: Widget, rating: int, comment: string, now: int): (r: Outcome)
    ensures !r.after.showFeedback
    ensures var code := w.chat.currentLanguage.code;
            Appended(w.chat, r.after.chat, Message(now, Translated(ThanksFeedback, code), Bot, code))
    ensures r.after.(showFeedback := w.showFeedback, chat := w.chat) == w
    ensures r.scheduled == [FollowUp(w.chat.currentLanguage.code)]
    ensures r.after.chat.isOpen == w.chat.isOpen
    ensures Evolves(w, r.after)
  {
    var code := w.chat.currentLanguage.code;
    Outcome(Post(w.(showFeedback := false), Translated(ThanksFeedback, code), Bot, now, code), [FollowUp(code)])
  }

  /** The inactivity timer elapsing: while the panel is open and the log is
      non-empty, ask whether the user is still there. */
  function InactivityElapsed(w: Widget, now: int): (r: Widget)
    ensures w.chat.isOpen && |w.chat.messages| > 0 ==>
              var code := w.chat.currentLanguage.code;
              Appended(w.chat, r.chat, Message(now, Translated(StillThere, code), Bot, code))
    ensures !(w.chat.isOpen && |w.chat.messages| > 0) ==> r == w
    ensures r.(chat := w.chat) == w
    ensures r.chat.isOpen == w.chat.isOpen
    ensures Evolves(w, r)
  {
    if w.chat.isOpen && |w.chat.messages| > 0 then
      var code := w.chat.currentLanguage.code;
      Post(w, Translated(StillThere, code), Bot, now, code)
    else
      w
  }

  /** The deferred part of `handleQuestionSelect`: post the question as a
      user message and begin the response. Neither the rate limit nor the
      input box is involved. */
  function SendQuestion(w: Widget, question: string, now: int, online: bool, code: string): (r: Outcome)
    ensures var sent := Message(now, Literal(question), User, code);
            online ==>
              && r.after.chat == w.chat.(messages := w.chat.messages + [sent], isTyping := true, hasNewMessages := false)
              && r.scheduled == [Reply(question, code)]
    ensures var sent := Message(now, Literal(question), User, code);
            !online ==>
              && r.after.chat == w.chat.(messages := w.chat.messages + [sent, Message(now, Translated(Offline, code), Bot, code)],
                                         isTyping := false, hasNewMessages := !w.chat.isOpen)
              && r.scheduled == []
    ensures r.after.(chat := w.chat) == w
    ensures r.after.chat.isOpen == w.chat.isOpen
    ensures Evolves(w, r.after)
  {
    var posted := Post(w, Literal(question), User, now, code);
    var r := BeginResponse(posted, question, now, online, code);
    EvolvesTransitive(w, posted, r.after);
    r
  }

  /** Run a deferred callback at time `now`, with `online` the browser's
      connectivity at that moment (consulted only by a question send). */
  function Fire(w: Widget, t: Timer, now: int, online: bool): (r: Outcome)
    ensures t.Welcome? ==>
              Appended(w.chat, r.after.chat, Message(now, Literal(WelcomeText), Bot, t.code))
    ensures t.Reply? ==> r.after == DeliverReply(w, t.userMessage, now, t.code) && r.scheduled == []
    ensures t.LanguageConfirmation? ==>
              Appended(w.chat, r.after.chat, Message(now, Translated(LanguageChanged, t.newCode), Bot, t.code))
    ensures t.HumanJoined? ==>
              Appended(w.chat, r.after.chat, Message(now, Translated(HumanConnected, t.code), Bot, t.code))
    ensures t.QuestionSend? ==> r == SendQuestion(w, t.question, now, online, t.code)
    ensures t.FollowUp? ==>
              Appended(w.chat, r.after.chat, Message(now, Literal(FollowUpText), Bot, t.code))
    ensures !t.QuestionSend? && !t.Reply? ==> r.after.(chat := w.chat) == w && r.scheduled == []
    ensures r.after.chat.isOpen == w.chat.isOpen
    ensures Evolves(w, r.after)
  {
    match t
    case Welcome(code) => Outcome(Post(w, Literal(WelcomeText), Bot, now, code), [])
    case Reply(userMessage, code) => Outcome(DeliverReply(w, userMessage, now, code), [])
    case LanguageConfirmation(newCode, code) =>
      Outcome(Post(w, Translated(LanguageChanged, newCode), Bot, now, code), [])
    case HumanJoined(code) => Outcome(Post(w, Translated(HumanConnected, code), Bot, now, code), [])
    case QuestionSend(question, code) => SendQuestion(w, question, now, online, code)
    case FollowUp(code) => Outcome(Post(w, Literal(FollowUpText), Bot, now, code), [])
  }

  /** Everything that can happen to the widget. */
  datatype Event =
    | ToggleClicked
    | Typed(text: string)
    | SendPressed(now: int, online: bool)
    | LanguagePicked(lang: Language)
    | MicClicked(recognizerPresent: bool, now: int)
    | SpeechResult(transcript: string)
    | SpeechError(now: int)
    | SpeechEnd
    | QuickActionClicked(action: string, now: int)
    | QuestionPicked(question: string)
    | FeedbackSubmitted(rating: int, comment: string, now: int)
    | TimerFired(timer: Timer, now: int, online: bool)
    | Inactive(now: int)

  /** One event; only the launcher/close button moves the panel. */
  function Step(w: Widget, e: Event): (r: Outcome)
    ensures r.after.chat.isOpen == (w.chat.isOpen != e.ToggleClicked?)
    ensures Evolves(w, r.after)
  {
    match e
    case ToggleClicked => ToggleChat(w)
    case Typed(text) => Outcome(w.(input := text), [])
    case SendPressed(now, online) => HandleSendMessage(w, now, online)
    case LanguagePicked(lang) => HandleLanguageChange(w, lang)
    case MicClicked(present, now) => Outcome(HandleVoiceInput(w, present, now), [])
    case SpeechResult(transcript) => Outcome(Recognized(w, transcript), [])
    case SpeechError(now) => Outcome(RecognitionFailed(w, now), [])
    case SpeechEnd => Outcome(RecognitionEnded(w), [])
    case QuickActionClicked(action, now) => HandleQuickAction(w, action, now)
    case QuestionPicked(question) => HandleQuestionSelect(w, question)
    case FeedbackSubmitted(rating, comment, now) => HandleFeedback(w, rating, comment, now)
    case TimerFired(t, now, online) => Fire(w, t, now, online)
    case Inactive(now) => Outcome(InactivityElapsed(w, now), [])
  }

  /** Apply a sequence of events in order. Timers fire only through
      `TimerFired` events, so a run may fire any timer at any moment: the
      facts proved about runs hold for every real interleaving. */
  function Run(w: Widget, events: seq<Event>): Widget
    decreases |events|
  {
    if events == [] then w else Run(Step(w, events[0]).after, events[1..])
  }

  /** Number of launcher/close clicks in `events`. */
  function Toggles(events: seq<Event>): nat
    decreases |events|
  {
    if events == [] then 0 else (if events[0].ToggleClicked? then 1 else 0) + Toggles(events[1..])
  }

  /** Over any run the log only grows, the badge stays consistent and the
      feedback panel is never switched on. */
  lemma {:induction false} RunEvolves(w: Widget, events: seq<Event>)
    ensures Evolves(w, Run(w, events))
    decreases |events|
  {
    if events != [] {
      var next := Step(w, events[0]).after;
      RunEvolves(next, events[1..]);
      EvolvesTransitive(w, next, Run(next, events[1..]));
    }
  }

  /** The panel is open after a run exactly when it was open before and the
      run toggled it an even number of times, or it was closed and the run
      toggled it an odd number of times. */
  lemma {:induction false} RunToggleParity(w: Widget, events: seq<Event>)
    ensures Run(w, events).chat.isOpen == (w.chat.isOpen != (Toggles(events) % 2 == 1))
    decreases |events|
  {
    if events != [] {
      var next := Step(w, events[0]).after;
      RunToggleParity(next, events[1..]);
      var n := Toggles(events[1..]);
      assert Toggles(events) == (if events[0].ToggleClicked? then 1 else 0) + n;
      assert ((if events[0].ToggleClicked? then 1 else 0) + n) % 2 == 1
             <==> (events[0].ToggleClicked? != (n % 2 == 1));
    }
  }

  /** From the initial widget no run ever shows the feedback panel, nor
      leaves the badge pointing anywhere but at a bot message. */
  lemma FeedbackPanelNeverShown(first: Language, events: seq<Event>)
    ensures !Run(Initial(first), events).showFeedback
    ensures BadgeConsistent(Run(Initial(first), events).chat)
  {
    RunEvolves(Initial(first), events);
  }
}
