# Multilingual chat widget: a Dafny model of its conversation state machine

The widget is a floating launcher button that opens a chat panel. The panel
holds a message log. A keyword-matching bot answers after a simulated delay.
The widget also offers quick actions (common questions, a language hint, a
"talk to a human" request), voice input, a star-rating feedback form, and a
resize notification sent to the host page when the widget is embedded in a
frame.

The source writes every change of the chat state as a pure `prev => next`
updater. This project models those updaters as pure Dafny functions over
immutable records:

- `ChatTypes`: the data shapes (`Message`, `Language`, `ChatState`) and the
  badge invariant `BadgeConsistent`. Whenever `hasNewMessages` is set, the
  last logged message is from the bot.
- `Text`: ECMAScript `trim()` with the full WhiteSpace and LineTerminator set,
  an ASCII `toLowerCase()`, and `includes`. Each one is proved against a
  reference definition.
- `Conversation`: the `ChatState` updaters (toggle, add message, typing flag,
  language). `Appended(a, b, m)` says that `b` is `a` after `addMessage`
  posted `m`:
  - the log gains exactly `m`;
  - the badge is set exactly when `m` is from the bot and the panel is closed;
  - every other field is unchanged.

  Every handler that posts a message states its effect with it.
- `Replies`: the keyword reply chain.
- `Chatbot`: the whole widget (`Widget` = chat state plus input box, panel
  flags, handoff flag, listening flag, time of the last accepted send).
  - Every handler returns the new widget and the deferred callbacks it
    schedules (`Timer`). A callback runs only when `Fire` is applied to it.
  - `Step` and `Run` apply arbitrary event sequences, so timers may fire in
    any order. The invariants proved over runs therefore hold for every
    interleaving.
- `ChatbotProperties`: rate limiting, handoff, language confirmation,
  offline path, and the end-to-end scenarios.
- `Sizing`: the `CHATBOT_RESIZE` payload.
- `Feedback`: the star-rating form.

Inputs the browser would supply are parameters. These are the clock in
milliseconds (`now`), `navigator.onLine` (`online`), the presence of a speech
recogniser, the measured container box, and whether the widget is embedded.

Behaviours of the code that the model keeps:

- Opening the panel does not clear `hasNewMessages`; only closing does
  (`Conversation.OpeningKeepsBadge`). So the badge can be set while the panel
  is open. What holds for every run is `BadgeConsistent`
  (`Chatbot.FeedbackPanelNeverShown`).
- The handoff flag is set but never read by the reply selector
  (`ChatbotProperties.HandoffDoesNotChangeReplies`).
- The reply selector knows three topics (greeting, order, payment). Any other
  message gets one fixed default reply.
- Message ids come from the clock, so two messages added at the same instant
  share an id (`Conversation.SameInstantSameId`).
- The feedback panel flag is never set to true anywhere, so the feedback form
  is never shown (`Chatbot.FeedbackPanelNeverShown`). The rating guard
  (1..5 only) lives in the form's disabled button, not in `handleFeedback`.
- Picking a common question bypasses the rate limit and leaves the question
  in the input box (`ChatbotProperties.QuestionBypassesRateLimit`).
- A deferred callback adds its message through the handler captured when it
  was scheduled. The language confirmation therefore carries the new
  language's phrase but the old language's tag
  (`ChatbotProperties.LanguageConfirmationUsesNewPhraseOldTag`).
- A welcome message is scheduled on every opening, not only the first.

## Model

| member | source | states |
|---|---|---|
| Conversation.Toggle | multilingual-chatbot.tsx:185-190 | flips `isOpen`; closing clears the badge, opening keeps it; log, typing flag, language and theme unchanged |
| Conversation.ToggleTwice | multilingual-chatbot.tsx:185-190 | two toggles restore the state except that the badge ends cleared |
| Conversation.TogglePreservesBadge | multilingual-chatbot.tsx:185-190 | toggling keeps the badge pointing at a bot message |
| Conversation.OpeningKeepsBadge | multilingual-chatbot.tsx:189 | opening a closed panel with the badge set leaves it open with the badge still set |
| Conversation.AddMessage | multilingual-chatbot.tsx:201-214 | log grows by exactly one; earlier messages kept; the new last message has the given content, sender, instant and language tag; badge == (bot sender and panel closed); other fields unchanged |
| Conversation.AddMessageClearsBadge | multilingual-chatbot.tsx:213 | a user message, or any message while open, leaves the badge cleared |
| Conversation.SameInstantSameId | multilingual-chatbot.tsx:203-206 | two messages added at the same clock reading carry the same id, so ids are not unique |
| Conversation.SetTyping | multilingual-chatbot.tsx:220 | sets the typing flag and changes nothing else |
| Conversation.SetLanguage | multilingual-chatbot.tsx:286 | switches the current language; existing messages are not re-translated; nothing else changes |
| Conversation.SetLanguageOverwrites | multilingual-chatbot.tsx:286 | two language changes equal the last one alone |
| Text.Trim | multilingual-chatbot.tsx:270 | the result is tight (no trimmed character at either end), lies between an all-space prefix and an all-space suffix of the input, and is empty exactly when the input is all space |
| Text.TrimUnique | multilingual-chatbot.tsx:270 | for any split into all-space prefix, tight middle and all-space suffix, trim returns that middle |
| Text.TrimOfTight | multilingual-chatbot.tsx:270 | a string with no trimmed character at either end is its own trim |
| Text.TrimIdempotent | multilingual-chatbot.tsx:270 | trimming twice equals trimming once |
| Text.ToLower | multilingual-chatbot.tsx:235 | same length; each character is folded by ASCII `toLowerCase` |
| Text.ToLowerIdempotent | multilingual-chatbot.tsx:235 | lower-casing twice equals lower-casing once |
| Text.Includes | multilingual-chatbot.tsx:238-242 | `includes` holds exactly when the pattern occurs at some index (reference definition `Occurs`) |
| Replies.SelectReply | multilingual-chatbot.tsx:235-248 | greeting iff the lower-cased text contains "hello" or "hi"; else order iff it contains "order"; else payment iff it contains "payment"; else the default |
| Replies.SelectReplyIgnoresCase | multilingual-chatbot.tsx:235 | a message and its lower-case form get the same reply |
| Replies.HiAnywhereGreets | multilingual-chatbot.tsx:238 | any occurrence of "hi", even inside a word, forces the greeting |
| Replies.OrderBeatsPayment | multilingual-chatbot.tsx:240-244 | text with both "order" and "payment" never gets the payment reply, and gets the order reply unless it greets |
| Replies.ShipMyOrderGreets | multilingual-chatbot.tsx:235-238 | "ship my order" and "Ship my ORDER" get the greeting because "ship" contains "hi" |
| Replies.TrackMyOrderGetsOrderReply | multilingual-chatbot.tsx:238-241 | "I want to track my order" gets the order reply |
| Chatbot.Post | multilingual-chatbot.tsx:201-216 | widget-level add: the given message is appended (`Appended`) (badge set iff a bot message on a closed panel); nothing outside the chat changes |
| Chatbot.ToggleChat | multilingual-chatbot.tsx:185-199 | flips the panel with the badge rule above; opening schedules a welcome tagged with the current language, closing schedules nothing; log, typing flag, language and theme unchanged |
| Chatbot.BeginResponse | multilingual-chatbot.tsx:219-227 | online: the chat is unchanged except that typing is on, and one reply callback is scheduled; offline: typing is off and the offline phrase is appended (`Appended`) (badge set iff the panel is closed), nothing scheduled; nothing outside the chat changes |
| Chatbot.DeliverReply | multilingual-chatbot.tsx:232-252 | with typing off, the selected reply is appended as a bot message (`Appended`) (badge set iff the panel is closed; language, panel and theme unchanged); the network error is cleared; the handoff flag is untouched and unused |
| Chatbot.AcceptSend | multilingual-chatbot.tsx:268-275 | records `now`, clears the input, hides the question list; the chat becomes exactly: log + trimmed user message, typing on, badge cleared (online, reply scheduled), or log + user message + offline phrase, typing off, badge iff closed (offline, nothing scheduled) |
| Chatbot.HandleSendMessage | multilingual-chatbot.tsx:259-276 | an all-space input is a complete no-op; within 1000 ms of the last accepted send the rate-limit phrase is appended (`Appended`) (badge iff closed, typing and language unchanged) and nothing outside the chat changes; otherwise the send is accepted |
| Chatbot.EnabledSendPosts | multilingual-chatbot.tsx:467-469 | pressing an enabled send button always adds to the log |
| Chatbot.HandleLanguageChange | multilingual-chatbot.tsx:285-298 | language switched at once, log untouched, the confirmation scheduled with the new code and the old tag |
| Chatbot.HandleVoiceInput | multilingual-chatbot.tsx:300-313 | without a recogniser the not-supported phrase is appended (`Appended`) and nothing else changes; with one only the listening flag flips |
| Chatbot.VoiceToggleTwice | multilingual-chatbot.tsx:306-312 | two microphone presses with a recogniser restore the widget |
| Chatbot.Recognized | multilingual-chatbot.tsx:168-172 | the transcript replaces the input and listening stops; nothing else changes |
| Chatbot.RecognitionFailed | multilingual-chatbot.tsx:174-177 | listening stops and the not-supported phrase is appended (`Appended`); nothing else changes |
| Chatbot.RecognitionEnded | multilingual-chatbot.tsx:179-181 | listening stops; nothing else changes |
| Chatbot.HandleQuickAction | multilingual-chatbot.tsx:315-333 | "common" shows the questions and appends the select phrase (`Appended`); "language" appends the globe hint (`Appended`); "human" sets the handoff flag, appends the connecting phrase (`Appended`) and schedules the connected phrase; any other action is a no-op; nothing else changes |
| Chatbot.HandleQuestionSelect | multilingual-chatbot.tsx:335-342 | hides the list, puts the question in the input, schedules its sending |
| Chatbot.SendQuestion | multilingual-chatbot.tsx:338-341 | the chat becomes exactly: log + question, typing on, badge cleared, reply scheduled (online); or log + question + offline phrase, typing off, badge iff closed, nothing scheduled (offline); the input and the rate-limit time are untouched |
| Chatbot.HandleFeedback | multilingual-chatbot.tsx:344-352 | hides the feedback panel, appends the thank-you phrase (`Appended`) and schedules the follow-up; the rating and comment are only logged to the console |
| Chatbot.InactivityElapsed | multilingual-chatbot.tsx:138-145 | appends the still-there phrase (`Appended`) exactly when the panel is open and the log is non-empty; otherwise no change |
| Chatbot.Fire | multilingual-chatbot.tsx:194-351 | the welcome, confirmation, human-connected and follow-up callbacks each append exactly their message (`Appended`) (so one landing on a closed panel sets the badge) and change nothing else; a reply callback is `DeliverReply`; a question callback is `SendQuestion` |
| Chatbot.Step | multilingual-chatbot.tsx:185-352 | only the launcher/close event moves the panel; every event keeps the log append-only and the badge consistent, and never shows the feedback panel |
| Chatbot.RunEvolves | multilingual-chatbot.tsx:210-214 | over any event sequence the log only grows and the badge invariant is kept |
| Chatbot.RunToggleParity | multilingual-chatbot.tsx:185-190 | after any run the panel is open iff it started open xor the run toggled an odd number of times |
| Chatbot.FeedbackPanelNeverShown | multilingual-chatbot.tsx:29 | from the initial widget no run shows the feedback panel, and the badge always points at a bot message |
| ChatbotProperties.SecondSendWithinWindowIsRateLimited | multilingual-chatbot.tsx:262-267 | a second send under 1000 ms after an accepted one appends only the rate-limit phrase; the second text is not posted; the send time and typed text stay |
| ChatbotProperties.SendsOutsideWindowBothAccepted | multilingual-chatbot.tsx:262-273 | sends 1000 ms or more apart are both accepted: each trimmed text is posted as a user message at its index, and the send time ends at the second send |
| ChatbotProperties.HandoffDoesNotChangeReplies | multilingual-chatbot.tsx:235-248 | a reply callback posts the same message whether or not a human was requested |
| ChatbotProperties.HumanRequestedStillKeywordReply | multilingual-chatbot.tsx:324-326 | after "human", a greeting still gets the keyword greeting reply |
| ChatbotProperties.LanguageConfirmationUsesNewPhraseOldTag | multilingual-chatbot.tsx:285-297 | change then confirmation: the log gains exactly the new language's phrase tagged with the old code |
| ChatbotProperties.QuestionBypassesRateLimit | multilingual-chatbot.tsx:335-342 | a picked question is posted even inside the rate-limit window; send time and input are unchanged |
| ChatbotProperties.OfflineShortCircuit | multilingual-chatbot.tsx:222-227 | offline, an accepted send makes the log exactly old log + user message + offline phrase, typing off, nothing scheduled |
| ChatbotProperties.OpenSendReplyScenario | multilingual-chatbot.tsx:185-256 | open, welcome, send, reply: exactly three messages, namely the welcome text at the welcome instant, the trimmed text, and the selected reply; typing off |
| ChatbotProperties.TrackOrderScenario | multilingual-chatbot.tsx:238-241 | the scenario with "I want to track my order" ends with the order reply |
| ChatbotProperties.OpenedWidgetRequestsPanelSize | multilingual-chatbot.tsx:86-92 | just after opening, the notification reports open with at least 400 by 600 |
| Sizing.ResizePayload | multilingual-chatbot.tsx:86-92 | width is at least both the measured width and the floor (400 open, 80 closed) and equals one of them; same for height (600 / 80); `isOpen` copied |
| Sizing.ResizePayloadIsLeast | multilingual-chatbot.tsx:89-90 | the payload is the least size covering both measurement and floor |
| Sizing.LargeBoxReportedExactly | multilingual-chatbot.tsx:89-90 | a box at least as large as the floor is reported unchanged |
| Sizing.SizeNotification | multilingual-chatbot.tsx:79-94 | a message is produced iff embedded in a foreign frame with a rendered container, and then it is the clamped payload |
| Sizing.OpenEmbeddedAtLeastPanel | multilingual-chatbot.tsx:89-91 | an open embedded widget reports isOpen with at least 400 by 600 |
| Feedback.Click | components/feedback-section.tsx:31 | the clicked star becomes the rating; hover and comment unchanged; validity kept |
| Feedback.Enter | components/feedback-section.tsx:32 | the entered star becomes the hovered rating; rating and comment unchanged |
| Feedback.Leave | components/feedback-section.tsx:33 | the hovered rating drops to 0; rating and comment unchanged |
| Feedback.EditComment | components/feedback-section.tsx:48 | the comment is replaced; rating and hover unchanged |
| Feedback.PressSubmit | components/feedback-section.tsx:18-22 | disabled (nothing sent, no change) iff rating is 0; otherwise sends (rating, comment), rating in 1..5, then resets rating to 0 and comment to "" and keeps the hover |
| Feedback.HighlightedPrefix | components/feedback-section.tsx:38 | star s is filled iff s <= hovered when hovering, else iff s <= rating; filled stars form a prefix |
| Feedback.FilledCountIsShown | components/feedback-section.tsx:28-38 | the row shows exactly as many filled stars as the displayed rating |
| Feedback.Apply | components/feedback-section.tsx:28-53 | every form event keeps rating and hover in 0..5, and any submission has a rating in 1..5 |
| Feedback.SessionKeepsRatingInRange | components/feedback-section.tsx:14-53 | over any session from a valid form the rating stays in 0..5 and every submission reaching `onSubmit` has a rating in 1..5 |
| Feedback.InitialValid | components/feedback-section.tsx:14-16 | the form starts valid with submit disabled |

## Left out

- Timer scheduling and delays are not modelled as time. The 500 ms welcome, 300 ms confirmation, 2000 ms handoff, 1000 ms follow-up, 100 ms question send and the random 1–3 s reply delay are `Timer` values. Any event sequence may fire them in any order.
- Fire: it does not check that a fired timer was ever scheduled. A run is therefore an over-approximation of the real interleavings.
- InactivityElapsed: the 5-minute timer's callback reads a stale closure of `isOpen` and the log length. The model reads the current state, and leaves out the timer's reset and cancellation.
- Browser APIs are parameters or absent: `webkitSpeechRecognition` setup, `postMessage` delivery and its swallowed errors, `getBoundingClientRect` (an integer `Rect`), `navigator.onLine`, `Date.now`/`new Date`, the URL query parameter, scrolling, focus, and the window resize listener.
- Sizing.ResizePayload: uses integer pixels rather than the floating-point box.
- The translation tables and common-question lists are not part of this model. Their phrases are opaque keys (`Translated(phrase, code)`). The fallback to English for an unknown code is left out.
- Text.ToLower: folds ASCII letters only, not the full Unicode `toLowerCase`.
- DeliverReply: omits the `catch` branch (network-error phrase), because adding a message cannot throw.
- The `theme` field is carried but never changes. The embedding DOM setup, all rendering, and the presentational components are not modelled.
- HandleFeedback: the `console.log` of the rating, comment and language code is not modelled, because console output is I/O.
- Step: any event may happen while the panel is closed, although only the launcher is rendered then (multilingual-chatbot.tsx:354-363). The run invariants hold for this larger set of runs, so they hold for the real ones.
- Step: `Typed` may happen while listening, although the input box is disabled then (multilingual-chatbot.tsx:456).
- Step: the speech callbacks may happen without a recogniser, although the callbacks exist only when one was created (multilingual-chatbot.tsx:160-182).
- Step: `FeedbackSubmitted` may happen, although the feedback form is rendered only while `showFeedback` is set, which never happens (multilingual-chatbot.tsx:29, 479).
- Step: `QuestionPicked` may happen while the question list is hidden, although the question buttons exist only while it is shown (components/quick-actions.tsx:25-44).
- Step: `QuickActionClicked` may happen while the question list is shown, although the list then replaces the action buttons (components/quick-actions.tsx:25-44).
- SendEnabled: `Step` lets `SendPressed` happen even when the button is disabled. This matches the Enter-key path, which does not check the typing flag.

