/** Facts relating several widget transitions, including the end-to-end
    scenarios the widget is meant to support. */
module ChatbotProperties {
  import opened Text
  import opened ChatTypes
  import opened Replies
  import opened Chatbot
  import opened Optional
  import Sizing

  /** A second send less than `RateLimitMs` after an accepted one is turned
      away: only the rate-limit phrase is added, the second text is never
      posted, and the recorded send time and the typed text stay as they are. */
  lemma SecondSendWithinWindowIsRateLimited(w: Widget, first: string, second: string,
                                            t1: int, t2: int, online: bool)
    requires !AllSpace(first) && !AllSpace(second)
    requires t1 - w.lastMessageTime >= RateLimitMs && t2 - t1 < RateLimitMs
    ensures var w1 := Step(w, Typed(first)).after;
            var w2 := Step(w1, SendPressed(t1, online)).after;
            var w3 := Step(w2, Typed(second)).after;
            var w4 := Step(w3, SendPressed(t2, online)).after;
            var code := w.chat.currentLanguage.code;
            && w4.chat.messages == w2.chat.messages + [Message(t2, Translated(RateLimited, code), Bot, code)]
            && w2.chat.messages[|w.chat.messages|] == Message(t1, Literal(Trim(first)), User, code)
            && w4.lastMessageTime == t1
            && w4.input == second
  {
  }

  /** Two sends at least `RateLimitMs` apart are both accepted. */
  lemma SendsOutsideWindowBothAccepted(w: Widget, first: string, second: string,
                                       t1: int, t2: int, online: bool)
    requires !AllSpace(first) && !AllSpace(second)
    requires t1 - w.lastMessageTime >= RateLimitMs && t2 - t1 >= RateLimitMs
    ensures var w1 := Step(w, Typed(first)).after;
            var w2 := Step(w1, SendPressed(t1, online)).after;
            var w3 := Step(w2, Typed(second)).after;
            var w4 := Step(w3, SendPressed(t2, online)).after;
            var code := w.chat.currentLanguage.code;
            && w2.chat.messages[|w.chat.messages|] == Message(t1, Literal(Trim(first)), User, code)
            && w2.lastMessageTime == t1
            && w4.chat.messages[|w2.chat.messages|] == Message(t2, Literal(Trim(second)), User, code)
            && w4.lastMessageTime == t2
            && w4.input == ""
  {
  }

  /** The reply does not depend on the handoff flag: after asking for a
      human, a reply callback posts exactly what it would have posted without
      the request. */
  lemma HandoffDoesNotChangeReplies(w: Widget, userMessage: string, now: int, code: string, online: bool)
    ensures Fire(w.(connectedToHuman := true), Reply(userMessage, code), now, online).after.chat
         == Fire(w.(connectedToHuman := false), Reply(userMessage, code), now, online).after.chat
    ensures Fire(w.(connectedToHuman := true), Reply(userMessage, code), now, online).after.chat.messages
         == w.chat.messages + [Message(now, Literal(ReplyText(SelectReply(userMessage))), Bot, code)]
  {
  }

  /** Asking for a human and then sending a greeting still yields the
      keyword greeting reply. */
  lemma HumanRequestedStillKeywordReply(w: Widget, t0: int, t1: int, t2: int, text: string)
    requires !AllSpace(text) && t1 - w.lastMessageTime >= RateLimitMs
    requires SelectReply(Trim(text)) == Greeting
    ensures var w1 := HandleQuickAction(w, "human", t0).after;
            var sent := HandleSendMessage(w1.(input := text), t1, true);
            var w2 := Fire(sent.after, sent.scheduled[0], t2, true).after;
            && w1.connectedToHuman
            && w2.chat.messages[|w2.chat.messages| - 1].content == Literal(ReplyText(Greeting))
  {
    var code := w.chat.currentLanguage.code;
    var w1 := HandleQuickAction(w, "human", t0).after;
    assert w1.lastMessageTime == w.lastMessageTime && w1.chat.currentLanguage == w.chat.currentLanguage;
    var sent := AcceptSend(w1.(input := text), t1, true);
    assert HandleSendMessage(w1.(input := text), t1, true) == sent;
    assert sent.scheduled[0] == Reply(Trim(text), code);
  }

  /** A language change leaves the log as it was; its confirmation, when it
      fires, is the new language's phrase but tagged with the language that
      was current when the change was made. */
  lemma LanguageConfirmationUsesNewPhraseOldTag(w: Widget, lang: Language, now: int, online: bool)
    ensures var changed := HandleLanguageChange(w, lang);
            var confirmed := Fire(changed.after, changed.scheduled[0], now, online).after;
            && changed.after.chat.messages == w.chat.messages
            && confirmed.chat.currentLanguage == lang
            && confirmed.chat.messages == w.chat.messages +
                 [Message(now, Translated(LanguageChanged, lang.code), Bot, w.chat.currentLanguage.code)]
  {
  }

  /** Picking a common question sends it without the rate limit: the
      question is posted even right after an accepted send, the recorded send
      time is untouched, and the question stays in the input box. */
  lemma QuestionBypassesRateLimit(w: Widget, question: string, now: int, online: bool)
    requires now - w.lastMessageTime < RateLimitMs
    ensures var picked := HandleQuestionSelect(w, question);
            var sent := Fire(picked.after, picked.scheduled[0], now, online).after;
            && sent.chat.messages[|w.chat.messages|] == Message(now, Literal(question), User, w.chat.currentLanguage.code)
            && sent.lastMessageTime == w.lastMessageTime
            && sent.input == question
  {
  }

  /** While offline an accepted send posts the user message and then the
      offline phrase, with the typing indicator off and nothing scheduled. */
  lemma OfflineShortCircuit(w: Widget, now: int)
    requires !AllSpace(w.input) && now - w.lastMessageTime >= RateLimitMs
    ensures var r := HandleSendMessage(w, now, false);
            var code := w.chat.currentLanguage.code;
            && r.scheduled == []
            && !r.after.chat.isTyping
            && r.after.chat.messages == w.chat.messages +
                 [Message(now, Literal(Trim(w.input)), User, code), Message(now, Translated(Offline, code), Bot, code)]
  {
  }

  /** Opening the widget, waiting for the welcome, then sending a message
      and waiting for the reply leaves three messages: the welcome, the
      user's trimmed text and the reply chosen for it; the typing indicator
      is off. */
  lemma OpenSendReplyScenario(first: Language, text: string, t0: int, t1: int, t2: int)
    requires !AllSpace(text)
    requires t1 >= RateLimitMs
    ensures var code := first.code;
            var w1 := ToggleChat(Initial(first)).after;
            var w2 := Fire(w1, Welcome(code), t0, true).after;
            var sent := HandleSendMessage(w2.(input := text), t1, true);
            var w4 := Fire(sent.after, sent.scheduled[0], t2, true).after;
            && w2.chat.isOpen && |w2.chat.messages| == 1
            && w4.chat.messages[0] == Message(t0, Literal(WelcomeText), Bot, code)
            && |w4.chat.messages| == 3
            && !w4.chat.isTyping
            && w4.chat.messages[1] == Message(t1, Literal(Trim(text)), User, code)
            && w4.chat.messages[2] == Message(t2, Literal(ReplyText(SelectReply(Trim(text)))), Bot, code)
  {
    var code := first.code;
    var w1 := ToggleChat(Initial(first)).after;
    assert w1.chat.isOpen && w1.chat.messages == [] && w1.lastMessageTime == 0;
    assert w1.chat.currentLanguage == first;
    var w2 := Fire(w1, Welcome(code), t0, true).after;
    assert |w2.chat.messages| == 1 && w2.lastMessageTime == 0 && w2.chat.isOpen;
    var sent := AcceptSend(w2.(input := text), t1, true);
    assert sent.scheduled == [Reply(Trim(text), code)];
    assert |sent.after.chat.messages| == 2;
  }

  /** The same scenario with the message "I want to track my order": the
      third message is the order reply. */
  lemma TrackOrderScenario(first: Language, text: string, t0: int, t1: int, t2: int)
    requires text == "I want to track my order"
    requires t1 >= RateLimitMs
    ensures var code := first.code;
            var w1 := ToggleChat(Initial(first)).after;
            var w2 := Fire(w1, Welcome(code), t0, true).after;
            var sent := HandleSendMessage(w2.(input := text), t1, true);
            var w4 := Fire(sent.after, sent.scheduled[0], t2, true).after;
            && |w4.chat.messages| == 3
            && w4.chat.messages[1] == Message(t1, Literal(text), User, code)
            && w4.chat.messages[2] == Message(t2, Literal(ReplyText(OrderHelp)), Bot, code)
  {
    assert Tight(text) by {
      assert text[0] == 'I' && text[|text| - 1] == 'r';
    }
    assert text == [] + text + [];
    TrimUnique([], text, []);
    TrackMyOrderGetsOrderReply(text);
    OpenSendReplyScenario(first, text, t0, t1, t2);
  }

  /** An embedded widget that has just been opened asks its host for at
      least the panel's 400 by 600. */
  lemma OpenedWidgetRequestsPanelSize(w: Widget, box: Sizing.Rect)
    requires !w.chat.isOpen
    ensures var shown := Step(w, ToggleClicked).after;
            var m := Sizing.SizeNotification(true, false, Some(box), shown.chat.isOpen);
            m.Some? && m.value.isOpen && m.value.width >= 400 && m.value.height >= 600
  {
  }
}
