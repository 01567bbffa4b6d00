/** The `prev => next` updaters the widget applies to its chat state. */
module Conversation {
  import opened ChatTypes

  /** `toggleChat`: flip the panel. Closing clears the new-message badge;
      opening leaves the badge as it was. */
  function Toggle(s: ChatState): (r: ChatState)
    ensures r.isOpen == !s.isOpen
    ensures s.isOpen ==> !r.hasNewMessages
    ensures !s.isOpen ==> r.hasNewMessages == s.hasNewMessages
    ensures r.messages == s.messages && r.isTyping == s.isTyping
    ensures r.currentLanguage == s.currentLanguage && r.theme == s.theme
  {
    s.(isOpen := !s.isOpen, hasNewMessages := if s.isOpen then false else s.hasNewMessages)
  }

  /** Toggling twice restores the state except that the badge is cleared:
      whichever way round, one of the two toggles was a close. */
  lemma ToggleTwice(s: ChatState)
    ensures Toggle(Toggle(s)) == s.(hasNewMessages := false)
  {
  }

  /** Toggling keeps the badge pointing at a bot message. */
  lemma TogglePreservesBadge(s: ChatState)
    requires BadgeConsistent(s)
    ensures BadgeConsistent(Toggle(s))
  {
  }

  /** Opening the panel does not clear the badge: a closed panel with an
      unread bot message is open afterwards with the badge still set. */
  lemma OpeningKeepsBadge(s: ChatState)
    requires !s.isOpen && s.hasNewMessages
    ensures Toggle(s).isOpen && Toggle(s).hasNewMessages
  {
  }

  /** `b` is `a` after `addMessage` posted `m`: the log gains exactly `m`,
      the badge is set exactly when `m` is a bot message arriving while the
      panel is closed, and every other field of the chat state is unchanged. */
  predicate Appended(a: ChatState, b: ChatState, m: Message) {
    && b.messages == a.messages + [m]
    && (b.hasNewMessages <==> m.sender == Bot && !a.isOpen)
    && b.(messages := a.messages, hasNewMessages := a.hasNewMessages) == a
  }

  /** `addMessage`: append one message, stamped with `now` and tagged with
      language `code`, and recompute the badge: it is set exactly when a bot
      message arrives while the panel is closed. */
  function AddMessage(s: ChatState, content: Content, sender: Sender, now: int, code: string): (r: ChatState)
    ensures |r.messages| == |s.messages| + 1
    ensures r.messages[..|s.messages|] == s.messages
    ensures r.messages[|s.messages|] == Message(now, content, sender, code)
    ensures r.hasNewMessages <==> sender == Bot && !s.isOpen
    ensures BadgeConsistent(r)
    ensures r.isOpen == s.isOpen && r.isTyping == s.isTyping
    ensures r.currentLanguage == s.currentLanguage && r.theme == s.theme
    ensures Appended(s, r, Message(now, content, sender, code))
  {
    s.(messages := s.messages + [Message(now, content, sender, code)],
       hasNewMessages := sender == Bot && !s.isOpen)
  }

  /** A user message, or any message while the panel is open, clears the badge. */
  lemma AddMessageClearsBadge(s: ChatState, content: Content, sender: Sender, now: int, code: string)
    requires sender == User || s.isOpen
    ensures !AddMessage(s, content, sender, now, code).hasNewMessages
  {
  }

  /** Two messages added with the same clock reading carry the same id: the
      widget's message ids are not unique. */
  lemma SameInstantSameId(s: ChatState, c1: Content, c2: Content, now: int, code: string)
    ensures var s1 := AddMessage(s, c1, User, now, code);
            var s2 := AddMessage(s1, c2, Bot, now, code);
            s2.messages[|s.messages|].stamp == s2.messages[|s.messages| + 1].stamp
  {
  }

  /** Set or clear the typing indicator and nothing else. */
  function SetTyping(s: ChatState, typing: bool): (r: ChatState)
    ensures r.isTyping == typing
    ensures r.(isTyping := s.isTyping) == s
  {
    s.(isTyping := typing)
  }

  /** `handleLanguageChange`'s immediate part: switch the current language;
      messages already in the log are not re-translated. */
  function SetLanguage(s: ChatState, lang: Language): (r: ChatState)
    ensures r.currentLanguage == lang
    ensures r.(currentLanguage := s.currentLanguage) == s
  {
    s.(currentLanguage := lang)
  }

  /** Only the last language chosen matters. */
  lemma SetLanguageOverwrites(s: ChatState, a: Language, b: Language)
    ensures SetLanguage(SetLanguage(s, a), b) == SetLanguage(s, b)
  {
  }
}
