/** The keyword reply selector of `simulateBotResponse`. */
module Replies {
  import opened Text

  /** Which canned reply the bot gives. */
  datatype Reply = Greeting | OrderHelp | PaymentHelp | Fallback

  /** The fixed English text of each reply. */
  function ReplyText(r: Reply): string {
    match r
    case Greeting => "Hello! I'm here to help you. What can I assist you with today?"
    case OrderHelp => "I can help you track your order. Please provide your order number and I'll look it up for you."
    case PaymentHelp => "We accept all major credit cards, UPI, PayPal, and bank transfers. Is there a specific payment issue you're experiencing?"
    case Fallback => "Thanks for your message! I'm here to help. Could you provide more details about what you need assistance with?"
  }

  /** The text each reply is triggered by, once lower-cased. */
  ghost predicate AsksGreeting(lower: string) { Occurs(lower, "hello") || Occurs(lower, "hi") }
  ghost predicate AsksOrder(lower: string) { Occurs(lower, "order") }
  ghost predicate AsksPayment(lower: string) { Occurs(lower, "payment") }

  /** Pick the reply for `userMessage`: lower-case it, then take the first
      topic of the fixed chain greeting, order, payment whose keyword occurs
      as a substring; otherwise the fallback. The human-handoff flag plays
      no part. */
  function SelectReply(userMessage: string): (r: Reply)
    ensures r == Greeting <==> AsksGreeting(ToLower(userMessage))
    ensures r == OrderHelp <==> !AsksGreeting(ToLower(userMessage)) && AsksOrder(ToLower(userMessage))
    ensures r == PaymentHelp <==>
              !AsksGreeting(ToLower(userMessage)) && !AsksOrder(ToLower(userMessage))
              && AsksPayment(ToLower(userMessage))
    ensures r == Fallback <==>
              !AsksGreeting(ToLower(userMessage)) && !AsksOrder(ToLower(userMessage))
              && !AsksPayment(ToLower(userMessage))
  {
    var lowerMessage := ToLower(userMessage);
    if Includes(lowerMessage, "hello") || Includes(lowerMessage, "hi") then Greeting
    else if Includes(lowerMessage, "order") then OrderHelp
    else if Includes(lowerMessage, "payment") then PaymentHelp
    else Fallback
  }

  /** Selection ignores letter case: a message and its lower-case form get
      the same reply. */
  lemma SelectReplyIgnoresCase(userMessage: string)
    ensures SelectReply(ToLower(userMessage)) == SelectReply(userMessage)
  {
    ToLowerIdempotent(userMessage);
  }

  /** Any message containing "hi" anywhere, even inside a word, gets the
      greeting, whatever else it mentions. */
  lemma HiAnywhereGreets(userMessage: string, i: nat)
    requires MatchAt(ToLower(userMessage), "hi", i)
    ensures SelectReply(userMessage) == Greeting
  {
  }

  /** A message asking about both an order and a payment resolves to the
      earlier topic of the chain, never to the payment reply. */
  lemma OrderBeatsPayment(userMessage: string)
    requires AsksOrder(ToLower(userMessage)) && AsksPayment(ToLower(userMessage))
    ensures SelectReply(userMessage) != PaymentHelp
    ensures !AsksGreeting(ToLower(userMessage)) ==> SelectReply(userMessage) == OrderHelp
  {
  }

  /** "ship my order" is answered with the greeting, because "ship" contains
      "hi": the matcher looks for substrings, not words. Case is folded first,
      so "Ship my ORDER" is answered the same way. */
  lemma ShipMyOrderGreets(s: string)
    requires s == "ship my order" || s == "Ship my ORDER"
    ensures SelectReply(s) == Greeting
  {
    assert ToLower(s)[1..3] == "hi";
    HiAnywhereGreets(s, 1);
  }

  /** "I want to track my order" has no "h" at all, so it gets the order reply. */
  lemma TrackMyOrderGetsOrderReply(s: string)
    requires s == "I want to track my order"
    ensures SelectReply(s) == OrderHelp
  {
    var lower := ToLower(s);
    assert 'h' !in s && 'H' !in s;
    LowerKeepsAbsent(s, 'h');
    AbsentCharBlocksMatch(lower, "hello", 'h');
    AbsentCharBlocksMatch(lower, "hi", 'h');
    assert lower[19..24] == "order";
    assert MatchAt(lower, "order", 19);
  }
}
