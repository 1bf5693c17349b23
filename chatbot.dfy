/**
 * The floating chat window: a keyword router that picks a canned answer for
 * what the user typed, and the message list the window shows.
 */
module Chatbot {
  import opened Wrappers
  import opened Text
  import opened Router

  /** The canned answers, one per translation key under `chatbot.`. */
  datatype Reply = Pricing | Delivery | Payment | Sell | Schemes | Support | Fallback

  /** The translation key whose text the bot sends for a reply: a distinct key under `chatbot.` for each reply. */
  function ReplyKey(r: Reply): (k: string)
    ensures |k| > 8 && k[..8] == "chatbot."
  {
    match r
    case Pricing => "chatbot.pricing"
    case Delivery => "chatbot.delivery"
    case Payment => "chatbot.payment"
    case Sell => "chatbot.sell"
    case Schemes => "chatbot.schemes"
    case Support => "chatbot.support"
    case Fallback => "chatbot.fallback"
  }

  /** No two replies share a key, so the text sent tells which reply was chosen. */
  lemma ReplyKeyInjective(a: Reply, b: Reply)
    requires ReplyKey(a) == ReplyKey(b)
    ensures a == b
  {
  }

  const PricingWords: seq<string> := ["price", "cost", "rate", "मूल्य", "भाव", "किंमत"]
  const DeliveryWords: seq<string> := ["deliver", "ship", "dispatch", "डिलीवरी", "वितरण"]
  const PaymentWords: seq<string> := ["pay", "payment", "razorpay", "भुगतान", "पेमेंट"]
  const SellWords: seq<string> := ["sell", "list", "add product", "बेच", "विक"]
  const SchemeWords: seq<string> := ["scheme", "government", "सरकार", "योजना"]
  const SupportWords: seq<string> := ["support", "help", "contact", "सहायता", "मदद"]

  /** The rules in the order the window tries them. */
  const ChatRules: seq<Rule<Reply>> := [
    Rule(PricingWords, Pricing),
    Rule(DeliveryWords, Delivery),
    Rule(PaymentWords, Payment),
    Rule(SellWords, Sell),
    Rule(SchemeWords, Schemes),
    Rule(SupportWords, Support)
  ]

  /**
   * `getResponse`: the answer for a typed text, before translation. The
   * fallback answers exactly when no rule fires; any other answer is that of
   * the first rule that fires.
   */
  function GetResponse(text: string): (r: Reply)
    ensures r == Fallback <==> forall k :: 0 <= k < |ChatRules| ==> !Fires(ChatRules[k], ToLower(text))
    ensures r != Fallback ==>
      FirstMatch(ChatRules, ToLower(text)) < |ChatRules| && ChatRules[FirstMatch(ChatRules, ToLower(text))].outcome == r
  {
    assert forall k :: 0 <= k < |ChatRules| ==> ChatRules[k].outcome != Fallback;
    Resolve(ChatRules, Fallback, text)
  }

  /**
   * The categories are tried in the order pricing, delivery, payment, sell,
   * schemes, support on the lower-cased text; the first one with a keyword in
   * the text answers, and the fallback answers exactly when none has one.
   */
  lemma GetResponseOrder(text: string)
    ensures var l := ToLower(text);
      && (GetResponse(text) == Pricing <==> ContainsAny(l, PricingWords))
      && (GetResponse(text) == Delivery <==>
            !ContainsAny(l, PricingWords) && ContainsAny(l, DeliveryWords))
      && (GetResponse(text) == Payment <==>
            !ContainsAny(l, PricingWords) && !ContainsAny(l, DeliveryWords)
            && ContainsAny(l, PaymentWords))
      && (GetResponse(text) == Sell <==>
            !ContainsAny(l, PricingWords) && !ContainsAny(l, DeliveryWords)
            && !ContainsAny(l, PaymentWords) && ContainsAny(l, SellWords))
      && (GetResponse(text) == Schemes <==>
            !ContainsAny(l, PricingWords) && !ContainsAny(l, DeliveryWords)
            && !ContainsAny(l, PaymentWords) && !ContainsAny(l, SellWords)
            && ContainsAny(l, SchemeWords))
      && (GetResponse(text) == Support <==>
            !ContainsAny(l, PricingWords) && !ContainsAny(l, DeliveryWords)
            && !ContainsAny(l, PaymentWords) && !ContainsAny(l, SellWords)
            && !ContainsAny(l, SchemeWords) && ContainsAny(l, SupportWords))
      && (GetResponse(text) == Fallback <==>
            !ContainsAny(l, PricingWords) && !ContainsAny(l, DeliveryWords)
            && !ContainsAny(l, PaymentWords) && !ContainsAny(l, SellWords)
            && !ContainsAny(l, SchemeWords) && !ContainsAny(l, SupportWords))
  {
    var l := ToLower(text);
    var i := FirstMatch(ChatRules, l);
    assert Fires(ChatRules[0], l) == ContainsAny(l, PricingWords);
    assert Fires(ChatRules[1], l) == ContainsAny(l, DeliveryWords);
    assert Fires(ChatRules[2], l) == ContainsAny(l, PaymentWords);
    assert Fires(ChatRules[3], l) == ContainsAny(l, SellWords);
    assert Fires(ChatRules[4], l) == ContainsAny(l, SchemeWords);
    assert Fires(ChatRules[5], l) == ContainsAny(l, SupportWords);
    assert i == 0 || i == 1 || i == 2 || i == 3 || i == 4 || i == 5 || i == 6;
  }

  /** The empty text, and every text with no keyword, gets the fallback answer. */
  lemma EmptyGetsFallback()
    ensures GetResponse("") == Fallback
  {
    var l := ToLower("");
    assert l == "";
    EmptyContainsNothing(PricingWords);
    EmptyContainsNothing(DeliveryWords);
    EmptyContainsNothing(PaymentWords);
    EmptyContainsNothing(SellWords);
    EmptyContainsNothing(SchemeWords);
    EmptyContainsNothing(SupportWords);
    GetResponseOrder("");
  }

  /** `"payment"` is answered by the payment rule through its keyword `pay`. */
  lemma PaymentExample()
    ensures GetResponse("payment") == Payment
  {
    var l := ToLower("payment");
    assert l == "payment" by {
      assert NoUpper("payment");
      ToLowerFacts("payment");
    }
    PaymentWordsIn(l);
    GetResponseOrder("payment");
  }

  /** Example: "payment" holds no pricing or delivery keyword, and holds the payment keyword `pay`. */
  lemma PaymentWordsIn(l: string)
    requires l == "payment"
    ensures !ContainsAny(l, PricingWords) && !ContainsAny(l, DeliveryWords)
    ensures ContainsAny(l, PaymentWords)
  {
    NoneOccur(l, PricingWords, ['r', 'c', 'r', 'म', 'भ', 'क']);
    NoneOccur(l, DeliveryWords, ['d', 's', 'd', 'ड', 'व']);
    PrefixContains(l, "pay");
  }

  /** `"Delivery PRICE"` mentions two categories; pricing is tried first and answers. */
  lemma PricingBeatsDelivery()
    ensures GetResponse("Delivery PRICE") == Pricing
  {
    var l := ToLower("Delivery PRICE");
    assert l == "delivery price";
    assert OccursAt(l, "price", 9);
    assert PricingWords[0] == "price" && Contains(l, "price");
    GetResponseOrder("Delivery PRICE");
  }

  /** A chat message: the bot's answers and greeting have `isBot` set, the user's texts do not. */
  datatype Message = Message(id: string, text: string, isBot: bool)

  /** The single message the window starts with, and returns to when the language changes. */
  function Greeting(t: string -> string): (m: Message)
    ensures m.isBot && m.id == "0"
  {
    Message("0", t("chatbot.greeting"), true)
  }

  /**
   * The window's state: whether it is open, the messages shown and the text in
   * the input box. `t` stands for the translation function of the current
   * language, which maps a key to its text.
   */
  class ChatWindow {
    var open: bool
    var messages: seq<Message>
    var input: string

    constructor (t: string -> string)
      ensures messages == [Greeting(t)] && input == "" && !open
    {
      open := false;
      messages := [Greeting(t)];
      input := "";
    }

    /** The floating button opens and closes the window. */
    method ToggleOpen()
      modifies this`open
      ensures open == !old(open)
    {
      open := !open;
    }

    /** Typing replaces the input text. */
    method SetInput(text: string)
      modifies this`input
      ensures input == text
    {
      input := text;
    }

    /** A change of language resets the conversation to the greeting in the new language. */
    method LanguageChanged(t: string -> string)
      modifies this`messages
      ensures messages == [Greeting(t)]
    {
      messages := [Greeting(t)];
    }

    /**
     * `handleSend`. A blank input changes nothing and schedules nothing.
     * Otherwise the input is appended, untrimmed, as a user message with id
     * `userId`, the input box is cleared, and the answer to the input is
     * computed now and returned: it is the text the timer later appends with
     * `ReplyArrives`.
     */
    method Send(t: string -> string, userId: string) returns (pending: Option<string>)
      modifies this`messages, this`input
      ensures IsBlank(old(input)) ==>
        pending == None && messages == old(messages) && input == old(input)
      ensures !IsBlank(old(input)) ==>
        && pending == Some(t(ReplyKey(GetResponse(old(input)))))
        && messages == old(messages) + [Message(userId, old(input), false)]
        && input == ""
    {
      if Trim(input) == "" {
        return None;
      }
      messages := messages + [Message(userId, input, false)];
      var response := t(ReplyKey(GetResponse(input)));
      input := "";
      pending := Some(response);
    }

    /** The delayed half of `handleSend`: the bot's answer is appended after whatever is shown. */
    method ReplyArrives(botId: string, text: string)
      modifies this`messages
      ensures messages == old(messages) + [Message(botId, text, true)]
    {
      messages := messages + [Message(botId, text, true)];
    }

    /**
     * A send followed by its timer, with nothing in between: a non-blank input
     * adds exactly the user's message and then the bot's answer to it.
     */
    method SendAndAnswer(t: string -> string, userId: string, botId: string)
      modifies this`messages, this`input
      ensures IsBlank(old(input)) ==> messages == old(messages) && input == old(input)
      ensures !IsBlank(old(input)) ==>
        && messages == old(messages) + [Message(userId, old(input), false),
                                        Message(botId, t(ReplyKey(GetResponse(old(input)))), true)]
        && input == ""
    {
      var pending := Send(t, userId);
      if pending.Some? {
        ReplyArrives(botId, pending.value);
      }
    }
  }
}
