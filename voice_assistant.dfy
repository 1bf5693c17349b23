/**
 * The microphone button: a keyword router from a spoken sentence to what the
 * assistant does (navigate, switch the display language, or only answer), the
 * effects each branch performs, and the listening flag driven by the speech
 * recogniser's callbacks.
 */
module VoiceAssistant {
  import opened Wrappers
  import opened Text
  import opened Router
  import AppRoutes

  /**
   * What a recognised sentence asks for. Every branch also speaks `say`: a
   * confirmation for a navigation or a language switch, an apology when
   * nothing was understood.
   */
  datatype Intent =
    | Navigate(route: string, say: string)
    | ChangeLanguage(code: string, say: string)
    | Reply(say: string)

  const OrderWords: seq<string> := ["order", "ऑर्डर"]
  const MarketWords: seq<string> := ["market", "बाज़ार", "बाजार"]
  const AnalyticsWords: seq<string> := ["analytics", "विश्लेषण"]
  const CommunityWords: seq<string> := ["community", "समुदाय"]
  const HindiWords: seq<string> := ["hindi", "हिंदी"]
  const MarathiWords: seq<string> := ["marathi", "मराठी"]
  const EnglishWords: seq<string> := ["english", "अंग्रेज"]
  const HomeWords: seq<string> := ["home", "होम", "मुख्य"]

  /** The rules in the order `processCommand` tries them. */
  const VoiceRules: seq<Rule<Intent>> := [
    Rule(OrderWords, Navigate("/orders", "Showing your orders")),
    Rule(MarketWords, Navigate("/marketplace", "Opening marketplace")),
    Rule(AnalyticsWords, Navigate("/analytics", "Opening analytics")),
    Rule(CommunityWords, Navigate("/community", "Opening community")),
    Rule(HindiWords, ChangeLanguage("hi", "भाषा हिंदी में बदल दी गई")),
    Rule(MarathiWords, ChangeLanguage("mr", "भाषा मराठीमध्ये बदलली")),
    Rule(EnglishWords, ChangeLanguage("en", "Language switched to English")),
    Rule(HomeWords, Navigate("/", "Going home"))
  ]

  const NotUnderstood: Intent := Reply("Sorry, I did not understand. Please try again.")

  /**
   * The branch `processCommand` takes for a sentence: the apology exactly
   * when no rule fires, and otherwise the intent of the first rule that fires.
   */
  function Route(text: string): (r: Intent)
    ensures r.Reply? <==> forall k :: 0 <= k < |VoiceRules| ==> !Fires(VoiceRules[k], ToLower(text))
    ensures r.Reply? ==> r == NotUnderstood
    ensures !r.Reply? ==>
      FirstMatch(VoiceRules, ToLower(text)) < |VoiceRules| && VoiceRules[FirstMatch(VoiceRules, ToLower(text))].outcome == r
  {
    assert forall k :: 0 <= k < |VoiceRules| ==> !VoiceRules[k].outcome.Reply?;
    Resolve(VoiceRules, NotUnderstood, text)
  }

  /**
   * Rules are tried in the order orders, market, analytics, community, Hindi,
   * Marathi, English, home on the lower-cased sentence; the first one with a
   * keyword in it decides, and the apology is chosen exactly when none has one.
   */
  lemma RouteOrder(text: string)
    ensures var l := ToLower(text);
      && (Route(text) == VoiceRules[0].outcome <==> ContainsAny(l, OrderWords))
      && (Route(text) == VoiceRules[1].outcome <==>
            !ContainsAny(l, OrderWords) && ContainsAny(l, MarketWords))
      && (Route(text) == VoiceRules[2].outcome <==>
            !ContainsAny(l, OrderWords) && !ContainsAny(l, MarketWords)
            && ContainsAny(l, AnalyticsWords))
      && (Route(text) == VoiceRules[3].outcome <==>
            !ContainsAny(l, OrderWords) && !ContainsAny(l, MarketWords)
            && !ContainsAny(l, AnalyticsWords) && ContainsAny(l, CommunityWords))
      && (Route(text) == VoiceRules[4].outcome <==>
            !ContainsAny(l, OrderWords) && !ContainsAny(l, MarketWords)
            && !ContainsAny(l, AnalyticsWords) && !ContainsAny(l, CommunityWords)
            && ContainsAny(l, HindiWords))
      && (Route(text) == VoiceRules[5].outcome <==>
            !ContainsAny(l, OrderWords) && !ContainsAny(l, MarketWords)
            && !ContainsAny(l, AnalyticsWords) && !ContainsAny(l, CommunityWords)
            && !ContainsAny(l, HindiWords) && ContainsAny(l, MarathiWords))
      && (Route(text) == VoiceRules[6].outcome <==>
            !ContainsAny(l, OrderWords) && !ContainsAny(l, MarketWords)
            && !ContainsAny(l, AnalyticsWords) && !ContainsAny(l, CommunityWords)
            && !ContainsAny(l, HindiWords) && !ContainsAny(l, MarathiWords)
            && ContainsAny(l, EnglishWords))
      && (Route(text) == VoiceRules[7].outcome <==>
            !ContainsAny(l, OrderWords) && !ContainsAny(l, MarketWords)
            && !ContainsAny(l, AnalyticsWords) && !ContainsAny(l, CommunityWords)
            && !ContainsAny(l, HindiWords) && !ContainsAny(l, MarathiWords)
            && !ContainsAny(l, EnglishWords) && ContainsAny(l, HomeWords))
      && (Route(text) == NotUnderstood <==>
            !ContainsAny(l, OrderWords) && !ContainsAny(l, MarketWords)
            && !ContainsAny(l, AnalyticsWords) && !ContainsAny(l, CommunityWords)
            && !ContainsAny(l, HindiWords) && !ContainsAny(l, MarathiWords)
            && !ContainsAny(l, EnglishWords) && !ContainsAny(l, HomeWords))
  {
    var l := ToLower(text);
    var i := FirstMatch(VoiceRules, l);
    assert Fires(VoiceRules[0], l) == ContainsAny(l, OrderWords);
    assert Fires(VoiceRules[1], l) == ContainsAny(l, MarketWords);
    assert Fires(VoiceRules[2], l) == ContainsAny(l, AnalyticsWords);
    assert Fires(VoiceRules[3], l) == ContainsAny(l, CommunityWords);
    assert Fires(VoiceRules[4], l) == ContainsAny(l, HindiWords);
    assert Fires(VoiceRules[5], l) == ContainsAny(l, MarathiWords);
    assert Fires(VoiceRules[6], l) == ContainsAny(l, EnglishWords);
    assert Fires(VoiceRules[7], l) == ContainsAny(l, HomeWords);
    assert i == 0 || i == 1 || i == 2 || i == 3 || i == 4 || i == 5 || i == 6 || i == 7 || i == 8;
  }

  /** Every navigation the assistant performs targets a path the application declares. */
  lemma RouteTargetsDeclared(text: string)
    ensures Route(text).Navigate? ==> Route(text).route in AppRoutes.Routes
  {
    var i := FirstMatch(VoiceRules, ToLower(text));
    assert i == 0 || i == 1 || i == 2 || i == 3 || i == 4 || i == 5 || i == 6 || i == 7 || i == 8;
  }

  /** Example: the order rule comes before the language rules, so "Hindi for my ORDER" opens the orders page. */
  lemma OrderBeatsLanguage()
    ensures Route("Hindi for my ORDER") == Navigate("/orders", "Showing your orders")
  {
    var l := ToLower("Hindi for my ORDER");
    assert l == "hindi for my order";
    assert l[13..18] == "order";
    assert OccursAt(l, "order", 13);
    assert OrderWords[0] == "order" && Contains(l, "order");
    FirstMatchIs(VoiceRules, l, 0);
  }

  /** Example: no navigation rule fires on "xyzzy plugh", whose letters miss a letter of every such keyword. */
  lemma NothingFiresOnGibberish(l: string)
    requires l == "xyzzy plugh"
    ensures !ContainsAny(l, OrderWords) && !ContainsAny(l, MarketWords)
    ensures !ContainsAny(l, AnalyticsWords) && !ContainsAny(l, CommunityWords)
    ensures !ContainsAny(l, HomeWords)
  {
    assert !ContainsAny(l, OrderWords) by { NoneOccur(l, OrderWords, ['o', 'ऑ']); }
    assert !ContainsAny(l, MarketWords) by { NoneOccur(l, MarketWords, ['m', 'ब', 'ब']); }
    assert !ContainsAny(l, AnalyticsWords) by { NoneOccur(l, AnalyticsWords, ['a', 'व']); }
    assert !ContainsAny(l, CommunityWords) by { NoneOccur(l, CommunityWords, ['c', 'स']); }
    assert !ContainsAny(l, HomeWords) by { NoneOccur(l, HomeWords, ['o', 'ह', 'म']); }
  }

  /** Example: no language rule fires on "xyzzy plugh" either. */
  lemma NoLanguageInGibberish(l: string)
    requires l == "xyzzy plugh"
    ensures !ContainsAny(l, HindiWords) && !ContainsAny(l, MarathiWords)
    ensures !ContainsAny(l, EnglishWords)
  {
    assert !ContainsAny(l, HindiWords) by { NoneOccur(l, HindiWords, ['i', 'ह']); }
    assert !ContainsAny(l, MarathiWords) by { NoneOccur(l, MarathiWords, ['m', 'म']); }
    assert !ContainsAny(l, EnglishWords) by { NoneOccur(l, EnglishWords, ['e', 'अ']); }
  }

  /** Example: "xyzzy plugh" gets the apology. */
  lemma UnknownSentence()
    ensures Route("xyzzy plugh") == NotUnderstood
  {
    var l := ToLower("xyzzy plugh");
    assert l == "xyzzy plugh";
    NothingFiresOnGibberish(l);
    NoLanguageInGibberish(l);
    RouteOrder("xyzzy plugh");
  }

  /** The speech locale for a display language: Hindi and Marathi have their own, everything else is US English. */
  function Locale(lang: string): (r: string)
    ensures r == "hi-IN" <==> lang == "hi"
    ensures r == "mr-IN" <==> lang == "mr"
    ensures r == "en-US" <==> lang != "hi" && lang != "mr"
  {
    if lang == "hi" then "hi-IN" else if lang == "mr" then "mr-IN" else "en-US"
  }

  /** What the assistant does to the world, in the order it does it. */
  datatype Effect =
    | GoTo(route: string)
    | SetLanguage(code: string)
    | Speak(text: string, locale: string)
    | ToastInfo(text: string)
    | ToastError(text: string)

  predicate IsAction(e: Effect) {
    e.GoTo? || e.SetLanguage?
  }

  /**
   * The notice that repeats what was heard: the microphone sign and a space,
   * then the sentence in double quotes, so the sentence can be read back.
   */
  function Echo(text: string): (e: string)
    ensures |e| == |text| + 5 && e[..3] == "🎙️ " && e[3] == '"' && e[|e| - 1] == '"'
    ensures e[4..|e| - 1] == text
  {
    "🎙️ \"" + text + "\""
  }

  /** Different sentences are echoed differently. */
  lemma EchoInjective(a: string, b: string)
    requires Echo(a) == Echo(b)
    ensures a == b
  {
    assert a == Echo(a)[4..|Echo(a)| - 1];
  }

  /**
   * `processCommand`: the effects of one sentence, heard while the display
   * language is `current`. At most one navigation or language switch
   * happens, and only when some rule fired; exactly one answer is spoken;
   * the sentence is always echoed last. The answer is spoken in the locale of
   * the display language at the moment it is spoken, so a language switch is
   * confirmed in the language it switches to.
   */
  function ProcessCommand(text: string, current: string): (es: seq<Effect>)
    ensures 2 <= |es| <= 3 && es[|es| - 1] == ToastInfo(Echo(text))
    ensures es[|es| - 2].Speak? && es[|es| - 2].text == Route(text).say
    ensures Route(text).ChangeLanguage? ==> es[|es| - 2].locale == Locale(Route(text).code)
    ensures !Route(text).ChangeLanguage? ==> es[|es| - 2].locale == Locale(current)
    ensures forall i :: 0 <= i < |es| - 2 ==> IsAction(es[i])
    ensures forall i :: |es| - 2 <= i < |es| ==> !IsAction(es[i])
    ensures |es| == 2 <==> Route(text).Reply?
    ensures Route(text).Navigate? ==> es[0] == GoTo(Route(text).route)
    ensures Route(text).ChangeLanguage? ==> es[0] == SetLanguage(Route(text).code)
  {
    var intent := Route(text);
    match intent
    case Navigate(route, say) => [GoTo(route), Speak(say, Locale(current)), ToastInfo(Echo(text))]
    case ChangeLanguage(code, say) => [SetLanguage(code), Speak(say, Locale(code)), ToastInfo(Echo(text))]
    case Reply(say) => [Speak(say, Locale(current)), ToastInfo(Echo(text))]
  }

  /** A language command does the same whatever language was on before: it is confirmed in the locale it switches to. */
  lemma LanguageCommandIgnoresCurrent(text: string, current: string, other: string)
    requires Route(text).ChangeLanguage?
    ensures ProcessCommand(text, current) == ProcessCommand(text, other)
    ensures ProcessCommand(text, current)[1] == Speak(Route(text).say, Locale(Route(text).code))
  {
  }

  /** Saying "hindi" while the page is in English switches to Hindi and confirms in hi-IN. */
  lemma HindiConfirmedInHindi()
    ensures ProcessCommand("hindi", "en") ==
      [SetLanguage("hi"), Speak("भाषा हिंदी में बदल दी गई", "hi-IN"), ToastInfo(Echo("hindi"))]
  {
    var l := ToLower("hindi");
    assert l == "hindi";
    assert OccursAt(l, "hindi", 0);
    assert HindiWords[0] == "hindi" && Contains(l, "hindi");
    assert !ContainsAny(l, OrderWords) by { NoneOccur(l, OrderWords, ['o', 'ऑ']); }
    assert !ContainsAny(l, MarketWords) by { NoneOccur(l, MarketWords, ['m', 'ब', 'ब']); }
    assert !ContainsAny(l, AnalyticsWords) by { NoneOccur(l, AnalyticsWords, ['a', 'व']); }
    assert !ContainsAny(l, CommunityWords) by { NoneOccur(l, CommunityWords, ['c', 'स']); }
    RouteOrder("hindi");
  }

  /**
   * A sentence in which no rule's keyword occurs is only answered: the
   * apology is spoken in the current language's locale and the sentence is
   * echoed, with no navigation and no language switch.
   */
  lemma UnmatchedSentenceEffects(text: string, current: string)
    requires var l := ToLower(text);
      && !ContainsAny(l, OrderWords) && !ContainsAny(l, MarketWords)
      && !ContainsAny(l, AnalyticsWords) && !ContainsAny(l, CommunityWords)
      && !ContainsAny(l, HindiWords) && !ContainsAny(l, MarathiWords)
      && !ContainsAny(l, EnglishWords) && !ContainsAny(l, HomeWords)
    ensures ProcessCommand(text, current) ==
      [Speak(NotUnderstood.say, Locale(current)), ToastInfo(Echo(text))]
  {
    RouteOrder(text);
  }

  /** Example: "xyzzy plugh" is answered with the apology and echoed, and nothing else happens. */
  lemma UnknownSentenceEffects(current: string)
    ensures ProcessCommand("xyzzy plugh", current) ==
      [Speak(NotUnderstood.say, Locale(current)), ToastInfo(Echo("xyzzy plugh"))]
  {
    var l := ToLower("xyzzy plugh");
    assert l == "xyzzy plugh";
    NothingFiresOnGibberish(l);
    NoLanguageInGibberish(l);
    UnmatchedSentenceEffects("xyzzy plugh", current);
  }

  /**
   * The microphone button's state. `language` is the display language, which
   * every spoken answer reads at the moment it speaks; `recognizerLocale` is
   * the locale the current recogniser was started with, fixed at its start.
   */
  class VoiceButton {
    var listening: bool
    var language: string
    var recognizerLocale: Option<string>

    constructor (lang: string)
      ensures !listening && language == lang && recognizerLocale == None
    {
      listening := false;
      language := lang;
      recognizerLocale := None;
    }

    /**
     * `startListening`. Without a recognition capability an error notice is
     * the only effect and nothing starts; otherwise a recogniser is started
     * with the locale of the current language.
     */
    method StartListening(available: bool) returns (outcome: Result<string, Effect>)
      modifies this`recognizerLocale
      ensures !available ==>
        outcome == Err(ToastError("Speech recognition not supported in this browser"))
        && recognizerLocale == old(recognizerLocale)
      ensures available ==> outcome == Ok(Locale(language)) && recognizerLocale == Some(Locale(language))
    {
      if !available {
        return Err(ToastError("Speech recognition not supported in this browser"));
      }
      recognizerLocale := Some(Locale(language));
      outcome := Ok(Locale(language));
    }

    /** The display language changes elsewhere (the language menu) while a recogniser may be running; the recogniser keeps its locale. */
    method LanguageChanged(code: string)
      modifies this`language
      ensures language == code
    {
      language := code;
    }

    method OnStart()
      modifies this`listening
      ensures listening
    {
      listening := true;
    }

    method OnEnd()
      modifies this`listening
      ensures !listening
    {
      listening := false;
    }

    method OnError() returns (e: Effect)
      modifies this`listening
      ensures !listening && e == ToastError("Voice recognition error")
    {
      listening := false;
      e := ToastError("Voice recognition error");
    }

    /**
     * A result arrives: only the first alternative of the first result is
     * processed against the display language of this moment, a language
     * switch it asks for becomes the display language, and the answer is
     * spoken in the locale of the display language it leaves behind.
     */
    method OnResult(results: seq<seq<string>>) returns (effects: seq<Effect>)
      requires recognizerLocale.Some?
      requires |results| > 0 && |results[0]| > 0
      modifies this`language
      ensures effects == ProcessCommand(results[0][0], old(language))
      ensures language ==
        if Route(results[0][0]).ChangeLanguage? then Route(results[0][0]).code else old(language)
      ensures Speak(Route(results[0][0]).say, Locale(language)) in effects
    {
      var transcript := results[0][0];
      effects := ProcessCommand(transcript, language);
      if effects[0].SetLanguage? {
        language := effects[0].code;
      }
    }
  }
}
