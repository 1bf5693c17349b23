/** The language menu: the supported languages, the button label, the highlighted entry and the menu's open state. */
module LanguageSwitcher {
  import opened Wrappers

  /** A supported language: the code the translator uses and the text the menu shows for it (its `label`). */
  datatype Language = Language(code: string, display: string)

  const Languages: seq<Language> := [
    Language("en", "EN"),
    Language("hi", "हिंदी"),
    Language("mr", "मराठी")
  ]

  /** `find`: the first entry of `ls` with the given code, if any. */
  function FindIn(ls: seq<Language>, code: string): (r: Option<Language>)
    ensures r.Some? <==> exists i :: 0 <= i < |ls| && ls[i].code == code
    ensures r.Some? ==>
      exists i :: 0 <= i < |ls| && ls[i] == r.value && r.value.code == code && (forall j :: 0 <= j < i ==> ls[j].code != code)
  {
    if ls == [] then None
    else if ls[0].code == code then Some(ls[0])
    else
      var r := FindIn(ls[1..], code);
      assert forall i :: 1 <= i < |ls| ==> ls[i] == ls[1..][i - 1];
      r
  }

  /** The codes are exactly en, hi and mr, and no two entries share one. */
  lemma CodesDistinct()
    ensures |Languages| == 3
    ensures [Languages[0].code, Languages[1].code, Languages[2].code] == ["en", "hi", "mr"]
    ensures forall i, j ::
      (0 <= i < |Languages| && 0 <= j < |Languages| && Languages[i].code == Languages[j].code) ==> i == j
  {
  }

  /** The label on the menu button: the current language's label, or nothing when the code is not in the table. */
  function ButtonLabel(language: string): (r: Option<string>)
    ensures r.Some? <==> exists i :: 0 <= i < |Languages| && Languages[i].code == language
    ensures r.Some? ==> exists i :: 0 <= i < |Languages| && Languages[i] == Language(language, r.value)
  {
    match FindIn(Languages, language)
    case None => None
    case Some(l) => Some(l.display)
  }

  /** Which entries are drawn highlighted: those whose code is the current language. */
  function Highlighted(language: string): (hs: seq<bool>)
    ensures |hs| == |Languages|
    ensures forall i :: 0 <= i < |hs| ==> (hs[i] <==> Languages[i].code == language)
  {
    seq(|Languages|, i requires 0 <= i < |Languages| => Languages[i].code == language)
  }

  /** For a supported language exactly one entry is highlighted, and it carries the button's label; otherwise none is. */
  lemma ExactlyOneHighlighted(language: string)
    ensures var hs := Highlighted(language);
      (forall i, j :: 0 <= i < |hs| && 0 <= j < |hs| && hs[i] && hs[j] ==> i == j) &&
      ((exists i :: 0 <= i < |hs| && hs[i]) <==> ButtonLabel(language).Some?) &&
      (forall i :: 0 <= i < |hs| && hs[i] ==> ButtonLabel(language) == Some(Languages[i].display))
  {
    CodesDistinct();
  }

  /** The switcher's state: whether the menu is open, and the translator's current language. */
  class Switcher {
    var open: bool
    var language: string

    constructor (initial: string)
      ensures !open && language == initial
    {
      open := false;
      language := initial;
    }

    /** The globe button flips the menu. */
    method ToggleMenu()
      modifies this`open
      ensures open == !old(open)
    {
      open := !open;
    }

    /** Clicking an entry switches to its language and closes the menu. */
    method Choose(i: nat)
      requires i < |Languages|
      modifies this
      ensures language == Languages[i].code && !open
      ensures ButtonLabel(language) == Some(Languages[i].display)
    {
      language := Languages[i].code;
      open := false;
      CodesDistinct();
    }

    /** A mouse press anywhere on the page: one outside the switcher closes the menu, one inside leaves it as it is. */
    method MouseDown(inside: bool)
      modifies this`open
      ensures open == (old(open) && inside)
    {
      if !inside {
        open := false;
      }
    }
  }
}
