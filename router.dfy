/**
 * The ordered, first-match-wins keyword dispatch that both assistants use:
 * the text is lower-cased, the rules are tried from the top, a rule fires when
 * one of its keywords occurs in the text, and when none fires the fixed
 * fallback is the answer.
 */
module Router {
  import opened Text

  /** One branch of the dispatch: the alternatives of its regular expression and what it produces. */
  datatype Rule<A> = Rule(keywords: seq<string>, outcome: A)

  predicate Fires<A>(rule: Rule<A>, lower: string) {
    ContainsAny(lower, rule.keywords)
  }

  /** The index of the first rule that fires, or `|rules|` when none does. */
  function FirstMatch<A>(rules: seq<Rule<A>>, lower: string): (i: nat)
    ensures i <= |rules|
    ensures i < |rules| ==> Fires(rules[i], lower)
    ensures forall j :: 0 <= j < i ==> !Fires(rules[j], lower)
  {
    if rules == [] then 0
    else if Fires(rules[0], lower) then 0
    else 1 + FirstMatch(rules[1..], lower)
  }

  /** Dispatches `text`: the outcome of the first rule that fires on the lower-cased text, else `fallback`. */
  function Resolve<A>(rules: seq<Rule<A>>, fallback: A, text: string): (r: A)
    ensures (forall k :: 0 <= k < |rules| ==> !Fires(rules[k], ToLower(text))) ==> r == fallback
    ensures (exists k :: 0 <= k < |rules| && Fires(rules[k], ToLower(text))) ==>
      exists k :: 0 <= k < |rules| && Fires(rules[k], ToLower(text)) && r == rules[k].outcome
        && (forall j :: 0 <= j < k ==> !Fires(rules[j], ToLower(text)))
  {
    var i := FirstMatch(rules, ToLower(text));
    if i < |rules| then rules[i].outcome else fallback
  }

  /** The first-match index is determined by which rules fire: rule `k` wins exactly when it fires and no earlier rule does. */
  lemma FirstMatchIs<A>(rules: seq<Rule<A>>, lower: string, k: nat)
    requires k <= |rules|
    requires k < |rules| ==> Fires(rules[k], lower)
    requires forall j :: 0 <= j < k ==> !Fires(rules[j], lower)
    ensures FirstMatch(rules, lower) == k
  {
  }
}
