/**
 * The declarative reading of the canned responders on both sides of the app:
 * an ordered list of keyword groups, each with its reply; the reply of the
 * first group with a keyword occurring in the lower-cased message wins, and a
 * default reply is given when no group fires.
 */
module KeywordTable {
  import opened Text

  datatype Rule<R> = Rule(keywords: seq<string>, reply: R)

  /** Some keyword of `rule` occurs in `lower`. */
  ghost predicate Fires<R>(rule: Rule<R>, lower: string) {
    exists k :: k in rule.keywords && Occurs(lower, k)
  }

  /** `i` is the first rule of `rules` that fires on `lower`. */
  ghost predicate FirstFiring<R>(rules: seq<Rule<R>>, lower: string, i: int) {
    && 0 <= i < |rules|
    && Fires(rules[i], lower)
    && forall j :: 0 <= j < i ==> !Fires(rules[j], lower)
  }

  /** `reply` is what the table answers to the lower-cased message `lower`. */
  ghost predicate Answers<R>(rules: seq<Rule<R>>, lower: string, fallback: R, reply: R) {
    || (exists i :: FirstFiring(rules, lower, i) && reply == rules[i].reply)
    || ((forall i :: 0 <= i < |rules| ==> !Fires(rules[i], lower)) && reply == fallback)
  }

  /** A table gives at most one answer to a message. */
  lemma AnswersUnique<R>(rules: seq<Rule<R>>, lower: string, fallback: R, r1: R, r2: R)
    requires Answers(rules, lower, fallback, r1) && Answers(rules, lower, fallback, r2)
    ensures r1 == r2
  {
    if exists i :: 0 <= i < |rules| && Fires(rules[i], lower) {
      var i :| FirstFiring(rules, lower, i) && r1 == rules[i].reply;
      var j :| FirstFiring(rules, lower, j) && r2 == rules[j].reply;
      assert !(i < j) && !(j < i);
    }
  }

  /** A group of one keyword fires exactly when `includes` finds it. */
  lemma FiresOne<R>(k: string, reply: R, lower: string)
    ensures Fires(Rule([k], reply), lower) <==> Includes(lower, k)
  {
    if Includes(lower, k) {
      assert k in Rule([k], reply).keywords;
    }
  }

  /** A group of two keywords fires exactly when `includes` finds either. */
  lemma FiresTwo<R>(k1: string, k2: string, reply: R, lower: string)
    ensures Fires(Rule([k1, k2], reply), lower) <==> Includes(lower, k1) || Includes(lower, k2)
  {
    var rule := Rule([k1, k2], reply);
    if Includes(lower, k1) {
      assert k1 in rule.keywords;
    }
    if Includes(lower, k2) {
      assert k2 in rule.keywords;
    }
  }

  lemma AnswersFirstFiring<R>(rules: seq<Rule<R>>, lower: string, fallback: R, i: int)
    requires FirstFiring(rules, lower, i)
    ensures Answers(rules, lower, fallback, rules[i].reply)
  {
  }
}
