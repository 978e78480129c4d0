/** The error classifiers of the two HTTP routes are chains of
    `if (m.includes(a) || m.includes(b)) … else if …` tests in which the
    first passing test decides. Here such a chain is a table of rules, read
    from the top. */
module ErrorRules {
  import opened Js

  /** One test of a chain: the texts it looks for, and what it answers. */
  datatype Rule<T> = Rule(keywords: seq<string>, verdict: T)

  /** `text` contains at least one of `keywords`. */
  predicate Mentions(text: string, keywords: seq<string>) {
    exists i :: 0 <= i < |keywords| && Includes(text, keywords[i])
  }

  /** The keyword tests the two routes share. */
  const QuotaWords: seq<string> := ["quota", "insufficient_quota"]
  const RateWords: seq<string> := ["rate limit", "429"]
  const AuthWords: seq<string> := ["API key", "unauthorized"]
  const NetworkWords: seq<string> := ["network", "timeout"]

  /** The fixed answers both routes give to an exception of these kinds. */
  const QuotaMessage := "\U{1F3E6} OpenAI quota exceeded. Please check your billing and plan details."
  const BusyMessage := "\U{23F3} Service temporarily busy. Please try again in a few moments."
  const AuthMessage := "\U{1F511} API configuration issue. Please contact support."
  const NetworkMessage := "\U{1F310} Network connectivity issue. Please check your connection and try again."

  /** The position of the first rule whose test passes, if any. */
  function FirstMatch<T>(rules: seq<Rule<T>>, text: string): (r: Option<nat>)
    ensures r.Some? ==> r.value < |rules| && Mentions(text, rules[r.value].keywords)
    ensures forall j :: 0 <= j < |rules| && (r.None? || j < r.value) ==> !Mentions(text, rules[j].keywords)
    decreases |rules|
  {
    if rules == [] then None
    else if Mentions(text, rules[0].keywords) then Some(0)
    else
      match FirstMatch(rules[1..], text)
      case None => None
      case Some(k) =>
        assert forall j :: 1 <= j <= k ==> rules[j] == rules[1..][j - 1];
        Some(k + 1)
  }

  /** No test before position `k` passes. */
  predicate FailsBefore<T>(rules: seq<Rule<T>>, text: string, k: int) {
    forall j :: 0 <= j < k && j < |rules| ==> !Mentions(text, rules[j].keywords)
  }

  /** What the chain answers for `text`: the verdict of the first passing
      test, or `otherwise` when none passes. */
  function Classify<T>(rules: seq<Rule<T>>, text: string, otherwise: T): (r: T)
    ensures (forall j :: 0 <= j < |rules| ==> !Mentions(text, rules[j].keywords)) ==> r == otherwise
    ensures forall k :: 0 <= k < |rules| && Mentions(text, rules[k].keywords) && FailsBefore(rules, text, k) ==>
                          r == rules[k].verdict
  {
    match FirstMatch(rules, text)
    case None => otherwise
    case Some(k) => rules[k].verdict
  }

  /** A text that contains "insufficient_quota" contains "quota": the second
      keyword of the quota test never changes its outcome. */
  lemma InsufficientQuotaIsQuota(text: string)
    requires Includes(text, "insufficient_quota")
    ensures Includes(text, "quota")
  {
    IncludesIff(text, "insufficient_quota");
    var i :| OccursAt(text, "insufficient_quota", i);
    assert text[i + 13..i + 18] == "insufficient_quota"[13..18] == "quota";
    assert OccursAt(text, "quota", i + 13);
    IncludesIff(text, "quota");
  }

  /** Text found inside a part is found inside the whole. */
  lemma IncludedInConcat(a: string, b: string, c: string, sub: string)
    requires Includes(b, sub)
    ensures Includes(a + b + c, sub)
  {
    IncludesIff(b, sub);
    var i :| OccursAt(b, sub, i);
    assert (a + b + c)[|a| + i..|a| + i + |sub|] == b[i..i + |sub|];
    assert OccursAt(a + b + c, sub, |a| + i);
    IncludesIff(a + b + c, sub);
  }
}
