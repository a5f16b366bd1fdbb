/**
 * An ordered table of keyword tests over a lower-cased text, of the kind
 * `handleError` in both authentication services and `requestAIAnalysis`
 * keep: the first test one of whose keys is a substring of the text decides
 * the reply. The lemmas at the end show that a test does not fire from a
 * character the text lacks, and that it fires from an occurrence.
 */
module KeywordRules {
  import opened Wrappers
  import opened JsText

  /** One test: any of the keys in the lower-cased text selects the reply. */
  datatype Rule<R> = Rule(keys: seq<string>, reply: R)

  predicate Matches<R>(lower: string, rule: Rule<R>) {
    exists k :: k in rule.keys && Contains(lower, k)
  }

  /** The first rule that matches, if any. */
  function FirstMatch<R>(lower: string, rules: seq<Rule<R>>): (r: Option<nat>)
    ensures r.Some? ==> (r.value < |rules| && Matches(lower, rules[r.value])
      && forall j :: 0 <= j < r.value ==> !Matches(lower, rules[j]))
    ensures r.None? ==> forall j :: 0 <= j < |rules| ==> !Matches(lower, rules[j])
    decreases |rules|
  {
    if rules == [] then None
    else if Matches(lower, rules[0]) then Some(0)
    else match FirstMatch(lower, rules[1..])
      case None => None
      case Some(i) => Some(i + 1)
  }

  /** The first match is the one rule that matches with no earlier rule matching. */
  lemma FirstMatchIs<R>(lower: string, rules: seq<Rule<R>>, i: nat)
    requires i < |rules| && Matches(lower, rules[i])
    requires forall j :: 0 <= j < i ==> !Matches(lower, rules[j])
    ensures FirstMatch(lower, rules) == Some(i)
  {
  }

  /** Rules added after the others decide only messages none of those match. */
  lemma {:induction false} FirstMatchAppend<R>(lower: string, a: seq<Rule<R>>, b: seq<Rule<R>>)
    ensures FirstMatch(lower, a).Some? ==> FirstMatch(lower, a + b) == FirstMatch(lower, a)
    ensures FirstMatch(lower, a).None? ==>
      FirstMatch(lower, a + b) == match FirstMatch(lower, b) case None => None case Some(i) => Some(|a| + i)
    decreases |a|
  {
    if a == [] {
      assert a + b == b;
    } else {
      assert (a + b)[0] == a[0];
      assert (a + b)[1..] == a[1..] + b;
      FirstMatchAppend(lower, a[1..], b);
    }
  }

  /** A pattern with a character the text lacks does not occur in it. */
  lemma AbsentCharacter(s: string, p: string, c: char)
    requires c in p && c !in s
    ensures !Contains(s, p)
  {
    var k :| 0 <= k < |p| && p[k] == c;
    forall i | 0 <= i <= |s| - |p| ensures !OccursAt(s, i, p) {
      assert s[i + k] in s;
      assert s[i..i + |p|][k] == s[i + k];
    }
  }

  /** A letter that occurs in neither case in `s` does not occur in `s` lower-cased. */
  lemma LowerAbsent(s: string, c: char)
    requires 'a' <= c <= 'z'
    requires forall i :: 0 <= i < |s| ==> s[i] != c && s[i] as int != c as int - 32
    ensures c !in ToLower(s)
  {
  }

  /** A rule none of whose keys occurs: `absent[k]` is a character of key `k` the text lacks. */
  lemma Unmatched<R>(lower: string, rule: Rule<R>, absent: string)
    requires |absent| == |rule.keys|
    requires forall k :: 0 <= k < |absent| ==> absent[k] in rule.keys[k] && absent[k] !in lower
    ensures !Matches(lower, rule)
  {
    forall key | key in rule.keys ensures !Contains(lower, key) {
      var k :| 0 <= k < |rule.keys| && rule.keys[k] == key;
      AbsentCharacter(lower, key, absent[k]);
    }
  }

  /** A rule one of whose keys occurs at `i`. */
  lemma MatchedAt<R>(lower: string, rule: Rule<R>, k: nat, i: nat)
    requires k < |rule.keys| && OccursAt(lower, i, rule.keys[k])
    ensures Matches(lower, rule)
  {
    assert rule.keys[k] in rule.keys && Contains(lower, rule.keys[k]);
  }

  /** A test with a single key fires exactly when that key occurs. */
  lemma SingleKey<R>(lower: string, rule: Rule<R>)
    requires |rule.keys| == 1
    ensures Matches(lower, rule) <==> Contains(lower, rule.keys[0])
  {
    assert rule.keys[0] in rule.keys;
  }
}
