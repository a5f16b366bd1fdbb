/**
 * The two regular expressions of the salvage tier, `/"path":\s*"([^"]+)"/`
 * and `/"message":\s*"([^"]*)"/`, as explicit scanners with `String.match`'s
 * leftmost-match semantics. Both are deterministic: `\s*` stops at the quote
 * that must follow it and `[^"]` cannot run past the closing quote, so at a
 * given start index there is at most one way to match.
 */
module Salvage {
  import opened Wrappers
  import opened JsText

  const PathKey: string := "\"path\":"
  const MessageKey: string := "\"message\":"

  predicate NoQuote(c: string) {
    forall m :: 0 <= m < |c| ==> c[m] != '"'
  }

  /** First index at or after `j` holding a double quote, or `|s|`. */
  function QuoteFrom(s: string, j: nat): (k: nat)
    requires j <= |s|
    ensures j <= k <= |s| && (k < |s| ==> s[k] == '"')
    ensures forall m :: j <= m < k ==> s[m] != '"'
    decreases |s| - j
  {
    if j == |s| || s[j] == '"' then j else QuoteFrom(s, j + 1)
  }

  /**
   * The pattern `<key>\s*"(…)"` tried at index `i`: the capture when it
   * matches there. The capture class is `[^"]+`, or `[^"]*` when `allowEmpty`.
   */
  function MatchAt(s: string, i: nat, key: string, allowEmpty: bool): Option<string> {
    if OccursAt(s, i, key) then
      var j := SkipSpace(s, i + |key|);
      if j < |s| && s[j] == '"' then
        var k := QuoteFrom(s, j + 1);
        if k < |s| && (allowEmpty || k > j + 1) then Some(s[j + 1..k]) else None
      else None
    else None
  }

  /**
   * Declarative reading of the pattern: from index `i` the text is `key`,
   * then `w` whitespace characters, then `"`, the capture and `"`.
   */
  predicate PatternAt(s: string, i: nat, key: string, w: nat, cap: string, allowEmpty: bool) {
    OccursAt(s, i, key)
    && OccursAt(s, i + |key| + w, ['"'] + cap + ['"'])
    && AllSpace(s[i + |key|..i + |key| + w])
    && NoQuote(cap)
    && (allowEmpty || cap != [])
  }

  /** The scanner accepts at `i` exactly the texts the pattern describes. */
  lemma MatchAtIff(s: string, i: nat, key: string, allowEmpty: bool, cap: string)
    ensures MatchAt(s, i, key, allowEmpty) == Some(cap) <==> exists w: nat :: PatternAt(s, i, key, w, cap, allowEmpty)
  {
    if MatchAt(s, i, key, allowEmpty) == Some(cap) {
      MatchAtSound(s, i, key, allowEmpty, cap);
    }
    if w: nat :| PatternAt(s, i, key, w, cap, allowEmpty) {
      MatchAtComplete(s, i, key, allowEmpty, w, cap);
    }
  }

  lemma MatchAtSound(s: string, i: nat, key: string, allowEmpty: bool, cap: string)
    requires MatchAt(s, i, key, allowEmpty) == Some(cap)
    ensures PatternAt(s, i, key, SkipSpace(s, i + |key|) - (i + |key|), cap, allowEmpty)
  {
    var a := i + |key|;
    var j := SkipSpace(s, a);
    var k := QuoteFrom(s, j + 1);
    assert j < |s| && s[j] == '"' && k < |s| && cap == s[j + 1..k];
    var q := ['"'] + cap + ['"'];
    assert s[j..k + 1] == q by {
      forall m | 0 <= m < |q| ensures s[j..k + 1][m] == q[m] {
        if 0 < m < |q| - 1 {
          assert q[m] == cap[m - 1] == s[j + m];
        }
      }
    }
    assert OccursAt(s, j, q);
    assert AllSpace(s[a..j]) by {
      forall m | 0 <= m < j - a ensures IsSpace(s[a..j][m]) {
        assert s[a..j][m] == s[a + m];
      }
    }
    assert NoQuote(cap) by {
      forall m | 0 <= m < |cap| ensures cap[m] != '"' {
        assert cap[m] == s[j + 1 + m];
      }
    }
  }

  lemma MatchAtComplete(s: string, i: nat, key: string, allowEmpty: bool, w: nat, cap: string)
    requires PatternAt(s, i, key, w, cap, allowEmpty)
    ensures MatchAt(s, i, key, allowEmpty) == Some(cap)
  {
    var a := i + |key|;
    var q := ['"'] + cap + ['"'];
    assert s[a + w] == q[0] == '"';
    var j := SkipSpace(s, a);
    SkipStopsAtQuote(s, a, w);
    assert j == a + w;
    var k := QuoteFrom(s, j + 1);
    QuoteFromAfterCapture(s, j, cap);
    assert k == j + 1 + |cap|;
    forall m | 0 <= m < |cap| ensures s[j + 1..k][m] == cap[m] {
      assert s[j + 1 + m] == q[m + 1];
    }
    assert s[j + 1..k] == cap;
  }

  lemma SkipStopsAtQuote(s: string, a: nat, w: nat)
    requires a + w < |s| && s[a + w] == '"' && AllSpace(s[a..a + w])
    ensures SkipSpace(s, a) == a + w
  {
    var j := SkipSpace(s, a);
    assert forall m :: a <= m < a + w ==> s[m] == s[a..a + w][m - a];
  }

  lemma QuoteFromAfterCapture(s: string, j: nat, cap: string)
    requires OccursAt(s, j, ['"'] + cap + ['"']) && NoQuote(cap)
    ensures QuoteFrom(s, j + 1) == j + 1 + |cap|
  {
    var q := ['"'] + cap + ['"'];
    var k := QuoteFrom(s, j + 1);
    assert s[j + 1 + |cap|] == q[|cap| + 1];
    assert forall m :: j + 1 <= m < j + 1 + |cap| ==> s[m] == q[m - j];
  }

  /** No match can start past the end of the text. */
  lemma MatchAtBeyondEnd(s: string, i: nat, key: string, allowEmpty: bool)
    requires i > |s|
    ensures MatchAt(s, i, key, allowEmpty) == None
  {
  }

  /** `String.match` from index `i` on: the match with the smallest start index. */
  function FindFrom(s: string, i: nat, key: string, allowEmpty: bool): Option<string>
    requires i <= |s|
    decreases |s| - i
  {
    match MatchAt(s, i, key, allowEmpty)
    case Some(c) => Some(c)
    case None => if i == |s| then None else FindFrom(s, i + 1, key, allowEmpty)
  }

  /** `i` is the leftmost start of a match and the match captures `cap`. */
  predicate FirstMatchAt(s: string, key: string, allowEmpty: bool, i: nat, cap: string) {
    MatchAt(s, i, key, allowEmpty) == Some(cap)
    && forall j: nat :: j < i ==> MatchAt(s, j, key, allowEmpty).None?
  }

  lemma FindFromSpec(s: string, i: nat, key: string, allowEmpty: bool) returns (m: nat)
    requires i <= |s|
    ensures FindFrom(s, i, key, allowEmpty).Some? ==>
      i <= m <= |s| && MatchAt(s, m, key, allowEmpty) == FindFrom(s, i, key, allowEmpty)
      && forall j: nat :: i <= j < m ==> MatchAt(s, j, key, allowEmpty).None?
    ensures FindFrom(s, i, key, allowEmpty).None? ==>
      forall j: nat :: i <= j ==> MatchAt(s, j, key, allowEmpty).None?
  {
    m := i;
    if FindFrom(s, i, key, allowEmpty).Some? {
      m := FindFromSome(s, i, key, allowEmpty);
    } else {
      forall j: nat | i <= j ensures MatchAt(s, j, key, allowEmpty).None? {
        FindFromNone(s, i, key, allowEmpty, j);
      }
    }
  }

  /** A result comes from the first index, at or after `i`, where the pattern matches. */
  lemma {:induction false} FindFromSome(s: string, i: nat, key: string, allowEmpty: bool) returns (m: nat)
    requires i <= |s| && FindFrom(s, i, key, allowEmpty).Some?
    ensures i <= m <= |s| && MatchAt(s, m, key, allowEmpty) == FindFrom(s, i, key, allowEmpty)
    ensures forall j: nat :: i <= j < m ==> MatchAt(s, j, key, allowEmpty).None?
    decreases |s| - i
  {
    if MatchAt(s, i, key, allowEmpty).Some? {
      m := i;
    } else {
      m := FindFromSome(s, i + 1, key, allowEmpty);
    }
  }

  /** No result means the pattern matches at no index from `i` on. */
  lemma {:induction false} FindFromNone(s: string, i: nat, key: string, allowEmpty: bool, j: nat)
    requires i <= |s| && i <= j && FindFrom(s, i, key, allowEmpty).None?
    ensures MatchAt(s, j, key, allowEmpty).None?
    decreases |s| - i
  {
    if j > |s| {
      MatchAtBeyondEnd(s, j, key, allowEmpty);
    } else if j > i {
      FindFromNone(s, i + 1, key, allowEmpty, j);
    }
  }

  lemma FindFromLeftmost(s: string, key: string, allowEmpty: bool)
    ensures var r := FindFrom(s, 0, key, allowEmpty);
      (r.Some? ==> exists i: nat :: FirstMatchAt(s, key, allowEmpty, i, r.value))
      && (r.None? <==> forall i: nat :: MatchAt(s, i, key, allowEmpty).None?)
  {
    var m := FindFromSpec(s, 0, key, allowEmpty);
    var r := FindFrom(s, 0, key, allowEmpty);
    if r.Some? {
      assert FirstMatchAt(s, key, allowEmpty, m, r.value);
    }
  }

  /** The regex's result: the capture of its leftmost match, `None` when it does not match. */
  function Find(s: string, key: string, allowEmpty: bool): (r: Option<string>)
    ensures r.Some? ==> exists i: nat :: FirstMatchAt(s, key, allowEmpty, i, r.value)
    ensures r.None? <==> forall i: nat :: MatchAt(s, i, key, allowEmpty).None?
  {
    FindFromLeftmost(s, key, allowEmpty);
    FindFrom(s, 0, key, allowEmpty)
  }

  /** What the pattern captures has no quote, and is non-empty unless the class allows it. */
  lemma CaptureShape(s: string, key: string, allowEmpty: bool, cap: string)
    requires Find(s, key, allowEmpty) == Some(cap)
    ensures NoQuote(cap) && (allowEmpty || cap != [])
  {
    var i: nat :| FirstMatchAt(s, key, allowEmpty, i, cap);
    MatchAtIff(s, i, key, allowEmpty, cap);
  }

  /** `text.match(/"path":\s*"([^"]+)"/)?.[1]` */
  function PathCapture(text: string): (r: Option<string>)
    ensures r.Some? ==> r.value != [] && NoQuote(r.value)
  {
    var r := Find(text, PathKey, false);
    if r.Some? then CaptureShape(text, PathKey, false, r.value); r else r
  }

  /** `text.match(/"message":\s*"([^"]*)"/)?.[1]` */
  function MessageCapture(text: string): (r: Option<string>)
    ensures r.Some? ==> NoQuote(r.value)
  {
    var r := Find(text, MessageKey, true);
    if r.Some? then CaptureShape(text, MessageKey, true, r.value); r else r
  }

  /** On `{"path": "/dashboard"}` the path pattern captures `/dashboard`. */
  lemma PathCaptureExample()
    ensures PathCapture("{\"path\": \"/dashboard\"}") == Some("/dashboard")
  {
    var s := "{\"path\": \"/dashboard\"}";
    assert s[0] != PathKey[0];
    assert MatchAt(s, 0, PathKey, false).None?;
    assert s[1..8] == PathKey;
    assert s[9..21] == ['"'] + "/dashboard" + ['"'];
    assert s[8..9] == " ";
    MatchAtComplete(s, 1, PathKey, false, 1, "/dashboard");
  }

  /**
   * The salvage tier's gate: the lower-cased text mentions `navigation` or
   * `navigasi`, or the text holds `"action": "navigation"`.
   */
  predicate MentionsNavigation(text: string) {
    Contains(ToLower(text), "navigation") || Contains(ToLower(text), "navigasi")
    || Contains(text, "\"action\": \"navigation\"")
  }

  /** The third disjunct of the gate never decides: it implies the first. */
  lemma GateThirdDisjunctRedundant(text: string)
    ensures MentionsNavigation(text) <==> Contains(ToLower(text), "navigation") || Contains(ToLower(text), "navigasi")
  {
    var literal := "\"action\": \"navigation\"";
    if Contains(text, literal) {
      LiteralMentionsNavigation(text);
    }
  }

  lemma LiteralMentionsNavigation(text: string)
    requires Contains(text, "\"action\": \"navigation\"")
    ensures Contains(ToLower(text), "navigation")
  {
    var literal := "\"action\": \"navigation\"";
    ContainsInfix(text, literal, 11, 21);
    assert literal[11..21] == "navigation";
    ContainsLower(text, "navigation");
    LowerNavigation();
  }

  lemma LowerNavigation()
    ensures ToLower("navigation") == "navigation"
  {
    var w := "navigation";
    forall i | 0 <= i < |w| ensures LowerChar(w[i]) == w[i] {
      assert 'a' <= w[i] <= 'z';
    }
  }
}
