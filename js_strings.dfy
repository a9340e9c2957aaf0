/**
 * The parts of JavaScript's string semantics the code relies on: `String.prototype.replace`
 * with a string pattern (first occurrence only, with the `$` replacement patterns), the `\s`
 * class of regular expressions, and `trim`.
 */
module JsStrings {
  import opened Wrappers

  /** `p` occurs in `s` starting at index `k`. */
  predicate OccursAt(s: string, p: string, k: nat) {
    k + |p| <= |s| && s[k..k + |p|] == p
  }

  /** The first index at or after `from` where `p` occurs in `s`. */
  function FindFrom(s: string, p: string, from: nat): (r: Option<nat>)
    ensures r.Some? ==> from <= r.value && OccursAt(s, p, r.value)
    ensures r.Some? ==> forall k :: from <= k < r.value ==> !OccursAt(s, p, k)
    ensures r.None? ==> forall k :: from <= k ==> !OccursAt(s, p, k)
    decreases |s| - from
  {
    if from + |p| > |s| then None
    else if s[from..from + |p|] == p then Some(from)
    else FindFrom(s, p, from + 1)
  }

  /** `s.indexOf(p)`: the first index where `p` occurs, if any (an empty `p` occurs at 0). */
  function FindFirst(s: string, p: string): (r: Option<nat>)
    ensures r.Some? ==> OccursAt(s, p, r.value) && forall k :: 0 <= k < r.value ==> !OccursAt(s, p, k)
    ensures r.None? ==> forall k :: !OccursAt(s, p, k)
  {
    FindFrom(s, p, 0)
  }

  /**
   * The replacement text for one match (GetSubstitution with no capture groups): `$$` gives `$`,
   * `$&` the match, `` $` `` the text before it, `$'` the text after it; any other `$` is literal.
   */
  function Expand(rep: string, matched: string, before: string, after: string): string
    decreases |rep|
  {
    if rep == [] then []
    else if rep[0] == '$' && |rep| >= 2 && rep[1] == '$' then "$" + Expand(rep[2..], matched, before, after)
    else if rep[0] == '$' && |rep| >= 2 && rep[1] == '&' then matched + Expand(rep[2..], matched, before, after)
    else if rep[0] == '$' && |rep| >= 2 && rep[1] == '`' then before + Expand(rep[2..], matched, before, after)
    else if rep[0] == '$' && |rep| >= 2 && rep[1] == '\'' then after + Expand(rep[2..], matched, before, after)
    else [rep[0]] + Expand(rep[1..], matched, before, after)
  }

  predicate DollarFree(s: string) {
    forall k :: 0 <= k < |s| ==> s[k] != '$'
  }

  /** A replacement without `$` is inserted as it is. */
  lemma {:induction false} ExpandDollarFree(rep: string, matched: string, before: string, after: string)
    requires DollarFree(rep)
    ensures Expand(rep, matched, before, after) == rep
  {
    if rep != [] {
      assert DollarFree(rep[1..]);
      ExpandDollarFree(rep[1..], matched, before, after);
    }
  }

  /** `s.replace(p, rep)` with a string pattern: only the first occurrence is replaced. */
  function ReplaceFirst(s: string, p: string, rep: string): (r: string)
    ensures FindFirst(s, p).None? ==> r == s
    ensures FindFirst(s, p).Some? ==> var i := FindFirst(s, p).value;
      r == s[..i] + Expand(rep, p, s[..i], s[i + |p|..]) + s[i + |p|..]
  {
    match FindFirst(s, p)
    case None => s
    case Some(i) => s[..i] + Expand(rep, p, s[..i], s[i + |p|..]) + s[i + |p|..]
  }

  /*
   * Placeholders. The templates mark each slot with `{{NAME}}`; their text elsewhere has at most
   * single braces (JSON examples), which can never begin a placeholder.
   */

  predicate Placeholder(p: string) {
    |p| >= 2 && p[0] == '{' && p[1] == '{'
  }

  /** Every `{` in `x` is followed, inside `x`, by something other than `{`. */
  predicate NoDoubleBrace(x: string) {
    forall k :: 0 <= k < |x| && x[k] == '{' ==> k + 1 < |x| && x[k + 1] != '{'
  }

  lemma NoDoubleBraceConcat(a: string, b: string)
    requires NoDoubleBrace(a) && NoDoubleBrace(b)
    ensures NoDoubleBrace(a + b)
  {
    forall k | 0 <= k < |a + b| && (a + b)[k] == '{' ensures k + 1 < |a + b| && (a + b)[k + 1] != '{' {
      if k < |a| {
        assert (a + b)[k + 1] == a[k + 1];
      } else {
        assert (a + b)[k] == b[k - |a|];
        assert (a + b)[k + 1] == b[k - |a| + 1];
      }
    }
  }

  /** No placeholder can start inside text without a double brace, whatever follows it. */
  lemma NoPlaceholderStartsIn(x: string, y: string, p: string)
    requires Placeholder(p) && NoDoubleBrace(x)
    ensures forall k :: 0 <= k < |x| ==> !OccursAt(x + y, p, k)
  {

  }

  /** `p` first occurs in `s` at `i`. */
  lemma FirstOccurrence(s: string, p: string, i: nat)
    requires OccursAt(s, p, i) && forall k :: 0 <= k < i ==> !OccursAt(s, p, k)
    ensures FindFirst(s, p) == Some(i)
  {
  }

  /**
   * Filling a slot: when the text before the first placeholder has no double brace and the value
   * has no `$`, the value replaces exactly that placeholder and the rest of the template is kept.
   */
  lemma FillOne(head: string, p: string, rest: string, v: string)
    requires Placeholder(p) && NoDoubleBrace(head) && DollarFree(v)
    ensures ReplaceFirst(head + p + rest, p, v) == head + v + rest
  {
    var s := head + p + rest;
    NoPlaceholderStartsIn(head, p + rest, p);
    assert s == head + (p + rest);
    assert s[|head|..|head| + |p|] == p;
    FirstOccurrence(s, p, |head|);
    ReplaceAt(head, p, rest, v);
  }

  /** A replacement without `$` at the first occurrence of `p`, found right after `head`. */
  lemma ReplaceAt(head: string, p: string, rest: string, v: string)
    requires FindFirst(head + p + rest, p) == Some(|head|) && DollarFree(v)
    ensures ReplaceFirst(head + p + rest, p, v) == head + v + rest
  {
    var s := head + p + rest;
    assert s[..|head|] == head;
    assert s[|head| + |p|..] == rest;
    ExpandDollarFree(v, p, head, rest);
  }

  /**
   * The value is not searched again: a later occurrence of the placeholder, in the template or in
   * the value itself, is left as it is.
   */
  lemma FillLeavesLaterOccurrences(head: string, p: string, rest: string, v: string)
    requires Placeholder(p) && NoDoubleBrace(head) && DollarFree(v)
    requires exists k: nat :: OccursAt(rest, p, k)
    ensures exists k: nat :: OccursAt(ReplaceFirst(head + p + rest, p, v), p, k)
  {
    FillOne(head, p, rest, v);
    var k: nat :| OccursAt(rest, p, k);
    var r := head + v + rest;
    assert r[|head| + |v| + k..|head| + |v| + k + |p|] == rest[k..k + |p|];
    assert OccursAt(r, p, |head| + |v| + k);
  }

  /*
   * ECMAScript white space: the WhiteSpace and LineTerminator code points, which are both what
   * `\s` matches and what `trim` removes.
   */

  predicate IsWhitespace(c: char) {
    var n := c as int;
    || n == 0x09 || n == 0x0A || n == 0x0B || n == 0x0C || n == 0x0D || n == 0x20
    || n == 0xA0 || n == 0x1680 || (0x2000 <= n <= 0x200A) || n == 0x2028 || n == 0x2029
    || n == 0x202F || n == 0x205F || n == 0x3000 || n == 0xFEFF
  }

  /** `\s*` matched forwards from `i`: the first index in `[i, j)` that is not white space, or `j`. */
  function SkipWs(s: string, i: nat, j: nat): (k: nat)
    requires i <= j <= |s|
    ensures i <= k <= j
    ensures forall m :: i <= m < k ==> IsWhitespace(s[m])
    ensures k < j ==> !IsWhitespace(s[k])
    decreases j - i
  {
    if i == j || !IsWhitespace(s[i]) then i else SkipWs(s, i + 1, j)
  }

  /** `\s*` matched backwards from `j`: the least `k` in `[i, j]` with only white space in `[k, j)`. */
  function BackWs(s: string, i: nat, j: nat): (k: nat)
    requires i <= j <= |s|
    ensures i <= k <= j
    ensures forall m :: k <= m < j ==> IsWhitespace(s[m])
    ensures i < k ==> !IsWhitespace(s[k - 1])
    decreases j - i
  {
    if i == j || !IsWhitespace(s[j - 1]) then j else BackWs(s, i, j - 1)
  }

  /** `SkipWs` is the only index with its properties. */
  lemma SkipWsUnique(s: string, i: nat, j: nat, k: nat)
    requires i <= k <= j <= |s|
    requires forall m :: i <= m < k ==> IsWhitespace(s[m])
    requires k < j ==> !IsWhitespace(s[k])
    ensures SkipWs(s, i, j) == k
  {
  }

  /** `BackWs` is the only index with its properties. */
  lemma BackWsUnique(s: string, i: nat, j: nat, k: nat)
    requires i <= k <= j <= |s|
    requires forall m :: k <= m < j ==> IsWhitespace(s[m])
    requires i < k ==> !IsWhitespace(s[k - 1])
    ensures BackWs(s, i, j) == k
  {
  }

  /** The bounds `s.trim()` keeps. */
  function TrimBounds(s: string): (b: (nat, nat))
    ensures b.0 <= b.1 <= |s|
  {
    var lo := SkipWs(s, 0, |s|);
    (lo, BackWs(s, lo, |s|))
  }

  /** `s.trim()`. */
  function Trim(s: string): string {
    s[TrimBounds(s).0..TrimBounds(s).1]
  }
}
