/** String scanning and JavaScript's `String.prototype.replace` with a string
    pattern, as used to fill the `{shop_id}` placeholder of an endpoint. */
module Text {
  import opened Wrappers

  /** Length of the longest prefix of `s` holding no character of `stop`. */
  function Span(s: string, stop: set<char>): (n: nat)
    ensures n <= |s|
    ensures forall i :: 0 <= i < n ==> s[i] !in stop
    ensures n < |s| ==> s[n] in stop
  {
    if s == [] || s[0] in stop then 0 else 1 + Span(s[1..], stop)
  }

  /** The three facts in Span's contract determine its value. */
  lemma SpanIs(s: string, stop: set<char>, k: nat)
    requires k <= |s|
    requires forall i :: 0 <= i < k ==> s[i] !in stop
    requires k < |s| ==> s[k] in stop
    ensures Span(s, stop) == k
  {
  }

  /** A stop character right after `s` ends the span there. */
  lemma {:induction false} SpanAppend(s: string, t: string, stop: set<char>)
    requires Span(s, stop) < |s| || (t != [] && t[0] in stop)
    ensures Span(s + t, stop) == Span(s, stop)
  {
    var n := Span(s, stop);
    assert forall i :: 0 <= i < n ==> (s + t)[i] == s[i];
    if n < |s| {
      assert (s + t)[n] == s[n];
    } else {
      assert (s + t)[n] == t[0];
    }
    SpanIs(s + t, stop, n);
  }

  /** The span ends right after a prefix free of stop characters when a stop
      character follows it. */
  lemma SpanOver(p: string, t: string, stop: set<char>)
    requires forall c :: c in stop ==> c !in p
    requires t == [] || t[0] in stop
    ensures Span(p + t, stop) == |p|
  {
    var s := p + t;
    forall i | 0 <= i < |p|
      ensures s[i] !in stop
    {
      assert s[i] == p[i] && p[i] in p;
    }
    if t != [] {
      assert s[|p|] == t[0];
    }
    SpanIs(s, stop, |p|);
  }

  /** `pat` occurs in `s` at index `i`. */
  predicate OccursAt(s: string, pat: string, i: nat) {
    i + |pat| <= |s| && s[i..i + |pat|] == pat
  }

  /** Index of the first occurrence of `pat` in `s` at or after `from`. */
  function IndexFrom(s: string, pat: string, from: nat): (r: Option<nat>)
    ensures r.Some? ==> from <= r.value && OccursAt(s, pat, r.value)
    ensures r.Some? ==> forall j :: from <= j < r.value ==> !OccursAt(s, pat, j)
    ensures r.None? ==> forall j :: from <= j ==> !OccursAt(s, pat, j)
    decreases |s| - from
  {
    if from + |pat| > |s| then None
    else if OccursAt(s, pat, from) then Some(from)
    else IndexFrom(s, pat, from + 1)
  }

  /** `s.indexOf(pat)`, with `None` for -1. */
  function IndexOf(s: string, pat: string): Option<nat> {
    IndexFrom(s, pat, 0)
  }

  /** When `pat` does not start with a character of `p`, its first occurrence
      in `p + pat + t` is right after `p`. */
  lemma FirstOccurrenceAfter(p: string, pat: string, t: string)
    requires pat != [] && pat[0] !in p
    ensures IndexOf(p + pat + t, pat) == Some(|p|)
  {
    var s := p + pat + t;
    assert s[|p|..|p| + |pat|] == pat;
    assert OccursAt(s, pat, |p|);
    forall j: nat | j < |p|
      ensures !OccursAt(s, pat, j)
    {
      assert s[j] == p[j];
    }
  }

  /** The replacement text of `String.prototype.replace` for one match
      (GetSubstitution, section 22.1.3.19.1 of ECMAScript 2024, for a string
      pattern: no capture groups). `$$` is a dollar sign, `$&` the match,
      `` $` `` the text before it and `$'` the text after it; any other `$`
      stands for itself. */
  function Substitution(rep: string, matched: string, before: string, after: string): string
    decreases |rep|
  {
    if |rep| >= 2 && rep[0] == '$' && rep[1] in "$&`'" then
      var piece := if rep[1] == '$' then "$" else if rep[1] == '&' then matched
                   else if rep[1] == '`' then before else after;
      piece + Substitution(rep[2..], matched, before, after)
    else if rep == [] then []
    else [rep[0]] + Substitution(rep[1..], matched, before, after)
  }

  /** Replacement text without `$` is inserted literally. */
  lemma {:induction false} SubstitutionLiteral(rep: string, matched: string, before: string, after: string)
    requires '$' !in rep
    ensures Substitution(rep, matched, before, after) == rep
  {
    if rep != [] {
      assert rep[0] != '$';
      assert rep == [rep[0]] + rep[1..];
      SubstitutionLiteral(rep[1..], matched, before, after);
    }
  }

  /** `s.replace(pat, rep)` with a string `pat`: only the first occurrence is
      replaced, and `s` is returned unchanged when `pat` does not occur. */
  function ReplaceFirst(s: string, pat: string, rep: string): (r: string)
    ensures (forall j :: 0 <= j ==> !OccursAt(s, pat, j)) ==> r == s
  {
    match IndexOf(s, pat)
    case None => s
    case Some(i) =>
      s[..i] + Substitution(rep, pat, s[..i], s[i + |pat|..]) + s[i + |pat|..]
  }

  /** With a `$`-free replacement, exactly the first occurrence is replaced by
      `rep`; everything before and after it is kept. */
  lemma ReplaceFirstLiteral(s: string, pat: string, rep: string, i: nat)
    requires '$' !in rep
    requires OccursAt(s, pat, i)
    requires forall j :: 0 <= j < i ==> !OccursAt(s, pat, j)
    ensures ReplaceFirst(s, pat, rep) == s[..i] + rep + s[i + |pat|..]
  {
    assert IndexOf(s, pat) == Some(i);
    SubstitutionLiteral(rep, pat, s[..i], s[i + |pat|..]);
  }
}
