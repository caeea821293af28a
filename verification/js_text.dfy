/**
 The JavaScript string operations the front-end relies on, over `seq<char>`:
 `indexOf`, `includes`, `startsWith`, `split(sep)[1]` and `replace` with a string pattern.
 */
module JsText {
  import opened Base

  /** `pat` occurs in `s` starting at index `k`. */
  predicate MatchAt(s: string, k: nat, pat: string) {
    k + |pat| <= |s| && s[k..k + |pat|] == pat
  }

  /** `s.startsWith(p)` */
  predicate StartsWith(s: string, p: string) {
    MatchAt(s, 0, p)
  }

  /** `s.indexOf(pat, from)`, with `None` standing for -1: the first match at or after `from`. */
  function IndexOfFrom(s: string, pat: string, from: nat): (r: Option<nat>)
    ensures r.Some? ==> from <= r.value && MatchAt(s, r.value, pat)
    ensures forall k: nat :: from <= k && (r.Some? ==> k < r.value) ==> !MatchAt(s, k, pat)
    decreases |s| - from
  {
    if |s| < from + |pat| then None
    else if s[from..from + |pat|] == pat then Some(from)
    else IndexOfFrom(s, pat, from + 1)
  }

  /** `s.indexOf(pat)` */
  function IndexOf(s: string, pat: string): (r: Option<nat>)
    ensures r.Some? ==> MatchAt(s, r.value, pat)
    ensures forall k: nat :: (r.Some? ==> k < r.value) ==> !MatchAt(s, k, pat)
  {
    IndexOfFrom(s, pat, 0)
  }

  /** `s.includes(pat)` */
  predicate Includes(s: string, pat: string) {
    IndexOf(s, pat).Some?
  }

  /** A match anywhere makes `includes` true. */
  lemma IncludesAt(s: string, pat: string, k: nat)
    requires MatchAt(s, k, pat)
    ensures Includes(s, pat)
  {
  }

  /** A string none of whose characters starts `pat` does not include it. */
  lemma ExcludesByFirstChar(s: string, pat: string)
    requires |pat| > 0 && forall i :: 0 <= i < |s| ==> s[i] != pat[0]
    ensures !Includes(s, pat)
  {
    forall k: nat | k + |pat| <= |s|
      ensures !MatchAt(s, k, pat)
    {
      assert s[k..k + |pat|][0] == s[k];
    }
  }

  /** The search from `from` finds exactly the match `m` when no match lies in between. */
  lemma IndexOfFromIs(s: string, pat: string, from: nat, m: nat)
    requires from <= m && MatchAt(s, m, pat)
    requires forall k: nat :: from <= k < m ==> !MatchAt(s, k, pat)
    ensures IndexOfFrom(s, pat, from) == Some(m)
  {
  }

  /** A prefix survives appending. */
  lemma StartsWithAppend(a: string, b: string, p: string)
    requires StartsWith(a, p)
    ensures StartsWith(a + b, p)
  {
    assert (a + b)[..|p|] == a[..|p|];
  }

  /** A non-empty prefix fixes the first character of the string. */
  lemma StartsWithFirstChar(s: string, p: string)
    requires |p| > 0 && StartsWith(s, p)
    ensures |s| > 0 && s[0] == p[0]
  {
    assert s[..|p|][0] == p[0];
  }

  /**
   `s.split(sep)[1]`: the text after the first occurrence of `sep`, up to the next
   occurrence or the end of `s`; `None` stands for `undefined` when `sep` does not occur.
   */
  function SplitSecond(s: string, sep: string): (r: Option<string>)
    requires sep != ""
    ensures r.Some? <==> Includes(s, sep)
  {
    match IndexOf(s, sep)
    case None => None
    case Some(i) =>
      var start := i + |sep|;
      match IndexOfFrom(s, sep, start)
      case None => Some(s[start..])
      case Some(j) => Some(s[start..j])
  }

  /**
   Independent characterisation of `split(sep)[1]`: splitting `a + sep + h + t` yields `h`
   whenever `sep` first occurs right after `a`, no occurrence starts inside `h`, and `t` is
   empty or begins with the next occurrence.
   */
  lemma SplitSecondOfParts(a: string, sep: string, h: string, t: string)
    requires sep != ""
    requires forall k: nat :: k < |a| ==> !MatchAt(a + sep + h + t, k, sep)
    requires forall k: nat :: |a| + |sep| <= k < |a| + |sep| + |h| ==> !MatchAt(a + sep + h + t, k, sep)
    requires t == [] || StartsWith(t, sep)
    ensures SplitSecond(a + sep + h + t, sep) == Some(h)
  {
    var s := a + sep + h + t;
    var start := |a| + |sep|;
    assert s[|a|..start] == sep;
    IndexOfFromIs(s, sep, 0, |a|);
    assert s[start..start + |h|] == h;
    if t == [] {
      assert s[start..] == h;
      forall k: nat | start <= k
        ensures !MatchAt(s, k, sep)
      {
        if k >= start + |h| {
          assert k + |sep| > |s|;
        }
      }
      assert IndexOfFrom(s, sep, start).None?;
    } else {
      assert s[start + |h|..start + |h| + |sep|] == t[..|sep|];
      IndexOfFromIs(s, sep, start, start + |h|);
    }
  }

  /**
   `s.replace(pat, replacement)` with a string pattern: only the first occurrence is replaced.
   The replacement is inserted literally; JavaScript would expand `$&`, `$$` and the like in it,
   which makes no difference for the empty replacement this model uses.
   */
  function ReplaceFirst(s: string, pat: string, replacement: string): (r: string)
    ensures StartsWith(s, pat) ==> r == replacement + s[|pat|..]
    ensures !Includes(s, pat) ==> r == s
  {
    match IndexOf(s, pat)
    case None => s
    case Some(i) => s[..i] + replacement + s[i + |pat|..]
  }
}
