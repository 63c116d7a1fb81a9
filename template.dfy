/**
 * URL templates. A template such as `https://example.com/forms/${formId}.xml`
 * holds a placeholder `${formId}`, with optional white space inside the
 * braces; the first placeholder is replaced by a form's id.
 */
module Template {
  import opened Wrappers
  import opened Chars

  /**
   * `p` is exactly one placeholder: `${`, white space, `formId`, white
   * space, `}` (the regular expression /\$\{\s*formId\s*\}/).
   */
  ghost predicate IsPlaceholder(p: string) {
    exists a :: 2 <= a <= |p| - 7 && IsPlaceholderSplit(p, a)
  }

  /** `p` is a placeholder whose word `formId` starts at index `a`. */
  ghost predicate IsPlaceholderSplit(p: string, a: int)
    requires 2 <= a <= |p| - 7
  {
    && p[..2] == "${"
    && AllSpace(p[2..a])
    && p[a..a + 6] == "formId"
    && AllSpace(p[a + 6..|p| - 1])
    && p[|p| - 1] == '}'
  }

  /** No placeholder occurs in `t` at any index below `bound`. */
  ghost predicate NoPlaceholderBefore(t: string, bound: int) {
    forall k, l :: 0 <= k < bound && k <= l <= |t| ==> !IsPlaceholder(t[k..l])
  }

  /** The length of the run of white space at the start of `s`. */
  function SpaceRun(s: string): (n: nat)
    ensures n <= |s| && AllSpace(s[..n])
    ensures n < |s| ==> !IsSpace(s[n])
  {
    if s != [] && IsSpace(s[0]) then
      var m := SpaceRun(s[1..]);
      assert s[..1 + m] == [s[0]] + s[1..][..m];
      1 + m
    else 0
  }

  /** A slice of a prefix is a slice of the whole. */
  lemma SliceOfPrefix(s: string, i: nat, j: nat, n: nat)
    requires i <= j <= n <= |s|
    ensures s[..n][i..j] == s[i..j]
  {
  }

  /** A prefix of a suffix is a slice of the whole. */
  lemma PrefixOfSuffix(s: string, i: nat, m: nat)
    requires i + m <= |s|
    ensures s[i..][..m] == s[i..i + m]
  {
  }

  /** The pieces PlaceholderLen checks, in `s`, make `s[..b + 1]` a placeholder. */
  lemma PlaceholderFromPieces(s: string, a: nat, b: nat)
    requires 2 <= a && a + 6 <= b < |s|
    requires s[..2] == "${" && AllSpace(s[2..a]) && s[a..a + 6] == "formId"
    requires AllSpace(s[a + 6..b]) && s[b] == '}'
    ensures IsPlaceholder(s[..b + 1])
  {
    var p := s[..b + 1];
    SliceOfPrefix(s, 0, 2, b + 1);
    SliceOfPrefix(s, 2, a, b + 1);
    SliceOfPrefix(s, a, a + 6, b + 1);
    SliceOfPrefix(s, a + 6, b, b + 1);
    assert p[..2] == p[0..2];
    assert IsPlaceholderSplit(p, a);
  }

  /** The length of the placeholder that `s` starts with, if it starts with one. */
  function PlaceholderLen(s: string): (r: Option<nat>)
    ensures r.Some? ==> 9 <= r.value <= |s|
  {
    if |s| < 2 || s[..2] != "${" then None
    else
      var a := 2 + SpaceRun(s[2..]);
      if |s| < a + 6 || s[a..a + 6] != "formId" then None
      else
        var b := a + 6 + SpaceRun(s[a + 6..]);
        if b < |s| && s[b] == '}' then Some(b + 1) else None
  }

  /** Every length PlaceholderLen reports is that of a placeholder at the start of `s`. */
  lemma PlaceholderLenSound(s: string)
    ensures PlaceholderLen(s).Some? ==> IsPlaceholder(s[..PlaceholderLen(s).value])
  {
    if PlaceholderLen(s).Some? {
      var a := 2 + SpaceRun(s[2..]);
      var b := a + 6 + SpaceRun(s[a + 6..]);
      PrefixOfSuffix(s, 2, a - 2);
      PrefixOfSuffix(s, a + 6, b - a - 6);
      PlaceholderFromPieces(s, a, b);
    }
  }

  /** A run of white space followed by a character that is not white space has a fixed length. */
  lemma SpaceRunExact(u: string, w: nat)
    requires w < |u| && AllSpace(u[..w]) && !IsSpace(u[w])
    ensures SpaceRun(u) == w
  {
  }

  /** PlaceholderLen reports the length that its pieces, located in `s`, add up to. */
  lemma PlaceholderLenOfPieces(s: string, a: nat, b: nat)
    requires 2 <= a && a + 6 <= b < |s|
    requires s[..2] == "${" && SpaceRun(s[2..]) == a - 2 && s[a..a + 6] == "formId"
    requires SpaceRun(s[a + 6..]) == b - a - 6 && s[b] == '}'
    ensures PlaceholderLen(s) == Some(b + 1)
  {
  }

  /** The white space that a placeholder holds, located in `s`, is what SpaceRun measures. */
  lemma SpaceRunInPlaceholder(s: string, n: nat, lo: nat, hi: nat)
    requires lo <= hi < n <= |s|
    requires AllSpace(s[..n][lo..hi]) && !IsSpace(s[hi])
    ensures SpaceRun(s[lo..]) == hi - lo
  {
    SliceOfPrefix(s, lo, hi, n);
    PrefixOfSuffix(s, lo, hi - lo);
    assert s[lo..][hi - lo] == s[hi];
    SpaceRunExact(s[lo..], hi - lo);
  }

  /** PlaceholderLen finds every placeholder that `s` starts with. */
  lemma PlaceholderLenComplete(s: string, n: nat)
    requires n <= |s| && IsPlaceholder(s[..n])
    ensures PlaceholderLen(s) == Some(n)
  {
    var a :| 2 <= a <= n - 7 && IsPlaceholderSplit(s[..n], a);
    assert s[..2] == "${" by {
      SliceOfPrefix(s, 0, 2, n);
      assert s[..n][..2] == s[..n][0..2] && s[..2] == s[0..2];
    }
    assert s[a..a + 6] == "formId" by {
      SliceOfPrefix(s, a, a + 6, n);
    }
    assert s[a] == s[a..a + 6][0];
    SpaceRunInPlaceholder(s, n, 2, a);
    assert s[n - 1] == s[..n][n - 1];
    SpaceRunInPlaceholder(s, n, a + 6, n - 1);
    PlaceholderLenOfPieces(s, a, n - 1);
  }

  /**
   * The template `t` with its first placeholder replaced by `id`; a template
   * without a placeholder is returned unchanged. The id is inserted
   * literally.
   */
  function Substitute(t: string, id: string): string {
    SubstituteFrom(t, id, 0)
  }

  /** The search for the first placeholder, from index `k` on. */
  function SubstituteFrom(t: string, id: string, k: nat): string
    decreases |t| - k
  {
    if k >= |t| then t
    else
      match PlaceholderLen(t[k..])
      case Some(n) => t[..k] + id + t[k + n..]
      case None => SubstituteFrom(t, id, k + 1)
  }

  /** The search passes over every index at which no placeholder starts. */
  lemma {:induction false} SearchSkips(t: string, id: string, k: nat, i: nat)
    requires k <= i <= |t|
    requires forall m :: k <= m < i ==> PlaceholderLen(t[m..]).None?
    ensures SubstituteFrom(t, id, k) == SubstituteFrom(t, id, i)
    decreases i - k
  {
    if k < i {
      SearchSkips(t, id, k + 1, i);
    }
  }

  /** PlaceholderLenSound, for the search at index `k` of `t`. */
  lemma PlaceholderLenSoundAt(t: string, k: nat)
    requires k <= |t|
    ensures PlaceholderLen(t[k..]).Some? ==> IsPlaceholder(t[k..k + PlaceholderLen(t[k..]).value])
  {
    PlaceholderLenSound(t[k..]);
    if PlaceholderLen(t[k..]).Some? {
      PrefixOfSuffix(t, k, PlaceholderLen(t[k..]).value);
    }
  }

  /** Every placeholder is at least nine characters long and starts with a dollar sign. */
  lemma PlaceholderStartsWithDollar(p: string)
    ensures IsPlaceholder(p) ==> |p| >= 9 && p[0] == '$'
  {
    if IsPlaceholder(p) {
      var a :| 2 <= a <= |p| - 7 && IsPlaceholderSplit(p, a);
      assert p[..2][0] == p[0];
    }
  }

  /** Where no placeholder occurs, PlaceholderLen finds none. */
  lemma NoPlaceholderAt(t: string, bound: int, k: nat)
    requires NoPlaceholderBefore(t, bound) && k < bound && k <= |t|
    ensures PlaceholderLen(t[k..]).None?
  {
    PlaceholderLenSoundAt(t, k);
  }

  /** Where no placeholder starts before index `bound`, the search finds nothing there. */
  lemma NothingFoundBefore(t: string, bound: nat)
    requires bound <= |t| + 1 && NoPlaceholderBefore(t, bound)
    ensures forall m :: 0 <= m < bound && m <= |t| ==> PlaceholderLen(t[m..]).None?
  {
    forall m | 0 <= m < bound && m <= |t|
      ensures PlaceholderLen(t[m..]).None?
    {
      NoPlaceholderAt(t, bound, m);
    }
  }

  /** The search replaces the placeholder at the first index where one starts. */
  lemma SubstituteAt(t: string, id: string, i: nat, n: nat)
    requires i < |t| && PlaceholderLen(t[i..]) == Some(n)
    requires forall m :: 0 <= m < i ==> PlaceholderLen(t[m..]).None?
    ensures Substitute(t, id) == t[..i] + id + t[i + n..]
  {
    SearchSkips(t, id, 0, i);
  }

  /** A template without any placeholder comes back unchanged. */
  lemma SubstituteNoPlaceholder(t: string, id: string)
    requires NoPlaceholderBefore(t, |t| + 1)
    ensures Substitute(t, id) == t
  {
    NothingFoundBefore(t, |t| + 1);
    SearchSkips(t, id, 0, |t|);
  }

  /**
   * When the first placeholder of `t` is `t[i..j]`, substitution yields the
   * text before it, then `id`, then the text after it, unchanged.
   */
  lemma SubstituteFirst(t: string, id: string, i: nat, j: nat)
    requires i <= j <= |t| && IsPlaceholder(t[i..j])
    requires NoPlaceholderBefore(t, i)
    ensures Substitute(t, id) == t[..i] + id + t[j..]
  {
    NothingFoundBefore(t, i);
    assert PlaceholderLen(t[i..]) == Some(j - i) by {
      PrefixOfSuffix(t, i, j - i);
      PlaceholderLenComplete(t[i..], j - i);
    }
    SubstituteAt(t, id, i, j - i);
  }

  /** A template with no `$` among its first `bound` characters has no placeholder starting there. */
  lemma NoDollarNoPlaceholder(t: string, bound: nat)
    requires bound <= |t| && '$' !in t[..bound]
    ensures NoPlaceholderBefore(t, bound)
  {
    forall k, l | 0 <= k < bound && k <= l <= |t|
      ensures !IsPlaceholder(t[k..l])
    {
      assert t[..bound][k] == t[k];
      PlaceholderStartsWithDollar(t[k..l]);
      assert |t[k..l]| > 0 ==> t[k..l][0] == t[k];
    }
  }

  /**
   * A template made of text without `$`, then `${formId}`, then any text:
   * the shape of the download and manifest URL templates in the test suite
   * (`https://example.com/formXml?formId=${formId}`).
   */
  lemma SubstitutePlainPrefix(prefix: string, suffix: string, id: string)
    requires '$' !in prefix
    ensures Substitute(prefix + "${formId}" + suffix, id) == prefix + id + suffix
  {
    var t := prefix + "${formId}" + suffix;
    var i, j := |prefix|, |prefix| + 9;
    assert t[..i] == prefix;
    NoDollarNoPlaceholder(t, i);
    var p := t[i..j];
    assert p == "${formId}";
    assert p[2..2] == [] && p[8..8] == [];
    assert IsPlaceholderSplit(p, 2);
    SubstituteFirst(t, id, i, j);
    assert t[j..] == suffix;
  }
}
