/**
 * The few Python `str` operations the viewer page relies on, written out
 * over `seq<char>`: `endswith`, `startswith`, the first field of
 * `split(sep)` and `replace(pattern, "")`.
 */
module Text {

  /** `s.startswith(prefix)`. */
  predicate StartsWith(s: string, prefix: string) {
    |prefix| <= |s| && s[..|prefix|] == prefix
  }

  /** `s.endswith(suffix)`. */
  predicate EndsWith(s: string, suffix: string) {
    |suffix| <= |s| && s[|s| - |suffix|..] == suffix
  }

  /** `a + suffix` ends with `suffix`, and cutting it off gives back `a`. */
  lemma EndsWithJoin(a: string, suffix: string)
    ensures EndsWith(a + suffix, suffix)
    ensures (a + suffix)[..|a|] == a
  {
  }

  /** A string does not end with a suffix whose last character differs from its own. */
  lemma EndsWithLast(s: string, suffix: string)
    requires s != [] && suffix != [] && s[|s| - 1] != suffix[|suffix| - 1]
    ensures !EndsWith(s, suffix)
  {
  }

  /** Cutting a suffix off and putting it back gives the string again. */
  lemma EndsWithSplit(s: string, suffix: string)
    requires EndsWith(s, suffix)
    ensures s == s[..|s| - |suffix|] + suffix
  {
  }

  /** `pattern` occurs somewhere in `s` as a contiguous substring. */
  predicate Occurs(s: string, pattern: string) {
    StartsWith(s, pattern) || (s != [] && Occurs(s[1..], pattern))
  }

  /**
   * `s.split(sep)[0]` for a one-character separator: the longest prefix of
   * `s` that does not contain `sep`.
   */
  function FirstField(s: string, sep: char): (r: string)
    ensures sep !in r
    ensures r <= s
    ensures |r| < |s| ==> s[|r|] == sep
  {
    if s == [] || s[0] == sep then [] else [s[0]] + FirstField(s[1..], sep)
  }

  /** The first field of `a + [sep] + b` is `a` when `a` holds no `sep`. */
  lemma FirstFieldOfJoin(a: string, sep: char, b: string)
    requires sep !in a
    ensures FirstField(a + [sep] + b, sep) == a
  {
    var s := a + [sep] + b;
    assert s[|a|] == sep;
  }

  /**
   * `s.replace(pattern, "")`: scanning left to right, every occurrence of
   * `pattern` that does not overlap one already removed is dropped.
   */
  function RemoveAll(s: string, pattern: string): (r: string)
    requires pattern != []
    ensures |r| <= |s|
    ensures forall c :: c in r ==> c in s
    decreases |s|
  {
    if s == [] then []
    else if StartsWith(s, pattern) then RemoveAll(s[|pattern|..], pattern)
    else [s[0]] + RemoveAll(s[1..], pattern)
  }

  /** Removing `pattern` changes nothing exactly when `pattern` does not occur. */
  lemma {:induction false} RemoveAllIdentity(s: string, pattern: string)
    requires pattern != []
    ensures RemoveAll(s, pattern) == s <==> !Occurs(s, pattern)
  {
    if Occurs(s, pattern) {
      RemoveAllShrinks(s, pattern);
    } else {
      RemoveAllUnchanged(s, pattern);
    }
  }

  lemma {:induction false} RemoveAllUnchanged(s: string, pattern: string)
    requires pattern != [] && !Occurs(s, pattern)
    ensures RemoveAll(s, pattern) == s
    decreases |s|
  {
    if s != [] {
      RemoveAllUnchanged(s[1..], pattern);
      assert s == [s[0]] + s[1..];
    }
  }

  lemma {:induction false} RemoveAllShrinks(s: string, pattern: string)
    requires pattern != [] && Occurs(s, pattern)
    ensures |RemoveAll(s, pattern)| < |s|
    decreases |s|
  {
    if !StartsWith(s, pattern) {
      RemoveAllShrinks(s[1..], pattern);
    }
  }

  /** A leading occurrence is removed and scanning resumes right after it. */
  lemma RemoveAllLeading(pattern: string, s: string)
    requires pattern != []
    ensures RemoveAll(pattern + s, pattern) == RemoveAll(s, pattern)
  {
  }

  /**
   * Removal is a single pass: it can bring two halves of the pattern
   * together, so its result may still contain the pattern.
   */
  lemma RemovalCanJoinPattern()
    ensures RemoveAll("susub-b-", "sub-") == "sub-"
    ensures Occurs(RemoveAll("susub-b-", "sub-"), "sub-")
  {
    var p := "sub-";
    assert "susub-b-"[..4] == "susu" && "susub-b-"[1..] == "usub-b-";
    assert "usub-b-"[..4] == "usub" && "usub-b-"[1..] == "sub-b-";
    assert StartsWith("sub-b-", p) && "sub-b-"[|p|..] == "b-";
    assert !StartsWith("b-", p) && "b-"[1..] == "-";
    assert !StartsWith("-", p) && "-"[1..] == [];
    assert RemoveAll("-", p) == "-";
    assert RemoveAll("b-", p) == "b-";
    assert RemoveAll("sub-b-", p) == "b-";
    assert RemoveAll("susub-b-", p) == "su" + "b-";
    assert StartsWith("sub-", p);
  }
}
