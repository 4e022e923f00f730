/**
 * The helpers of index.js (`inArray`, index.js:23-31) and the JavaScript string
 * operations the generator relies on: `toLowerCase`, `startsWith` and
 * `String.prototype.replace` with a string pattern (first occurrence only).
 */
module Utils {

  /** `inArray`: an index loop comparing each element with `===`. */
  method InArray<T(==)>(val: T, arr: seq<T>) returns (found: bool)
    ensures found <==> val in arr
  {
    var length := |arr|;
    for i := 0 to length
      invariant forall j :: 0 <= j < i ==> arr[j] != val
    {
      if arr[i] == val {
        return true;
      }
    }
    return false;
  }

  /** An ASCII upper-case letter. */
  predicate IsUpper(c: char) {
    'A' <= c <= 'Z'
  }

  /** `toLowerCase` restricted to ASCII: 'A'..'Z' become 'a'..'z', every other character is kept. */
  function LowerChar(c: char): char {
    if IsUpper(c) then (c as int + 32) as char else c
  }

  function LowerAscii(s: string): string {
    seq(|s|, i requires 0 <= i < |s| => LowerChar(s[i]))
  }

  /** Lower-casing leaves a string without upper-case letters as it is, and so is idempotent. */
  lemma LowerAsciiFixes(s: string)
    requires forall i :: 0 <= i < |s| ==> !IsUpper(s[i])
    ensures LowerAscii(s) == s
  {
  }

  lemma LowerAsciiIdempotent(s: string)
    ensures LowerAscii(LowerAscii(s)) == LowerAscii(s)
  {
    LowerAsciiFixes(LowerAscii(s));
  }

  predicate StartsWith(s: string, prefix: string) {
    |prefix| <= |s| && s[..|prefix|] == prefix
  }

  /**
   * `s.replace(pat, rep)` with a string pattern: the first occurrence of `pat`
   * is replaced by `rep`, taken literally; without an occurrence `s` is returned.
   */
  function ReplaceFirst(s: string, pat: string, rep: string): string
    requires |pat| > 0
    decreases |s|
  {
    if |s| < |pat| then s
    else if s[..|pat|] == pat then rep + s[|pat|..]
    else [s[0]] + ReplaceFirst(s[1..], pat, rep)
  }

  /** `pat` occurs in `s` starting at index `i`. */
  ghost predicate OccursAt(s: string, pat: string, i: int) {
    0 <= i && i + |pat| <= |s| && s[i..i + |pat|] == pat
  }

  /** `i` is the first index at which `pat` occurs in `s`. */
  ghost predicate FirstOccurrence(s: string, pat: string, i: int) {
    OccursAt(s, pat, i) && forall j :: 0 <= j < i ==> !OccursAt(s, pat, j)
  }

  lemma OccursShift(s: string, pat: string, i: int)
    requires |s| > 0 && i >= 0
    ensures OccursAt(s[1..], pat, i) <==> OccursAt(s, pat, i + 1)
  {
    if 0 <= i && i + |pat| <= |s| - 1 {
      assert s[1..][i..i + |pat|] == s[i + 1..i + 1 + |pat|];
    }
  }

  /** ReplaceFirst leaves a string without an occurrence of the pattern unchanged. */
  lemma {:induction false} ReplaceFirstAbsent(s: string, pat: string, rep: string)
    requires |pat| > 0
    requires forall i :: !OccursAt(s, pat, i)
    ensures ReplaceFirst(s, pat, rep) == s
    decreases |s|
  {
    if |s| >= |pat| {
      assert !OccursAt(s, pat, 0);
      forall i ensures !OccursAt(s[1..], pat, i) {
        if i >= 0 {
          OccursShift(s, pat, i);
        }
      }
      ReplaceFirstAbsent(s[1..], pat, rep);
    }
  }

  /**
   * ReplaceFirst agrees with the splice definition of `replace`: exactly the
   * first occurrence is cut out and `rep` put in its place.
   */
  lemma {:induction false} ReplaceFirstSplices(s: string, pat: string, rep: string, i: int)
    requires |pat| > 0
    requires FirstOccurrence(s, pat, i)
    ensures ReplaceFirst(s, pat, rep) == s[..i] + rep + s[i + |pat|..]
    decreases |s|
  {
    if s[..|pat|] == pat {
      assert OccursAt(s, pat, 0);
    } else {
      var t := s[1..];
      assert i >= 1;
      OccursShift(s, pat, i - 1);
      forall j | 0 <= j < i - 1 ensures !OccursAt(t, pat, j) {
        OccursShift(s, pat, j);
      }
      ReplaceFirstSplices(t, pat, rep, i - 1);
      assert [s[0]] + t[..i - 1] == s[..i];
      assert t[i - 1 + |pat|..] == s[i + |pat|..];
    }
  }

  /** A string that starts with the pattern has that leading copy replaced. */
  lemma ReplaceFirstLeading(pat: string, rest: string, rep: string)
    requires |pat| > 0
    ensures ReplaceFirst(pat + rest, pat, rep) == rep + rest
  {
    assert (pat + rest)[..|pat|] == pat;
    assert (pat + rest)[|pat|..] == rest;
  }

  /**
   * The `./` strip of index.js:77-78: a path that starts with `./` loses that
   * one prefix (the first occurrence of `./` is then at index 0); any other
   * path is returned unchanged.
   */
  function StripDotSlash(path: string): (r: string)
    ensures StartsWith(path, "./") ==> r == path[2..]
    ensures !StartsWith(path, "./") ==> r == path
  {
    if StartsWith(path, "./") then ReplaceFirst(path, "./", "") else path
  }

  /** Only one `./` is removed: a doubled prefix keeps its second copy. */
  lemma {:induction false} StripDotSlashOnce(rest: string)
    ensures StripDotSlash("./" + rest) == rest
    ensures StripDotSlash("././" + rest) == "./" + rest
  {
    assert ("./" + rest)[2..] == rest;
    assert StartsWith("./" + rest, "./");
    assert "././" + rest == "./" + ("./" + rest);
  }
}
