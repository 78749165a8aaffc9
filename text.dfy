/**
 * Stripping a set of characters from both ends of a string: the operation
 * behind TypeScript's `String.prototype.trim` and Python's `str.strip`,
 * which differ only in the set of characters they remove.
 */
module Text {

  /** No character of `cs` at either end of `s`. */
  predicate IsStripped(s: string, cs: set<char>)
  {
    s == [] || (s[0] !in cs && s[|s| - 1] !in cs)
  }

  /** Every character of `s` belongs to `cs`. */
  predicate AllIn(s: string, cs: set<char>)
  {
    forall k :: 0 <= k < |s| ==> s[k] in cs
  }

  /** The first index at or after `i` whose character is not in `cs`, or `|s|`. */
  function StartIndex(s: string, cs: set<char>, i: nat): (start: nat)
    requires i <= |s|
    ensures i <= start <= |s|
    ensures forall k :: i <= k < start ==> s[k] in cs
    ensures start < |s| ==> s[start] !in cs
    decreases |s| - i
  {
    if i == |s| || s[i] !in cs then i else StartIndex(s, cs, i + 1)
  }

  /** The last index at or before `j`, and after `lo`, that follows a character not in `cs`, or `lo`. */
  function EndIndex(s: string, cs: set<char>, lo: nat, j: nat): (end: nat)
    requires lo <= j <= |s|
    ensures lo <= end <= j
    ensures forall k :: end <= k < j ==> s[k] in cs
    ensures end > lo ==> s[end - 1] !in cs
    decreases j
  {
    if j == lo || s[j - 1] !in cs then j else EndIndex(s, cs, lo, j - 1)
  }

  /**
   * Drops the characters of `cs` at both ends of `s`: the result is the
   * middle of `s` between its leading and its trailing run of characters of
   * `cs`, and it is empty exactly when `s` consists of such characters only.
   */
  function Strip(s: string, cs: set<char>): (r: string)
    ensures IsStripped(r, cs)
    ensures r == [] <==> AllIn(s, cs)
  {
    var i := StartIndex(s, cs, 0);
    s[i..EndIndex(s, cs, i, |s|)]
  }

  /**
   * The strip is a contiguous part of `s` that only characters of `cs`
   * precede and follow: nothing but those end runs is removed.
   */
  lemma StripRemovesOnlyEnds(s: string, cs: set<char>)
    ensures exists i, j :: 0 <= i <= j <= |s| && Strip(s, cs) == s[i..j] && AllIn(s[..i], cs) && AllIn(s[j..], cs)
  {
    var i := StartIndex(s, cs, 0);
    var j := EndIndex(s, cs, i, |s|);
    assert AllIn(s[..i], cs) by {
      forall k | 0 <= k < i ensures s[..i][k] in cs {
        assert s[..i][k] == s[k];
      }
    }
    assert AllIn(s[j..], cs) by {
      forall k | 0 <= k < |s| - j ensures s[j..][k] in cs {
        assert s[j..][k] == s[j + k];
      }
    }
  }

  /** A stripped string is its own strip. */
  lemma StrippedIsFixed(s: string, cs: set<char>)
    requires IsStripped(s, cs)
    ensures Strip(s, cs) == s
  {
    if s != [] {
      assert StartIndex(s, cs, 0) == 0;
      assert EndIndex(s, cs, 0, |s|) == |s|;
    }
  }

  /** Stripping twice is stripping once. */
  lemma StripIdempotent(s: string, cs: set<char>)
    ensures Strip(Strip(s, cs), cs) == Strip(s, cs)
  {
    StrippedIsFixed(Strip(s, cs), cs);
  }
}
