/**
 * The pieces of Python's string semantics that the agent relies on:
 * `str.strip()`, `str.splitlines()` and `sep.join(xs)`.
 */
module Py {
  import Text

  /**
   * The characters `str.strip()` removes when given no argument: those
   * Python's `str.isspace` accepts (the ASCII controls tab to carriage
   * return, the separators 0x1C to 0x1F, space, next line, no-break space
   * and the Unicode space separators).
   */
  const Whitespace: set<char> := {
    '\t', '\n', '\U{0B}', '\U{0C}', '\r', '\U{1C}', '\U{1D}', '\U{1E}', '\U{1F}',
    ' ', '\U{85}', '\U{A0}', '\U{1680}',
    '\U{2000}', '\U{2001}', '\U{2002}', '\U{2003}', '\U{2004}', '\U{2005}',
    '\U{2006}', '\U{2007}', '\U{2008}', '\U{2009}', '\U{200A}',
    '\U{2028}', '\U{2029}', '\U{202F}', '\U{205F}', '\U{3000}'
  }

  /** The characters at which `str.splitlines()` ends a line (`\r\n` counts as one boundary). */
  const LineBoundaries: set<char> := {
    '\n', '\r', '\U{0B}', '\U{0C}', '\U{1C}', '\U{1D}', '\U{1E}', '\U{85}', '\U{2028}', '\U{2029}'
  }

  /** `s.strip()`. */
  function Strip(s: string): (r: string)
    ensures Text.IsStripped(r, Whitespace)
    ensures r == [] <==> Text.AllIn(s, Whitespace)
  {
    Text.Strip(s, Whitespace)
  }

  predicate NoLineBoundary(s: string)
  {
    forall k :: 0 <= k < |s| ==> s[k] !in LineBoundaries
  }

  /** The index of the first line boundary in `s`, or `|s|` when there is none. */
  function LineEnd(s: string): (i: nat)
    ensures i <= |s|
    ensures NoLineBoundary(s[..i])
    ensures i < |s| ==> s[i] in LineBoundaries
  {
    if s == [] || s[0] in LineBoundaries then 0
    else
      var i := 1 + LineEnd(s[1..]);
      assert forall k :: 1 <= k < i ==> s[..i][k] == s[1..][..i - 1][k - 1];
      i
  }

  /**
   * `s.splitlines()`: the lines of `s` without their boundaries. A final
   * boundary does not open an extra empty line, and the empty string has
   * no lines at all.
   */
  function SplitLines(s: string): (lines: seq<string>)
    ensures forall k :: 0 <= k < |lines| ==> NoLineBoundary(lines[k])
    ensures s == [] <==> lines == []
    decreases |s|
  {
    if s == [] then []
    else
      var i := LineEnd(s);
      if i == |s| then
        assert s[..i] == s;
        [s]
      else
        var next := if s[i] == '\r' && i + 1 < |s| && s[i + 1] == '\n' then i + 2 else i + 1;
        [s[..i]] + SplitLines(s[next..])
  }

  /** The lines `ls`, each followed by a line feed. */
  function Terminated(ls: seq<string>): string
  {
    if ls == [] then "" else ls[0] + "\n" + Terminated(ls[1..])
  }

  /** A line followed by a line feed splits off as the first line. */
  lemma {:induction false} SplitLinesCons(line: string, rest: string)
    requires NoLineBoundary(line)
    ensures SplitLines(line + "\n" + rest) == [line] + SplitLines(rest)
  {
    var s := line + "\n" + rest;
    LineEndOf(line, rest);
    assert s[..|line|] == line;
    assert s[|line| + 1..] == rest;
  }

  lemma {:induction false} LineEndOf(line: string, rest: string)
    requires NoLineBoundary(line)
    ensures LineEnd(line + "\n" + rest) == |line|
  {
    var s := line + "\n" + rest;
    if line != [] {
      assert s[1..] == line[1..] + "\n" + rest;
      LineEndOf(line[1..], rest);
    }
  }

  /** Splitting line-feed-terminated lines gives the lines back. */
  lemma {:induction false} SplitLinesTerminated(ls: seq<string>)
    requires forall k :: 0 <= k < |ls| ==> NoLineBoundary(ls[k])
    ensures SplitLines(Terminated(ls)) == ls
  {
    if ls != [] {
      SplitLinesCons(ls[0], Terminated(ls[1..]));
      SplitLinesTerminated(ls[1..]);
    }
  }

  /** `sep.join(xs)`. */
  function Join(sep: string, xs: seq<string>): (r: string)
    ensures xs == [] ==> r == ""
    ensures |xs| == 1 ==> r == xs[0]
  {
    if xs == [] then ""
    else if |xs| == 1 then xs[0]
    else xs[0] + sep + Join(sep, xs[1..])
  }

  /** Joining one more element appends the separator and that element. */
  lemma {:induction false} JoinSnoc(sep: string, xs: seq<string>, y: string)
    requires xs != []
    ensures Join(sep, xs + [y]) == Join(sep, xs) + sep + y
  {
    if |xs| > 1 {
      assert (xs + [y])[1..] == xs[1..] + [y];
      JoinSnoc(sep, xs[1..], y);
    }
  }

  /** Where the `k`-th element starts in `Join(sep, xs)`. */
  function Offset(sep: string, xs: seq<string>, k: nat): nat
    requires k < |xs|
  {
    if k == 0 then 0 else |xs[0]| + |sep| + Offset(sep, xs[1..], k - 1)
  }

  /**
   * Every element can be found in the joined string at its offset, and a
   * separator follows every element but the last: the elements are laid
   * out in order.
   */
  lemma {:induction false} JoinAt(sep: string, xs: seq<string>, k: nat)
    requires k < |xs|
    ensures var o := Offset(sep, xs, k); var r := Join(sep, xs);
      o + |xs[k]| <= |r| && r[o..o + |xs[k]|] == xs[k]
      && (k + 1 < |xs| ==> o + |xs[k]| + |sep| <= |r| && r[o + |xs[k]|..o + |xs[k]| + |sep|] == sep)
  {
    if |xs| > 1 {
      var head := xs[0] + sep;
      var tail := Join(sep, xs[1..]);
      assert Join(sep, xs) == head + tail;
      if k == 0 {
        assert (head + tail)[..|xs[0]|] == xs[0];
        assert (head + tail)[|xs[0]|..|head|] == sep;
      } else {
        JoinAt(sep, xs[1..], k - 1);
        var o := Offset(sep, xs[1..], k - 1);
        assert xs[1..][k - 1] == xs[k];
        SliceShift(head, tail, o, o + |xs[k]|);
        if k + 1 < |xs| {
          SliceShift(head, tail, o + |xs[k]|, o + |xs[k]| + |sep|);
        }
      }
    }
  }

  lemma SliceShift(p: string, t: string, i: nat, j: nat)
    requires i <= j <= |t|
    ensures (p + t)[|p| + i..|p| + j] == t[i..j]
  {
  }

  /** Stripping never brings a line boundary into a string that has none. */
  lemma StripKeepsNoLineBoundary(s: string, cs: set<char>)
    requires NoLineBoundary(s)
    ensures NoLineBoundary(Text.Strip(s, cs))
  {
    var i := Text.StartIndex(s, cs, 0);
    var r := Text.Strip(s, cs);
    forall k | 0 <= k < |r| ensures r[k] !in LineBoundaries {
      assert r[k] == s[i + k];
      assert s[i + k] !in LineBoundaries;
    }
  }
}
