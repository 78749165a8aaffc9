/**
 * The pieces of TypeScript's runtime semantics that the front end relies on:
 * `String.prototype.trim`, truthiness of strings and ids, and the
 * `a || b || 'fallback'` chains that pick an error message.
 */
module Js {
  import opened Wrappers
  import Text

  /**
   * The characters `trim` removes: ECMAScript's WhiteSpace (tab, vertical
   * tab, form feed, space, no-break space, the byte-order mark and the
   * space separators) and LineTerminator (line feed, carriage return,
   * line and paragraph separators).
   */
  const Whitespace: set<char> := {
    '\t', '\n', '\U{0B}', '\U{0C}', '\r', ' ', '\U{A0}', '\U{1680}',
    '\U{2000}', '\U{2001}', '\U{2002}', '\U{2003}', '\U{2004}', '\U{2005}',
    '\U{2006}', '\U{2007}', '\U{2008}', '\U{2009}', '\U{200A}',
    '\U{2028}', '\U{2029}', '\U{202F}', '\U{205F}', '\U{3000}', '\U{FEFF}'
  }

  /** `s.trim()`. */
  function Trim(s: string): (r: string)
    ensures Text.IsStripped(r, Whitespace)
    ensures r == [] <==> Text.AllIn(s, Whitespace)
  {
    Text.Strip(s, Whitespace)
  }

  /** A string that is neither `null`/`undefined` nor `''`. */
  predicate TruthyText(s: Option<string>)
  {
    s.Some? && s.value != ""
  }

  /** A numeric id that is neither `null` nor `0`. */
  predicate TruthyId(id: Option<int>)
  {
    id.Some? && id.value != 0
  }

  /**
   * `candidates[0] || candidates[1] || … || fallback`: the first truthy
   * candidate, or the fallback when none is truthy.
   */
  function FirstTruthy(candidates: seq<Option<string>>, fallback: string): (r: string)
    ensures fallback != "" ==> r != ""
    ensures forall k ::
      (0 <= k < |candidates| && TruthyText(candidates[k]) && forall j :: 0 <= j < k ==> !TruthyText(candidates[j]))
      ==> r == candidates[k].value
    ensures (forall k :: 0 <= k < |candidates| ==> !TruthyText(candidates[k])) ==> r == fallback
  {
    if candidates == [] then fallback
    else if TruthyText(candidates[0]) then candidates[0].value
    else
      var r := FirstTruthy(candidates[1..], fallback);
      assert forall k :: 1 <= k < |candidates| ==> candidates[k] == candidates[1..][k - 1];
      r
  }
}
