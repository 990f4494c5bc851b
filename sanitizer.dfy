/**
 * A stand-in for PythonIdentifierSanitizer. The renderer calls it as
 * `sanitize(name)` (no extra reserved names) and as
 * `sanitize(name, reserved)`. The real keyword table is not part of this
 * model; Python 3's reserved keywords stand in for it.
 */
module Sanitizer {

  const Keywords: set<string> := {
    "False", "None", "True", "and", "as", "assert", "async", "await",
    "break", "class", "continue", "def", "del", "elif", "else", "except",
    "finally", "for", "from", "global", "if", "import", "in", "is",
    "lambda", "nonlocal", "not", "or", "pass", "raise", "return", "try",
    "while", "with", "yield"
  }

  /** No keyword ends with the marker `_` that sanitizing appends. */
  lemma KeywordsEndInLetters(w: string)
    requires w in Keywords
    ensures |w| > 0 && w[|w| - 1] != '_'
  {
  }

  /**
   * A keyword or a reserved name gets a trailing `_`; any other name is
   * returned as it is.
   */
  function Sanitize(name: string, reserved: set<string>): string
  {
    if name in Keywords || name in reserved then name + "_" else name
  }

  /**
   * Sanitizing changes exactly the keywords and reserved names, only by
   * appending `_`, and never yields a keyword.
   */
  lemma SanitizeSpec(name: string, reserved: set<string>)
    ensures Sanitize(name, reserved) == name <==> name !in Keywords && name !in reserved
    ensures Sanitize(name, reserved) != name ==> Sanitize(name, reserved) == name + "_"
    ensures Sanitize(name, reserved) !in Keywords
  {
    var r := Sanitize(name, reserved);
    if r != name {
      assert r[|r| - 1] == '_';
      if r in Keywords { KeywordsEndInLetters(r); }
    }
  }

  /** With no extra reserved names, sanitizing twice is sanitizing once. */
  lemma SanitizeIdempotent(name: string)
    ensures Sanitize(Sanitize(name, {}), {}) == Sanitize(name, {})
  {
    SanitizeSpec(name, {});
  }

  /**
   * Names that do not end in `_` and differ stay different after
   * sanitizing against the same reserved set.
   */
  lemma SanitizeInjective(x: string, y: string, reserved: set<string>)
    requires x != y
    requires x == [] || x[|x| - 1] != '_'
    requires y == [] || y[|y| - 1] != '_'
    ensures Sanitize(x, reserved) != Sanitize(y, reserved)
  {
    var xr := x in Keywords || x in reserved;
    var yr := y in Keywords || y in reserved;
    if xr && yr && |x| == |y| {
      var k :| 0 <= k < |x| && x[k] != y[k];
      assert (x + "_")[k] != (y + "_")[k];
    } else if xr && !yr && |y| == |x| + 1 {
      assert (x + "_")[|x|] != y[|x|];
    } else if !xr && yr && |x| == |y| + 1 {
      assert x[|y|] != (y + "_")[|y|];
    }
  }
}
