/**
 * `extract_before_parenthesis` (pyopenagi/tools/travel_planner/googleDistanceMatrix.py):
 * `re.search(r'^(.*?)\([^)]*\)', s)`, returning group 1 on a match and `s` otherwise.
 * `^` anchors the search at the start of the string, the lazy `(.*?)` cannot
 * cross a newline, and `[^)]*` runs (across newlines too) up to the first `)`.
 */
module DistanceMatrix {
  import opened Wrappers
  import opened RegexScan

  /** Some `)` occurs after index `i`. */
  predicate CloseAfter(s: string, i: nat) {
    exists t :: i < t < |s| && s[t] == ')'
  }

  /** The first `(` at or after `l`, or `|s|`. */
  function FirstOpen(s: string, l: nat): (p: nat)
    requires l <= |s|
    ensures l <= p <= |s| && (p < |s| ==> s[p] == '(')
    ensures forall t :: l <= t < p ==> s[t] != '('
    decreases |s| - l
  {
    if l == |s| || s[l] == '(' then l else FirstOpen(s, l + 1)
  }

  /**
   * The lazy group: try to close it at `l`, `l + 1`, ... in turn; at each try
   * `\([^)]*\)` needs a `(` there and some `)` after it.
   */
  function LazyGroupEnd(s: string, l: nat): (r: Option<nat>)
    requires l <= |s|
    ensures r.Some? <==> FirstOpen(s, l) < |s| && NoNewline(s, l, FirstOpen(s, l)) && CloseAfter(s, FirstOpen(s, l))
    ensures r.Some? ==> r.value == FirstOpen(s, l)
    decreases |s| - l
  {
    if l < |s| && s[l] == '(' && CloseAfter(s, l) then Some(l)
    else if l < |s| && s[l] != '\n' then
      var r := LazyGroupEnd(s, l + 1);
      assert s[l] == '(' ==> !CloseAfter(s, FirstOpen(s, l + 1));
      r
    else None
  }

  /** `extract_before_parenthesis`; the result is always a prefix of the input. */
  function ExtractBeforeParenthesis(s: string): (r: string)
    ensures r <= s
  {
    match LazyGroupEnd(s, 0)
    case Some(l) => s[..l]
    case None => s
  }

  /**
   * The result is the text before the first `(` when no newline precedes it
   * and some `)` follows it; otherwise the input unchanged. Later groups never matter.
   */
  lemma ExtractMeaning(s: string)
    ensures var p := FirstOpen(s, 0);
            ExtractBeforeParenthesis(s) ==
              if p < |s| && NoNewline(s, 0, p) && CloseAfter(s, p) then s[..p] else s
  {
  }

  /** A cut result holds no `(`, so cutting again changes nothing. */
  lemma {:induction false} ExtractIdempotent(s: string)
    ensures ExtractBeforeParenthesis(ExtractBeforeParenthesis(s)) == ExtractBeforeParenthesis(s)
  {
    var r := ExtractBeforeParenthesis(s);
    if r != s {
      var p := FirstOpen(s, 0);
      assert r == s[..p];
      assert forall t :: 0 <= t < |r| ==> r[t] != '(';
      assert FirstOpen(r, 0) == |r| by { FirstOpenNone(r, 0); }
    }
  }

  /** With no `(` from `l` on, `FirstOpen` runs to the end. */
  lemma {:induction false} FirstOpenNone(s: string, l: nat)
    requires l <= |s|
    requires forall t :: l <= t < |s| ==> s[t] != '('
    ensures FirstOpen(s, l) == |s|
    decreases |s| - l
  {
    if l < |s| {
      FirstOpenNone(s, l + 1);
    }
  }

  /** `"Boston (MA)"` becomes `"Boston "`; only the first group counts; a newline before `(` or a missing `)` leaves the text alone. */
  lemma ExtractExamples()
    ensures ExtractBeforeParenthesis("Boston (MA)") == "Boston "
    ensures ExtractBeforeParenthesis("A (x) B (y)") == "A "
    ensures ExtractBeforeParenthesis("A\n(x)") == "A\n(x)"
    ensures ExtractBeforeParenthesis("Boston (MA") == "Boston (MA"
  {
    var b := "Boston (MA)";
    assert b[7] == '(' && b[10] == ')';
    assert FirstOpen(b, 0) == 7;
    assert CloseAfter(b, 7);
    var a := "A (x) B (y)";
    assert a[2] == '(' && a[4] == ')';
    assert FirstOpen(a, 0) == 2;
    assert CloseAfter(a, 2);
    var n := "A\n(x)";
    assert n[1] == '\n' && FirstOpen(n, 0) == 2;
    var m := "Boston (MA";
    assert FirstOpen(m, 0) == 7;
    assert !CloseAfter(m, 7);
  }
}
