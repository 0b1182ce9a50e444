/**
 * The two searches of `parse_json_format`, with Python `re` semantics:
 * `re.search` tries start positions left to right and takes the first that
 * matches; a lazy `.*?` tries the shortest extension first and `.` never
 * matches a newline; a greedy `\s*` takes the longest run of whitespace and
 * gives characters back only when the rest of the pattern fails.
 *
 *   array pattern   \[\s*\{.*?\}\s*\]
 *   object pattern  \{\s*.*?\s*\}
 */
module RegexScan {
  import opened Wrappers
  import opened PyText

  /** A match of a pattern in a subject: the half-open range `[start, end)`. */
  datatype Span = Span(start: nat, end: nat)

  /** Where a greedy `\s*` that starts at `k` stops: the first non-whitespace index, or `|s|`. */
  function SkipSpaces(s: string, k: nat): (r: nat)
    requires k <= |s|
    ensures k <= r <= |s|
    ensures forall t :: k <= t < r ==> IsSpace(s[t])
    ensures r == |s| || !IsSpace(s[r])
    decreases |s| - k
  {
    if k == |s| || !IsSpace(s[k]) then k else SkipSpaces(s, k + 1)
  }

  /** No newline in `s[a..b]`, so `.*` can cover it. */
  predicate NoNewline(s: string, a: nat, b: nat)
    requires a <= b <= |s|
  {
    forall t :: a <= t < b ==> s[t] != '\n'
  }

  // ---------------------------------------------------------------------------
  // Array pattern \[\s*\{.*?\}\s*\]

  /** The tail `\}\s*\]` of the array pattern matches at `k`. */
  predicate ArrayClosesAt(s: string, k: nat) {
    k < |s| && s[k] == '}' && SkipSpaces(s, k + 1) < |s| && s[SkipSpaces(s, k + 1)] == ']'
  }

  /**
   * Declarative reading of the array pattern: starting at `i`, with the lazy
   * `.*?` ending at `k`. Since `\s` never matches `{`, `}` or `]`, each greedy
   * `\s*` can only take its longest run.
   */
  predicate ArrayMatch(s: string, i: nat, k: nat) {
    && i < |s| && s[i] == '['
    && SkipSpaces(s, i + 1) < k < |s|
    && s[SkipSpaces(s, i + 1)] == '{'
    && NoNewline(s, SkipSpaces(s, i + 1) + 1, k)
    && ArrayClosesAt(s, k)
  }

  /** `.*?\}\s*\]` from `k`: extend the lazy part one character at a time. */
  function ArrayLazy(s: string, k: nat): (r: Option<nat>)
    requires k <= |s|
    ensures r.Some? ==> k <= r.value < |s| && NoNewline(s, k, r.value) && ArrayClosesAt(s, r.value)
    ensures r.Some? ==> forall t :: k <= t < r.value ==> !ArrayClosesAt(s, t)
    ensures r.None? ==> forall t :: k <= t < |s| && NoNewline(s, k, t) ==> !ArrayClosesAt(s, t)
    decreases |s| - k
  {
    if k == |s| then None
    else if ArrayClosesAt(s, k) then Some(k)
    else if s[k] == '\n' then None
    else ArrayLazy(s, k + 1)
  }

  /** The array pattern anchored at `i`: the end of its lazy part, if it matches. */
  function ArrayAt(s: string, i: nat): (r: Option<nat>)
    ensures r.Some? ==> ArrayMatch(s, i, r.value)
    ensures r.Some? ==> forall t: nat :: t < r.value ==> !ArrayMatch(s, i, t)
    ensures r.None? ==> forall t :: !ArrayMatch(s, i, t)
  {
    if i < |s| && s[i] == '[' && SkipSpaces(s, i + 1) < |s| && s[SkipSpaces(s, i + 1)] == '{' then
      ArrayLazy(s, SkipSpaces(s, i + 1) + 1)
    else None
  }

  /** The text an array match covers ends just after the `]`. */
  function ArrayEnd(s: string, k: nat): nat
    requires ArrayClosesAt(s, k)
  {
    SkipSpaces(s, k + 1) + 1
  }

  /** `re.search(json_array_pattern, s)`, trying start positions from `from` on. */
  function SearchArray(s: string, from: nat): (r: Option<Span>)
    ensures r.Some? ==> from <= r.value.start < r.value.end <= |s| && s[r.value.start] == '[' && s[r.value.end - 1] == ']'
    decreases |s| - from
  {
    if from >= |s| then None
    else match ArrayAt(s, from)
      case Some(k) => Some(Span(from, ArrayEnd(s, k)))
      case None => SearchArray(s, from + 1)
  }

  /**
   * A match found by `SearchArray` is the leftmost match, with the shortest lazy
   * part at its start; when there is none, no start position from `from` on matches.
   */
  lemma {:induction false} SearchArrayLeftmost(s: string, from: nat)
    ensures SearchArray(s, from).Some? ==>
              var sp := SearchArray(s, from).value;
              exists k :: ArrayMatch(s, sp.start, k) && sp.end == ArrayEnd(s, k)
                      && forall t: nat :: t < k ==> !ArrayMatch(s, sp.start, t)
    ensures SearchArray(s, from).Some? ==> forall i, k :: from <= i < SearchArray(s, from).value.start ==> !ArrayMatch(s, i, k)
    ensures SearchArray(s, from).None? ==> forall i, k :: from <= i ==> !ArrayMatch(s, i, k)
    decreases |s| - from
  {
    if from < |s| {
      match ArrayAt(s, from)
      case Some(k) =>
        assert ArrayMatch(s, from, k);
      case None =>
        SearchArrayLeftmost(s, from + 1);
        forall i, k | from <= i && (SearchArray(s, from).Some? ==> i < SearchArray(s, from).value.start)
          ensures !ArrayMatch(s, i, k)
        {
          if i > from {
            assert from + 1 <= i;
          }
        }
    }
  }

  // ---------------------------------------------------------------------------
  // Object pattern \{\s*.*?\s*\}

  /** The tail `\s*\}` of the object pattern matches at `q`. */
  predicate ObjectClosesAt(s: string, q: nat)
    requires q <= |s|
  {
    SkipSpaces(s, q) < |s| && s[SkipSpaces(s, q)] == '}'
  }

  /**
   * Declarative reading of the object pattern: `{` at `i`, the first `\s*`
   * taking its longest run, and the lazy `.*?` ending at `q`.
   * `FirstSpaceRunIsEnough` shows that giving back whitespace from the first
   * `\s*` never finds a match the longest run misses.
   */
  predicate ObjectMatch(s: string, i: nat, q: nat) {
    && i < |s| && s[i] == '{'
    && SkipSpaces(s, i + 1) <= q <= |s|
    && NoNewline(s, SkipSpaces(s, i + 1), q)
    && ObjectClosesAt(s, q)
  }

  /** `.*?\s*\}` from `q`: extend the lazy part one character at a time. */
  function ObjectLazy(s: string, q: nat): (r: Option<nat>)
    requires q <= |s|
    ensures r.Some? ==> q <= r.value <= |s| && NoNewline(s, q, r.value) && ObjectClosesAt(s, r.value)
    ensures r.Some? ==> forall t :: q <= t < r.value ==> !ObjectClosesAt(s, t)
    ensures r.None? ==> forall t :: q <= t <= |s| && NoNewline(s, q, t) ==> !ObjectClosesAt(s, t)
    decreases |s| - q
  {
    if ObjectClosesAt(s, q) then Some(q)
    else if q < |s| && s[q] != '\n' then ObjectLazy(s, q + 1)
    else None
  }

  /**
   * The backtracking of the first `\s*`: it first takes `w` characters up to its
   * longest run, then gives them back one at a time down to `lo`.
   */
  function ObjectBacktrack(s: string, w: nat, lo: nat): Option<nat>
    requires lo <= w <= |s|
    decreases w - lo
  {
    match ObjectLazy(s, w)
    case Some(q) => Some(q)
    case None => if w > lo then ObjectBacktrack(s, w - 1, lo) else None
  }

  /** When the lazy part fails from the end `p` of a whitespace run, it fails from inside that run too. */
  lemma {:induction false} LazyFailsInsideRun(s: string, w: nat, p: nat)
    requires w <= p <= |s|
    requires forall t :: w <= t < p ==> IsSpace(s[t])
    requires p == |s| || !IsSpace(s[p])
    requires ObjectLazy(s, p).None?
    ensures ObjectLazy(s, w).None?
    decreases p - w
  {
    if w < p {
      assert SkipSpaces(s, w) == p by { SkipRun(s, w, p); }
      if s[w] != '\n' {
        LazyFailsInsideRun(s, w + 1, p);
      }
    }
  }

  /** `SkipSpaces` from anywhere inside a whitespace run reaches its end. */
  lemma {:induction false} SkipRun(s: string, w: nat, p: nat)
    requires w <= p <= |s|
    requires forall t :: w <= t < p ==> IsSpace(s[t])
    requires p == |s| || !IsSpace(s[p])
    ensures SkipSpaces(s, w) == p
    decreases p - w
  {
    if w < p {
      SkipRun(s, w + 1, p);
    }
  }

  /** Backtracking over the first `\s*` finds exactly what its longest run finds. */
  lemma {:induction false} BacktrackFromRun(s: string, w: nat, lo: nat, p: nat)
    requires lo <= w <= p <= |s|
    requires forall t :: lo <= t < p ==> IsSpace(s[t])
    requires p == |s| || !IsSpace(s[p])
    requires w == p || ObjectLazy(s, p).None?
    ensures ObjectBacktrack(s, w, lo) == ObjectLazy(s, p)
    decreases w - lo
  {
    if w < p {
      LazyFailsInsideRun(s, w, p);
    }
    if ObjectLazy(s, w).None? && w > lo {
      BacktrackFromRun(s, w - 1, lo, p);
    }
  }

  /** Giving back whitespace from the first `\s*` never finds a match its longest run misses. */
  lemma FirstSpaceRunIsEnough(s: string, i: nat)
    requires i < |s| && s[i] == '{'
    ensures ObjectBacktrack(s, SkipSpaces(s, i + 1), i + 1) == ObjectLazy(s, SkipSpaces(s, i + 1))
  {
    var p := SkipSpaces(s, i + 1);
    BacktrackFromRun(s, p, i + 1, p);
  }

  /** The object pattern anchored at `i`, with Python's backtracking order: the lazy part is shortest. */
  function ObjectAt(s: string, i: nat): (r: Option<nat>)
    ensures r.Some? ==> ObjectMatch(s, i, r.value)
    ensures r.Some? ==> forall t: nat :: t < r.value ==> !ObjectMatch(s, i, t)
    ensures r.None? ==> forall t :: !ObjectMatch(s, i, t)
  {
    if i < |s| && s[i] == '{' then
      FirstSpaceRunIsEnough(s, i);
      ObjectBacktrack(s, SkipSpaces(s, i + 1), i + 1)
    else None
  }

  /** The text an object match covers ends just after the `}`. */
  function ObjectEnd(s: string, q: nat): nat
    requires q <= |s| && ObjectClosesAt(s, q)
  {
    SkipSpaces(s, q) + 1
  }

  /** `re.search(json_object_pattern, s)`, trying start positions from `from` on. */
  function SearchObject(s: string, from: nat): (r: Option<Span>)
    ensures r.Some? ==> from <= r.value.start < r.value.end <= |s| && s[r.value.start] == '{' && s[r.value.end - 1] == '}'
    decreases |s| - from
  {
    if from >= |s| then None
    else match ObjectAt(s, from)
      case Some(q) => Some(Span(from, ObjectEnd(s, q)))
      case None => SearchObject(s, from + 1)
  }

  /**
   * A match found by `SearchObject` is the leftmost match, with the shortest lazy
   * part at its start; when there is none, no start position from `from` on matches.
   */
  lemma {:induction false} SearchObjectLeftmost(s: string, from: nat)
    ensures SearchObject(s, from).Some? ==>
              var sp := SearchObject(s, from).value;
              exists q :: ObjectMatch(s, sp.start, q) && sp.end == ObjectEnd(s, q)
                      && forall t: nat :: t < q ==> !ObjectMatch(s, sp.start, t)
    ensures SearchObject(s, from).Some? ==> forall i, q :: from <= i < SearchObject(s, from).value.start ==> !ObjectMatch(s, i, q)
    ensures SearchObject(s, from).None? ==> forall i, q :: from <= i ==> !ObjectMatch(s, i, q)
    decreases |s| - from
  {
    if from < |s| {
      match ObjectAt(s, from)
      case Some(q) =>
        assert ObjectMatch(s, from, q);
      case None =>
        SearchObjectLeftmost(s, from + 1);
        forall i, q | from <= i && (SearchObject(s, from).Some? ==> i < SearchObject(s, from).value.start)
          ensures !ObjectMatch(s, i, q)
        {
          if i > from {
            assert from + 1 <= i;
          }
        }
    }
  }
}
