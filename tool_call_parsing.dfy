/**
 * `BaseLLM.parse_json_format` and `BaseLLM.parse_tool_calls`
 * (aios/llm_cores/base.py): scrape JSON out of free model text, then tag every
 * decoded tool call with a fresh id and `"type": "function"`.
 */
module ToolCallParsing {
  import opened Wrappers
  import opened JsonModel
  import opened RegexScan
  import opened OrderedDict

  /** The text of a match. */
  function Text(s: string, sp: Span): string
    requires sp.start <= sp.end <= |s|
  {
    s[sp.start..sp.end]
  }

  /** Decode the first match of a search, when there is one and it decodes. */
  function DecodeFirst(c: Codec, s: string, m: Option<Span>): Option<Json>
    requires m.Some? ==> m.value.start <= m.value.end <= |s|
  {
    match m
    case None => None
    case Some(sp) => c.parse(Text(s, sp))
  }

  /** `parse_json_format`: the first array-shaped match, else the first object-shaped one, else `"[]"`. */
  function ParseJsonFormat(c: Codec, s: string): string {
    match DecodeFirst(c, s, SearchArray(s, 0))
    case Some(j) => c.dumps(j)
    case None =>
      match DecodeFirst(c, s, SearchObject(s, 0))
      case Some(j) => c.dumps(j)
      case None => "[]"
  }

  /**
   * The extractor never raises and its output always decodes again: to the
   * decoded first array match, else to the decoded first object match, else
   * to the empty array. No other candidate of either shape is looked at.
   */
  lemma ExtractorOutputDecodes(c: Codec, s: string)
    requires Lawful(c)
    ensures c.parse(ParseJsonFormat(c, s)) ==
              if DecodeFirst(c, s, SearchArray(s, 0)).Some? then DecodeFirst(c, s, SearchArray(s, 0))
              else if DecodeFirst(c, s, SearchObject(s, 0)).Some? then DecodeFirst(c, s, SearchObject(s, 0))
              else Some(JArray([]))
  {
    EmptyArrayDecodes(c);
    var a := DecodeFirst(c, s, SearchArray(s, 0));
    var o := DecodeFirst(c, s, SearchObject(s, 0));
    if a.Some? {
      assert a == c.parse(Text(s, SearchArray(s, 0).value));
    } else if o.Some? {
      assert o == c.parse(Text(s, SearchObject(s, 0).value));
    }
  }

  /** Text without `[` or `{` yields the empty array whatever the codec. */
  lemma NoBracketNoCalls(c: Codec, s: string)
    requires forall i :: 0 <= i < |s| ==> s[i] != '[' && s[i] != '{'
    ensures ParseJsonFormat(c, s) == "[]"
  {
  }

  /** A call list whose object spans two lines. */
  const MultiLineCall: string := "[{\"a\":\n1}]"

  /**
   * `.` does not cross a newline: a call list whose object spans two lines is
   * matched by neither pattern, so nothing is extracted whatever the codec.
   */
  lemma MultiLineCallIsDropped(c: Codec)
    ensures ParseJsonFormat(c, MultiLineCall) == "[]"
  {
    MultiLineNoArray();
    MultiLineNoObject();
  }

  /** The array pattern's lazy part would have to cross the newline. */
  lemma MultiLineNoArray()
    ensures SearchArray(MultiLineCall, 0).None?
  {
    var s := MultiLineCall;
    assert s[0] == '[' && s[1] == '{' && s[6] == '\n';
    assert SkipSpaces(s, 1) == 1;
    assert forall t :: 2 <= t < 6 ==> !ArrayClosesAt(s, t);
    assert ArrayLazy(s, 6).None?;
    assert ArrayLazy(s, 2).None?;
    NoOpenFrom(s, 1, '[');
    SearchArrayNone(s, 1);
  }

  /** The object pattern's lazy part would have to cross the newline. */
  lemma MultiLineNoObject()
    ensures SearchObject(MultiLineCall, 0).None?
  {
    var s := MultiLineCall;
    assert s[0] == '[' && s[1] == '{' && s[6] == '\n';
    assert SkipSpaces(s, 2) == 2;
    assert forall t :: 2 <= t < 6 ==> !ObjectClosesAt(s, t);
    assert ObjectLazy(s, 6).None?;
    assert ObjectLazy(s, 2).None?;
    assert ObjectAt(s, 1).None?;
    NoOpenFrom(s, 2, '{');
    SearchObjectNone(s, 2);
  }

  /** `MultiLineCall` has no `[` after index 0 and no `{` after index 1. */
  lemma NoOpenFrom(s: string, from: nat, open: char)
    requires s == MultiLineCall
    requires (from == 1 && open == '[') || (from == 2 && open == '{')
    ensures forall i :: from <= i < |s| ==> s[i] != open
  {
  }

  /** No `[` from `from` on: the array pattern cannot start there. */
  lemma {:induction false} SearchArrayNone(s: string, from: nat)
    requires forall i :: from <= i < |s| ==> s[i] != '['
    ensures SearchArray(s, from).None?
    decreases |s| - from
  {
    if from < |s| {
      SearchArrayNone(s, from + 1);
    }
  }

  /** No `{` from `from` on: the object pattern cannot start there. */
  lemma {:induction false} SearchObjectNone(s: string, from: nat)
    requires forall i :: from <= i < |s| ==> s[i] != '{'
    ensures SearchObject(s, from).None?
    decreases |s| - from
  {
    if from < |s| {
      SearchObjectNone(s, from + 1);
    }
  }

  /** Two call lists: the first is not valid JSON, the second is. */
  const TwoLists: string := "[{x}] [{\"a\": 1}]"

  /**
   * The first array match wins even when it does not decode and a later one
   * would: the search then falls to the object pattern, never to a later array.
   */
  lemma FirstArrayOnly(c: Codec)
    ensures SearchArray(TwoLists, 0) == Some(Span(0, 5))
    ensures c.parse("[{x}]") == None && c.parse("{x}") == None ==> ParseJsonFormat(c, TwoLists) == "[]"
  {
    FirstArrayMatch();
    FirstObjectMatch();
    assert TwoLists[0..5] == "[{x}]";
    assert TwoLists[1..4] == "{x}";
  }

  /** The array pattern matches `[{x}]` at the start of `TwoLists`. */
  lemma FirstArrayMatch()
    ensures SearchArray(TwoLists, 0) == Some(Span(0, 5))
  {
    var s := TwoLists;
    assert s[0] == '[' && s[1] == '{' && s[2] == 'x' && s[3] == '}' && s[4] == ']';
    assert SkipSpaces(s, 1) == 1 && SkipSpaces(s, 4) == 4;
    assert ArrayClosesAt(s, 3);
    assert !ArrayClosesAt(s, 2);
    assert ArrayLazy(s, 2) == Some(3);
    assert ArrayAt(s, 0) == Some(3);
  }

  /** The object pattern matches `{x}` at index 1 of `TwoLists`. */
  lemma FirstObjectMatch()
    ensures SearchObject(TwoLists, 0) == Some(Span(1, 4))
  {
    var s := TwoLists;
    assert s[0] == '[' && s[1] == '{' && s[2] == 'x' && s[3] == '}';
    assert SkipSpaces(s, 2) == 2 && SkipSpaces(s, 3) == 3;
    assert ObjectLazy(s, 3) == Some(3);
    assert ObjectLazy(s, 2) == Some(3);
    assert ObjectAt(s, 0) == None;
    assert ObjectAt(s, 1) == Some(3);
  }

  /** `generator_tool_call_id`: an oracle; `idOf(n)` is the id its `n`-th call returns. */
  class IdGenerator {
    const idOf: nat -> string
    var issued: nat

    constructor (idOf: nat -> string)
      ensures this.idOf == idOf && issued == 0
    {
      this.idOf := idOf;
      issued := 0;
    }

    method Next() returns (id: string)
      modifies this
      ensures id == idOf(old(issued)) && issued == old(issued) + 1
    {
      id := idOf(issued);
      issued := issued + 1;
    }
  }

  /** `tool_call["id"] = id; tool_call["type"] = "function"` on one decoded element; only a dict accepts it. */
  function Tag(j: Json, id: string): Option<Json> {
    match j
    case JObject(ms) => Some(JObject(Put(Put(ms, "id", JStr(id)), "type", JStr("function"))))
    case _ => None
  }

  /**
   * The loop over a decoded array from index `i`, with the elements tagged so
   * far in `acc`; element `i` gets the id drawn `i`-th since `base`. A
   * non-dict raises `TypeError`.
   */
  function TagFrom(es: seq<Json>, i: nat, acc: seq<Json>, idOf: nat -> string, base: nat): Result<seq<Json>>
    requires i <= |es|
    decreases |es| - i
  {
    if i == |es| then Ok(acc)
    else match Tag(es[i], idOf(base + i))
      case None => Err(TypeError)
      case Some(t) => TagFrom(es, i + 1, acc + [t], idOf, base)
  }

  /** The whole loop: element `k` gets id `idOf(base + k)`. */
  function TagAll(es: seq<Json>, idOf: nat -> string, base: nat): Result<seq<Json>> {
    TagFrom(es, 0, [], idOf, base)
  }

  /**
   * `parse_tool_calls`: decode the extractor's output and tag each element.
   * Iterating a dict visits its keys and iterating a string its characters,
   * so a non-empty dict or string raises `TypeError` on the first
   * assignment, while an empty one is returned as it is.
   */
  function ParseToolCallsSpec(c: Codec, message: string, idOf: nat -> string, base: nat): Result<Json> {
    match c.parse(ParseJsonFormat(c, message))
    case None => Err(DecodeError)
    case Some(JArray(es)) =>
      (match TagAll(es, idOf, base)
       case Ok(ts) => Ok(JArray(ts))
       case Err(e) => Err(e))
    case Some(JObject(ms)) => if ms == [] then Ok(JObject([])) else Err(TypeError)
    case Some(JStr(t)) => if t == "" then Ok(JStr("")) else Err(TypeError)
    case Some(_) => Err(TypeError)
  }

  /**
   * How many ids the call draws: the right-hand side `generator_tool_call_id()`
   * is evaluated before the assignment that raises, so a failing element still
   * draws one.
   */
  function IdsDrawn(c: Codec, message: string): nat {
    match c.parse(ParseJsonFormat(c, message))
    case Some(JArray(es)) => DrawnFrom(es, 0)
    case Some(JObject(ms)) => if ms == [] then 0 else 1
    case Some(JStr(t)) => if t == "" then 0 else 1
    case _ => 0
  }

  /** `Tag` sets `"id"` and `"type"` and leaves every other key of the dict as it was. */
  lemma TagSetsIdAndType(ms: seq<(string, Json)>, id: string, key: string)
    ensures Tag(JObject(ms), id).Some?
    ensures Get(Tag(JObject(ms), id).value.members, "id") == Some(JStr(id))
    ensures Get(Tag(JObject(ms), id).value.members, "type") == Some(JStr("function"))
    ensures key != "id" && key != "type" ==> Get(Tag(JObject(ms), id).value.members, key) == Get(ms, key)
  {
    var withId := Put(ms, "id", JStr(id));
    PutThenGet(ms, "id", JStr(id), key);
    PutThenGet(withId, "type", JStr("function"), key);
    PutThenGet(withId, "type", JStr("function"), "id");
  }

  /**
   * The loop from `i` succeeds exactly when every remaining element is a dict,
   * and then appends one tagged element per remaining element, in order.
   */
  lemma {:induction false} TagFromResult(es: seq<Json>, i: nat, acc: seq<Json>, idOf: nat -> string, base: nat)
    requires i <= |es| && |acc| == i
    ensures TagFrom(es, i, acc, idOf, base).Ok? <==> forall k :: i <= k < |es| ==> es[k].JObject?
    ensures TagFrom(es, i, acc, idOf, base).Ok? ==>
              var ts := TagFrom(es, i, acc, idOf, base).value;
              && |ts| == |es|
              && ts[..i] == acc
              && forall k :: i <= k < |es| ==> Tag(es[k], idOf(base + k)) == Some(ts[k])
    decreases |es| - i
  {
    if i < |es| {
      var t := Tag(es[i], idOf(base + i));
      if t.None? {
        assert !es[i].JObject?;
      } else {
        assert es[i].JObject?;
        TagFromResult(es, i + 1, acc + [t.value], idOf, base);
        var r := TagFrom(es, i + 1, acc + [t.value], idOf, base);
        assert TagFrom(es, i, acc, idOf, base) == r;
        assert r.Ok? <==> forall k :: i <= k < |es| ==> es[k].JObject? by {
          assert (forall k :: i <= k < |es| ==> es[k].JObject?) <==> (forall k :: i + 1 <= k < |es| ==> es[k].JObject?);
        }
        if r.Ok? {
          var ts := r.value;
          assert ts[..i] == (ts[..i + 1])[..i];
          assert ts[i] == (ts[..i + 1])[i] == t.value;
          assert Tag(es[i], idOf(base + i)) == Some(ts[i]);
        }
      }
    }
  }

  /**
   * On success the call keeps the decoded array's length and order, and each
   * element is the decoded dict with `"id"` set to the `k`-th drawn id and
   * `"type"` set to `"function"`, its other keys unchanged. It succeeds
   * exactly when every decoded element is a dict.
   */
  lemma TagAllResult(es: seq<Json>, idOf: nat -> string, base: nat, k: nat, key: string)
    requires k < |es|
    ensures TagAll(es, idOf, base).Ok? <==> forall i :: 0 <= i < |es| ==> es[i].JObject?
    ensures TagAll(es, idOf, base).Ok? ==>
              var ts := TagAll(es, idOf, base).value;
              && |ts| == |es| && ts[k].JObject?
              && Get(ts[k].members, "id") == Some(JStr(idOf(base + k)))
              && Get(ts[k].members, "type") == Some(JStr("function"))
              && (key != "id" && key != "type" ==> Get(ts[k].members, key) == Get(es[k].members, key))
  {
    TagAllShape(es, idOf, base);
    var r := TagAll(es, idOf, base);
    if r.Ok? {
      var ms := es[k].members;
      assert es[k] == JObject(ms);
      TagSetsIdAndType(ms, idOf(base + k), key);
    }
  }

  /** `TagFromResult` for the whole loop. */
  lemma TagAllShape(es: seq<Json>, idOf: nat -> string, base: nat)
    ensures TagAll(es, idOf, base).Ok? <==> forall i :: 0 <= i < |es| ==> es[i].JObject?
    ensures TagAll(es, idOf, base).Ok? ==>
              var ts := TagAll(es, idOf, base).value;
              && |ts| == |es|
              && forall k :: 0 <= k < |es| ==> Tag(es[k], idOf(base + k)) == Some(ts[k])
  {
    TagFromResult(es, 0, [], idOf, base);
  }

  /** With a generator that never repeats an id, the tagged calls carry pairwise distinct ids. */
  lemma TaggedIdsDistinct(es: seq<Json>, idOf: nat -> string, base: nat, k1: nat, k2: nat)
    requires forall a: nat, b: nat :: a != b ==> idOf(a) != idOf(b)
    requires TagAll(es, idOf, base).Ok?
    requires k1 < k2 < |es|
    ensures var ts := TagAll(es, idOf, base).value;
            && |ts| == |es| && ts[k1].JObject? && ts[k2].JObject?
            && Get(ts[k1].members, "id") != Get(ts[k2].members, "id")
  {
    TagAllResult(es, idOf, base, k1, "id");
    TagAllResult(es, idOf, base, k2, "id");
    assert idOf(base + k1) != idOf(base + k2);
  }

  /** Text with no decodable match yields no tool calls and draws no id. */
  lemma NothingDecodableNoCalls(c: Codec, message: string, idOf: nat -> string, base: nat)
    requires Lawful(c)
    requires DecodeFirst(c, message, SearchArray(message, 0)).None?
    requires DecodeFirst(c, message, SearchObject(message, 0)).None?
    ensures ParseToolCallsSpec(c, message, idOf, base) == Ok(JArray([]))
    ensures IdsDrawn(c, message) == 0
  {
    ExtractorOutputDecodes(c, message);
  }

  /**
   * Ids the loop draws from element `i` on: one per element up to and
   * including the first that is not a dict.
   */
  function DrawnFrom(es: seq<Json>, i: nat): (n: nat)
    requires i <= |es|
    ensures n <= |es| - i
    decreases |es| - i
  {
    if i == |es| then 0 else if !es[i].JObject? then 1 else 1 + DrawnFrom(es, i + 1)
  }

  /** The loop of `parse_tool_calls` over a decoded array. */
  method TagCalls(es: seq<Json>, gen: IdGenerator) returns (r: Result<seq<Json>>)
    modifies gen
    ensures r == TagAll(es, gen.idOf, old(gen.issued))
    ensures gen.issued == old(gen.issued) + DrawnFrom(es, 0)
  {
    ghost var base := gen.issued;
    var tagged: seq<Json> := [];
    var i := 0;
    while i < |es|
      invariant 0 <= i <= |es|
      invariant gen.issued == base + i
      invariant gen.issued + DrawnFrom(es, i) == base + DrawnFrom(es, 0)
      invariant |tagged| == i
      invariant TagFrom(es, i, tagged, gen.idOf, base) == TagAll(es, gen.idOf, base)
    {
      var id := gen.Next();
      var t := Tag(es[i], id);
      if t.None? {
        return Err(TypeError);
      }
      tagged := tagged + [t.value];
      i := i + 1;
    }
    r := Ok(tagged);
  }

  /** `parse_tool_calls`, drawing ids from `gen` as the source's loop does. */
  method ParseToolCalls(c: Codec, message: string, gen: IdGenerator) returns (r: Result<Json>)
    modifies gen
    ensures r == ParseToolCallsSpec(c, message, gen.idOf, old(gen.issued))
    ensures gen.issued == old(gen.issued) + IdsDrawn(c, message)
  {
    var decoded := c.parse(ParseJsonFormat(c, message));
    match decoded {
      case None => r := Err(DecodeError);
      case Some(JArray(es)) =>
        var tagged := TagCalls(es, gen);
        r := if tagged.Ok? then Ok(JArray(tagged.value)) else Err(tagged.error);
      case Some(JObject(ms)) =>
        if ms == [] {
          r := Ok(JObject([]));
        } else {
          var _ := gen.Next();
          r := Err(TypeError);
        }
      case Some(JStr(t)) =>
        if t == "" {
          r := Ok(JStr(""));
        } else {
          var _ := gen.Next();
          r := Err(TypeError);
        }
      case Some(_) => r := Err(TypeError);
    }
  }
}
