/**
 * `BaseLLM.tool_calling_input_format` (aios/llm_cores/base.py): rewrites a chat
 * history in place for models without native tool calling, then appends the
 * tool-usage instructions to the last message.
 */
module ToolCallingFormat {
  import opened Wrappers
  import opened JsonModel
  import opened Chat

  const PrefixPrompt: string := "In and only in current step, you need to call tools. Available tools are: "

  const SuffixPrompt: string :=
    "Must call functions that are available. To call a function, respond "
    + "immediately and only with a list of JSON object of the following format:"
    + "{[{\"name\":\"function_name_value\",\"parameters\":{\"parameter_name1\":\"parameter_value1\","
    + "\"parameter_name2\":\"parameter_value2\"}}]}"

  /** The block appended to the last message: prefix, the serialised tool list, suffix. */
  function ToolInstruction(c: Codec, tools: Json): string {
    PrefixPrompt + c.dumps(tools) + SuffixPrompt
  }

  /** The text a tool result becomes once it is handed back as a user message. */
  function ToolResultText(id: string, content: Content): string
    requires !content.Absent?
  {
    ResultIntro + id + ResultIs + Show(content) + ". "
  }

  const ResultIntro: string := "The result of the execution of function(id :"
  const ResultIs: string := ") is: "

  /**
   * One message after the loop body, and the exception the body raised if any.
   * On an exception `msg` is the dict as far as it had been changed.
   */
  datatype Rewrite = Rewrite(msg: Message, err: Option<PyError>)

  /** The loop body for one message. */
  function RewriteMessage(c: Codec, m: Message): Rewrite {
    if m.toolCalls.Some? then
      Rewrite(m.(content := Text(c.dumps(m.toolCalls.value)), toolCalls := None), None)
    else if m.role.None? then Rewrite(m, Some(KeyError("role")))
    else if m.role == Some("tool") then
      var asUser := m.(role := Some("user"));
      if asUser.toolCallId.None? then Rewrite(asUser, Some(KeyError("tool_call_id")))
      else
        var noId := asUser.(toolCallId := None);
        if noId.content.Absent? then Rewrite(noId, Some(KeyError("content")))
        else Rewrite(noId.(content := Text(ToolResultText(m.toolCallId.value, m.content))), None)
    else Rewrite(m, None)
  }

  /** The loop from index `i` on, over the history as it is at that point. */
  function RewriteFrom(c: Codec, ms: seq<Message>, i: nat): (r: (seq<Message>, Option<PyError>))
    requires i <= |ms|
    ensures |r.0| == |ms|
    decreases |ms| - i
  {
    if i == |ms| then (ms, None)
    else
      var rw := RewriteMessage(c, ms[i]);
      if rw.err.Some? then (ms[i := rw.msg], rw.err)
      else RewriteFrom(c, ms[i := rw.msg], i + 1)
  }

  /** The whole call: the history afterwards and the exception raised, if any. */
  function Format(c: Codec, ms: seq<Message>, tools: Json): (r: (seq<Message>, Option<PyError>))
    ensures |r.0| == |ms|
  {
    var (rs, e) := RewriteFrom(c, ms, 0);
    if e.Some? then (rs, e)
    else if |rs| == 0 then (rs, Some(IndexError))
    else
      match rs[|rs| - 1].content
      case Absent => (rs, Some(KeyError("content")))
      case Null => (rs, Some(TypeError))
      case Text(t) => (rs[|rs| - 1 := rs[|rs| - 1].(content := Text(t + ToolInstruction(c, tools)))], None)
  }

  /**
   * The loop of `RewriteFrom` from `i`: messages before `i` stay, it
   * finishes exactly when no message from `i` on raises, and then every
   * message from `i` on is rewritten by `RewriteMessage`.
   */
  lemma {:induction false} RewriteFromEffect(c: Codec, ms: seq<Message>, i: nat)
    requires i <= |ms|
    ensures RewriteFrom(c, ms, i).0[..i] == ms[..i]
    ensures RewriteFrom(c, ms, i).1.None? <==> forall k :: i <= k < |ms| ==> RewriteMessage(c, ms[k]).err.None?
    ensures RewriteFrom(c, ms, i).1.None? ==>
              forall k :: i <= k < |ms| ==> RewriteFrom(c, ms, i).0[k] == RewriteMessage(c, ms[k]).msg
    decreases |ms| - i
  {
    if i < |ms| {
      var rw := RewriteMessage(c, ms[i]);
      var ms' := ms[i := rw.msg];
      if rw.err.None? {
        RewriteFromEffect(c, ms', i + 1);
        var r := RewriteFrom(c, ms', i + 1);
        assert RewriteFrom(c, ms, i) == r;
        assert forall k :: i < k < |ms| ==> ms'[k] == ms[k];
        assert r.0[..i + 1] == ms'[..i + 1];
        assert r.0[i] == rw.msg;
        assert r.0[..i] == ms[..i] by {
          assert r.0[..i] == r.0[..i + 1][..i];
        }
      } else {
        assert RewriteFrom(c, ms, i) == (ms', rw.err);
        assert ms'[..i] == ms[..i];
      }
    }
  }

  /** When the loop from `i` raises, it raised at the first failing message. */
  lemma {:induction false} RewriteFromStops(c: Codec, ms: seq<Message>, i: nat)
    requires i <= |ms|
    ensures RewriteFrom(c, ms, i).1.Some? ==> exists f: nat :: StoppedAt(c, ms, i, f, RewriteFrom(c, ms, i))
    decreases |ms| - i
  {
    if i < |ms| {
      var rw := RewriteMessage(c, ms[i]);
      var ms' := ms[i := rw.msg];
      var r := RewriteFrom(c, ms, i);
      if rw.err.None? {
        RewriteFromStops(c, ms', i + 1);
        assert r == RewriteFrom(c, ms', i + 1);
        if r.1.Some? {
          var f: nat :| StoppedAt(c, ms', i + 1, f, r);
          assert ms'[f] == ms[f];
          assert ms'[f + 1..] == ms[f + 1..];
          RewriteFromEffect(c, ms', i + 1);
          assert r.0[i] == r.0[..i + 1][i] == ms'[i] == rw.msg;
          forall k | i <= k < f
            ensures RewriteMessage(c, ms[k]).err.None? && r.0[k] == RewriteMessage(c, ms[k]).msg
          {
            if k > i {
              assert ms'[k] == ms[k];
            }
          }
          assert StoppedAt(c, ms, i, f, r);
        }
      } else {
        assert r == (ms', rw.err);
        assert ms'[i + 1..] == ms[i + 1..];
        assert r.0[i] == rw.msg;
        assert StoppedAt(c, ms, i, i, r);
      }
    }
  }

  /**
   * The loop from `i` ended in `r` by raising at message `f`: the messages
   * from `i` before `f` went through without raising and are rewritten,
   * `f` raised and is left as far as its body got, and the messages after
   * `f` are as they were.
   */
  predicate StoppedAt(c: Codec, ms: seq<Message>, i: nat, f: nat, r: (seq<Message>, Option<PyError>)) {
    && i <= f < |ms| && |r.0| == |ms|
    && r.1 == RewriteMessage(c, ms[f]).err
    && (forall k :: i <= k < f ==> RewriteMessage(c, ms[k]).err.None? && r.0[k] == RewriteMessage(c, ms[k]).msg)
    && r.0[f] == RewriteMessage(c, ms[f]).msg
    && r.0[f + 1..] == ms[f + 1..]
  }

  /**
   * The call succeeds exactly when the history is non-empty, no message
   * raises in the loop, and the last message then holds text content.
   */
  lemma FormatSucceedsExactly(c: Codec, ms: seq<Message>, tools: Json)
    ensures Format(c, ms, tools).1.None? <==>
              && |ms| > 0
              && (forall k :: 0 <= k < |ms| ==> RewriteMessage(c, ms[k]).err.None?)
              && RewriteMessage(c, ms[|ms| - 1]).msg.content.Text?
  {
    RewriteFromEffect(c, ms, 0);
  }

  /**
   * A message with neither `tool_calls` nor `role`, a tool message without
   * `tool_call_id`, or a history with no message at all makes the call raise.
   */
  lemma FormatNeedsIdsAndAMessage(c: Codec, ms: seq<Message>, tools: Json, k: nat)
    requires |ms| == 0 || (k < |ms| && ms[k].toolCalls.None? && (ms[k].role.None? || (ms[k].role == Some("tool") && ms[k].toolCallId.None?)))
    ensures Format(c, ms, tools).1.Some?
  {
    FormatSucceedsExactly(c, ms, tools);
    if k < |ms| {
      assert RewriteMessage(c, ms[k]).err.Some?;
    }
  }

  /**
   * After a successful call: the list has the same length and order; a
   * message with `tool_calls` holds their serialisation as content and no
   * `tool_calls` key (whatever its role, even none); every other message has
   * a role; a `"tool"` message without
   * `tool_calls` is a `"user"` message quoting its id and old content, with no
   * `tool_call_id`; every other message is as before; and the last message
   * then has the tool instructions appended.
   */
  lemma {:induction false} FormatRewrites(c: Codec, ms: seq<Message>, tools: Json, k: nat)
    requires Format(c, ms, tools).1.None?
    requires k < |ms|
    ensures |Format(c, ms, tools).0| == |ms|
    ensures ms[k].toolCalls.Some? ==>
              Expected(c, ms, tools, k, ms[k].(content := Text(c.dumps(ms[k].toolCalls.value)), toolCalls := None))
    ensures ms[k].toolCalls.None? ==> ms[k].role.Some?
    ensures ms[k].toolCalls.None? && ms[k].role == Some("tool") ==>
              ms[k].toolCallId.Some? && !ms[k].content.Absent?
              && Expected(c, ms, tools, k,
                          Message(Some("user"), Text(ToolResultText(ms[k].toolCallId.value, ms[k].content)), None, None))
    ensures ms[k].toolCalls.None? && ms[k].role != Some("tool") ==> Expected(c, ms, tools, k, ms[k])
    ensures Format(c, ms, tools).0[k].toolCalls.None?
  {
    RewriteFromEffect(c, ms, 0);
    FormatSucceedsExactly(c, ms, tools);
    assert RewriteMessage(c, ms[k]).err.None?;
  }

  /**
   * Message `k` after the call is `m` (its rewritten form), and for the last
   * message `m`'s content followed by the tool instructions.
   */
  predicate Expected(c: Codec, ms: seq<Message>, tools: Json, k: nat, m: Message)
    requires k < |ms|
  {
    var r := Format(c, ms, tools).0;
    if k < |ms| - 1 then r[k] == m
    else m.content.Text? && r[k] == m.(content := Text(m.content.text + ToolInstruction(c, tools)))
  }

  /**
   * The source's loop over a list of dicts that it changes in place; the
   * array is that list (its length cannot change, and the same list is what
   * the caller holds afterwards). Returns the exception raised, if any; on an
   * exception the messages already visited stay changed.
   */
  method ToolCallingInputFormat(c: Codec, messages: array<Message>, tools: Json) returns (err: Option<PyError>)
    modifies messages
    ensures (messages[..], err) == Format(c, old(messages[..]), tools)
  {
    var i := 0;
    while i < messages.Length
      invariant 0 <= i <= messages.Length
      invariant RewriteFrom(c, messages[..], i) == RewriteFrom(c, old(messages[..]), 0)
    {
      var rw := RewriteMessage(c, messages[i]);
      assert messages[..][i := rw.msg] == messages[..][i := rw.msg];
      messages[i] := rw.msg;
      if rw.err.Some? {
        return rw.err;
      }
      i := i + 1;
    }
    if messages.Length == 0 {
      return Some(IndexError);
    }
    var last := messages.Length - 1;
    match messages[last].content {
      case Absent => err := Some(KeyError("content"));
      case Null => err := Some(TypeError);
      case Text(t) =>
        messages[last] := messages[last].(content := Text(t + ToolInstruction(c, tools)));
        err := None;
    }
  }
}
