/** Chat transcripts and the pairing of tool calls with tool results. */
module Transcript {
  import opened Util
  import StableStringify

  type Text = StableStringify.Text

  datatype Role = System | User | Assistant | Tool

  /** A JavaScript object has no two entries with the same key. */
  type Arguments = j: StableStringify.Json | StableStringify.WellFormed(j) witness StableStringify.Null

  datatype ToolCall = ToolCall(id: string, name: Text, arguments: Arguments)

  /** `toolCalls` is empty where the source leaves it out. */
  datatype Message = Message(
    role: Role,
    content: string,
    toolCallId: Option<string>,
    toolCalls: seq<ToolCall>)

  datatype Usage = Usage(
    inputTokens: nat,
    outputTokens: nat,
    totalTokens: nat,
    cacheCreation: Option<nat>,
    cacheRead: Option<nat>)

  /** A provider answer; `finishedWithError` is the finish reason `error`. */
  datatype Response = Response(
    content: Option<string>,
    toolCalls: seq<ToolCall>,
    finishedWithError: bool,
    usage: Usage)

  function SystemMessage(content: string): Message {
    Message(System, content, None, [])
  }

  function AssistantMessage(content: string, calls: seq<ToolCall>): Message {
    Message(Assistant, content, None, calls)
  }

  function ToolMessage(content: string, id: string): Message {
    Message(Tool, content, Some(id), [])
  }

  function NonSystem(messages: seq<Message>): seq<Message> {
    if messages == [] then []
    else
      var last := messages[|messages| - 1];
      NonSystem(messages[..|messages| - 1]) + if last.role == System then [] else [last]
  }

  function Systems(messages: seq<Message>): seq<Message> {
    if messages == [] then []
    else
      var last := messages[|messages| - 1];
      Systems(messages[..|messages| - 1]) + if last.role == System then [last] else []
  }

  predicate IsResultOf(m: Message, call: ToolCall) {
    m.role == Tool && m.toolCallId == Some(call.id)
  }

  /** The calls that have to be answered right after `m`. */
  function CallsOf(m: Message): seq<ToolCall> {
    if m.role == Assistant then m.toolCalls else []
  }

  /** The first message with its results. */
  predicate Group(ms: seq<Message>) {
    && ms != [] && ms[0].role != Tool && |ms| > |CallsOf(ms[0])|
    && forall i :: 0 <= i < |CallsOf(ms[0])| ==> IsResultOf(ms[1 + i], CallsOf(ms[0])[i])
  }

  /** The messages after the first group. */
  function AfterGroup(ms: seq<Message>): seq<Message>
    requires Group(ms)
  {
    ms[1 + |CallsOf(ms[0])|..]
  }

  /**
   * Without system messages: every assistant message with tool calls is followed by exactly its
   * results in order, and there is no other tool result.
   */
  predicate Paired(ms: seq<Message>)
    decreases |ms|
  {
    ms == [] || (Group(ms) && Paired(AfterGroup(ms)))
  }

  ghost predicate WellPaired(messages: seq<Message>) {
    Paired(NonSystem(messages))
  }

  lemma NonSystemAppend(messages: seq<Message>, m: Message)
    ensures NonSystem(messages + [m]) == NonSystem(messages) + if m.role == System then [] else [m]
    ensures Systems(messages + [m]) == Systems(messages) + if m.role == System then [m] else []
  {
    assert (messages + [m])[..|messages|] == messages;
  }

  lemma {:induction false} NonSystemConcat(a: seq<Message>, b: seq<Message>)
    ensures NonSystem(a + b) == NonSystem(a) + NonSystem(b)
    ensures Systems(a + b) == Systems(a) + Systems(b)
  {
    if b == [] {
      assert a + b == a;
    } else {
      var init, last := b[..|b| - 1], b[|b| - 1];
      assert a + b == (a + init) + [last];
      NonSystemAppend(a + init, last);
      NonSystemConcat(a, init);
    }
  }

  lemma {:induction false} NonSystemFixed(a: seq<Message>)
    requires forall m :: m in a ==> m.role != System
    ensures NonSystem(a) == a && Systems(a) == []
  {
    if a != [] {
      assert a == a[..|a| - 1] + [a[|a| - 1]];
      NonSystemFixed(a[..|a| - 1]);
    }
  }

  lemma {:induction false} NonSystemOnly(a: seq<Message>)
    ensures forall m :: m in NonSystem(a) ==> m in a && m.role != System
    ensures forall m :: m in Systems(a) ==> m in a && m.role == System
  {
    if a != [] {
      NonSystemOnly(a[..|a| - 1]);
    }
  }

  lemma {:induction false} SystemsFixed(a: seq<Message>)
    requires forall m :: m in a ==> m.role == System
    ensures Systems(a) == a && NonSystem(a) == []
  {
    if a != [] {
      assert a == a[..|a| - 1] + [a[|a| - 1]];
      SystemsFixed(a[..|a| - 1]);
    }
  }

  lemma GroupExtends(a: seq<Message>, b: seq<Message>)
    requires Group(a)
    ensures Group(a + b) && AfterGroup(a + b) == AfterGroup(a) + b
  {
    assert (a + b)[0] == a[0];
    forall i | 0 <= i < |CallsOf(a[0])| ensures IsResultOf((a + b)[1 + i], CallsOf(a[0])[i]) {
      assert (a + b)[1 + i] == a[1 + i];
    }
  }

  lemma {:induction false} PairedConcat(a: seq<Message>, b: seq<Message>)
    requires Paired(a) && Paired(b)
    ensures Paired(a + b)
    decreases |a|
  {
    if a == [] {
      assert a + b == b;
    } else {
      PairedConcat(AfterGroup(a), b);
      GroupExtends(a, b);
    }
  }

  lemma UserBeyondGroup(ms: seq<Message>, b: nat)
    requires Group(ms) && 0 < b < |ms| && ms[b].role == User
    ensures b > |CallsOf(ms[0])|
  {
    assert b <= |CallsOf(ms[0])| ==> IsResultOf(ms[1 + (b - 1)], CallsOf(ms[0])[b - 1]);
  }

  lemma SuffixOfSuffix(ms: seq<Message>, n: nat, b: nat)
    requires n <= b <= |ms|
    ensures ms[n..][b - n..] == ms[b..]
  {
  }

  /** A cut in front of a user message never splits a call from its results. */
  lemma {:induction false} PairedFromUser(ms: seq<Message>, b: nat)
    requires Paired(ms) && b < |ms| && ms[b].role == User
    ensures Paired(ms[b..])
    decreases |ms|
  {
    if b > 0 {
      var n := 1 + |CallsOf(ms[0])|;
      UserBeyondGroup(ms, b);
      PairedFromUser(AfterGroup(ms), b - n);
      SuffixOfSuffix(ms, n, b);
    }
  }

  /** One assistant message with its results is a complete group. */
  lemma GroupPaired(m: Message, results: seq<Message>)
    requires m.role != Tool && |results| == |CallsOf(m)|
    requires forall i :: 0 <= i < |results| ==> IsResultOf(results[i], CallsOf(m)[i])
    ensures Paired([m] + results)
  {
    var ms := [m] + results;
    assert ms[1 + |CallsOf(m)|..] == [];
  }
}
