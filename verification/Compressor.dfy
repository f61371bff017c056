/** Compression of a transcript at a boundary that splits no tool call from its results. */
module Compressor {
  import opened Util
  import opened Transcript

  const KEEP_RECENT_CYCLES := 2

  predicate IsUserAt(messages: seq<Message>, i: int) {
    0 <= i < |messages| && messages[i].role == User
  }

  function UserCount(messages: seq<Message>): nat {
    if messages == [] then 0
    else (if messages[0].role == User then 1 else 0) + UserCount(messages[1..])
  }

  /** A tool result at or after `b` answers, by a non-empty id, a call made before `b`. */
  predicate CrossCut(messages: seq<Message>, b: int) {
    exists i, c, j ::
      && 0 <= i < b && i < |messages| && 0 <= c < |CallsOf(messages[i])|
      && CallsOf(messages[i])[c].id != ""
      && b <= j && 0 <= j < |messages| && IsResultOf(messages[j], CallsOf(messages[i])[c])
  }

  predicate Safe(messages: seq<Message>, b: nat)
    requires b < |messages|
  {
    messages[b].role != Tool && !CrossCut(messages, b)
  }

  /** `b` is a usable boundary: positive, at a user message with enough cycles after it, and safe. */
  predicate Usable(messages: seq<Message>, keep: nat, b: int) {
    0 < b && IsUserAt(messages, b) && UserCount(messages[b..]) >= keep && Safe(messages, b)
  }

  /** The greatest usable boundary below `i`, or 0. */
  function GreatestUsable(messages: seq<Message>, keep: nat, i: nat): (b: nat)
    ensures b > 0 ==> b < i && Usable(messages, keep, b)
    ensures forall k :: b < k < i ==> !Usable(messages, keep, k)
  {
    if i == 0 then 0
    else if Usable(messages, keep, i - 1) then i - 1
    else GreatestUsable(messages, keep, i - 1)
  }

  function Boundary(messages: seq<Message>): nat {
    GreatestUsable(messages, KEEP_RECENT_CYCLES, |messages|)
  }

  function SummaryMessage(summary: string): Message {
    SystemMessage("[Earlier conversation summary]\n" + summary)
  }

  /** A system message that carries the summary after a heading of its own. */
  predicate CarriesSummary(note: Message, summary: string) {
    && note.role == System && note.toolCallId == None && note.toolCalls == []
    && |note.content| > |summary| && note.content[|note.content| - |summary|..] == summary
  }

  lemma SummaryIsCarried(summary: string)
    ensures CarriesSummary(SummaryMessage(summary), summary)
  {
  }

  /** All system messages, the summary, and the rest from the boundary on. */
  function Compressed(messages: seq<Message>, summary: string): seq<Message> {
    var b := Boundary(messages);
    if b == 0 then messages
    else Systems(messages) + [SummaryMessage(summary)] + NonSystem(messages[b..])
  }

  // ------------------------------------------------------------ the code

  /** The index of the `keep`-th user message from the end, or -1. */
  method FindVerbatimBoundary(messages: seq<Message>, keep: nat) returns (b: int)
    requires keep > 0
    ensures -1 <= b < |messages|
    ensures b == -1 <==> UserCount(messages) < keep
    ensures b >= 0 ==> IsUserAt(messages, b) && UserCount(messages[b..]) == keep
  {
    var userSeen := 0;
    var i := |messages| - 1;
    while i >= 0
      invariant -1 <= i < |messages|
      invariant userSeen == UserCount(messages[i + 1..]) < keep
    {
      assert messages[i..][1..] == messages[i + 1..];
      if messages[i].role == User {
        userSeen := userSeen + 1;
        if userSeen == keep {
          CountSuffix(messages, i);
          return i;
        }
      }
      i := i - 1;
    }
    assert messages[0..] == messages;
    return -1;
  }

  lemma {:induction false} CountSuffix(messages: seq<Message>, i: nat)
    requires i <= |messages|
    ensures UserCount(messages[i..]) <= UserCount(messages)
  {
    if i == 0 {
      assert messages[0..] == messages;
    } else {
      assert messages[1..][i - 1..] == messages[i..];
      CountSuffix(messages[1..], i - 1);
    }
  }

  lemma CountMonotone(messages: seq<Message>, i: nat, j: nat)
    requires i <= j <= |messages|
    ensures UserCount(messages[j..]) <= UserCount(messages[i..])
    ensures i < j && IsUserAt(messages, i) ==> UserCount(messages[j..]) < UserCount(messages[i..])
  {
    if i < j {
      assert messages[i..][1..] == messages[i + 1..];
      assert messages[i + 1..][j - i - 1..] == messages[j..];
      CountSuffix(messages[i + 1..], j - i - 1);
    }
  }

  /** The non-empty ids of the calls made before `b`. */
  ghost predicate OlderIds(messages: seq<Message>, b: nat, ids: set<string>) {
    forall id :: id in ids <==> id != "" && exists i, c ::
      && 0 <= i < b && i < |messages| && 0 <= c < |CallsOf(messages[i])|
      && CallsOf(messages[i])[c].id == id
  }

  method CollectIds(calls: seq<ToolCall>, before: set<string>) returns (ids: set<string>)
    ensures forall id :: id in ids <==>
              id in before || (id != "" && exists c :: 0 <= c < |calls| && calls[c].id == id)
  {
    ids := before;
    for k := 0 to |calls|
      invariant forall id :: id in ids <==>
                  id in before || (id != "" && exists c :: 0 <= c < k && calls[c].id == id)
    {
      if calls[k].id != "" {
        ids := ids + {calls[k].id};
      }
    }
  }

  method IsBoundarySafe(messages: seq<Message>, b: nat) returns (safe: bool)
    requires b < |messages|
    ensures safe == Safe(messages, b)
  {
    if messages[b].role == Tool {
      return false;
    }
    var ids: set<string> := {};
    for i := 0 to b
      invariant OlderIds(messages, i, ids)
    {
      var before := ids;
      ids := CollectIds(CallsOf(messages[i]), before);
      IdsGrow(messages, i, before, ids);
    }
    CutNeedsId(messages, b, ids);
    if ids == {} {
      return true;
    }
    var j := FirstAnswer(messages, b, ids);
    if j < |messages| {
      CutFound(messages, b, ids, j);
    }
    return j == |messages|;
  }

  /** The first message from `b` on that answers one of `ids`. */
  method FirstAnswer(messages: seq<Message>, b: nat, ids: set<string>) returns (j: nat)
    requires b <= |messages|
    ensures b <= j <= |messages| && (j < |messages| ==> AnswersOlder(messages[j], ids))
    ensures forall k :: b <= k < j ==> !AnswersOlder(messages[k], ids)
  {
    j := b;
    while j < |messages| && !AnswersOlder(messages[j], ids)
      invariant b <= j <= |messages|
      invariant forall k :: b <= k < j ==> !AnswersOlder(messages[k], ids)
    {
      j := j + 1;
    }
  }

  predicate AnswersOlder(m: Message, ids: set<string>) {
    m.role == Tool && m.toolCallId.Some? && m.toolCallId.value in ids
  }

  lemma IdsGrow(messages: seq<Message>, i: nat, before: set<string>, ids: set<string>)
    requires i < |messages| && OlderIds(messages, i, before)
    requires var calls := CallsOf(messages[i]);
             forall id :: id in ids <==>
               id in before || (id != "" && exists c :: 0 <= c < |calls| && calls[c].id == id)
    ensures OlderIds(messages, i + 1, ids)
  {
    forall id
      ensures id in ids <==> id != "" && exists k, c ::
        && 0 <= k < i + 1 && k < |messages| && 0 <= c < |CallsOf(messages[k])|
        && CallsOf(messages[k])[c].id == id
    {
      if id in ids && id !in before {
        var c :| 0 <= c < |CallsOf(messages[i])| && CallsOf(messages[i])[c].id == id;
      }
    }
  }

  lemma CutNeedsId(messages: seq<Message>, b: nat, ids: set<string>)
    requires b < |messages| && OlderIds(messages, b, ids)
    ensures CrossCut(messages, b) ==> exists j :: b <= j < |messages| && AnswersOlder(messages[j], ids)
  {
    if CrossCut(messages, b) {
      var i, c, j :|
        && 0 <= i < b && i < |messages| && 0 <= c < |CallsOf(messages[i])|
        && CallsOf(messages[i])[c].id != ""
        && b <= j && 0 <= j < |messages| && IsResultOf(messages[j], CallsOf(messages[i])[c]);
      assert CallsOf(messages[i])[c].id in ids;
      assert AnswersOlder(messages[j], ids);
    }
  }

  lemma CutFound(messages: seq<Message>, b: nat, ids: set<string>, j: nat)
    requires b <= j < |messages| && OlderIds(messages, b, ids) && AnswersOlder(messages[j], ids)
    ensures CrossCut(messages, b)
  {
    var id := messages[j].toolCallId.value;
    var i, c :|
      && 0 <= i < b && i < |messages| && 0 <= c < |CallsOf(messages[i])|
      && CallsOf(messages[i])[c].id == id;
    assert IsResultOf(messages[j], CallsOf(messages[i])[c]);
  }

  /** The user message before `boundary`, or -1. */
  method PreviousUser(messages: seq<Message>, boundary: nat) returns (prev: int)
    requires boundary <= |messages|
    ensures -1 <= prev < boundary
    ensures prev >= 0 ==> IsUserAt(messages, prev)
    ensures forall k :: prev < k < boundary ==> !IsUserAt(messages, k)
  {
    var i := boundary - 1;
    while i >= 0
      invariant -1 <= i < boundary
      invariant forall k :: i < k < boundary ==> !IsUserAt(messages, k)
    {
      if messages[i].role == User {
        return i;
      }
      i := i - 1;
    }
    return -1;
  }

  /**
   * Walk back over user messages until the boundary is safe. A positive result is the greatest
   * usable boundary; any other result says that there is none.
   */
  method FindSafeBoundary(messages: seq<Message>, keep: nat) returns (r: int)
    requires keep > 0
    ensures r < |messages|
    ensures r > 0 ==> Usable(messages, keep, r)
    ensures forall k :: k > r && k > 0 ==> !Usable(messages, keep, k)
  {
    var boundary := FindVerbatimBoundary(messages, keep);
    NoneAfter(messages, keep, boundary);
    if boundary <= 0 {
      return boundary;
    }
    var safe := IsBoundarySafe(messages, boundary);
    while boundary > 0 && !safe
      invariant 0 <= boundary < |messages| && IsUserAt(messages, boundary)
      invariant UserCount(messages[boundary..]) >= keep
      invariant safe == Safe(messages, boundary)
      invariant forall k :: k > boundary ==> !Usable(messages, keep, k)
    {
      var prevUser := PreviousUser(messages, boundary);
      if prevUser < 0 {
        return -1;
      }
      CountMonotone(messages, prevUser, boundary);
      boundary := prevUser;
      safe := IsBoundarySafe(messages, boundary);
    }
    return if safe then boundary else -1;
  }

  lemma NoneAfter(messages: seq<Message>, keep: nat, boundary: int)
    requires -1 <= boundary < |messages|
    requires boundary == -1 ==> UserCount(messages) < keep
    requires boundary >= 0 ==> IsUserAt(messages, boundary) && UserCount(messages[boundary..]) == keep
    ensures forall k :: k > boundary ==> !Usable(messages, keep, k)
  {
    forall k | k > boundary ensures !Usable(messages, keep, k) {
      if IsUserAt(messages, k) {
        if boundary == -1 {
          CountSuffix(messages, k);
        } else {
          CountMonotone(messages, boundary, k);
        }
      }
    }
  }

  /** `compress`: below a positive boundary the summarizer answers; it may throw. */
  /** Everything before boundary `b` but the system messages gave way to the summary. */
  ghost predicate CutAt(messages: seq<Message>, b: int, summary: string, after: seq<Message>) {
    && Usable(messages, 2, b) && (forall k :: k > b ==> !Usable(messages, 2, k))
    && exists note :: CarriesSummary(note, summary) && after == Systems(messages) + [note] + NonSystem(messages[b..])
  }

  /**
   * A transcript without a usable boundary stays as it is. Otherwise the summarizer is asked, and what
   * comes before the last usable boundary, but for system messages, gives way to its summary.
   */
  method Compress(messages: seq<Message>, summary: Option<string>) returns (result: Option<seq<Message>>)
    ensures result == CompressResult(messages, summary)
    ensures if (forall b :: !Usable(messages, 2, b)) then result == Some(messages)
            else if summary == None then result == None
            else result.Some? && exists b :: CutAt(messages, b, summary.value, result.value)
  {
    var boundary := FindSafeBoundary(messages, KEEP_RECENT_CYCLES);
    assert boundary == Boundary(messages) || (boundary <= 0 && Boundary(messages) == 0);
    if boundary <= 0 {
      return Some(messages);
    }
    var systemMessages := Systems(messages);
    var afterBoundary := NonSystem(messages[boundary..]);
    if summary == None {
      return None;
    }
    SummaryIsCarried(summary.value);
    result := Some(systemMessages + [SummaryMessage(summary.value)] + afterBoundary);
    assert CutAt(messages, boundary, summary.value, result.value);
  }

  function CompressResult(messages: seq<Message>, summary: Option<string>): Option<seq<Message>> {
    if Boundary(messages) == 0 then Some(messages)
    else if summary == None then None
    else Some(Compressed(messages, summary.value))
  }

  // ------------------------------------------------------------ what compression keeps

  lemma AssembledParts(systems: seq<Message>, kept: seq<Message>)
    requires forall m :: m in systems ==> m.role == System
    requires forall m :: m in kept ==> m.role != System
    ensures Systems(systems + kept) == systems && NonSystem(systems + kept) == kept
  {
    SystemsFixed(systems);
    NonSystemFixed(kept);
    NonSystemConcat(systems, kept);
  }

  /** System messages keep their order and gain the summary; the rest is a verbatim suffix. */
  lemma CompressedParts(messages: seq<Message>, summary: string)
    requires Boundary(messages) > 0
    ensures Systems(Compressed(messages, summary)) == Systems(messages) + [SummaryMessage(summary)]
    ensures CarriesSummary(SummaryMessage(summary), summary)
    ensures NonSystem(Compressed(messages, summary)) == NonSystem(messages[Boundary(messages)..])
    ensures NonSystem(messages)
         == NonSystem(messages[..Boundary(messages)]) + NonSystem(Compressed(messages, summary))
  {
    var b := Boundary(messages);
    NonSystemOnly(messages);
    NonSystemOnly(messages[b..]);
    AssembledParts(Systems(messages) + [SummaryMessage(summary)], NonSystem(messages[b..]));
    assert messages == messages[..b] + messages[b..];
    NonSystemConcat(messages[..b], messages[b..]);
  }

  lemma FirstKept(messages: seq<Message>, b: nat)
    requires b < |messages| && messages[b].role != System
    ensures NonSystem(messages[b..]) != [] && NonSystem(messages[b..])[0] == messages[b]
  {
    assert messages[b..] == [messages[b]] + messages[b + 1..];
    NonSystemConcat([messages[b]], messages[b + 1..]);
    NonSystemFixed([messages[b]]);
  }

  /** Compression keeps a well-paired transcript well paired. */
  lemma CompressionKeepsPairing(messages: seq<Message>, summary: string)
    requires WellPaired(messages)
    ensures WellPaired(Compressed(messages, summary))
  {
    var b := Boundary(messages);
    if b > 0 {
      CompressedParts(messages, summary);
      var older, kept := NonSystem(messages[..b]), NonSystem(messages[b..]);
      FirstKept(messages, b);
      assert (older + kept)[|older|] == messages[b];
      assert (older + kept)[|older|..] == kept;
      PairedFromUser(older + kept, |older|);
    }
  }

  /**
   * On any transcript, paired or not: no kept tool result loses a call it answered. A call with a
   * non-empty id that a kept result answers was made at or after the boundary, so it is kept too.
   */
  lemma NoKeptResultLosesItsCall(messages: seq<Message>, i: nat, c: nat, j: nat)
    requires 0 < Boundary(messages) <= j < |messages| && i < |messages|
    requires c < |CallsOf(messages[i])| && CallsOf(messages[i])[c].id != ""
    requires IsResultOf(messages[j], CallsOf(messages[i])[c])
    ensures i >= Boundary(messages)
    ensures forall summary ::
              messages[i] in Compressed(messages, summary) && messages[j] in Compressed(messages, summary)
  {
    var b := Boundary(messages);
    assert Safe(messages, b);
    assert i >= b by { CallIsKept(messages, b, i, c, j); }
    assert messages[b..][i - b] == messages[i] && messages[b..][j - b] == messages[j];
    KeptVerbatim(messages[b..], i - b);
    KeptVerbatim(messages[b..], j - b);
  }

  lemma CallIsKept(messages: seq<Message>, b: nat, i: nat, c: nat, j: nat)
    requires b <= j < |messages| && i < |messages| && !CrossCut(messages, b)
    requires c < |CallsOf(messages[i])| && CallsOf(messages[i])[c].id != ""
    requires IsResultOf(messages[j], CallsOf(messages[i])[c])
    ensures i >= b
  {
  }

  lemma {:induction false} KeptVerbatim(ms: seq<Message>, i: nat)
    requires i < |ms| && ms[i].role != System
    ensures ms[i] in NonSystem(ms)
  {
    if i < |ms| - 1 {
      KeptVerbatim(ms[..|ms| - 1], i);
    }
  }

  // ------------------------------------------------------------ what compression does to a prefix

  predicate AllSystem(ms: seq<Message>) {
    forall m :: m in ms ==> m.role == System
  }

  /** The number of system messages before the first other one. */
  function Leading(ms: seq<Message>): (n: nat)
    ensures n <= |ms| && AllSystem(ms[..n])
    ensures n < |ms| ==> ms[n].role != System
  {
    if ms == [] || ms[0].role != System then 0
    else
      var n := 1 + Leading(ms[1..]);
      assert ms[..n] == [ms[0]] + ms[1..][..n - 1];
      n
  }

  lemma {:induction false} LeadingAtLeast(ms: seq<Message>, n: nat)
    requires n <= |ms| && AllSystem(ms[..n])
    ensures Leading(ms) >= n
  {
    if n > 0 {
      assert ms[..n] == [ms[0]] + ms[1..][..n - 1];
      LeadingAtLeast(ms[1..], n - 1);
    }
  }

  /** A prefix that holds another message decides what the text leads with. */
  lemma {:induction false} LeadingOfPrefix(a: seq<Message>, b: seq<Message>)
    requires a <= b
    ensures AllSystem(a) || Leading(b) == Leading(a)
  {
    if a != [] && a[0].role == System {
      LeadingOfPrefix(a[1..], b[1..]);
      assert a == [a[0]] + a[1..];
    }
  }

  lemma LeadingExtends(a: seq<Message>, b: seq<Message>)
    requires a <= b
    ensures Leading(b) >= Leading(a)
  {
    assert b[..Leading(a)] == a[..Leading(a)];
    LeadingAtLeast(b, Leading(a));
  }

  lemma SystemsOfPrefix(ms: seq<Message>, n: nat)
    requires n <= |ms| && AllSystem(ms[..n])
    ensures ms[..n] <= Systems(ms)
  {
    assert ms == ms[..n] + ms[n..];
    NonSystemConcat(ms[..n], ms[n..]);
    SystemsFixed(ms[..n]);
  }

  /** A real compression puts at least one more system message in front. */
  lemma CompressionLeads(messages: seq<Message>, summary: string)
    requires Boundary(messages) > 0
    ensures Leading(Compressed(messages, summary)) > Leading(messages)
  {
    var n := Leading(messages);
    var after := Compressed(messages, summary);
    var front := Systems(messages) + [SummaryMessage(summary)];
    SystemsOfPrefix(messages, n);
    NonSystemOnly(messages);
    assert after[..|front|] == front;
    LeadingAtLeast(after, |front|);
  }

  /**
   * What is left of an initial transcript: before any real compression it is a prefix, afterwards it is
   * one iff it held system messages only, because the text then leads with more of them.
   */
  predicate PrefixState(initial: seq<Message>, messages: seq<Message>, shortened: bool) {
    if shortened && !AllSystem(initial) then Leading(messages) > Leading(initial) else initial <= messages
  }

  lemma PrefixStateExtends(initial: seq<Message>, messages: seq<Message>, after: seq<Message>, shortened: bool)
    requires PrefixState(initial, messages, shortened) && messages <= after
    ensures PrefixState(initial, after, shortened)
  {
    LeadingExtends(messages, after);
  }

  lemma CompressionKeepsPrefixState(initial: seq<Message>, messages: seq<Message>, summary: string, shortened: bool)
    requires PrefixState(initial, messages, shortened) && Boundary(messages) > 0
    ensures PrefixState(initial, Compressed(messages, summary), true)
  {
    var after := Compressed(messages, summary);
    if AllSystem(initial) {
      assert messages[..|initial|] == initial;
      SystemsOfPrefix(messages, |initial|);
      assert Systems(messages) <= after;
    } else {
      CompressionLeads(messages, summary);
      if !shortened {
        LeadingExtends(initial, messages);
      }
    }
  }

  /** The state decides whether the initial transcript is still a prefix. */
  lemma PrefixLostExactly(initial: seq<Message>, messages: seq<Message>, shortened: bool)
    requires PrefixState(initial, messages, shortened)
    ensures initial <= messages <==> !shortened || AllSystem(initial)
  {
    if initial <= messages {
      LeadingOfPrefix(initial, messages);
    }
  }
}
