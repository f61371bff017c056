/**
 * One turn of the reasoning loop, message by message: what follows a response in the transcript
 * before the next request is sent, or when the run ends.
 */
module ReasoningTurn {
  import opened Util
  import opened Transcript
  import opened ReasoningLog
  import opened ToolLoopGuardModel
  import Compressor
  import Recovery

  /** Only the place of the notes to the model matters here, not their wording. */
  const GRACE_MESSAGE := SystemMessage("last turn")

  /** The unit codes of read_file. */
  const READ_FILE: Text := [114, 101, 97, 100, 95, 102, 105, 108, 101]

  datatype Skill = Skill(name: string, stale: bool)

  type Skills = map<Text, Skill>

  /** The note on a skill read for the first time. */
  function SkillMessage(skill: Skill): Message {
    SystemMessage("skill " + skill.name + (if skill.stale then ", stale" else ""))
  }

  function TextOf(content: Option<string>): (text: string)
    ensures content.Some? ==> text == content.value
  {
    if content == None then "" else content.value
  }

  // ------------------------------------------------------------ the results of the calls

  /** `results` answers the first of `calls`, in order. */
  predicate Answers(results: seq<Message>, calls: seq<ToolCall>) {
    |results| <= |calls| && forall i :: 0 <= i < |results| ==> IsResultOf(results[i], calls[i])
  }

  /** Each of the `results` is what the tool made of its call. */
  predicate Outputs(env: Environment, iteration: nat, results: seq<Message>, calls: seq<ToolCall>) {
    && |results| <= |calls|
    && forall i :: 0 <= i < |results| ==> IsOutput(env, iteration, i, results[i], calls[i])
  }

  predicate IsOutput(env: Environment, iteration: nat, k: nat, result: Message, call: ToolCall) {
    && env.tool(iteration, k).Some?
    && result.role == Tool && result.toolCallId == Some(call.id) && result.toolCalls == []
    && result.content == env.tool(iteration, k).value.output
  }

  lemma OutputsAnswer(env: Environment, iteration: nat, results: seq<Message>, calls: seq<ToolCall>)
    requires Outputs(env, iteration, results, calls)
    ensures Answers(results, calls)
  {
    forall i | 0 <= i < |results| ensures IsResultOf(results[i], calls[i]) {
      assert IsOutput(env, iteration, i, results[i], calls[i]);
    }
  }

  /** The note that follows the answer to a call, if any. */
  function NoteAfter(env: Environment, skills: Skills, injected: set<Text>, call: ToolCall, isError: bool)
    : (note: Option<Message>)
    ensures note.Some? ==> note.value.role == System
  {
    var path := env.pathOf(call.arguments);
    if !isError && call.name == READ_FILE && path !in injected && path in skills
    then Some(SkillMessage(skills[path]))
    else None
  }

  /** What a run remembers from turn to turn: the skills it noted, and the calls its guard was told of. */
  datatype Memory = Memory(noted: set<Text>, reported: seq<Call>)

  const BLANK := Memory({}, [])

  /** What a turn appends, and what the run remembers after it. */
  datatype Turn = Turn(messages: seq<Message>, memory: Memory)

  /** Answering one call: its result, and the note on a skill read for the first time. */
  function StepOf(
      env: Environment, skills: Skills, iteration: nat, k: nat, call: ToolCall, memory: Memory): Turn
  {
    match env.tool(iteration, k)
    case None => Turn([], memory)
    case Some(result) =>
      var reported := memory.reported + [Call(call.name, call.arguments, result.isError)];
      match NoteAfter(env, skills, memory.noted, call, result.isError)
      case None => Turn([ToolMessage(result.output, call.id)], Memory(memory.noted, reported))
      case Some(note) =>
        Turn([ToolMessage(result.output, call.id), note],
             Memory(memory.noted + {env.pathOf(call.arguments)}, reported))
  }

  /** Answering the first `k` calls. */
  function TurnOf(
      env: Environment, skills: Skills, iteration: nat, memory: Memory, calls: seq<ToolCall>, k: nat): Turn
    requires k <= |calls|
  {
    if k == 0 then Turn([], memory)
    else
      var before := TurnOf(env, skills, iteration, memory, calls, k - 1);
      var step := StepOf(env, skills, iteration, k - 1, calls[k - 1], before.memory);
      Turn(before.messages + step.messages, step.memory)
  }

  predicate AllRan(env: Environment, iteration: nat, calls: seq<ToolCall>, k: nat) {
    forall j :: 0 <= j < k && j < |calls| ==> env.tool(iteration, j).Some?
  }

  /** The results alone, in the order of the calls. */
  function Results(env: Environment, iteration: nat, calls: seq<ToolCall>, k: nat): (results: seq<Message>)
    requires k <= |calls| && AllRan(env, iteration, calls, k)
    ensures |results| == k && Outputs(env, iteration, results, calls)
  {
    if k == 0 then []
    else
      Results(env, iteration, calls, k - 1)
      + [ToolMessage(env.tool(iteration, k - 1).value.output, calls[k - 1].id)]
  }

  /** Apart from notes a turn appends just the results. */
  lemma {:induction false} TurnShowsResults(
      env: Environment, skills: Skills, iteration: nat, memory: Memory, calls: seq<ToolCall>, k: nat)
    requires k <= |calls| && AllRan(env, iteration, calls, k)
    ensures NonSystem(TurnOf(env, skills, iteration, memory, calls, k).messages)
         == Results(env, iteration, calls, k)
  {
    if k > 0 {
      TurnShowsResults(env, skills, iteration, memory, calls, k - 1);
      var before := TurnOf(env, skills, iteration, memory, calls, k - 1);
      var step := StepOf(env, skills, iteration, k - 1, calls[k - 1], before.memory);
      StepShowsResult(env, skills, iteration, k - 1, calls[k - 1], before.memory);
      ShownTogether(
        before.messages, step.messages, Results(env, iteration, calls, k - 1),
        [ToolMessage(env.tool(iteration, k - 1).value.output, calls[k - 1].id)]);
    }
  }

  lemma ShownTogether(a: seq<Message>, b: seq<Message>, shownA: seq<Message>, shownB: seq<Message>)
    requires NonSystem(a) == shownA && NonSystem(b) == shownB
    ensures NonSystem(a + b) == shownA + shownB
  {
    NonSystemConcat(a, b);
  }

  lemma StepShowsResult(
      env: Environment, skills: Skills, iteration: nat, k: nat, call: ToolCall, memory: Memory)
    requires env.tool(iteration, k).Some?
    ensures NonSystem(StepOf(env, skills, iteration, k, call, memory).messages)
         == [ToolMessage(env.tool(iteration, k).value.output, call.id)]
  {
    var result := env.tool(iteration, k).value;
    var answer := ToolMessage(result.output, call.id);
    NonSystemFixed([answer]);
    match NoteAfter(env, skills, memory.noted, call, result.isError)
    case None =>
    case Some(note) =>
      assert [answer, note] == [answer] + [note];
      NonSystemAppend([answer], note);
  }

  // ------------------------------------------------------------ the turns of a run

  /** What the run remembers after its first `n` turns. */
  function MemoryOf(env: Environment, skills: Skills, responses: seq<Response>, n: nat): Memory
    requires n <= |responses|
  {
    if n == 0 then BLANK
    else
      var calls := responses[n - 1].toolCalls;
      TurnOf(env, skills, n, MemoryOf(env, skills, responses, n - 1), calls, |calls|).memory
  }

  lemma {:induction false} MemoryOfPrefix(
      env: Environment, skills: Skills, responses: seq<Response>, more: seq<Response>, n: nat)
    requires n <= |responses| && responses <= more
    ensures MemoryOf(env, skills, more, n) == MemoryOf(env, skills, responses, n)
  {
    if n > 0 {
      MemoryOfPrefix(env, skills, responses, more, n - 1);
    }
  }

  /** Call `k` of turn `n` is a clean read of the file at `path`. */
  predicate CleanRead(env: Environment, responses: seq<Response>, n: int, k: int, path: Text) {
    && 0 < n <= |responses| && 0 <= k < |responses[n - 1].toolCalls|
    && env.tool(n, k).Some? && !env.tool(n, k).value.isError
    && var call := responses[n - 1].toolCalls[k];
    call.name == READ_FILE && env.pathOf(call.arguments) == path
  }

  /** One of the first `k` calls of turn `n`, or a call of a turn before it, is a clean read. */
  ghost predicate ReadBefore(env: Environment, responses: seq<Response>, n: nat, k: nat, path: Text)
    requires 0 < n <= |responses| && k <= |responses[n - 1].toolCalls|
  {
    exists i, j :: i <= n && (i == n ==> j < k) && CleanRead(env, responses, i, j, path)
  }

  lemma ReadNext(env: Environment, responses: seq<Response>, n: nat, k: nat, path: Text)
    requires 0 < n <= |responses| && k < |responses[n - 1].toolCalls|
    ensures ReadBefore(env, responses, n, k + 1, path) <==>
              ReadBefore(env, responses, n, k, path) || CleanRead(env, responses, n, k, path)
  {
  }

  lemma ReadNextTurn(env: Environment, responses: seq<Response>, n: nat, path: Text)
    requires 1 < n <= |responses|
    ensures ReadBefore(env, responses, n, 0, path) <==>
              ReadBefore(env, responses, n - 1, |responses[n - 2].toolCalls|, path)
  {
  }

  /** A path is noted exactly when it names a skill and was read cleanly. */
  lemma {:induction false} NotedExactly(
      env: Environment, skills: Skills, responses: seq<Response>, n: nat, k: nat, path: Text)
    requires 0 < n <= |responses| && k <= |responses[n - 1].toolCalls|
    ensures path in TurnOf(env, skills, n, MemoryOf(env, skills, responses, n - 1), responses[n - 1].toolCalls, k)
                    .memory.noted
            <==> path in skills && ReadBefore(env, responses, n, k, path)
    decreases n, k
  {
    if k > 0 {
      NotedExactly(env, skills, responses, n, k - 1, path);
      ReadNext(env, responses, n, k - 1, path);
    } else if n > 1 {
      NotedExactly(env, skills, responses, n - 1, |responses[n - 2].toolCalls|, path);
      ReadNextTurn(env, responses, n, path);
    }
  }

  /** The answer to call `k` of turn `n` is followed by the note on a skill iff it is the first clean read of it. */
  lemma NoteFollowsFirstRead(
      env: Environment, skills: Skills, responses: seq<Response>, n: nat, k: nat, path: Text)
    requires 0 < n <= |responses| && k < |responses[n - 1].toolCalls|
    requires env.tool(n, k).Some? && path == env.pathOf(responses[n - 1].toolCalls[k].arguments)
    ensures var calls, result := responses[n - 1].toolCalls, env.tool(n, k).value;
            var memory := TurnOf(env, skills, n, MemoryOf(env, skills, responses, n - 1), calls, k).memory;
            var answer := ToolMessage(result.output, calls[k].id);
            StepOf(env, skills, n, k, calls[k], memory).messages ==
            if path in skills && CleanRead(env, responses, n, k, path) && !ReadBefore(env, responses, n, k, path)
            then [answer, SystemMessage("skill " + skills[path].name + (if skills[path].stale then ", stale" else ""))]
            else [answer]
  {
    NotedExactly(env, skills, responses, n, k, path);
  }

  /** The guard was told of all calls before the last response, and of the first `k` of that one. */
  predicate ToldUpTo(env: Environment, skills: Skills, responses: seq<Response>, k: nat, reported: seq<Call>)
    requires responses != []
  {
    var n, calls := |responses|, responses[|responses| - 1].toolCalls;
    && k <= |calls|
    && reported == TurnOf(env, skills, n, MemoryOf(env, skills, responses, n - 1), calls, k).memory.reported
  }

  /** The run was interrupted: the guard was told of its calls up to some point of the last turn. */
  ghost predicate CutShort(env: Environment, skills: Skills, responses: seq<Response>, reported: seq<Call>) {
    if responses == [] then reported == []
    else exists k :: 0 <= k && ToldUpTo(env, skills, responses, k, reported)
  }

  lemma CutBetween(env: Environment, skills: Skills, responses: seq<Response>, n: nat, memory: Memory)
    requires n == |responses| || n + 1 == |responses|
    requires memory == MemoryOf(env, skills, responses, n)
    ensures CutShort(env, skills, responses, memory.reported)
  {
    if n < |responses| {
      assert ToldUpTo(env, skills, responses, 0, memory.reported);
    } else if n > 0 {
      assert ToldUpTo(env, skills, responses, |responses[n - 1].toolCalls|, memory.reported);
    }
  }

  /** The adopted messages with the note that the next turn is the last, if it is due. */
  function Noted(adopted: seq<Message>, grace: bool): seq<Message> {
    if grace then adopted + [GRACE_MESSAGE] else adopted
  }

  /**
   * After the n-th response the run goes on: the transcript is the adopted one, the note on the last
   * turn if it is due, the response with its calls, and the results of all of them with the notes on
   * skills read for the first time.
   */
  predicate Resumed(
      env: Environment, skills: Skills, adopted: seq<Message>, responses: seq<Response>, n: nat, grace: bool,
      after: seq<Message>)
    requires 0 < n <= |responses|
  {
    var calls := responses[n - 1].toolCalls;
    && AllRan(env, n, calls, |calls|)
    && after == Noted(adopted, grace) + [AssistantMessage(TextOf(responses[n - 1].content), calls)]
                + TurnOf(env, skills, n, MemoryOf(env, skills, responses, n - 1), calls, |calls|).messages
  }

  /** The run ends with the n-th response as a plain answer. */
  predicate Concluded(
      adopted: seq<Message>, responses: seq<Response>, n: nat, grace: bool, after: seq<Message>)
    requires 0 < n <= |responses|
  {
    after == Noted(adopted, grace) + [AssistantMessage(TextOf(responses[n - 1].content), [])]
  }

  /** The first request is the initial transcript, any other what the turn before it made of it. */
  predicate Turned(
      env: Environment, skills: Skills, initial: seq<Message>, requests: seq<Request>, attempts: seq<Attempt>,
      responses: seq<Response>, injectedAt: Option<nat>, i: nat)
    requires i < |requests|
  {
    if i == 0 then requests[i].messages == initial
    else
      && i <= |attempts| && i <= |responses| && attempts[i - 1].outcome.Success?
      && Resumed(
           env, skills, attempts[i - 1].outcome.messages, responses, i, injectedAt == Some(i), requests[i].messages)
  }

  predicate Turns(
      env: Environment, skills: Skills, initial: seq<Message>, requests: seq<Request>, attempts: seq<Attempt>,
      responses: seq<Response>, injectedAt: Option<nat>)
  {
    forall i :: 0 <= i < |requests| ==> Turned(env, skills, initial, requests, attempts, responses, injectedAt, i)
  }

  /** The transcript after all responses have been acted on. */
  predicate AtRest(
      env: Environment, skills: Skills, initial: seq<Message>, attempts: seq<Attempt>, responses: seq<Response>,
      injectedAt: Option<nat>, messages: seq<Message>)
  {
    var n := |responses|;
    if n == 0 then messages == initial
    else
      && n <= |attempts| && attempts[n - 1].outcome.Success?
      && Resumed(env, skills, attempts[n - 1].outcome.messages, responses, n, injectedAt == Some(n), messages)
  }

  /** The transcript before the last response is acted on. */
  predicate Drafted(
      attempts: seq<Attempt>, responses: seq<Response>, injectedAt: Option<nat>, messages: seq<Message>)
  {
    var n := |responses|;
    && 0 < n <= |attempts| && attempts[n - 1].outcome.Success?
    && messages == Noted(attempts[n - 1].outcome.messages, injectedAt == Some(n))
  }

  lemma TurnsSend(
      env: Environment, skills: Skills, initial: seq<Message>, requests: seq<Request>, attempts: seq<Attempt>,
      responses: seq<Response>, injectedAt: Option<nat>, messages: seq<Message>, restricted: bool)
    requires Turns(env, skills, initial, requests, attempts, responses, injectedAt) && |requests| == |responses|
    requires AtRest(env, skills, initial, attempts, responses, injectedAt, messages)
    ensures Turns(env, skills, initial, requests + [Request(restricted, messages)], attempts, responses, injectedAt)
  {
    var all := requests + [Request(restricted, messages)];
    forall i | 0 <= i < |all| ensures Turned(env, skills, initial, all, attempts, responses, injectedAt, i) {
      if i < |requests| {
        assert Turned(env, skills, initial, requests, attempts, responses, injectedAt, i);
      }
    }
  }

  lemma TurnedStill(
      env: Environment, skills: Skills, initial: seq<Message>, requests: seq<Request>, attempts: seq<Attempt>,
      responses: seq<Response>, injectedAt: Option<nat>, attempt: Attempt, more: seq<Response>, i: nat)
    requires i < |requests| && responses <= more
    requires Turned(env, skills, initial, requests, attempts, responses, injectedAt, i)
    ensures Turned(env, skills, initial, requests, attempts + [attempt], more, injectedAt, i)
  {
    if i > 0 {
      MemoryOfPrefix(env, skills, responses, more, i - 1);
    }
  }

  /** One more attempt, and one more response if it succeeded. */
  lemma TurnsNext(
      env: Environment, skills: Skills, initial: seq<Message>, requests: seq<Request>, attempts: seq<Attempt>,
      responses: seq<Response>, injectedAt: Option<nat>, attempt: Attempt, more: seq<Response>)
    requires Turns(env, skills, initial, requests, attempts, responses, injectedAt) && responses <= more
    ensures Turns(env, skills, initial, requests, attempts + [attempt], more, injectedAt)
  {
    forall i | 0 <= i < |requests|
      ensures Turned(env, skills, initial, requests, attempts + [attempt], more, injectedAt, i)
    {
      TurnedStill(env, skills, initial, requests, attempts, responses, injectedAt, attempt, more, i);
    }
  }

  lemma AtRestStill(
      env: Environment, skills: Skills, initial: seq<Message>, attempts: seq<Attempt>, responses: seq<Response>,
      injectedAt: Option<nat>, messages: seq<Message>, attempt: Attempt)
    requires AtRest(env, skills, initial, attempts, responses, injectedAt, messages)
    ensures AtRest(env, skills, initial, attempts + [attempt], responses, injectedAt, messages)
  {
  }

  lemma TurnsGrace(
      env: Environment, skills: Skills, initial: seq<Message>, requests: seq<Request>, attempts: seq<Attempt>,
      responses: seq<Response>)
    requires Turns(env, skills, initial, requests, attempts, responses, None) && |requests| == |responses|
    ensures Turns(env, skills, initial, requests, attempts, responses, Some(|responses|))
  {
    forall i | 0 <= i < |requests|
      ensures Turned(env, skills, initial, requests, attempts, responses, Some(|responses|), i)
    {
      assert Turned(env, skills, initial, requests, attempts, responses, None, i);
    }
  }

  /**
   * What a run tells: every request after the first is the transcript of the turn before it, and so is
   * the final transcript, unless the run concludes with its last response as a plain answer.
   */
  predicate Told(
      env: Environment, skills: Skills, initial: seq<Message>, requests: seq<Request>, attempts: seq<Attempt>,
      responses: seq<Response>, injectedAt: Option<nat>, concludes: bool, messages: seq<Message>)
  {
    var n := |responses|;
    && Turns(env, skills, initial, requests, attempts, responses, injectedAt)
    && if concludes then
         && 0 < n <= |attempts| && attempts[n - 1].outcome.Success?
         && Concluded(attempts[n - 1].outcome.messages, responses, n, injectedAt == Some(n), messages)
       else AtRest(env, skills, initial, attempts, responses, injectedAt, messages)
  }

  /** Without the notes: the response with its calls, and each call's own output in order. */
  lemma ResumedShows(
      env: Environment, skills: Skills, adopted: seq<Message>, responses: seq<Response>, n: nat, grace: bool,
      after: seq<Message>)
    requires 0 < n <= |responses| && Resumed(env, skills, adopted, responses, n, grace, after)
    ensures var calls := responses[n - 1].toolCalls;
            && AllRan(env, n, calls, |calls|)
            && Outputs(env, n, Results(env, n, calls, |calls|), calls)
            && NonSystem(after)
               == NonSystem(adopted) + [AssistantMessage(TextOf(responses[n - 1].content), calls)]
                + Results(env, n, calls, |calls|)
  {
    var calls := responses[n - 1].toolCalls;
    var memory := MemoryOf(env, skills, responses, n - 1);
    var call := AssistantMessage(TextOf(responses[n - 1].content), calls);
    TurnShowsResults(env, skills, n, memory, calls, |calls|);
    NotedShows(adopted, grace, call);
    ShownTogether(
      Noted(adopted, grace) + [call], TurnOf(env, skills, n, memory, calls, |calls|).messages,
      NonSystem(adopted) + [call], Results(env, n, calls, |calls|));
  }

  lemma NotedShows(adopted: seq<Message>, grace: bool, call: Message)
    requires call.role != System
    ensures NonSystem(Noted(adopted, grace) + [call]) == NonSystem(adopted) + [call]
  {
    NonSystemAppend(adopted, GRACE_MESSAGE);
    NonSystemAppend(Noted(adopted, grace), call);
  }

  /** The assistant's side of a turn: the text and the tool calls of its response. */
  predicate IsTurnOf(response: Response, message: Message) {
    && message.role == Assistant && message.toolCalls == response.toolCalls && message.toolCallId == None
    && message.content == if response.content == None then "" else response.content.value
  }

  /**
   * Notes aside, `after` is the adopted transcript followed by the response with its calls, and by each
   * call's own output in the order of the calls: nothing is missing, and nothing else is there.
   */
  ghost predicate HoldsTurn(
      env: Environment, adopted: seq<Message>, response: Response, n: nat, after: seq<Message>)
  {
    exists call, results ::
      && IsTurnOf(response, call)
      && Outputs(env, n, results, response.toolCalls) && |results| == |response.toolCalls|
      && NonSystem(after) == NonSystem(adopted) + [call] + results
  }

  lemma ResumedHoldsTurn(
      env: Environment, skills: Skills, adopted: seq<Message>, responses: seq<Response>, n: nat, grace: bool,
      after: seq<Message>)
    requires 0 < n <= |responses| && Resumed(env, skills, adopted, responses, n, grace, after)
    ensures HoldsTurn(env, adopted, responses[n - 1], n, after)
  {
    var response := responses[n - 1];
    ResumedShows(env, skills, adopted, responses, n, grace, after);
    assert IsTurnOf(response, AssistantMessage(TextOf(response.content), response.toolCalls));
  }

  /** So no request after the first lacks a call of the response before it, or its result. */
  lemma NextRequestHoldsTheTurn(
      env: Environment, skills: Skills, initial: seq<Message>, requests: seq<Request>, attempts: seq<Attempt>,
      responses: seq<Response>, injectedAt: Option<nat>, i: nat)
    requires Turns(env, skills, initial, requests, attempts, responses, injectedAt) && 0 < i < |requests|
    ensures RequestHoldsTurn(env, requests, attempts, responses, i)
  {
    assert Turned(env, skills, initial, requests, attempts, responses, injectedAt, i);
    var adopted := attempts[i - 1].outcome.messages;
    ResumedHoldsTurn(env, skills, adopted, responses, i, injectedAt == Some(i), requests[i].messages);
  }

  ghost predicate RequestHoldsTurn(
      env: Environment, requests: seq<Request>, attempts: seq<Attempt>, responses: seq<Response>, i: nat)
    requires 0 < i < |requests|
  {
    && i <= |attempts| && i <= |responses| && attempts[i - 1].outcome.Success?
    && HoldsTurn(env, attempts[i - 1].outcome.messages, responses[i - 1], i, requests[i].messages)
  }

  /** The messages a run ends with hold its last turn, or end with its last response as a plain answer. */
  ghost predicate EndHoldsTurn(
      env: Environment, attempts: seq<Attempt>, responses: seq<Response>, concludes: bool, messages: seq<Message>)
    requires responses != []
  {
    var n := |responses|;
    && n <= |attempts| && attempts[n - 1].outcome.Success?
    && if concludes then
         && messages != [] && IsAnswer(responses[n - 1], messages[|messages| - 1])
         && NonSystem(messages[..|messages| - 1]) == NonSystem(attempts[n - 1].outcome.messages)
       else HoldsTurn(env, attempts[n - 1].outcome.messages, responses[n - 1], n, messages)
  }

  /** Each request holds the turn before it, and so do the messages a run ends with. */
  ghost predicate HoldsTurns(
      env: Environment, requests: seq<Request>, attempts: seq<Attempt>, responses: seq<Response>, concludes: bool,
      messages: seq<Message>)
  {
    && (forall i :: 0 < i < |requests| ==> RequestHoldsTurn(env, requests, attempts, responses, i))
    && (responses != [] ==> EndHoldsTurn(env, attempts, responses, concludes, messages))
  }

  /** The text of the response as a plain answer, without its tool calls. */
  predicate IsAnswer(response: Response, message: Message) {
    && message.role == Assistant && message.toolCalls == [] && message.toolCallId == None
    && message.content == if response.content == None then "" else response.content.value
  }

  lemma ConcludedShows(
      adopted: seq<Message>, responses: seq<Response>, n: nat, grace: bool, after: seq<Message>)
    requires 0 < n <= |responses| && Concluded(adopted, responses, n, grace, after)
    ensures after != [] && IsAnswer(responses[n - 1], after[|after| - 1])
    ensures NonSystem(after[..|after| - 1]) == NonSystem(adopted)
  {
    assert after[..|after| - 1] == Noted(adopted, grace);
    NonSystemAppend(adopted, GRACE_MESSAGE);
  }

  /** What a run tells is complete. */
  lemma ToldHoldsTurns(
      env: Environment, skills: Skills, initial: seq<Message>, requests: seq<Request>, attempts: seq<Attempt>,
      responses: seq<Response>, injectedAt: Option<nat>, concludes: bool, messages: seq<Message>)
    requires Told(env, skills, initial, requests, attempts, responses, injectedAt, concludes, messages)
    ensures HoldsTurns(env, requests, attempts, responses, concludes, messages)
  {
    forall i | 0 < i < |requests| ensures RequestHoldsTurn(env, requests, attempts, responses, i) {
      NextRequestHoldsTheTurn(env, skills, initial, requests, attempts, responses, injectedAt, i);
    }
    if responses != [] {
      EndShows(env, skills, initial, requests, attempts, responses, injectedAt, concludes, messages);
    }
  }

  lemma EndShows(
      env: Environment, skills: Skills, initial: seq<Message>, requests: seq<Request>, attempts: seq<Attempt>,
      responses: seq<Response>, injectedAt: Option<nat>, concludes: bool, messages: seq<Message>)
    requires Told(env, skills, initial, requests, attempts, responses, injectedAt, concludes, messages)
    requires responses != []
    ensures EndHoldsTurn(env, attempts, responses, concludes, messages)
  {
    var n := |responses|;
    var adopted := attempts[n - 1].outcome.messages;
    if concludes {
      ConcludedShows(adopted, responses, n, injectedAt == Some(n), messages);
    } else {
      ResumedHoldsTurn(env, skills, adopted, responses, n, injectedAt == Some(n), messages);
    }
  }

  /** The calls answered so far, `results`, follow `base` in `current`. */
  ghost predicate Appended(base: seq<Message>, current: seq<Message>, results: seq<Message>) {
    base <= current && NonSystem(current) == NonSystem(base) + results
  }

  /** Appending a whole turn appends the results, and nothing else that is not a note. */
  lemma TurnAppended(
      env: Environment, skills: Skills, iteration: nat, memory: Memory, calls: seq<ToolCall>, base: seq<Message>)
    requires AllRan(env, iteration, calls, |calls|)
    ensures Appended(
              base, base + TurnOf(env, skills, iteration, memory, calls, |calls|).messages,
              Results(env, iteration, calls, |calls|))
  {
    TurnShowsResults(env, skills, iteration, memory, calls, |calls|);
    NonSystemConcat(base, TurnOf(env, skills, iteration, memory, calls, |calls|).messages);
  }

  /** The first `k` calls took the transcript from `base` to `current`, and the noted skills along. */
  predicate TurnSoFar(
      env: Environment, skills: Skills, iteration: nat, memory: Memory, calls: seq<ToolCall>, k: nat,
      base: seq<Message>, current: seq<Message>, noted: Memory)
    requires k <= |calls|
  {
    && AllRan(env, iteration, calls, k)
    && var turn := TurnOf(env, skills, iteration, memory, calls, k);
    current == base + turn.messages && noted == turn.memory
  }

  lemma OneMoreCall(
      env: Environment, skills: Skills, iteration: nat, memory: Memory, calls: seq<ToolCall>, k: nat,
      base: seq<Message>, before: seq<Message>, noted: Memory, after: seq<Message>, noted': Memory)
    requires k < |calls| && TurnSoFar(env, skills, iteration, memory, calls, k, base, before, noted)
    requires env.tool(iteration, k).Some?
    requires var step := StepOf(env, skills, iteration, k, calls[k], noted);
             after == before + step.messages && noted' == step.memory
    ensures TurnSoFar(env, skills, iteration, memory, calls, k + 1, base, after, noted')
  {
  }

  /** An exception at call `k` comes before or after the guard hears of that call. */
  lemma CutInTurn(
      env: Environment, skills: Skills, responses: seq<Response>, k: nat, base: seq<Message>,
      before: seq<Message>, noted: Memory, reported: seq<Call>)
    requires responses != [] && k < |responses[|responses| - 1].toolCalls|
    requires TurnSoFar(
               env, skills, |responses|, MemoryOf(env, skills, responses, |responses| - 1),
               responses[|responses| - 1].toolCalls, k, base, before, noted)
    requires reported == noted.reported
             || (env.tool(|responses|, k).Some?
                 && var call := responses[|responses| - 1].toolCalls[k];
                 reported == noted.reported
                             + [Call(call.name, call.arguments, env.tool(|responses|, k).value.isError)])
    ensures CutShort(env, skills, responses, reported)
  {
    if reported == noted.reported {
      assert ToldUpTo(env, skills, responses, k, reported);
    } else {
      assert ToldUpTo(env, skills, responses, k + 1, reported);
    }
  }

  /** Once all calls of the last response are answered, the transcript is at rest. */
  lemma TurnCloses(
      env: Environment, skills: Skills, initial: seq<Message>, attempts: seq<Attempt>, responses: seq<Response>,
      injectedAt: Option<nat>, messages: seq<Message>, memory: Memory, current: seq<Message>, noted: Memory)
    requires Drafted(attempts, responses, injectedAt, messages)
    requires memory == MemoryOf(env, skills, responses, |responses| - 1)
    requires var n, response := |responses|, responses[|responses| - 1];
             var call := AssistantMessage(TextOf(response.content), response.toolCalls);
             TurnSoFar(
               env, skills, n, memory, response.toolCalls, |response.toolCalls|, messages + [call], current, noted)
    ensures AtRest(env, skills, initial, attempts, responses, injectedAt, current)
    ensures noted == MemoryOf(env, skills, responses, |responses|)
  {
  }

  // ------------------------------------------------------------ what the turns keep

  lemma GroupAppended(ms: seq<Message>, call: Message, results: seq<Message>)
    requires Paired(ms) && call.role == Assistant
    requires Answers(results, call.toolCalls) && |results| == |call.toolCalls|
    ensures Paired(ms + [call] + results)
  {
    GroupPaired(call, results);
    PairedConcat(ms, [call] + results);
    OneAfterAnother(ms, call, results);
  }

  lemma OneAfterAnother(ms: seq<Message>, call: Message, results: seq<Message>)
    ensures ms + [call] + results == ms + ([call] + results)
  {
  }

  lemma ResumedKeepsPairing(
      env: Environment, skills: Skills, adopted: seq<Message>, responses: seq<Response>, n: nat, grace: bool,
      after: seq<Message>)
    requires 0 < n <= |responses| && Resumed(env, skills, adopted, responses, n, grace, after)
    requires WellPaired(adopted)
    ensures WellPaired(after)
  {
    var calls := responses[n - 1].toolCalls;
    var results := Results(env, n, calls, |calls|);
    ResumedShows(env, skills, adopted, responses, n, grace, after);
    OutputsAnswer(env, n, results, calls);
    GroupAppended(NonSystem(adopted), AssistantMessage(TextOf(responses[n - 1].content), calls), results);
  }

  lemma ConcludedKeepsPairing(
      adopted: seq<Message>, responses: seq<Response>, n: nat, grace: bool, after: seq<Message>)
    requires 0 < n <= |responses| && Concluded(adopted, responses, n, grace, after) && WellPaired(adopted)
    ensures WellPaired(after)
  {
    var answer := AssistantMessage(TextOf(responses[n - 1].content), []);
    NotedShows(adopted, grace, answer);
    GroupAppended(NonSystem(adopted), answer, []);
    assert NonSystem(adopted) + [answer] + [] == NonSystem(adopted) + [answer];
  }

  lemma ExchangeKeepsPairing(env: Environment, iteration: nat, request: Request, attempt: Attempt)
    requires Exchanged(env, iteration, request, attempt) && attempt.outcome.Success?
    requires WellPaired(request.messages)
    ensures WellPaired(attempt.outcome.messages)
  {
    CompressionsKeepPairing(env, iteration, request.restricted, request.messages, Compressions(attempt));
  }

  lemma RequestIsPaired(
      env: Environment, skills: Skills, initial: seq<Message>, requests: seq<Request>, attempts: seq<Attempt>,
      responses: seq<Response>, injectedAt: Option<nat>, i: nat)
    requires i < |requests| && Turned(env, skills, initial, requests, attempts, responses, injectedAt, i)
    requires if i == 0 then WellPaired(initial) else WellPaired(attempts[i - 1].outcome.messages)
    ensures WellPaired(requests[i].messages)
  {
    if i > 0 {
      ResumedKeepsPairing(
        env, skills, attempts[i - 1].outcome.messages, responses, i, injectedAt == Some(i), requests[i].messages);
    }
  }

  lemma AnswerIsPaired(
      env: Environment, requests: seq<Request>, attempts: seq<Attempt>, responses: seq<Response>, i: nat)
    requires Answered(env, requests, attempts, responses) && i < |responses| && WellPaired(requests[i].messages)
    ensures attempts[i].outcome.Success? && WellPaired(attempts[i].outcome.messages)
  {
    FitsAt(env, requests, attempts, responses, i);
    ExchangeKeepsPairing(env, i + 1, requests[i], attempts[i]);
  }

  /** In a run with a well-paired initial transcript every answer leaves a well-paired one. */
  lemma {:induction false} AnswersArePaired(
      env: Environment, skills: Skills, initial: seq<Message>, requests: seq<Request>, attempts: seq<Attempt>,
      responses: seq<Response>, injectedAt: Option<nat>, i: nat)
    requires Answered(env, requests, attempts, responses) && WellPaired(initial) && i < |responses|
    requires Turns(env, skills, initial, requests, attempts, responses, injectedAt)
    ensures attempts[i].outcome.Success? && WellPaired(attempts[i].outcome.messages)
  {
    if i > 0 {
      AnswersArePaired(env, skills, initial, requests, attempts, responses, injectedAt, i - 1);
    }
    NextAnswerIsPaired(env, skills, initial, requests, attempts, responses, injectedAt, i);
  }

  lemma NextAnswerIsPaired(
      env: Environment, skills: Skills, initial: seq<Message>, requests: seq<Request>, attempts: seq<Attempt>,
      responses: seq<Response>, injectedAt: Option<nat>, i: nat)
    requires Answered(env, requests, attempts, responses) && i < |responses|
    requires Turns(env, skills, initial, requests, attempts, responses, injectedAt)
    requires if i == 0 then WellPaired(initial)
             else attempts[i - 1].outcome.Success? && WellPaired(attempts[i - 1].outcome.messages)
    ensures attempts[i].outcome.Success? && WellPaired(attempts[i].outcome.messages)
  {
    assert Turned(env, skills, initial, requests, attempts, responses, injectedAt, i);
    RequestIsPaired(env, skills, initial, requests, attempts, responses, injectedAt, i);
    AnswerIsPaired(env, requests, attempts, responses, i);
  }

  lemma LastIsPaired(
      env: Environment, skills: Skills, initial: seq<Message>, requests: seq<Request>, attempts: seq<Attempt>,
      responses: seq<Response>, injectedAt: Option<nat>, concludes: bool, messages: seq<Message>)
    requires Told(env, skills, initial, requests, attempts, responses, injectedAt, concludes, messages)
    requires 0 < |responses| <= |attempts| && attempts[|responses| - 1].outcome.Success?
    requires WellPaired(attempts[|responses| - 1].outcome.messages)
    ensures WellPaired(messages)
  {
    var n := |responses|;
    if concludes {
      ConcludedKeepsPairing(attempts[n - 1].outcome.messages, responses, n, injectedAt == Some(n), messages);
    } else {
      ResumedKeepsPairing(
        env, skills, attempts[n - 1].outcome.messages, responses, n, injectedAt == Some(n), messages);
    }
  }

  /** A run with a well-paired initial transcript ends with a well-paired one. */
  lemma ToldKeepsPairing(
      env: Environment, skills: Skills, initial: seq<Message>, requests: seq<Request>, attempts: seq<Attempt>,
      responses: seq<Response>, injectedAt: Option<nat>, concludes: bool, messages: seq<Message>)
    requires Answered(env, requests, attempts, responses) && WellPaired(initial)
    requires Told(env, skills, initial, requests, attempts, responses, injectedAt, concludes, messages)
    ensures WellPaired(messages)
  {
    var n := |responses|;
    if n > 0 {
      AnswersArePaired(env, skills, initial, requests, attempts, responses, injectedAt, n - 1);
      LastIsPaired(env, skills, initial, requests, attempts, responses, injectedAt, concludes, messages);
    }
  }

  lemma TurnedFollows(
      env: Environment, skills: Skills, initial: seq<Message>, requests: seq<Request>, attempts: seq<Attempt>,
      responses: seq<Response>, injectedAt: Option<nat>, i: nat)
    requires i < |requests| <= |attempts| + 1
    requires Turned(env, skills, initial, requests, attempts, responses, injectedAt, i)
    ensures Follows(initial, requests, attempts, i)
  {
  }

  /** The log of the run: the transcript only ever grows from what the last answer left. */
  lemma ToldIsLogged(
      env: Environment, skills: Skills, initial: seq<Message>, requests: seq<Request>, attempts: seq<Attempt>,
      responses: seq<Response>, injectedAt: Option<nat>, concludes: bool, messages: seq<Message>)
    requires Answered(env, requests, attempts, responses)
    requires Told(env, skills, initial, requests, attempts, responses, injectedAt, concludes, messages)
    requires |requests| > |responses| ==> !concludes
    ensures Log(env, initial, requests, attempts, responses, messages)
  {
    forall i | 0 <= i < |requests| ensures Follows(initial, requests, attempts, i) {
      TurnedFollows(env, skills, initial, requests, attempts, responses, injectedAt, i);
    }
    if |requests| > |responses| {
      assert Turned(env, skills, initial, requests, attempts, responses, injectedAt, |responses|);
    }
  }
}
