/**
 * What one run of the reasoning loop exchanged with its provider: the requests it sent, what became
 * of each under recovery, and how the transcript grew in between.
 */
module ReasoningLog {
  import opened Util
  import opened Transcript
  import Compressor
  import Recovery

  datatype ToolResult = ToolResult(output: string, isError: bool)

  /**
   * Oracles, indexed by iteration and by request or call within it; None says that the summarizer or
   * the tool throws. `restricted` marks the grace turn: no tools on offer and a small output cap.
   */
  datatype Environment = Environment(
    chat: (nat, bool, nat, seq<Message>) -> Recovery.Reply,
    classify: Recovery.ProviderError -> Recovery.Classified,
    summary: (nat, nat) -> Option<string>,
    abortedAtFailure: (nat, nat) -> bool,
    abortedInDelay: (nat, nat) -> bool,
    tool: (nat, nat) -> Option<ToolResult>,
    pathOf: Arguments -> Text)

  datatype Request = Request(restricted: bool, messages: seq<Message>)

  /** One run of recovery around a request: its outcome, its events and its number of provider calls. */
  datatype Attempt = Attempt(outcome: Recovery.Outcome, events: seq<Recovery.Event>, calls: nat)

  function WorldOf(env: Environment, iteration: nat, restricted: bool): Recovery.World {
    Recovery.World(
      (n: nat, messages: seq<Message>) => env.chat(iteration, restricted, n, messages),
      env.classify,
      (n: nat, messages: seq<Message>) => Compressor.CompressResult(messages, env.summary(iteration, n)),
      (n: nat) => env.abortedAtFailure(iteration, n),
      (n: nat) => env.abortedInDelay(iteration, n))
  }

  /** The attempt is the one that the provider's replies to this request, and the abort signal, call for. */
  ghost predicate Exchanged(env: Environment, iteration: nat, request: Request, attempt: Attempt) {
    var world := WorldOf(env, iteration, request.restricted);
    && Recovery.Regular(Recovery.DEFAULT_CONFIG, attempt.events, attempt.outcome)
    && Recovery.Concludes(
         world, Recovery.DEFAULT_CONFIG, request.messages, attempt.outcome, attempt.events, attempt.calls)
  }

  /** There is no other attempt at the same request. */
  lemma ExchangeIsUnique(env: Environment, iteration: nat, request: Request, a: Attempt, b: Attempt)
    requires Exchanged(env, iteration, request, a) && Exchanged(env, iteration, request, b)
    ensures a == b
  {
    Recovery.ConclusionIsUnique(
      WorldOf(env, iteration, request.restricted), Recovery.DEFAULT_CONFIG, request.messages,
      a.outcome, a.events, a.calls, b.outcome, b.events, b.calls);
  }

  function Compressions(attempt: Attempt): nat {
    Recovery.Count(Recovery.ActionsOf(attempt.events), Recovery.Compress)
  }

  /** The request was compressed, and not at boundary 0, which leaves the messages as they are. */
  predicate Dropped(request: Request, attempt: Attempt) {
    Compressions(attempt) > 0 && Compressor.Boundary(request.messages) > 0
  }

  // ------------------------------------------------------------ what compression does to a request

  lemma {:induction false} CompressionsKeepPairing(
      env: Environment, iteration: nat, restricted: bool, messages: seq<Message>, n: nat)
    requires WellPaired(messages)
    ensures var m := Recovery.Iterate(WorldOf(env, iteration, restricted), messages, n);
            m.Some? ==> WellPaired(m.value)
  {
    if n > 0 {
      CompressionsKeepPairing(env, iteration, restricted, messages, n - 1);
      var m := Recovery.Iterate(WorldOf(env, iteration, restricted), messages, n - 1);
      var summary := env.summary(iteration, n - 1);
      if m.Some? && summary.Some? {
        Compressor.CompressionKeepsPairing(m.value, summary.value);
      }
    }
  }

  lemma CompressOnce(messages: seq<Message>, summary: Option<string>, initial: seq<Message>, shortened: bool)
    requires Compressor.PrefixState(initial, messages, shortened)
    ensures var m := Compressor.CompressResult(messages, summary);
            m.Some? ==> Compressor.PrefixState(initial, m.value, shortened || Compressor.Boundary(messages) > 0)
  {
    if Compressor.Boundary(messages) > 0 && summary.Some? {
      Compressor.CompressionKeepsPrefixState(initial, messages, summary.value, shortened);
    }
  }

  lemma {:induction false} CompressionsKeepPrefixState(
      env: Environment, iteration: nat, request: Request, n: nat, initial: seq<Message>, shortened: bool)
    requires Compressor.PrefixState(initial, request.messages, shortened)
    ensures var m := Recovery.Iterate(WorldOf(env, iteration, request.restricted), request.messages, n);
            && (m.Some? && Compressor.Boundary(request.messages) == 0 ==> m.value == request.messages)
            && (m.Some? ==>
                  Compressor.PrefixState(
                    initial, m.value, shortened || (n > 0 && Compressor.Boundary(request.messages) > 0)))
  {
    if n > 0 {
      CompressionsKeepPrefixState(env, iteration, request, n - 1, initial, shortened);
      var m := Recovery.Iterate(WorldOf(env, iteration, request.restricted), request.messages, n - 1);
      if m.Some? {
        CompressOnce(
          m.value, env.summary(iteration, n - 1), initial,
          shortened || (n > 1 && Compressor.Boundary(request.messages) > 0));
      }
    }
  }

  // ------------------------------------------------------------ the log of a run

  /** What the transcript grew from after `n` answered requests. */
  function Adopted(initial: seq<Message>, attempts: seq<Attempt>, n: nat): seq<Message>
    requires n <= |attempts|
  {
    if n == 0 || !attempts[n - 1].outcome.Success? then initial else attempts[n - 1].outcome.messages
  }

  /** The i-th attempt belongs to the i-th request, and succeeded iff there is an i-th response. */
  ghost predicate Fits(
      env: Environment, requests: seq<Request>, attempts: seq<Attempt>, responses: seq<Response>, i: nat)
    requires i < |attempts| && i < |requests|
  {
    && Exchanged(env, i + 1, requests[i], attempts[i])
    && (attempts[i].outcome.Success? <==> i < |responses|)
    && (i < |responses| ==> attempts[i].outcome.response == responses[i])
  }

  ghost predicate Answered(
      env: Environment, requests: seq<Request>, attempts: seq<Attempt>, responses: seq<Response>)
  {
    && |responses| <= |attempts| <= |requests| <= |responses| + 1
    && forall i :: 0 <= i < |attempts| ==> Fits(env, requests, attempts, responses, i)
  }

  lemma FitsAt(
      env: Environment, requests: seq<Request>, attempts: seq<Attempt>, responses: seq<Response>, i: nat)
    requires Answered(env, requests, attempts, responses) && i < |attempts|
    ensures Exchanged(env, i + 1, requests[i], attempts[i])
    ensures attempts[i].outcome.Success? <==> i < |responses|
  {
    assert Fits(env, requests, attempts, responses, i);
  }

  /** The i-th request holds what the answer before it left, with messages appended. */
  predicate Follows(initial: seq<Message>, requests: seq<Request>, attempts: seq<Attempt>, i: nat)
    requires i < |requests| <= |attempts| + 1
  {
    && Adopted(initial, attempts, i) <= requests[i].messages
    && (i == 0 ==> requests[i].messages == initial)
  }

  predicate Chained(initial: seq<Message>, requests: seq<Request>, attempts: seq<Attempt>)
    requires |requests| <= |attempts| + 1
  {
    forall i :: 0 <= i < |requests| ==> Follows(initial, requests, attempts, i)
  }

  /**
   * The log of a run: its answered requests, at most one more that is out or has failed, and the
   * transcript, which only appends to what the last answer left.
   */
  ghost predicate Log(
      env: Environment, initial: seq<Message>, requests: seq<Request>, attempts: seq<Attempt>,
      responses: seq<Response>, messages: seq<Message>)
  {
    && Answered(env, requests, attempts, responses)
    && Chained(initial, requests, attempts)
    && (if |requests| > |responses| then messages == requests[|responses|].messages
        else Adopted(initial, attempts, |responses|) <= messages)
    && (responses == [] ==> messages == initial)
  }

  lemma AnsweredMore(
      env: Environment, requests: seq<Request>, attempts: seq<Attempt>, responses: seq<Response>, request: Request)
    requires Answered(env, requests, attempts, responses) && |requests| == |responses|
    ensures Answered(env, requests + [request], attempts, responses)
  {
    var all := requests + [request];
    forall i | 0 <= i < |attempts| ensures Fits(env, all, attempts, responses, i) {
      assert Fits(env, requests, attempts, responses, i);
    }
  }

  /** The responses once an attempt is over. */
  function After(responses: seq<Response>, attempt: Attempt): seq<Response> {
    if attempt.outcome.Success? then responses + [attempt.outcome.response] else responses
  }

  lemma FitsStill(
      env: Environment, requests: seq<Request>, attempts: seq<Attempt>, responses: seq<Response>, attempt: Attempt,
      i: nat)
    requires i < |attempts| == |responses| < |requests| && Fits(env, requests, attempts, responses, i)
    ensures Fits(env, requests, attempts + [attempt], After(responses, attempt), i)
  {
    assert (attempts + [attempt])[i] == attempts[i] && After(responses, attempt)[i] == responses[i];
  }

  lemma FitsNow(
      env: Environment, requests: seq<Request>, attempts: seq<Attempt>, responses: seq<Response>, attempt: Attempt)
    requires |attempts| == |responses| < |requests| == |responses| + 1
    requires Exchanged(env, |requests|, requests[|responses|], attempt)
    ensures Fits(env, requests, attempts + [attempt], After(responses, attempt), |attempts|)
  {
    assert (attempts + [attempt])[|attempts|] == attempt;
  }

  lemma FitsEach(
      env: Environment, requests: seq<Request>, attempts: seq<Attempt>, responses: seq<Response>, attempt: Attempt,
      i: nat)
    requires Answered(env, requests, attempts, responses) && i <= |attempts| == |responses| < |requests|
    requires Exchanged(env, |requests|, requests[|responses|], attempt)
    ensures Fits(env, requests, attempts + [attempt], After(responses, attempt), i)
  {
    if i == |attempts| {
      FitsNow(env, requests, attempts, responses, attempt);
    } else {
      FitsStill(env, requests, attempts, responses, attempt, i);
    }
  }

  /** The request that is out is attempted. */
  lemma AnsweredNext(
      env: Environment, requests: seq<Request>, attempts: seq<Attempt>, responses: seq<Response>, attempt: Attempt)
    requires Answered(env, requests, attempts, responses) && |attempts| == |responses| < |requests|
    requires Exchanged(env, |requests|, requests[|responses|], attempt)
    ensures Answered(env, requests, attempts + [attempt], After(responses, attempt))
  {
    forall i | 0 <= i < |attempts + [attempt]|
      ensures Fits(env, requests, attempts + [attempt], After(responses, attempt), i)
    {
      FitsEach(env, requests, attempts, responses, attempt, i);
    }
  }

  // ------------------------------------------------------------ the initial transcript

  /** One of the first `n` requests lost messages to a compression before it was answered. */
  predicate Shortened(requests: seq<Request>, attempts: seq<Attempt>, n: nat)
    requires n <= |attempts| && n <= |requests|
  {
    exists i :: 0 <= i < n && Dropped(requests[i], attempts[i])
  }

  lemma ShortenedNext(requests: seq<Request>, attempts: seq<Attempt>, n: nat)
    requires n < |attempts| && n < |requests|
    ensures Shortened(requests, attempts, n + 1)
        <==> Shortened(requests, attempts, n) || Dropped(requests[n], attempts[n])
  {
  }

  /** Being answered takes the state of the initial transcript along. */
  ghost predicate Keeps(initial: seq<Message>, request: Request, attempt: Attempt) {
    && attempt.outcome.Success?
    && forall shortened ::
         Compressor.PrefixState(initial, request.messages, shortened) ==>
           Compressor.PrefixState(initial, attempt.outcome.messages, shortened || Dropped(request, attempt))
  }

  lemma ExchangeKeeps(env: Environment, iteration: nat, request: Request, attempt: Attempt, initial: seq<Message>)
    requires Exchanged(env, iteration, request, attempt) && attempt.outcome.Success?
    ensures Keeps(initial, request, attempt)
  {
    forall shortened | Compressor.PrefixState(initial, request.messages, shortened)
      ensures Compressor.PrefixState(initial, attempt.outcome.messages, shortened || Dropped(request, attempt))
    {
      CompressionsKeepPrefixState(env, iteration, request, Compressions(attempt), initial, shortened);
    }
  }

  lemma {:induction false} AdoptedPrefixState(
      initial: seq<Message>, requests: seq<Request>, attempts: seq<Attempt>, n: nat)
    requires n <= |attempts| && n <= |requests| <= |attempts| + 1 && Chained(initial, requests, attempts)
    requires forall i :: 0 <= i < n ==> Keeps(initial, requests[i], attempts[i])
    ensures Compressor.PrefixState(initial, Adopted(initial, attempts, n), Shortened(requests, attempts, n))
  {
    if n > 0 {
      var before := Shortened(requests, attempts, n - 1);
      AdoptedPrefixState(initial, requests, attempts, n - 1);
      assert Follows(initial, requests, attempts, n - 1);
      Compressor.PrefixStateExtends(initial, Adopted(initial, attempts, n - 1), requests[n - 1].messages, before);
      assert Keeps(initial, requests[n - 1], attempts[n - 1]);
      ShortenedNext(requests, attempts, n - 1);
    }
  }

  lemma KeepsAt(
      env: Environment, initial: seq<Message>, requests: seq<Request>, attempts: seq<Attempt>,
      responses: seq<Response>, i: nat)
    requires Answered(env, requests, attempts, responses) && i < |responses|
    ensures Keeps(initial, requests[i], attempts[i])
  {
    assert Fits(env, requests, attempts, responses, i);
    ExchangeKeeps(env, i + 1, requests[i], attempts[i], initial);
  }

  lemma AllKeep(
      env: Environment, initial: seq<Message>, requests: seq<Request>, attempts: seq<Attempt>, responses: seq<Response>)
    requires Answered(env, requests, attempts, responses)
    ensures forall i :: 0 <= i < |responses| ==> Keeps(initial, requests[i], attempts[i])
  {
    forall i | 0 <= i < |responses| ensures Keeps(initial, requests[i], attempts[i]) {
      KeepsAt(env, initial, requests, attempts, responses, i);
    }
  }

  /**
   * The initial transcript is a prefix of the current one iff no request lost messages to a
   * compression before it was answered, or there are only system messages in it.
   */
  lemma PrefixKeptExactly(
      env: Environment, initial: seq<Message>, requests: seq<Request>, attempts: seq<Attempt>,
      responses: seq<Response>, messages: seq<Message>)
    requires Log(env, initial, requests, attempts, responses, messages)
    ensures initial <= messages <==> !Shortened(requests, attempts, |responses|) || Compressor.AllSystem(initial)
  {
    var n := |responses|;
    AllKeep(env, initial, requests, attempts, responses);
    AdoptedPrefixState(initial, requests, attempts, n);
    assert n < |requests| ==> Follows(initial, requests, attempts, n);
    Compressor.PrefixStateExtends(initial, Adopted(initial, attempts, n), messages, Shortened(requests, attempts, n));
    Compressor.PrefixLostExactly(initial, messages, Shortened(requests, attempts, n));
  }

  // ------------------------------------------------------------ a transcript that is lost

  const QUESTION := Message(User, "question", None, [])
  const LONG := [QUESTION, QUESTION, QUESTION]
  const REPLY := Response(Some("reply"), [], false, Usage(1, 1, 2, None, None))
  const TOO_LONG := Recovery.ProviderError("too long")

  /** A provider that finds one transcript too long, and a summarizer that works. */
  const CRAMPED := Environment(
    (i: nat, restricted: bool, n: nat, messages: seq<Message>) =>
      if messages == LONG then Recovery.Failure(TOO_LONG) else Recovery.Answer(REPLY),
    (error: Recovery.ProviderError) => Recovery.Classified("context", false, true),
    (i: nat, n: nat) => Some("summary"),
    (i: nat, n: nat) => false,
    (i: nat, n: nat) => false,
    (i: nat, k: nat) => None,
    (arguments: Arguments) => [])

  const SHORTER := [Compressor.SummaryMessage("summary"), QUESTION, QUESTION]

  const RESCUE := Attempt(
    Recovery.Success(REPLY, SHORTER),
    [Recovery.Action(Recovery.Compress, "context", 1, 0), Recovery.Succeeded("context", 1, Recovery.Compress)],
    2)

  lemma LongIsCutAtOne()
    ensures Compressor.Boundary(LONG) == 1
  {
    assert LONG[1..] == [QUESTION, QUESTION] && LONG[2..] == [QUESTION];
    assert Compressor.UserCount([QUESTION]) == 1;
    assert Compressor.UserCount([QUESTION, QUESTION][1..]) == 1;
    assert Compressor.Usable(LONG, 2, 1);
    assert !Compressor.Usable(LONG, 2, 2);
  }

  lemma LongCompressed()
    ensures Compressor.CompressResult(LONG, Some("summary")) == Some(SHORTER)
  {
    LongIsCutAtOne();
    SystemsOfLong();
    assert LONG[1..] == [QUESTION, QUESTION];
    NonSystemFixed(LONG[1..]);
    assert SHORTER == [] + [Compressor.SummaryMessage("summary")] + [QUESTION, QUESTION];
  }

  lemma SystemsOfLong()
    ensures Systems(LONG) == []
  {
    NonSystemFixed(LONG);
  }

  /** The provider's replies lead to this attempt: refused, compressed at a positive boundary, answered. */
  lemma LongIsRescued(iteration: nat, request: Request)
    requires request.messages == LONG
    ensures Exchanged(CRAMPED, iteration, request, RESCUE) && Dropped(request, RESCUE)
  {
    var world := WorldOf(CRAMPED, iteration, request.restricted);
    var actions := [RESCUE.events[0]];
    LongIsCutAtOne();
    LongCompressed();
    assert Recovery.ActionsOf(RESCUE.events) == actions;
    assert actions[..0] == [] && actions[..1] == actions;
    assert Recovery.Count(actions, Recovery.Compress) == 1;
    assert Recovery.Iterate(world, LONG, 0) == Some(LONG);
    assert Recovery.Iterate(world, LONG, 1) == Some(SHORTER);
    assert Recovery.Justified(world, Recovery.DEFAULT_CONFIG, LONG, actions, 0);
  }

  /** A run that ends with the plain answer and has lost its initial transcript. */
  lemma PrefixCanBeLost()
    ensures Log(CRAMPED, LONG, [Request(false, LONG)], [RESCUE], [REPLY], SHORTER + [AssistantMessage("reply", [])])
    ensures !(LONG <= SHORTER + [AssistantMessage("reply", [])])
  {
    LongIsRescued(1, Request(false, LONG));
  }

  /** Every run with that provider that gets one response has lost it. */
  lemma LongIsLost(requests: seq<Request>, attempts: seq<Attempt>, responses: seq<Response>, messages: seq<Message>)
    requires Log(CRAMPED, LONG, requests, attempts, responses, messages) && responses != []
    ensures !(LONG <= messages)
  {
    assert Fits(CRAMPED, requests, attempts, responses, 0);
    assert Follows(LONG, requests, attempts, 0);
    LongIsRescued(1, requests[0]);
    ExchangeIsUnique(CRAMPED, 1, requests[0], attempts[0], RESCUE);
    PrefixKeptExactly(CRAMPED, LONG, requests, attempts, responses, messages);
    assert QUESTION in LONG;
  }
}
