/**
 * The multi-turn loop: ask the provider, run its tool calls, append the results, ask again. The
 * locals of one run are the fields of `LoopRun`. Provider, tools, summarizer and listeners are
 * oracles; at every await the loops sharing the tracker take any turns they like.
 */
module ReasoningLoop {
  import opened Util
  import opened Transcript
  import opened BudgetTracking
  import opened ToolLoopGuardModel
  import Budget
  import opened ReasoningLog
  import opened ReasoningTurn
  import Compressor
  import Recovery

  const DEFAULT_MAX_ITERATIONS := 40

  datatype LoopResult = LoopResult(
    content: Option<string>,
    messages: seq<Message>,
    totalUsage: Usage,
    iterations: nat,
    hitMaxIterations: bool,
    hitTokenBudget: bool,
    hitTimeout: bool)

  datatype Exit =
    | AlreadyAborted | IterationsUsedUp | AbortedBeforeCall | OverBudgetBeforeCall
    | AbortedInCall | OverBudgetAfterCall | ErrorFinish | FinalAnswer

  /** The run ended with its last response as a plain answer. */
  predicate Concludes(exit: Exit) {
    exit == OverBudgetAfterCall || exit == ErrorFinish || exit == FinalAnswer
  }

  datatype Reason = ProviderFailed(error: Recovery.ProviderError) | ListenerFailed | ToolFailed | ToolLooped

  datatype Next = Continue | Leave(exit: Exit) | Throw(reason: Reason)

  datatype Ending = Finished(result: LoopResult, exit: Exit) | Threw(reason: Reason)

  // ------------------------------------------------------------ usage

  function OrZero(n: Option<nat>): nat {
    if n == None then 0 else n.value
  }

  function PositiveOnly(n: nat): Option<nat> {
    if n > 0 then Some(n) else None
  }

  function AddUsage(a: Usage, b: Usage): Usage {
    Usage(
      a.inputTokens + b.inputTokens,
      a.outputTokens + b.outputTokens,
      a.totalTokens + b.totalTokens,
      PositiveOnly(OrZero(a.cacheCreation) + OrZero(b.cacheCreation)),
      PositiveOnly(OrZero(a.cacheRead) + OrZero(b.cacheRead)))
  }

  /** The sum of one number over all responses. */
  function Sum(responses: seq<Response>, of: Usage -> nat): nat {
    if responses == [] then 0
    else Sum(responses[..|responses| - 1], of) + of(responses[|responses| - 1].usage)
  }

  const INPUT: Usage -> nat := (u: Usage) => u.inputTokens
  const OUTPUT: Usage -> nat := (u: Usage) => u.outputTokens
  const TOTAL: Usage -> nat := (u: Usage) => u.totalTokens
  const CACHE_CREATION: Usage -> nat := (u: Usage) => OrZero(u.cacheCreation)
  const CACHE_READ: Usage -> nat := (u: Usage) => OrZero(u.cacheRead)

  /** Every number is the sum over the responses; a cache number is there iff its sum is not zero. */
  predicate IsTotal(usage: Usage, responses: seq<Response>) {
    && usage.inputTokens == Sum(responses, INPUT)
    && usage.outputTokens == Sum(responses, OUTPUT)
    && usage.totalTokens == Sum(responses, TOTAL)
    && usage.cacheCreation == PositiveOnly(Sum(responses, CACHE_CREATION))
    && usage.cacheRead == PositiveOnly(Sum(responses, CACHE_READ))
  }

  const NO_USAGE := Usage(0, 0, 0, None, None)

  /** Usage added up response by response. */
  function Accumulated(responses: seq<Response>): Usage {
    if responses == [] then NO_USAGE
    else AddUsage(Accumulated(responses[..|responses| - 1]), responses[|responses| - 1].usage)
  }

  lemma {:induction false} AccumulatedIsTotal(responses: seq<Response>)
    ensures IsTotal(Accumulated(responses), responses)
  {
    if responses != [] {
      AccumulatedIsTotal(responses[..|responses| - 1]);
    }
  }

  // ------------------------------------------------------------ recovery around one call

  /** Ask with recovery; the attempt is the one that the replies to the request call for. */
  method AskProvider(env: Environment, iteration: nat, request: Request)
    returns (outcome: Recovery.Outcome, ghost attempt: Attempt)
    ensures attempt.outcome == outcome && Exchanged(env, iteration, request, attempt)
    ensures outcome.Success? && WellPaired(request.messages) ==> WellPaired(outcome.messages)
    ensures 1 <= attempt.calls <= 5
  {
    var events, calls;
    var world := WorldOf(env, iteration, request.restricted);
    outcome, events, calls := Recovery.RunWithRecovery(world, request.messages, Recovery.DEFAULT_CONFIG);
    attempt := Attempt(outcome, events, calls);
    if outcome.Success? && WellPaired(request.messages) {
      CompressionsKeepPairing(env, iteration, request.restricted, request.messages, Compressions(attempt));
    }
  }

  // ------------------------------------------------------------ failing tool calls

  /** No three calls in a row failed alike. */
  predicate Quiet(calls: seq<Call>) {
    forall n :: 0 <= n <= |calls| ==> !ThirdFailure(calls[..n])
  }

  lemma QuietLast(calls: seq<Call>)
    requires Quiet(calls)
    ensures !ThirdFailure(calls)
  {
    assert calls[..|calls|] == calls;
  }

  lemma QuietNext(calls: seq<Call>, call: Call)
    requires Quiet(calls)
    ensures Quiet(calls + [call]) <==> !ThirdFailure(calls + [call])
  {
    var all := calls + [call];
    assert all[..|all|] == all;
    forall n | 0 <= n <= |calls| ensures !ThirdFailure(all[..n]) {
      assert all[..n] == calls[..n];
    }
  }

  lemma QuietAt(calls: seq<Call>, n: nat)
    requires Quiet(calls) && n + 3 <= |calls|
    ensures !(SameFailure(calls[n], calls[n + 2]) && SameFailure(calls[n + 1], calls[n + 2]))
  {
    assert !ThirdFailure(calls[..n + 3]);
  }

  method Report(guard: ToolLoopGuard, call: ToolCall, isError: bool) returns (threw: bool)
    requires guard.Valid() && Quiet(guard.calls)
    modifies guard
    ensures guard.Valid() && (threw <==> ThirdFailure(guard.calls)) && (!threw ==> Quiet(guard.calls))
    ensures guard.calls == old(guard.calls) + [Call(call.name, call.arguments, isError)]
  {
    QuietNext(guard.calls, Call(call.name, call.arguments, isError));
    threw := guard.Record(call.name, call.arguments, isError);
  }

  // ------------------------------------------------------------ one run

  class LoopRun {
    const env: Environment
    const tracker: BudgetTracker
    const guard: ToolLoopGuard
    const me: Budget.LoopId
    const initial: seq<Message>
    const limit: int
    const skills: Skills

    var messages: seq<Message>
    var totalUsage: Usage
    var iterations: nat
    var lastResponse: Option<Response>
    var aborted: bool
    var nextCallIsGraceTurn: bool
    var injectedSkills: set<Text>

    ghost const start: seq<Budget.Turn>
    ghost var requests: seq<Request>
    ghost var responses: seq<Response>
    ghost var attempts: seq<Attempt>
    /** The iteration, counted from one, after which this run injected the grace message. */
    ghost var injectedAt: Option<nat>

    /** Usage is added up over the responses, and the tracker was told exactly that. */
    ghost predicate Booked()
      reads this`totalUsage, this`responses, this`lastResponse, tracker
    {
      && totalUsage == Accumulated(responses)
      && start <= tracker.turns
      && Budget.Spent(tracker.turns[|start|..], me) == totalUsage.inputTokens + totalUsage.outputTokens
      && lastResponse == (if responses == [] then None else Some(responses[|responses| - 1]))
    }

    /** Every attempt answers its request, and every request holds the turns before it. */
    ghost predicate Logged()
      reads this`requests, this`attempts, this`responses, this`injectedAt
    {
      && Answered(env, requests, attempts, responses)
      && Turns(env, skills, initial, requests, attempts, responses, injectedAt)
    }

    /** The skills noted in the transcript, and what the guard knows. */
    ghost function Remembered(): Memory
      reads this`injectedSkills, guard
    {
      Memory(injectedSkills, guard.calls)
    }

    /** Remembered is what the first `n` turns leave: neither a note nor a report to the guard is missing. */
    ghost predicate Remembers(n: int)
      reads this`injectedSkills, this`responses, guard
    {
      0 <= n <= |responses| && Remembered() == MemoryOf(env, skills, responses, n)
    }

    /** All responses have been acted on. */
    ghost predicate Rests()
      reads this`messages, this`attempts, this`responses, this`injectedAt, this`injectedSkills, guard
    {
      AtRest(env, skills, initial, attempts, responses, injectedAt, messages) && Remembers(|responses|)
    }

    /** The last response has not been acted on. */
    ghost predicate IsDraft()
      reads this`messages, this`attempts, this`responses, this`injectedAt, this`injectedSkills, guard
    {
      Drafted(attempts, responses, injectedAt, messages) && Remembers(|responses| - 1)
    }

    /** A request is restricted exactly when it is the first one after the grace message. */
    ghost predicate GraceTurns()
      reads this`requests, this`iterations, this`injectedAt, tracker
    {
      && |requests| == iterations
      && (injectedAt.Some? ==> tracker.graceInjected && 0 < injectedAt.value <= iterations)
      && (forall i :: 0 <= i < |requests| ==> (requests[i].restricted <==> injectedAt == Some(i)))
    }

    ghost predicate Valid()
      reads this, tracker, guard
    {
      && tracker.Valid() && guard.Valid()
      && Booked() && Logged() && GraceTurns()
      && Quiet(guard.calls)
      && iterations <= NonNeg(limit)
    }

    /** At the top of the loop every call has been answered and had tools to run. */
    ghost predicate AtTop()
      reads this, tracker, guard
    {
      && Valid() && tracker.Stands(me, Budget.Top)
      && |responses| == iterations
      && (nextCallIsGraceTurn <==> injectedAt == Some(iterations))
      && AskedForTools() && Rests()
    }

    /** The last response, if any, asked for tools. */
    ghost predicate AskedForTools()
      reads this`responses
    {
      responses != [] ==>
        var last := responses[|responses| - 1];
        last.toolCalls != [] && !last.finishedWithError
    }

    constructor (
        env: Environment, tracker: BudgetTracker, me: Budget.LoopId, initial: seq<Message>,
        maxIterations: Option<int>, skills: Skills)
      requires tracker.Valid() && me !in tracker.loops
      modifies tracker
      ensures AtTop() && fresh(guard) && guard.calls == [] && !aborted
      ensures this.env == env && this.tracker == tracker && this.me == me && this.initial == initial
      ensures this.skills == skills
      ensures limit == (if maxIterations == None then DEFAULT_MAX_ITERATIONS else maxIterations.value)
      ensures messages == initial && iterations == 0 && requests == [] && lastResponse == None
      ensures start == old(tracker.turns)
    {
      this.env, this.tracker, this.me, this.initial, this.skills := env, tracker, me, initial, skills;
      limit := if maxIterations == None then DEFAULT_MAX_ITERATIONS else maxIterations.value;
      messages, totalUsage, iterations, lastResponse := initial, NO_USAGE, 0, None;
      aborted, nextCallIsGraceTurn, injectedSkills := false, false, {};
      start, requests, attempts, responses, injectedAt := tracker.turns, [], [], [], None;
      guard := new ToolLoopGuard();
      new;
      tracker.Enter(me);
      assert tracker.turns[|start|..] == [Budget.Join(me)];
    }

    /** A run of other code: the other loops take turns and the abort signal may fire. */
    method Await()
      requires tracker.Valid() && Booked() && GraceTurns() && me in tracker.loops
      modifies this`aborted, tracker
      ensures tracker.Valid() && Booked() && GraceTurns()
      ensures me in tracker.loops && tracker.loops[me] == old(tracker.loops[me])
      ensures old(aborted) ==> aborted
      ensures old(tracker.graceInjected) ==> tracker.graceInjected
    {
      ghost var before := tracker.turns;
      tracker.Await(me);
      ghost var after := tracker.turns;
      assert after[|start|..][|before[|start|..]|..] == after[|before|..];
      assert before[|start|..] <= after[|start|..];
      OthersSpendNothing(before[|start|..], after[|start|..], me);
      if * {
        aborted := true;
      }
    }

    lemma Booking(t: Budget.Turn)
      requires start <= tracker.turns
      ensures Budget.Spent((tracker.turns + [t])[|start|..], me)
           == Budget.Spent(tracker.turns[|start|..], me) + if t.Returns? && t.id == me then t.tokens else 0
    {
      var mine := tracker.turns[|start|..];
      assert (tracker.turns + [t])[|start|..] == mine + [t];
      assert (mine + [t])[..|mine|] == mine;
    }

    /** Add the usage of a response to the total and tell the tracker. */
    method Book(response: Response)
      requires tracker.Valid() && Booked() && tracker.Stands(me, Budget.Calling)
      modifies this`totalUsage, this`lastResponse, this`responses, tracker
      ensures tracker.Valid() && Booked() && tracker.Stands(me, Budget.Returned)
      ensures responses == old(responses) + [response] && old(tracker.turns) <= tracker.turns
      ensures tracker.graceInjected == old(tracker.graceInjected)
    {
      lastResponse := Some(response);
      assert (responses + [response])[..|responses|] == responses;
      totalUsage := AddUsage(totalUsage, response.usage);
      responses := responses + [response];
      Booking(Budget.Returns(me, response.usage.inputTokens + response.usage.outputTokens));
      tracker.Record(me, response.usage);
    }

    /** A response is booked and not acted on yet. */
    ghost predicate HasResponse()
      reads this, tracker, guard
    {
      && Valid() && |responses| == iterations > 0 && IsDraft()
      && !nextCallIsGraceTurn
      && (injectedAt.Some? ==> injectedAt.value < iterations)
    }

    /** A request is out. */
    ghost predicate Waiting()
      reads this, tracker, guard
    {
      && tracker.Valid() && Booked() && Logged() && GraceTurns()
      && Rests() && !nextCallIsGraceTurn
      && (injectedAt.Some? ==> injectedAt.value < iterations)
      && |responses| + 1 == iterations <= NonNeg(limit) && AskedForTools()
    }

    /** Pass the check before the call and choose its options. */
    method Send() returns (restricted: bool)
      requires AtTop() && iterations < limit && !tracker.IsOverGrace()
      modifies this`iterations, this`nextCallIsGraceTurn, this`requests, tracker
      ensures Waiting() && tracker.Stands(me, Budget.Calling)
      ensures iterations == old(iterations) + 1 && IsOut(Request(restricted, messages))
    {
      PassCheck();
      restricted := NextRequest();
    }

    /** The request that is out. */
    ghost predicate IsOut(request: Request)
      reads this`requests, this`attempts, this`responses, this`iterations
    {
      |attempts| == |responses| < |requests| == iterations && requests[|responses|] == request
    }

    method PassCheck()
      requires tracker.Valid() && Booked() && GraceTurns() && tracker.Stands(me, Budget.Top) && !tracker.IsOverGrace()
      modifies tracker
      ensures tracker.Valid() && Booked() && GraceTurns() && tracker.Stands(me, Budget.Calling)
    {
      Booking(Budget.Begin(me, true));
      var go := tracker.BeforeCall(me, true);
    }

    /** Count the iteration and take the grace turn if it is due. */
    method NextRequest() returns (restricted: bool)
      requires Booked() && Logged() && Rests() && GraceTurns() && |responses| == iterations
      requires nextCallIsGraceTurn <==> injectedAt == Some(iterations)
      modifies this`iterations, this`nextCallIsGraceTurn, this`requests
      ensures Booked() && Logged() && GraceTurns()
      ensures !nextCallIsGraceTurn && iterations == old(iterations) + 1
      ensures injectedAt.Some? ==> injectedAt.value < iterations
      ensures requests == old(requests) + [Request(restricted, messages)]
    {
      restricted := nextCallIsGraceTurn;
      NoteRequest(restricted);
      CountRequest(restricted);
    }

    method CountRequest(ghost restricted: bool)
      requires Booked() && |requests| == iterations + 1 && requests[iterations].restricted == restricted
      requires restricted <==> injectedAt == Some(iterations)
      requires injectedAt.Some? ==> tracker.graceInjected && 0 < injectedAt.value <= iterations
      requires forall i :: 0 <= i < iterations ==> (requests[i].restricted <==> injectedAt == Some(i))
      modifies this`iterations, this`nextCallIsGraceTurn
      ensures Booked() && GraceTurns() && !nextCallIsGraceTurn && iterations == old(iterations) + 1
    {
      iterations, nextCallIsGraceTurn := iterations + 1, false;
    }

    ghost method NoteRequest(restricted: bool)
      requires Logged() && Rests() && |requests| == |responses|
      modifies this`requests
      ensures Logged() && Rests() && requests == old(requests) + [Request(restricted, messages)]
    {
      AnsweredMore(env, requests, attempts, responses, Request(restricted, messages));
      TurnsSend(env, skills, initial, requests, attempts, responses, injectedAt, messages, restricted);
      requests := requests + [Request(restricted, messages)];
    }

    /** The request that is out came to nothing, and the last attempt says how. */
    ghost predicate Refused(outcome: Recovery.Outcome)
      reads this
    {
      && |responses| < |requests| == |attempts|
      && attempts[|responses|].outcome == outcome && !outcome.Success?
    }

    method EndCall(ghost attempt: Attempt)
      requires Waiting() && tracker.Stands(me, Budget.Calling) && Due(attempt) && !attempt.outcome.Success?
      modifies this`attempts, tracker
      ensures Waiting() && tracker.Stands(me, Budget.Stopped) && Refused(attempt.outcome)
    {
      NoteFailure(attempt);
      GiveUpCall();
    }

    method GiveUpCall()
      requires tracker.Valid() && Booked() && GraceTurns() && tracker.Stands(me, Budget.Calling)
      modifies tracker
      ensures tracker.Valid() && Booked() && GraceTurns() && tracker.Stands(me, Budget.Stopped)
    {
      Booking(Budget.Fails(me));
      tracker.Fail(me);
    }

    ghost method NoteFailure(attempt: Attempt)
      requires Logged() && Rests() && Due(attempt) && !attempt.outcome.Success?
      modifies this`attempts
      ensures Logged() && Rests() && Refused(attempt.outcome)
    {
      TurnsNext(env, skills, initial, requests, attempts, responses, injectedAt, attempt, responses);
      AnsweredNext(env, requests, attempts, responses, attempt);
      AtRestStill(env, skills, initial, attempts, responses, injectedAt, messages, attempt);
      attempts := attempts + [attempt];
    }

    /** What is the case when the loop is left that way. */
    ghost predicate Left(exit: Exit)
      reads this, tracker, guard
    {
      var n := |responses|;
      match exit
      case AlreadyAborted => aborted && iterations == 0 && n == 0 && Rests()
      case IterationsUsedUp => n == iterations >= limit && AskedForTools() && Rests()
      case AbortedBeforeCall => aborted && n == iterations < limit && AskedForTools() && Rests()
      case OverBudgetBeforeCall => tracker.IsOverGrace() && n == iterations < limit && AskedForTools() && Rests()
      case AbortedInCall => aborted && n + 1 == iterations == |attempts| && AskedForTools() && Rests()
      case OverBudgetAfterCall => tracker.IsOverGrace() && n == iterations > 0 && EndsWithAnswer()
      case ErrorFinish => n == iterations > 0 && responses[n - 1].finishedWithError && EndsWithAnswer()
      case FinalAnswer =>
        && n == iterations > 0 && responses[n - 1].toolCalls == [] && !responses[n - 1].finishedWithError
        && EndsWithAnswer()
    }

    /** The exception is the guard's exactly when the last call is the third failing alike. */
    ghost predicate Explained(next: Next)
      reads this, guard
    {
      match next
      case Throw(ProviderFailed(error)) => !ThirdFailure(guard.calls) && Refused(Recovery.GaveUp(error))
      case Throw(reason) => reason == ToolLooped <==> ThirdFailure(guard.calls)
      case _ => true
    }

    /** How a run may end: well, or with an exception; either way it has left the tracker. */
    ghost predicate Ends(next: Next)
      reads this, tracker, guard
    {
      && tracker.Stands(me, Budget.Stopped)
      && if next.Leave? then Valid() && Left(next.exit)
         else tracker.Valid() && guard.Valid() && Logged() && GraceTurns() && Explained(next) && IsCut()
    }

    /** The guard was told of the calls made so far, and of no others. */
    ghost predicate IsCut()
      reads this`responses, guard
    {
      CutShort(env, skills, responses, guard.calls)
    }

    lemma RememberedIsCut(n: int)
      requires Remembers(n) && (n == |responses| || n + 1 == |responses|)
      ensures IsCut()
    {
      CutBetween(env, skills, responses, n, Remembered());
    }

    /** The call threw: a clean exit after an abort, a failure otherwise. */
    method CallFailed(outcome: Recovery.Outcome, ghost attempt: Attempt) returns (next: Next)
      requires Waiting() && tracker.Stands(me, Budget.Calling)
      requires Due(attempt) && attempt.outcome == outcome && !outcome.Success?
      modifies this`aborted, this`attempts, tracker
      ensures Waiting() && tracker.Stands(me, Budget.Stopped) && Refused(outcome)
      ensures outcome.Aborted? ==> aborted
      ensures next == if aborted then Leave(AbortedInCall) else Throw(ProviderFailed(outcome.error))
    {
      aborted := aborted || outcome.Aborted?;
      EndCall(attempt);
      return if aborted then Leave(AbortedInCall) else Throw(ProviderFailed(outcome.error));
    }

    /** The attempt at the request that is out. */
    ghost predicate Due(attempt: Attempt)
      reads this`requests, this`attempts, this`responses
    {
      && |attempts| == |responses| < |requests|
      && Exchanged(env, |requests|, requests[|responses|], attempt)
    }

    method BookArrival(response: Response)
      requires tracker.Valid() && Booked() && GraceTurns() && tracker.Stands(me, Budget.Calling)
      modifies this`totalUsage, this`lastResponse, this`responses, tracker
      ensures tracker.Valid() && Booked() && GraceTurns() && tracker.Stands(me, Budget.Returned)
      ensures responses == old(responses) + [response]
    {
      Book(response);
    }

    /** The call returned: adopt its messages and book its usage. */
    method Arrived(after: seq<Message>, response: Response, ghost attempt: Attempt)
      requires Waiting() && tracker.Stands(me, Budget.Calling)
      requires Due(attempt) && attempt.outcome == Recovery.Success(response, after)
      requires guard.Valid() && Quiet(guard.calls)
      modifies this`messages, this`attempts, this`totalUsage, this`lastResponse, this`responses, tracker
      ensures HasResponse() && tracker.Stands(me, Budget.Returned)
    {
      Land(after, response, attempt);
    }

    lemma Lands(after: seq<Message>, response: Response, attempt: Attempt)
      requires Logged() && Remembers(|responses|) && (injectedAt.Some? ==> injectedAt.value <= |responses|)
      requires Due(attempt) && attempt.outcome == Recovery.Success(response, after)
      ensures Answered(env, requests, attempts + [attempt], responses + [response])
      ensures Turns(env, skills, initial, requests, attempts + [attempt], responses + [response], injectedAt)
      ensures Drafted(attempts + [attempt], responses + [response], injectedAt, after)
      ensures Remembered() == MemoryOf(env, skills, responses + [response], |responses|)
    {
      AnsweredNext(env, requests, attempts, responses, attempt);
      TurnsNext(env, skills, initial, requests, attempts, responses, injectedAt, attempt, responses + [response]);
      MemoryOfPrefix(env, skills, responses, responses + [response], |responses|);
    }

    method Land(after: seq<Message>, response: Response, ghost attempt: Attempt)
      requires tracker.Valid() && Booked() && Logged() && GraceTurns()
      requires Remembers(|responses|) && (injectedAt.Some? ==> injectedAt.value <= |responses|)
      requires tracker.Stands(me, Budget.Calling)
      requires Due(attempt) && attempt.outcome == Recovery.Success(response, after)
      modifies this`messages, this`attempts, this`totalUsage, this`lastResponse, this`responses, tracker
      ensures tracker.Valid() && Booked() && Logged() && GraceTurns() && IsDraft()
      ensures tracker.Stands(me, Budget.Returned) && responses == old(responses) + [response]
    {
      Lands(after, response, attempt);
      AdoptAndBook(after, response, attempt);
    }

    /** Adopt the possibly compressed messages, and book what the response used. */
    method AdoptAndBook(after: seq<Message>, response: Response, ghost attempt: Attempt)
      requires tracker.Valid() && Booked() && GraceTurns() && tracker.Stands(me, Budget.Calling)
      modifies this`messages, this`attempts, this`totalUsage, this`lastResponse, this`responses, tracker
      ensures tracker.Valid() && Booked() && GraceTurns() && tracker.Stands(me, Budget.Returned)
      ensures messages == after && attempts == old(attempts) + [attempt] && responses == old(responses) + [response]
    {
      messages := after;
      attempts := attempts + [attempt];
      BookArrival(response);
    }

    /** Send a request and wait for its outcome. */
    method Exchange() returns (outcome: Recovery.Outcome, ghost attempt: Attempt)
      requires AtTop() && iterations < limit && !tracker.IsOverGrace()
      modifies this`iterations, this`nextCallIsGraceTurn, this`requests, this`aborted, tracker
      ensures Waiting() && tracker.Stands(me, Budget.Calling) && iterations == old(iterations) + 1
      ensures Due(attempt) && attempt.outcome == outcome
    {
      var restricted := Send();
      outcome, attempt := AskProvider(env, iterations, Request(restricted, messages));
      WaitForReply(attempt);
    }

    method WaitForReply(ghost attempt: Attempt)
      requires Waiting() && tracker.Stands(me, Budget.Calling) && Due(attempt)
      modifies this`aborted, tracker
      ensures Waiting() && tracker.Stands(me, Budget.Calling) && Due(attempt)
    {
      Await();
    }

    /** Ask the provider once, with recovery, and book what it used. */
    method Ask() returns (next: Next)
      requires AtTop() && iterations < limit && !tracker.IsOverGrace()
      modifies this`iterations, this`nextCallIsGraceTurn, this`requests, this`aborted, tracker
      modifies this`messages, this`attempts, this`totalUsage, this`lastResponse, this`responses
      ensures guard.Valid() && Quiet(guard.calls)
      ensures iterations == old(iterations) + 1
      ensures next.Continue? ==> HasResponse() && tracker.Stands(me, Budget.Returned)
      ensures next.Leave? ==> next == Leave(AbortedInCall)
      ensures next.Throw? ==> next.reason.ProviderFailed?
      ensures !next.Continue? ==> Ends(next)
    {
      var outcome, attempt := Exchange();
      next := Settle(outcome, attempt);
    }

    /** What the outcome of the request that is out leads to. */
    method Settle(outcome: Recovery.Outcome, ghost attempt: Attempt) returns (next: Next)
      requires Waiting() && tracker.Stands(me, Budget.Calling) && guard.Valid() && Quiet(guard.calls)
      requires Due(attempt) && attempt.outcome == outcome
      modifies this`messages, this`attempts, this`totalUsage, this`lastResponse, this`responses
      modifies this`aborted, tracker
      ensures next.Continue? ==> HasResponse() && tracker.Stands(me, Budget.Returned)
      ensures next.Leave? ==> next == Leave(AbortedInCall)
      ensures next.Throw? ==> next.reason.ProviderFailed?
      ensures !next.Continue? ==> Ends(next)
    {
      if outcome.Success? {
        next := GotAnswer(outcome, attempt);
      } else {
        next := NoAnswer(outcome, attempt);
      }
    }

    method GotAnswer(outcome: Recovery.Outcome, ghost attempt: Attempt) returns (next: Next)
      requires Waiting() && tracker.Stands(me, Budget.Calling) && guard.Valid() && Quiet(guard.calls)
      requires Due(attempt) && attempt.outcome == outcome && outcome.Success?
      modifies this`messages, this`attempts, this`totalUsage, this`lastResponse, this`responses, tracker
      ensures next == Continue && HasResponse() && tracker.Stands(me, Budget.Returned)
    {
      Arrived(outcome.messages, outcome.response, attempt);
      return Continue;
    }

    method NoAnswer(outcome: Recovery.Outcome, ghost attempt: Attempt) returns (next: Next)
      requires Waiting() && tracker.Stands(me, Budget.Calling) && guard.Valid() && Quiet(guard.calls)
      requires Due(attempt) && attempt.outcome == outcome && !outcome.Success?
      modifies this`aborted, this`attempts, tracker
      ensures next == Leave(AbortedInCall) || (next.Throw? && next.reason.ProviderFailed?)
      ensures Ends(next) && guard.Valid() && Quiet(guard.calls)
    {
      QuietLast(guard.calls);
      RememberedIsCut(|responses|);
      next := CallFailed(outcome, attempt);
    }

    /** Between tool calls: all books are in order, the transcript is being extended. */
    ghost predicate Acting()
      reads this, tracker
    {
      && tracker.Valid() && tracker.Stands(me, Budget.Acting)
      && Booked() && Logged() && GraceTurns()
      && |responses| == iterations <= NonNeg(limit) && iterations > 0
    }

    /** Append the answer, and the note on a skill read for the first time. */
    method Answer(call: ToolCall, result: ToolResult, current: seq<Message>) returns (after: seq<Message>)
      modifies this`injectedSkills
      ensures match NoteAfter(env, skills, old(injectedSkills), call, result.isError)
              case None =>
                after == current + [ToolMessage(result.output, call.id)] && injectedSkills == old(injectedSkills)
              case Some(note) =>
                && after == current + [ToolMessage(result.output, call.id), note]
                && injectedSkills == old(injectedSkills) + {env.pathOf(call.arguments)}
    {
      after := current + [ToolMessage(result.output, call.id)];
      if !result.isError && call.name == READ_FILE {
        var path := env.pathOf(call.arguments);
        if path !in injectedSkills && path in skills {
          injectedSkills := injectedSkills + {path};
          after := after + [SkillMessage(skills[path])];
        }
      }
    }

    /** Announce one tool call and execute it; either may throw. */
    method Execute(k: nat) returns (result: Option<ToolResult>, reason: Reason)
      requires Acting()
      modifies this`aborted, tracker
      ensures Acting()
      ensures result.Some? ==> result == env.tool(iterations, k)
      ensures result == None ==> reason == ListenerFailed || reason == ToolFailed
    {
      Await();
      if * {
        return None, ListenerFailed;
      }
      Await();
      return env.tool(iterations, k), ToolFailed;
    }

    /** `after` is what answering the call makes of `current`, and of the noted skills. */
    ghost predicate Stepped(
        k: nat, call: ToolCall, current: seq<Message>, memory: Memory, after: seq<Message>)
      reads this, guard
    {
      && env.tool(iterations, k).Some?
      && var step := StepOf(env, skills, iterations, k, call, memory);
      after == current + step.messages && Remembered() == step.memory
    }

    /** The guard heard of the call, if it was executed at all. */
    ghost predicate Heard(k: nat, call: ToolCall, reported: seq<Call>)
      reads this, guard
    {
      || guard.calls == reported
      || (env.tool(iterations, k).Some?
          && guard.calls == reported + [Call(call.name, call.arguments, env.tool(iterations, k).value.isError)])
    }

    /** Execute one tool call, tell the guard, and append the answer. */
    method CallTool(k: nat, call: ToolCall, current: seq<Message>) returns (after: seq<Message>, next: Next)
      requires guard.Valid() && Acting() && Quiet(guard.calls)
      modifies this`aborted, this`injectedSkills, tracker, guard
      ensures guard.Valid() && Acting()
      ensures next.Continue? ==> Quiet(guard.calls) && Stepped(k, call, current, old(Remembered()), after)
      ensures next.Throw? ==> Explained(next) && !next.reason.ProviderFailed?
      ensures next.Throw? ==> Heard(k, call, old(guard.calls))
      ensures !next.Leave?
    {
      QuietLast(guard.calls);
      var result, reason := Execute(k);
      if result == None {
        return current, Throw(reason);
      }
      after, next := Judge(k, call, result.value, current);
    }

    /** Tell the guard about a result, and append the answer unless the guard throws. */
    method Judge(ghost k: nat, call: ToolCall, result: ToolResult, current: seq<Message>)
      returns (after: seq<Message>, next: Next)
      requires guard.Valid() && Acting() && Quiet(guard.calls) && env.tool(iterations, k) == Some(result)
      modifies this`injectedSkills, guard
      ensures guard.Valid() && Acting()
      ensures next.Continue? ==> Quiet(guard.calls) && Stepped(k, call, current, old(Remembered()), after)
      ensures next == Continue || (next == Throw(ToolLooped) && ThirdFailure(guard.calls))
      ensures next.Throw? ==> Heard(k, call, old(guard.calls))
    {
      var threw := Report(guard, call, result.isError);
      if threw {
        return current, Throw(ToolLooped);
      }
      after := Answer(call, result, current);
      return after, Continue;
    }

    /** The first `k` calls have been answered, starting from `base` and the skills noted before. */
    ghost predicate AnsweredSo(
        calls: seq<ToolCall>, k: nat, base: seq<Message>, memory: Memory, current: seq<Message>)
      requires k <= |calls|
      reads this, guard
    {
      TurnSoFar(env, skills, iterations, memory, calls, k, base, current, Remembered())
    }

    /** Between two tool calls, with no third failure so far. */
    ghost predicate InTurn()
      reads this, tracker, guard
    {
      guard.Valid() && Acting() && Quiet(guard.calls)
    }

    /** The last response asked for these calls; the turns before it left `memory`. */
    ghost predicate Asked(calls: seq<ToolCall>, memory: Memory)
      reads this`responses
    {
      && responses != [] && calls == responses[|responses| - 1].toolCalls
      && memory == MemoryOf(env, skills, responses, |responses| - 1)
    }

    /** Answer every tool call of the last response in order. */
    method RunTools(calls: seq<ToolCall>, base: seq<Message>) returns (current: seq<Message>, next: Next)
      requires InTurn() && Asked(calls, Remembered())
      modifies this`aborted, this`injectedSkills, tracker, guard
      ensures guard.Valid() && Acting()
      ensures next.Continue? ==> InTurn() && AnsweredSo(calls, |calls|, base, old(Remembered()), current)
      ensures next.Throw? ==> Explained(next) && !next.reason.ProviderFailed? && IsCut()
      ensures !next.Leave?
    {
      current := base;
      for k := 0 to |calls|
        invariant InTurn() && AnsweredSo(calls, k, base, old(Remembered()), current)
      {
        current, next := AnswerOne(calls, k, base, old(Remembered()), current);
        if next.Throw? {
          return;
        }
      }
      next := Continue;
    }

    method AnswerOne(
        calls: seq<ToolCall>, k: nat, ghost base: seq<Message>, ghost memory: Memory, current: seq<Message>)
      returns (after: seq<Message>, next: Next)
      requires InTurn() && k < |calls| && AnsweredSo(calls, k, base, memory, current) && Asked(calls, memory)
      modifies this`aborted, this`injectedSkills, tracker, guard
      ensures guard.Valid() && Acting()
      ensures next.Continue? ==> InTurn() && AnsweredSo(calls, k + 1, base, memory, after)
      ensures next.Throw? ==> Explained(next) && !next.reason.ProviderFailed? && IsCut()
      ensures !next.Leave?
    {
      ghost var noted := Remembered();
      after, next := CallTool(k, calls[k], current);
      assert responses == old(responses) && iterations == old(iterations);
      if next.Continue? {
        OneMoreCall(env, skills, iterations, memory, calls, k, base, current, noted, after, Remembered());
      } else {
        HeardIsCut(calls, k, base, memory, current, noted);
      }
    }

    lemma HeardIsCut(
        calls: seq<ToolCall>, k: nat, base: seq<Message>, memory: Memory, current: seq<Message>, noted: Memory)
      requires Asked(calls, memory) && |responses| == iterations && k < |calls|
      requires TurnSoFar(env, skills, iterations, memory, calls, k, base, current, noted)
      requires Heard(k, calls[k], noted.reported)
      ensures IsCut()
    {
      CutInTurn(env, skills, responses, k, base, current, noted, guard.calls);
    }

    /** The transcript ends with the last response as a plain answer. */
    ghost predicate EndsWithAnswer()
      reads this`messages, this`attempts, this`responses, this`injectedAt, this`injectedSkills, guard
    {
      && var n := |responses|;
      && 0 < n <= |attempts| && attempts[n - 1].outcome.Success?
      && Concluded(attempts[n - 1].outcome.messages, responses, n, injectedAt == Some(n), messages)
      && Remembers(n - 1)
    }

    method Conclude(response: Response)
      requires responses != [] && response == responses[|responses| - 1] && IsDraft()
      modifies this`messages
      ensures EndsWithAnswer()
    {
      messages := messages + [AssistantMessage(TextOf(response.content), [])];
    }

    method InjectGrace()
      requires Logged() && IsDraft() && injectedAt == None && |requests| == |responses| == iterations > 0
      modifies this`messages, this`nextCallIsGraceTurn, this`injectedAt
      ensures Logged() && IsDraft() && nextCallIsGraceTurn && injectedAt == Some(iterations)
      ensures messages == old(messages) + [GRACE_MESSAGE]
    {
      TurnsGrace(env, skills, initial, requests, attempts, responses);
      messages := messages + [GRACE_MESSAGE];
      nextCallIsGraceTurn, injectedAt := true, Some(iterations);
    }

    /** The shared total has reached the budget. */
    predicate AtBudget()
      reads tracker
    {
      tracker.limits.budget.Some? && tracker.limits.budget.value <= tracker.used
    }

    /** The budget checks after a call. */
    method CheckBudget(acts: bool) returns (over: bool)
      requires HasResponse() && tracker.Stands(me, Budget.Returned)
      modifies this`messages, this`nextCallIsGraceTurn, this`injectedAt, tracker
      ensures Valid() && |responses| == iterations && IsDraft()
      ensures over == tracker.IsOverGrace()
      ensures injectedAt != old(injectedAt) <==> AtBudget() && !over && !old(tracker.graceInjected)
      ensures messages == old(messages) + if injectedAt != old(injectedAt) then [GRACE_MESSAGE] else []
      ensures tracker.Stands(me, if acts && !over then Budget.Acting else Budget.Stopped)
      ensures nextCallIsGraceTurn <==> injectedAt == Some(iterations)
    {
      var inject;
      over, inject := TakeCheck(acts);
      if inject {
        Announced();
      }
    }

    /** This loop is the one that announces the last turn. */
    method Announced()
      requires HasResponse() && injectedAt == None && tracker.graceInjected
      modifies this`messages, this`nextCallIsGraceTurn, this`injectedAt
      ensures Valid() && |responses| == iterations && IsDraft()
      ensures messages == old(messages) + [GRACE_MESSAGE] && nextCallIsGraceTurn && injectedAt == Some(iterations)
    {
      InjectGrace();
    }

    /** The tracker's part of the checks: a message is due only if no loop, so not this one, injected it. */
    method TakeCheck(acts: bool) returns (over: bool, inject: bool)
      requires HasResponse() && tracker.Stands(me, Budget.Returned)
      modifies tracker
      ensures HasResponse() && over == tracker.IsOverGrace()
      ensures inject ==> injectedAt == None && tracker.graceInjected
      ensures inject <==> AtBudget() && !over && !old(tracker.graceInjected)
      ensures tracker.Stands(me, if acts && !over then Budget.Acting else Budget.Stopped)
    {
      over, inject := Weigh(acts);
    }

    method Weigh(acts: bool) returns (over: bool, inject: bool)
      requires tracker.Valid() && Booked() && GraceTurns() && tracker.Stands(me, Budget.Returned)
      modifies tracker
      ensures tracker.Valid() && Booked() && GraceTurns()
      ensures over == tracker.IsOverGrace()
      ensures inject ==> injectedAt == None && tracker.graceInjected
      ensures inject <==> AtBudget() && !over && !old(tracker.graceInjected)
      ensures tracker.Stands(me, if acts && !over then Budget.Acting else Budget.Stopped)
    {
      Booking(Budget.Check(me, acts));
      over, inject := tracker.AfterCall(me, acts);
    }

    /** Run the tools of the last response and extend the transcript by calls and answers. */
    method AnswerAll(calls: seq<ToolCall>, base: seq<Message>) returns (next: Next)
      requires InTurn() && Opens(calls, base, Remembered())
      modifies this`aborted, this`injectedSkills, this`messages, tracker, guard
      ensures guard.Valid() && Acting() && (next.Continue? || next.Throw?)
      ensures next.Continue? ==> InTurn() && Rests()
      ensures next.Throw? ==> Explained(next) && !next.reason.ProviderFailed? && IsCut()
    {
      ghost var memory := Remembered();
      var current;
      current, next := RunTools(calls, base);
      if next.Continue? {
        Close(calls, base, memory, current);
      }
    }

    /** `base` is the draft with the last response and its calls. */
    ghost predicate Opens(calls: seq<ToolCall>, base: seq<Message>, memory: Memory)
      reads this`attempts, this`responses, this`injectedAt, this`messages
    {
      && Drafted(attempts, responses, injectedAt, messages) && Asked(calls, memory)
      && var response := responses[|responses| - 1];
      base == messages + [AssistantMessage(TextOf(response.content), response.toolCalls)]
    }

    /** Adopt the transcript in which every call of the last response is answered. */
    method Close(ghost calls: seq<ToolCall>, ghost base: seq<Message>, ghost memory: Memory, current: seq<Message>)
      requires InTurn() && Opens(calls, base, memory) && AnsweredSo(calls, |calls|, base, memory, current)
      modifies this`messages
      ensures InTurn() && Rests()
    {
      TurnCloses(
        env, skills, initial, attempts, responses, injectedAt, messages, memory, current, Remembered());
      messages := current;
    }

    /** There are answered calls to report back, and the grace turn is next iff it was just announced. */
    ghost predicate Resumes()
      reads this
    {
      && responses != []
      && (nextCallIsGraceTurn <==> injectedAt == Some(iterations))
      && responses[|responses| - 1].toolCalls != [] && !responses[|responses| - 1].finishedWithError
    }

    method BackToTop()
      requires guard.Valid() && Acting() && Quiet(guard.calls) && Resumes() && Rests()
      modifies tracker
      ensures AtTop()
    {
      Resume();
    }

    method Resume()
      requires tracker.Valid() && Booked() && GraceTurns() && tracker.Stands(me, Budget.Acting)
      modifies tracker
      ensures tracker.Valid() && Booked() && GraceTurns() && tracker.Stands(me, Budget.Top)
    {
      Booking(Budget.Acted(me));
      tracker.ToolsDone(me);
    }

    /** Act on the tool calls and return to the top of the loop. */
    method Act(response: Response) returns (next: Next)
      requires guard.Valid() && Acting() && Quiet(guard.calls) && Resumes() && IsDraft()
      requires response == responses[|responses| - 1]
      modifies this`aborted, this`injectedSkills, this`messages, tracker, guard
      ensures tracker.Valid() && guard.Valid() && (next.Continue? || next.Throw?)
      ensures next.Continue? ==> AtTop()
      ensures next.Throw? ==> Ends(next)
    {
      var base := messages + [AssistantMessage(TextOf(response.content), response.toolCalls)];
      next := AnswerAll(response.toolCalls, base);
      if next.Throw? {
        LeaveActing(next);
      } else {
        BackToTop();
      }
    }

    /** An exception between tool calls ends the run. */
    method LeaveActing(ghost next: Next)
      requires guard.Valid() && Acting() && next.Throw? && Explained(next) && IsCut()
      modifies tracker
      ensures Ends(next)
    {
      tracker.Fail(me);
    }

    /** Leave the loop with the last response as a plain answer. */
    method Stop(exit: Exit, response: Response) returns (next: Next)
      requires Valid() && |responses| == iterations > 0 && response == responses[|responses| - 1] && IsDraft()
      requires
        || (exit == OverBudgetAfterCall && tracker.IsOverGrace())
        || (exit == ErrorFinish && response.finishedWithError)
        || (exit == FinalAnswer && response.toolCalls == [] && !response.finishedWithError)
      requires tracker.Stands(me, Budget.Stopped)
      modifies this`messages
      ensures next == Leave(exit) && Ends(next)
    {
      ConcludeRun(response);
      return Leave(exit);
    }

    /** The books do not depend on the transcript. */
    method ConcludeRun(response: Response)
      requires Valid() && |responses| == iterations > 0 && response == responses[|responses| - 1] && IsDraft()
      modifies this`messages
      ensures Valid() && EndsWithAnswer()
    {
      Conclude(response);
    }

    /** Decide what a booked response leads to. */
    method Decide() returns (next: Next)
      requires HasResponse() && tracker.Stands(me, Budget.Returned)
      modifies this`messages, this`nextCallIsGraceTurn, this`injectedAt
      modifies this`aborted, this`injectedSkills, tracker, guard
      ensures tracker.Valid() && guard.Valid()
      ensures next.Continue? ==> AtTop()
      ensures !next.Continue? ==> Ends(next)
    {
      var response := lastResponse.value;
      var acts := !response.finishedWithError && response.toolCalls != [];
      var over := CheckBudget(acts);
      if over {
        next := Stop(OverBudgetAfterCall, response);
      } else if response.finishedWithError {
        next := Stop(ErrorFinish, response);
      } else if response.toolCalls == [] {
        next := Stop(FinalAnswer, response);
      } else {
        next := Act(response);
      }
    }

    /** The listener is told about the response; it may throw. */
    method Announce() returns (next: Next)
      requires HasResponse() && tracker.Stands(me, Budget.Returned)
      modifies this`aborted, tracker
      ensures next.Continue? ==> HasResponse() && tracker.Stands(me, Budget.Returned)
      ensures next == Continue || next == Throw(ListenerFailed)
      ensures next.Throw? ==> Ends(next)
    {
      Listen();
      if * {
        ListenerThrew();
        return Throw(ListenerFailed);
      }
      return Continue;
    }

    method Listen()
      requires HasResponse() && tracker.Stands(me, Budget.Returned)
      modifies this`aborted, tracker
      ensures HasResponse() && tracker.Stands(me, Budget.Returned)
    {
      Await();
    }

    method ListenerThrew()
      requires HasResponse() && tracker.Stands(me, Budget.Returned)
      modifies tracker
      ensures Ends(Throw(ListenerFailed))
    {
      QuietLast(guard.calls);
      RememberedIsCut(|responses| - 1);
      tracker.Fail(me);
    }

    /** One iteration of the loop, past its first two checks. */
    method Iterate() returns (next: Next)
      requires AtTop() && iterations < limit && !tracker.IsOverGrace()
      modifies this, tracker, guard
      ensures next.Continue? ==> AtTop() && iterations == old(iterations) + 1
      ensures !next.Continue? ==> Ends(next)
    {
      next := Ask();
      if next.Continue? {
        next := React();
      }
    }

    /** The listener hears of the response, and it is acted on. */
    method React() returns (next: Next)
      requires HasResponse() && tracker.Stands(me, Budget.Returned)
      modifies this`messages, this`nextCallIsGraceTurn, this`injectedAt
      modifies this`aborted, this`injectedSkills, tracker, guard
      ensures next.Continue? ==> AtTop()
      ensures !next.Continue? ==> Ends(next)
    {
      next := Announce();
      if next.Continue? {
        next := Decide();
      }
    }

    /** Leave from the top of the loop. */
    method LeaveTop(exit: Exit) returns (next: Next)
      requires AtTop() && (exit == AlreadyAborted || exit == IterationsUsedUp || exit == AbortedBeforeCall)
      requires exit == AlreadyAborted ==> aborted && iterations == 0
      requires exit == IterationsUsedUp ==> iterations >= limit
      requires exit == AbortedBeforeCall ==> aborted && iterations < limit
      modifies tracker
      ensures next == Leave(exit) && Ends(next)
    {
      Booking(Budget.Begin(me, false));
      var go := tracker.BeforeCall(me, false);
      return Leave(exit);
    }

    method LeaveOverBudget() returns (next: Next)
      requires AtTop() && tracker.IsOverGrace() && iterations < limit
      modifies tracker
      ensures next == Leave(OverBudgetBeforeCall) && Ends(next)
    {
      Booking(Budget.Begin(me, true));
      var go := tracker.BeforeCall(me, true);
      return Leave(OverBudgetBeforeCall);
    }

    method Loop() returns (next: Next)
      requires AtTop()
      modifies this, tracker, guard
      ensures (next.Leave? || next.Throw?) && Ends(next)
    {
      while iterations < limit
        invariant AtTop()
        decreases limit - iterations
      {
        if aborted {
          next := LeaveTop(AbortedBeforeCall);
          return;
        }
        if tracker.IsOverGrace() {
          next := LeaveOverBudget();
          return;
        }
        next := Iterate();
        if !next.Continue? {
          return;
        }
      }
      next := LeaveTop(IterationsUsedUp);
    }

    function Result(exit: Exit): LoopResult
      reads this
    {
      LoopResult(
        if lastResponse == None then None else lastResponse.value.content,
        messages, totalUsage, iterations,
        iterations >= limit && lastResponse.Some? && lastResponse.value.toolCalls != [],
        exit == OverBudgetBeforeCall || exit == OverBudgetAfterCall,
        aborted)
    }

    /** The run ended: what it returned or threw, and what is the case then. */
    ghost predicate EndedWith(ending: Ending)
      reads this, tracker, guard
    {
      match ending
      case Finished(result, exit) => Ends(Leave(exit)) && result == Result(exit)
      case Threw(reason) => Ends(Throw(reason))
    }

    lemma IsTold(exit: Exit)
      requires Ends(Leave(exit))
      ensures Told(env, skills, initial, requests, attempts, responses, injectedAt, Concludes(exit), messages)
      ensures |requests| > |responses| ==> !Concludes(exit)
    {
    }

    lemma IsKept(exit: Exit)
      requires Ends(Leave(exit))
      ensures WellPaired(initial) ==> WellPaired(messages)
      ensures Log(env, initial, requests, attempts, responses, messages)
      ensures initial <= messages <==> !Shortened(requests, attempts, |responses|) || Compressor.AllSystem(initial)
    {
      IsTold(exit);
      if WellPaired(initial) {
        ToldKeepsPairing(
          env, skills, initial, requests, attempts, responses, injectedAt, Concludes(exit), messages);
      }
      ToldIsLogged(env, skills, initial, requests, attempts, responses, injectedAt, Concludes(exit), messages);
      PrefixKeptExactly(env, initial, requests, attempts, responses, messages);
    }

    /** At most one request of a run is the restricted grace turn, and not the first. */
    lemma OneGraceTurn(i: nat, j: nat)
      requires GraceTurns() && i <= j < |requests| && requests[i].restricted && requests[j].restricted
      ensures 0 < i == j
    {
    }

    /** The loop was left by the limit, or in its last allowed iteration although tools were asked for. */
    ghost predicate CutAtLimit(exit: Exit)
      reads this
    {
      && limit > 0 && iterations == limit
      && (exit == OverBudgetAfterCall || exit == ErrorFinish ==> responses != [])
      && match exit
         case IterationsUsedUp => true
         case AbortedInCall => limit > 1
         case OverBudgetAfterCall => responses[|responses| - 1].toolCalls != []
         case ErrorFinish => responses[|responses| - 1].toolCalls != []
         case _ => false
    }

    /**
     * The iteration flag says more than that the limit was hit: it is also set when an abort, the
     * budget or an error response ended the last allowed iteration while tools were asked for.
     */
    lemma LimitFlagExactly(ending: Ending)
      requires EndedWith(ending) && ending.Finished?
      ensures ending.result.hitMaxIterations <==> CutAtLimit(ending.exit)
      ensures ending.exit == IterationsUsedUp ==> ending.result.iterations == NonNeg(limit)
    {
    }

    /**
     * What the flags tell the caller: none is set exactly when the run was not aborted and ended with a
     * plain answer that was not cut at the limit, or had no iteration to make.
     */
    lemma FlagsExplainTheEnd(ending: Ending)
      requires EndedWith(ending) && ending.Finished?
      ensures !ending.result.hitTimeout && !ending.result.hitTokenBudget && !ending.result.hitMaxIterations <==>
                && !aborted
                && match ending.exit
                   case FinalAnswer => true
                   case ErrorFinish => iterations < limit || responses[|responses| - 1].toolCalls == []
                   case IterationsUsedUp => limit <= 0
                   case _ => false
      ensures ending.result.hitTimeout <==> aborted
      ensures ending.result.hitTokenBudget <==>
                ending.exit == OverBudgetBeforeCall || ending.exit == OverBudgetAfterCall
      ensures ending.result.hitTokenBudget ==> tracker.IsOverGrace()
      ensures ending.exit == AlreadyAborted || ending.exit == AbortedBeforeCall || ending.exit == AbortedInCall ==>
                ending.result.hitTimeout
      ensures ending.result.content == (if responses == [] then None else responses[|responses| - 1].content)
      ensures Concludes(ending.exit) ==>
                && responses != [] && ending.result.messages != []
                && var content := ending.result.content;
                ending.result.messages[|ending.result.messages| - 1]
                == AssistantMessage(if content == None then "" else content.value, [])
    {
    }

    /** The tool calls the run made, turn by turn, with what became of them. */
    ghost function Made(exit: Exit): seq<Call>
      reads this`responses
    {
      var n := |responses|;
      MemoryOf(env, skills, responses, if Concludes(exit) && n > 0 then n - 1 else n).reported
    }

    lemma MadeIsReported(exit: Exit)
      requires Left(exit)
      ensures guard.calls == Made(exit)
    {
    }

    /** A run that was not stopped by the guard never made three failing calls in a row alike. */
    lemma NoThreeAlike(ending: Ending, n: nat)
      requires EndedWith(ending) && ending.Finished? && n + 3 <= |Made(ending.exit)|
      ensures var made := Made(ending.exit);
              !(SameFailure(made[n], made[n + 2]) && SameFailure(made[n + 1], made[n + 2]))
    {
      MadeIsReported(ending.exit);
      QuietAt(guard.calls, n);
    }

    /**
     * A run ends with the guard's exception exactly when the calls it made so far, the last of them
     * included, end with three that failed alike.
     */
    lemma LoopedExactly(ending: Ending)
      requires EndedWith(ending) && ending.Threw?
      ensures ending.reason == ToolLooped <==> ThirdFailure(guard.calls)
      ensures CutShort(env, skills, responses, guard.calls)
    {
    }

    method Start(signalled: bool) returns (ending: Ending)
      requires AtTop() && !aborted && iterations == 0
      modifies this, tracker, guard
      ensures EndedWith(ending)
      ensures signalled ==> ending.Finished? && ending.exit == AlreadyAborted
    {
      var next;
      if signalled {
        aborted := true;
        next := LeaveTop(AlreadyAborted);
      } else {
        next := Loop();
      }
      return if next.Throw? then Threw(next.reason) else Finished(Result(next.exit), next.exit);
    }
  }

  /** `signalled` says that the caller's abort signal is set before the run starts. */
  method Run(
      env: Environment, tracker: BudgetTracker, me: Budget.LoopId, initial: seq<Message>,
      maxIterations: Option<int>, skills: Skills, signalled: bool)
    returns (ending: Ending, run: LoopRun)
    requires tracker.Valid() && me !in tracker.loops
    modifies tracker
    ensures run.me == me && run.tracker == tracker && run.initial == initial && run.env == env && run.skills == skills
    ensures run.limit == (if maxIterations == None then 40 else maxIterations.value)
    ensures run.start == old(tracker.turns) && tracker.Valid() && tracker.Stands(me, Budget.Stopped)
    ensures run.EndedWith(ending)
    ensures ending.Finished? ==>
              && old(tracker.turns) <= tracker.turns
              && Told(
                   env, skills, initial, run.requests, run.attempts, run.responses, run.injectedAt,
                   Concludes(ending.exit), ending.result.messages)
              && HoldsTurns(
                   env, run.requests, run.attempts, run.responses, Concludes(ending.exit), ending.result.messages)
              && (WellPaired(initial) ==> WellPaired(ending.result.messages))
              && (initial <= ending.result.messages <==>
                    !Shortened(run.requests, run.attempts, |run.responses|) || Compressor.AllSystem(initial))
              && ending.result.iterations == |run.requests| <= NonNeg(run.limit)
              && IsTotal(ending.result.totalUsage, run.responses)
              && Budget.Spent(tracker.turns[|run.start|..], me)
                 == ending.result.totalUsage.inputTokens + ending.result.totalUsage.outputTokens
  {
    run := new LoopRun(env, tracker, me, initial, maxIterations, skills);
    ending := run.Start(signalled);
    AccumulatedIsTotal(run.responses);
    if ending.Finished? {
      run.IsTold(ending.exit);
      ToldHoldsTurns(
        env, skills, initial, run.requests, run.attempts, run.responses, run.injectedAt, Concludes(ending.exit),
        ending.result.messages);
      run.IsKept(ending.exit);
    }
  }

  /** Running the loop against a provider that refuses the initial transcript for its length. */
  method RunCramped(tracker: BudgetTracker, me: Budget.LoopId, maxIterations: Option<int>, skills: Skills)
    returns (ending: Ending, run: LoopRun)
    requires tracker.Valid() && me !in tracker.loops
    modifies tracker
    ensures run.EndedWith(ending)
    ensures ending.Finished? && run.responses != [] ==> !(LONG <= ending.result.messages)
  {
    ending, run := Run(CRAMPED, tracker, me, LONG, maxIterations, skills, false);
    if ending.Finished? && run.responses != [] {
      run.IsKept(ending.exit);
      LongIsLost(run.requests, run.attempts, run.responses, run.messages);
    }
  }
}
