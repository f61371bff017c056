/** The recovery loop around one provider call: bounded, with a regular event trace. */
module Recovery {
  import opened Util
  import opened Transcript

  type Category = string

  datatype Config = Config(
    maxRetries: int,
    retryBackoffMs: seq<int>,
    maxCompressions: int,
    globalCap: int)

  const DEFAULT_CONFIG := Config(3, [500, 1000, 2000], 1, 5)

  datatype ActionKind = Retry | Compress

  datatype Reason = GlobalCap | NoAction | CompressFailed

  datatype Event =
    | Action(kind: ActionKind, category: Category, attempt: nat, delayMs: int)
    | Succeeded(category: Category, attempt: nat, kind: ActionKind)
    | Exhausted(category: Category, attempt: nat, reason: Reason)

  datatype Classified = Classified(category: Category, retryable: bool, compressible: bool)

  datatype ProviderError = ProviderError(message: string)

  datatype Reply = Answer(response: Response) | Failure(error: ProviderError)

  /**
   * The outside world of one call: what the provider answers to its n-th request, how an error is
   * classified, what the compressor makes of its n-th input (None: it throws), and whether the abort
   * signal is set when the n-th request fails or during the wait that follows it.
   */
  datatype World = World(
    chat: (nat, seq<Message>) -> Reply,
    classify: ProviderError -> Classified,
    compress: (nat, seq<Message>) -> Option<seq<Message>>,
    abortedAtFailure: nat -> bool,
    abortedInDelay: nat -> bool)

  datatype Outcome =
    | Success(response: Response, messages: seq<Message>)
    | Aborted(error: ProviderError)
    | GaveUp(error: ProviderError)

  // ------------------------------------------------------------ the trace

  function Count(events: seq<Event>, kind: ActionKind): nat {
    if events == [] then 0
    else
      var last := events[|events| - 1];
      Count(events[..|events| - 1], kind) + if last.Action? && last.kind == kind then 1 else 0
  }

  lemma CountAppend(events: seq<Event>, e: Event, kind: ActionKind)
    ensures Count(events + [e], kind) == Count(events, kind) + if e.Action? && e.kind == kind then 1 else 0
  {
    assert (events + [e])[..|events|] == events;
  }

  function Backoff(cfg: Config, n: nat): int {
    if n < |cfg.retryBackoffMs| then cfg.retryBackoffMs[n] else 0
  }

  /** A retry waits for the entry of the list that its number names, or not at all; a compression never. */
  predicate Waits(cfg: Config, kind: ActionKind, retries: nat, delayMs: int) {
    match kind
    case Compress => delayMs == 0
    case Retry => delayMs == if retries < |cfg.retryBackoffMs| then cfg.retryBackoffMs[retries] else 0
  }

  /** Recovery actions numbered from one, each retry waiting for its own backoff. */
  predicate Actions(cfg: Config, events: seq<Event>) {
    forall i :: 0 <= i < |events| ==>
      && events[i].Action?
      && events[i].attempt == i + 1
      && Waits(cfg, events[i].kind, Count(events[..i], Retry), events[i].delayMs)
  }

  /**
   * Actions, then: on success one `Succeeded` naming the last action if there was any, on giving up
   * one `Exhausted`, on cancellation nothing.
   */
  ghost predicate Regular(cfg: Config, events: seq<Event>, outcome: Outcome) {
    match outcome
    case Success(_, _) =>
      events != [] ==>
        var n := |events| - 1;
        && n > 0 && Actions(cfg, events[..n])
        && events[n] == Succeeded(events[n - 1].category, n, events[n - 1].kind)
    case GaveUp(_) =>
      && events != []
      && var n := |events| - 1;
      && Actions(cfg, events[..n]) && events[n].Exhausted? && events[n].attempt == n + 1
      && (events[n].reason == GlobalCap <==> n + 1 > cfg.globalCap)
    case Aborted(_) => Actions(cfg, events)
  }

  /** The compressor applied once per compress action. */
  function Iterate(world: World, messages: seq<Message>, n: nat): Option<seq<Message>> {
    if n == 0 then Some(messages)
    else
      match Iterate(world, messages, n - 1)
      case None => None
      case Some(m) => world.compress(n - 1, m)
  }

  /** What is known while recovery is under way. */
  ghost predicate Progress(
      world: World, cfg: Config, messages: seq<Message>, events: seq<Event>, current: seq<Message>,
      retryCount: nat, compressCount: nat)
  {
    && Actions(cfg, events)
    && retryCount == Count(events, Retry) <= NonNeg(cfg.maxRetries)
    && compressCount == Count(events, Compress) <= NonNeg(cfg.maxCompressions)
    && |events| == retryCount + compressCount <= NonNeg(cfg.globalCap)
    && Iterate(world, messages, compressCount) == Some(current)
  }

  /** The provider's reply to its n-th request, made after the n actions before it. */
  function ReplyAt(world: World, messages: seq<Message>, actions: seq<Event>, n: nat): Option<Reply>
    requires n <= |actions|
  {
    match Iterate(world, messages, Count(actions[..n], Compress))
    case None => None
    case Some(m) => Some(world.chat(n, m))
  }

  predicate CanRetry(world: World, cfg: Config, before: seq<Event>, error: ProviderError) {
    world.classify(error).retryable && Count(before, Retry) < cfg.maxRetries
  }

  predicate CanCompress(world: World, cfg: Config, before: seq<Event>, error: ProviderError) {
    world.classify(error).compressible && Count(before, Compress) < cfg.maxCompressions
  }

  /** The n-th action answers a failure of the n-th request, and is the one that failure calls for. */
  predicate Justified(world: World, cfg: Config, messages: seq<Message>, actions: seq<Event>, n: nat)
    requires n < |actions|
  {
    match ReplyAt(world, messages, actions, n)
    case Some(Failure(error)) =>
      && !world.abortedAtFailure(n)
      && n + 1 <= cfg.globalCap
      && actions[n].Action?
      && actions[n].category == world.classify(error).category
      && (actions[n].kind == Retry <==> CanRetry(world, cfg, actions[..n], error))
      && (actions[n].kind == Compress ==> CanCompress(world, cfg, actions[..n], error))
    case _ => false
  }

  /** The abort signal came during the wait of the n-th action. */
  predicate CutShort(world: World, actions: seq<Event>, n: nat)
    requires n < |actions|
  {
    actions[n].Action? && actions[n].kind == Retry && actions[n].delayMs > 0 && world.abortedInDelay(n)
  }

  /** All `actions` were called for, and each of the first `n` was waited out. */
  ghost predicate CarriedOut(world: World, cfg: Config, messages: seq<Message>, actions: seq<Event>, n: nat) {
    && (forall k :: 0 <= k < |actions| ==> Justified(world, cfg, messages, actions, k))
    && (forall k :: 0 <= k < n && k < |actions| ==> !CutShort(world, actions, k))
  }

  function ActionsOf(events: seq<Event>): seq<Event> {
    if events != [] && !events[|events| - 1].Action? then events[..|events| - 1] else events
  }

  /** Why it gave up after `actions`: the reason named is the case, and none named before it is. */
  ghost predicate GivesUp(
      world: World, cfg: Config, messages: seq<Message>, actions: seq<Event>, last: Event, error: ProviderError)
  {
    var n := |actions|;
    var compressions := Count(actions, Compress);
    var current := Iterate(world, messages, compressions);
    && last.Exhausted?
    && last.category == world.classify(error).category
    && (last.reason == GlobalCap <==> n + 1 > cfg.globalCap)
    && (last.reason != GlobalCap ==> !CanRetry(world, cfg, actions, error))
    && (last.reason == NoAction ==> !CanCompress(world, cfg, actions, error))
    && (last.reason == CompressFailed ==>
          && CanCompress(world, cfg, actions, error)
          && current.Some? && world.compress(compressions, current.value) == None)
  }

  /**
   * How it ended is what the last reply says: success iff it is an answer; cancelled iff the abort
   * signal was set at that failure or during the wait that followed; else given up, with the reason.
   */
  ghost predicate Concludes(
      world: World, cfg: Config, messages: seq<Message>, outcome: Outcome, events: seq<Event>, calls: nat)
  {
    var actions := ActionsOf(events);
    && 1 <= calls
    && calls - 1 <= |actions| <= calls
    && CarriedOut(world, cfg, messages, actions, calls - 1)
    && match outcome
       case Success(response, current) =>
         && |actions| == calls - 1
         && Iterate(world, messages, Count(actions, Compress)) == Some(current)
         && ReplyAt(world, messages, actions, calls - 1) == Some(Answer(response))
       case Aborted(error) =>
         && ReplyAt(world, messages, actions, calls - 1) == Some(Failure(error))
         && (if |actions| == calls then CutShort(world, actions, calls - 1) else world.abortedAtFailure(calls - 1))
       case GaveUp(error) =>
         && |actions| == calls - 1 && events != []
         && ReplyAt(world, messages, actions, calls - 1) == Some(Failure(error))
         && !world.abortedAtFailure(calls - 1)
         && GivesUp(world, cfg, messages, actions, events[|events| - 1], error)
  }

  lemma Numbered(cfg: Config, events: seq<Event>, e: Event)
    requires Actions(cfg, events) && e.Action? && e.attempt == |events| + 1
    requires Waits(cfg, e.kind, Count(events, Retry), e.delayMs)
    ensures Actions(cfg, events + [e])
    ensures Count(events + [e], Retry) == Count(events, Retry) + if e.kind == Retry then 1 else 0
    ensures Count(events + [e], Compress) == Count(events, Compress) + if e.kind == Compress then 1 else 0
  {
    CountAppend(events, e, Retry);
    CountAppend(events, e, Compress);
    var all := events + [e];
    forall i | 0 <= i < |all|
      ensures all[i].Action? && all[i].attempt == i + 1
      ensures Waits(cfg, all[i].kind, Count(all[..i], Retry), all[i].delayMs)
    {
      if i < |events| {
        assert all[..i] == events[..i];
      } else {
        assert all[..i] == events;
      }
    }
  }

  lemma Terminal(cfg: Config, events: seq<Event>, e: Event)
    requires !e.Action?
    ensures (events + [e])[..|events|] == events && (events + [e])[|events|] == e
    ensures Count(events + [e], Retry) == Count(events, Retry)
    ensures Count(events + [e], Compress) == Count(events, Compress)
  {
    CountAppend(events, e, Retry);
    CountAppend(events, e, Compress);
  }

  // ------------------------------------------------------------ the code

  datatype Step =
    | Again(event: Event, next: seq<Message>)
    | Surface(event: Event)

  /** The action `step` is the one called for and does what it says. */
  ghost predicate Allowed(
      world: World, cfg: Config, events: seq<Event>, current: seq<Message>, err: ProviderError, step: Step)
  {
    && step.Again?
    && step.event.Action? && step.event.attempt == |events| + 1 <= cfg.globalCap
    && step.event.category == world.classify(err).category
    && Waits(cfg, step.event.kind, Count(events, Retry), step.event.delayMs)
    && (step.event.kind == Retry <==> CanRetry(world, cfg, events, err))
    && match step.event.kind
       case Retry => step.next == current
       case Compress =>
         && CanCompress(world, cfg, events, err)
         && world.compress(Count(events, Compress), current) == Some(step.next)
  }

  lemma ActionKeepsProgress(
      world: World, cfg: Config, messages: seq<Message>, events: seq<Event>, current: seq<Message>,
      retryCount: nat, compressCount: nat, err: ProviderError, step: Step)
    requires Progress(world, cfg, messages, events, current, retryCount, compressCount)
    requires Allowed(world, cfg, events, current, err, step)
    ensures
      var retry := step.event.kind == Retry;
      Progress(world, cfg, messages, events + [step.event], step.next,
               if retry then retryCount + 1 else retryCount,
               if retry then compressCount else compressCount + 1)
  {
    Numbered(cfg, events, step.event);
    if step.event.kind == Compress {
      IterateNext(world, messages, compressCount, current, step.next);
    }
  }

  lemma IterateNext(world: World, messages: seq<Message>, n: nat, current: seq<Message>, next: seq<Message>)
    requires Iterate(world, messages, n) == Some(current) && world.compress(n, current) == Some(next)
    ensures Iterate(world, messages, n + 1) == Some(next)
  {
  }

  /** One more action that was called for. */
  lemma ActionCarriedOut(
      world: World, cfg: Config, messages: seq<Message>, events: seq<Event>, current: seq<Message>,
      err: ProviderError, step: Step)
    requires CarriedOut(world, cfg, messages, events, |events|)
    requires Iterate(world, messages, Count(events, Compress)) == Some(current)
    requires world.chat(|events|, current) == Failure(err) && !world.abortedAtFailure(|events|)
    requires Allowed(world, cfg, events, current, err, step)
    ensures CarriedOut(world, cfg, messages, events + [step.event], |events|)
  {
    var all := events + [step.event];
    forall k | 0 <= k < |all| ensures Justified(world, cfg, messages, all, k) {
      if k < |events| {
        assert Justified(world, cfg, messages, events, k);
        assert all[..k] == events[..k];
      } else {
        assert all[..k] == events;
      }
    }
    forall k | 0 <= k < |events| ensures !CutShort(world, all, k) {
      assert !CutShort(world, events, k);
    }
  }

  /** Choose what to do about a failure: retry, compress, or give up and say why. */
  method Dispatch(
      world: World, cfg: Config, ghost messages: seq<Message>, events: seq<Event>, current: seq<Message>,
      retryCount: nat, compressCount: nat, err: ProviderError)
    returns (step: Step)
    requires Progress(world, cfg, messages, events, current, retryCount, compressCount)
    ensures step.Again? ==> Allowed(world, cfg, events, current, err, step)
    ensures
      var c := world.classify(err);
      var capped := |events| + 1 > cfg.globalCap;
      var retries := c.retryable && retryCount < cfg.maxRetries;
      var compresses := !retries && c.compressible && compressCount < cfg.maxCompressions;
      && (step.Again? && step.event.kind == Retry <==> !capped && retries)
      && (step.Again? && step.event.kind == Compress <==>
            !capped && compresses && world.compress(compressCount, current).Some?)
    ensures step.Surface? ==> step.event.Exhausted? && step.event.attempt == |events| + 1
    ensures step.Surface? ==> GivesUp(world, cfg, messages, events, step.event, err)
  {
    var classified := world.classify(err);
    var totalActions := |events| + 1;
    if totalActions > cfg.globalCap {
      return Surface(Exhausted(classified.category, totalActions, GlobalCap));
    }
    if classified.retryable && retryCount < cfg.maxRetries {
      var delayMs := Backoff(cfg, retryCount);
      return Again(Action(Retry, classified.category, totalActions, delayMs), current);
    }
    if classified.compressible && compressCount < cfg.maxCompressions {
      var compressed := world.compress(compressCount, current);
      if compressed == None {
        return Surface(Exhausted(classified.category, totalActions, CompressFailed));
      }
      return Again(Action(Compress, classified.category, totalActions, 0), compressed.value);
    }
    return Surface(Exhausted(classified.category, totalActions, NoAction));
  }

  /** Success is reported only if it took a recovery action, naming the last one. */
  function Report(events: seq<Event>): seq<Event> {
    if events == [] || !events[|events| - 1].Action? then []
    else
      var last := events[|events| - 1];
      [Succeeded(last.category, |events|, last.kind)]
  }

  lemma Reported(cfg: Config, events: seq<Event>, outcome: Outcome)
    requires Actions(cfg, events) && outcome.Success?
    ensures ActionsOf(events + Report(events)) == events
    ensures Regular(cfg, events + Report(events), outcome)
    ensures Count(events + Report(events), Retry) == Count(events, Retry)
    ensures Count(events + Report(events), Compress) == Count(events, Compress)
  {
    if events != [] {
      Terminal(cfg, events, Report(events)[0]);
    } else {
      assert events + Report(events) == [];
    }
  }

  /** Recovery is under way: every action so far was called for and waited out. */
  ghost predicate UnderWay(
      world: World, cfg: Config, messages: seq<Message>, events: seq<Event>, current: seq<Message>)
  {
    && Actions(cfg, events)
    && CarriedOut(world, cfg, messages, events, |events|)
    && Iterate(world, messages, Count(events, Compress)) == Some(current)
  }

  /** Recovery is under way, and the counters are right. */
  ghost predicate Known(
      world: World, cfg: Config, messages: seq<Message>, events: seq<Event>, current: seq<Message>,
      retryCount: nat, compressCount: nat)
  {
    && Progress(world, cfg, messages, events, current, retryCount, compressCount)
    && UnderWay(world, cfg, messages, events, current)
  }

  lemma ReplyNow(world: World, messages: seq<Message>, events: seq<Event>, current: seq<Message>)
    requires Iterate(world, messages, Count(events, Compress)) == Some(current)
    ensures ReplyAt(world, messages, events, |events|) == Some(world.chat(|events|, current))
  {
    assert events[..|events|] == events;
  }

  lemma Succeeds(
      world: World, cfg: Config, messages: seq<Message>, events: seq<Event>, current: seq<Message>, response: Response)
    requires UnderWay(world, cfg, messages, events, current)
    requires world.chat(|events|, current) == Answer(response)
    ensures Concludes(world, cfg, messages, Success(response, current), events + Report(events), |events| + 1)
    ensures Regular(cfg, events + Report(events), Success(response, current))
  {
    Reported(cfg, events, Success(response, current));
    ReplyNow(world, messages, events, current);
  }

  lemma IsCancelled(
      world: World, cfg: Config, messages: seq<Message>, events: seq<Event>, current: seq<Message>, err: ProviderError)
    requires UnderWay(world, cfg, messages, events, current)
    requires world.chat(|events|, current) == Failure(err) && world.abortedAtFailure(|events|)
    ensures Concludes(world, cfg, messages, Aborted(err), events, |events| + 1)
    ensures Regular(cfg, events, Aborted(err))
  {
    assert ActionsOf(events) == events;
    ReplyNow(world, messages, events, current);
  }

  lemma IsCancelledInDelay(
      world: World, cfg: Config, messages: seq<Message>, before: seq<Event>, current: seq<Message>, e: Event,
      err: ProviderError)
    requires Iterate(world, messages, Count(before, Compress)) == Some(current)
    requires world.chat(|before|, current) == Failure(err)
    requires Actions(cfg, before + [e]) && CarriedOut(world, cfg, messages, before + [e], |before|)
    requires e.Action? && CutShort(world, before + [e], |before|)
    ensures Concludes(world, cfg, messages, Aborted(err), before + [e], |before| + 1)
    ensures Regular(cfg, before + [e], Aborted(err))
  {
    var events := before + [e];
    assert ActionsOf(events) == events;
    assert events[..|before|] == before;
  }

  lemma Surfaces(
      world: World, cfg: Config, messages: seq<Message>, events: seq<Event>, current: seq<Message>, err: ProviderError,
      last: Event)
    requires UnderWay(world, cfg, messages, events, current)
    requires world.chat(|events|, current) == Failure(err) && !world.abortedAtFailure(|events|)
    requires last.Exhausted? && last.attempt == |events| + 1 && GivesUp(world, cfg, messages, events, last, err)
    ensures Concludes(world, cfg, messages, GaveUp(err), events + [last], |events| + 1)
    ensures Regular(cfg, events + [last], GaveUp(err))
  {
    assert (events + [last])[..|events|] == events;
    ReplyNow(world, messages, events, current);
  }

  lemma WaitedOut(world: World, cfg: Config, messages: seq<Message>, events: seq<Event>, e: Event)
    requires CarriedOut(world, cfg, messages, events + [e], |events|)
    ensures !CutShort(world, events + [e], |events|) ==>
              CarriedOut(world, cfg, messages, events + [e], |events + [e]|)
  {
  }

  /** After an action recovery goes on, or the wait for it was cut short and it is cancelled. */
  lemma ActionGoesOn(
      world: World, cfg: Config, messages: seq<Message>, events: seq<Event>, current: seq<Message>, err: ProviderError,
      step: Step)
    requires UnderWay(world, cfg, messages, events, current)
    requires world.chat(|events|, current) == Failure(err) && !world.abortedAtFailure(|events|)
    requires Allowed(world, cfg, events, current, err, step)
    ensures var cut := step.event.kind == Retry && step.event.delayMs > 0 && world.abortedInDelay(|events|);
            && (!cut ==> UnderWay(world, cfg, messages, events + [step.event], step.next))
            && (cut ==>
                  && Concludes(world, cfg, messages, Aborted(err), events + [step.event], |events| + 1)
                  && Regular(cfg, events + [step.event], Aborted(err)))
  {
    Numbered(cfg, events, step.event);
    ActionCarriedOut(world, cfg, messages, events, current, err, step);
    WaitedOut(world, cfg, messages, events, step.event);
    if CutShort(world, events + [step.event], |events|) {
      IsCancelledInDelay(world, cfg, messages, events, current, step.event, err);
    }
  }

  /** The bounds on one run of recovery. */
  predicate Bounded(cfg: Config, events: seq<Event>, calls: nat) {
    && calls <= 1 + Min(NonNeg(cfg.globalCap), NonNeg(cfg.maxRetries) + NonNeg(cfg.maxCompressions))
    && Count(events, Retry) <= NonNeg(cfg.maxRetries)
    && Count(events, Compress) <= NonNeg(cfg.maxCompressions)
  }

  lemma ProgressIsBounded(
      world: World, cfg: Config, messages: seq<Message>, events: seq<Event>, current: seq<Message>,
      retryCount: nat, compressCount: nat)
    requires Progress(world, cfg, messages, events, current, retryCount, compressCount)
    ensures Bounded(cfg, events, |events|) && Bounded(cfg, events, |events| + 1)
    ensures Bounded(cfg, events + Report(events), |events| + 1)
    ensures forall last: Event :: !last.Action? ==> Bounded(cfg, events + [last], |events| + 1)
  {
    forall last: Event | !last.Action? ensures Bounded(cfg, events + [last], |events| + 1) {
      Terminal(cfg, events, last);
    }
    if Report(events) == [] {
      assert events + Report(events) == events;
    } else {
      assert Report(events) == [Report(events)[0]];
    }
  }

  datatype Turn =
    | GoOn(event: Event, next: seq<Message>)
    | Stop(outcome: Outcome, events: seq<Event>)

  /** What one failure leads to: cancellation, another request, or giving up. */
  method HandleFailure(
      world: World, cfg: Config, ghost messages: seq<Message>, events: seq<Event>, current: seq<Message>,
      retryCount: nat, compressCount: nat, err: ProviderError)
    returns (turn: Turn)
    requires Known(world, cfg, messages, events, current, retryCount, compressCount)
    requires world.chat(|events|, current) == Failure(err)
    ensures turn.Stop? ==> Ended(world, cfg, messages, turn.outcome, turn.events, |events| + 1)
    ensures turn.GoOn? ==>
              && turn.event.Action?
              && var retry := turn.event.kind == Retry;
              Known(world, cfg, messages, events + [turn.event], turn.next,
                    if retry then retryCount + 1 else retryCount,
                    if retry then compressCount else compressCount + 1)
  {
    ProgressIsBounded(world, cfg, messages, events, current, retryCount, compressCount);
    if world.abortedAtFailure(|events|) {
      IsCancelled(world, cfg, messages, events, current, err);
      return Stop(Aborted(err), events);
    }
    var step := Dispatch(world, cfg, messages, events, current, retryCount, compressCount, err);
    if step.Surface? {
      Surfaces(world, cfg, messages, events, current, err, step.event);
      return Stop(GaveUp(err), events + [step.event]);
    }
    turn := Wait(world, cfg, messages, events, current, retryCount, compressCount, err, step);
  }

  /** Carry out an action; a retry waits first, and the wait may be cut short. */
  method Wait(
      world: World, cfg: Config, ghost messages: seq<Message>, events: seq<Event>, ghost current: seq<Message>,
      ghost retryCount: nat, ghost compressCount: nat, err: ProviderError, step: Step)
    returns (turn: Turn)
    requires Known(world, cfg, messages, events, current, retryCount, compressCount)
    requires world.chat(|events|, current) == Failure(err) && !world.abortedAtFailure(|events|)
    requires Allowed(world, cfg, events, current, err, step)
    ensures turn.Stop? ==> Ended(world, cfg, messages, turn.outcome, turn.events, |events| + 1)
    ensures turn.GoOn? ==>
              && turn.event.Action?
              && var retry := turn.event.kind == Retry;
              Known(world, cfg, messages, events + [turn.event], turn.next,
                    if retry then retryCount + 1 else retryCount,
                    if retry then compressCount else compressCount + 1)
  {
    ActionKeepsProgress(world, cfg, messages, events, current, retryCount, compressCount, err, step);
    ActionGoesOn(world, cfg, messages, events, current, err, step);
    if step.event.kind == Retry && step.event.delayMs > 0 && world.abortedInDelay(|events|) {
      ProgressIsBounded(world, cfg, messages, events + [step.event], step.next, retryCount + 1, compressCount);
      return Stop(Aborted(err), events + [step.event]);
    }
    return GoOn(step.event, step.next);
  }

  /** The provider answered. */
  method Finish(
      world: World, cfg: Config, ghost messages: seq<Message>, events: seq<Event>, current: seq<Message>,
      ghost retryCount: nat, ghost compressCount: nat, response: Response)
    returns (outcome: Outcome, all: seq<Event>)
    requires Known(world, cfg, messages, events, current, retryCount, compressCount)
    requires world.chat(|events|, current) == Answer(response)
    ensures Ended(world, cfg, messages, outcome, all, |events| + 1)
  {
    ProgressIsBounded(world, cfg, messages, events, current, retryCount, compressCount);
    Succeeds(world, cfg, messages, events, current, response);
    return Success(response, current), events + Report(events);
  }

  /** Everything that is promised of one run of recovery. */
  ghost predicate Ended(
      world: World, cfg: Config, messages: seq<Message>, outcome: Outcome, events: seq<Event>, calls: nat)
  {
    && Regular(cfg, events, outcome)
    && Concludes(world, cfg, messages, outcome, events, calls)
    && Bounded(cfg, events, calls)
  }

  /**
   * At most 1 + min(globalCap, maxRetries + maxCompressions) provider calls; a regular trace; the
   * outcome is what the last reply and the abort signal make it; the returned messages are the
   * compressor iterated once per compress action.
   */
  method RunWithRecovery(world: World, messages: seq<Message>, cfg: Config)
    returns (outcome: Outcome, events: seq<Event>, calls: nat)
    ensures Regular(cfg, events, outcome)
    ensures Concludes(world, cfg, messages, outcome, events, calls)
    ensures Bounded(cfg, events, calls)
  {
    var current := messages;
    var retryCount, compressCount := 0, 0;
    events, calls := [], 0;
    while true
      invariant Known(world, cfg, messages, events, current, retryCount, compressCount)
      invariant calls == |events|
      decreases cfg.globalCap - |events|
    {
      var reply := world.chat(calls, current);
      calls := calls + 1;
      if reply.Answer? {
        outcome, events := Finish(world, cfg, messages, events, current, retryCount, compressCount, reply.response);
        return;
      }
      var turn := HandleFailure(world, cfg, messages, events, current, retryCount, compressCount, reply.error);
      if turn.Stop? {
        return turn.outcome, turn.events, calls;
      }
      if turn.event.kind == Retry {
        retryCount := retryCount + 1;
      } else {
        compressCount := compressCount + 1;
      }
      events := events + [turn.event];
      current := turn.next;
    }
  }

  // ------------------------------------------------------------ the promise leaves no choice

  /** As far as both go, two traces took the same actions. */
  lemma {:induction false} SameActions(
      world: World, cfg: Config, messages: seq<Message>, a: seq<Event>, b: seq<Event>, n: nat)
    requires Actions(cfg, a) && CarriedOut(world, cfg, messages, a, 0)
    requires Actions(cfg, b) && CarriedOut(world, cfg, messages, b, 0)
    requires n <= |a| && n <= |b|
    ensures a[..n] == b[..n]
  {
    if n > 0 {
      SameActions(world, cfg, messages, a, b, n - 1);
      NthJustified(world, cfg, messages, a, 0, n - 1);
      NthJustified(world, cfg, messages, b, 0, n - 1);
      SameAction(world, cfg, messages, a, b, n - 1);
      OneMore(a, b, n - 1);
    }
  }

  lemma OneMore(a: seq<Event>, b: seq<Event>, n: nat)
    requires n < |a| && n < |b| && a[..n] == b[..n] && a[n] == b[n]
    ensures a[..n + 1] == b[..n + 1]
  {
    assert a[..n + 1] == a[..n] + [a[n]] && b[..n + 1] == b[..n] + [b[n]];
  }

  lemma NthJustified(world: World, cfg: Config, messages: seq<Message>, a: seq<Event>, m: nat, n: nat)
    requires CarriedOut(world, cfg, messages, a, m)
    ensures n < |a| ==> Justified(world, cfg, messages, a, n)
    ensures n < |a| && n < m ==> !CutShort(world, a, n)
  {
  }

  lemma SameAction(world: World, cfg: Config, messages: seq<Message>, a: seq<Event>, b: seq<Event>, n: nat)
    requires Actions(cfg, a) && Actions(cfg, b) && n < |a| && n < |b| && a[..n] == b[..n]
    requires Justified(world, cfg, messages, a, n) && Justified(world, cfg, messages, b, n)
    ensures a[n] == b[n]
  {
  }

  lemma CarriedOutLess(world: World, cfg: Config, messages: seq<Message>, a: seq<Event>, n: nat)
    requires CarriedOut(world, cfg, messages, a, n)
    ensures CarriedOut(world, cfg, messages, a, 0)
  {
  }

  /** A request was made only after the reply before it had called for the action in between. */
  lemma EveryReplyExists(
      world: World, cfg: Config, messages: seq<Message>, outcome: Outcome, events: seq<Event>, calls: nat, n: nat)
    requires Concludes(world, cfg, messages, outcome, events, calls) && n < calls
    ensures n <= |ActionsOf(events)| && ReplyAt(world, messages, ActionsOf(events), n).Some?
  {
    if n < |ActionsOf(events)| {
      assert Justified(world, cfg, messages, ActionsOf(events), n);
    }
  }

  lemma ActionsRegular(cfg: Config, events: seq<Event>, outcome: Outcome)
    requires Regular(cfg, events, outcome)
    ensures Actions(cfg, ActionsOf(events))
  {
  }

  /** A trace that goes on past the end of another contradicts the reason why that one ended. */
  lemma NoEarlierEnd(
      world: World, cfg: Config, messages: seq<Message>,
      o1: Outcome, e1: seq<Event>, c1: nat, o2: Outcome, e2: seq<Event>, c2: nat)
    requires Regular(cfg, e1, o1) && Concludes(world, cfg, messages, o1, e1, c1)
    requires Regular(cfg, e2, o2) && Concludes(world, cfg, messages, o2, e2, c2)
    ensures c1 >= c2
  {
    if c1 < c2 {
      EveryReplyExists(world, cfg, messages, o2, e2, c2, c1);
      NoReplyAfter(world, cfg, messages, o1, e1, c1, o2, e2, c2);
    }
  }

  lemma NoReplyAfter(
      world: World, cfg: Config, messages: seq<Message>,
      o1: Outcome, e1: seq<Event>, c1: nat, o2: Outcome, e2: seq<Event>, c2: nat)
    requires Regular(cfg, e1, o1) && Concludes(world, cfg, messages, o1, e1, c1)
    requires Regular(cfg, e2, o2) && Concludes(world, cfg, messages, o2, e2, c2)
    requires c1 < c2
    ensures c1 <= |ActionsOf(e2)| && ReplyAt(world, messages, ActionsOf(e2), c1) == None
  {
    WentOn(world, cfg, messages, o2, e2, c2, c1);
    SameSoFar(world, cfg, messages, o1, e1, c1, o2, e2, c2, c1 - 1);
    EndedForGood(world, cfg, messages, o1, e1, c1, ActionsOf(e2));
  }

  lemma WentOn(
      world: World, cfg: Config, messages: seq<Message>, outcome: Outcome, events: seq<Event>, calls: nat, n: nat)
    requires Regular(cfg, events, outcome)
    requires Concludes(world, cfg, messages, outcome, events, calls) && 0 < n < calls
    ensures n <= |ActionsOf(events)| && Actions(cfg, ActionsOf(events))
    ensures Justified(world, cfg, messages, ActionsOf(events), n - 1) && !CutShort(world, ActionsOf(events), n - 1)
  {
    ActionsRegular(cfg, events, outcome);
    NthJustified(world, cfg, messages, ActionsOf(events), calls - 1, n - 1);
  }

  lemma SameSoFar(
      world: World, cfg: Config, messages: seq<Message>,
      o1: Outcome, e1: seq<Event>, c1: nat, o2: Outcome, e2: seq<Event>, c2: nat, n: nat)
    requires Regular(cfg, e1, o1) && Concludes(world, cfg, messages, o1, e1, c1)
    requires Regular(cfg, e2, o2) && Concludes(world, cfg, messages, o2, e2, c2)
    requires n < c1 && n < c2
    ensures n <= |ActionsOf(e1)| && n <= |ActionsOf(e2)| && ActionsOf(e1)[..n] == ActionsOf(e2)[..n]
  {
    var a, b := ActionsOf(e1), ActionsOf(e2);
    ActionsRegular(cfg, e1, o1);
    ActionsRegular(cfg, e2, o2);
    CarriedOutLess(world, cfg, messages, a, c1 - 1);
    CarriedOutLess(world, cfg, messages, b, c2 - 1);
    SameActions(world, cfg, messages, a, b, n);
  }

  lemma SameActionIf(world: World, cfg: Config, messages: seq<Message>, a: seq<Event>, b: seq<Event>, n: nat)
    requires Actions(cfg, a) && Actions(cfg, b) && n <= |a| && n < |b| && a[..n] == b[..n]
    requires n < |a| ==> Justified(world, cfg, messages, a, n)
    requires Justified(world, cfg, messages, b, n)
    ensures n < |a| ==> a[n] == b[n]
  {
    if n < |a| {
      SameAction(world, cfg, messages, a, b, n);
    }
  }

  /** No justified next action follows the end of a trace. */
  lemma EndedForGood(
      world: World, cfg: Config, messages: seq<Message>, outcome: Outcome, events: seq<Event>, calls: nat,
      b: seq<Event>)
    requires Regular(cfg, events, outcome) && Concludes(world, cfg, messages, outcome, events, calls)
    requires calls <= |b| && b[..calls - 1] == ActionsOf(events)[..calls - 1] && Actions(cfg, b)
    requires Justified(world, cfg, messages, b, calls - 1) && !CutShort(world, b, calls - 1)
    ensures ReplyAt(world, messages, b, calls) == None
  {
    var a := ActionsOf(events);
    var n := calls - 1;
    ActionsRegular(cfg, events, outcome);
    NthJustified(world, cfg, messages, a, n, n);
    SameActionIf(world, cfg, messages, a, b, n);
    SameReply(world, messages, a, b, n);
    if outcome.GaveUp? {
      assert a[..n] == a;
      GaveUpIsFinal(world, cfg, messages, a, events[|events| - 1], outcome.error, b);
      NoneAfter(world, cfg, messages, a, events[|events| - 1], outcome.error, b);
    }
  }

  lemma SameReply(world: World, messages: seq<Message>, a: seq<Event>, b: seq<Event>, n: nat)
    requires n <= |a| && n <= |b| && a[..n] == b[..n]
    ensures ReplyAt(world, messages, a, n) == ReplyAt(world, messages, b, n)
  {
  }

  /** Having given up after `a`, the only action one could take is a compression that throws. */
  lemma GaveUpIsFinal(
      world: World, cfg: Config, messages: seq<Message>, a: seq<Event>, last: Event, err: ProviderError, b: seq<Event>)
    requires GivesUp(world, cfg, messages, a, last, err) && |a| <= |b| && b[..|a|] == a
    requires ReplyAt(world, messages, a, |a|) == Some(Failure(err))
    requires |a| < |b| ==> Justified(world, cfg, messages, b, |a|)
    ensures |a| < |b| ==> last.reason == CompressFailed && b[|a|].Action? && b[|a|].kind == Compress
  {
    SameReply(world, messages, a, b, |a|);
    assert a[..|a|] == a;
  }

  lemma NoneAfter(
      world: World, cfg: Config, messages: seq<Message>, a: seq<Event>, last: Event, err: ProviderError, b: seq<Event>)
    requires GivesUp(world, cfg, messages, a, last, err) && last.reason == CompressFailed
    requires |a| < |b| && b[..|a|] == a && b[|a|].Action? && b[|a|].kind == Compress
    ensures ReplyAt(world, messages, b, |a| + 1) == None
  {
    CountAppend(a, b[|a|], Compress);
    assert b[..|a| + 1] == a + [b[|a|]];
  }

  /** Two traces of the same length of calls took the same actions. */
  lemma SameEnd(
      world: World, cfg: Config, messages: seq<Message>,
      o1: Outcome, e1: seq<Event>, o2: Outcome, e2: seq<Event>, calls: nat)
    requires Regular(cfg, e1, o1) && Concludes(world, cfg, messages, o1, e1, calls)
    requires Regular(cfg, e2, o2) && Concludes(world, cfg, messages, o2, e2, calls)
    requires |ActionsOf(e1)| >= |ActionsOf(e2)|
    ensures ActionsOf(e1) == ActionsOf(e2)
  {
    var a, b := ActionsOf(e1), ActionsOf(e2);
    SameWhole(world, cfg, messages, o1, e1, o2, e2, calls);
    assert b[..|b|] == b && a[..|a|] == a;
    NthJustified(world, cfg, messages, a, calls - 1, |b|);
    if o2.GaveUp? {
      GaveUpIsFinal(world, cfg, messages, b, e2[|e2| - 1], o2.error, a);
    }
  }

  lemma SameWhole(
      world: World, cfg: Config, messages: seq<Message>,
      o1: Outcome, e1: seq<Event>, o2: Outcome, e2: seq<Event>, calls: nat)
    requires Regular(cfg, e1, o1) && Concludes(world, cfg, messages, o1, e1, calls)
    requires Regular(cfg, e2, o2) && Concludes(world, cfg, messages, o2, e2, calls)
    requires |ActionsOf(e1)| >= |ActionsOf(e2)|
    ensures ActionsOf(e1)[..|ActionsOf(e2)|] == ActionsOf(e2)
  {
    var a, b := ActionsOf(e1), ActionsOf(e2);
    ActionsRegular(cfg, e1, o1);
    ActionsRegular(cfg, e2, o2);
    CarriedOutLess(world, cfg, messages, a, calls - 1);
    CarriedOutLess(world, cfg, messages, b, calls - 1);
    SameActions(world, cfg, messages, a, b, |b|);
    assert b[..|b|] == b;
  }

  /** The actions, the last reply and the abort signal decide the outcome and the last event. */
  lemma SameOutcome(
      world: World, cfg: Config, messages: seq<Message>,
      o1: Outcome, e1: seq<Event>, o2: Outcome, e2: seq<Event>, calls: nat)
    requires Regular(cfg, e1, o1) && Concludes(world, cfg, messages, o1, e1, calls)
    requires Regular(cfg, e2, o2) && Concludes(world, cfg, messages, o2, e2, calls)
    requires ActionsOf(e1) == ActionsOf(e2)
    ensures o1 == o2 && e1 == e2
  {
    EventsOf(cfg, e1, o1);
    EventsOf(cfg, e2, o2);
  }

  lemma AllActions(cfg: Config, events: seq<Event>)
    requires Actions(cfg, events)
    ensures ActionsOf(events) == events
  {
  }

  lemma ButTheLast(events: seq<Event>)
    requires events != [] && !events[|events| - 1].Action?
    ensures ActionsOf(events) == events[..|events| - 1]
    ensures events == ActionsOf(events) + [events[|events| - 1]]
  {
  }

  /** The events are the actions and at most one more. */
  lemma EventsOf(cfg: Config, events: seq<Event>, outcome: Outcome)
    requires Regular(cfg, events, outcome)
    ensures var a := ActionsOf(events);
            match outcome
            case Success(_, _) =>
              events == if a == [] then [] else a + [Succeeded(a[|a| - 1].category, |a|, a[|a| - 1].kind)]
            case GaveUp(_) =>
              && |events| == |a| + 1 && events == a + [events[|a|]]
              && events[|a|].Exhausted? && events[|a|].attempt == |a| + 1
            case Aborted(_) => events == a
  {
    if outcome.Aborted? {
      AllActions(cfg, events);
    } else if events != [] {
      ButTheLast(events);
    }
  }

  /** In one world there is only one way for recovery to go: the promise determines everything. */
  lemma ConclusionIsUnique(
      world: World, cfg: Config, messages: seq<Message>,
      o1: Outcome, e1: seq<Event>, c1: nat, o2: Outcome, e2: seq<Event>, c2: nat)
    requires Regular(cfg, e1, o1) && Concludes(world, cfg, messages, o1, e1, c1)
    requires Regular(cfg, e2, o2) && Concludes(world, cfg, messages, o2, e2, c2)
    ensures o1 == o2 && e1 == e2 && c1 == c2
  {
    NoEarlierEnd(world, cfg, messages, o1, e1, c1, o2, e2, c2);
    NoEarlierEnd(world, cfg, messages, o2, e2, c2, o1, e1, c1);
    if |ActionsOf(e1)| >= |ActionsOf(e2)| {
      SameEnd(world, cfg, messages, o1, e1, o2, e2, c1);
    } else {
      SameEnd(world, cfg, messages, o2, e2, o1, e1, c1);
    }
    SameOutcome(world, cfg, messages, o1, e1, o2, e2, c1);
  }
}
