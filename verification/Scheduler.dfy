/**
 * The sub-agent scheduler as a state machine.
 *
 * One event is one JavaScript turn: the code between two awaits. A started task is a suspended
 * call of `executeTask`; its local variables (the watchdog timer, the `settled` latch, the awaited
 * publish) form an `Exec`. The fields `accepted`, `rejected` and `cancelled` and the counters
 * inside an `Exec` are history: no decision reads them.
 */
module Scheduler {
  import opened Util

  type UserId = string
  type RunId = string

  datatype Quota = Quota(maxConcurrent: int, maxPending: int)

  datatype Item = Item(runId: RunId, userId: UserId, userQuota: Option<Quota>)

  datatype Config = Config(maxConcurrent: int, maxPending: int, userDefault: Quota)

  datatype Outcome = Completed | Failed

  datatype Exec = Exec(
    item: Item,
    runPending: bool,        // the awaited run has not settled yet
    timerArmed: bool,        // the watchdog timer is set
    settled: bool,           // the latch
    publishing: bool,        // awaiting publishOutcome on the run path
    outcomes: seq<Outcome>,  // outcomes handed to the publisher
    releases: nat)           // calls of finalize

  datatype State = State(
    queues: map<UserId, seq<Item>>,
    active: map<UserId, int>,
    rotation: seq<UserId>,
    idx: nat,
    count: int,
    execs: seq<Exec>,
    accepted: seq<Item>,
    rejected: seq<Item>,
    cancelled: seq<Item>)

  datatype RunEnd = ResolvedCompleted | ResolvedOtherwise | Rejected

  datatype Event =
    | Submit(item: Item)
    | Cancel(runId: RunId)
    | RunSettles(handle: nat, end: RunEnd)
    | PublishReturns(handle: nat)
    | WatchdogFires(handle: nat)

  const INITIAL: State := State(map[], map[], [], 0, 0, [], [], [], [])

  function QuotaFor(cfg: Config, item: Item): Quota {
    match item.userQuota
    case Some(quota) => quota
    case None => cfg.userDefault
  }

  function QueueOf(s: State, u: UserId): seq<Item> {
    if u in s.queues then s.queues[u] else []
  }

  function ActiveOf(s: State, u: UserId): int {
    if u in s.active then s.active[u] else 0
  }

  /** The number of queued items of the users in `users`. */
  function Pending(queues: map<UserId, seq<Item>>, users: seq<UserId>): nat {
    if users == [] then 0
    else
      var last := users[|users| - 1];
      Pending(queues, users[..|users| - 1]) + if last in queues then |queues[last]| else 0
  }

  // ------------------------------------------------------------ drain

  predicate Eligible(cfg: Config, s: State, u: UserId) {
    var queue := QueueOf(s, u);
    queue != [] && ActiveOf(s, u) < QuotaFor(cfg, queue[0]).maxConcurrent
  }

  /** The first eligible rotation position, scanning `i..` steps cyclically from `idx`. */
  function ScanFrom(cfg: Config, s: State, i: nat): (p: Option<nat>)
    ensures p.Some? ==> p.value < |s.rotation| && Eligible(cfg, s, s.rotation[p.value])
    decreases |s.rotation| - i
  {
    if i >= |s.rotation| then None
    else
      var p := (s.idx + i) % |s.rotation|;
      if Eligible(cfg, s, s.rotation[p]) then Some(p) else ScanFrom(cfg, s, i + 1)
  }

  function Pick(cfg: Config, s: State): (p: Option<nat>)
    ensures p.Some? ==> p.value < |s.rotation| && Eligible(cfg, s, s.rotation[p.value])
  {
    ScanFrom(cfg, s, 0)
  }

  function NewExec(item: Item): Exec {
    Exec(item, true, true, false, false, [], 0)
  }

  /** Take the head of the queue at rotation position `p`. */
  function TakeHead(s: State, p: nat): State
    requires p < |s.rotation| && QueueOf(s, s.rotation[p]) != []
  {
    s.(queues := s.queues[s.rotation[p] := QueueOf(s, s.rotation[p])[1..]],
       idx := (p + 1) % |s.rotation|)
  }

  /** Occupy a slot with `item`. */
  function Launch(s: State, item: Item): State {
    s.(count := s.count + 1,
       active := s.active[item.userId := ActiveOf(s, item.userId) + 1],
       execs := s.execs + [NewExec(item)])
  }

  function Start(s: State, p: nat): State
    requires p < |s.rotation| && QueueOf(s, s.rotation[p]) != []
  {
    Launch(TakeHead(s, p), QueueOf(s, s.rotation[p])[0])
  }

  function Drain(cfg: Config, s: State): State
    decreases cfg.maxConcurrent - s.count
  {
    if s.count >= cfg.maxConcurrent then s
    else
      match Pick(cfg, s)
      case None => s
      case Some(p) => Drain(cfg, Start(s, p))
  }

  // ------------------------------------------------------------ events

  predicate Accepts(cfg: Config, s: State, item: Item) {
    && Pending(s.queues, s.rotation) < cfg.maxPending
    && |QueueOf(s, item.userId)| < QuotaFor(cfg, item).maxPending
  }

  function Enqueue(s: State, item: Item): State {
    var u := item.userId;
    s.(queues := s.queues[u := QueueOf(s, u) + [item]],
       rotation := if u in s.queues then s.rotation else s.rotation + [u],
       accepted := s.accepted + [item])
  }

  /** First position of `runId` in `queue`, or `|queue|`. */
  function IndexOf(queue: seq<Item>, runId: RunId): (i: nat)
    ensures i <= |queue|
    ensures i < |queue| ==> queue[i].runId == runId
    ensures forall j :: 0 <= j < i ==> queue[j].runId != runId
  {
    if queue == [] then 0
    else if queue[0].runId == runId then 0
    else 1 + IndexOf(queue[1..], runId)
  }

  /** The first rotation position at or after `p` whose queue holds `runId`. */
  function Holder(s: State, runId: RunId, p: nat): (q: nat)
    ensures p <= |s.rotation| ==> p <= q <= |s.rotation|
    ensures q < |s.rotation| ==> IndexOf(QueueOf(s, s.rotation[q]), runId) < |QueueOf(s, s.rotation[q])|
    ensures forall j :: p <= j < q && j < |s.rotation| ==>
              IndexOf(QueueOf(s, s.rotation[j]), runId) == |QueueOf(s, s.rotation[j])|
    decreases |s.rotation| - p
  {
    if p >= |s.rotation| then p
    else if IndexOf(QueueOf(s, s.rotation[p]), runId) < |QueueOf(s, s.rotation[p])| then p
    else Holder(s, runId, p + 1)
  }

  predicate IsQueued(s: State, runId: RunId) {
    Holder(s, runId, 0) < |s.rotation|
  }

  function RemoveFrom(s: State, u: UserId, i: nat): State
    requires i < |QueueOf(s, u)|
  {
    var queue := QueueOf(s, u);
    s.(queues := s.queues[u := queue[..i] + queue[i + 1..]],
       cancelled := s.cancelled + [queue[i]])
  }

  function RemoveQueued(s: State, runId: RunId): State
    requires IsQueued(s, runId)
  {
    var u := s.rotation[Holder(s, runId, 0)];
    RemoveFrom(s, u, IndexOf(QueueOf(s, u), runId))
  }

  /** Give the slot of `handle` back, without the drain that follows. */
  function Release(s: State, handle: nat): State
    requires handle < |s.execs|
  {
    var e := s.execs[handle];
    var u := e.item.userId;
    var active := if u in s.active then s.active[u] else 1;
    s.(count := s.count - 1,
       active := s.active[u := Max(0, active - 1)],
       execs := s.execs[handle := e.(releases := e.releases + 1)])
  }

  function Finalize(cfg: Config, s: State, handle: nat): State
    requires handle < |s.execs|
  {
    Drain(cfg, Release(s, handle))
  }

  function OutcomeOf(end: RunEnd): Outcome {
    if end == ResolvedCompleted then Completed else Failed
  }

  function Apply(cfg: Config, s: State, ev: Event): State {
    match ev
    case Submit(item) =>
      if Accepts(cfg, s, item) then Drain(cfg, Enqueue(s, item))
      else s.(rejected := s.rejected + [item])
    case Cancel(runId) =>
      if IsQueued(s, runId) then RemoveQueued(s, runId) else s
    case RunSettles(h, end) =>
      if h < |s.execs| && s.execs[h].runPending then
        var e := s.execs[h].(runPending := false);
        if e.settled then s.(execs := s.execs[h := e])
        else
          s.(execs := s.execs[h := e.(settled := true, timerArmed := false, publishing := true,
                                      outcomes := e.outcomes + [OutcomeOf(end)])])
      else s
    case PublishReturns(h) =>
      if h < |s.execs| && s.execs[h].publishing then
        Finalize(cfg, s.(execs := s.execs[h := s.execs[h].(publishing := false)]), h)
      else s
    case WatchdogFires(h) =>
      if h < |s.execs| && s.execs[h].timerArmed then
        var e := s.execs[h].(timerArmed := false);
        if e.settled then s.(execs := s.execs[h := e])
        else
          Finalize(cfg,
                   s.(execs := s.execs[h := e.(settled := true, outcomes := e.outcomes + [Failed])]),
                   h)
      else s
  }

  function Run(cfg: Config, s: State, events: seq<Event>): State
    decreases |events|
  {
    if events == [] then s else Run(cfg, Apply(cfg, s, events[0]), events[1..])
  }
}
