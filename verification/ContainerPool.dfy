/**
 * The warm container pool as a state machine with atomic operations. The pool is a JavaScript Map
 * from session to entry: a sequence in insertion order with one entry per session.
 */
module ContainerPool {
  import opened Util

  type SessionId = string
  type ContainerId = string
  type TimerId = nat

  /** Times in milliseconds where the source compares milliseconds, otherwise in seconds. */
  datatype Config = Config(
    maxWarmContainers: int,
    maxEphemeralContainers: int,
    defaultIdleTimeoutSec: int,
    maxIdleTimeoutSec: int,
    maxContainerLifetimeSec: int)

  datatype Entry = Entry(
    session: SessionId,
    container: ContainerId,
    startedAt: int,
    idle: bool,
    lastUsedAt: int,
    timer: Option<TimerId>,
    ephemeral: bool)

  /** What a running idle timer will do: remove the session and stop the container. */
  datatype Timer = Timer(session: SessionId, container: ContainerId)

  /** `started` and `stopped` are history: containers started, and containers asked to stop. */
  datatype State = State(
    pool: seq<Entry>,
    idleTimeouts: map<SessionId, int>,
    locks: set<SessionId>,
    timers: map<TimerId, Timer>,
    nextTimer: TimerId,
    started: set<ContainerId>,
    stopped: set<ContainerId>)

  const INITIAL := State([], map[], {}, map[], 0, {}, {})

  /** `alive`, `dead` and `newId` are oracles; `newId` is None when starting a container fails. */
  datatype Event =
    | Acquire(session: SessionId, now: int, requested: Option<int>, alive: bool, newId: Option<ContainerId>)
    | Release(session: SessionId, now: int)
    | Evict(session: SessionId)
    | TimerFires(id: TimerId)
    | HealthCheck(now: int, dead: set<ContainerId>)
    | DrainAll

  // ------------------------------------------------------------ the map

  function Find(pool: seq<Entry>, sid: SessionId): Option<Entry> {
    if pool == [] then None
    else
      var last := pool[|pool| - 1];
      if last.session == sid then Some(last) else Find(pool[..|pool| - 1], sid)
  }

  function Without(pool: seq<Entry>, sid: SessionId): seq<Entry> {
    if pool == [] then []
    else
      var last := pool[|pool| - 1];
      Without(pool[..|pool| - 1], sid) + if last.session == sid then [] else [last]
  }

  /** Setting an existing key keeps its place. */
  function Replaced(pool: seq<Entry>, e: Entry): seq<Entry> {
    if pool == [] then []
    else
      var last := pool[|pool| - 1];
      Replaced(pool[..|pool| - 1], e) + [if last.session == e.session then e else last]
  }

  function Put(pool: seq<Entry>, e: Entry): seq<Entry> {
    if Find(pool, e.session) == None then pool + [e] else Replaced(pool, e)
  }

  function Count(pool: seq<Entry>, ephemeral: bool): nat {
    if pool == [] then 0
    else Count(pool[..|pool| - 1], ephemeral) + if pool[|pool| - 1].ephemeral == ephemeral then 1 else 0
  }

  /** The first of the idle entries that were used least recently. */
  function Lru(pool: seq<Entry>): Option<Entry> {
    if pool == [] then None
    else
      var last := pool[|pool| - 1];
      var oldest := Lru(pool[..|pool| - 1]);
      if !last.idle then oldest
      else if oldest == None || last.lastUsedAt < oldest.value.lastUsedAt then Some(last)
      else oldest
  }

  function Containers(pool: seq<Entry>): set<ContainerId> {
    set e | e in pool :: e.container
  }

  // ------------------------------------------------------------ steps

  function ClearTimer(s: State, e: Entry): State {
    if e.timer == None then s else s.(timers := s.timers - {e.timer.value})
  }

  function StopAndRemove(s: State, sid: SessionId, container: ContainerId): State {
    s.(pool := Without(s.pool, sid), idleTimeouts := s.idleTimeouts - {sid}, stopped := s.stopped + {container})
  }

  function Remove(s: State, e: Entry): State {
    StopAndRemove(ClearTimer(s, e), e.session, e.container)
  }

  function Unlock(s: State, sid: SessionId): State {
    s.(locks := s.locks - {sid})
  }

  function Launch(s: State, sid: SessionId, now: int, newId: Option<ContainerId>, ephemeral: bool): State {
    if newId == None then Unlock(s, sid)
    else
      s.(pool := Put(s.pool, Entry(sid, newId.value, now, false, now, None, ephemeral)),
         started := s.started + {newId.value})
  }

  /** A free slot, else the slot of an evicted idle entry, else an ephemeral container, else an error. */
  function StartFresh(cfg: Config, s: State, sid: SessionId, now: int, newId: Option<ContainerId>): State {
    if Count(s.pool, false) < cfg.maxWarmContainers then Launch(s, sid, now, newId, false)
    else
      match Lru(s.pool)
      case Some(e) => Launch(Remove(s, e), sid, now, newId, false)
      case None =>
        if Count(s.pool, true) >= cfg.maxEphemeralContainers then Unlock(s, sid)
        else Launch(s, sid, now, newId, true)
  }

  predicate TooOld(cfg: Config, e: Entry, now: int) {
    now - e.startedAt > cfg.maxContainerLifetimeSec * 1000
  }

  function IdleTimeoutFor(cfg: Config, requested: Option<int>): int {
    Min(if requested == None then cfg.defaultIdleTimeoutSec else requested.value, cfg.maxIdleTimeoutSec)
  }

  /** Reuse a young live container of the session, replace any other one, or start the first. */
  function Served(
      cfg: Config, s: State, sid: SessionId, now: int, alive: bool, newId: Option<ContainerId>): State
  {
    match Find(s.pool, sid)
    case None => StartFresh(cfg, s, sid, now, newId)
    case Some(e) =>
      if TooOld(cfg, e, now) || !alive then StartFresh(cfg, Remove(s, e), sid, now, newId)
      else ClearTimer(s, e).(pool := Replaced(s.pool, e.(idle := false, lastUsedAt := now, timer := None)))
  }

  function AcquireStep(
      cfg: Config, s: State, sid: SessionId, now: int, requested: Option<int>, alive: bool,
      newId: Option<ContainerId>): State
  {
    if newId.Some? && newId.value in s.started then s
    else
      var s1 := s.(locks := s.locks + {sid}, idleTimeouts := s.idleTimeouts[sid := IdleTimeoutFor(cfg, requested)]);
      Served(cfg, s1, sid, now, alive, newId)
  }

  function IdleTimeout(cfg: Config, s: State, sid: SessionId): int {
    if sid in s.idleTimeouts then s.idleTimeouts[sid] else cfg.defaultIdleTimeoutSec
  }

  function ReleaseStep(cfg: Config, s: State, sid: SessionId, now: int): State {
    match Find(s.pool, sid)
    case None => Unlock(s, sid)
    case Some(e) =>
      if e.ephemeral || IdleTimeout(cfg, s, sid) == 0 then Unlock(StopAndRemove(s, sid, e.container), sid)
      else
        Unlock(s, sid)
          .(pool := Replaced(s.pool, e.(idle := true, lastUsedAt := now, timer := Some(s.nextTimer))),
            timers := s.timers[s.nextTimer := Timer(sid, e.container)],
            nextTimer := s.nextTimer + 1)
  }

  function EvictStep(s: State, sid: SessionId): State {
    match Find(s.pool, sid)
    case None => s
    case Some(e) => Unlock(Remove(s, e), sid)
  }

  /** The timer acts on the session and the container it was armed for. */
  function TimerStep(s: State, id: TimerId): State {
    if id !in s.timers then s
    else StopAndRemove(s.(timers := s.timers - {id}), s.timers[id].session, s.timers[id].container)
  }

  predicate Unhealthy(cfg: Config, e: Entry, now: int, dead: set<ContainerId>) {
    e.idle && (TooOld(cfg, e, now) || e.container in dead)
  }

  function HealthScan(cfg: Config, s: State, entries: seq<Entry>, now: int, dead: set<ContainerId>): State {
    if entries == [] then s
    else
      var s1 := HealthScan(cfg, s, entries[..|entries| - 1], now, dead);
      var e := entries[|entries| - 1];
      if Unhealthy(cfg, e, now, dead) then Remove(s1, e) else s1
  }

  /** The timers of `entries`, none of which fires any more. */
  function TimersOf(entries: seq<Entry>): set<TimerId> {
    set e | e in entries && e.timer.Some? :: e.timer.value
  }

  function DrainStep(s: State): State {
    s.(pool := [], idleTimeouts := map[], locks := {},
       timers := s.timers - TimersOf(s.pool), stopped := s.stopped + Containers(s.pool))
  }

  function Apply(cfg: Config, s: State, e: Event): State {
    match e
    case Acquire(sid, now, requested, alive, newId) => AcquireStep(cfg, s, sid, now, requested, alive, newId)
    case Release(sid, now) => ReleaseStep(cfg, s, sid, now)
    case Evict(sid) => EvictStep(s, sid)
    case TimerFires(id) => TimerStep(s, id)
    case HealthCheck(now, dead) => HealthScan(cfg, s, s.pool, now, dead)
    case DrainAll => DrainStep(s)
  }

  function Run(cfg: Config, s: State, events: seq<Event>): State {
    if events == [] then s
    else Apply(cfg, Run(cfg, s, events[..|events| - 1]), events[|events| - 1])
  }
}
