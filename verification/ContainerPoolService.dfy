/** The pool service: each method is one operation taken as atomic, proved against its step. */
module ContainerPoolService {
  import opened Util
  import opened ContainerPool
  import opened ContainerPoolSafety

  datatype PoolStats = PoolStats(active: nat, idle: nat, ephemeral: nat, total: nat)

  class ContainerPoolService {
    const config: Config
    var pool: seq<Entry>
    var idleTimeouts: map<SessionId, int>
    var locks: set<SessionId>
    /** The armed timers of the runtime. */
    var timers: map<TimerId, Timer>
    var nextTimer: TimerId
    ghost var started: set<ContainerId>
    ghost var stopped: set<ContainerId>
    ghost var events: seq<Event>

    ghost function View(): State
      reads this
    {
      State(pool, idleTimeouts, locks, timers, nextTimer, started, stopped)
    }

    /** The fields are what the operations so far make of an empty pool. */
    ghost predicate Valid()
      reads this
    {
      View() == Run(config, INITIAL, events)
    }

    constructor (config: Config)
      ensures Valid() && events == [] && this.config == config
    {
      this.config := config;
      pool, idleTimeouts, locks, timers, nextTimer := [], map[], {}, map[], 0;
      started, stopped, events := {}, {}, [];
    }

    /** The session's container is this one, in use. */
    ghost predicate Holds(sid: SessionId, container: ContainerId)
      reads this
    {
      && Find(pool, sid).Some?
      && Find(pool, sid).value.container == container && !Find(pool, sid).value.idle
    }

    ghost method Record(e: Event, before: State)
      requires before == Run(config, INITIAL, events) && View() == Apply(config, before, e)
      modifies this`events
      ensures Valid() && events == old(events) + [e]
    {
      assert (events + [e])[..|events|] == events;
      events := events + [e];
    }

    method Disarm(e: Entry)
      modifies this`timers
      ensures View() == ClearTimer(old(View()), e)
    {
      if e.timer.Some? {
        timers := timers - {e.timer.value};
      }
    }

    /** Forget the session and ask its container to stop; a failing stop is only logged. */
    method StopAndRemove(sid: SessionId, container: ContainerId)
      modifies this`pool, this`idleTimeouts, this`stopped
      ensures View() == ContainerPool.StopAndRemove(old(View()), sid, container)
    {
      pool := Without(pool, sid);
      idleTimeouts := idleTimeouts - {sid};
      stopped := stopped + {container};
    }

    method CountEntries(ephemeral: bool) returns (n: nat)
      ensures n == Count(pool, ephemeral)
    {
      n := 0;
      for i := 0 to |pool|
        invariant n == Count(pool[..i], ephemeral)
      {
        assert pool[..i + 1][..i] == pool[..i];
        if pool[i].ephemeral == ephemeral {
          n := n + 1;
        }
      }
      assert pool[..|pool|] == pool;
    }

    /** Evict the idle entry used least recently, if there is one. */
    method EvictLRU() returns (evicted: bool)
      modifies this`pool, this`idleTimeouts, this`stopped, this`timers
      ensures evicted == Lru(old(pool)).Some?
      ensures View() == if evicted then Remove(old(View()), Lru(old(pool)).value) else old(View())
    {
      var oldest: Option<Entry> := None;
      for i := 0 to |pool|
        invariant oldest == Lru(pool[..i])
      {
        assert pool[..i + 1][..i] == pool[..i];
        var entry := pool[i];
        if entry.idle && (oldest == None || entry.lastUsedAt < oldest.value.lastUsedAt) {
          oldest := Some(entry);
        }
      }
      assert pool[..|pool|] == pool;
      if oldest == None {
        return false;
      }
      Disarm(oldest.value);
      StopAndRemove(oldest.value.session, oldest.value.container);
      return true;
    }

    method Launch(sid: SessionId, now: int, newId: Option<ContainerId>, ephemeral: bool)
      modifies this`pool, this`locks, this`started
      ensures View() == ContainerPool.Launch(old(View()), sid, now, newId, ephemeral)
      ensures newId.Some? ==> Holds(sid, newId.value)
    {
      if newId == None {
        locks := locks - {sid};
      } else {
        PutIsFound(pool, Entry(sid, newId.value, now, false, now, None, ephemeral));
        pool := Put(pool, Entry(sid, newId.value, now, false, now, None, ephemeral));
        started := started + {newId.value};
      }
    }

    /** Start a container in a free or freed slot, as an ephemeral one, or fail; failing frees the lock. */
    method StartFresh(sid: SessionId, now: int, newId: Option<ContainerId>) returns (container: Option<ContainerId>)
      modifies this`pool, this`idleTimeouts, this`locks, this`timers, this`started, this`stopped
      ensures View() == ContainerPool.StartFresh(config, old(View()), sid, now, newId)
      ensures container == if HasRoom(config, old(pool)) then newId else None
      ensures container.Some? ==> Holds(sid, newId.value)
      ensures container == None && Find(old(pool), sid) == None ==> Find(pool, sid) == None && sid !in locks
    {
      LruIsLeastRecent(pool);
      if Find(pool, sid) == None && (newId == None || !HasRoom(config, pool)) {
        NoRoomNoContainer(config, View(), sid, now, newId);
      }
      var nonEphemeralCount := CountEntries(false);
      var ephemeralCount := CountEntries(true);
      var isEphemeral := false;
      if nonEphemeralCount >= config.maxWarmContainers {
        var evicted := EvictLRU();
        if !evicted {
          isEphemeral := true;
          if ephemeralCount >= config.maxEphemeralContainers {
            locks := locks - {sid};
            return None;
          }
        }
      }
      Launch(sid, now, newId, isEphemeral);
      return newId;
    }

    method Reuse(e: Entry, now: int)
      requires Find(pool, e.session) == Some(e)
      modifies this`pool
      ensures pool == Replaced(old(pool), e.(idle := false, lastUsedAt := now, timer := None))
      ensures Holds(e.session, e.container)
    {
      ReplacedFind(pool, e.(idle := false, lastUsedAt := now, timer := None), e.session);
      pool := Replaced(pool, e.(idle := false, lastUsedAt := now, timer := None));
    }

    /** Replace the container if it is old or dead, else take it out of its idle time. */
    method UseOrReplace(e: Entry, now: int, alive: bool, newId: Option<ContainerId>)
      returns (container: Option<ContainerId>)
      requires Find(pool, e.session) == Some(e)
      modifies this`pool, this`idleTimeouts, this`locks, this`timers, this`started, this`stopped
      ensures View() ==
                if TooOld(config, e, now) || !alive
                then ContainerPool.StartFresh(config, Remove(old(View()), e), e.session, now, newId)
                else ContainerPool.ClearTimer(old(View()), e)
                       .(pool := Replaced(old(pool), e.(idle := false, lastUsedAt := now, timer := None)))
      ensures container ==
                if now - e.startedAt <= config.maxContainerLifetimeSec * 1000 && alive then Some(e.container)
                else if HasRoom(config, Without(old(pool), e.session)) then newId
                else None
      ensures if container.Some? then Holds(e.session, container.value)
              else Find(pool, e.session) == None && e.session !in locks
    {
      Disarm(e);
      var lifetimeMs := now - e.startedAt;
      if lifetimeMs > config.maxContainerLifetimeSec * 1000 || !alive {
        WithoutStaysAbsent(pool, e.session, e.session);
        StopAndRemove(e.session, e.container);
        container := StartFresh(e.session, now, newId);
      } else {
        Reuse(e, now);
        container := Some(e.container);
      }
    }

    /**
     * Reuse the session's container if it is young and alive, else replace it, else start one. The caller
     * gets one unless starting failed or there is no room; then the session has none and is not locked.
     */
    method AcquireContainer(sid: SessionId, now: int, requested: Option<int>, alive: bool, newId: Option<ContainerId>)
      returns (container: Option<ContainerId>)
      requires Valid() && (newId.Some? ==> newId.value !in started)
      modifies this
      ensures Valid() && events == old(events) + [Acquire(sid, now, requested, alive, newId)]
      ensures View() == Apply(config, old(View()), Acquire(sid, now, requested, alive, newId))
      ensures container == Due(old(pool), sid, now, alive, newId)
      ensures if container.Some? then Holds(sid, container.value) else Find(pool, sid) == None && sid !in locks
    {
      locks := locks + {sid};
      idleTimeouts := idleTimeouts[sid := IdleTimeoutFor(config, requested)];
      container := Serve(sid, now, alive, newId);
      Record(Acquire(sid, now, requested, alive, newId), old(View()));
    }

    method Serve(sid: SessionId, now: int, alive: bool, newId: Option<ContainerId>)
      returns (container: Option<ContainerId>)
      modifies this`pool, this`idleTimeouts, this`locks, this`timers, this`started, this`stopped
      ensures View() == Served(config, old(View()), sid, now, alive, newId)
      ensures container == Due(old(pool), sid, now, alive, newId)
      ensures if container.Some? then Holds(sid, container.value) else Find(pool, sid) == None && sid !in locks
    {
      var existing := Find(pool, sid);
      if existing.Some? {
        FindIsMember(pool, sid);
        container := UseOrReplace(existing.value, now, alive, newId);
      } else {
        WithoutAbsent(pool, sid);
        container := StartFresh(sid, now, newId);
      }
    }

    /** The container a caller is due: its own while young and alive, else a new one if there is room. */
    ghost function Due(pool: seq<Entry>, sid: SessionId, now: int, alive: bool, newId: Option<ContainerId>)
      : Option<ContainerId>
    {
      var found := Find(pool, sid);
      if found.Some? && now - found.value.startedAt <= config.maxContainerLifetimeSec * 1000 && alive
      then Some(found.value.container)
      else if HasRoom(config, Without(pool, sid)) then newId
      else None
    }

    /** Give the container back: stop it, or keep it warm under an idle timer. */
    method ReleaseContainer(sid: SessionId, now: int)
      requires Valid()
      modifies this
      ensures Valid() && events == old(events) + [Release(sid, now)]
      ensures View() == Apply(config, old(View()), Release(sid, now))
      ensures Released(config, old(View()), View(), sid, now)
    {
      ReleaseDoes(config, View(), sid, now);
      var entry := Find(pool, sid);
      if entry.Some? {
        var e := entry.value;
        FindIsMember(pool, sid);
        var idleTimeout := if sid in idleTimeouts then idleTimeouts[sid] else config.defaultIdleTimeoutSec;
        if e.ephemeral || idleTimeout == 0 {
          StopAndRemove(sid, e.container);
        } else {
          timers := timers[nextTimer := Timer(sid, e.container)];
          pool := Replaced(pool, e.(idle := true, lastUsedAt := now, timer := Some(nextTimer)));
          nextTimer := nextTimer + 1;
        }
      }
      locks := locks - {sid};
      Record(Release(sid, now), old(View()));
    }

    method EvictSession(sid: SessionId)
      requires Valid()
      modifies this
      ensures Valid() && events == old(events) + [Evict(sid)]
      ensures View() == Apply(config, old(View()), Evict(sid))
      ensures Find(pool, sid) == None
      ensures match Find(old(pool), sid)
              case None => View() == old(View())
              case Some(e) =>
                && e.container in stopped && sid !in locks
                && (e.timer.Some? ==> e.timer.value !in timers)
    {
      WithoutStaysAbsent(pool, sid, sid);
      var entry := Find(pool, sid);
      if entry.Some? {
        FindIsMember(pool, sid);
        Disarm(entry.value);
        StopAndRemove(sid, entry.value.container);
        locks := locks - {sid};
      }
      Record(Evict(sid), old(View()));
    }

    method OnIdleTimer(id: TimerId)
      requires Valid() && id in timers
      modifies this
      ensures Valid() && events == old(events) + [TimerFires(id)]
      ensures View() == Apply(config, old(View()), TimerFires(id))
      ensures var t := old(timers)[id];
              Find(pool, t.session) == None && t.container in stopped && id !in timers
    {
      WithoutStaysAbsent(pool, timers[id].session, timers[id].session);
      var t := timers[id];
      timers := timers - {id};
      StopAndRemove(t.session, t.container);
      Record(TimerFires(id), old(View()));
    }

    /** Remove the idle entries that are too old or dead; `dead` answers the liveness probes. */
    method RunHealthCheck(now: int, dead: set<ContainerId>)
      requires Valid()
      modifies this
      ensures Valid() && events == old(events) + [HealthCheck(now, dead)]
      ensures View() == Apply(config, old(View()), HealthCheck(now, dead))
    {
      var entries := pool;
      for i := 0 to |entries|
        invariant View() == HealthScan(config, old(View()), entries[..i], now, dead) && events == old(events)
      {
        assert entries[..i + 1][..i] == entries[..i];
        var entry := entries[i];
        if entry.idle {
          var lifetimeMs := now - entry.startedAt;
          if lifetimeMs > config.maxContainerLifetimeSec * 1000 || entry.container in dead {
            Disarm(entry);
            StopAndRemove(entry.session, entry.container);
          }
        }
      }
      assert entries[..|entries|] == entries;
      Record(HealthCheck(now, dead), old(View()));
    }

    method StopAll(entries: seq<Entry>)
      modifies this`timers, this`stopped
      ensures timers == old(timers) - TimersOf(entries) && stopped == old(stopped) + Containers(entries)
    {
      for i := 0 to |entries|
        invariant timers == old(timers) - TimersOf(entries[..i])
        invariant stopped == old(stopped) + Containers(entries[..i])
      {
        assert entries[..i + 1] == entries[..i] + [entries[i]];
        DrainOne(entries[..i], entries[i]);
        if entries[i].timer.Some? {
          timers := timers - {entries[i].timer.value};
        }
        stopped := stopped + {entries[i].container};
      }
      assert entries[..|entries|] == entries;
    }

    method Drain() returns (drained: nat)
      requires Valid()
      modifies this
      ensures Valid() && events == old(events) + [DrainAll] && drained == |old(pool)|
      ensures View() == Apply(config, old(View()), DrainAll)
    {
      var entries := pool;
      pool, idleTimeouts := [], map[];
      StopAll(entries);
      locks := {};
      drained := |entries|;
      Record(DrainAll, old(View()));
    }

    /** Every entry is counted once, as ephemeral, active or idle. */
    method Stats() returns (stats: PoolStats)
      requires Valid()
      ensures stats.total == |pool| == stats.active + stats.idle + stats.ephemeral
      ensures stats.ephemeral == Count(pool, true) <= NonNeg(config.maxEphemeralContainers)
      ensures stats.active + stats.idle == Count(pool, false) <= NonNeg(config.maxWarmContainers)
    {
      var active, idle, ephemeral := 0, 0, 0;
      for i := 0 to |pool|
        invariant active + idle + ephemeral == i
        invariant ephemeral == Count(pool[..i], true) && active + idle == Count(pool[..i], false)
      {
        assert pool[..i + 1][..i] == pool[..i];
        if pool[i].ephemeral {
          ephemeral := ephemeral + 1;
        } else if !pool[i].idle {
          active := active + 1;
        } else {
          idle := idle + 1;
        }
      }
      assert pool[..|pool|] == pool;
      PoolStaysBounded(config, events);
      return PoolStats(active, idle, ephemeral, |pool|);
    }
  }

  lemma DrainOne(entries: seq<Entry>, e: Entry)
    ensures Containers(entries + [e]) == Containers(entries) + {e.container}
    ensures TimersOf(entries + [e]) == TimersOf(entries) + if e.timer.Some? then {e.timer.value} else {}
  {
    forall c | c in Containers(entries) + {e.container} ensures c in Containers(entries + [e]) {
      if c in Containers(entries) {
        var x :| x in entries && x.container == c;
        assert x in entries + [e];
      } else {
        assert e in entries + [e];
      }
    }
    var more := TimersOf(entries) + if e.timer.Some? then {e.timer.value} else {};
    forall t | t in more ensures t in TimersOf(entries + [e]) {
      if t in TimersOf(entries) {
        var x :| x in entries && x.timer == Some(t);
        assert x in entries + [e];
      } else {
        assert e in entries + [e];
      }
    }
  }
}
