/** Capacity, idleness and the fate of every container over any sequence of atomic pool operations. */
module ContainerPoolSafety {
  import opened Util
  import opened ContainerPool

  // ------------------------------------------------------------ the map

  /** One entry per session. */
  predicate Distinct(pool: seq<Entry>) {
    pool == [] || (Distinct(pool[..|pool| - 1]) && Find(pool[..|pool| - 1], pool[|pool| - 1].session) == None)
  }

  lemma {:induction false} FindIsMember(pool: seq<Entry>, sid: SessionId)
    ensures Find(pool, sid).Some? ==> Find(pool, sid).value in pool && Find(pool, sid).value.session == sid
    ensures Find(pool, sid) == None ==> forall e :: e in pool ==> e.session != sid
  {
    if pool != [] {
      FindIsMember(pool[..|pool| - 1], sid);
    }
  }

  lemma {:induction false} MemberIsFound(pool: seq<Entry>, e: Entry)
    requires Distinct(pool) && e in pool
    ensures Find(pool, e.session) == Some(e)
  {
    var init := pool[..|pool| - 1];
    if e in init {
      MemberIsFound(init, e);
      FindIsMember(init, pool[|pool| - 1].session);
    }
  }

  lemma {:induction false} WithoutMembers(pool: seq<Entry>, sid: SessionId)
    ensures forall e :: e in Without(pool, sid) <==> e in pool && e.session != sid
  {
    if pool != [] {
      WithoutMembers(pool[..|pool| - 1], sid);
    }
  }

  lemma NotFound(pool: seq<Entry>, sid: SessionId)
    requires forall e :: e in pool ==> e.session != sid
    ensures Find(pool, sid) == None
  {
    FindIsMember(pool, sid);
  }

  lemma {:induction false} WithoutDistinct(pool: seq<Entry>, sid: SessionId)
    requires Distinct(pool)
    ensures Distinct(Without(pool, sid))
  {
    if pool != [] {
      var init, last := pool[..|pool| - 1], pool[|pool| - 1];
      WithoutDistinct(init, sid);
      if last.session != sid {
        FindIsMember(init, last.session);
        WithoutMembers(init, sid);
        NotFound(Without(init, sid), last.session);
        assert Without(pool, sid)[..|Without(init, sid)|] == Without(init, sid);
      } else {
        assert Without(pool, sid) == Without(init, sid);
      }
    }
  }

  lemma {:induction false} WithoutCount(pool: seq<Entry>, sid: SessionId, b: bool)
    requires Distinct(pool)
    ensures Count(Without(pool, sid), b)
         == Count(pool, b) - match Find(pool, sid) case None => 0 case Some(e) => if e.ephemeral == b then 1 else 0
  {
    if pool != [] {
      var init, last := pool[..|pool| - 1], pool[|pool| - 1];
      WithoutCount(init, sid, b);
      if last.session == sid {
        assert Without(pool, sid) == Without(init, sid);
      } else {
        assert Without(pool, sid)[..|Without(init, sid)|] == Without(init, sid);
      }
    }
  }

  lemma {:induction false} ReplacedMembers(pool: seq<Entry>, e: Entry)
    ensures forall x :: x in Replaced(pool, e) <==>
              (x in pool && x.session != e.session) || (x == e && Find(pool, e.session).Some?)
    ensures |Replaced(pool, e)| == |pool|
  {
    if pool != [] {
      ReplacedMembers(pool[..|pool| - 1], e);
    }
  }

  lemma {:induction false} ReplacedFind(pool: seq<Entry>, e: Entry, sid: SessionId)
    ensures Find(Replaced(pool, e), sid)
         == if sid != e.session then Find(pool, sid) else if Find(pool, sid) == None then None else Some(e)
  {
    if pool != [] {
      var init := pool[..|pool| - 1];
      ReplacedFind(init, e, sid);
      assert Replaced(pool, e)[..|pool| - 1] == Replaced(init, e) by { ReplacedMembers(init, e); }
    }
  }

  lemma {:induction false} ReplacedDistinct(pool: seq<Entry>, e: Entry)
    requires Distinct(pool)
    ensures Distinct(Replaced(pool, e))
  {
    if pool != [] {
      var init, last := pool[..|pool| - 1], pool[|pool| - 1];
      ReplacedDistinct(init, e);
      ReplacedMembers(init, e);
      assert Replaced(pool, e)[..|pool| - 1] == Replaced(init, e);
      ReplacedFind(init, e, last.session);
    }
  }

  lemma {:induction false} ReplacedCount(pool: seq<Entry>, e: Entry, b: bool)
    requires forall x :: x in pool && x.session == e.session ==> x.ephemeral == e.ephemeral
    ensures Count(Replaced(pool, e), b) == Count(pool, b)
  {
    if pool != [] {
      var init := pool[..|pool| - 1];
      ReplacedCount(init, e, b);
      ReplacedMembers(init, e);
      assert Replaced(pool, e)[..|pool| - 1] == Replaced(init, e);
    }
  }

  // ------------------------------------------------------------ least recently used

  /** Eviction picks an idle entry that no idle entry was used before, or finds that none is idle. */
  lemma {:induction false} LruIsLeastRecent(pool: seq<Entry>)
    ensures match Lru(pool)
            case None => forall e :: e in pool ==> !e.idle
            case Some(oldest) =>
              && oldest in pool && oldest.idle
              && forall e :: e in pool && e.idle ==> oldest.lastUsedAt <= e.lastUsedAt
  {
    if pool != [] {
      LruIsLeastRecent(pool[..|pool| - 1]);
    }
  }

  // ------------------------------------------------------------ room for a container

  /** There is a free warm slot, an idle entry to evict, or room for an ephemeral container. */
  predicate HasRoom(cfg: Config, pool: seq<Entry>) {
    || Count(pool, false) < cfg.maxWarmContainers
    || (exists e :: e in pool && e.idle)
    || Count(pool, true) < cfg.maxEphemeralContainers
  }

  lemma {:induction false} WithoutAbsent(pool: seq<Entry>, sid: SessionId)
    requires Find(pool, sid) == None
    ensures Without(pool, sid) == pool
  {
    if pool != [] {
      WithoutAbsent(pool[..|pool| - 1], sid);
    }
  }

  /** A start without room, or one that fails, leaves the session without a container and unlocked. */
  lemma NoRoomNoContainer(cfg: Config, s: State, sid: SessionId, now: int, newId: Option<ContainerId>)
    requires Find(s.pool, sid) == None && (newId == None || !HasRoom(cfg, s.pool))
    ensures var s' := StartFresh(cfg, s, sid, now, newId);
            Find(s'.pool, sid) == None && sid !in s'.locks && s'.started == s.started
  {
    LruIsLeastRecent(s.pool);
    if Lru(s.pool).Some? {
      WithoutStaysAbsent(s.pool, Lru(s.pool).value.session, sid);
    }
  }

  /**
   * A released container is stopped if it is ephemeral or its session wants no idle time; else it stays
   * under a timer of its own. Either way the session is unlocked.
   */
  predicate Released(cfg: Config, s: State, s': State, sid: SessionId, now: int) {
    && sid !in s'.locks
    && match Find(s.pool, sid)
       case None => s' == s.(locks := s.locks - {sid})
       case Some(e) =>
         var timeout := if sid in s.idleTimeouts then s.idleTimeouts[sid] else cfg.defaultIdleTimeoutSec;
         if e.ephemeral || timeout == 0 then
           Find(s'.pool, sid) == None && e.container in s'.stopped && s'.timers == s.timers
         else
           && Find(s'.pool, sid) == Some(e.(idle := true, lastUsedAt := now, timer := Some(s.nextTimer)))
           && s'.timers == s.timers[s.nextTimer := Timer(sid, e.container)] && s'.stopped == s.stopped
  }

  lemma ReleaseDoes(cfg: Config, s: State, sid: SessionId, now: int)
    ensures Released(cfg, s, ReleaseStep(cfg, s, sid, now), sid, now)
  {
    FindIsMember(s.pool, sid);
    WithoutStaysAbsent(s.pool, sid, sid);
    if Find(s.pool, sid).Some? {
      ReplacedFind(
        s.pool, Find(s.pool, sid).value.(idle := true, lastUsedAt := now, timer := Some(s.nextTimer)), sid);
    }
  }

  // ------------------------------------------------------------ capacity

  predicate EntryOk(e: Entry) {
    (e.ephemeral ==> !e.idle) && (e.timer.Some? <==> e.idle)
  }

  /** The hidden invariant: an ephemeral entry is never idle, and an entry is idle iff it has a timer. */
  predicate IdleOk(pool: seq<Entry>) {
    forall e :: e in pool ==> EntryOk(e)
  }

  predicate Bounded(cfg: Config, pool: seq<Entry>) {
    Count(pool, false) <= NonNeg(cfg.maxWarmContainers) && Count(pool, true) <= NonNeg(cfg.maxEphemeralContainers)
  }

  predicate Shape(cfg: Config, pool: seq<Entry>) {
    Distinct(pool) && IdleOk(pool) && Bounded(cfg, pool)
  }

  lemma WithoutShape(cfg: Config, pool: seq<Entry>, sid: SessionId)
    requires Shape(cfg, pool)
    ensures Shape(cfg, Without(pool, sid))
  {
    WithoutDistinct(pool, sid);
    WithoutMembers(pool, sid);
    WithoutCount(pool, sid, false);
    WithoutCount(pool, sid, true);
  }

  lemma ReplacedShape(cfg: Config, pool: seq<Entry>, e: Entry, was: Entry)
    requires Shape(cfg, pool) && EntryOk(e)
    requires Find(pool, e.session) == Some(was) && was.ephemeral == e.ephemeral
    ensures Shape(cfg, Replaced(pool, e))
  {
    FindIsMember(pool, e.session);
    forall x | x in pool && x.session == e.session ensures x == was {
      MemberIsFound(pool, x);
    }
    ReplacedDistinct(pool, e);
    ReplacedMembers(pool, e);
    ReplacedCount(pool, e, false);
    ReplacedCount(pool, e, true);
  }

  lemma AppendShape(cfg: Config, pool: seq<Entry>, e: Entry)
    requires Shape(cfg, pool) && EntryOk(e) && Find(pool, e.session) == None
    requires Count(pool, e.ephemeral) < if e.ephemeral then cfg.maxEphemeralContainers else cfg.maxWarmContainers
    ensures Shape(cfg, pool + [e])
  {
    assert (pool + [e])[..|pool|] == pool;
  }

  /** An evicted entry is not ephemeral, so it frees a slot among the others. */
  lemma EvictionFreesASlot(cfg: Config, pool: seq<Entry>)
    requires Shape(cfg, pool) && Lru(pool).Some?
    ensures !Lru(pool).value.ephemeral
    ensures Count(Without(pool, Lru(pool).value.session), false) == Count(pool, false) - 1 < cfg.maxWarmContainers
  {
    var e := Lru(pool).value;
    LruIsLeastRecent(pool);
    MemberIsFound(pool, e);
    WithoutCount(pool, e.session, false);
  }

  lemma WithoutStaysAbsent(pool: seq<Entry>, sid: SessionId, gone: SessionId)
    requires Find(pool, gone) == None || sid == gone
    ensures Find(Without(pool, sid), gone) == None
  {
    FindIsMember(pool, gone);
    WithoutMembers(pool, sid);
    NotFound(Without(pool, sid), gone);
  }

  lemma StartKeepsShape(cfg: Config, s: State, sid: SessionId, now: int, newId: Option<ContainerId>)
    requires Shape(cfg, s.pool) && Find(s.pool, sid) == None
    ensures Shape(cfg, StartFresh(cfg, s, sid, now, newId).pool)
  {
    if newId.Some? {
      if Count(s.pool, false) < cfg.maxWarmContainers {
        AppendShape(cfg, s.pool, Entry(sid, newId.value, now, false, now, None, false));
      } else if Lru(s.pool).Some? {
        var e := Lru(s.pool).value;
        EvictionFreesASlot(cfg, s.pool);
        WithoutShape(cfg, s.pool, e.session);
        WithoutStaysAbsent(s.pool, e.session, sid);
        AppendShape(cfg, Without(s.pool, e.session), Entry(sid, newId.value, now, false, now, None, false));
      } else if Count(s.pool, true) < cfg.maxEphemeralContainers {
        AppendShape(cfg, s.pool, Entry(sid, newId.value, now, false, now, None, true));
      }
    } else if Lru(s.pool).Some? {
      WithoutShape(cfg, s.pool, Lru(s.pool).value.session);
    }
  }

  lemma AcquireKeepsShape(
      cfg: Config, s: State, sid: SessionId, now: int, requested: Option<int>, alive: bool, newId: Option<ContainerId>)
    requires Shape(cfg, s.pool)
    ensures Shape(cfg, AcquireStep(cfg, s, sid, now, requested, alive, newId).pool)
  {
    if newId == None || newId.value !in s.started {
      var s1 := s.(locks := s.locks + {sid}, idleTimeouts := s.idleTimeouts[sid := IdleTimeoutFor(cfg, requested)]);
      FindIsMember(s.pool, sid);
      match Find(s.pool, sid)
      case None => StartKeepsShape(cfg, s1, sid, now, newId);
      case Some(e) =>
        if TooOld(cfg, e, now) || !alive {
          WithoutShape(cfg, s.pool, sid);
          WithoutStaysAbsent(s.pool, sid, sid);
          StartKeepsShape(cfg, Remove(s1, e), sid, now, newId);
        } else {
          ReplacedShape(cfg, s.pool, e.(idle := false, lastUsedAt := now, timer := None), e);
        }
    }
  }

  lemma ReleaseKeepsShape(cfg: Config, s: State, sid: SessionId, now: int)
    requires Shape(cfg, s.pool)
    ensures Shape(cfg, ReleaseStep(cfg, s, sid, now).pool)
  {
    FindIsMember(s.pool, sid);
    match Find(s.pool, sid)
    case None =>
    case Some(e) =>
      WithoutShape(cfg, s.pool, sid);
      if !e.ephemeral {
        ReplacedShape(cfg, s.pool, e.(idle := true, lastUsedAt := now, timer := Some(s.nextTimer)), e);
      }
  }

  lemma {:induction false} HealthKeepsShape(
      cfg: Config, s: State, entries: seq<Entry>, now: int, dead: set<ContainerId>)
    requires Shape(cfg, s.pool)
    ensures Shape(cfg, HealthScan(cfg, s, entries, now, dead).pool)
  {
    if entries != [] {
      HealthKeepsShape(cfg, s, entries[..|entries| - 1], now, dead);
      WithoutShape(cfg, HealthScan(cfg, s, entries[..|entries| - 1], now, dead).pool, entries[|entries| - 1].session);
    }
  }

  lemma ApplyKeepsShape(cfg: Config, s: State, e: Event)
    requires Shape(cfg, s.pool)
    ensures Shape(cfg, Apply(cfg, s, e).pool)
  {
    match e
    case Acquire(sid, now, requested, alive, newId) => AcquireKeepsShape(cfg, s, sid, now, requested, alive, newId);
    case Release(sid, now) => ReleaseKeepsShape(cfg, s, sid, now);
    case Evict(sid) => WithoutShape(cfg, s.pool, sid); FindIsMember(s.pool, sid);
    case TimerFires(id) => if id in s.timers { WithoutShape(cfg, s.pool, s.timers[id].session); }
    case HealthCheck(now, dead) => HealthKeepsShape(cfg, s, s.pool, now, dead);
    case DrainAll =>
  }

  /**
   * Whatever operations are made, in whatever order: both capacity bounds hold, ephemeral entries are
   * never idle, an entry is idle exactly when it has a timer, and a session has at most one entry.
   */
  lemma {:induction false} PoolStaysBounded(cfg: Config, events: seq<Event>)
    ensures Shape(cfg, Run(cfg, INITIAL, events).pool)
  {
    if events != [] {
      PoolStaysBounded(cfg, events[..|events| - 1]);
      ApplyKeepsShape(cfg, Run(cfg, INITIAL, events[..|events| - 1]), events[|events| - 1]);
    }
  }

  // ------------------------------------------------------------ no container is lost

  predicate DistinctContainers(pool: seq<Entry>) {
    forall e, e' :: e in pool && e' in pool && e.container == e'.container ==> e == e'
  }

  /** Every container that was started is in the pool once, or else was asked to stop. */
  predicate Accounted(s: State) {
    && s.started == Containers(s.pool) + s.stopped
    && Containers(s.pool) !! s.stopped
    && DistinctContainers(s.pool)
  }

  predicate ArmedFor(s: State, e: Entry) {
    e.timer.Some? ==> e.timer.value in s.timers && s.timers[e.timer.value] == Timer(e.session, e.container)
  }

  /** The running timer `id` belongs to an entry of the pool. */
  predicate Owned(s: State, id: TimerId)
    requires id in s.timers
  {
    && id < s.nextTimer
    && Find(s.pool, s.timers[id].session).Some?
    && Find(s.pool, s.timers[id].session).value.timer == Some(id)
  }

  /** The running timers are exactly those of the idle entries. */
  predicate TimersExact(s: State) {
    && (forall e :: e in s.pool ==> ArmedFor(s, e))
    && (forall id :: id in s.timers ==> Owned(s, id))
  }

  predicate Sound(s: State) {
    Distinct(s.pool) && IdleOk(s.pool) && Accounted(s) && TimersExact(s)
  }

  lemma FindWithout(pool: seq<Entry>, sid: SessionId, other: SessionId)
    requires Distinct(pool)
    ensures Find(Without(pool, sid), other) == if other == sid then None else Find(pool, other)
  {
    WithoutMembers(pool, sid);
    WithoutDistinct(pool, sid);
    FindIsMember(pool, other);
    FindIsMember(Without(pool, sid), other);
    if other != sid && Find(pool, other).Some? {
      MemberIsFound(Without(pool, sid), Find(pool, other).value);
    }
  }

  lemma RemoveKeepsTimers(s: State, e: Entry)
    requires Sound(s) && e in s.pool
    ensures TimersExact(Remove(s, e))
  {
    var s' := Remove(s, e);
    MemberIsFound(s.pool, e);
    WithoutMembers(s.pool, e.session);
    forall id | id in s'.timers ensures Owned(s', id) {
      assert Owned(s, id);
      FindIsMember(s.pool, s.timers[id].session);
      FindWithout(s.pool, e.session, s.timers[id].session);
    }
    forall x | x in s'.pool ensures ArmedFor(s', x) {
      assert ArmedFor(s, x) && ArmedFor(s, e);
    }
  }

  lemma WithoutContainers(pool: seq<Entry>, e: Entry)
    requires Distinct(pool) && DistinctContainers(pool) && e in pool
    ensures Containers(Without(pool, e.session)) == Containers(pool) - {e.container}
    ensures DistinctContainers(Without(pool, e.session))
  {
    WithoutMembers(pool, e.session);
    forall x | x in pool && x.session == e.session ensures x == e {
      MemberIsFound(pool, x);
      MemberIsFound(pool, e);
    }
  }

  lemma RemoveKeepsSound(s: State, e: Entry)
    requires Sound(s) && e in s.pool
    ensures Sound(Remove(s, e))
  {
    RemoveKeepsTimers(s, e);
    WithoutDistinct(s.pool, e.session);
    WithoutMembers(s.pool, e.session);
    WithoutContainers(s.pool, e);
  }

  /** Bookkeeping that touches neither the pool nor the timers. */
  lemma AsideKeepsSound(s: State, locks: set<SessionId>, idleTimeouts: map<SessionId, int>)
    requires Sound(s)
    ensures Sound(s.(locks := locks, idleTimeouts := idleTimeouts))
  {
    var s' := s.(locks := locks, idleTimeouts := idleTimeouts);
    forall e | e in s'.pool ensures ArmedFor(s', e) {
      assert ArmedFor(s, e);
    }
    forall id | id in s'.timers ensures Owned(s', id) {
      assert Owned(s, id);
    }
  }

  lemma UnlockKeepsSound(s: State, sid: SessionId)
    requires Sound(s)
    ensures Sound(Unlock(s, sid))
  {
    AsideKeepsSound(s, s.locks - {sid}, s.idleTimeouts);
  }

  lemma {:induction false} FindAppended(pool: seq<Entry>, e: Entry, sid: SessionId)
    ensures Find(pool + [e], sid) == if e.session == sid then Some(e) else Find(pool, sid)
  {
    assert (pool + [e])[..|pool|] == pool;
  }

  lemma PutIsFound(pool: seq<Entry>, e: Entry)
    ensures Find(Put(pool, e), e.session) == Some(e)
  {
    FindAppended(pool, e, e.session);
    ReplacedFind(pool, e, e.session);
  }

  lemma AppendKeepsSound(s: State, e: Entry)
    requires Sound(s) && Find(s.pool, e.session) == None && e.timer == None && !e.idle
    requires e.container !in s.started
    ensures Sound(s.(pool := s.pool + [e], started := s.started + {e.container}))
  {
    var s' := s.(pool := s.pool + [e], started := s.started + {e.container});
    AppendedShape(s.pool, e);
    AppendedContainers(s.pool, e);
    AppendedTimers(s, s', e);
  }

  lemma AppendedShape(pool: seq<Entry>, e: Entry)
    requires Distinct(pool) && IdleOk(pool) && Find(pool, e.session) == None && EntryOk(e)
    ensures Distinct(pool + [e]) && IdleOk(pool + [e])
  {
    assert (pool + [e])[..|pool|] == pool;
  }

  lemma AppendedTimers(s: State, s': State, e: Entry)
    requires TimersExact(s) && Find(s.pool, e.session) == None && e.timer == None
    requires s'.pool == s.pool + [e] && s'.timers == s.timers && s'.nextTimer == s.nextTimer
    ensures TimersExact(s')
  {
    forall x | x in s'.pool ensures ArmedFor(s', x) {
      assert x == e || ArmedFor(s, x);
    }
    forall id | id in s'.timers ensures Owned(s', id) {
      assert Owned(s, id);
      FindAppended(s.pool, e, s.timers[id].session);
    }
  }

  lemma AppendedContainers(pool: seq<Entry>, e: Entry)
    requires DistinctContainers(pool) && e.container !in Containers(pool)
    ensures Containers(pool + [e]) == Containers(pool) + {e.container} && DistinctContainers(pool + [e])
  {
    forall x, y | x in pool + [e] && y in pool + [e] && x.container == y.container ensures x == y {
      assert (x in pool || x == e) && (y in pool || y == e);
      assert x in pool ==> x.container in Containers(pool);
      assert y in pool ==> y.container in Containers(pool);
    }
    forall c | c in Containers(pool) + {e.container} ensures c in Containers(pool + [e]) {
      if c in Containers(pool) {
        var x :| x in pool && x.container == c;
        assert x in pool + [e];
      } else {
        assert e in pool + [e];
      }
    }
  }

  lemma LaunchKeepsSound(s: State, sid: SessionId, now: int, newId: Option<ContainerId>, ephemeral: bool)
    requires Sound(s) && Find(s.pool, sid) == None && (newId.Some? ==> newId.value !in s.started)
    ensures Sound(Launch(s, sid, now, newId, ephemeral))
  {
    if newId == None {
      UnlockKeepsSound(s, sid);
    } else {
      AppendKeepsSound(s, Entry(sid, newId.value, now, false, now, None, ephemeral));
    }
  }

  lemma StartKeepsSound(cfg: Config, s: State, sid: SessionId, now: int, newId: Option<ContainerId>)
    requires Sound(s) && Find(s.pool, sid) == None && (newId.Some? ==> newId.value !in s.started)
    ensures Sound(StartFresh(cfg, s, sid, now, newId))
  {
    if Count(s.pool, false) < cfg.maxWarmContainers {
      LaunchKeepsSound(s, sid, now, newId, false);
    } else if Lru(s.pool).Some? {
      var e := Lru(s.pool).value;
      LruIsLeastRecent(s.pool);
      RemoveKeepsSound(s, e);
      FindWithout(s.pool, e.session, sid);
      LaunchKeepsSound(Remove(s, e), sid, now, newId, false);
    } else {
      UnlockKeepsSound(s, sid);
      LaunchKeepsSound(s, sid, now, newId, true);
    }
  }

  /** Replacing an entry by one with another timer, when the timers follow. */
  lemma ReplaceKeepsSound(s: State, s': State, e: Entry, e': Entry)
    requires Sound(s) && e in s.pool && e'.session == e.session && e'.container == e.container && EntryOk(e')
    requires s'.pool == Replaced(s.pool, e') && s'.started == s.started && s'.stopped == s.stopped
    requires s'.nextTimer >= s.nextTimer
    requires forall id :: id in s'.timers <==> (id in s.timers && e.timer != Some(id)) || e'.timer == Some(id)
    requires forall id :: id in s'.timers && e'.timer != Some(id) ==> s'.timers[id] == s.timers[id]
    requires e'.timer.Some? ==>
               && s.nextTimer <= e'.timer.value < s'.nextTimer
               && s'.timers[e'.timer.value] == Timer(e.session, e.container)
    ensures Sound(s')
  {
    MemberIsFound(s.pool, e);
    ReplacedDistinct(s.pool, e');
    ReplacedMembers(s.pool, e');
    ReplacedContainers(s.pool, e, e');
    ReplaceKeepsTimers(s, s', e, e');
  }

  lemma ReplacedContainers(pool: seq<Entry>, e: Entry, e': Entry)
    requires Distinct(pool) && DistinctContainers(pool) && e in pool
    requires e'.session == e.session && e'.container == e.container
    ensures Containers(Replaced(pool, e')) == Containers(pool) && DistinctContainers(Replaced(pool, e'))
  {
    MemberIsFound(pool, e);
    ReplacedMembers(pool, e');
    forall x | x in pool && x.session == e.session ensures x == e {
      MemberIsFound(pool, x);
    }
    forall c | c in Containers(pool) ensures c in Containers(Replaced(pool, e')) {
      var x :| x in pool && x.container == c;
      if x != e {
        assert x in Replaced(pool, e');
      } else {
        assert e' in Replaced(pool, e');
      }
    }
  }

  lemma ReplaceKeepsTimers(s: State, s': State, e: Entry, e': Entry)
    requires Sound(s) && e in s.pool && e'.session == e.session && e'.container == e.container
    requires s'.pool == Replaced(s.pool, e') && s'.nextTimer >= s.nextTimer
    requires forall id :: id in s'.timers <==> (id in s.timers && e.timer != Some(id)) || e'.timer == Some(id)
    requires forall id :: id in s'.timers && e'.timer != Some(id) ==> s'.timers[id] == s.timers[id]
    requires e'.timer.Some? ==>
               && s.nextTimer <= e'.timer.value < s'.nextTimer
               && s'.timers[e'.timer.value] == Timer(e.session, e.container)
    ensures TimersExact(s')
  {
    MemberIsFound(s.pool, e);
    ReplacedMembers(s.pool, e');
    forall id | id in s'.timers ensures Owned(s', id) {
      ReplacedFind(s.pool, e', s'.timers[id].session);
      if e'.timer != Some(id) {
        assert Owned(s, id);
      }
    }
    forall x | x in s'.pool ensures ArmedFor(s', x) {
      if x != e' {
        OthersStayArmed(s, s', e, e', x);
      }
    }
  }

  lemma OthersStayArmed(s: State, s': State, e: Entry, e': Entry, x: Entry)
    requires Sound(s) && e in s.pool && x in s.pool && x.session != e.session && s'.nextTimer >= s.nextTimer
    requires forall id :: id in s'.timers <==> (id in s.timers && e.timer != Some(id)) || e'.timer == Some(id)
    requires forall id :: id in s'.timers && e'.timer != Some(id) ==> s'.timers[id] == s.timers[id]
    requires e'.timer.Some? ==> s.nextTimer <= e'.timer.value
    ensures ArmedFor(s', x)
  {
    assert ArmedFor(s, x) && ArmedFor(s, e);
    if x.timer.Some? {
      assert Owned(s, x.timer.value);
    }
  }

  lemma AcquireKeepsSound(
      cfg: Config, s: State, sid: SessionId, now: int, requested: Option<int>, alive: bool, newId: Option<ContainerId>)
    requires Sound(s)
    ensures Sound(AcquireStep(cfg, s, sid, now, requested, alive, newId))
  {
    if newId == None || newId.value !in s.started {
      var s1 := s.(locks := s.locks + {sid}, idleTimeouts := s.idleTimeouts[sid := IdleTimeoutFor(cfg, requested)]);
      AsideKeepsSound(s, s1.locks, s1.idleTimeouts);
      FindIsMember(s.pool, sid);
      match Find(s.pool, sid)
      case None => StartKeepsSound(cfg, s1, sid, now, newId);
      case Some(e) =>
        if TooOld(cfg, e, now) || !alive {
          RemoveKeepsSound(s1, e);
          FindWithout(s.pool, sid, sid);
          StartKeepsSound(cfg, Remove(s1, e), sid, now, newId);
        } else {
          var e' := e.(idle := false, lastUsedAt := now, timer := None);
          ReplaceKeepsSound(s1, AcquireStep(cfg, s, sid, now, requested, alive, newId), e, e');
        }
    }
  }

  /** The caller holds the session's container: it is not idle already. */
  predicate Held(s: State, sid: SessionId) {
    Find(s.pool, sid).Some? ==> !Find(s.pool, sid).value.idle
  }

  lemma ReleaseKeepsSound(cfg: Config, s: State, sid: SessionId, now: int)
    requires Sound(s) && Held(s, sid)
    ensures Sound(ReleaseStep(cfg, s, sid, now))
  {
    FindIsMember(s.pool, sid);
    match Find(s.pool, sid)
    case None => UnlockKeepsSound(s, sid);
    case Some(e) =>
      if e.ephemeral || IdleTimeout(cfg, s, sid) == 0 {
        RemoveKeepsSound(s, e);
        UnlockKeepsSound(Remove(s, e), sid);
      } else {
        NextTimerIsNew(s);
        var e' := e.(idle := true, lastUsedAt := now, timer := Some(s.nextTimer));
        ReplaceKeepsSound(s, ReleaseStep(cfg, s, sid, now), e, e');
      }
  }

  lemma NextTimerIsNew(s: State)
    requires TimersExact(s)
    ensures s.nextTimer !in s.timers
  {
    forall id | id in s.timers ensures id < s.nextTimer {
      assert Owned(s, id);
    }
  }

  /** Releasing a container that is idle already leaves its first timer running for nobody. */
  lemma DoubleReleaseStrandsTimer(cfg: Config, s: State, sid: SessionId, now: int)
    requires Sound(s) && !Held(s, sid)
    ensures !TimersExact(ReleaseStep(cfg, s, sid, now))
  {
    var e := Find(s.pool, sid).value;
    FindIsMember(s.pool, sid);
    assert ArmedFor(s, e);
    var id := e.timer.value;
    var s' := ReleaseStep(cfg, s, sid, now);
    assert Owned(s, id);
    if IdleTimeout(cfg, s, sid) == 0 {
      FindWithout(s.pool, sid, sid);
    } else {
      ReplacedFind(s.pool, e.(idle := true, lastUsedAt := now, timer := Some(s.nextTimer)), sid);
    }
    assert !Owned(s', id);
  }

  /** Release keeps the timers exact iff the container is not idle already. */
  lemma ReleaseIsSoundExactly(cfg: Config, s: State, sid: SessionId, now: int)
    requires Sound(s)
    ensures Sound(ReleaseStep(cfg, s, sid, now)) <==> Held(s, sid)
  {
    if Held(s, sid) {
      ReleaseKeepsSound(cfg, s, sid, now);
    } else {
      DoubleReleaseStrandsTimer(cfg, s, sid, now);
    }
  }

  lemma TimerKeepsSound(s: State, id: TimerId)
    requires Sound(s)
    ensures Sound(TimerStep(s, id))
  {
    if id in s.timers {
      var sid := s.timers[id].session;
      assert Owned(s, id);
      FindIsMember(s.pool, sid);
      var e := Find(s.pool, sid).value;
      assert ArmedFor(s, e);
      assert TimerStep(s, id) == Remove(s, e);
      RemoveKeepsSound(s, e);
    }
  }

  lemma RemovedMembers(s: State, e: Entry)
    requires Distinct(s.pool) && e in s.pool
    ensures forall x :: x in Remove(s, e).pool <==> x in s.pool && x != e
  {
    WithoutMembers(s.pool, e.session);
    MemberIsFound(s.pool, e);
    forall x | x in s.pool && x.session == e.session ensures x == e {
      MemberIsFound(s.pool, x);
    }
  }

  /** What the scan of `entries` leaves. */
  ghost predicate Scanned(cfg: Config, s: State, s': State, entries: seq<Entry>, now: int, dead: set<ContainerId>) {
    forall e :: e in s'.pool <==> e in s.pool && !(e in entries && Unhealthy(cfg, e, now, dead))
  }

  /** The entries still to be scanned are still in the pool. */
  lemma {:induction false} HealthKeepsSound(
      cfg: Config, s: State, entries: seq<Entry>, now: int, dead: set<ContainerId>)
    requires Sound(s) && Distinct(entries) && forall e :: e in entries ==> e in s.pool
    ensures Sound(HealthScan(cfg, s, entries, now, dead))
    ensures Scanned(cfg, s, HealthScan(cfg, s, entries, now, dead), entries, now, dead)
  {
    if entries != [] {
      var init, last := entries[..|entries| - 1], entries[|entries| - 1];
      assert forall e :: e in entries <==> e in init || e == last;
      HealthKeepsSound(cfg, s, init, now, dead);
      var s1 := HealthScan(cfg, s, init, now, dead);
      NotIn(init, last);
      if Unhealthy(cfg, last, now, dead) {
        RemoveKeepsSound(s1, last);
        RemovedMembers(s1, last);
      }
    }
  }

  lemma NotIn(entries: seq<Entry>, e: Entry)
    requires Find(entries, e.session) == None
    ensures e !in entries
  {
    FindIsMember(entries, e.session);
  }

  /** The health check removes exactly the idle entries that are too old or dead. */
  lemma HealthRemovesExactly(cfg: Config, s: State, now: int, dead: set<ContainerId>, e: Entry)
    requires Sound(s)
    ensures e in HealthScan(cfg, s, s.pool, now, dead).pool <==>
              && e in s.pool
              && (e.idle ==> now - e.startedAt <= cfg.maxContainerLifetimeSec * 1000 && e.container !in dead)
  {
    HealthKeepsSound(cfg, s, s.pool, now, dead);
  }

  lemma DrainKeepsSound(s: State)
    requires Sound(s)
    ensures Sound(DrainStep(s)) && DrainStep(s).timers == map[]
  {
    forall id | id in s.timers ensures id in TimersOf(s.pool) {
      assert Owned(s, id);
      FindIsMember(s.pool, s.timers[id].session);
    }
  }

  /** Callers release only what they hold. */
  predicate Disciplined(s: State, e: Event) {
    e.Release? ==> Held(s, e.session)
  }

  lemma ApplyKeepsSound(cfg: Config, s: State, e: Event)
    requires Sound(s) && Disciplined(s, e)
    ensures Sound(Apply(cfg, s, e))
  {
    match e
    case Acquire(sid, now, requested, alive, newId) => AcquireKeepsSound(cfg, s, sid, now, requested, alive, newId);
    case Release(sid, now) => ReleaseKeepsSound(cfg, s, sid, now);
    case Evict(sid) =>
      FindIsMember(s.pool, sid);
      if Find(s.pool, sid).Some? {
        RemoveKeepsSound(s, Find(s.pool, sid).value);
        UnlockKeepsSound(Remove(s, Find(s.pool, sid).value), sid);
      }
    case TimerFires(id) => TimerKeepsSound(s, id);
    case HealthCheck(now, dead) => HealthKeepsSound(cfg, s, s.pool, now, dead);
    case DrainAll => DrainKeepsSound(s);
  }

  predicate DisciplinedRun(cfg: Config, s: State, events: seq<Event>) {
    forall i :: 0 <= i < |events| ==> Disciplined(Run(cfg, s, events[..i]), events[i])
  }

  /**
   * In every run whose callers release only what they hold, each container that was started is in the
   * pool exactly once or was asked to stop, and the running timers are exactly those of idle entries.
   */
  lemma {:induction false} NoContainerIsLost(cfg: Config, events: seq<Event>)
    requires DisciplinedRun(cfg, INITIAL, events)
    ensures Sound(Run(cfg, INITIAL, events))
  {
    if events != [] {
      var n := |events| - 1;
      forall i | 0 <= i < n ensures Disciplined(Run(cfg, INITIAL, events[..n][..i]), events[..n][i]) {
        assert events[..n][..i] == events[..i];
      }
      NoContainerIsLost(cfg, events[..n]);
      ApplyKeepsSound(cfg, Run(cfg, INITIAL, events[..n]), events[n]);
    }
  }

  /**
   * Without that discipline a container can be lost: released twice, evicted and started again, the
   * session loses its new container to the stale timer, which stops the old one.
   */
  lemma DoubleReleaseLosesAContainer(cfg: Config, events: seq<Event>)
    requires cfg == Config(1, 0, 60, 60, 3600) && |events| == 6
    requires events[0] == Acquire("a", 0, None, true, Some("old"))
    requires events[1] == Release("a", 1) && events[2] == Release("a", 2) && events[3] == Evict("a")
    requires events[4] == Acquire("a", 3, None, true, Some("new")) && events[5] == TimerFires(0)
    ensures var s := Run(cfg, INITIAL, events);
            "new" in s.started && "new" !in s.stopped && "new" !in Containers(s.pool)
  {
    RunUnfolds(cfg, events);
    TwiceReleased(cfg);
    Evicted();
    Restarted(cfg);
    Expired();
  }

  const TIMER := Timer("a", "old")

  const RELEASED := State(
    [Entry("a", "old", 0, true, 2, Some(1), false)], map["a" := 60], {}, map[0 := TIMER, 1 := TIMER], 2, {"old"}, {})

  const EVICTED := State([], map[], {}, map[0 := TIMER], 2, {"old"}, {"old"})

  const LOST := State([], map[], {"a"}, map[], 2, {"old", "new"}, {"old"})

  const ACQUIRED := State([Entry("a", "old", 0, false, 0, None, false)], map["a" := 60], {"a"}, map[], 0, {"old"}, {})

  const WARM := State(
    [Entry("a", "old", 0, true, 1, Some(0), false)], map["a" := 60], {}, map[0 := TIMER], 1, {"old"}, {})

  lemma TwiceReleased(cfg: Config)
    requires cfg == Config(1, 0, 60, 60, 3600)
    ensures AcquireStep(cfg, INITIAL, "a", 0, None, true, Some("old")) == ACQUIRED
    ensures ReleaseStep(cfg, ACQUIRED, "a", 1) == WARM
    ensures ReleaseStep(cfg, WARM, "a", 2) == RELEASED
  {
    FirstRelease(cfg);
    SecondRelease(cfg);
  }

  lemma FirstRelease(cfg: Config)
    requires cfg == Config(1, 0, 60, 60, 3600)
    ensures ReleaseStep(cfg, ACQUIRED, "a", 1) == WARM
  {
    OneEntry(Entry("a", "old", 0, false, 0, None, false), Entry("a", "old", 0, true, 1, Some(0), false));
  }

  lemma SecondRelease(cfg: Config)
    requires cfg == Config(1, 0, 60, 60, 3600)
    ensures ReleaseStep(cfg, WARM, "a", 2) == RELEASED
  {
    OneEntry(Entry("a", "old", 0, true, 1, Some(0), false), Entry("a", "old", 0, true, 2, Some(1), false));
  }

  const RESTARTED := State(
    [Entry("a", "new", 3, false, 3, None, false)], map["a" := 60], {"a"}, map[0 := TIMER], 2, {"old", "new"}, {"old"})

  lemma Evicted()
    ensures EvictStep(RELEASED, "a") == EVICTED
  {
    var e := Entry("a", "old", 0, true, 2, Some(1), false);
    OneEntry(e, e);
    assert EvictStep(RELEASED, "a").timers == map[0 := TIMER];
  }

  lemma Restarted(cfg: Config)
    requires cfg == Config(1, 0, 60, 60, 3600)
    ensures AcquireStep(cfg, EVICTED, "a", 3, None, true, Some("new")) == RESTARTED
  {
  }

  lemma Expired()
    ensures TimerStep(RESTARTED, 0) == LOST
  {
    var n := Entry("a", "new", 3, false, 3, None, false);
    OneEntry(n, n);
  }

  lemma OneEntry(e: Entry, e': Entry)
    requires e'.session == e.session
    ensures Find([e], e.session) == Some(e) && Without([e], e.session) == [] && Replaced([e], e') == [e']
    ensures Count([e], true) == if e.ephemeral then 1 else 0
  {
    assert [e][..0] == [];
  }

  lemma RunUnfolds(cfg: Config, events: seq<Event>)
    requires |events| == 6
    ensures Run(cfg, INITIAL, events)
         == var s3 := Apply(cfg, Apply(cfg, Apply(cfg, INITIAL, events[0]), events[1]), events[2]);
            Apply(cfg, Apply(cfg, Apply(cfg, s3, events[3]), events[4]), events[5])
  {
    assert events[..5][..4] == events[..4] && events[..4][..3] == events[..3] && events[..3][..2] == events[..2];
    assert events[..2][..1] == events[..1] && events[..1][..0] == [];
    assert Run(cfg, INITIAL, events[..1]) == Apply(cfg, INITIAL, events[0]);
    assert Run(cfg, INITIAL, events[..2]) == Apply(cfg, Run(cfg, INITIAL, events[..1]), events[1]);
    assert Run(cfg, INITIAL, events[..3]) == Apply(cfg, Run(cfg, INITIAL, events[..2]), events[2]);
    assert Run(cfg, INITIAL, events[..4]) == Apply(cfg, Run(cfg, INITIAL, events[..3]), events[3]);
    assert Run(cfg, INITIAL, events[..5]) == Apply(cfg, Run(cfg, INITIAL, events[..4]), events[4]);
  }

  // ------------------------------------------------------------ the idle timeout of a session

  /** The session's container is used again as it is, or there was none to recycle. */
  predicate NotRecycled(cfg: Config, s: State, sid: SessionId, now: int, alive: bool) {
    match Find(s.pool, sid)
    case None => true
    case Some(e) => now - e.startedAt <= cfg.maxContainerLifetimeSec * 1000 && alive
  }

  /**
   * Acquiring sets the idle timeout the caller asks for iff no old or dead container is recycled; if
   * one is, the timeout is forgotten and the default is in force.
   */
  lemma TimeoutIsKeptExactly(
      cfg: Config, s: State, sid: SessionId, now: int, requested: Option<int>, alive: bool, newId: Option<ContainerId>)
    requires Distinct(s.pool) && (newId.Some? ==> newId.value !in s.started)
    ensures var s' := AcquireStep(cfg, s, sid, now, requested, alive, newId);
            var wanted := if requested == None then cfg.defaultIdleTimeoutSec else requested.value;
            var asked := if wanted <= cfg.maxIdleTimeoutSec then wanted else cfg.maxIdleTimeoutSec;
            && (sid in s'.idleTimeouts <==> NotRecycled(cfg, s, sid, now, alive))
            && (sid in s'.idleTimeouts ==> s'.idleTimeouts[sid] == asked)
            && (IdleTimeout(cfg, s', sid) == asked <==>
                  NotRecycled(cfg, s, sid, now, alive) || asked == cfg.defaultIdleTimeoutSec)
  {
    FindIsMember(s.pool, sid);
    var s1 := s.(locks := s.locks + {sid}, idleTimeouts := s.idleTimeouts[sid := IdleTimeoutFor(cfg, requested)]);
    match Find(s.pool, sid)
    case None => StartKeepsOthers(cfg, s1, sid, now, newId);
    case Some(e) =>
      if !NotRecycled(cfg, s, sid, now, alive) {
        assert sid !in Remove(s1, e).idleTimeouts;
        StartForgets(cfg, Remove(s1, e), sid, now, newId);
      }
  }

  lemma StartForgets(cfg: Config, s: State, sid: SessionId, now: int, newId: Option<ContainerId>)
    requires sid !in s.idleTimeouts
    ensures sid !in StartFresh(cfg, s, sid, now, newId).idleTimeouts
  {
  }

  /** A session without a container is not the one whose container is evicted for it. */
  lemma StartKeepsOthers(cfg: Config, s: State, sid: SessionId, now: int, newId: Option<ContainerId>)
    requires sid in s.idleTimeouts && Find(s.pool, sid) == None
    ensures var s' := StartFresh(cfg, s, sid, now, newId);
            sid in s'.idleTimeouts && s'.idleTimeouts[sid] == s.idleTimeouts[sid]
  {
    FindIsMember(s.pool, sid);
    LruIsLeastRecent(s.pool);
  }

  const RECYCLED := State(
    [Entry("a", "new", 2, false, 2, None, false)], map[], {"a"}, map[], 1, {"old", "new"}, {"old"})

  const LINGERING := State(
    [Entry("a", "new", 2, true, 3, Some(1), false)], map[], {}, map[1 := Timer("a", "new")], 2, {"old", "new"}, {"old"})

  lemma Recycled(cfg: Config)
    requires cfg == Config(1, 0, 60, 60, 3600)
    ensures AcquireStep(cfg, WARM, "a", 2, Some(0), false, Some("new")) == RECYCLED
  {
    var e := Entry("a", "old", 0, true, 1, Some(0), false);
    OneEntry(e, e);
    var s1 := WARM.(locks := {"a"}, idleTimeouts := map["a" := 0]);
    assert Remove(s1, e).timers == map[] && Remove(s1, e).idleTimeouts == map[];
  }

  lemma Lingers(cfg: Config)
    requires cfg == Config(1, 0, 60, 60, 3600)
    ensures ReleaseStep(cfg, RECYCLED, "a", 3) == LINGERING
  {
    OneEntry(Entry("a", "new", 2, false, 2, None, false), Entry("a", "new", 2, true, 3, Some(1), false));
  }

  lemma RunNext(cfg: Config, events: seq<Event>, i: nat)
    requires i < |events|
    ensures Run(cfg, INITIAL, events[..i + 1]) == Apply(cfg, Run(cfg, INITIAL, events[..i]), events[i])
  {
    assert events[..i + 1][..i] == events[..i];
  }

  /** The states that such a caller passes through. */
  lemma ForgottenStates(cfg: Config, events: seq<Event>)
    requires cfg == Config(1, 0, 60, 60, 3600) && |events| == 4
    requires events[0] == Acquire("a", 0, None, true, Some("old")) && events[1] == Release("a", 1)
    requires events[2] == Acquire("a", 2, Some(0), false, Some("new")) && events[3] == Release("a", 3)
    ensures Run(cfg, INITIAL, events[..1]) == ACQUIRED && Run(cfg, INITIAL, events[..3]) == RECYCLED
    ensures Run(cfg, INITIAL, events[..4]) == LINGERING
  {
    assert events[..0] == [];
    RunNext(cfg, events, 0);
    RunNext(cfg, events, 1);
    RunNext(cfg, events, 2);
    RunNext(cfg, events, 3);
    TwiceReleased(cfg);
    Recycled(cfg);
    Lingers(cfg);
  }

  lemma BothHeld()
    ensures Held(ACQUIRED, "a") && Held(RECYCLED, "a")
  {
  }

  /**
   * A disciplined caller whose container died asks for timeout 0, which is to keep nothing warm; its
   * new container stays in the pool all the same, for the default time.
   */
  lemma ForgottenTimeoutShows(cfg: Config, events: seq<Event>)
    requires cfg == Config(1, 0, 60, 60, 3600) && |events| == 4
    requires events[0] == Acquire("a", 0, None, true, Some("old")) && events[1] == Release("a", 1)
    requires events[2] == Acquire("a", 2, Some(0), false, Some("new")) && events[3] == Release("a", 3)
    ensures DisciplinedRun(cfg, INITIAL, events)
    ensures Run(cfg, INITIAL, events).pool == [Entry("a", "new", 2, true, 3, Some(1), false)]
  {
    ForgottenStates(cfg, events);
    assert events[..4] == events;
    BothHeld();
    FourDisciplined(cfg, events);
  }

  lemma FourDisciplined(cfg: Config, events: seq<Event>)
    requires |events| == 4
    requires Disciplined(Run(cfg, INITIAL, events[..0]), events[0])
    requires Disciplined(Run(cfg, INITIAL, events[..1]), events[1])
    requires Disciplined(Run(cfg, INITIAL, events[..2]), events[2])
    requires Disciplined(Run(cfg, INITIAL, events[..3]), events[3])
    ensures DisciplinedRun(cfg, INITIAL, events)
  {
  }
}
