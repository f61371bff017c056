/** Slot accounting: what every turn keeps about the counters, the latches and the queues. */
module SchedulerSlots {
  import opened Util
  import opened Scheduler

  // ------------------------------------------------------------ definitions

  function OpenBit(e: Exec, u: UserId): nat {
    if e.item.userId == u && e.releases == 0 then 1 else 0
  }

  /** Started and not finalized tasks of user `u`. */
  function OpenOf(execs: seq<Exec>, u: UserId): nat {
    if execs == [] then 0
    else OpenOf(execs[..|execs| - 1], u) + OpenBit(execs[|execs| - 1], u)
  }

  /** Started and not finalized tasks of all users. */
  function Open(execs: seq<Exec>): nat {
    if execs == [] then 0
    else Open(execs[..|execs| - 1]) + if execs[|execs| - 1].releases == 0 then 1 else 0
  }

  /** The concurrency quota carried by the task of `u` that was started last. */
  function LastQuota(cfg: Config, execs: seq<Exec>, u: UserId): int {
    if execs == [] then 0
    else
      var last := execs[|execs| - 1];
      if last.item.userId == u then Max(0, QuotaFor(cfg, last.item).maxConcurrent)
      else LastQuota(cfg, execs[..|execs| - 1], u)
  }

  /** The sum of the per-user counters over the users in `users`. */
  function SumActive(s: State, users: seq<UserId>): int {
    if users == [] then 0
    else SumActive(s, users[..|users| - 1]) + ActiveOf(s, users[|users| - 1])
  }

  /**
   * The latch of one started task: at most one release, one outcome exactly when settled, the slot
   * given back exactly when settled and no publish is awaited, and a watchdog until then.
   */
  predicate ExecOk(e: Exec) {
    && e.releases <= 1
    && |e.outcomes| == (if e.settled then 1 else 0)
    && (e.releases == 1 <==> e.settled && !e.publishing)
    && (e.publishing ==> e.settled)
    && (e.timerArmed <==> !e.settled)
    && (!e.settled ==> e.runPending)
  }

  ghost predicate Wf(s: State) {
    && NoDuplicates(s.rotation)
    && (forall u :: u in s.rotation <==> u in s.queues)
    && (if s.rotation == [] then s.idx == 0 else s.idx < |s.rotation|)
    && (forall u, i :: u in s.queues && 0 <= i < |s.queues[u]| ==> s.queues[u][i].userId == u)
  }

  ghost predicate Slots(cfg: Config, s: State) {
    && (forall h :: 0 <= h < |s.execs| ==> ExecOk(s.execs[h]) && s.execs[h].item.userId in s.queues)
    && (forall u :: ActiveOf(s, u) == OpenOf(s.execs, u))
    && (forall u :: OpenOf(s.execs, u) <= LastQuota(cfg, s.execs, u))
    && s.count == Open(s.execs) <= Max(0, cfg.maxConcurrent)
    && Pending(s.queues, s.rotation) <= Max(0, cfg.maxPending)
  }

  ghost predicate Inv(cfg: Config, s: State) {
    Wf(s) && Slots(cfg, s)
  }

  // ------------------------------------------------------------ counting lemmas

  lemma {:induction false} OpenUpdate(execs: seq<Exec>, h: nat, e: Exec, u: UserId)
    requires h < |execs|
    ensures OpenOf(execs[h := e], u) == OpenOf(execs, u) - OpenBit(execs[h], u) + OpenBit(e, u)
    ensures Open(execs[h := e])
         == Open(execs) - (if execs[h].releases == 0 then 1 else 0) + if e.releases == 0 then 1 else 0
  {
    var n := |execs| - 1;
    if h == n {
      assert execs[h := e][..n] == execs[..n];
    } else {
      assert execs[h := e][..n] == execs[..n][h := e];
      OpenUpdate(execs[..n], h, e, u);
    }
  }

  lemma {:induction false} LastQuotaUpdate(cfg: Config, execs: seq<Exec>, h: nat, e: Exec, u: UserId)
    requires h < |execs| && e.item == execs[h].item
    ensures LastQuota(cfg, execs[h := e], u) == LastQuota(cfg, execs, u)
  {
    var n := |execs| - 1;
    if h == n {
      assert execs[h := e][..n] == execs[..n];
    } else {
      assert execs[h := e][..n] == execs[..n][h := e];
      LastQuotaUpdate(cfg, execs[..n], h, e, u);
    }
  }

  lemma {:induction false} OpenPositive(execs: seq<Exec>, h: nat)
    requires h < |execs| && execs[h].releases == 0
    ensures OpenOf(execs, execs[h].item.userId) >= 1 && Open(execs) >= 1
  {
    if h < |execs| - 1 {
      OpenPositive(execs[..|execs| - 1], h);
    }
  }

  lemma OpenAppend(execs: seq<Exec>, e: Exec, u: UserId)
    ensures OpenOf(execs + [e], u) == OpenOf(execs, u) + OpenBit(e, u)
    ensures Open(execs + [e]) == Open(execs) + if e.releases == 0 then 1 else 0
  {
    assert (execs + [e])[..|execs|] == execs;
  }

  lemma LastQuotaAppend(cfg: Config, execs: seq<Exec>, e: Exec, u: UserId)
    ensures LastQuota(cfg, execs + [e], u)
         == if e.item.userId == u then Max(0, QuotaFor(cfg, e.item).maxConcurrent)
            else LastQuota(cfg, execs, u)
  {
    assert (execs + [e])[..|execs|] == execs;
  }

  lemma {:induction false} PendingUpdate(
      queues: map<UserId, seq<Item>>, users: seq<UserId>, u: UserId, queue: seq<Item>)
    requires NoDuplicates(users)
    ensures Pending(queues[u := queue], users)
         == Pending(queues, users)
          + if u in users then |queue| - (if u in queues then |queues[u]| else 0) else 0
  {
    if users != [] {
      var init := users[..|users| - 1];
      PendingUpdate(queues, init, u, queue);
      assert users == init + [users[|users| - 1]];
    }
  }

  lemma PendingAppend(queues: map<UserId, seq<Item>>, users: seq<UserId>, u: UserId)
    ensures Pending(queues, users + [u])
         == Pending(queues, users) + if u in queues then |queues[u]| else 0
  {
    assert (users + [u])[..|users|] == users;
  }

  // ------------------------------------------------------------ one step at a time

  lemma StartKeepsInv(cfg: Config, s: State, p: nat)
    requires Inv(cfg, s) && s.count < cfg.maxConcurrent
    requires p < |s.rotation| && Eligible(cfg, s, s.rotation[p])
    ensures Inv(cfg, Start(s, p))
  {
    var s' := Start(s, p);
    var u := s.rotation[p];
    var e := NewExec(s.queues[u][0]);
    assert u in s.queues;
    forall v
      ensures ActiveOf(s', v) == OpenOf(s'.execs, v) <= LastQuota(cfg, s'.execs, v)
    {
      OpenAppend(s.execs, e, v);
      LastQuotaAppend(cfg, s.execs, e, v);
    }
    OpenAppend(s.execs, e, u);
    PendingUpdate(s.queues, s.rotation, u, s.queues[u][1..]);
  }

  lemma {:induction false} DrainKeepsInv(cfg: Config, s: State)
    requires Inv(cfg, s)
    ensures Inv(cfg, Drain(cfg, s))
    decreases cfg.maxConcurrent - s.count
  {
    if s.count < cfg.maxConcurrent && Pick(cfg, s).Some? {
      var p := Pick(cfg, s).value;
      StartKeepsInv(cfg, s, p);
      DrainKeepsInv(cfg, Start(s, p));
    }
  }

  /** A change of queues and history alone cannot disturb the slots. */
  lemma QueuesOnly(cfg: Config, s: State, s': State)
    requires Slots(cfg, s)
    requires s'.execs == s.execs && s'.active == s.active && s'.count == s.count
    requires s.queues.Keys <= s'.queues.Keys
    requires Pending(s'.queues, s'.rotation) <= Max(0, cfg.maxPending)
    ensures Slots(cfg, s')
  {
    forall v ensures ActiveOf(s', v) == OpenOf(s'.execs, v) {
      assert ActiveOf(s, v) == OpenOf(s.execs, v);
    }
  }

  lemma EnqueueKeepsWf(s: State, item: Item)
    requires Wf(s)
    ensures Wf(Enqueue(s, item))
  {
    var u := item.userId;
    var s' := Enqueue(s, item);
    if u !in s.queues {
      assert s'.rotation == s.rotation + [u] && u !in s.rotation;
      forall v ensures v in s'.rotation <==> v in s'.queues {
        assert v in s.rotation <==> v in s.queues;
      }
    }
  }

  lemma EnqueuePending(s: State, item: Item)
    requires Wf(s)
    ensures var s' := Enqueue(s, item);
            Pending(s'.queues, s'.rotation) == Pending(s.queues, s.rotation) + 1
  {
    var u := item.userId;
    var s' := Enqueue(s, item);
    PendingUpdate(s.queues, s.rotation, u, QueueOf(s, u) + [item]);
    assert u in s.rotation <==> u in s.queues;
    if u !in s.queues {
      PendingAppend(s'.queues, s.rotation, u);
    }
  }

  lemma EnqueueKeepsInv(cfg: Config, s: State, item: Item)
    requires Inv(cfg, s) && Accepts(cfg, s, item)
    ensures Inv(cfg, Enqueue(s, item))
  {
    EnqueueKeepsWf(s, item);
    EnqueuePending(s, item);
    QueuesOnly(cfg, s, Enqueue(s, item));
  }

  lemma RemoveKeepsInv(cfg: Config, s: State, runId: RunId)
    requires Inv(cfg, s) && IsQueued(s, runId)
    ensures Inv(cfg, RemoveQueued(s, runId))
  {
    var u := s.rotation[Holder(s, runId, 0)];
    RemoveFromKeepsInv(cfg, s, u, IndexOf(QueueOf(s, u), runId));
  }

  lemma RemoveFromKeepsInv(cfg: Config, s: State, u: UserId, i: nat)
    requires Inv(cfg, s) && u in s.rotation && i < |QueueOf(s, u)|
    ensures Inv(cfg, RemoveFrom(s, u, i))
  {
    var rest := s.queues[u][..i] + s.queues[u][i + 1..];
    var s' := RemoveFrom(s, u, i);
    PendingUpdate(s.queues, s.rotation, u, rest);
    QueuesOnly(cfg, s, s');
    forall j | 0 <= j < |rest| ensures rest[j].userId == u {
      assert rest[j] == s.queues[u][if j < i then j else j + 1];
    }
  }

  /** A change of one latch that neither takes nor gives back a slot. */
  lemma LatchKeepsInv(cfg: Config, s: State, h: nat, e: Exec)
    requires Inv(cfg, s) && h < |s.execs|
    requires ExecOk(e) && e.item == s.execs[h].item && e.releases == s.execs[h].releases
    ensures Inv(cfg, s.(execs := s.execs[h := e]))
  {
    var s' := s.(execs := s.execs[h := e]);
    forall v
      ensures ActiveOf(s', v) == OpenOf(s'.execs, v) <= LastQuota(cfg, s'.execs, v)
    {
      OpenUpdate(s.execs, h, e, v);
      LastQuotaUpdate(cfg, s.execs, h, e, v);
    }
    OpenUpdate(s.execs, h, e, e.item.userId);
  }

  /** Settling a task and giving its slot back; the clamp in the counter update does not act. */
  lemma ReleaseKeepsInv(cfg: Config, s: State, h: nat, e: Exec)
    requires Inv(cfg, s) && h < |s.execs| && s.execs[h].releases == 0
    requires e.item == s.execs[h].item && e.releases == 0 && ExecOk(e.(releases := 1))
    ensures Inv(cfg, Release(s.(execs := s.execs[h := e]), h))
    ensures ActiveOf(s, e.item.userId) >= 1
  {
    var u := e.item.userId;
    var done := e.(releases := 1);
    var s' := Release(s.(execs := s.execs[h := e]), h);
    assert s'.execs == s.execs[h := done];
    OpenPositive(s.execs, h);
    assert ActiveOf(s, u) >= 1;
    forall v
      ensures ActiveOf(s', v) == OpenOf(s'.execs, v) <= LastQuota(cfg, s'.execs, v)
    {
      OpenUpdate(s.execs, h, done, v);
      LastQuotaUpdate(cfg, s.execs, h, done, v);
    }
    OpenUpdate(s.execs, h, done, u);
  }

  lemma ApplyKeepsInv(cfg: Config, s: State, ev: Event)
    requires Inv(cfg, s)
    ensures Inv(cfg, Apply(cfg, s, ev))
  {
    match ev
    case Submit(item) =>
      if Accepts(cfg, s, item) {
        EnqueueKeepsInv(cfg, s, item);
        DrainKeepsInv(cfg, Enqueue(s, item));
      } else {
        QueuesOnly(cfg, s, Apply(cfg, s, ev));
      }
    case Cancel(runId) =>
      if IsQueued(s, runId) {
        RemoveKeepsInv(cfg, s, runId);
      }
    case RunSettles(h, end) =>
      if h < |s.execs| && s.execs[h].runPending {
        LatchKeepsInv(cfg, s, h, Apply(cfg, s, ev).execs[h]);
      }
    case PublishReturns(h) =>
      if h < |s.execs| && s.execs[h].publishing {
        var e := s.execs[h].(publishing := false);
        ReleaseKeepsInv(cfg, s, h, e);
        DrainKeepsInv(cfg, Release(s.(execs := s.execs[h := e]), h));
      }
    case WatchdogFires(h) =>
      if h < |s.execs| && s.execs[h].timerArmed {
        var e := s.execs[h].(timerArmed := false, settled := true,
                             outcomes := s.execs[h].outcomes + [Failed]);
        ReleaseKeepsInv(cfg, s, h, e);
        DrainKeepsInv(cfg, Release(s.(execs := s.execs[h := e]), h));
      }
  }

  lemma {:induction false} RunKeepsInv(cfg: Config, s: State, events: seq<Event>)
    requires Inv(cfg, s)
    ensures Inv(cfg, Run(cfg, s, events))
    decreases |events|
  {
    if events != [] {
      ApplyKeepsInv(cfg, s, events[0]);
      RunKeepsInv(cfg, Apply(cfg, s, events[0]), events[1..]);
    }
  }

  lemma InitialInv(cfg: Config)
    ensures Inv(cfg, INITIAL)
  {
  }

  // ------------------------------------------------------------ the theorem

  function OpenOver(execs: seq<Exec>, users: seq<UserId>): nat {
    if users == [] then 0
    else OpenOver(execs, users[..|users| - 1]) + OpenOf(execs, users[|users| - 1])
  }

  lemma {:induction false} OpenOverLast(execs: seq<Exec>, users: seq<UserId>)
    requires execs != [] && NoDuplicates(users)
    ensures OpenOver(execs, users)
         == OpenOver(execs[..|execs| - 1], users)
          + if execs[|execs| - 1].item.userId in users && execs[|execs| - 1].releases == 0 then 1 else 0
  {
    if users != [] {
      var init := users[..|users| - 1];
      assert users == init + [users[|users| - 1]];
      OpenOverLast(execs, init);
    }
  }

  /** Summing the open tasks per user over a duplicate-free rotation counts each open task once. */
  lemma {:induction false} OpenOverIsOpen(execs: seq<Exec>, users: seq<UserId>)
    requires NoDuplicates(users)
    requires forall h :: 0 <= h < |execs| ==> execs[h].item.userId in users
    ensures OpenOver(execs, users) == Open(execs)
  {
    if execs == [] {
      OpenOverNone(users);
    } else {
      OpenOverIsOpen(execs[..|execs| - 1], users);
      OpenOverLast(execs, users);
    }
  }

  lemma {:induction false} OpenOverNone(users: seq<UserId>)
    ensures OpenOver([], users) == 0
  {
    if users != [] {
      OpenOverNone(users[..|users| - 1]);
    }
  }

  lemma {:induction false} SumActiveIsOpenOver(s: State, users: seq<UserId>)
    requires forall u :: ActiveOf(s, u) == OpenOf(s.execs, u)
    ensures SumActive(s, users) == OpenOver(s.execs, users)
  {
    if users != [] {
      SumActiveIsOpenOver(s, users[..|users| - 1]);
    }
  }

  /**
   * Exact slot accounting over every run: the global counter is the number of started and not
   * finalized tasks and the sum of the per-user counters; it stays within 0..maxConcurrent; every
   * user stays within the quota of the task started last for it; and every started task has
   * published at most one outcome and given its slot back at most once, whatever the order in
   * which its run, its publish and its watchdog come back.
   */
  lemma ExactSlotAccounting(cfg: Config, events: seq<Event>)
    ensures
      var s := Run(cfg, INITIAL, events);
      && s.count == Open(s.execs) == SumActive(s, s.rotation)
      && 0 <= s.count <= Max(0, cfg.maxConcurrent)
      && Pending(s.queues, s.rotation) <= Max(0, cfg.maxPending)
      && (forall u :: 0 <= ActiveOf(s, u) == OpenOf(s.execs, u) <= LastQuota(cfg, s.execs, u))
      && (forall h :: 0 <= h < |s.execs| ==>
            && |s.execs[h].outcomes| <= 1
            && s.execs[h].releases <= |s.execs[h].outcomes|
            && (s.execs[h].releases == 0 ==> s.execs[h].timerArmed || s.execs[h].publishing))
  {
    var s := Run(cfg, INITIAL, events);
    RunKeepsInv(cfg, INITIAL, events);
    SumActiveIsOpenOver(s, s.rotation);
    OpenOverIsOpen(s.execs, s.rotation);
  }

  /** In every reachable state a task that still holds its slot has a positive counter to give back. */
  lemma ClampNeverActs(cfg: Config, events: seq<Event>, h: nat)
    requires var s := Run(cfg, INITIAL, events); h < |s.execs| && s.execs[h].releases == 0
    ensures
      var s := Run(cfg, INITIAL, events);
      var u := s.execs[h].item.userId;
      u in s.active && s.active[u] >= 1 && s.count >= 1
  {
    RunKeepsInv(cfg, INITIAL, events);
    OpenPositive(Run(cfg, INITIAL, events).execs, h);
  }
}
