/** Which outcome a task publishes, and how many tasks a user may have waiting. */
module SchedulerOutcomes {
  import opened Util
  import opened Scheduler
  import opened SchedulerSlots
  import opened SchedulerFairness

  // ------------------------------------------------------------ the outcome of a task

  /** The event wins the latch of task `h`: its run comes back, or its watchdog fires, first. */
  predicate Settles(s: State, ev: Event, h: nat) {
    && h < |s.execs| && !s.execs[h].settled
    && match ev
       case RunSettles(handle, _) => handle == h && s.execs[h].runPending
       case WatchdogFires(handle) => handle == h && s.execs[h].timerArmed
       case _ => false
  }

  /** The first event of the run that settled task `h`. */
  function Settler(cfg: Config, events: seq<Event>, h: nat): Option<Event> {
    if events == [] then None
    else
      var n := |events| - 1;
      var before := Settler(cfg, events[..n], h);
      if before.Some? then before
      else if Settles(Run(cfg, INITIAL, events[..n]), events[n], h) then Some(events[n])
      else None
  }

  /** The tasks of `s` are untouched in `s'`, and the tasks started since are fresh. */
  ghost predicate OnlyStarts(s: State, s': State) {
    && |s.execs| <= |s'.execs|
    && (forall h :: 0 <= h < |s.execs| ==> s'.execs[h] == s.execs[h])
    && (forall h :: |s.execs| <= h < |s'.execs| ==> !s'.execs[h].settled && s'.execs[h].outcomes == [])
  }

  lemma {:induction false} DrainOnlyStarts(cfg: Config, s: State)
    ensures OnlyStarts(s, Drain(cfg, s))
    decreases cfg.maxConcurrent - s.count
  {
    if s.count < cfg.maxConcurrent && Pick(cfg, s).Some? {
      DrainOnlyStarts(cfg, Start(s, Pick(cfg, s).value));
    }
  }

  /** The latch of task `h` after one event, and what was handed to the publisher by it. */
  ghost predicate Latched(s: State, ev: Event, s': State, h: nat) {
    && |s.execs| <= |s'.execs|
    && (h < |s.execs| ==>
          && (s'.execs[h].settled <==> s.execs[h].settled || Settles(s, ev, h))
          && s'.execs[h].outcomes == s.execs[h].outcomes
             + (if !Settles(s, ev, h) then []
                else if ev == RunSettles(h, ResolvedCompleted) then [Completed]
                else [Failed]))
    && (|s.execs| <= h < |s'.execs| ==> !s'.execs[h].settled && s'.execs[h].outcomes == [])
  }

  lemma FinalizeLatches(cfg: Config, s: State, k: nat, e: Exec)
    requires k < |s.execs|
    ensures var s' := Finalize(cfg, s.(execs := s.execs[k := e]), k);
            && |s.execs| <= |s'.execs|
            && s'.execs[k].settled == e.settled && s'.execs[k].outcomes == e.outcomes
            && (forall h :: 0 <= h < |s.execs| && h != k ==> s'.execs[h] == s.execs[h])
            && (forall h :: |s.execs| <= h < |s'.execs| ==> !s'.execs[h].settled && s'.execs[h].outcomes == [])
  {
    DrainOnlyStarts(cfg, Release(s.(execs := s.execs[k := e]), k));
  }

  lemma ApplyLatches(cfg: Config, s: State, ev: Event, h: nat)
    ensures Latched(s, ev, Apply(cfg, s, ev), h)
  {
    match ev
    case Submit(item) => DrainOnlyStarts(cfg, Enqueue(s, item));
    case PublishReturns(k) =>
      if k < |s.execs| && s.execs[k].publishing {
        FinalizeLatches(cfg, s, k, s.execs[k].(publishing := false));
      }
    case WatchdogFires(k) =>
      if k < |s.execs| && s.execs[k].timerArmed && !s.execs[k].settled {
        FinalizeLatches(cfg, s, k, s.execs[k].(timerArmed := false, settled := true,
                                               outcomes := s.execs[k].outcomes + [Failed]));
      }
    case _ =>
  }

  /**
   * Over every run a task hands at most one outcome to the publisher, and it is `Completed` exactly
   * when what settled the task first was its run coming back as completed: not when the run came back
   * otherwise or threw, and not when the watchdog was first.
   */
  lemma {:induction false} OutcomeIsTrue(cfg: Config, events: seq<Event>, h: nat)
    ensures var s := Run(cfg, INITIAL, events);
            var settler := Settler(cfg, events, h);
            && (h >= |s.execs| ==> settler == None)
            && (h < |s.execs| ==>
                  && (s.execs[h].settled <==> settler.Some?)
                  && s.execs[h].outcomes
                     == if settler == None then []
                        else if settler == Some(RunSettles(h, ResolvedCompleted)) then [Completed]
                        else [Failed])
  {
    if events != [] {
      var n := |events| - 1;
      OutcomeIsTrue(cfg, events[..n], h);
      assert events == events[..n] + [events[n]];
      RunSnoc(cfg, INITIAL, events[..n], events[n]);
      ApplyLatches(cfg, Run(cfg, INITIAL, events[..n]), events[n], h);
    }
  }

  // ------------------------------------------------------------ the tasks a user has waiting

  /** How many tasks may wait before and including this one: its own quota, or the default. */
  function WaitingCap(cfg: Config, item: Item): int {
    match item.userQuota
    case Some(quota) => quota.maxPending
    case None => cfg.userDefault.maxPending
  }

  /** Every task waits within the bound that came with it. */
  predicate WithinCaps(cfg: Config, queue: seq<Item>) {
    forall i :: 0 <= i < |queue| ==> i < WaitingCap(cfg, queue[i])
  }

  ghost predicate AllWithinCaps(cfg: Config, s: State) {
    forall u :: WithinCaps(cfg, QueueOf(s, u))
  }

  lemma {:induction false} DrainKeepsCaps(cfg: Config, s: State)
    requires AllWithinCaps(cfg, s)
    ensures AllWithinCaps(cfg, Drain(cfg, s))
    decreases cfg.maxConcurrent - s.count
  {
    if s.count < cfg.maxConcurrent && Pick(cfg, s).Some? {
      StartKeepsCaps(cfg, s, Pick(cfg, s).value);
      DrainKeepsCaps(cfg, Start(s, Pick(cfg, s).value));
    }
  }

  lemma StartKeepsCaps(cfg: Config, s: State, p: nat)
    requires AllWithinCaps(cfg, s) && p < |s.rotation| && QueueOf(s, s.rotation[p]) != []
    ensures AllWithinCaps(cfg, Start(s, p))
  {
    var s' := Start(s, p);
    forall u ensures WithinCaps(cfg, QueueOf(s', u)) {
      assert WithinCaps(cfg, QueueOf(s, u));
      if u == s.rotation[p] {
        assert QueueOf(s', u) == QueueOf(s, u)[1..];
      }
    }
  }

  lemma RemoveKeepsCaps(cfg: Config, s: State, runId: RunId)
    requires AllWithinCaps(cfg, s) && IsQueued(s, runId)
    ensures AllWithinCaps(cfg, RemoveQueued(s, runId))
  {
    var s' := RemoveQueued(s, runId);
    RemoveTouchesOneQueue(s, runId);
    forall u ensures WithinCaps(cfg, QueueOf(s', u)) {
      assert WithinCaps(cfg, QueueOf(s, u));
    }
  }

  /** A submission is accepted exactly below both bounds, and rejected otherwise; it is never dropped. */
  lemma AcceptedExactly(cfg: Config, s: State, item: Item)
    ensures var s' := Apply(cfg, s, Submit(item));
            var fits := Pending(s.queues, s.rotation) < cfg.maxPending
                        && |QueueOf(s, item.userId)| < WaitingCap(cfg, item);
            && s'.accepted == s.accepted + (if fits then [item] else [])
            && s'.rejected == s.rejected + (if fits then [] else [item])
  {
    DrainKeepsBooks(cfg, Enqueue(s, item));
  }

  lemma {:induction false} DrainKeepsBooks(cfg: Config, s: State)
    ensures Drain(cfg, s).accepted == s.accepted && Drain(cfg, s).rejected == s.rejected
    decreases cfg.maxConcurrent - s.count
  {
    if s.count < cfg.maxConcurrent && Pick(cfg, s).Some? {
      DrainKeepsBooks(cfg, Start(s, Pick(cfg, s).value));
    }
  }

  lemma EnqueueKeepsCaps(cfg: Config, s: State, item: Item)
    requires AllWithinCaps(cfg, s) && Accepts(cfg, s, item)
    ensures AllWithinCaps(cfg, Enqueue(s, item))
  {
    forall u ensures WithinCaps(cfg, QueueOf(Enqueue(s, item), u)) {
      assert WithinCaps(cfg, QueueOf(s, u));
    }
  }

  lemma SameQueuesKeepCaps(cfg: Config, s: State, s': State)
    requires AllWithinCaps(cfg, s) && s'.queues == s.queues
    ensures AllWithinCaps(cfg, s')
  {
    forall u ensures WithinCaps(cfg, QueueOf(s', u)) {
      assert WithinCaps(cfg, QueueOf(s, u));
    }
  }

  lemma FinalizeKeepsCaps(cfg: Config, s: State, h: nat, e: Exec)
    requires AllWithinCaps(cfg, s) && h < |s.execs|
    ensures AllWithinCaps(cfg, Finalize(cfg, s.(execs := s.execs[h := e]), h))
  {
    var s1 := Release(s.(execs := s.execs[h := e]), h);
    SameQueuesKeepCaps(cfg, s, s1);
    DrainKeepsCaps(cfg, s1);
  }

  lemma ApplyKeepsCaps(cfg: Config, s: State, ev: Event)
    requires AllWithinCaps(cfg, s)
    ensures AllWithinCaps(cfg, Apply(cfg, s, ev))
  {
    match ev
    case Submit(item) =>
      if Accepts(cfg, s, item) {
        EnqueueKeepsCaps(cfg, s, item);
        DrainKeepsCaps(cfg, Enqueue(s, item));
      } else {
        SameQueuesKeepCaps(cfg, s, Apply(cfg, s, ev));
      }
    case Cancel(runId) => if IsQueued(s, runId) { RemoveKeepsCaps(cfg, s, runId); }
    case RunSettles(h, end) => SameQueuesKeepCaps(cfg, s, Apply(cfg, s, ev));
    case PublishReturns(h) =>
      if h < |s.execs| && s.execs[h].publishing {
        FinalizeKeepsCaps(cfg, s, h, s.execs[h].(publishing := false));
      }
    case WatchdogFires(h) =>
      if h < |s.execs| && s.execs[h].timerArmed {
        if s.execs[h].settled {
          SameQueuesKeepCaps(cfg, s, Apply(cfg, s, ev));
        } else {
          FinalizeKeepsCaps(cfg, s, h, s.execs[h].(timerArmed := false, settled := true,
                                                   outcomes := s.execs[h].outcomes + [Failed]));
        }
      }
  }

  /** Over every run no user has more tasks waiting than the bound of the last of them allows. */
  lemma {:induction false} UsersWaitWithinCaps(cfg: Config, events: seq<Event>, u: UserId)
    ensures var queue := QueueOf(Run(cfg, INITIAL, events), u);
            WithinCaps(cfg, queue) && (queue != [] ==> |queue| <= WaitingCap(cfg, queue[|queue| - 1]))
  {
    RunKeepsCaps(cfg, events);
    assert WithinCaps(cfg, QueueOf(Run(cfg, INITIAL, events), u));
  }

  lemma {:induction false} RunKeepsCaps(cfg: Config, events: seq<Event>)
    ensures AllWithinCaps(cfg, Run(cfg, INITIAL, events))
  {
    if events != [] {
      var n := |events| - 1;
      RunKeepsCaps(cfg, events[..n]);
      assert events == events[..n] + [events[n]];
      RunSnoc(cfg, INITIAL, events[..n], events[n]);
      ApplyKeepsCaps(cfg, Run(cfg, INITIAL, events[..n]), events[n]);
    }
  }

  // ------------------------------------------------------------ what a cancellation takes out

  predicate HoldsAt(s: State, u: UserId, i: int, runId: RunId) {
    u in s.queues && 0 <= i < |s.queues[u]| && s.queues[u][i].runId == runId
  }

  /** One queued task with that id is gone from its queue, and nothing else is different. */
  predicate TakenOut(s: State, s': State, u: UserId, i: int, runId: RunId) {
    && HoldsAt(s, u, i, runId)
    && s' == s.(queues := s.queues[u := s.queues[u][..i] + s.queues[u][i + 1..]],
                cancelled := s.cancelled + [s.queues[u][i]])
  }

  /** A cancellation takes out one task of that id if one is queued, and changes nothing otherwise. */
  lemma CancelsExactly(cfg: Config, s: State, runId: RunId)
    requires Wf(s)
    ensures var s' := Apply(cfg, s, Cancel(runId));
            if exists u, i :: HoldsAt(s, u, i, runId) then exists u, i :: TakenOut(s, s', u, i, runId) else s' == s
    ensures IsQueued(s, runId) <==> exists u, i :: HoldsAt(s, u, i, runId)
  {
    if IsQueued(s, runId) {
      var u := s.rotation[Holder(s, runId, 0)];
      var i := IndexOf(QueueOf(s, u), runId);
      assert HoldsAt(s, u, i, runId) && TakenOut(s, RemoveQueued(s, runId), u, i, runId);
    } else {
      forall u, i ensures !HoldsAt(s, u, i, runId) {
        if HoldsAt(s, u, i, runId) {
          HoldsMeansQueued(s, u, i, runId);
        }
      }
    }
  }

  lemma HoldsMeansQueued(s: State, u: UserId, i: int, runId: RunId)
    requires Wf(s) && HoldsAt(s, u, i, runId)
    ensures IsQueued(s, runId)
  {
    var p :| 0 <= p < |s.rotation| && s.rotation[p] == u;
    assert IndexOf(QueueOf(s, s.rotation[p]), runId) < |QueueOf(s, s.rotation[p])|;
  }

  predicate Asks(events: seq<Event>, j: int, runId: RunId) {
    0 <= j < |events| && events[j] == Cancel(runId)
  }

  lemma {:induction false} DrainKeepsCancelled(cfg: Config, s: State)
    ensures Drain(cfg, s).cancelled == s.cancelled
    decreases cfg.maxConcurrent - s.count
  {
    if s.count < cfg.maxConcurrent && Pick(cfg, s).Some? {
      DrainKeepsCancelled(cfg, Start(s, Pick(cfg, s).value));
    }
  }

  lemma OthersCancelNothing(cfg: Config, s: State, ev: Event)
    requires !ev.Cancel?
    ensures Apply(cfg, s, ev).cancelled == s.cancelled
  {
    match ev
    case Submit(item) => DrainKeepsCancelled(cfg, Enqueue(s, item));
    case RunSettles(_, _) =>
    case PublishReturns(h) =>
      if h < |s.execs| && s.execs[h].publishing {
        DrainKeepsCancelled(cfg, Release(s.(execs := s.execs[h := s.execs[h].(publishing := false)]), h));
      }
    case WatchdogFires(h) => WatchdogCancelsNothing(cfg, s, h);
  }

  lemma WatchdogCancelsNothing(cfg: Config, s: State, h: nat)
    ensures Apply(cfg, s, WatchdogFires(h)).cancelled == s.cancelled
  {
    if h < |s.execs| && s.execs[h].timerArmed {
      var e := s.execs[h].(timerArmed := false);
      DrainKeepsCancelled(
        cfg,
        Release(s.(execs := s.execs[h := e.(settled := true, outcomes := e.outcomes + [Failed])]), h));
    }
  }

  lemma CancelIsAsked(cfg: Config, s: State, runId: RunId, item: Item)
    requires item in Apply(cfg, s, Cancel(runId)).cancelled && item !in s.cancelled
    ensures item.runId == runId
  {
  }

  /** Over every run: whatever was cancelled was asked to be, by its own id. */
  lemma {:induction false} CancelledWasAsked(cfg: Config, events: seq<Event>, item: Item)
    requires item in Run(cfg, INITIAL, events).cancelled
    ensures exists j :: Asks(events, j, item.runId)
  {
    if events != [] {
      var n := |events| - 1;
      var before := Run(cfg, INITIAL, events[..n]);
      assert events == events[..n] + [events[n]];
      RunSnoc(cfg, INITIAL, events[..n], events[n]);
      if item in before.cancelled {
        CancelledWasAsked(cfg, events[..n], item);
        var j :| Asks(events[..n], j, item.runId);
        assert Asks(events, j, item.runId);
      } else if events[n].Cancel? {
        CancelIsAsked(cfg, before, events[n].runId, item);
        assert Asks(events, n, item.runId);
      } else {
        OthersCancelNothing(cfg, before, events[n]);
      }
    }
  }
}
