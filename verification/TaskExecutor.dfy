/**
 * The executor object. Its methods change their fields in place, with the loops the service has;
 * each is proved to take exactly one step of the machine in `Scheduler`, so every theorem about
 * runs of the machine is a theorem about every history of calls on the object.
 */
module TaskExecutorService {
  import opened Util
  import opened Scheduler
  import opened SchedulerSlots
  import opened SchedulerFairness
  import opened SchedulerOutcomes

  class TaskExecutor {
    const cfg: Config
    var userQueues: map<UserId, seq<Item>>
    var userActive: map<UserId, int>
    var rotation: seq<UserId>     // users in the order the queue map was filled
    var rotationIdx: nat
    var activeCount: int
    var tasks: seq<Exec>          // the suspended executeTask calls

    ghost var accepted: seq<Item>
    ghost var rejected: seq<Item>
    ghost var cancelled: seq<Item>
    ghost var history: seq<Event>

    ghost function View(): State
      reads this
    {
      State(userQueues, userActive, rotation, rotationIdx, activeCount, tasks,
            accepted, rejected, cancelled)
    }

    /** The object is where its history of turns leads, so every theorem about runs applies to it. */
    ghost predicate Valid()
      reads this
    {
      View() == Run(cfg, INITIAL, history)
    }

    lemma Sound()
      requires Valid()
      ensures Inv(cfg, View())
    {
      InitialInv(cfg);
      RunKeepsInv(cfg, INITIAL, history);
    }

    constructor (cfg: Config)
      ensures Valid() && View() == INITIAL && this.cfg == cfg
    {
      this.cfg := cfg;
      userQueues, userActive, rotation, rotationIdx, activeCount, tasks := map[], map[], [], 0, 0, [];
      accepted, rejected, cancelled, history := [], [], [], [];
    }

    ghost method Record(before: State, ev: Event)
      requires before == Run(cfg, INITIAL, history)
      requires View() == Apply(cfg, before, ev)
      modifies this`history
      ensures Valid() && history == old(history) + [ev]
    {
      RunSnoc(cfg, INITIAL, history, ev);
      history := history + [ev];
    }

    /** The number of tasks waiting across all user queues. */
    method PendingCount() returns (total: nat)
      requires Wf(View())
      ensures total == Pending(userQueues, rotation)
    {
      total := 0;
      for i := 0 to |rotation|
        invariant total == Pending(userQueues, rotation[..i])
      {
        assert rotation[..i + 1][..i] == rotation[..i];
        assert rotation[i] in userQueues;
        total := total + |userQueues[rotation[i]]|;
      }
      assert rotation[..|rotation|] == rotation;
    }

    /** The modular scan; it takes the head of the nearest eligible queue, or changes nothing. */
    method NextEligibleItem() returns (item: Option<Item>)
      modifies this`userQueues, this`rotationIdx
      ensures match Pick(cfg, old(View()))
              case None => item == None && View() == old(View())
              case Some(p) =>
                && item == Some(QueueOf(old(View()), rotation[p])[0])
                && View() == TakeHead(old(View()), p)
    {
      ghost var s := View();
      for i := 0 to |rotation|
        invariant View() == s
        invariant Pick(cfg, s) == ScanFrom(cfg, s, i)
      {
        var idx := (rotationIdx + i) % |rotation|;
        var userId := rotation[idx];
        var queue := if userId in userQueues then userQueues[userId] else [];
        assert queue == QueueOf(s, userId);
        if queue == [] {
          assert !Eligible(cfg, s, userId);
          continue;
        }
        var quota := QuotaFor(cfg, queue[0]);
        var active := if userId in userActive then userActive[userId] else 0;
        if active >= quota.maxConcurrent {
          assert !Eligible(cfg, s, userId);
          continue;
        }
        assert ScanFrom(cfg, s, i) == Some(idx);
        rotationIdx := (idx + 1) % |rotation|;
        userQueues := userQueues[userId := queue[1..]];
        return Some(queue[0]);
      }
      return None;
    }

    /** Count `item` as running and start it. */
    method LaunchTask(item: Item)
      modifies this`userActive, this`activeCount, this`tasks
      ensures View() == Launch(old(View()), item)
    {
      activeCount := activeCount + 1;
      var active := if item.userId in userActive then userActive[item.userId] else 0;
      userActive := userActive[item.userId := active + 1];
      tasks := tasks + [NewExec(item)];
    }

    method DrainQueues()
      requires Inv(cfg, View())
      modifies this`userQueues, this`userActive, this`rotationIdx, this`activeCount, this`tasks
      ensures View() == Drain(cfg, old(View()))
      ensures Inv(cfg, View())
    {
      ghost var s := View();
      while activeCount < cfg.maxConcurrent
        invariant Inv(cfg, View())
        invariant Drain(cfg, View()) == Drain(cfg, s)
      {
        ghost var before := View();
        var next := NextEligibleItem();
        if next == None {
          break;
        }
        LaunchTask(next.value);
        StartKeepsInv(cfg, before, Pick(cfg, before).value);
      }
    }

    method Submit(item: Item)
      requires Valid()
      modifies this
      ensures Valid() && history == old(history) + [Event.Submit(item)]
      ensures View() == Apply(cfg, old(View()), Event.Submit(item))
      ensures var fits := Pending(old(userQueues), old(rotation)) < cfg.maxPending
                          && |QueueOf(old(View()), item.userId)| < WaitingCap(cfg, item);
              && accepted == old(accepted) + (if fits then [item] else [])
              && rejected == old(rejected) + (if fits then [] else [item])
    {
      ghost var before := View();
      AcceptedExactly(cfg, before, item);
      Sound();
      var full := IsFull(item);
      if full {
        rejected := rejected + [item];
      } else {
        Accept(item);
      }
      Record(before, Event.Submit(item));
    }

    /** Queue the item and start whatever can start now. */
    method Accept(item: Item)
      requires Inv(cfg, View()) && Accepts(cfg, View(), item)
      modifies this`userQueues, this`rotation, this`accepted
      modifies this`userActive, this`rotationIdx, this`activeCount, this`tasks
      ensures View() == Drain(cfg, Enqueue(old(View()), item))
    {
      EnqueueKeepsInv(cfg, View(), item);
      Push(item);
      DrainQueues();
    }

    /** The global ceiling first, then the user's own share. */
    method IsFull(item: Item) returns (full: bool)
      requires Wf(View())
      ensures full <==> !Accepts(cfg, View(), item)
    {
      var quota := QuotaFor(cfg, item);
      var pending := PendingCount();
      var depth := if item.userId in userQueues then |userQueues[item.userId]| else 0;
      full := pending >= cfg.maxPending || depth >= quota.maxPending;
    }

    /** Append to the user's queue, creating it and its rotation entry on first use. */
    method Push(item: Item)
      modifies this`userQueues, this`rotation, this`accepted
      ensures View() == Enqueue(old(View()), item)
    {
      var userId := item.userId;
      if userId !in userQueues {
        userQueues := userQueues[userId := []];
        rotation := rotation + [userId];
      }
      userQueues := userQueues[userId := userQueues[userId] + [item]];
      accepted := accepted + [item];
      assert userQueues == old(userQueues)[userId := QueueOf(old(View()), userId) + [item]];
    }

    method CancelQueued(runId: RunId) returns (found: bool)
      requires Valid()
      modifies this
      ensures Valid() && history == old(history) + [Cancel(runId)]
      ensures View() == Apply(cfg, old(View()), Cancel(runId))
      ensures found <==> exists u, i :: HoldsAt(old(View()), u, i, runId)
      ensures if found then exists u, i :: TakenOut(old(View()), View(), u, i, runId) else View() == old(View())
    {
      ghost var before := View();
      Sound();
      CancelsExactly(cfg, before, runId);
      found := TakeOut(runId);
      Record(before, Cancel(runId));
    }

    /** Take the first queued task with this id out of its queue. */
    method TakeOut(runId: RunId) returns (found: bool)
      modifies this`userQueues, this`cancelled
      ensures View() == Apply(cfg, old(View()), Cancel(runId))
      ensures found <==> IsQueued(old(View()), runId)
    {
      var p := FindHolder(runId);
      found := p < |rotation|;
      if found {
        RemoveAt(rotation[p], IndexOf(userQueues[rotation[p]], runId));
      }
    }

    /** Search the user queues in rotation order for a queued task. */
    method FindHolder(runId: RunId) returns (p: nat)
      ensures p == Holder(View(), runId, 0) <= |rotation|
      ensures p < |rotation| ==>
                rotation[p] in userQueues && IndexOf(userQueues[rotation[p]], runId) < |userQueues[rotation[p]]|
    {
      p := 0;
      while p < |rotation|
        invariant p <= |rotation|
        invariant Holder(View(), runId, 0) == Holder(View(), runId, p)
      {
        var userId := rotation[p];
        var queue := if userId in userQueues then userQueues[userId] else [];
        if IndexOf(queue, runId) < |queue| {
          return;
        }
        p := p + 1;
      }
    }

    method RemoveAt(userId: UserId, idx: nat)
      requires userId in userQueues && idx < |userQueues[userId]|
      modifies this`userQueues, this`cancelled
      ensures
        var queue := old(userQueues)[userId];
        View() == old(View()).(queues := old(userQueues)[userId := queue[..idx] + queue[idx + 1..]],
                               cancelled := old(cancelled) + [queue[idx]])
    {
      var queue := userQueues[userId];
      userQueues := userQueues[userId := queue[..idx] + queue[idx + 1..]];
      cancelled := cancelled + [queue[idx]];
    }

    /** Write the settled locals of task `h` back, then `finalize`: free its slot and drain. */
    method CloseTask(h: nat, task: Exec)
      requires Inv(cfg, View()) && h < |tasks| && tasks[h].releases == 0
      requires task.item == tasks[h].item && task.releases == 0 && ExecOk(task.(releases := 1))
      modifies this`userQueues, this`userActive, this`rotationIdx, this`activeCount, this`tasks
      ensures View() == Finalize(cfg, old(View()).(execs := old(tasks)[h := task]), h)
      ensures Inv(cfg, View())
    {
      ReleaseKeepsInv(cfg, View(), h, task);
      tasks := tasks[h := task];
      ReleaseSlot(h);
      DrainQueues();
    }

    method ReleaseSlot(h: nat)
      requires h < |tasks|
      modifies this`userActive, this`activeCount, this`tasks
      ensures View() == Release(old(View()), h)
    {
      var userId := tasks[h].item.userId;
      activeCount := activeCount - 1;
      var active := if userId in userActive then userActive[userId] else 1;
      userActive := userActive[userId := Max(0, active - 1)];
      tasks := tasks[h := tasks[h].(releases := tasks[h].releases + 1)];
    }

    /** The awaited run of task `h` resolves or rejects; the publish that follows is awaited. */
    method OnRunSettled(h: nat, end: RunEnd)
      requires Valid() && h < |tasks| && tasks[h].runPending
      modifies this
      ensures Valid() && history == old(history) + [RunSettles(h, end)]
      ensures View() == Apply(cfg, old(View()), RunSettles(h, end))
      ensures |tasks| == |old(tasks)| && tasks[h].settled
      ensures tasks[h].outcomes == old(tasks)[h].outcomes
                + (if old(tasks)[h].settled then [] else if end == ResolvedCompleted then [Completed] else [Failed])
    {
      ghost var before := View();
      tasks := tasks[h := tasks[h].(runPending := false)];
      if !tasks[h].settled {
        tasks := tasks[h := tasks[h].(settled := true)];
        tasks := tasks[h := tasks[h].(timerArmed := false)];
        tasks := tasks[h := tasks[h].(publishing := true,
                                      outcomes := tasks[h].outcomes + [OutcomeOf(end)])];
      }
      ApplyLatches(cfg, before, RunSettles(h, end), h);
      Record(before, RunSettles(h, end));
    }

    method OnPublishReturned(h: nat)
      requires Valid() && h < |tasks| && tasks[h].publishing
      modifies this
      ensures Valid() && history == old(history) + [PublishReturns(h)]
      ensures View() == Apply(cfg, old(View()), PublishReturns(h))
    {
      ghost var before := View();
      Sound();
      Published(h);
      Record(before, PublishReturns(h));
    }

    /** The publish was the last thing to wait for: the task gives its slot back. */
    method Published(h: nat)
      requires Inv(cfg, View()) && h < |tasks| && tasks[h].publishing
      modifies this`userQueues, this`userActive, this`rotationIdx, this`activeCount, this`tasks
      ensures View() == Apply(cfg, old(View()), PublishReturns(h))
    {
      CloseTask(h, tasks[h].(publishing := false));
    }

    /** The watchdog wins the latch: the task has failed and gives its slot back. */
    method Expire(h: nat)
      requires Inv(cfg, View()) && h < |tasks| && tasks[h].timerArmed && !tasks[h].settled
      modifies this`userQueues, this`userActive, this`rotationIdx, this`activeCount, this`tasks
      ensures View() == Apply(cfg, old(View()), WatchdogFires(h))
    {
      var task := tasks[h].(timerArmed := false, settled := true);
      CloseTask(h, task.(outcomes := task.outcomes + [Failed]));
    }

    method OnWatchdog(h: nat)
      requires Valid() && h < |tasks| && tasks[h].timerArmed
      modifies this
      ensures Valid() && history == old(history) + [WatchdogFires(h)]
      ensures View() == Apply(cfg, old(View()), WatchdogFires(h))
      ensures h < |tasks| && tasks[h].settled
      ensures tasks[h].outcomes == old(tasks)[h].outcomes + if old(tasks)[h].settled then [] else [Failed]
    {
      ghost var before := View();
      Sound();
      if !tasks[h].settled {
        Expire(h);
      }
      ApplyLatches(cfg, before, WatchdogFires(h), h);
      Record(before, WatchdogFires(h));
    }
  }
}
