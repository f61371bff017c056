/** Where every submitted task is, and in which order a user's tasks start. */
module SchedulerTasks {
  import opened Util
  import opened Scheduler
  import opened SchedulerSlots
  import opened SchedulerFairness

  // ------------------------------------------------------------ definitions

  function Submissions(events: seq<Event>): seq<Item> {
    if events == [] then []
    else (if events[0].Submit? then [events[0].item] else []) + Submissions(events[1..])
  }

  function Count(items: seq<Item>, x: Item): nat {
    if items == [] then 0
    else Count(items[..|items| - 1], x) + if items[|items| - 1] == x then 1 else 0
  }

  /** How often `x` is queued for the users in `users`. */
  function QueuedCount(queues: map<UserId, seq<Item>>, users: seq<UserId>, x: Item): nat {
    if users == [] then 0
    else
      var last := users[|users| - 1];
      QueuedCount(queues, users[..|users| - 1], x) + if last in queues then Count(queues[last], x) else 0
  }

  function ExecBit(e: Exec, open: bool, x: Item): nat {
    if e.item == x && (e.releases == 0) == open then 1 else 0
  }

  /** How often `x` was started and still holds its slot (`open`) or has given it back. */
  function StartedCount(execs: seq<Exec>, open: bool, x: Item): nat {
    if execs == [] then 0
    else StartedCount(execs[..|execs| - 1], open, x) + ExecBit(execs[|execs| - 1], open, x)
  }

  /** The items of user `u` in start order. */
  function StartedOf(execs: seq<Exec>, u: UserId): seq<Item> {
    if execs == [] then []
    else
      var last := execs[|execs| - 1];
      StartedOf(execs[..|execs| - 1], u) + if last.item.userId == u then [last.item] else []
  }

  /** The accepted items of user `u` in submission order, minus the cancelled ones. */
  function Survivors(accepted: seq<Item>, cancelled: seq<Item>, u: UserId): seq<Item> {
    if accepted == [] then []
    else
      var last := accepted[|accepted| - 1];
      Survivors(accepted[..|accepted| - 1], cancelled, u)
      + if last.userId == u && last !in cancelled then [last] else []
  }

  predicate Accounted(s: State, x: Item) {
    Count(s.accepted, x)
    == QueuedCount(s.queues, s.rotation, x) + Count(s.cancelled, x)
     + StartedCount(s.execs, true, x) + StartedCount(s.execs, false, x)
  }

  ghost predicate Fifo(s: State) {
    forall u :: StartedOf(s.execs, u) + QueueOf(s, u) == Survivors(s.accepted, s.cancelled, u)
  }

  // ------------------------------------------------------------ the partition

  lemma {:induction false} CountConcat(a: seq<Item>, b: seq<Item>, x: Item)
    ensures Count(a + b, x) == Count(a, x) + Count(b, x)
  {
    if b == [] {
      assert a + b == a;
    } else {
      CountConcat(a, b[..|b| - 1], x);
      assert (a + b)[..|a + b| - 1] == a + b[..|b| - 1];
    }
  }

  lemma CountOne(y: Item, x: Item)
    ensures Count([y], x) == if y == x then 1 else 0
  {
    assert [y][..0] == [];
  }

  lemma {:induction false} QueuedUpdate(
      queues: map<UserId, seq<Item>>, users: seq<UserId>, u: UserId, queue: seq<Item>, x: Item)
    requires NoDuplicates(users)
    ensures QueuedCount(queues[u := queue], users, x)
         == QueuedCount(queues, users, x)
          + if u in users then Count(queue, x) - (if u in queues then Count(queues[u], x) else 0) else 0
  {
    if users != [] {
      var init := users[..|users| - 1];
      QueuedUpdate(queues, init, u, queue, x);
      assert users == init + [users[|users| - 1]];
    }
  }

  lemma QueuedAppend(queues: map<UserId, seq<Item>>, users: seq<UserId>, u: UserId, x: Item)
    ensures QueuedCount(queues, users + [u], x)
         == QueuedCount(queues, users, x) + if u in queues then Count(queues[u], x) else 0
  {
    assert (users + [u])[..|users|] == users;
  }

  lemma {:induction false} StartedUpdate(execs: seq<Exec>, h: nat, e: Exec, open: bool, x: Item)
    requires h < |execs|
    ensures StartedCount(execs[h := e], open, x)
         == StartedCount(execs, open, x) - ExecBit(execs[h], open, x) + ExecBit(e, open, x)
  {
    var n := |execs| - 1;
    if h == n {
      assert execs[h := e][..n] == execs[..n];
    } else {
      assert execs[h := e][..n] == execs[..n][h := e];
      StartedUpdate(execs[..n], h, e, open, x);
    }
  }

  lemma StartedAppend(execs: seq<Exec>, e: Exec, open: bool, x: Item)
    ensures StartedCount(execs + [e], open, x) == StartedCount(execs, open, x) + ExecBit(e, open, x)
  {
    assert (execs + [e])[..|execs|] == execs;
  }

  lemma StartAccounted(s: State, p: nat, x: Item)
    requires Wf(s) && Accounted(s, x)
    requires p < |s.rotation| && QueueOf(s, s.rotation[p]) != []
    ensures Accounted(Start(s, p), x)
  {
    var u := s.rotation[p];
    var queue := s.queues[u];
    QueuedUpdate(s.queues, s.rotation, u, queue[1..], x);
    assert queue == [queue[0]] + queue[1..];
    CountConcat([queue[0]], queue[1..], x);
    CountOne(queue[0], x);
    StartedAppend(s.execs, NewExec(queue[0]), true, x);
    StartedAppend(s.execs, NewExec(queue[0]), false, x);
  }

  lemma EnqueueAccounted(s: State, item: Item, x: Item)
    requires Wf(s) && Accounted(s, x)
    ensures Accounted(Enqueue(s, item), x)
  {
    var u := item.userId;
    var s' := Enqueue(s, item);
    CountConcat(s.accepted, [item], x);
    CountConcat(QueueOf(s, u), [item], x);
    CountOne(item, x);
    QueuedUpdate(s.queues, s.rotation, u, QueueOf(s, u) + [item], x);
    assert u in s.rotation <==> u in s.queues;
    if u !in s.queues {
      QueuedAppend(s'.queues, s.rotation, u, x);
    }
  }

  lemma RemoveAccounted(s: State, runId: RunId, x: Item)
    requires Wf(s) && Accounted(s, x) && IsQueued(s, runId)
    ensures Accounted(RemoveQueued(s, runId), x)
  {
    RemoveTouchesOneQueue(s, runId);
    var u := s.rotation[Holder(s, runId, 0)];
    var queue := s.queues[u];
    var i := IndexOf(queue, runId);
    QueuedUpdate(s.queues, s.rotation, u, queue[..i] + queue[i + 1..], x);
    CountCut(queue, i, x);
    CountConcat(s.cancelled, [queue[i]], x);
  }

  lemma CountCut(queue: seq<Item>, i: nat, x: Item)
    requires i < |queue|
    ensures Count(queue, x) == Count(queue[..i] + queue[i + 1..], x) + Count([queue[i]], x)
  {
    assert queue == queue[..i] + ([queue[i]] + queue[i + 1..]);
    CountConcat(queue[..i], [queue[i]] + queue[i + 1..], x);
    CountConcat([queue[i]], queue[i + 1..], x);
    CountConcat(queue[..i], queue[i + 1..], x);
  }

  lemma ExecAccounted(s: State, h: nat, e: Exec, x: Item)
    requires Accounted(s, x) && h < |s.execs| && e.item == s.execs[h].item
    ensures Accounted(s.(execs := s.execs[h := e]), x)
  {
    StartedUpdate(s.execs, h, e, true, x);
    StartedUpdate(s.execs, h, e, false, x);
  }

  lemma {:induction false} DrainAccounted(cfg: Config, s: State, x: Item)
    requires Inv(cfg, s) && Accounted(s, x)
    ensures Accounted(Drain(cfg, s), x)
    decreases cfg.maxConcurrent - s.count
  {
    if s.count < cfg.maxConcurrent && Pick(cfg, s).Some? {
      var p := Pick(cfg, s).value;
      StartKeepsInv(cfg, s, p);
      StartAccounted(s, p, x);
      DrainAccounted(cfg, Start(s, p), x);
    }
  }

  /** Draining does not touch the record of what was submitted. */
  lemma {:induction false} DrainKeepsRecord(cfg: Config, s: State)
    ensures var s' := Drain(cfg, s);
            s'.accepted == s.accepted && s'.rejected == s.rejected && s'.cancelled == s.cancelled
    decreases cfg.maxConcurrent - s.count
  {
    if s.count < cfg.maxConcurrent && Pick(cfg, s).Some? {
      DrainKeepsRecord(cfg, Start(s, Pick(cfg, s).value));
    }
  }

  lemma ApplyRecord(cfg: Config, s: State, ev: Event)
    ensures
      var s' := Apply(cfg, s, ev);
      && s'.accepted == s.accepted
                      + (if ev.Submit? && Accepts(cfg, s, ev.item) then [ev.item] else [])
      && s'.rejected == s.rejected
                      + (if ev.Submit? && !Accepts(cfg, s, ev.item) then [ev.item] else [])
      && (!ev.Cancel? ==> s'.cancelled == s.cancelled)
  {
    match ev
    case Submit(item) =>
      DrainKeepsRecord(cfg, Enqueue(s, item));
    case Cancel(runId) =>
    case RunSettles(h, end) =>
    case PublishReturns(h) =>
      if h < |s.execs| && s.execs[h].publishing {
        DrainKeepsRecord(
          cfg, Release(s.(execs := s.execs[h := s.execs[h].(publishing := false)]), h));
      }
    case WatchdogFires(h) =>
      if h < |s.execs| && s.execs[h].timerArmed {
        var e := s.execs[h].(timerArmed := false, settled := true,
                             outcomes := s.execs[h].outcomes + [Failed]);
        DrainKeepsRecord(cfg, Release(s.(execs := s.execs[h := e]), h));
      }
  }

  lemma FinalizeAccounted(cfg: Config, s: State, h: nat, e: Exec, x: Item)
    requires Inv(cfg, s) && Accounted(s, x)
    requires h < |s.execs| && s.execs[h].releases == 0
    requires e.item == s.execs[h].item && e.releases == 0 && ExecOk(e.(releases := 1))
    ensures Accounted(Finalize(cfg, s.(execs := s.execs[h := e]), h), x)
  {
    var s1 := Release(s.(execs := s.execs[h := e]), h);
    ExecAccounted(s, h, e.(releases := 1), x);
    assert s1.execs == s.execs[h := e.(releases := 1)];
    ReleaseKeepsInv(cfg, s, h, e);
    DrainAccounted(cfg, s1, x);
  }

  lemma ApplyAccounted(cfg: Config, s: State, ev: Event, x: Item)
    requires Inv(cfg, s) && Accounted(s, x)
    ensures Accounted(Apply(cfg, s, ev), x)
  {
    match ev
    case Submit(item) =>
      if Accepts(cfg, s, item) {
        EnqueueAccounted(s, item, x);
        EnqueueKeepsInv(cfg, s, item);
        DrainAccounted(cfg, Enqueue(s, item), x);
      }
    case Cancel(runId) =>
      if IsQueued(s, runId) {
        RemoveAccounted(s, runId, x);
      }
    case RunSettles(h, end) =>
      if h < |s.execs| && s.execs[h].runPending {
        ExecAccounted(s, h, Apply(cfg, s, ev).execs[h], x);
      }
    case PublishReturns(h) =>
      if h < |s.execs| && s.execs[h].publishing {
        FinalizeAccounted(cfg, s, h, s.execs[h].(publishing := false), x);
      }
    case WatchdogFires(h) =>
      if h < |s.execs| && s.execs[h].timerArmed {
        FinalizeAccounted(cfg, s, h, s.execs[h].(timerArmed := false, settled := true,
                                                 outcomes := s.execs[h].outcomes + [Failed]), x);
      }
  }

  lemma ApplyCounts(cfg: Config, s: State, ev: Event, x: Item)
    ensures
      var s' := Apply(cfg, s, ev);
      Count(s'.accepted, x) + Count(s'.rejected, x)
      == Count(s.accepted, x) + Count(s.rejected, x) + if ev.Submit? && ev.item == x then 1 else 0
  {
    ApplyRecord(cfg, s, ev);
    if ev.Submit? {
      var taken := Accepts(cfg, s, ev.item);
      CountConcat(s.accepted, if taken then [ev.item] else [], x);
      CountConcat(s.rejected, if taken then [] else [ev.item], x);
      CountOne(ev.item, x);
    } else {
      NothingAdded(s.accepted);
      NothingAdded(s.rejected);
    }
  }

  lemma NothingAdded(items: seq<Item>)
    ensures items + [] == items
  {
  }

  lemma CountSubmissions(events: seq<Event>, x: Item)
    requires events != []
    ensures Count(Submissions(events), x)
         == Count(Submissions(events[1..]), x) + if events[0] == Submit(x) then 1 else 0
  {
    var rest := Submissions(events[1..]);
    if events[0].Submit? {
      CountConcat([events[0].item], rest, x);
      CountOne(events[0].item, x);
    } else {
      assert [] + rest == rest;
    }
  }

  lemma {:induction false} RunAccounted(cfg: Config, s: State, events: seq<Event>, x: Item)
    requires Inv(cfg, s) && Accounted(s, x)
    ensures
      var s' := Run(cfg, s, events);
      && Accounted(s', x)
      && Count(s'.accepted, x) + Count(s'.rejected, x)
         == Count(s.accepted, x) + Count(s.rejected, x) + Count(Submissions(events), x)
    decreases |events|
  {
    if events != [] {
      ApplyKeepsInv(cfg, s, events[0]);
      ApplyAccounted(cfg, s, events[0], x);
      ApplyCounts(cfg, s, events[0], x);
      CountSubmissions(events, x);
      RunAccounted(cfg, Apply(cfg, s, events[0]), events[1..], x);
    }
  }

  /**
   * Conservation of tasks over every run: every submission, counted with repetition, is rejected,
   * queued, cancelled, running or finalized.
   */
  lemma TaskPartition(cfg: Config, events: seq<Event>, x: Item)
    ensures
      var s := Run(cfg, INITIAL, events);
      Count(Submissions(events), x)
      == Count(s.rejected, x) + QueuedCount(s.queues, s.rotation, x) + Count(s.cancelled, x)
       + StartedCount(s.execs, true, x) + StartedCount(s.execs, false, x)
  {
    RunAccounted(cfg, INITIAL, events, x);
  }

  /** So with distinct submissions each submitted task is in exactly one of the five places. */
  lemma ExactlyOnePlace(cfg: Config, events: seq<Event>, x: Item)
    requires NoDuplicates(Submissions(events)) && x in Submissions(events)
    ensures
      var s := Run(cfg, INITIAL, events);
      Count(s.rejected, x) + QueuedCount(s.queues, s.rotation, x) + Count(s.cancelled, x)
      + StartedCount(s.execs, true, x) + StartedCount(s.execs, false, x) == 1
  {
    TaskPartition(cfg, events, x);
    OnceCounted(Submissions(events), x);
  }

  lemma {:induction false} OnceCounted(s: seq<Item>, x: Item)
    requires NoDuplicates(s)
    ensures Count(s, x) == if x in s then 1 else 0
  {
    if s != [] {
      var init := s[..|s| - 1];
      assert s == init + [s[|s| - 1]];
      OnceCounted(init, x);
    }
  }

  // ------------------------------------------------------------ submission order

  lemma SurvivorsAppend(accepted: seq<Item>, cancelled: seq<Item>, item: Item, u: UserId)
    ensures Survivors(accepted + [item], cancelled, u)
         == Survivors(accepted, cancelled, u)
          + if item.userId == u && item !in cancelled then [item] else []
  {
    assert (accepted + [item])[..|accepted|] == accepted;
  }

  lemma {:induction false} SurvivorsAreAccepted(
      accepted: seq<Item>, cancelled: seq<Item>, u: UserId)
    ensures forall x :: x in Survivors(accepted, cancelled, u) ==> x in accepted && x !in cancelled
    ensures NoDuplicates(accepted) ==> NoDuplicates(Survivors(accepted, cancelled, u))
  {
    if accepted != [] {
      var init := accepted[..|accepted| - 1];
      assert accepted == init + [accepted[|accepted| - 1]];
      SurvivorsAreAccepted(init, cancelled, u);
    }
  }

  function Without(s: seq<Item>, x: Item): seq<Item> {
    if s == [] then []
    else Without(s[..|s| - 1], x) + if s[|s| - 1] == x then [] else [s[|s| - 1]]
  }

  lemma {:induction false} WithoutAbsent(s: seq<Item>, x: Item)
    requires x !in s
    ensures Without(s, x) == s
  {
    if s != [] {
      assert s == s[..|s| - 1] + [s[|s| - 1]];
      WithoutAbsent(s[..|s| - 1], x);
    }
  }

  lemma {:induction false} WithoutAt(s: seq<Item>, i: nat)
    requires NoDuplicates(s) && i < |s|
    ensures Without(s, s[i]) == s[..i] + s[i + 1..]
  {
    var init := s[..|s| - 1];
    assert s == init + [s[|s| - 1]];
    if i == |s| - 1 {
      WithoutAbsent(init, s[i]);
      assert s[..i] + s[i + 1..] == init;
    } else {
      WithoutAt(init, i);
      assert s[..i] + s[i + 1..] == init[..i] + init[i + 1..] + [s[|s| - 1]];
    }
  }

  lemma {:induction false} SurvivorsCancel(
      accepted: seq<Item>, cancelled: seq<Item>, x: Item, u: UserId)
    ensures Survivors(accepted, cancelled + [x], u) == Without(Survivors(accepted, cancelled, u), x)
  {
    if accepted != [] {
      var init := accepted[..|accepted| - 1];
      SurvivorsCancel(init, cancelled, x, u);
      var last := accepted[|accepted| - 1];
      var rest := Survivors(init, cancelled, u);
      if last.userId == u && last !in cancelled {
        assert (rest + [last])[..|rest|] == rest;
      } else {
        assert rest + [] == rest;
      }
    }
  }

  lemma StartFifo(s: State, p: nat)
    requires Wf(s) && Fifo(s) && p < |s.rotation| && QueueOf(s, s.rotation[p]) != []
    ensures Fifo(Start(s, p))
  {
    var s' := Start(s, p);
    forall u
      ensures StartedOf(s'.execs, u) + QueueOf(s', u) == Survivors(s'.accepted, s'.cancelled, u)
    {
      assert StartedOf(s.execs, u) + QueueOf(s, u) == Survivors(s.accepted, s.cancelled, u);
      HeadMoves(s, p, u);
    }
  }

  /** A started task moves from the head of its queue to the end of the started ones. */
  lemma HeadMoves(s: State, p: nat, u: UserId)
    requires Wf(s) && p < |s.rotation| && QueueOf(s, s.rotation[p]) != []
    ensures var s' := Start(s, p);
            StartedOf(s'.execs, u) + QueueOf(s', u) == StartedOf(s.execs, u) + QueueOf(s, u)
  {
    var v := s.rotation[p];
    var head := QueueOf(s, v)[0];
    StartedOfAppend(s.execs, NewExec(head), u);
    StartTakesHead(s, p, u);
    if u == v {
      OneMoved(StartedOf(s.execs, u), QueueOf(s, u));
    }
  }

  lemma StartTakesHead(s: State, p: nat, u: UserId)
    requires Wf(s) && p < |s.rotation| && QueueOf(s, s.rotation[p]) != []
    ensures var v := s.rotation[p];
            && Start(s, p).execs == s.execs + [NewExec(QueueOf(s, v)[0])]
            && QueueOf(s, v)[0].userId == v
            && QueueOf(Start(s, p), u) == (if u == v then QueueOf(s, u)[1..] else QueueOf(s, u))
  {
  }

  lemma OneMoved(started: seq<Item>, queue: seq<Item>)
    requires queue != []
    ensures started + [queue[0]] + queue[1..] == started + queue
  {
  }

  lemma StartedOfAppend(execs: seq<Exec>, e: Exec, u: UserId)
    ensures StartedOf(execs + [e], u) == StartedOf(execs, u) + if e.item.userId == u then [e.item] else []
  {
    assert (execs + [e])[..|execs|] == execs;
  }

  lemma EnqueueFifo(s: State, item: Item)
    requires Fifo(s) && item !in s.cancelled
    ensures Fifo(Enqueue(s, item))
  {
    var s' := Enqueue(s, item);
    forall u
      ensures StartedOf(s'.execs, u) + QueueOf(s', u) == Survivors(s'.accepted, s'.cancelled, u)
    {
      SurvivorsAppend(s.accepted, s.cancelled, item, u);
      assert StartedOf(s.execs, u) + QueueOf(s, u) == Survivors(s.accepted, s.cancelled, u);
    }
  }

  lemma RemoveFifo(s: State, runId: RunId)
    requires Wf(s) && Fifo(s) && IsQueued(s, runId) && NoDuplicates(s.accepted)
    ensures Fifo(RemoveQueued(s, runId))
    ensures forall x :: x in RemoveQueued(s, runId).cancelled ==> x in s.cancelled || x in s.accepted
  {
    var v := s.rotation[Holder(s, runId, 0)];
    var s' := RemoveQueued(s, runId);
    assert StartedOf(s.execs, v) + QueueOf(s, v) == Survivors(s.accepted, s.cancelled, v);
    QueuedIsAccepted(s.accepted, s.cancelled, v, StartedOf(s.execs, v), QueueOf(s, v));
    forall u
      ensures StartedOf(s'.execs, u) + QueueOf(s', u) == Survivors(s'.accepted, s'.cancelled, u)
    {
      assert StartedOf(s.execs, u) + QueueOf(s, u) == Survivors(s.accepted, s.cancelled, u);
      RemoveKeepsOrder(s, runId, u);
    }
  }

  lemma QueuedIsAccepted(
      accepted: seq<Item>, cancelled: seq<Item>, u: UserId, started: seq<Item>, queue: seq<Item>)
    requires started + queue == Survivors(accepted, cancelled, u)
    ensures forall x :: x in queue ==> x in accepted
  {
    SurvivorsAreAccepted(accepted, cancelled, u);
    forall x | x in queue ensures x in started + queue {
    }
  }

  lemma RemoveKeepsOrder(s: State, runId: RunId, u: UserId)
    requires Wf(s) && IsQueued(s, runId) && NoDuplicates(s.accepted)
    requires StartedOf(s.execs, u) + QueueOf(s, u) == Survivors(s.accepted, s.cancelled, u)
    ensures var s' := RemoveQueued(s, runId);
            StartedOf(s'.execs, u) + QueueOf(s', u) == Survivors(s'.accepted, s'.cancelled, u)
  {
    RemoveTouchesOneQueue(s, runId);
    var v := s.rotation[Holder(s, runId, 0)];
    var queue := QueueOf(s, v);
    var i := IndexOf(queue, runId);
    if u == v {
      CancelInQueue(s.accepted, s.cancelled, u, StartedOf(s.execs, u), queue, i);
    } else {
      CancelElsewhere(s.accepted, s.cancelled, u, queue[i]);
    }
  }

  lemma CancelInQueue(
      accepted: seq<Item>, cancelled: seq<Item>, u: UserId, started: seq<Item>, queue: seq<Item>, i: nat)
    requires NoDuplicates(accepted) && i < |queue|
    requires started + queue == Survivors(accepted, cancelled, u)
    ensures started + (queue[..i] + queue[i + 1..]) == Survivors(accepted, cancelled + [queue[i]], u)
  {
    var all := started + queue;
    var k := |started| + i;
    SurvivorsCancel(accepted, cancelled, queue[i], u);
    SurvivorsAreAccepted(accepted, cancelled, u);
    assert all[k] == queue[i];
    WithoutAt(all, k);
    CutSecond(started, queue, i);
  }

  lemma CutSecond(started: seq<Item>, queue: seq<Item>, i: nat)
    requires i < |queue|
    ensures var all, k := started + queue, |started| + i;
            all[..k] + all[k + 1..] == started + (queue[..i] + queue[i + 1..])
  {
  }

  lemma CancelElsewhere(accepted: seq<Item>, cancelled: seq<Item>, u: UserId, x: Item)
    requires x.userId != u
    ensures Survivors(accepted, cancelled + [x], u) == Survivors(accepted, cancelled, u)
  {
    SurvivorsCancel(accepted, cancelled, x, u);
    SurvivorsOwner(accepted, cancelled, u);
    WithoutAbsent(Survivors(accepted, cancelled, u), x);
  }

  lemma {:induction false} SurvivorsOwner(accepted: seq<Item>, cancelled: seq<Item>, u: UserId)
    ensures forall x :: x in Survivors(accepted, cancelled, u) ==> x.userId == u
  {
    if accepted != [] {
      SurvivorsOwner(accepted[..|accepted| - 1], cancelled, u);
    }
  }

  lemma {:induction false} StartedOfUpdate(execs: seq<Exec>, h: nat, e: Exec, u: UserId)
    requires h < |execs| && e.item == execs[h].item
    ensures StartedOf(execs[h := e], u) == StartedOf(execs, u)
  {
    var n := |execs| - 1;
    if h == n {
      assert execs[h := e][..n] == execs[..n];
    } else {
      assert execs[h := e][..n] == execs[..n][h := e];
      StartedOfUpdate(execs[..n], h, e, u);
    }
  }

  lemma ExecFifo(s: State, s': State, h: nat, e: Exec)
    requires Fifo(s) && h < |s.execs| && e.item == s.execs[h].item
    requires s'.execs == s.execs[h := e] && s'.queues == s.queues
    requires s'.accepted == s.accepted && s'.cancelled == s.cancelled
    ensures Fifo(s')
  {
    forall u
      ensures StartedOf(s'.execs, u) + QueueOf(s', u) == Survivors(s'.accepted, s'.cancelled, u)
    {
      StartedOfUpdate(s.execs, h, e, u);
      assert StartedOf(s.execs, u) + QueueOf(s, u) == Survivors(s.accepted, s.cancelled, u);
    }
  }

  lemma {:induction false} DrainFifo(cfg: Config, s: State)
    requires Inv(cfg, s) && Fifo(s)
    ensures Fifo(Drain(cfg, s))
    decreases cfg.maxConcurrent - s.count
  {
    if s.count < cfg.maxConcurrent && Pick(cfg, s).Some? {
      var p := Pick(cfg, s).value;
      StartKeepsInv(cfg, s, p);
      StartFifo(s, p);
      DrainFifo(cfg, Start(s, p));
    }
  }

  lemma FinalizeFifo(cfg: Config, s: State, h: nat, e: Exec)
    requires Inv(cfg, s) && Fifo(s)
    requires h < |s.execs| && s.execs[h].releases == 0
    requires e.item == s.execs[h].item && e.releases == 0 && ExecOk(e.(releases := 1))
    ensures Fifo(Finalize(cfg, s.(execs := s.execs[h := e]), h))
  {
    var s1 := Release(s.(execs := s.execs[h := e]), h);
    assert s1.execs == s.execs[h := e.(releases := 1)];
    ExecFifo(s, s1, h, e.(releases := 1));
    ReleaseKeepsInv(cfg, s, h, e);
    DrainFifo(cfg, s1);
  }

  /** Only accepted tasks are ever cancelled. */
  ghost predicate CancelsAccepted(s: State) {
    forall x :: x in s.cancelled ==> x in s.accepted
  }

  lemma ApplyFifo(cfg: Config, s: State, ev: Event)
    requires Inv(cfg, s) && Fifo(s) && CancelsAccepted(s)
    requires NoDuplicates(s.accepted)
    requires ev.Submit? ==> ev.item !in s.accepted
    ensures Fifo(Apply(cfg, s, ev)) && CancelsAccepted(Apply(cfg, s, ev))
  {
    ApplyRecord(cfg, s, ev);
    match ev
    case Submit(item) =>
      if Accepts(cfg, s, item) {
        EnqueueFifo(s, item);
        EnqueueKeepsInv(cfg, s, item);
        DrainFifo(cfg, Enqueue(s, item));
      } else {
        RejectFifo(s, item);
      }
    case Cancel(runId) =>
      if IsQueued(s, runId) {
        RemoveFifo(s, runId);
      }
    case RunSettles(h, end) =>
      if h < |s.execs| && s.execs[h].runPending {
        ExecFifo(s, Apply(cfg, s, ev), h, Apply(cfg, s, ev).execs[h]);
      }
    case PublishReturns(h) =>
      if h < |s.execs| && s.execs[h].publishing {
        FinalizeFifo(cfg, s, h, s.execs[h].(publishing := false));
      }
    case WatchdogFires(h) =>
      if h < |s.execs| && s.execs[h].timerArmed {
        FinalizeFifo(cfg, s, h, s.execs[h].(timerArmed := false, settled := true,
                                            outcomes := s.execs[h].outcomes + [Failed]));
      }
  }

  lemma RejectFifo(s: State, item: Item)
    requires Fifo(s)
    ensures Fifo(s.(rejected := s.rejected + [item]))
  {
    var s' := s.(rejected := s.rejected + [item]);
    forall u
      ensures StartedOf(s'.execs, u) + QueueOf(s', u) == Survivors(s'.accepted, s'.cancelled, u)
    {
      assert StartedOf(s.execs, u) + QueueOf(s, u) == Survivors(s.accepted, s.cancelled, u);
    }
  }

  lemma DropSecond<T>(a: seq<T>, x: T, c: seq<T>)
    requires NoDuplicates(a + ([x] + c))
    ensures NoDuplicates(a) && x !in a && NoDuplicates(a + c) && NoDuplicates(a + [x] + c)
  {
    var all := a + ([x] + c);
    assert all[|a|] == x;
    assert forall i | 0 <= i < |a| :: all[i] == a[i];
    forall i, j | 0 <= i < j < |a + c| ensures (a + c)[i] != (a + c)[j] {
      assert (a + c)[i] == all[if i < |a| then i else i + 1];
      assert (a + c)[j] == all[if j < |a| then j else j + 1];
    }
    assert a + [x] + c == all;
  }

  lemma {:induction false} RunFifo(cfg: Config, s: State, events: seq<Event>)
    requires Inv(cfg, s) && Fifo(s) && CancelsAccepted(s)
    requires NoDuplicates(s.accepted + Submissions(events))
    ensures Fifo(Run(cfg, s, events))
    decreases |events|
  {
    if events != [] {
      var ev := events[0];
      if ev.Submit? {
        DropSecond(s.accepted, ev.item, Submissions(events[1..]));
      } else {
        assert [] + Submissions(events[1..]) == Submissions(events[1..]);
        assert forall i | 0 <= i < |s.accepted| :: (s.accepted + Submissions(events))[i] == s.accepted[i];
      }
      ApplyKeepsInv(cfg, s, ev);
      ApplyRecord(cfg, s, ev);
      ApplyFifo(cfg, s, ev);
      assert s.accepted + [] == s.accepted;
      RunFifo(cfg, Apply(cfg, s, ev), events[1..]);
    }
  }

  /**
   * Start order over every run with distinct submissions: for each user, the started tasks in start
   * order followed by the queued ones are the accepted tasks in submission order without the
   * cancelled ones.
   */
  lemma StartsInSubmissionOrder(cfg: Config, events: seq<Event>, u: UserId)
    requires NoDuplicates(Submissions(events))
    ensures
      var s := Run(cfg, INITIAL, events);
      StartedOf(s.execs, u) + QueueOf(s, u) == Survivors(s.accepted, s.cancelled, u)
  {
    assert [] + Submissions(events) == Submissions(events);
    RunFifo(cfg, INITIAL, events);
  }
}
